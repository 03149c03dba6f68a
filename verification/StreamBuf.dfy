/**
 asio's `basic_streambuf`: one growable vector that holds a get area and a put area.

 `Area` is the state as a value (the vector's bytes and the five pointers as offsets), with one
 function per operation. `BasicStreambuf` is the object itself: an array updated in place, whose
 methods are proved to compute those functions. `Fifo` is what the class promises to be: a queue
 of bytes with a size limit. The lemmas connect `Area` to `Fifo` over every run.
 */
module StreamBuf {
  import opened Common

  const BUFFER_DELTA: nat := 128
  const SIZE_LIMIT: nat := 0x1_0000_0000_0000_0000 // one past the largest size_t
  const INT_LIMIT: nat := 0x8000_0000              // one past the largest int
  const PTRDIFF_LIMIT: nat := 0x8000_0000_0000_0000

  datatype Outcome = Ok(area: Area) | LengthError(area: Area) {
    /** Applies `next` unless the exception was thrown. */
    function Then(next: Area -> Area): Outcome {
      match this
      case Ok(a) => Ok(next(a))
      case LengthError(a) => this
    }
  }

  datatype Area = Area(mem: seq<byte>, eback: nat, gptr: nat, egptr: nat, pptr: nat, epptr: nat, max: nat) {

    ghost predicate Valid() {
      && eback == 0
      && gptr <= egptr <= pptr <= epptr <= max < SIZE_LIMIT
      && |mem| == Max(epptr, 1)
    }

    function Size(): nat
      requires gptr <= pptr
    {
      pptr - gptr
    }

    /** The input sequence; it runs to pptr even where egptr lags behind. */
    function Contents(): seq<byte>
      requires gptr <= pptr <= |mem|
    {
      mem[gptr..pptr]
    }

    /** The memory once the readable bytes are moved to its start. */
    function Shifted(): seq<byte>
      requires gptr <= pptr <= |mem|
    {
      seq(|mem|, i requires 0 <= i < |mem| => if i < pptr - gptr then mem[gptr + i] else mem[i])
    }

    function Reserve(n: nat): Outcome
      requires gptr <= pptr <= epptr && pptr <= |mem|
    {
      if n <= epptr - pptr then
        Ok(this)
      else
        var pnext := pptr - gptr;
        if n <= epptr - pnext then
          Ok(Area(Shifted(), 0, 0, pnext, pnext, epptr, max))
        else if n <= max && pnext <= max - n then
          Ok(Area(Resized(Shifted(), Max(pnext + n, 1)), 0, 0, pnext, pnext, pnext + n, max))
        else
          LengthError(this.(mem := Shifted()))
    }

    /** Stores `data` at the start of the put area, as the caller of `prepare` does. */
    function Fill(data: seq<byte>): Area
      requires pptr + |data| <= |mem|
    {
      this.(mem := mem[..pptr] + data + mem[pptr + |data|..])
    }

    function Commit(n: nat): Area
      requires pptr <= epptr
    {
      var p := pptr + Min(n, epptr - pptr);
      this.(pptr := p, egptr := p)
    }

    function Consume(n: nat): Area
      requires gptr <= pptr
    {
      var a := if egptr < pptr then this.(eback := 0, egptr := pptr) else this;
      a.(gptr := gptr + if gptr + n > pptr then pptr - gptr else n)
    }

    function Underflow(): (Area, Option<byte>)
      requires pptr <= |mem|
    {
      if gptr < pptr then (this.(eback := 0, egptr := pptr), Some(mem[gptr])) else (this, None)
    }

    /** sgetc of std::streambuf: looks at the next byte. */
    function Sgetc(): (Area, Option<byte>)
      requires gptr <= egptr <= pptr <= |mem|
    {
      if gptr < egptr then (this, Some(mem[gptr])) else Underflow()
    }

    /** sbumpc of std::streambuf: takes the next byte. */
    function Sbumpc(): (Area, Option<byte>)
      requires gptr <= egptr <= pptr <= |mem|
    {
      var (a, got) := Sgetc();
      (if got.Some? then a.(gptr := a.gptr + 1) else a, got)
    }

    /** How much room `overflow` asks for. */
    function OverflowRequest(): nat
      requires gptr <= pptr
    {
      if Size() < max && max - Size() < BUFFER_DELTA then max - Size() else BUFFER_DELTA
    }

    function Store(c: byte): Area {
      if pptr < |mem| then this.(mem := mem[pptr := c], pptr := pptr + 1) else this
    }

    function Overflow(c: Option<byte>): Outcome
      requires gptr <= pptr <= epptr && pptr <= |mem|
    {
      if c == None then Ok(this)
      else if pptr == epptr then Reserve(OverflowRequest()).Then((a: Area) => a.Store(c.value))
      else Ok(Store(c.value))
    }

    /** sputc of std::streambuf: stores directly while the put area has room. */
    function Sputc(c: byte): Outcome
      requires gptr <= pptr <= epptr && pptr <= |mem|
    {
      if pptr < epptr then Ok(Store(c)) else Overflow(Some(c))
    }
  }

  /** std::vector::resize. */
  function Resized(mem: seq<byte>, n: nat): seq<byte> {
    seq(n, i requires 0 <= i < n => if i < |mem| then mem[i] else 0)
  }

  function Initial(max: nat): Area {
    var pend := Min(max, BUFFER_DELTA);
    Area(Resized([], Max(pend, 1)), 0, 0, 0, 0, pend, max)
  }

  function ReadSizeHelper(capacity: nat, size: nat, max: nat, limit: nat): int {
    Min(Max(512, capacity - size), Min(limit, max - size))
  }

  // ---------------------------------------------------------------------------------------------
  // reserve
  // ---------------------------------------------------------------------------------------------

  /** `reserve` throws exactly when the request does not fit below the size limit, and where it
      does not throw it keeps the readable bytes and leaves room for the request. It grows no
      further than the request needs, and does nothing where there is room already. */
  lemma ReserveExact(a: Area, n: nat)
    requires a.Valid()
    ensures a.Reserve(n).LengthError? <==> a.Size() + n > a.max
    ensures var r := a.Reserve(n);
      r.Ok? ==>
        && r.area.Valid() && r.area.max == a.max
        && r.area.Contents() == a.Contents()
        && r.area.epptr - r.area.pptr >= n
        && r.area.epptr == Max(a.epptr, a.Size() + n)
        && (n <= a.epptr - a.pptr ==> r.area == a)
    ensures var r := a.Reserve(n);
      r.LengthError? ==> r.area.Valid() && r.area == a.(mem := r.area.mem) && |r.area.mem| == |a.mem|
  {
    if n > a.epptr - a.pptr {
      assert a.Shifted()[..a.Size()] == a.Contents();
    }
  }

  /** `reserve` in the two steps in which the object takes it. */
  lemma ReserveByParts(a: Area, n: nat)
    requires a.Valid() && n > a.epptr - a.pptr
    ensures var pnext := a.Size();
      var end := Max(a.epptr, pnext + n);
      a.Reserve(n) ==
        if n > a.epptr - pnext && !(n <= a.max && pnext <= a.max - n)
        then LengthError(a.(mem := a.Shifted()))
        else Ok(Area(Resized(a.Shifted(), Max(end, 1)), 0, 0, pnext, pnext, end, a.max))
  {
    assert |a.Shifted()| == |a.mem|;
    assert Resized(a.Shifted(), |a.mem|) == a.Shifted();
  }

  /** Moving the bytes down by `step` would leave each of them as it was. */
  ghost predicate Periodic(q: seq<byte>, step: nat) {
    forall i: nat :: i + step < |q| ==> q[i] == q[i + step]
  }

  lemma MovedAt(a: Area, i: nat)
    requires a.Valid() && i < a.Size()
    ensures a.(mem := a.Shifted()).Contents()[i]
         == if i + a.gptr < a.Size() then a.Contents()[i + a.gptr] else a.Contents()[i]
  {
    var at := a.gptr + i;
    assert a.(mem := a.Shifted()).Contents()[i] == a.Shifted()[at];
    if at < a.Size() { assert a.Contents()[at] == a.mem[a.gptr + at]; }
  }

  lemma ShiftedIsSameIff(q: seq<byte>, after: seq<byte>, step: nat)
    requires |after| == |q|
    requires forall i: nat :: i < |q| ==> after[i] == if i + step < |q| then q[i + step] else q[i]
    ensures after == q <==> Periodic(q, step)
  {
    if Periodic(q, step) {
      forall i: nat | i < |q| ensures after[i] == q[i] {
        assert after[i] == if i + step < |q| then q[i + step] else q[i];
        if i + step < |q| { assert q[i] == q[i + step]; }
      }
    } else {
      var i: nat :| i + step < |q| && q[i] != q[i + step];
      assert after[i] == q[i + step];
    }
  }

  lemma ShiftKeepsContentsIff(a: Area)
    requires a.Valid()
    ensures |a.Shifted()| == |a.mem|
    ensures a.(mem := a.Shifted()).Contents() == a.Contents() <==> Periodic(a.Contents(), a.gptr)
  {
    var q, after := a.Contents(), a.(mem := a.Shifted()).Contents();
    forall i: nat | i < |q| ensures after[i] == if i + a.gptr < |q| then q[i + a.gptr] else q[i] {
      MovedAt(a, i);
    }
    ShiftedIsSameIff(q, after, a.gptr);
  }

  /** The move happens before the exception, so a throwing `reserve` keeps the readable bytes
      exactly when they repeat with the period gptr. */
  lemma ThrowKeepsContentsIff(a: Area, n: nat)
    requires a.Valid() && a.Size() + n > a.max
    ensures a.Reserve(n).LengthError?
    ensures a.Reserve(n).area.Contents() == a.Contents() <==> Periodic(a.Contents(), a.gptr)
  {
    ReserveExact(a, n);
    ShiftKeepsContentsIff(a);
  }

  /** `reserve` with a vector that may fail to grow, for want of memory or beyond its own limit. */
  function ReserveWith(a: Area, n: nat, grows: bool): Outcome
    requires a.Valid()
  {
    if !grows && a.Size() + n <= a.max && a.Size() + n > a.epptr then LengthError(a.(mem := a.Shifted()))
    else a.Reserve(n)
  }

  /** Then it throws if and only if the request does not fit or a vector that must grow fails to; and
      either way the readable bytes survive if and only if they repeat with the period gptr. */
  lemma ReserveThrowsIff(a: Area, n: nat, grows: bool)
    requires a.Valid()
    ensures var r := ReserveWith(a, n, grows);
      && (r.LengthError? <==> a.Size() + n > a.max || (a.Size() + n > a.epptr && !grows))
      && (r.LengthError? ==> r.area.Valid() && r.area == a.(mem := a.Shifted()))
      && (r.LengthError? ==> (r.area.Contents() == a.Contents() <==> Periodic(a.Contents(), a.gptr)))
  {
    ReserveExact(a, n);
    ShiftKeepsContentsIff(a);
  }

  /** `prepare` of the size `read_size_helper` suggests never throws, whatever capacity the vector has.
      The size is nothing only if nothing was asked for or the buffer is full; it is what was asked for
      exactly where that fits and is at most 512 or at most what the vector has room for; and where more
      was asked for, it is all that fits, or at least 512 bytes and all that the vector has room for. */
  lemma HelperNeverThrows(a: Area, capacity: nat, limit: nat)
    requires a.Valid() && |a.mem| <= capacity
    ensures 0 <= capacity - a.Size() && 0 <= a.max - a.Size()
    ensures var n := ReadSizeHelper(capacity, a.Size(), a.max, limit);
      && 0 <= n <= limit && a.Reserve(n).Ok?
      && (n == 0 <==> limit == 0 || a.Size() == a.max)
      && (n == limit <==> limit <= a.max - a.Size() && (limit <= 512 || limit <= capacity - a.Size()))
      && (n < limit ==> n == a.max - a.Size() || n >= Max(512, capacity - a.Size()))
  {
    var n := ReadSizeHelper(capacity, a.Size(), a.max, limit);
    ReserveExact(a, n);
  }

  /** `overflow` throws exactly when the buffer is full, and then nothing at all changes. Otherwise
      the room it asks for can always be had and the byte becomes the last one queued; a vector that
      must grow does so by 128 bytes, or less only up to the limit. */
  lemma OverflowExact(a: Area, c: byte)
    requires a.Valid() && a.pptr == a.epptr
    ensures var r := a.Overflow(Some(c));
      if a.Size() == a.max then
        r == LengthError(a)
      else
        && r.Ok? && r.area.Valid() && r.area.max == a.max && r.area.Contents() == a.Contents() + [c]
        && r.area.epptr == Max(a.epptr, Min(a.max, a.Size() + BUFFER_DELTA))
  {
    var n := a.OverflowRequest();
    ReserveExact(a, n);
    if a.Size() == a.max {
      assert a.gptr == 0;
      assert a.Shifted() == a.mem;
    } else {
      StoreAppends(a.Reserve(n).area, c);
    }
  }

  lemma RequestGivesRoom(a: Area)
    requires a.Valid()
    ensures var r := a.Reserve(a.OverflowRequest()); r.Ok? ==> r.area.pptr < r.area.epptr
  {
    ReserveExact(a, a.OverflowRequest());
  }

  lemma StoreAppends(a: Area, c: byte)
    requires a.Valid() && a.pptr < a.epptr
    ensures a.Store(c).Valid() && a.Store(c).max == a.max
    ensures a.Store(c).Contents() == a.Contents() + [c]
  {
  }

  // ---------------------------------------------------------------------------------------------
  // Refinement of a bounded queue
  // ---------------------------------------------------------------------------------------------

  /** The calls a client can make. `Write(data, k)` is prepare(|data|), filling it, and commit(k). */
  datatype Op =
    | Sputc(c: byte)
    | Write(data: seq<byte>, k: nat)
    | Prepare(n: nat)
    | Sgetc
    | Sbumpc
    | Consume(n: nat)
  {
    /** commit must be preceded by a prepare of at least as many bytes. */
    predicate Allowed() {
      Write? ==> k <= |data|
    }

    /** The room this call claims through `prepare`. */
    function Claim(): nat {
      match this
      case Write(data, _) => |data|
      case Prepare(n) => n
      case _ => 0
    }
  }

  /** What a caller observes of one call. */
  datatype Seen = Seen(threw: bool, got: Option<byte>)

  function Apply(a: Area, op: Op): (Area, Seen)
    requires a.Valid() && op.Allowed()
  {
    match op
    case Sputc(c) =>
      var r := a.Sputc(c);
      (r.area, Seen(r.LengthError?, None))
    case Write(data, k) =>
      ReserveExact(a, |data|);
      var r := a.Reserve(|data|);
      (if r.Ok? then r.area.Fill(data).Commit(k) else r.area, Seen(r.LengthError?, None))
    case Prepare(n) =>
      var r := a.Reserve(n);
      (r.area, Seen(r.LengthError?, None))
    case Sgetc => (a.Sgetc().0, Seen(false, a.Sgetc().1))
    case Sbumpc => (a.Sbumpc().0, Seen(false, a.Sbumpc().1))
    case Consume(n) => (a.Consume(n), Seen(false, None))
  }

  /** The promise: a queue holding at most `max` bytes. */
  datatype Fifo = Fifo(queue: seq<byte>, max: nat)

  function Added(f: Fifo, op: Op): seq<byte>
    requires op.Allowed()
  {
    match op
    case Sputc(c) => if |f.queue| < f.max then [c] else []
    case Write(data, k) => if |f.queue| + |data| <= f.max then data[..k] else []
    case _ => []
  }

  function Removed(f: Fifo, op: Op): seq<byte> {
    match op
    case Sbumpc => if f.queue == [] then [] else [f.queue[0]]
    case Consume(n) => f.queue[..Min(n, |f.queue|)]
    case _ => []
  }

  function Observed(f: Fifo, op: Op): Seen {
    match op
    case Sputc(_) => Seen(|f.queue| >= f.max, None)
    case Write(_, _) => Seen(|f.queue| + op.Claim() > f.max, None)
    case Prepare(_) => Seen(|f.queue| + op.Claim() > f.max, None)
    case Consume(_) => Seen(false, None)
    case _ => Seen(false, if f.queue == [] then None else Some(f.queue[0]))
  }

  function FifoApply(f: Fifo, op: Op): Fifo
    requires op.Allowed()
  {
    match op
    case Sputc(c) => if |f.queue| < f.max then f.(queue := f.queue + [c]) else f
    case Write(data, k) => if |f.queue| + |data| <= f.max then f.(queue := f.queue + data[..k]) else f
    case Prepare(_) => f
    case Sgetc => f
    case Sbumpc => if f.queue == [] then f else f.(queue := f.queue[1..])
    case Consume(n) => f.(queue := f.queue[Min(n, |f.queue|)..])
  }

  /** No exception out of `prepare`, or one whose early move cannot be noticed. */
  ghost predicate Harmless(a: Area, op: Op)
    requires a.Valid()
  {
    a.Size() + op.Claim() <= a.max || Periodic(a.Contents(), a.gptr)
  }

  /** One call on the buffer is one step of the queue, seen and unseen, if and only if it is harmless. */
  lemma StepRefinesIff(a: Area, op: Op)
    requires a.Valid() && op.Allowed()
    ensures var (b, seen) := Apply(a, op);
      var f := Fifo(a.Contents(), a.max);
      && b.Valid()
      && b.max == a.max
      && seen == Observed(f, op)
      && (Fifo(b.Contents(), b.max) == FifoApply(f, op) <==> Harmless(a, op))
  {
    var f := Fifo(a.Contents(), a.max);
    match op {
      case Sputc(c) => SputcRefines(a, c);
      case Write(data, k) => WriteRefinesIff(a, data, k);
      case Prepare(n) => PrepareRefinesIff(a, n);
      case Sgetc => PeekRefines(a);
      case Sbumpc => PeekRefines(a); if a.Contents() != [] { TakeRefines(a); }
      case Consume(n) => ConsumeRefines(a, n);
    }
  }

  lemma SputcRefines(a: Area, c: byte)
    requires a.Valid()
    ensures var r := a.Sputc(c);
      && r.area.Valid() && r.area.max == a.max
      && (r.LengthError? <==> a.Size() >= a.max)
      && r.area.Contents() == if a.Size() < a.max then a.Contents() + [c] else a.Contents()
  {
    if a.pptr < a.epptr { StoreAppends(a, c); } else { OverflowExact(a, c); }
  }

  lemma PrepareRefinesIff(a: Area, n: nat)
    requires a.Valid()
    ensures var r := a.Reserve(n);
      && r.area.Valid() && r.area.max == a.max
      && (r.LengthError? <==> a.Size() + n > a.max)
      && (r.area.Contents() == a.Contents() <==> Harmless(a, Prepare(n)))
  {
    ReserveExact(a, n);
    if a.Size() + n > a.max { ThrowKeepsContentsIff(a, n); }
  }

  /** The get area catches up with the put area without losing or repeating a byte. */
  lemma ConsumeRefines(a: Area, n: nat)
    requires a.Valid()
    ensures var b := a.Consume(n);
      b.Valid() && b.max == a.max && b.Contents() == a.Contents()[Min(n, a.Size())..]
  {
  }

  lemma PeekRefines(a: Area)
    requires a.Valid()
    ensures var (b, got) := a.Sgetc();
      && b.Valid() && b.max == a.max && b.Contents() == a.Contents()
      && got == (if a.Contents() == [] then None else Some(a.Contents()[0]))
      && (got.Some? ==> b.gptr < b.egptr)
  {
  }

  lemma TakeRefines(a: Area)
    requires a.Valid() && a.Contents() != []
    ensures var b := a.Sbumpc().0;
      b.Valid() && b.max == a.max && b.Contents() == a.Contents()[1..]
  {
    PeekRefines(a);
    var b := a.Sgetc().0;
    assert b.(gptr := b.gptr + 1).Contents() == b.Contents()[1..];
  }

  lemma WriteRefinesIff(a: Area, data: seq<byte>, k: nat)
    requires a.Valid() && k <= |data|
    ensures var (b, seen) := Apply(a, Write(data, k));
      var f := Fifo(a.Contents(), a.max);
      && b.Valid()
      && b.max == a.max
      && seen.threw == (a.Size() + |data| > a.max)
      && (Fifo(b.Contents(), b.max) == FifoApply(f, Write(data, k)) <==> Harmless(a, Write(data, k)))
  {
    ReserveExact(a, |data|);
    var f := Fifo(a.Contents(), a.max);
    var r := a.Reserve(|data|).area;
    if a.Size() + |data| > a.max {
      ThrowKeepsContentsIff(a, |data|);
    } else {
      FillAppends(r, data, k);
    }
  }

  /** Filling the prepared room and committing part of it queues that part. */
  lemma FillAppends(a: Area, data: seq<byte>, k: nat)
    requires a.Valid() && k <= |data| <= a.epptr - a.pptr
    ensures var b := a.Fill(data).Commit(k);
      b.Valid() && b.max == a.max && b.Contents() == a.Contents() + data[..k]
  {
    var b := a.Fill(data).Commit(k);
    assert b.Contents() == a.Contents() + data[..k];
  }

  function Run(a: Area, ops: seq<Op>): (Area, seq<Seen>)
    requires a.Valid() && forall op <- ops :: op.Allowed()
    decreases |ops|
  {
    if ops == [] then (a, [])
    else
      StepRefinesIff(a, ops[0]);
      var (b, seen) := Apply(a, ops[0]);
      var (c, rest) := Run(b, ops[1..]);
      (c, [seen] + rest)
  }

  lemma RunCons(a: Area, op: Op, rest: seq<Op>)
    requires a.Valid() && op.Allowed() && forall o <- rest :: o.Allowed()
    ensures Apply(a, op).0.Valid() && Run(a, [op] + rest).0 == Run(Apply(a, op).0, rest).0
  {
    StepRefinesIff(a, op);
    assert ([op] + rest)[1..] == rest;
  }

  lemma ThreePut()
    ensures Apply(Initial(3), Sputc(1)).0 == Area([1, 0, 0], 0, 0, 0, 1, 3, 3)
    ensures Apply(Area([1, 0, 0], 0, 0, 0, 1, 3, 3), Sputc(2)).0 == Area([1, 2, 0], 0, 0, 0, 2, 3, 3)
    ensures Apply(Area([1, 2, 0], 0, 0, 0, 2, 3, 3), Sputc(3)).0 == Area([1, 2, 3], 0, 0, 0, 3, 3, 3)
  {
    assert Initial(3).mem == [0, 0, 0];
  }

  /** A new buffer for three bytes; 1, 2 and 3 are put and the first is consumed. A `prepare` of two bytes
      throws, and then reading gives 3 3, not 2 3. */
  lemma ThrowDamagesExample()
    ensures var a := Area([1, 2, 3], 0, 1, 3, 3, 3, 3);
      && Run(Initial(3), [Sputc(1)] + ([Sputc(2)] + ([Sputc(3)] + ([Consume(1)] + [])))).0 == a
      && a.Valid() && a.Contents() == [2, 3] && a.Reserve(2).LengthError? && a.Reserve(2).area.Contents() == [3, 3]
  {
    var b, c := Area([1, 0, 0], 0, 0, 0, 1, 3, 3), Area([1, 2, 0], 0, 0, 0, 2, 3, 3);
    var d, e := Area([1, 2, 3], 0, 0, 0, 3, 3, 3), Area([1, 2, 3], 0, 1, 3, 3, 3, 3);
    ThreePut();
    RunCons(Initial(3), Sputc(1), [Sputc(2)] + ([Sputc(3)] + ([Consume(1)] + [])));
    RunCons(b, Sputc(2), [Sputc(3)] + ([Consume(1)] + []));
    RunCons(c, Sputc(3), [Consume(1)] + []);
    RunCons(d, Consume(1), []);
    assert Apply(d, Consume(1)).0 == e && e.Shifted() == [2, 3, 3];
  }

  function FifoRun(f: Fifo, ops: seq<Op>): (Fifo, seq<Seen>)
    requires forall op <- ops :: op.Allowed()
    decreases |ops|
  {
    if ops == [] then (f, [])
    else
      var (g, rest) := FifoRun(FifoApply(f, ops[0]), ops[1..]);
      (g, [Observed(f, ops[0])] + rest)
  }

  ghost predicate HarmlessRun(a: Area, ops: seq<Op>)
    requires a.Valid() && forall op <- ops :: op.Allowed()
    decreases |ops|
  {
    if ops == [] then true
    else
      StepRefinesIff(a, ops[0]);
      Harmless(a, ops[0]) && HarmlessRun(Apply(a, ops[0]).0, ops[1..])
  }

  /** Every run from any reachable state behaves as the bounded queue does: the same bytes, the same
      exceptions, the same bytes left over. */
  lemma {:induction false} RunRefines(a: Area, ops: seq<Op>)
    requires a.Valid() && (forall op <- ops :: op.Allowed()) && HarmlessRun(a, ops)
    ensures var (b, seen) := Run(a, ops);
      b.Valid() && b.max == a.max && FifoRun(Fifo(a.Contents(), a.max), ops) == (Fifo(b.Contents(), b.max), seen)
    decreases |ops|
  {
    if ops != [] {
      StepRefinesIff(a, ops[0]);
      RunRefines(Apply(a, ops[0]).0, ops[1..]);
    }
  }

  /** The readable bytes after each call, and the same for the queue. */
  function Trace(a: Area, ops: seq<Op>): seq<seq<byte>>
    requires a.Valid() && forall op <- ops :: op.Allowed()
    decreases |ops|
  {
    if ops == [] then []
    else
      StepRefinesIff(a, ops[0]);
      var b := Apply(a, ops[0]).0;
      [b.Contents()] + Trace(b, ops[1..])
  }

  function FifoTrace(f: Fifo, ops: seq<Op>): seq<seq<byte>>
    requires forall op <- ops :: op.Allowed()
    decreases |ops|
  {
    if ops == [] then []
    else
      var g := FifoApply(f, ops[0]);
      [g.queue] + FifoTrace(g, ops[1..])
  }

  /** And no other run does: the readable bytes are the queue after every call if and only if every
      call of the run is harmless. */
  lemma {:induction false} TraceRefinesIff(a: Area, ops: seq<Op>)
    requires a.Valid() && forall op <- ops :: op.Allowed()
    ensures Trace(a, ops) == FifoTrace(Fifo(a.Contents(), a.max), ops) <==> HarmlessRun(a, ops)
    decreases |ops|
  {
    if ops != [] {
      StepRefinesIff(a, ops[0]);
      var b, g := Apply(a, ops[0]).0, FifoApply(Fifo(a.Contents(), a.max), ops[0]);
      FifoLimitStays(Fifo(a.Contents(), a.max), ops[0]);
      var rest, fifoRest := Trace(b, ops[1..]), FifoTrace(g, ops[1..]);
      ConsIff(b.Contents(), rest, g.queue, fifoRest);
      if Harmless(a, ops[0]) { TraceRefinesIff(b, ops[1..]); }
    }
  }

  lemma FifoLimitStays(f: Fifo, op: Op)
    requires op.Allowed()
    ensures FifoApply(f, op).max == f.max
  {
  }

  /** As long as no `prepare` asks for more than fits, nothing needs checking: a run from a new
      buffer is a run of an empty queue. */
  ghost predicate Fits(f: Fifo, ops: seq<Op>)
    requires forall op <- ops :: op.Allowed()
    decreases |ops|
  {
    ops != [] ==> |f.queue| + ops[0].Claim() <= f.max && Fits(FifoApply(f, ops[0]), ops[1..])
  }

  lemma {:induction false} FittingRunsAreHarmless(a: Area, ops: seq<Op>)
    requires a.Valid() && (forall op <- ops :: op.Allowed()) && Fits(Fifo(a.Contents(), a.max), ops)
    ensures HarmlessRun(a, ops)
    decreases |ops|
  {
    if ops != [] {
      StepRefinesIff(a, ops[0]);
      FittingRunsAreHarmless(Apply(a, ops[0]).0, ops[1..]);
    }
  }

  lemma NewBufferIsFifo(max: nat, ops: seq<Op>)
    requires max < SIZE_LIMIT && (forall op <- ops :: op.Allowed()) && Fits(Fifo([], max), ops)
    ensures Initial(max).Valid()
    ensures var (b, seen) := Run(Initial(max), ops);
      b.Valid() && FifoRun(Fifo([], max), ops) == (Fifo(b.Contents(), max), seen)
  {
    assert Initial(max).Contents() == [];
    FittingRunsAreHarmless(Initial(max), ops);
    RunRefines(Initial(max), ops);
  }

  function AllAdded(f: Fifo, ops: seq<Op>): seq<byte>
    requires forall op <- ops :: op.Allowed()
    decreases |ops|
  {
    if ops == [] then [] else Added(f, ops[0]) + AllAdded(FifoApply(f, ops[0]), ops[1..])
  }

  function AllRemoved(f: Fifo, ops: seq<Op>): seq<byte>
    requires forall op <- ops :: op.Allowed()
    decreases |ops|
  {
    if ops == [] then [] else Removed(f, ops[0]) + AllRemoved(FifoApply(f, ops[0]), ops[1..])
  }

  /** First in, first out, and nothing lost: what was there and what was added is, in order, what was
      taken and what is left. */
  lemma {:induction false} FifoConserves(f: Fifo, ops: seq<Op>)
    requires forall op <- ops :: op.Allowed()
    ensures f.queue + AllAdded(f, ops) == AllRemoved(f, ops) + FifoRun(f, ops).0.queue
    decreases |ops|
  {
    if ops != [] {
      var g := FifoApply(f, ops[0]);
      FifoConserves(g, ops[1..]);
      StepConserves(f, ops[0]);
      Regroup(f.queue, Added(f, ops[0]), AllAdded(g, ops[1..]));
      Regroup(Removed(f, ops[0]), g.queue, AllAdded(g, ops[1..]));
      Regroup(Removed(f, ops[0]), AllRemoved(g, ops[1..]), FifoRun(g, ops[1..]).0.queue);
    }
  }

  lemma StepConserves(f: Fifo, op: Op)
    requires op.Allowed()
    ensures f.queue + Added(f, op) == Removed(f, op) + FifoApply(f, op).queue
  {
    var r := Removed(f, op);
    assert f.queue == r + f.queue[|r|..];
    match op
    case _ => assert f.queue + [] == f.queue;
  }

  // ---------------------------------------------------------------------------------------------
  // The object
  // ---------------------------------------------------------------------------------------------

  class BasicStreambuf {
    const maxSize: nat
    var buffer: array<byte>
    var eback: nat
    var gptr: nat
    var egptr: nat
    var pptr: nat
    var epptr: nat

    ghost function View(): Area
      reads this, buffer
    {
      Area(buffer[..], eback, gptr, egptr, pptr, epptr, maxSize)
    }

    ghost predicate Valid()
      reads this, buffer
    {
      View().Valid()
    }

    constructor (maximumSize: nat)
      requires maximumSize < SIZE_LIMIT
      ensures Valid() && fresh(buffer)
      ensures View() == Initial(maximumSize) && View().Contents() == []
    {
      var pend := Min(maximumSize, BUFFER_DELTA);
      maxSize := maximumSize;
      buffer := new byte[Max(pend, 1)](_ => 0);
      eback, gptr, egptr := 0, 0, 0;
      pptr, epptr := 0, pend;
      new;
      assert buffer[..] == Resized([], Max(pend, 1));
    }

    method Size() returns (n: nat)
      requires Valid()
      ensures n == |View().Contents()| <= maxSize
    {
      n := pptr - gptr;
    }

    method Data() returns (bytes: seq<byte>)
      requires Valid()
      ensures bytes == View().Contents()
    {
      bytes := buffer[gptr..pptr];
    }

    method Reserve(n: nat) returns (threw: bool)
      requires Valid() && n < SIZE_LIMIT
      modifies this, buffer
      ensures threw == old(View()).Reserve(n).LengthError? && View() == old(View()).Reserve(n).area
      ensures threw <==> old(View()).Size() + n > maxSize
      ensures Valid()
      ensures buffer == old(buffer) || fresh(buffer)
    {
      ReserveExact(View(), n);
      threw := false;
      if n > epptr - pptr {
        threw := Rebuild(n);
      }
    }

    /** The part of `reserve` that runs when the put area is too small. */
    method Rebuild(n: nat) returns (threw: bool)
      requires Valid() && epptr - pptr < n < SIZE_LIMIT
      modifies this, buffer
      ensures threw == old(View()).Reserve(n).LengthError? && View() == old(View()).Reserve(n).area
      ensures buffer == old(buffer) || fresh(buffer)
    {
      ReserveByParts(View(), n);
      var pnext := ShiftToFront();
      threw := EnsureLarge(n, pnext, epptr);
    }

    /** The first half of `reserve`: the readable bytes go to the start of the storage. */
    method ShiftToFront() returns (pnext: nat)
      requires Valid()
      modifies buffer
      ensures pnext == pptr - gptr
      ensures View() == old(View()).(mem := old(View()).Shifted())
    {
      ghost var shifted := View().Shifted();
      pnext := pptr;
      if gptr > 0 {
        pnext := pnext - gptr;
        MoveToFront(gptr, pnext);
      }
      assert buffer[..] == shifted;
    }

    /** The second half of `reserve`, once the readable bytes are at the start of the storage. */
    method EnsureLarge(n: nat, pnext: nat, pend: nat) returns (threw: bool)
      requires pnext <= pend <= maxSize < SIZE_LIMIT && buffer.Length == Max(pend, 1)
      modifies this, buffer
      ensures threw <==> n > pend - pnext && !(n <= maxSize && pnext <= maxSize - n)
      ensures threw ==> View() == old(View())
      ensures !threw ==> var end := Max(pend, pnext + n);
        View() == Area(Resized(old(buffer[..]), Max(end, 1)), 0, 0, pnext, pnext, end, maxSize)
      ensures buffer == old(buffer) || fresh(buffer)
    {
      var end := pend;
      if n > pend - pnext {
        if n <= maxSize && pnext <= maxSize - n {
          end := pnext + n;
          assert end < SIZE_LIMIT;
          Resize(Max(end, 1));
        } else {
          return true;
        }
      }
      SetPointers(pnext, end);
      return false;
    }

    /** setg and setp after a move to the front. */
    method SetPointers(pnext: nat, pend: nat)
      modifies this`eback, this`gptr, this`egptr, this`pptr, this`epptr
      ensures View() == Area(old(buffer[..]), 0, 0, pnext, pnext, pend, maxSize)
    {
      eback, gptr, egptr := 0, 0, pnext;
      pptr, epptr := pnext, pend;
    }

    /** std::memmove from offset `from` to the start of the storage. */
    method MoveToFront(from: nat, count: nat)
      requires from + count <= buffer.Length
      modifies buffer
      ensures forall i | 0 <= i < count :: buffer[i] == old(buffer[from + i])
      ensures forall i | count <= i < buffer.Length :: buffer[i] == old(buffer[i])
    {
      forall i | 0 <= i < count {
        buffer[i] := buffer[from + i];
      }
    }

    /** std::vector::resize on the storage. */
    method Resize(n: nat)
      requires n >= buffer.Length
      modifies this`buffer
      ensures fresh(buffer) && buffer[..] == Resized(old(buffer[..]), n)
    {
      var grown := new byte[n](_ => 0);
      forall i | 0 <= i < buffer.Length {
        grown[i] := buffer[i];
      }
      ghost var was := buffer[..];
      buffer := grown;
      assert buffer[..] == Resized(was, n);
    }

    /** The offset of the put area, of which at least n bytes may be filled. */
    method Prepare(n: nat) returns (threw: bool, start: nat)
      requires Valid() && n < SIZE_LIMIT
      modifies this, buffer
      ensures Valid() && (buffer == old(buffer) || fresh(buffer))
      ensures threw == old(View()).Reserve(n).LengthError? && View() == old(View()).Reserve(n).area
      ensures !threw ==> start == pptr && start + n <= buffer.Length && View().Contents() == old(View().Contents())
    {
      ReserveExact(View(), n);
      threw := Reserve(n);
      start := pptr;
    }

    method Commit(n: nat)
      requires Valid() && Min(n, epptr - pptr) < INT_LIMIT
      modifies this`pptr, this`egptr, this`eback
      ensures Valid() && View() == old(View()).Commit(n)
    {
      var count := Min(n, epptr - pptr);
      pptr := pptr + count;
      egptr := pptr;
    }

    method Consume(n: nat)
      requires Valid() && n < PTRDIFF_LIMIT && Min(n, pptr - gptr) < INT_LIMIT
      modifies this`gptr, this`egptr, this`eback
      ensures Valid() && View() == old(View()).Consume(n)
    {
      if egptr < pptr {
        eback, egptr := 0, pptr;
      }
      var count := n;
      if gptr + n > pptr {
        count := pptr - gptr;
      }
      gptr := gptr + count;
    }

    method Underflow() returns (got: Option<byte>)
      requires Valid()
      modifies this`egptr, this`eback
      ensures Valid() && (View(), got) == old(View()).Underflow()
    {
      if gptr < pptr {
        eback, egptr := 0, pptr;
        got := Some(buffer[gptr]);
      } else {
        got := None;
      }
    }

    method Sgetc() returns (got: Option<byte>)
      requires Valid()
      modifies this`egptr, this`eback
      ensures Valid() && (View(), got) == old(View()).Sgetc()
    {
      if gptr < egptr {
        got := Some(buffer[gptr]);
      } else {
        got := Underflow();
      }
    }

    method Sbumpc() returns (got: Option<byte>)
      requires Valid()
      modifies this`gptr, this`egptr, this`eback
      ensures Valid() && (View(), got) == old(View()).Sbumpc()
    {
      got := Sgetc();
      if got.Some? {
        gptr := gptr + 1;
      }
    }

    method Overflow(c: Option<byte>) returns (threw: bool)
      requires Valid()
      modifies this, buffer
      ensures Valid() && (buffer == old(buffer) || fresh(buffer))
      ensures threw == old(View()).Overflow(c).LengthError? && View() == old(View()).Overflow(c).area
    {
      threw := false;
      if c.Some? {
        if pptr == epptr {
          RequestGivesRoom(View());
          var size, request := pptr - gptr, BUFFER_DELTA;
          if size < maxSize && maxSize - size < BUFFER_DELTA {
            request := maxSize - size;
          }
          threw := Reserve(request);
          if threw {
            return;
          }
        }
        StoreByte(c.value);
      }
    }

    method StoreByte(c: byte)
      requires Valid() && pptr < epptr
      modifies this`pptr, buffer
      ensures Valid() && View() == old(View()).Store(c)
    {
      StoreAppends(View(), c);
      buffer[pptr] := c;
      pptr := pptr + 1;
    }

    method Sputc(c: byte) returns (threw: bool)
      requires Valid()
      modifies this, buffer
      ensures Valid() && (buffer == old(buffer) || fresh(buffer))
      ensures threw == old(View()).Sputc(c).LengthError? && View() == old(View()).Sputc(c).area
      ensures threw <==> old(View()).Size() == maxSize
      ensures View().Contents() == old(View().Contents()) + if threw then [] else [c]
    {
      ghost var start := View();
      if pptr < epptr {
        StoreAppends(start, c);
        StoreByte(c);
        threw := false;
      } else {
        OverflowExact(start, c);
        threw := Overflow(Some(c));
      }
    }
  }
}
