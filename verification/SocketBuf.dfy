/**
 The put area of asio's `basic_socket_streambuf`: characters collect in a buffer that `overflow`
 flushes through a socket which may send little, refuse, or not be ready.
 */
module SocketBuf {
  import opened Common

  const BUFFER_SIZE: nat := 512

  /** What one turn of the send loop meets: the deadline has passed; send takes 1 + more bytes, at
      most what is offered; send fails for good; or it would block, and the wait ends ready or not. */
  datatype Attempt = Expired | Sends(more: nat) | Refused | WouldBlock(ready: bool)

  /** How many of `size` bytes get out from the i-th attempt on, and whether all of them do. An
      attempt the script does not name finds the deadline passed. */
  function Pump(size: nat, script: seq<Attempt>, i: nat): (r: (nat, bool))
    ensures r.0 <= size && (r.1 <==> r.0 == size)
    decreases |script| - i
  {
    if size == 0 then (0, true)
    else if i >= |script| then (0, false)
    else match script[i]
      case Expired => (0, false)
      case Refused => (0, false)
      case WouldBlock(ready) => if ready then Pump(size, script, i + 1) else (0, false)
      case Sends(more) =>
        var n := Min(1 + more, size);
        var (k, all) := Pump(size - n, script, i + 1);
        (n + k, all)
  }

  /** How many bytes the socket would take, of any number offered, before the deadline, an error or a
      wait that fails. */
  function Offered(script: seq<Attempt>, i: nat): nat
    decreases |script| - i
  {
    if i >= |script| then 0
    else match script[i]
      case Expired => 0
      case Refused => 0
      case WouldBlock(ready) => if ready then Offered(script, i + 1) else 0
      case Sends(more) => 1 + more + Offered(script, i + 1)
  }

  /** The loop gets out what it has or what the socket takes, whichever is less, and succeeds if and
      only if the socket takes it all. */
  lemma {:induction false} PumpIsOffered(size: nat, script: seq<Attempt>, i: nat)
    ensures Pump(size, script, i) == (Min(size, Offered(script, i)), size <= Offered(script, i))
    decreases |script| - i
  {
    if size > 0 && i < |script| {
      match script[i] {
        case WouldBlock(_) => PumpIsOffered(size, script, i + 1);
        case Sends(more) => PumpIsOffered(size - Min(1 + more, size), script, i + 1);
        case _ =>
      }
    }
  }

  /** What a call returned: its character or success, or eof. */
  datatype Result = Result(area: Area, eof: bool)

  /** Buffer capacity (0: unbuffered), characters pending in it, and all bytes the socket accepted. */
  datatype Area = Area(capacity: nat, pending: seq<byte>, sent: seq<byte>) {
    predicate Valid() {
      |pending| <= capacity
    }

    /** What `overflow` has to send. */
    function Output(c: Option<byte>): seq<byte> {
      if capacity > 0 then pending else if c.Some? then [c.value] else []
    }

    function Overflow(c: Option<byte>, script: seq<Attempt>): Result {
      var out := Output(c);
      var (k, all) := Pump(|out|, script, 0);
      var a := this.(sent := sent + out[..k]);
      if !all then Result(a, true)
      else if capacity == 0 then Result(a, false)
      else Result(a.(pending := if c.Some? then [c.value] else []), false)
    }

    function Sputc(c: byte, script: seq<Attempt>): Result {
      if |pending| < capacity then Result(this.(pending := pending + [c]), false) else Overflow(Some(c), script)
    }

    /** setbuf(0, 0): only an empty buffer can be given up. */
    function Unbuffer(): Result {
      if pending == [] then Result(this.(capacity := 0), false) else Result(this, true)
    }
  }

  datatype Call = Put(c: byte, script: seq<Attempt>) | Sync(script: seq<Attempt>) | SetBuf

  function Apply(a: Area, call: Call): Result {
    match call
    case Put(c, script) => a.Sputc(c, script)
    case Sync(script) => a.Overflow(None, script)
    case SetBuf => a.Unbuffer()
  }

  function AcceptedBy(a: Area, call: Call): seq<byte> {
    if call.Put? && !Apply(a, call).eof then [call.c] else []
  }

  function Run(a: Area, calls: seq<Call>, i: nat): Area
    requires i <= |calls|
    decreases |calls| - i
  {
    if i == |calls| then a else Run(Apply(a, calls[i]).area, calls, i + 1)
  }

  /** The characters whose put succeeded, in order. */
  function Accepted(a: Area, calls: seq<Call>, i: nat): seq<byte>
    requires i <= |calls|
    decreases |calls| - i
  {
    if i == |calls| then [] else AcceptedBy(a, calls[i]) + Accepted(Apply(a, calls[i]).area, calls, i + 1)
  }

  /** A call that flushes what the socket is about to take a part of, but not all. */
  predicate CutShort(a: Area, call: Call) {
    match call
    case Put(c, script) => |a.pending| >= a.capacity && 0 < Offered(script, 0) < |a.Output(Some(c))|
    case Sync(script) => 0 < Offered(script, 0) < |a.Output(None)|
    case SetBuf => false
  }

  /** Bytes the socket takes in flushes cut short, and so is offered again. */
  function Resent(a: Area, calls: seq<Call>, i: nat): nat
    requires i <= |calls|
    decreases |calls| - i
  {
    if i == |calls| then 0
    else
      var taken := if CutShort(a, calls[i]) then Offered(calls[i].script, 0) else 0;
      taken + Resent(Apply(a, calls[i]).area, calls, i + 1)
  }

  ghost predicate SomeFlushCutShort(a: Area, calls: seq<Call>, i: nat)
    requires i <= |calls|
    decreases |calls| - i
  {
    i < |calls| && (CutShort(a, calls[i]) || SomeFlushCutShort(Apply(a, calls[i]).area, calls, i + 1))
  }

  /** A call that returns eof sent the first k characters pending and kept them all. */
  lemma EofKeepsPending(a: Area, call: Call)
    requires a.Valid() && Apply(a, call).eof
    ensures var b := Apply(a, call).area;
      && b.capacity == a.capacity && b.pending == a.pending
      && exists k: nat :: k <= |a.pending| && b.sent == a.sent + a.pending[..k]
  {
    var out := if call.SetBuf? then [] else a.Output(if call.Put? then Some(call.c) else None);
    var k := if call.SetBuf? then 0 else Pump(|out|, call.script, 0).0;
    assert a.sent + [] == a.sent;
    if k == 0 {
      assert Apply(a, call).area.sent == a.sent + a.pending[..0];
    } else {
      assert out == a.pending;
      assert Apply(a, call).area.sent == a.sent + a.pending[..k];
    }
  }

  /** A call that does not: sent and pending together grow by the character it took. */
  lemma CallConserves(a: Area, call: Call)
    requires a.Valid() && !Apply(a, call).eof
    ensures var b := Apply(a, call).area;
      b.Valid() && b.sent + b.pending == (a.sent + a.pending) + AcceptedBy(a, call)
  {
    var b := Apply(a, call).area;
    match call {
      case Put(c, script) =>
        if |a.pending| < a.capacity {
          Regroup(a.sent, a.pending, [c]);
        } else {
          OverflowConserves(a, Some(c), script);
        }
      case Sync(script) => OverflowConserves(a, None, script);
      case SetBuf =>
    }
  }

  /** What a failing call sent, from what the socket would take. */
  lemma EofSends(a: Area, call: Call)
    requires a.Valid() && Apply(a, call).eof
    ensures |Apply(a, call).area.sent| == |a.sent| + if CutShort(a, call) then Offered(call.script, 0) else 0
  {
    if !call.SetBuf? {
      PumpIsOffered(|a.Output(if call.Put? then Some(call.c) else None)|, call.script, 0);
    }
  }

  lemma CutShortFails(a: Area, call: Call)
    requires CutShort(a, call)
    ensures Apply(a, call).eof
  {
    PumpIsOffered(|a.Output(if call.Put? then Some(call.c) else None)|, call.script, 0);
  }

  lemma OverflowConserves(a: Area, c: Option<byte>, script: seq<Attempt>)
    requires a.Valid() && !a.Overflow(c, script).eof
    ensures var b := a.Overflow(c, script).area;
      b.Valid() && b.sent + b.pending == (a.sent + a.pending) + if c.Some? then [c.value] else []
  {
    var out := a.Output(c);
    assert out[..|out|] == out;
  }

  /** What a flush is for: with a buffer it succeeds if and only if the socket takes all that is
      pending, and then exactly that was sent, in its order, and nothing is pending. */
  lemma SyncFlushesIff(a: Area, script: seq<Attempt>)
    requires a.Valid()
    ensures var r := Apply(a, Sync(script));
      && (r.eof <==> Offered(script, 0) < |a.pending|)
      && r.area.capacity == a.capacity
      && (if r.eof then r.area.pending == a.pending && r.area.sent == a.sent + a.pending[..Offered(script, 0)]
          else r.area.pending == [] && r.area.sent == a.sent + a.pending)
  {
    var out := a.Output(None);
    assert out == a.pending;
    PumpIsOffered(|out|, script, 0);
    assert out[..|out|] == out;
  }

  /** A character goes to the buffer while there is room, and nothing is sent. With the buffer full it
      is taken if and only if the socket takes all of the buffer, and then it alone is pending; with no
      buffer if and only if the socket takes it, and then it is sent. */
  lemma PutExact(a: Area, c: byte, script: seq<Attempt>)
    requires a.Valid()
    ensures var r := Apply(a, Put(c, script));
      if |a.pending| < a.capacity then
        r == Result(Area(a.capacity, a.pending + [c], a.sent), false)
      else if a.capacity > 0 then
        && (r.eof <==> Offered(script, 0) < |a.pending|)
        && (!r.eof ==> r.area == Area(a.capacity, [c], a.sent + a.pending))
      else
        && (r.eof <==> Offered(script, 0) == 0)
        && (!r.eof ==> r.area == Area(0, [], a.sent + [c]))
  {
    var out := a.Output(Some(c));
    PumpIsOffered(|out|, script, 0);
    assert out[..|out|] == out;
  }

  /** For any calls and any socket: counted, nothing is lost, and what is sent twice is what the
      failing calls had sent already. */
  lemma {:induction false} RunCounts(a: Area, calls: seq<Call>, i: nat)
    requires i <= |calls| && a.Valid()
    ensures var b := Run(a, calls, i);
      b.Valid() && |b.sent| + |b.pending| == |a.sent| + |a.pending| + |Accepted(a, calls, i)| + Resent(a, calls, i)
    decreases |calls| - i
  {
    if i < |calls| {
      if CutShort(a, calls[i]) { CutShortFails(a, calls[i]); }
      if Apply(a, calls[i]).eof {
        EofKeepsPending(a, calls[i]);
        EofSends(a, calls[i]);
      } else {
        CallConserves(a, calls[i]);
      }
      RunCounts(Apply(a, calls[i]).area, calls, i + 1);
    }
  }

  lemma {:induction false} NoResendConserves(a: Area, calls: seq<Call>, i: nat)
    requires i <= |calls| && a.Valid() && Resent(a, calls, i) == 0
    ensures var b := Run(a, calls, i);
      b.sent + b.pending == (a.sent + a.pending) + Accepted(a, calls, i)
    decreases |calls| - i
  {
    if i < |calls| {
      var r := Apply(a, calls[i]);
      if r.eof {
        EofKeepsPending(a, calls[i]);
        EofSends(a, calls[i]);
        assert r.area.sent == a.sent;
      } else {
        CallConserves(a, calls[i]);
      }
      NoResendConserves(r.area, calls, i + 1);
      Regroup(a.sent + a.pending, AcceptedBy(a, calls[i]), Accepted(r.area, calls, i + 1));
    }
  }

  lemma {:induction false} ResentIff(a: Area, calls: seq<Call>, i: nat)
    requires i <= |calls|
    ensures Resent(a, calls, i) == 0 <==> !SomeFlushCutShort(a, calls, i)
    decreases |calls| - i
  {
    if i < |calls| {
      ResentIff(Apply(a, calls[i]).area, calls, i + 1);
    }
  }

  /** Over any run, what the socket accepted followed by what is pending is exactly what was put, in
      order, if and only if no flush met a socket that would take some, but not all, of what was pending. */
  lemma ConservedIff(a: Area, calls: seq<Call>)
    requires a.Valid()
    ensures var b := Run(a, calls, 0);
      b.sent + b.pending == (a.sent + a.pending) + Accepted(a, calls, 0) <==> !SomeFlushCutShort(a, calls, 0)
  {
    var b := Run(a, calls, 0);
    RunCounts(a, calls, 0);
    ResentIff(a, calls, 0);
    assert |b.sent + b.pending| == |b.sent| + |b.pending|;
    if Resent(a, calls, 0) == 0 {
      NoResendConserves(a, calls, 0);
    }
  }

  /** What a caller can see beforehand: a flush that fails is sure to have sent nothing, whatever the
      socket does, if and only if the buffer holds one character at most. */
  lemma FlushIsSafeIff(a: Area)
    requires a.Valid()
    ensures
      (forall script :: Apply(a, Sync(script)).eof ==> Apply(a, Sync(script)).area.sent == a.sent)
      <==> |a.pending| <= 1
  {
    forall script | Apply(a, Sync(script)).eof
      ensures |a.pending| <= 1 ==> Apply(a, Sync(script)).area.sent == a.sent
    {
      EofSends(a, Sync(script));
      EofKeepsPending(a, Sync(script));
    }
    if |a.pending| > 1 {
      var script := [Sends(0)];
      assert Offered(script, 0) == 1 && CutShort(a, Sync(script));
      CutShortFails(a, Sync(script));
    }
  }

  /** In particular as long as no call returns eof. */
  lemma {:induction false} NoEofNoResend(a: Area, calls: seq<Call>, i: nat)
    requires i <= |calls| && NoEof(a, calls, i)
    ensures !SomeFlushCutShort(a, calls, i) && Resent(a, calls, i) == 0
    decreases |calls| - i
  {
    if i < |calls| {
      if CutShort(a, calls[i]) { CutShortFails(a, calls[i]); }
      NoEofNoResend(Apply(a, calls[i]).area, calls, i + 1);
    }
  }

  predicate NoEof(a: Area, calls: seq<Call>, i: nat)
    requires i <= |calls|
    decreases |calls| - i
  {
    i < |calls| ==> !Apply(a, calls[i]).eof && NoEof(Apply(a, calls[i]).area, calls, i + 1)
  }

  /** Unbuffered, a failing call sent nothing: only a buffer can be sent in part. */
  lemma UnbufferedNeverResends(a: Area, call: Call)
    requires a.Valid() && a.capacity == 0 && Apply(a, call).eof
    ensures Apply(a, call).area == a
  {
    assert a.sent + [] == a.sent;
  }

  /** Two characters pending, one sent, then an error; the next flush sends both: 1 1 2. */
  lemma ResendExample()
    ensures var a := Area(512, [1, 2], []);
      Run(a, [Sync([Sends(0), Refused]), Sync([Sends(1)])], 0) == Area(512, [], [1, 1, 2])
  {
    var a := Area(512, [1, 2], []);
    var calls := [Sync([Sends(0), Refused]), Sync([Sends(1)])];
    assert Pump(2, calls[0].script, 0) == (1, false);
    assert a.pending[..1] == [1];
    var b := Apply(a, calls[0]).area;
    assert b == Area(512, [1, 2], [1]);
    assert Pump(2, calls[1].script, 0) == (2, true);
    assert Run(b, calls, 1) == Run(Apply(b, calls[1]).area, calls, 2);
  }

  class BasicSocketStreambuf {
    var putBuffer: array<byte>
    var pptr: nat
    ghost var sent: seq<byte>

    ghost predicate Valid()
      reads this
    {
      pptr <= putBuffer.Length
    }

    ghost function View(): Area
      requires Valid()
      reads this, putBuffer
    {
      Area(putBuffer.Length, putBuffer[..pptr], sent)
    }

    constructor ()
      ensures Valid() && fresh(putBuffer) && View() == Area(BUFFER_SIZE, [], [])
    {
      putBuffer := new byte[512];
      pptr, sent := 0, [];
    }

    /** The send loop: `k` bytes of `output` get out. */
    method Send(output: seq<byte>, script: seq<Attempt>) returns (k: nat, all: bool)
      modifies this`sent
      ensures (k, all) == Pump(|output|, script, 0)
      ensures sent == old(sent) + output[..k]
    {
      var i := 0;
      k := 0;
      assert sent == old(sent) + output[..0];
      while k < |output|
        invariant 0 <= i <= |script| && k <= |output|
        invariant Pump(|output|, script, 0) == (k + Pump(|output| - k, script, i).0, Pump(|output| - k, script, i).1)
        invariant sent == old(sent) + output[..k]
        decreases |script| - i
      {
        if i == |script| { return k, false; }
        match script[i] {
          case Expired => return k, false;
          case Refused => return k, false;
          case WouldBlock(ready) => if !ready { return k, false; }
          case Sends(more) =>
            var n := Min(1 + more, |output| - k);
            ghost var before := k;
            sent := sent + output[k..k + n];
            k := k + n;
            assert output[..before] + output[before..k] == output[..k];
            Regroup(old(sent), output[..before], output[before..k]);
        }
        i := i + 1;
      }
      all := true;
    }

    method Overflow(c: Option<byte>, script: seq<Attempt>) returns (eof: bool)
      requires Valid()
      modifies this`pptr, this`sent, putBuffer
      ensures Valid() && Result(View(), eof) == old(View()).Overflow(c, script)
    {
      var output;
      if putBuffer.Length == 0 {
        if c.None? {
          assert sent + [] == sent;
          return false;
        }
        output := [c.value];
      } else {
        output := putBuffer[..pptr];
      }
      var k, all := Send(output, script);
      if !all { return true; }
      if putBuffer.Length > 0 {
        pptr := 0;
        if c.None? { return false; }
        putBuffer[pptr] := c.value;
        pptr := pptr + 1;
      }
      return false;
    }

    method Sputc(c: byte, script: seq<Attempt>) returns (eof: bool)
      requires Valid()
      modifies this`pptr, this`sent, putBuffer
      ensures Valid() && Result(View(), eof) == old(View()).Sputc(c, script)
    {
      if pptr < putBuffer.Length {
        putBuffer[pptr] := c;
        pptr := pptr + 1;
        assert putBuffer[..pptr] == old(putBuffer[..pptr]) + [c];
        return false;
      }
      eof := Overflow(Some(c), script);
    }

    method Sync(script: seq<Attempt>) returns (eof: bool)
      requires Valid()
      modifies this`pptr, this`sent, putBuffer
      ensures Valid() && Result(View(), eof) == old(View()).Overflow(None, script)
    {
      eof := Overflow(None, script);
    }

    method SetBuf() returns (failed: bool)
      requires Valid()
      modifies this, putBuffer
      ensures Valid() && Result(View(), failed) == old(View()).Unbuffer()
    {
      if pptr != 0 { return true; }
      putBuffer := new byte[0];
      var ignored := Sync([]);
      return false;
    }
  }
}
