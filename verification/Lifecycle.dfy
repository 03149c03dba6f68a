/**
 The life of connections: accept, receive errors, close, shutdown and send, by any number of threads.
 One step is one access to what the threads share: the open flag, the list of clients (under its
 mutex), the pointer to the client.
 */
module Lifecycle {
  import opened Common

  /** The accept handler has put the connection into the list and is about to link it with its client, or
      to set the flag and start reading; a read is pending; or the read handler, after an error, is in
      SetOpen(false), about to call OnDisconnect, or done. */
  datatype Reading = Linking | Opening | Pending | Erasing | Resetting | Stopped

  /** `client` says that the pointer to the client is set; `disconnects` counts OnDisconnect. */
  datatype Conn = Conn(open: bool, client: bool, reading: Reading, disconnects: nat)

  /** A thread that found the flag set, in SendPacket, or in CloseConnection or ShutdownConnection. */
  datatype Caller =
    | Idle
    | AtSend(conn: nat)   // about to ask the client for the socket
    | AtStrand(conn: nat) // about to ask the client for its send strand
    | AtMark(conn: nat)   // about to clear the flag
    | AtErase(conn: nat)  // about to ask the client for the server, to leave its list
    | AtSocket(conn: nat) // about to ask the client for the socket
  {
    predicate On(c: nat) {
      !Idle? && conn == c
    }
  }

  /** An accept is pending, its handler is busy with a connection, or it failed and is not armed again. */
  datatype AcceptState = Armed | Handling(conn: nat) | Failed

  /** `nullMet`: some thread used a client that was gone. */
  datatype System = System(conns: seq<Conn>, list: seq<nat>, accept: AcceptState, callers: seq<Caller>, nullMet: bool)

  function Initial(callers: nat): System {
    System([], [], Armed, seq(callers, _ => Idle), false)
  }

  datatype Label =
    | Accept
    | AcceptOn                 // the accept handler goes on
    | AcceptError
    | Receive(c: nat)
    | Read(c: nat)             // the read handler goes on after an error
    | Check(w: nat, c: nat, send: bool)
    | Go(w: nat)

  /** Erases the first occurrence, if there is one. */
  function Without<T(==)>(list: seq<T>, x: T): seq<T> {
    if list == [] then [] else if list[0] == x then list[1..] else [list[0]] + Without(list[1..], x)
  }

  /** The connection goes into the list. */
  function Accepted(s: System): System {
    s.(conns := s.conns + [Conn(false, false, Linking, 0)], list := s.list + [|s.conns|], accept := Handling(|s.conns|))
  }

  /** Its client starts: linked first, then open and reading. */
  function StartOn(s: System, c: nat): System
    requires c < |s.conns|
  {
    var k := s.conns[c];
    if k.reading.Linking? then s.(conns := s.conns[c := k.(client := true, reading := Opening)])
    else s.(conns := s.conns[c := k.(open := true, reading := Pending)], accept := Armed)
  }

  function ReadOn(s: System, c: nat): System
    requires c < |s.conns|
  {
    var k := s.conns[c];
    match k.reading
    case Pending => s.(conns := s.conns[c := k.(open := false, reading := Erasing)])
    case Erasing =>
      if k.client then s.(conns := s.conns[c := k.(reading := Resetting)], list := Without(s.list, c))
      else s.(nullMet := true)
    case Resetting =>
      s.(conns := s.conns[c := k.(client := false, reading := Stopped, disconnects := k.disconnects + 1)])
    case _ => s
  }

  function CallOn(s: System, w: nat): System
    requires w < |s.callers| && (s.callers[w].Idle? || s.callers[w].conn < |s.conns|)
  {
    match s.callers[w]
    case Idle => s
    case AtSend(c) => if s.conns[c].client then s.(callers := s.callers[w := AtStrand(c)]) else s.(nullMet := true)
    case AtStrand(c) => if s.conns[c].client then s.(callers := s.callers[w := Idle]) else s.(nullMet := true)
    case AtMark(c) =>
      s.(conns := s.conns[c := s.conns[c].(open := false)], callers := s.callers[w := AtErase(c)])
    case AtErase(c) =>
      if s.conns[c].client then s.(callers := s.callers[w := AtSocket(c)], list := Without(s.list, c))
      else s.(nullMet := true)
    case AtSocket(c) => if s.conns[c].client then s.(callers := s.callers[w := Idle]) else s.(nullMet := true)
  }

  /** A label that is not enabled changes nothing; neither does any once a null client was used. */
  function Next(s: System, l: Label): System {
    if s.nullMet then s else
    match l
    case Accept => if s.accept.Armed? then Accepted(s) else s
    case AcceptOn => if s.accept.Handling? && s.accept.conn < |s.conns| then StartOn(s, s.accept.conn) else s
    case AcceptError => if s.accept.Armed? then s.(accept := Failed) else s
    case Receive(_) => s
    case Read(c) => if c < |s.conns| then ReadOn(s, c) else s
    case Check(w, c, send) =>
      if w < |s.callers| && s.callers[w].Idle? && c < |s.conns| && s.conns[c].open
      then s.(callers := s.callers[w := if send then AtSend(c) else AtMark(c)]) else s
    case Go(w) =>
      if w < |s.callers| && (s.callers[w].Idle? || s.callers[w].conn < |s.conns|) then CallOn(s, w) else s
  }

  function Run(s: System, labels: seq<Label>): System
    decreases |labels|
  {
    if labels == [] then s else Next(Run(s, labels[..|labels| - 1]), labels[|labels| - 1])
  }

  // ---------------------------------------------------------------------------------------------
  // The client list
  // ---------------------------------------------------------------------------------------------

  ghost predicate NoRepeats<T>(list: seq<T>)
    decreases |list|
  {
    list == [] || (list[0] !in list[1..] && NoRepeats(list[1..]))
  }

  lemma {:induction false} WithoutFacts<T>(list: seq<T>, x: T)
    requires NoRepeats(list)
    ensures NoRepeats(Without(list, x))
    ensures forall y :: y in Without(list, x) <==> y in list && y != x
    decreases |list|
  {
    if list != [] {
      assert forall y :: y in list <==> y == list[0] || y in list[1..];
      if list[0] != x {
        WithoutFacts(list[1..], x);
        var rest := Without(list[1..], x);
        assert ([list[0]] + rest)[1..] == rest;
        assert forall y :: y in [list[0]] + rest <==> y == list[0] || y in rest;
      }
    }
  }

  lemma WithoutSkips<T>(list: seq<T>, it: nat, x: T)
    requires it < |list| && list[it] != x
    ensures list[..it] + Without(list[it..], x) == list[..it + 1] + Without(list[it + 1..], x)
  {
    assert list[it..][1..] == list[it + 1..];
    assert list[..it + 1] == list[..it] + [list[it]];
    Regroup(list[..it], [list[it]], Without(list[it + 1..], x));
  }

  lemma WithoutErases<T>(list: seq<T>, it: nat, x: T)
    requires it < |list| && list[it] == x
    ensures Without(list[it..], x) == list[it + 1..]
  {
  }

  lemma InWithout<T>(list: seq<T>, x: T, y: T)
    requires NoRepeats(list)
    ensures y in Without(list, x) <==> y in list && y != x
  {
    WithoutFacts(list, x);
  }

  lemma {:induction false} NoRepeatsAppended<T>(list: seq<T>, x: T)
    requires NoRepeats(list) && x !in list
    ensures NoRepeats(list + [x])
    decreases |list|
  {
    if list != [] {
      NoRepeatsAppended(list[1..], x);
      assert (list + [x])[1..] == list[1..] + [x];
    }
  }

  lemma {:induction false} ListedOnce<T>(list: seq<T>, x: T)
    requires NoRepeats(list) && x in list
    ensures multiset(list)[x] == 1
    decreases |list|
  {
    assert list == [list[0]] + list[1..];
    if list[0] != x {
      ListedOnce(list[1..], x);
    }
  }

  // ---------------------------------------------------------------------------------------------
  // What every step keeps
  // ---------------------------------------------------------------------------------------------

  ghost predicate SomeoneErases(s: System, c: nat) {
    exists w: nat :: w < |s.callers| && s.callers[w] == AtErase(c)
  }

  ghost predicate ConnOk(s: System, c: nat)
    requires c < |s.conns|
  {
    var k := s.conns[c];
    && (k.open ==> c in s.list && k.reading.Pending?)
    && (k.client <==> !k.reading.Stopped? && !k.reading.Linking?)
    && (Starting(k) ==> !k.open && c in s.list && s.accept == Handling(c))
    && (k.reading.Stopped? ==> !k.open && c !in s.list)
    && (k.reading.Resetting? ==> c !in s.list)
    && k.disconnects == (if k.reading.Stopped? then 1 else 0)
    && (!k.open && c in s.list ==> k.reading.Erasing? || Starting(k) || SomeoneErases(s, c))
  }

  /** The accept handler has not opened it yet. */
  predicate Starting(k: Conn) {
    k.reading.Linking? || k.reading.Opening?
  }

  ghost predicate CallerOk(s: System, w: nat)
    requires w < |s.callers|
  {
    !s.callers[w].Idle? ==>
      var c := s.callers[w].conn;
      && c < |s.conns| && !Starting(s.conns[c])
      && (s.callers[w].AtErase? || s.callers[w].AtSocket? ==> !s.conns[c].open)
      && (s.callers[w].AtSocket? ==> c !in s.list)
  }

  ghost predicate Inv(s: System) {
    && NoRepeats(s.list)
    && (forall c :: c in s.list ==> c < |s.conns|)
    && (forall c: nat :: c < |s.conns| ==> ConnOk(s, c))
    && (forall w: nat :: w < |s.callers| ==> CallerOk(s, w))
    && (s.accept.Handling? ==> s.accept.conn < |s.conns| && Starting(s.conns[s.accept.conn]))
  }

  lemma AcceptKeeps(s: System)
    requires Inv(s) && s.accept.Armed?
    ensures Inv(Accepted(s))
  {
    var t := Accepted(s);
    NoRepeatsAppended<nat>(s.list, |s.conns|);
    forall c: nat | c < |t.conns| ensures ConnOk(t, c) {
      assert c < |s.conns| ==> ConnOk(s, c) && (SomeoneErases(s, c) ==> SomeoneErases(t, c));
    }
    forall w: nat | w < |t.callers| ensures CallerOk(t, w) {
      assert CallerOk(s, w);
    }
  }

  lemma StartKeeps(s: System, c: nat)
    requires Inv(s) && s.accept == Handling(c)
    ensures c < |s.conns| && Inv(StartOn(s, c))
  {
    var t := StartOn(s, c);
    assert ConnOk(s, c);
    forall d: nat | d < |t.conns| ensures ConnOk(t, d) {
      assert ConnOk(s, d) && (SomeoneErases(s, d) ==> SomeoneErases(t, d));
    }
    forall w: nat | w < |t.callers| ensures CallerOk(t, w) {
      assert CallerOk(s, w);
    }
  }

  lemma ReadKeeps(s: System, c: nat)
    requires Inv(s) && c < |s.conns| && !s.nullMet
    ensures Inv(ReadOn(s, c)) && !ReadOn(s, c).nullMet
  {
    var t := ReadOn(s, c);
    assert ConnOk(s, c);
    WithoutFacts(s.list, c);
    forall d: nat | d < |t.conns| ensures ConnOk(t, d) {
      assert ConnOk(s, d) && (SomeoneErases(s, d) ==> SomeoneErases(t, d));
    }
    forall w: nat | w < |t.callers| ensures CallerOk(t, w) {
      assert CallerOk(s, w);
    }
  }

  /** Whoever else was about to erase still is. */
  lemma StillErased(s: System, t: System, w: nat, d: nat)
    requires |s.callers| == |t.callers| && w < |s.callers| && s.callers[w] != AtErase(d)
    requires forall v: nat :: v < |s.callers| && v != w ==> t.callers[v] == s.callers[v]
    ensures SomeoneErases(s, d) ==> SomeoneErases(t, d)
  {
    if SomeoneErases(s, d) {
      var v: nat :| v < |s.callers| && s.callers[v] == AtErase(d);
      assert t.callers[v] == AtErase(d);
    }
  }

  /** Only thread w moves, and not into or out of a removal. */
  lemma MoveKeeps(s: System, w: nat, to: Caller)
    requires Inv(s) && w < |s.callers| && !s.callers[w].AtErase? && !to.AtErase?
    requires CallerOk(s.(callers := s.callers[w := to]), w)
    ensures Inv(s.(callers := s.callers[w := to]))
  {
    var t := s.(callers := s.callers[w := to]);
    forall d: nat | d < |t.conns| ensures ConnOk(t, d) {
      assert ConnOk(s, d);
      StillErased(s, t, w, d);
    }
    forall v: nat | v < |t.callers| ensures CallerOk(t, v) {
      assert CallerOk(s, v);
    }
  }

  lemma MarkKeeps(s: System, w: nat, c: nat)
    requires Inv(s) && w < |s.callers| && s.callers[w] == AtMark(c) && c < |s.conns|
    ensures Inv(CallOn(s, w))
  {
    var t := CallOn(s, w);
    assert ConnOk(s, c);
    assert t.callers[w] == AtErase(c);
    forall d: nat | d < |t.conns| ensures ConnOk(t, d) {
      assert ConnOk(s, d);
      StillErased(s, t, w, d);
    }
    forall v: nat | v < |t.callers| ensures CallerOk(t, v) {
      assert CallerOk(s, v);
    }
  }

  lemma EraseKeeps(s: System, w: nat, c: nat)
    requires Inv(s) && w < |s.callers| && s.callers[w] == AtErase(c) && c < |s.conns| && s.conns[c].client
    ensures Inv(CallOn(s, w))
  {
    var t := CallOn(s, w);
    assert CallerOk(s, w) && ConnOk(s, c);
    WithoutFacts(s.list, c);
    forall d: nat | d < |t.conns| ensures ConnOk(t, d) {
      assert ConnOk(s, d);
      if d != c { StillErased(s, t, w, d); }
    }
    forall v: nat | v < |t.callers| ensures CallerOk(t, v) {
      assert CallerOk(s, v);
    }
  }

  lemma NullKeeps(s: System)
    requires Inv(s)
    ensures Inv(s.(nullMet := true))
  {
    var t := s.(nullMet := true);
    forall c: nat | c < |t.conns| ensures ConnOk(t, c) {
      assert ConnOk(s, c) && (SomeoneErases(s, c) ==> SomeoneErases(t, c));
    }
    forall w: nat | w < |t.callers| ensures CallerOk(t, w) {
      assert CallerOk(s, w);
    }
  }

  lemma CallKeeps(s: System, w: nat)
    requires Inv(s) && w < |s.callers|
    ensures CallerOk(s, w) && Inv(CallOn(s, w))
  {
    assert CallerOk(s, w);
    if CallOn(s, w) == s.(nullMet := true) {
      NullKeeps(s);
    } else {
      match s.callers[w] {
        case Idle =>
        case AtSend(c) => MoveKeeps(s, w, AtStrand(c));
        case AtStrand(c) => MoveKeeps(s, w, Idle);
        case AtMark(c) => MarkKeeps(s, w, c);
        case AtErase(c) => EraseKeeps(s, w, c);
        case AtSocket(c) => MoveKeeps(s, w, Idle);
      }
    }
  }

  lemma NextKeeps(s: System, l: Label)
    requires Inv(s)
    ensures Inv(Next(s, l))
  {
    if !s.nullMet {
      match l {
        case Accept => if s.accept.Armed? { AcceptKeeps(s); }
        case AcceptOn => if s.accept.Handling? { StartKeeps(s, s.accept.conn); }
        case AcceptError => if s.accept.Armed? { FailKeeps(s); }
        case Receive(_) =>
        case Read(c) => if c < |s.conns| { ReadKeeps(s, c); }
        case Check(w, c, send) =>
          if w < |s.callers| && s.callers[w].Idle? && c < |s.conns| && s.conns[c].open {
            assert ConnOk(s, c);
            MoveKeeps(s, w, if send then AtSend(c) else AtMark(c));
          }
        case Go(w) => if w < |s.callers| { CallKeeps(s, w); }
      }
    }
  }

  lemma FailKeeps(s: System)
    requires Inv(s) && s.accept.Armed?
    ensures Inv(s.(accept := Failed))
  {
    var t := s.(accept := Failed);
    forall c: nat | c < |t.conns| ensures ConnOk(t, c) {
      assert ConnOk(s, c) && (SomeoneErases(s, c) ==> SomeoneErases(t, c));
    }
    forall w: nat | w < |t.callers| ensures CallerOk(t, w) {
      assert CallerOk(s, w);
    }
  }

  lemma {:induction false} RunKeeps(s: System, labels: seq<Label>)
    requires Inv(s)
    ensures Inv(Run(s, labels))
    decreases |labels|
  {
    if labels != [] {
      RunKeeps(s, labels[..|labels| - 1]);
      NextKeeps(Run(s, labels[..|labels| - 1]), labels[|labels| - 1]);
    }
  }

  // ---------------------------------------------------------------------------------------------
  // All runs, whatever the interleaving
  // ---------------------------------------------------------------------------------------------

  /** An open connection has a client and a pending read and is in the list exactly once; OnDisconnect
      runs at most once, and never on an open connection; whoever lost its client is closed and in no list. */
  lemma OpenIsListedOnce(callers: nat, labels: seq<Label>, c: nat)
    requires c < |Run(Initial(callers), labels).conns|
    ensures var s := Run(Initial(callers), labels);
      && (s.conns[c].open ==>
            && s.conns[c].client && s.conns[c].reading.Pending?
            && multiset(s.list)[c] == 1 && s.conns[c].disconnects == 0)
      && s.conns[c].disconnects <= 1
      && (!s.conns[c].client <==> s.conns[c].disconnects == 1 || s.conns[c].reading.Linking?)
      && (s.conns[c].disconnects == 1 ==> c !in s.list && !s.conns[c].open)
  {
    var s := Run(Initial(callers), labels);
    RunKeeps(Initial(callers), labels);
    assert ConnOk(s, c);
    if s.conns[c].open { ListedOnce(s.list, c); }
  }

  /** A closed connection that is listed is being accepted, or taken out by a thread on its way. */
  lemma ClosedButListed(callers: nat, labels: seq<Label>, c: nat)
    requires c < |Run(Initial(callers), labels).conns|
    ensures var s := Run(Initial(callers), labels);
      !s.conns[c].open && c in s.list ==>
        s.accept == Handling(c) || s.conns[c].reading.Erasing? || SomeoneErases(s, c)
  {
    RunKeeps(Initial(callers), labels);
    assert ConnOk(Run(Initial(callers), labels), c);
  }

  /** The SetOpen(false) of the read handler never meets a null client. */
  lemma ReadHandlerIsSafe(callers: nat, labels: seq<Label>, c: nat)
    requires !Run(Initial(callers), labels).nullMet
    ensures !Next(Run(Initial(callers), labels), Read(c)).nullMet
  {
    var s := Run(Initial(callers), labels);
    RunKeeps(Initial(callers), labels);
    if c < |s.conns| { ReadKeeps(s, c); }
  }

  // ---------------------------------------------------------------------------------------------
  // Who meets a null client
  // ---------------------------------------------------------------------------------------------

  /** Thread w found connection c open, is not done with it, and the client is gone. */
  ghost predicate StrandedAt(s: System, w: nat, c: nat) {
    w < |s.callers| && c < |s.conns| && s.callers[w].On(c) && !s.conns[c].client
  }

  ghost predicate Stranded(s: System) {
    exists w: nat, c: nat :: StrandedAt(s, w, c)
  }

  /** The read handler resets the client of c while thread w is using the connection. */
  ghost predicate OverlapAt(s: System, l: Label, w: nat) {
    !s.nullMet && l.Read? && l.c < |s.conns| && s.conns[l.c].reading.Resetting? &&
    w < |s.callers| && s.callers[w].On(l.c)
  }

  ghost predicate Overlap(s: System, l: Label) {
    exists w: nat :: OverlapAt(s, l, w)
  }

  ghost predicate EverOverlaps(s: System, labels: seq<Label>)
    decreases |labels|
  {
    labels != [] &&
    var before := labels[..|labels| - 1];
    EverOverlaps(s, before) || Overlap(Run(s, before), labels[|labels| - 1])
  }

  /** A stranded thread stays where it is. */
  lemma StrandedStays(s: System, l: Label, w: nat, c: nat)
    requires Inv(s) && StrandedAt(s, w, c)
    ensures StrandedAt(Next(s, l), w, c)
  {
    assert ConnOk(s, c) && CallerOk(s, w);
  }

  lemma OverlapStrands(s: System, l: Label, w: nat)
    requires Inv(s) && OverlapAt(s, l, w)
    ensures StrandedAt(Next(s, l), w, l.c)
  {
  }

  /** Nobody gets stranded in any other way. */
  lemma OnlyOverlapStrands(s: System, l: Label, w: nat, c: nat)
    requires Inv(s) && StrandedAt(Next(s, l), w, c)
    ensures StrandedAt(s, w, c) || OverlapAt(s, l, w)
  {
    assert CallerOk(s, w);
    if c < |s.conns| {
      assert ConnOk(s, c);
    }
  }

  lemma StepStranded(s: System, l: Label)
    requires Inv(s)
    ensures Stranded(Next(s, l)) <==> Stranded(s) || Overlap(s, l)
  {
    if Stranded(Next(s, l)) {
      var w: nat, c: nat :| StrandedAt(Next(s, l), w, c);
      OnlyOverlapStrands(s, l, w, c);
    }
    if Stranded(s) {
      var w: nat, c: nat :| StrandedAt(s, w, c);
      StrandedStays(s, l, w, c);
    }
    if Overlap(s, l) {
      var w: nat :| OverlapAt(s, l, w);
      OverlapStrands(s, l, w);
    }
  }

  /** A thread is left with a null client exactly if OnDisconnect once ran while it was between its
      look at the flag and its last use of the client. */
  lemma {:induction false} StrandedIffOverlapped(callers: nat, labels: seq<Label>)
    ensures Stranded(Run(Initial(callers), labels)) <==> EverOverlaps(Initial(callers), labels)
    decreases |labels|
  {
    if labels != [] {
      var before := labels[..|labels| - 1];
      StrandedIffOverlapped(callers, before);
      RunKeeps(Initial(callers), before);
      StepStranded(Run(Initial(callers), before), labels[|labels| - 1]);
    }
  }

  /** Two steps later at most, such a thread uses the null client. */
  lemma StrandedMeetsNull(s: System, w: nat, c: nat)
    requires Inv(s) && StrandedAt(s, w, c)
    ensures Next(Next(s, Go(w)), Go(w)).nullMet
  {
  }

  /** No null client is ever used unless OnDisconnect once overlapped a thread's use. */
  lemma {:induction false} NullNeedsOverlap(callers: nat, labels: seq<Label>)
    requires Run(Initial(callers), labels).nullMet
    ensures EverOverlaps(Initial(callers), labels)
    decreases |labels|
  {
    var before := labels[..|labels| - 1];
    var s := Run(Initial(callers), before);
    if s.nullMet {
      NullNeedsOverlap(callers, before);
    } else {
      RunKeeps(Initial(callers), before);
      NullIsStranded(s, labels[|labels| - 1]);
      StrandedIffOverlapped(callers, before);
    }
  }

  lemma NullIsStranded(s: System, l: Label)
    requires Inv(s) && !s.nullMet && Next(s, l).nullMet
    ensures Stranded(s)
  {
    if l.Read? {
      if l.c < |s.conns| { ReadKeeps(s, l.c); }
    } else {
      assert StrandedAt(s, l.w, s.callers[l.w].conn);
    }
  }

  /** Some thread used a null client, or is about to: two steps of it do. */
  ghost predicate MeetsNull(s: System) {
    s.nullMet || exists w: nat :: Next(Next(s, Go(w)), Go(w)).nullMet
  }

  /** A thread that is not stranded has its client for its next two steps. */
  lemma TwoStepsSafe(s: System, w: nat)
    requires Inv(s) && !s.nullMet && !Stranded(s)
    ensures !Next(Next(s, Go(w)), Go(w)).nullMet
  {
    var t := Next(s, Go(w));
    if t.nullMet { NullIsStranded(s, Go(w)); }
    NextKeeps(s, Go(w));
    StepStranded(s, Go(w));
    if Next(t, Go(w)).nullMet { NullIsStranded(t, Go(w)); }
  }

  /** In every interleaving: a null client was used, or will be by two steps of some thread, if and only
      if OnDisconnect once overlapped a thread's use of the client. */
  lemma NullIffOverlapped(callers: nat, labels: seq<Label>)
    ensures MeetsNull(Run(Initial(callers), labels)) <==> EverOverlaps(Initial(callers), labels)
  {
    var s := Run(Initial(callers), labels);
    RunKeeps(Initial(callers), labels);
    StrandedIffOverlapped(callers, labels);
    if s.nullMet {
      NullNeedsOverlap(callers, labels);
    } else if Stranded(s) {
      var w: nat, c: nat :| StrandedAt(s, w, c);
      StrandedMeetsNull(s, w, c);
    } else {
      forall w: nat ensures !Next(Next(s, Go(w)), Go(w)).nullMet { TwoStepsSafe(s, w); }
    }
  }

  lemma RunOneMore(s: System, labels: seq<Label>, l: Label)
    ensures Run(s, labels + [l]) == Next(Run(s, labels), l)
  {
    assert (labels + [l])[..|labels|] == labels;
  }

  /** And it happens: the peer goes away while a thread closes the connection. */
  lemma RaceExample()
    ensures Run(Initial(1), [Accept] + [AcceptOn] + [AcceptOn] + [Check(0, 0, false)] +
                            [Read(0)] + [Read(0)] + [Read(0)] + [Go(0)] + [Go(0)]).nullMet
  {
    var s := Initial(1);
    var accepted := [Accept] + [AcceptOn] + [AcceptOn] + [Check(0, 0, false)];
    RaceSetup();
    RunOneMore(s, accepted, Read(0));
    RunOneMore(s, accepted + [Read(0)], Read(0));
    RunOneMore(s, accepted + [Read(0)] + [Read(0)], Read(0));
    RunOneMore(s, accepted + [Read(0)] + [Read(0)] + [Read(0)], Go(0));
    RunOneMore(s, accepted + [Read(0)] + [Read(0)] + [Read(0)] + [Go(0)], Go(0));
  }

  lemma RaceSetup()
    ensures Run(Initial(1), [Accept] + [AcceptOn] + [AcceptOn] + [Check(0, 0, false)]) ==
      System([Conn(true, true, Pending, 0)], [0], Armed, [AtMark(0)], false)
  {
    var s := Initial(1);
    assert [Accept] == [] + [Accept];
    RunOneMore(s, [], Accept);
    RunOneMore(s, [Accept], AcceptOn);
    RunOneMore(s, [Accept] + [AcceptOn], AcceptOn);
    RunOneMore(s, [Accept] + [AcceptOn] + [AcceptOn], Check(0, 0, false));
  }

  // ---------------------------------------------------------------------------------------------
  // One operation at a time
  // ---------------------------------------------------------------------------------------------

  /** Nobody is in the middle of anything. */
  ghost predicate Quiet(s: System) {
    && !s.nullMet && !s.accept.Handling?
    && (forall w: nat :: w < |s.callers| ==> s.callers[w].Idle?)
    && (forall c: nat :: c < |s.conns| ==> s.conns[c].reading.Pending? || s.conns[c].reading.Stopped?)
  }

  datatype Operation = Accepting(failed: bool) | ReadError(c: nat) | Close(w: nat, c: nat) | Send(w: nat, c: nat)

  /** The whole operation, with nothing in between. */
  function Whole(s: System, o: Operation): System {
    match o
    case Accepting(failed) => if failed then Next(s, AcceptError) else Next(Next(Next(s, Accept), AcceptOn), AcceptOn)
    case ReadError(c) => Next(Next(Next(s, Read(c)), Read(c)), Read(c))
    case Close(w, c) => Next(Next(Next(Next(s, Check(w, c, false)), Go(w)), Go(w)), Go(w))
    case Send(w, c) => Next(Next(Next(s, Check(w, c, true)), Go(w)), Go(w))
  }

  function Wholes(s: System, ops: seq<Operation>): System
    decreases |ops|
  {
    if ops == [] then s else Whole(Wholes(s, ops[..|ops| - 1]), ops[|ops| - 1])
  }

  lemma WholeInv(s: System, o: Operation)
    requires Inv(s)
    ensures Inv(Whole(s, o))
  {
    match o {
      case Accepting(failed) =>
        NextKeeps(s, AcceptError);
        NextKeeps(s, Accept);
        NextKeeps(Next(s, Accept), AcceptOn);
        NextKeeps(Next(Next(s, Accept), AcceptOn), AcceptOn);
      case ReadError(c) =>
        NextKeeps(s, Read(c));
        NextKeeps(Next(s, Read(c)), Read(c));
        NextKeeps(Next(Next(s, Read(c)), Read(c)), Read(c));
      case Close(w, c) =>
        var s1 := Next(s, Check(w, c, false));
        NextKeeps(s, Check(w, c, false));
        NextKeeps(s1, Go(w));
        NextKeeps(Next(s1, Go(w)), Go(w));
        NextKeeps(Next(Next(s1, Go(w)), Go(w)), Go(w));
      case Send(w, c) =>
        NextKeeps(s, Check(w, c, true));
        NextKeeps(Next(s, Check(w, c, true)), Go(w));
        NextKeeps(Next(Next(s, Check(w, c, true)), Go(w)), Go(w));
    }
  }

  lemma ReadErrorQuiet(s: System, c: nat)
    requires Inv(s) && Quiet(s)
    ensures Quiet(Whole(s, ReadError(c)))
  {
    if c < |s.conns| { assert ConnOk(s, c); }
  }

  lemma CloseQuiet(s: System, w: nat, c: nat)
    requires Inv(s) && Quiet(s)
    ensures Quiet(Whole(s, Close(w, c)))
  {
    if c < |s.conns| { assert ConnOk(s, c); }
  }

  lemma SendQuiet(s: System, w: nat, c: nat)
    requires Inv(s) && Quiet(s)
    ensures Quiet(Whole(s, Send(w, c)))
  {
    if c < |s.conns| { assert ConnOk(s, c); }
  }

  lemma WholeQuiet(s: System, o: Operation)
    requires Inv(s) && Quiet(s)
    ensures Quiet(Whole(s, o))
  {
    match o {
      case Accepting(failed) =>
      case ReadError(c) => ReadErrorQuiet(s, c);
      case Close(w, c) => CloseQuiet(s, w, c);
      case Send(w, c) => SendQuiet(s, w, c);
    }
  }

  /** If operations do not overlap, no null client is ever used, and between them the list holds
      exactly the open connections, each once. */
  lemma {:induction false} WholeOperationsAreSafe(callers: nat, ops: seq<Operation>)
    ensures var s := Wholes(Initial(callers), ops);
      Inv(s) && Quiet(s) && forall c: nat :: c < |s.conns| ==> multiset(s.list)[c] == if s.conns[c].open then 1 else 0
    decreases |ops|
  {
    var s := Wholes(Initial(callers), ops);
    if ops != [] {
      var before := Wholes(Initial(callers), ops[..|ops| - 1]);
      WholeOperationsAreSafe(callers, ops[..|ops| - 1]);
      WholeInv(before, ops[|ops| - 1]);
      WholeQuiet(before, ops[|ops| - 1]);
    }
    forall c: nat | c < |s.conns| ensures multiset(s.list)[c] == if s.conns[c].open then 1 else 0 {
      assert ConnOk(s, c);
      if c in s.list { ListedOnce(s.list, c); }
    }
  }

  /** What an operation comes to, when nothing overlaps it: a connection is accepted open, linked and
      listed last; a read error closes its connection and lets go of the client, once; closing an open
      connection closes and unlists that one only; closing a closed one and sending change nothing. */
  function Outcome(s: System, o: Operation): System
    requires forall w: nat :: w < |s.callers| ==> s.callers[w].Idle?
  {
    match o
    case Accepting(failed) =>
      if !s.accept.Armed? then s
      else if failed then s.(accept := Failed)
      else s.(conns := s.conns + [Conn(true, true, Pending, 0)], list := s.list + [|s.conns|])
    case ReadError(c) =>
      if c < |s.conns| && s.conns[c].reading.Pending?
      then s.(conns := s.conns[c := Conn(false, false, Stopped, 1)], list := Without(s.list, c))
      else s
    case Close(w, c) =>
      if w < |s.callers| && c < |s.conns| && s.conns[c].open
      then s.(conns := s.conns[c := s.conns[c].(open := false)], list := Without(s.list, c))
      else s
    case Send(w, c) => s
  }

  lemma CloseExact(s: System, w: nat, c: nat)
    requires Inv(s) && Quiet(s)
    ensures Whole(s, Close(w, c)) == Outcome(s, Close(w, c))
  {
    if w < |s.callers| && c < |s.conns| && s.conns[c].open {
      assert ConnOk(s, c);
      var t := Next(Next(Next(Next(s, Check(w, c, false)), Go(w)), Go(w)), Go(w));
      assert t.callers == s.callers;
    }
  }

  lemma SendExact(s: System, w: nat, c: nat)
    requires Inv(s) && Quiet(s)
    ensures Whole(s, Send(w, c)) == s
  {
    if w < |s.callers| && c < |s.conns| && s.conns[c].open {
      assert ConnOk(s, c);
      assert Whole(s, Send(w, c)).callers == s.callers;
    }
  }

  lemma ReadErrorExact(s: System, c: nat)
    requires Inv(s) && Quiet(s)
    ensures Whole(s, ReadError(c)) == Outcome(s, ReadError(c))
  {
    if c < |s.conns| { assert ConnOk(s, c); }
  }

  lemma AcceptExact(s: System, failed: bool)
    requires Inv(s) && Quiet(s)
    ensures Whole(s, Accepting(failed)) == Outcome(s, Accepting(failed))
  {
  }

  /** After any operations, the steps of the next one together do exactly that. */
  lemma WholeExact(callers: nat, ops: seq<Operation>, o: Operation)
    ensures var s := Wholes(Initial(callers), ops);
      (forall w: nat :: w < |s.callers| ==> s.callers[w].Idle?) && Whole(s, o) == Outcome(s, o)
  {
    WholeOperationsAreSafe(callers, ops);
    var s := Wholes(Initial(callers), ops);
    match o {
      case Accepting(failed) => AcceptExact(s, failed);
      case ReadError(c) => ReadErrorExact(s, c);
      case Close(w, c) => CloseExact(s, w, c);
      case Send(w, c) => SendExact(s, w, c);
    }
  }

  /** Some pending accept completed with an error, before a null client ended the run. */
  ghost predicate AcceptFailed(s: System, labels: seq<Label>)
    decreases |labels|
  {
    labels != [] &&
    var before := labels[..|labels| - 1];
    AcceptFailed(s, before) ||
    (labels[|labels| - 1].AcceptError? && Run(s, before).accept.Armed? && !Run(s, before).nullMet)
  }

  lemma StepFails(s: System, l: Label)
    ensures Next(s, l).accept.Failed? <==> s.accept.Failed? || (l.AcceptError? && s.accept.Armed? && !s.nullMet)
  {
  }

  lemma {:induction false} AcceptingIff(s: System, labels: seq<Label>)
    ensures Run(s, labels).accept.Failed? <==> s.accept.Failed? || AcceptFailed(s, labels)
    decreases |labels|
  {
    if labels != [] {
      AcceptingIff(s, labels[..|labels| - 1]);
      StepFails(Run(s, labels[..|labels| - 1]), labels[|labels| - 1]);
    }
  }

  lemma {:induction false} NoMoreConnections(s: System, labels: seq<Label>)
    requires s.accept.Failed?
    ensures Run(s, labels).accept.Failed? && |Run(s, labels).conns| == |s.conns|
    decreases |labels|
  {
    if labels != [] {
      NoMoreConnections(s, labels[..|labels| - 1]);
    }
  }

  /** From any point of any run on, another connection can be accepted if and only if no accept has
      failed and no null client was used so far. */
  lemma RefusesForever(callers: nat, labels: seq<Label>)
    ensures var s := Run(Initial(callers), labels);
      (exists more: seq<Label> :: |Run(s, more).conns| > |s.conns|)
      <==> !AcceptFailed(Initial(callers), labels) && !s.nullMet
  {
    var s := Run(Initial(callers), labels);
    AcceptingIff(Initial(callers), labels);
    if s.nullMet {
      forall more: seq<Label> ensures Run(s, more) == s { NothingAfterNull(s, more); }
    } else if s.accept.Failed? {
      forall more: seq<Label> ensures |Run(s, more).conns| == |s.conns| { NoMoreConnections(s, more); }
    } else {
      RunKeeps(Initial(callers), labels);
      OneMoreAccepted(s);
      assert |Run(s, [] + [AcceptOn] + [AcceptOn] + [Accept]).conns| > |s.conns|;
    }
  }

  /** The handler finishes what it is at, if anything, and the next connection comes in. */
  lemma OneMoreAccepted(s: System)
    requires Inv(s) && !s.nullMet && !s.accept.Failed?
    ensures |Run(s, [] + [AcceptOn] + [AcceptOn] + [Accept]).conns| == |s.conns| + 1
  {
    RunOneMore(s, [], AcceptOn);
    RunOneMore(s, [] + [AcceptOn], AcceptOn);
    RunOneMore(s, [] + [AcceptOn] + [AcceptOn], Accept);
  }

  lemma {:induction false} NothingAfterNull(s: System, labels: seq<Label>)
    requires s.nullMet
    ensures Run(s, labels) == s
    decreases |labels|
  {
    if labels != [] {
      NothingAfterNull(s, labels[..|labels| - 1]);
    }
  }

  // ---------------------------------------------------------------------------------------------
  // The operations
  // ---------------------------------------------------------------------------------------------

  class TCPServer {
    var clients: seq<TCPConnection>
    /** Every connection and client there has been. */
    ghost var accepted: set<TCPConnection>
    ghost var started: set<TCPClient>

    /** The list holds the open connections, each once; whoever is open has a client; a client still
        reading belongs to a connection that has not let go of it. */
    ghost predicate Valid()
      reads this, accepted, started
    {
      && NoRepeats(clients)
      && (forall c :: c in clients ==> c in accepted && c.open)
      && (forall c :: c in accepted && c.open ==> c in clients)
      && (forall c :: c in accepted && c.open ==> c.client != null)
      && (forall c :: c in accepted && c.client != null ==>
            c.client in started && c.client.server == this && c.client.connection == c)
      && (forall k :: k in started && k.pending ==>
            k.connection != null && k.connection in accepted && k.connection.client == k)
    }

    constructor ()
      ensures Valid() && clients == [] && accepted == {} && started == {}
    {
      clients, accepted, started := [], {}, {};
    }

    /** The handler of the pending accept. With `peerGone` OnConnect throws, as it asks for the address of a
        peer that has left; nothing catches that. */
    method HandleAccept(failed: bool, peerGone: bool) returns (again: bool, threw: bool)
      requires Valid()
      modifies this
      ensures Valid() && threw == (!failed && peerGone) && again == (!failed && !peerGone)
      ensures failed ==> clients == old(clients) && accepted == old(accepted)
      ensures !failed ==>
        |clients| == |old(clients)| + 1 && old(clients) < clients && fresh(clients[|old(clients)|]) &&
        clients[|old(clients)|].open && clients[|old(clients)|].client != null &&
        clients[|old(clients)|].client.pending == !peerGone && accepted == old(accepted) + {clients[|old(clients)|]}
    {
      again, threw := false, false;
      if !failed {
        var client := new TCPClient();
        var connection := new TCPConnection();
        NoRepeatsAppended(clients, connection);
        clients := clients + [connection];
        client.server := this;
        accepted, started := accepted + {connection}, started + {client};
        threw := client.Start(connection, peerGone);
        again := !threw;
      }
    }

    method RemoveClientConnection(connection: TCPConnection)
      modifies this`clients
      ensures clients == Without(old(clients), connection)
    {
      var it := 0;
      while it < |clients| && clients[it] != connection
        invariant clients == old(clients) && 0 <= it <= |clients|
        invariant Without(clients, connection) == clients[..it] + Without(clients[it..], connection)
      {
        WithoutSkips(clients, it, connection);
        it := it + 1;
      }
      if it < |clients| {
        WithoutErases(clients, it, connection);
        clients := clients[..it] + clients[it + 1..];
      } else {
        assert clients[it..] == [] && clients[..it] == clients;
      }
    }
  }

  /** The part of a connection that the server and the client look at; `Framing` has the rest. */
  class TCPConnection {
    var open: bool
    var client: TCPClient?

    constructor ()
      ensures !open && client == null
    {
      open, client := false, null;
    }

    ghost function Server(): (s: set<TCPServer>)
      reads this, client
    {
      if client != null && client.server != null then {client.server} else {}
    }

    method SetOpen(value: bool)
      requires value || (client != null && client.server != null)
      modifies this`open, (if value then {} else Server())`clients
      ensures open == value
      ensures !value ==> client.server.clients == Without(old(client.server.clients), this)
    {
      open := value;
      if !open {
        client.server.RemoveClientConnection(this);
      }
    }

    method OnDisconnect()
      modifies this`client
      ensures client == null
    {
      client := null;
    }

    /** CloseConnection and ShutdownConnection, but for what they ask of the socket. */
    method CloseConnection(ghost server: TCPServer)
      requires server.Valid() && this in server.accepted
      modifies this`open, server`clients
      ensures server.Valid() && !open && this !in server.clients
      ensures server.clients == (if old(open) then Without(old(server.clients), this) else old(server.clients))
      ensures forall c :: c != this ==> (c in server.clients <==> c in old(server.clients))
    {
      WithoutFacts(server.clients, this);
      ghost var was := server.clients;
      if open {
        SetOpen(false);
        forall c | c in server.clients ensures c in was && c != this { InWithout(was, this, c); }
      }
    }
  }

  class TCPClient {
    var server: TCPServer?
    var connection: TCPConnection?
    /** A read is pending on the socket. */
    var pending: bool

    constructor ()
      ensures server == null && connection == null && !pending
    {
      server, connection, pending := null, null, false;
    }

    method Start(newConnection: TCPConnection, peerGone: bool) returns (threw: bool)
      modifies this, newConnection
      ensures server == old(server) && connection == newConnection && threw == peerGone
      ensures pending == (old(pending) || !peerGone)
      ensures newConnection.client == this && newConnection.open
    {
      connection := newConnection;
      connection.client := this;
      connection.SetOpen(true);
      if peerGone {
        return true;
      }
      pending := true;
      threw := false;
    }

    /** The handler of the pending read. */
    method HandleRead(failed: bool, ghost owner: TCPServer)
      requires owner.Valid() && this in owner.started && pending
      modifies this`pending, connection, owner`clients
      ensures connection == old(connection) != null && pending == !failed && owner.Valid()
      ensures connection.open == (old(connection.open) && !failed)
      ensures connection.client == if failed then null else this
      ensures owner.clients ==
        if failed then Without<TCPConnection>(old(owner.clients), connection) else old(owner.clients)
    {
      WithoutFacts<TCPConnection>(owner.clients, connection);
      ghost var was := owner.clients;
      pending := false;
      if failed {
        connection.SetOpen(false);
        forall c | c in owner.clients ensures c in was && c != connection {
          InWithout<TCPConnection>(was, connection, c);
        }
        connection.OnDisconnect();
      } else {
        pending := true;
      }
    }
  }
}
