/**
 `PSQLConnectionPool` as a machine of interleaved steps: any number of threads that take a database
 connection, wait on the condition variable while there is none, and give it back, or lose it when
 an exception leaves the data access function in between.
 */
module ConnectionPool {
  import opened Common

  /** Where a thread stands in GetConnection, between the calls, or in FreeConnection. */
  datatype Thread =
    | Idle
    | Asking             // GetConnection: at the lock
    | Testing            // holds the lock, at the loop's test
    | Waiting            // asleep in wait; the lock is released
    | Woken              // wait is returning and needs the lock again
    | Using(conn: nat)
    | Returning(conn: nat) // FreeConnection: at the lock
    | Pushing(conn: nat)   // holds the lock
    | Pushed               // holds the lock, about to unlock
    | Notifying            // unlocked, about to notify
  {
    predicate HoldsLock() {
      Testing? || Pushing? || Pushed?
    }
  }

  datatype Owner = Free | By(i: nat)

  /** `lost` went with an exception, `dropped` with Shutdown. */
  datatype State = State(threads: seq<Thread>, owner: Owner, idle: seq<nat>, lost: multiset<nat>,
                         dropped: multiset<nat>)

  /** After Initialize, with connections 0 to created - 1. */
  function Initial(created: nat, threads: nat): State {
    State(seq(threads, _ => Idle), Free, seq(created, i => i), multiset{}, multiset{})
  }

  datatype Label =
    | Get(i: nat)
    | Give(i: nat)           // calls FreeConnection
    | Throw(i: nat)          // an exception before FreeConnection
    | Step(i: nat)           // goes on inside GetConnection or FreeConnection
    | Notify(i: nat, k: nat) // notify_one, which wakes thread k if any thread waits
    | Spurious(i: nat)       // wait returns unasked
    | Shutdown

  function At(s: State, i: nat, t: Thread): State
    requires i < |s.threads|
  {
    s.(threads := s.threads[i := t])
  }

  predicate SomeoneWaits(s: State) {
    exists i: nat :: i < |s.threads| && s.threads[i].Waiting?
  }

  function Advance(s: State, i: nat): State
    requires i < |s.threads|
  {
    match s.threads[i]
    case Asking => if s.owner == Free then At(s, i, Testing).(owner := By(i)) else s
    case Woken => if s.owner == Free then At(s, i, Testing).(owner := By(i)) else s
    case Testing =>
      if s.idle == [] then At(s, i, Waiting).(owner := Free)
      else At(s, i, Using(s.idle[0])).(owner := Free, idle := s.idle[1..])
    case Returning(conn) => if s.owner == Free then At(s, i, Pushing(conn)).(owner := By(i)) else s
    case Pushing(conn) => At(s, i, Pushed).(idle := s.idle + [conn])
    case Pushed => At(s, i, Notifying).(owner := Free)
    case _ => s
  }

  function Next(s: State, l: Label): State {
    match l
    case Get(i) => if i < |s.threads| && s.threads[i].Idle? then At(s, i, Asking) else s
    case Give(i) =>
      if i < |s.threads| && s.threads[i].Using? then At(s, i, Returning(s.threads[i].conn)) else s
    case Throw(i) =>
      if i < |s.threads| && s.threads[i].Using?
      then At(s, i, Idle).(lost := s.lost + multiset{s.threads[i].conn}) else s
    case Step(i) => if i < |s.threads| then Advance(s, i) else s
    case Notify(i, k) =>
      if i < |s.threads| && s.threads[i].Notifying? then
        if k < |s.threads| && s.threads[k].Waiting? then At(At(s, k, Woken), i, Idle)
        else if SomeoneWaits(s) then s
        else At(s, i, Idle)
      else s
    case Spurious(i) => if i < |s.threads| && s.threads[i].Waiting? then At(s, i, Woken) else s
    case Shutdown => if s.owner == Free then s.(idle := [], dropped := s.dropped + multiset(s.idle)) else s
  }

  function Run(s: State, labels: seq<Label>): State
    decreases |labels|
  {
    if labels == [] then s else Run(Next(s, labels[0]), labels[1..])
  }

  // ---------------------------------------------------------------------------------------------
  // No wakeup is lost
  // ---------------------------------------------------------------------------------------------

  ghost predicate Owned(s: State) {
    && (forall i: nat :: i < |s.threads| ==> (s.threads[i].HoldsLock() <==> s.owner == By(i)))
    && (s.owner.By? ==> s.owner.i < |s.threads|)
  }

  /** A thread that will look at the queue, or wake one that will. */
  function Due(t: Thread): nat {
    if t.Woken? || t.Testing? || t.Pushed? || t.Notifying? then 1 else 0
  }

  ghost predicate Alert(s: State) {
    SomeoneWaits(s) ==> |s.idle| <= Sum(s.threads, Due)
  }

  /** One thread moves, taking at most a free lock and giving back at most its own. */
  lemma AdvanceOwned(s: State, i: nat)
    requires i < |s.threads| && Owned(s)
    ensures Owned(Advance(s, i))
  {
    assert s.threads[i].HoldsLock() <==> s.owner == By(i);
    var t := Advance(s, i);
    assert t.threads[i].HoldsLock() <==> t.owner == By(i);
    assert t.threads == s.threads[i := t.threads[i]];
    assert t.owner == s.owner || (s.owner == Free && t.owner == By(i)) || (s.owner == By(i) && t.owner == Free);
  }

  lemma StepOwned(s: State, l: Label)
    requires Owned(s)
    ensures Owned(Next(s, l))
  {
    if l.Step? && l.i < |s.threads| {
      AdvanceOwned(s, l.i);
    }
  }

  lemma AdvanceAlert(s: State, i: nat)
    requires i < |s.threads| && Alert(s)
    ensures Alert(Advance(s, i))
  {
    var t := Advance(s, i);
    SumUpdate(s.threads, Due, i, t.threads[i]);
    WaitersStay(s, t, i);
  }

  /** Unless thread i itself goes to sleep, whoever sleeps after its step slept before. */
  lemma WaitersStay(s: State, t: State, i: nat)
    requires i < |s.threads| == |t.threads| && t.threads == s.threads[i := t.threads[i]]
    ensures SomeoneWaits(t) && !t.threads[i].Waiting? ==> SomeoneWaits(s)
  {
    if SomeoneWaits(t) && !t.threads[i].Waiting? {
      var k: nat :| k < |t.threads| && t.threads[k].Waiting?;
      assert s.threads[k].Waiting?;
    }
  }

  lemma NotifyAlert(s: State, i: nat, k: nat)
    requires Alert(s)
    ensures Alert(Next(s, Notify(i, k)))
  {
    if i < |s.threads| && s.threads[i].Notifying? {
      if k < |s.threads| && s.threads[k].Waiting? {
        var mid := At(s, k, Woken);
        SumUpdate(s.threads, Due, k, Woken);
        SumUpdate(mid.threads, Due, i, Idle);
      } else {
        WaitersStay(s, At(s, i, Idle), i);
      }
    }
  }

  /** The steps at which a thread just changes place. */
  lemma MoveAlert(s: State, i: nat, t: Thread)
    requires i < |s.threads| && Alert(s) && !t.Waiting? && Due(s.threads[i]) <= Due(t)
    ensures Alert(At(s, i, t))
  {
    SumUpdate(s.threads, Due, i, t);
    WaitersStay(s, At(s, i, t), i);
  }

  lemma StepAlert(s: State, l: Label)
    requires Alert(s)
    ensures Alert(Next(s, l))
  {
    match l {
      case Get(i) => if i < |s.threads| && s.threads[i].Idle? { MoveAlert(s, i, Asking); }
      case Give(i) => if i < |s.threads| && s.threads[i].Using? { MoveAlert(s, i, Returning(s.threads[i].conn)); }
      case Throw(i) =>
        if i < |s.threads| && s.threads[i].Using? {
          MoveAlert(s, i, Idle);
          AlertSameThreads(At(s, i, Idle), Next(s, l));
        }
      case Step(i) => if i < |s.threads| { AdvanceAlert(s, i); }
      case Notify(i, k) => NotifyAlert(s, i, k);
      case Spurious(i) => if i < |s.threads| && s.threads[i].Waiting? { MoveAlert(s, i, Woken); }
      case Shutdown => AlertSameThreads(s, Next(s, l));
    }
  }

  lemma AlertSameThreads(s: State, t: State)
    requires Alert(s) && t.threads == s.threads && |t.idle| <= |s.idle|
    ensures Alert(t)
  {
    assert SomeoneWaits(t) == SomeoneWaits(s);
  }

  lemma {:induction false} RunAlert(s: State, labels: seq<Label>)
    requires Owned(s) && Alert(s)
    ensures Owned(Run(s, labels)) && Alert(Run(s, labels))
    decreases |labels|
  {
    if labels != [] {
      StepOwned(s, labels[0]);
      StepAlert(s, labels[0]);
      RunAlert(Next(s, labels[0]), labels[1..]);
    }
  }

  /** In every reachable state with a sleeping thread, each idle connection is matched by a thread
      that is awake in GetConnection or still owes a notify. */
  lemma NoLostWakeup(created: nat, threads: nat, labels: seq<Label>)
    ensures var s := Run(Initial(created, threads), labels);
      SomeoneWaits(s) ==> |s.idle| <= Sum(s.threads, Due)
  {
    RunAlert(Initial(created, threads), labels);
  }

  /** A step that a thread makes inside the pool's functions. */
  predicate Inside(l: Label) {
    l.Step? || l.Notify?
  }

  ghost predicate UsingAt(s: State, i: nat) {
    i < |s.threads| && s.threads[i].Using?
  }

  /** Steps inside the pool's functions alone lead to a thread getting a connection. */
  ghost predicate CanServe(s: State) {
    exists more: seq<Label>, i: nat :: (forall l <- more :: Inside(l)) && !UsingAt(s, i) && UsingAt(Run(s, more), i)
  }

  lemma RunCons(s: State, l: Label, rest: seq<Label>)
    ensures Run(s, [l] + rest) == Run(Next(s, l), rest)
  {
    assert ([l] + rest)[1..] == rest;
  }

  lemma InsideKeepsUsing(s: State, l: Label, i: nat)
    requires Inside(l) && UsingAt(s, i)
    ensures UsingAt(Next(s, l), i)
  {
  }

  lemma ServeLater(s: State, l: Label)
    requires Inside(l) && CanServe(Next(s, l))
    ensures CanServe(s)
  {
    var more: seq<Label>, i: nat :|
      (forall k <- more :: Inside(k)) && !UsingAt(Next(s, l), i) && UsingAt(Run(Next(s, l), more), i);
    RunCons(s, l, more);
    if UsingAt(s, i) { InsideKeepsUsing(s, l, i); }
    assert forall k <- [l] + more :: Inside(k);
    assert UsingAt(Run(s, [l] + more), i);
  }

  lemma ServeNow(s: State, i: nat)
    requires i < |s.threads| && s.threads[i].Testing? && s.idle != []
    ensures CanServe(s)
  {
    var more := [Step(i)] + [];
    RunCons(s, Step(i), []);
    assert forall l <- more :: Inside(l);
    assert !UsingAt(s, i) && UsingAt(Run(s, more), i);
  }

  /** Two steps of a thread that needs the free lock. */
  lemma ServeNext(s: State, i: nat)
    requires i < |s.threads| && (s.threads[i].Asking? || s.threads[i].Woken?) && s.owner == Free && s.idle != []
    ensures CanServe(s)
  {
    ServeNow(Next(s, Step(i)), i);
    ServeLater(s, Step(i));
  }

  /** With the lock free, a thread that is awake inside tests next, or one that owes a notify wakes
      the sleeper. */
  lemma ServeFree(s: State)
    requires Owned(s) && s.owner == Free && s.idle != [] && SomeoneWaits(s) && Alert(s)
    ensures CanServe(s)
  {
    var i := SomeoneDue(s);
    assert !s.threads[i].HoldsLock();
    if s.threads[i].Woken? {
      ServeNext(s, i);
    } else {
      var k: nat :| k < |s.threads| && s.threads[k].Waiting?;
      ServeNext(Next(s, Notify(i, k)), k);
      ServeLater(s, Notify(i, k));
    }
  }

  /** A thread that is about to unlock. */
  lemma ServePushed(s: State, i: nat)
    requires Owned(s) && i < |s.threads| && s.threads[i].Pushed? && s.idle != [] && SomeoneWaits(s) && Alert(s)
    ensures CanServe(s)
  {
    var next := Next(s, Step(i));
    StepOwned(s, Step(i));
    StepAlert(s, Step(i));
    SleepersStay(s, next, i);
    ServeFree(next);
    ServeLater(s, Step(i));
  }

  lemma SleepersStay(s: State, t: State, i: nat)
    requires i < |s.threads| == |t.threads| && t.threads == s.threads[i := t.threads[i]] && !s.threads[i].Waiting?
    ensures SomeoneWaits(s) ==> SomeoneWaits(t)
  {
    if SomeoneWaits(s) {
      var k: nat :| k < |s.threads| && s.threads[k].Waiting?;
      assert t.threads[k].Waiting?;
    }
  }

  lemma ServePushing(s: State, i: nat)
    requires Owned(s) && i < |s.threads| && s.threads[i].Pushing? && SomeoneWaits(s) && Alert(s)
    ensures CanServe(s)
  {
    var next := Next(s, Step(i));
    StepOwned(s, Step(i));
    StepAlert(s, Step(i));
    SleepersStay(s, next, i);
    ServePushed(next, i);
    ServeLater(s, Step(i));
  }

  /** So a thread never sleeps beside an idle connection with nothing left to happen: in every such
      state, steps inside the pool's functions alone, with no spurious wakeup and no new caller, give
      some thread a connection. */
  lemma SleeperIsServed(created: nat, threads: nat, labels: seq<Label>)
    requires var s := Run(Initial(created, threads), labels);
      SomeoneWaits(s) && s.idle != []
    ensures CanServe(Run(Initial(created, threads), labels))
  {
    RunAlert(Initial(created, threads), labels);
    var s := Run(Initial(created, threads), labels);
    if s.owner == Free {
      ServeFree(s);
    } else {
      var i := s.owner.i;
      assert s.threads[i].HoldsLock();
      if s.threads[i].Testing? {
        ServeNow(s, i);
      } else if s.threads[i].Pushed? {
        ServePushed(s, i);
      } else {
        ServePushing(s, i);
      }
    }
  }

  lemma SomeoneDue(s: State) returns (i: nat)
    requires Sum(s.threads, Due) > 0
    ensures i < |s.threads| && Due(s.threads[i]) == 1
  {
    if forall k :: 0 <= k < |s.threads| ==> Due(s.threads[k]) == 0 {
      SumZero(s.threads, Due);
      assert false;
    }
    i :| 0 <= i < |s.threads| && Due(s.threads[i]) != 0;
  }

  // ---------------------------------------------------------------------------------------------
  // Every connection is somewhere, once
  // ---------------------------------------------------------------------------------------------

  predicate Carries(t: Thread) {
    t.Using? || t.Returning? || t.Pushing?
  }

  /** How often a thread's place names connection c. */
  function CarriesConn(c: nat): Thread -> nat {
    (t: Thread) => if (t.Using? || t.Returning? || t.Pushing?) && t.conn == c then 1 else 0
  }

  /** In how many places connection c is. */
  function Places(s: State, c: nat): nat {
    multiset(s.idle)[c] + Sum(s.threads, CarriesConn(c)) + s.lost[c] + s.dropped[c]
  }

  lemma PopCounts(idle: seq<nat>, c: nat)
    requires idle != []
    ensures multiset(idle)[c] == multiset(idle[1..])[c] + if idle[0] == c then 1 else 0
  {
    assert idle == [idle[0]] + idle[1..];
  }

  lemma PushCounts(idle: seq<nat>, conn: nat, c: nat)
    ensures multiset(idle + [conn])[c] == multiset(idle)[c] + if conn == c then 1 else 0
  {
  }

  /** Thread i goes to `t` and connection c goes with it, to or from wherever it must. */
  lemma MoveKeepsPlaces(s: State, next: State, i: nat, t: Thread, c: nat)
    requires i < |s.threads| && next.threads == s.threads[i := t]
    requires multiset(next.idle)[c] + next.lost[c] + next.dropped[c] + CarriesConn(c)(t)
          == multiset(s.idle)[c] + s.lost[c] + s.dropped[c] + CarriesConn(c)(s.threads[i])
    ensures Places(next, c) == Places(s, c)
  {
    SumUpdate(s.threads, CarriesConn(c), i, t);
  }

  lemma TestKeepsPlaces(s: State, i: nat, c: nat)
    requires i < |s.threads| && s.threads[i].Testing?
    ensures Places(Advance(s, i), c) == Places(s, c)
  {
    var next := Advance(s, i);
    if s.idle != [] { PopCounts(s.idle, c); }
    MoveKeepsPlaces(s, next, i, next.threads[i], c);
  }

  lemma PushKeepsPlaces(s: State, i: nat, c: nat)
    requires i < |s.threads| && s.threads[i].Pushing?
    ensures Places(Advance(s, i), c) == Places(s, c)
  {
    PushCounts(s.idle, s.threads[i].conn, c);
    MoveKeepsPlaces(s, Advance(s, i), i, Pushed, c);
  }

  lemma LockKeepsPlaces(s: State, i: nat, c: nat)
    requires i < |s.threads| && !s.threads[i].Testing? && !s.threads[i].Pushing?
    ensures Places(Advance(s, i), c) == Places(s, c)
  {
    var next := Advance(s, i);
    if next != s { MoveKeepsPlaces(s, next, i, next.threads[i], c); }
  }

  lemma AdvanceKeepsPlaces(s: State, i: nat, c: nat)
    requires i < |s.threads|
    ensures Places(Advance(s, i), c) == Places(s, c)
  {
    if s.threads[i].Testing? {
      TestKeepsPlaces(s, i, c);
    } else if s.threads[i].Pushing? {
      PushKeepsPlaces(s, i, c);
    } else {
      LockKeepsPlaces(s, i, c);
    }
  }

  lemma NotifyKeepsPlaces(s: State, i: nat, k: nat, c: nat)
    ensures Places(Next(s, Notify(i, k)), c) == Places(s, c)
  {
    if i < |s.threads| && s.threads[i].Notifying? {
      if k < |s.threads| && s.threads[k].Waiting? {
        MoveKeepsPlaces(s, At(s, k, Woken), k, Woken, c);
        MoveKeepsPlaces(At(s, k, Woken), Next(s, Notify(i, k)), i, Idle, c);
      } else {
        MoveKeepsPlaces(s, At(s, i, Idle), i, Idle, c);
      }
    }
  }

  lemma ThrowKeepsPlaces(s: State, i: nat, c: nat)
    requires i < |s.threads| && s.threads[i].Using?
    ensures Places(Next(s, Throw(i)), c) == Places(s, c)
  {
    MoveKeepsPlaces(s, Next(s, Throw(i)), i, Idle, c);
  }

  lemma StepKeepsPlaces(s: State, l: Label, c: nat)
    ensures Places(Next(s, l), c) == Places(s, c)
  {
    match l {
      case Step(i) => if i < |s.threads| { AdvanceKeepsPlaces(s, i, c); }
      case Notify(i, k) => NotifyKeepsPlaces(s, i, k, c);
      case Shutdown =>
      case Throw(i) => if i < |s.threads| && s.threads[i].Using? { ThrowKeepsPlaces(s, i, c); }
      case _ => if Next(s, l) != s { MoveKeepsPlaces(s, Next(s, l), l.i, Next(s, l).threads[l.i], c); }
    }
  }

  lemma {:induction false} RunKeepsPlaces(s: State, labels: seq<Label>, c: nat)
    ensures Places(Run(s, labels), c) == Places(s, c)
    decreases |labels|
  {
    if labels != [] {
      StepKeepsPlaces(s, labels[0], c);
      RunKeepsPlaces(Next(s, labels[0]), labels[1..], c);
    }
  }

  lemma {:induction false} Distinct(created: nat, c: nat)
    ensures multiset(seq(created, i => i))[c] == if c < created then 1 else 0
    decreases created
  {
    if created > 0 {
      assert seq(created, i => i) == seq(created - 1, i => i) + [created - 1];
      Distinct(created - 1, c);
    }
  }

  /** In every reachable state each connection created is in one place, once: idle, held by one
      thread, lost with an exception, or dropped by Shutdown. */
  lemma EveryConnectionOnce(created: nat, threads: nat, labels: seq<Label>, c: nat)
    ensures Places(Run(Initial(created, threads), labels), c) == if c < created then 1 else 0
  {
    var s0 := Initial(created, threads);
    SumZero(s0.threads, CarriesConn(c));
    RunKeepsPlaces(s0, labels, c);
    Distinct(created, c);
  }

  // ---------------------------------------------------------------------------------------------
  // What an exception costs
  // ---------------------------------------------------------------------------------------------

  /** No connection is left in the pool or on its way back. */
  ghost predicate Exhausted(s: State) {
    s.idle == [] && forall i: nat :: i < |s.threads| ==> !Carries(s.threads[i])
  }

  lemma AdvanceExhausted(s: State, i: nat)
    requires Exhausted(s) && i < |s.threads|
    ensures Exhausted(Advance(s, i))
  {
    var t := Advance(s, i);
    assert t.threads == s.threads[i := t.threads[i]] && !Carries(s.threads[i]) && !Carries(t.threads[i]);
  }

  lemma StepExhausted(s: State, l: Label)
    requires Exhausted(s)
    ensures Exhausted(Next(s, l))
  {
    match l {
      case Step(i) => if i < |s.threads| { AdvanceExhausted(s, i); }
      case Give(i) => assert i < |s.threads| ==> !Carries(s.threads[i]);
      case Throw(i) => assert i < |s.threads| ==> !Carries(s.threads[i]);
      case _ =>
    }
  }

  /** Once every connection was lost to an exception or dropped, no thread ever gets one again. */
  lemma {:induction false} ExhaustedForever(s: State, labels: seq<Label>)
    requires Exhausted(s)
    ensures Exhausted(Run(s, labels))
    ensures forall i: nat :: i < |Run(s, labels).threads| ==> !Run(s, labels).threads[i].Using?
    decreases |labels|
  {
    if labels != [] {
      StepExhausted(s, labels[0]);
      ExhaustedForever(Next(s, labels[0]), labels[1..]);
    }
    assert forall i: nat :: i < |Run(s, labels).threads| ==> !Carries(Run(s, labels).threads[i]);
  }

  /** Every connection there was is gone. */
  ghost predicate AllGone(s: State, created: nat) {
    forall c: nat :: c < created ==> s.lost[c] + s.dropped[c] == 1
  }

  lemma ExhaustedMeansGone(s: State, created: nat)
    requires Exhausted(s) && forall c: nat :: Places(s, c) == if c < created then 1 else 0
    ensures AllGone(s, created)
  {
    forall c: nat | c < created ensures s.lost[c] + s.dropped[c] == 1 {
      assert forall i :: 0 <= i < |s.threads| ==> !Carries(s.threads[i]);
      SumZero(s.threads, CarriesConn(c));
      assert Places(s, c) == 1;
    }
  }

  lemma IdleIsPlaced(s: State)
    requires s.idle != []
    ensures var c := s.idle[0];
      Places(s, c) >= 1 + s.lost[c] + s.dropped[c]
  {
    PopCounts(s.idle, s.idle[0]);
  }

  lemma CarriedIsPlaced(s: State, i: nat)
    requires i < |s.threads| && Carries(s.threads[i])
    ensures var c := s.threads[i].conn;
      Places(s, c) >= 1 + s.lost[c] + s.dropped[c]
  {
    SumAt(s.threads, CarriesConn(s.threads[i].conn), i);
  }

  lemma GoneMeansExhausted(s: State, created: nat)
    requires AllGone(s, created) && forall c: nat :: Places(s, c) == if c < created then 1 else 0
    ensures Exhausted(s)
  {
    if s.idle != [] { IdleIsPlaced(s); }
    forall i: nat | i < |s.threads| ensures !Carries(s.threads[i]) {
      if Carries(s.threads[i]) { CarriedIsPlaced(s, i); }
    }
  }

  /** In every reachable state: the pool is exhausted if and only if every connection created was lost
      with an exception or dropped by Shutdown. */
  lemma ExhaustedIffGone(created: nat, threads: nat, labels: seq<Label>)
    ensures var s := Run(Initial(created, threads), labels);
      Exhausted(s) <==> forall c: nat :: c < created ==> s.lost[c] + s.dropped[c] == 1
  {
    var s := Run(Initial(created, threads), labels);
    forall c: nat ensures Places(s, c) == if c < created then 1 else 0 {
      EveryConnectionOnce(created, threads, labels, c);
    }
    if Exhausted(s) { ExhaustedMeansGone(s, created); }
    if AllGone(s, created) { GoneMeansExhausted(s, created); }
  }

  /** Steps of callers and inside the pool; no exception, no Shutdown and no spurious wakeup. */
  predicate Regular(l: Label) {
    Inside(l) || l.Get? || l.Give?
  }

  /** Such steps lead to a thread holding a connection. */
  ghost predicate Serves(s: State) {
    exists more: seq<Label>, i: nat :: (forall l <- more :: Regular(l)) && UsingAt(Run(s, more), i)
  }

  lemma ServesNow(s: State, i: nat)
    requires UsingAt(s, i)
    ensures Serves(s)
  {
    assert UsingAt(Run(s, []), i);
  }

  lemma ServesLater(s: State, l: Label)
    requires Regular(l) && Serves(Next(s, l))
    ensures Serves(s)
  {
    var more: seq<Label>, i: nat :| (forall k <- more :: Regular(k)) && UsingAt(Run(Next(s, l), more), i);
    RunCons(s, l, more);
    assert forall k <- [l] + more :: Regular(k);
    assert UsingAt(Run(s, [l] + more), i);
  }

  lemma CanServeServes(s: State)
    requires CanServe(s)
    ensures Serves(s)
  {
    var more: seq<Label>, i: nat :| (forall l <- more :: Inside(l)) && !UsingAt(s, i) && UsingAt(Run(s, more), i);
    assert forall l <- more :: Regular(l);
  }

  /** The lock is free and nobody sleeps: thread i gets an idle connection, wherever it stands. */
  lemma ThreadServes(s: State, i: nat)
    requires i < |s.threads| && s.owner == Free && Owned(s) && s.idle != [] && !SomeoneWaits(s)
    ensures Serves(s)
    decreases Distance(s.threads[i])
  {
    assert !s.threads[i].HoldsLock() && !s.threads[i].Waiting?;
    match s.threads[i] {
      case Using(_) => ServesNow(s, i);
      case Asking => ServeNext(s, i); CanServeServes(s);
      case Woken => ServeNext(s, i); CanServeServes(s);
      case Idle => AwakeServes(s, Get(i), i);
      case Notifying => AwakeServes(s, Notify(i, i), i);
      case Returning(_) => ReturningServes(s, i);
    }
  }

  /** How far a thread at the lock's outside is from asking for a connection. */
  function Distance(t: Thread): nat {
    if t.Returning? then 3 else if t.Notifying? then 2 else if t.Idle? then 1 else 0
  }

  lemma AwakeServes(s: State, l: Label, i: nat)
    requires i < |s.threads| && s.owner == Free && Owned(s) && s.idle != [] && !SomeoneWaits(s)
    requires (s.threads[i].Idle? && l == Get(i)) || (s.threads[i].Notifying? && l == Notify(i, i))
    ensures Serves(s)
    decreases Distance(s.threads[i]), 0
  {
    var next := Next(s, l);
    StepOwned(s, l);
    assert !s.threads[i].Waiting?;
    WaitersStay(s, next, i);
    ThreadServes(next, i);
    ServesLater(s, l);
  }

  lemma ReturningServes(s: State, i: nat)
    requires i < |s.threads| && s.owner == Free && Owned(s) && !SomeoneWaits(s) && s.threads[i].Returning?
    ensures Serves(s)
    decreases Distance(s.threads[i]), 0
  {
    var s1 := Next(s, Step(i));
    var s2 := Next(s1, Step(i));
    var s3 := Next(s2, Step(i));
    StepOwned(s, Step(i)); StepOwned(s1, Step(i)); StepOwned(s2, Step(i));
    WaitersStay(s, s1, i); WaitersStay(s1, s2, i); WaitersStay(s2, s3, i);
    ThreadServes(s3, i);
    ServesLater(s2, Step(i));
    ServesLater(s1, Step(i));
    ServesLater(s, Step(i));
  }

  lemma FreeIdleServes(s: State)
    requires Owned(s) && Alert(s) && |s.threads| > 0 && s.owner == Free && s.idle != []
    ensures Serves(s)
  {
    if SomeoneWaits(s) {
      ServeFree(s);
      CanServeServes(s);
    } else {
      ThreadServes(s, 0);
    }
  }

  lemma PushedServes(s: State, i: nat)
    requires Owned(s) && Alert(s) && i < |s.threads| && s.threads[i].Pushed? && s.idle != []
    ensures Serves(s)
  {
    StepOwned(s, Step(i));
    StepAlert(s, Step(i));
    FreeIdleServes(Next(s, Step(i)));
    ServesLater(s, Step(i));
  }

  lemma PushingServes(s: State, i: nat)
    requires Owned(s) && Alert(s) && i < |s.threads| && s.threads[i].Pushing?
    ensures Serves(s)
  {
    StepOwned(s, Step(i));
    StepAlert(s, Step(i));
    PushedServes(Next(s, Step(i)), i);
    ServesLater(s, Step(i));
  }

  lemma FreeServes(s: State)
    requires Owned(s) && Alert(s) && |s.threads| > 0 && s.owner == Free && !Exhausted(s)
    ensures Serves(s)
  {
    if s.idle != [] {
      FreeIdleServes(s);
    } else {
      var i: nat :| i < |s.threads| && Carries(s.threads[i]);
      assert !s.threads[i].HoldsLock();
      if s.threads[i].Using? {
        ServesNow(s, i);
      } else {
        StepOwned(s, Step(i));
        StepAlert(s, Step(i));
        PushingServes(Next(s, Step(i)), i);
        ServesLater(s, Step(i));
      }
    }
  }

  /** The holder of the lock gives it back, and what is carried stays carried. */
  lemma HolderServes(s: State, i: nat)
    requires Owned(s) && Alert(s) && i < |s.threads| && s.owner == By(i) && !Exhausted(s)
    ensures Serves(s)
  {
    assert s.threads[i].HoldsLock();
    if s.threads[i].Pushing? {
      PushingServes(s, i);
    } else if s.idle != [] {
      if s.threads[i].Testing? { ServeNow(s, i); CanServeServes(s); } else { PushedServes(s, i); }
    } else {
      var next := Next(s, Step(i));
      var k: nat :| k < |s.threads| && Carries(s.threads[k]);
      StepOwned(s, Step(i));
      StepAlert(s, Step(i));
      assert Carries(next.threads[k]);
      FreeServes(next);
      ServesLater(s, Step(i));
    }
  }

  /** In every reachable state with a thread: some continuation, of whatever kind, gives a thread a
      connection, if and only if regular steps can, if and only if some connection is neither lost nor
      dropped. As many exceptions as connections, and nobody is ever served again; one fewer, and
      somebody can be. */
  lemma ServedIffSomeLeft(created: nat, threads: nat, labels: seq<Label>)
    requires threads > 0
    ensures var s := Run(Initial(created, threads), labels);
      Serves(s) <==> exists c: nat :: c < created && s.lost[c] + s.dropped[c] == 0
    ensures var s := Run(Initial(created, threads), labels);
      Serves(s) <==> EverServed(s)
  {
    var s := Run(Initial(created, threads), labels);
    RunAlert(Initial(created, threads), labels);
    RunKeepsThreads(Initial(created, threads), labels);
    LeftIffNotExhausted(created, threads, labels);
    if Exhausted(s) {
      forall more: seq<Label>, i: nat ensures !UsingAt(Run(s, more), i) {
        ExhaustedForever(s, more);
      }
    } else {
      if s.owner == Free { FreeServes(s); } else { HolderServes(s, s.owner.i); }
      ServesEver(s);
    }
  }

  /** Some continuation, of whatever steps, leads to a thread holding a connection. */
  ghost predicate EverServed(s: State) {
    exists more: seq<Label>, i: nat :: UsingAt(Run(s, more), i)
  }

  lemma ServesEver(s: State)
    requires Serves(s)
    ensures EverServed(s)
  {
    var more: seq<Label>, i: nat :| (forall l <- more :: Regular(l)) && UsingAt(Run(s, more), i);
  }

  lemma LeftIffNotExhausted(created: nat, threads: nat, labels: seq<Label>)
    ensures var s := Run(Initial(created, threads), labels);
      Exhausted(s) <==> !exists c: nat :: c < created && s.lost[c] + s.dropped[c] == 0
  {
    var s := Run(Initial(created, threads), labels);
    ExhaustedIffGone(created, threads, labels);
    forall c: nat | c < created ensures s.lost[c] + s.dropped[c] <= 1 {
      EveryConnectionOnce(created, threads, labels, c);
    }
  }

  lemma StepKeepsThreads(s: State, l: Label)
    ensures |Next(s, l).threads| == |s.threads|
  {
  }

  lemma {:induction false} RunKeepsThreads(s: State, labels: seq<Label>)
    ensures |Run(s, labels).threads| == |s.threads|
    decreases |labels|
  {
    if labels != [] {
      StepKeepsThreads(s, labels[0]);
      RunKeepsThreads(Next(s, labels[0]), labels[1..]);
    }
  }

  function CarriesOne(t: Thread): nat {
    if t.Using? || t.Returning? || t.Pushing? then 1 else 0
  }

  /** Idle, held, lost and dropped connections, counted. */
  function Total(s: State): nat {
    |s.idle| + Sum(s.threads, CarriesOne) + |s.lost| + |s.dropped|
  }

  lemma MoveKeepsTotal(s: State, next: State, i: nat, t: Thread)
    requires i < |s.threads| && next.threads == s.threads[i := t]
    requires |next.idle| + |next.lost| + |next.dropped| + CarriesOne(t)
          == |s.idle| + |s.lost| + |s.dropped| + CarriesOne(s.threads[i])
    ensures Total(next) == Total(s)
  {
    SumUpdate(s.threads, CarriesOne, i, t);
  }

  lemma NotifyKeepsTotal(s: State, i: nat, k: nat)
    ensures Total(Next(s, Notify(i, k))) == Total(s)
  {
    if i < |s.threads| && s.threads[i].Notifying? {
      if k < |s.threads| && s.threads[k].Waiting? {
        MoveKeepsTotal(s, At(s, k, Woken), k, Woken);
        MoveKeepsTotal(At(s, k, Woken), Next(s, Notify(i, k)), i, Idle);
      } else {
        MoveKeepsTotal(s, At(s, i, Idle), i, Idle);
      }
    }
  }

  lemma StepKeepsTotal(s: State, l: Label)
    ensures Total(Next(s, l)) == Total(s)
  {
    var next := Next(s, l);
    match l {
      case Notify(i, k) => NotifyKeepsTotal(s, i, k);
      case Shutdown =>
      case _ => if next != s { MoveKeepsTotal(s, next, l.i, next.threads[l.i]); }
    }
  }

  lemma {:induction false} RunKeepsTotal(s: State, labels: seq<Label>)
    ensures Total(Run(s, labels)) == Total(s)
    decreases |labels|
  {
    if labels != [] {
      StepKeepsTotal(s, labels[0]);
      RunKeepsTotal(Next(s, labels[0]), labels[1..]);
    }
  }

  /** In every reachable state, idle, held, lost and dropped connections add up to those created; and
      a continuation gives a thread a connection if and only if fewer are lost and dropped than were
      created. */
  lemma ServedIffFewerLost(created: nat, threads: nat, labels: seq<Label>)
    requires threads > 0
    ensures Total(Run(Initial(created, threads), labels)) == created
    ensures var s := Run(Initial(created, threads), labels);
      EverServed(s) <==> |s.lost| + |s.dropped| < created
  {
    var s0 := Initial(created, threads);
    var s := Run(s0, labels);
    SumZero(s0.threads, CarriesOne);
    RunKeepsTotal(s0, labels);
    ServedIffSomeLeft(created, threads, labels);
    LeftIffNotExhausted(created, threads, labels);
    if Exhausted(s) {
      NothingLeft(s);
    } else {
      SomethingLeft(s);
    }
  }

  lemma NothingLeft(s: State)
    requires Exhausted(s)
    ensures |s.idle| + Sum(s.threads, CarriesOne) == 0
  {
    assert forall i :: 0 <= i < |s.threads| ==> !Carries(s.threads[i]);
    SumZero(s.threads, CarriesOne);
  }

  lemma SomethingLeft(s: State)
    requires !Exhausted(s)
    ensures |s.idle| + Sum(s.threads, CarriesOne) > 0
  {
    if s.idle == [] {
      var i: nat :| i < |s.threads| && Carries(s.threads[i]);
      SumAt(s.threads, CarriesOne, i);
    }
  }

  /** Nobody is inside the pool's functions but sleepers, and nobody holds a connection. */
  ghost predicate Quiet(s: State) {
    forall i: nat :: i < |s.threads| ==> s.threads[i].Idle? || s.threads[i].Waiting?
  }

  /** If a thread sleeps and nobody is inside or holds a connection, every connection is gone. */
  lemma StuckIsExhausted(created: nat, threads: nat, labels: seq<Label>)
    requires var s := Run(Initial(created, threads), labels);
      SomeoneWaits(s) && Quiet(s)
    ensures var s := Run(Initial(created, threads), labels);
      Exhausted(s) && forall c: nat :: c < created ==> s.lost[c] + s.dropped[c] == 1
  {
    var s := Run(Initial(created, threads), labels);
    RunAlert(Initial(created, threads), labels);
    ExhaustedIffGone(created, threads, labels);
    SumZero(s.threads, Due);
  }

  /** In a quiet state the next caller goes to sleep, for good, if and only if every connection was
      lost or dropped. */
  lemma QuietCallerSleepsIff(created: nat, threads: nat, labels: seq<Label>, i: nat)
    requires i < |Run(Initial(created, threads), labels).threads|
    requires Quiet(Run(Initial(created, threads), labels)) && Run(Initial(created, threads), labels).threads[i].Idle?
    ensures var s := Run(Initial(created, threads), labels);
      WaitingAt(Run(s, AskAndSleep(i)), i) <==> forall c: nat :: c < created ==> s.lost[c] + s.dropped[c] == 1
  {
    var s := Run(Initial(created, threads), labels);
    RunAlert(Initial(created, threads), labels);
    ExhaustedIffGone(created, threads, labels);
    QuietIsFree(s);
    if s.idle == [] { AskAndSleepWaits(s, i); } else { AskAndTake(s, i); }
  }

  ghost predicate WaitingAt(s: State, i: nat) {
    i < |s.threads| && s.threads[i].Waiting?
  }

  lemma HolderIsNotQuiet(s: State)
    requires Owned(s) && s.owner.By?
    ensures !Quiet(s)
  {
    assert s.threads[s.owner.i].HoldsLock();
  }

  lemma QuietIsFree(s: State)
    requires Owned(s) && Quiet(s)
    ensures s.owner == Free && (Exhausted(s) <==> s.idle == [])
  {
    if s.owner.By? { HolderIsNotQuiet(s); }
  }

  lemma AskAndTake(s: State, i: nat)
    requires i < |s.threads| && s.threads[i].Idle? && s.owner == Free && s.idle != []
    ensures UsingAt(Run(s, AskAndSleep(i)), i)
  {
    var a := Next(s, Get(i));
    var b := Next(a, Step(i));
    RunCons(s, Get(i), [Step(i)] + ([Step(i)] + []));
    RunCons(a, Step(i), [Step(i)] + []);
    RunCons(b, Step(i), []);
    assert UsingAt(Next(b, Step(i)), i);
  }

  function TakeAndThrow(i: nat): seq<Label> {
    [Get(i)] + ([Step(i)] + ([Step(i)] + ([Throw(i)] + [])))
  }

  function AskAndSleep(i: nat): seq<Label> {
    [Get(i)] + ([Step(i)] + ([Step(i)] + []))
  }

  /** A thread that takes a connection and leaves by an exception. */
  lemma TakeAndThrowLoses(s: State, i: nat)
    requires i < |s.threads| && s.threads[i].Idle? && s.owner == Free && s.idle != []
    ensures Run(s, TakeAndThrow(i)) == s.(idle := s.idle[1..], lost := s.lost + multiset{s.idle[0]})
  {
    var a := Next(s, Get(i));
    var b := Next(a, Step(i));
    var c := Next(b, Step(i));
    RunCons(s, Get(i), [Step(i)] + ([Step(i)] + ([Throw(i)] + [])));
    RunCons(a, Step(i), [Step(i)] + ([Throw(i)] + []));
    RunCons(b, Step(i), [Throw(i)] + []);
    RunCons(c, Throw(i), []);
    assert c == State(s.threads[i := Using(s.idle[0])], Free, s.idle[1..], s.lost, s.dropped);
    assert Next(c, Throw(i)).threads == s.threads;
  }

  lemma AskAndSleepWaits(s: State, i: nat)
    requires i < |s.threads| && s.threads[i].Idle? && s.owner == Free && s.idle == []
    ensures Run(s, AskAndSleep(i)) == s.(threads := s.threads[i := Waiting])
  {
    var a := Next(s, Get(i));
    var b := Next(a, Step(i));
    RunCons(s, Get(i), [Step(i)] + ([Step(i)] + []));
    RunCons(a, Step(i), [Step(i)] + []);
    RunCons(b, Step(i), []);
    assert Next(b, Step(i)).threads == s.threads[i := Waiting];
  }

  /** The login server's pools have two connections: after two exceptions the next caller sleeps for good. */
  lemma TwoExceptionsExhaustTwoConnections()
    ensures var s := Run(Initial(2, 2), TakeAndThrow(0) + (TakeAndThrow(0) + AskAndSleep(1)));
      s.threads == [Idle, Waiting] && s.lost == multiset{0, 1} && Exhausted(s)
  {
    assert Initial(2, 2).idle == [0, 1] && Initial(2, 2).threads == [Idle, Idle];
    TwoThrowsThenSleep(Initial(2, 2), 0, 1);
  }

  lemma TwoThrowsThenSleep(s: State, c: nat, d: nat)
    requires s.threads == [Idle, Idle] && s.owner == Free && s.idle == [c, d]
    ensures Run(s, TakeAndThrow(0) + (TakeAndThrow(0) + AskAndSleep(1)))
         == State([Idle, Waiting], Free, [], s.lost + multiset{c} + multiset{d}, s.dropped)
  {
    RunJoins(s, TakeAndThrow(0), TakeAndThrow(0) + AskAndSleep(1));
    TakeAndThrowLoses(s, 0);
    assert s.idle[1..] == [d];
    var t := s.(idle := [d], lost := s.lost + multiset{c});
    RunJoins(t, TakeAndThrow(0), AskAndSleep(1));
    TakeAndThrowLoses(t, 0);
    assert t.idle[1..] == [];
    AskAndSleepWaits(t.(idle := [], lost := t.lost + multiset{d}), 1);
    assert s.threads[1 := Waiting] == [Idle, Waiting];
  }

  lemma {:induction false} RunJoins(s: State, a: seq<Label>, b: seq<Label>)
    ensures Run(s, a + b) == Run(Run(s, a), b)
    decreases |a|
  {
    if a == [] {
      assert a + b == b;
    } else {
      assert (a + b)[0] == a[0] && (a + b)[1..] == a[1..] + b;
      RunJoins(Next(s, a[0]), a[1..], b);
    }
  }

  // ---------------------------------------------------------------------------------------------
  // The order of the connections
  // ---------------------------------------------------------------------------------------------

  predicate Takes(s: State, l: Label) {
    l.Step? && l.i < |s.threads| && s.threads[l.i].Testing? && s.idle != []
  }

  /** The connection a step hands to its thread, or those a Shutdown drops. */
  function OutBy(s: State, l: Label): seq<nat> {
    if Takes(s, l) && Next(s, l).threads[l.i].Using? then [Next(s, l).threads[l.i].conn]
    else if l.Shutdown? && s.owner == Free then s.idle
    else []
  }

  /** The connection a step of FreeConnection gives back. */
  function BackBy(s: State, l: Label): seq<nat> {
    if l.Step? && l.i < |s.threads| && s.threads[l.i].Pushing? then [s.threads[l.i].conn] else []
  }

  function Out(s: State, labels: seq<Label>): seq<nat>
    decreases |labels|
  {
    if labels == [] then [] else OutBy(s, labels[0]) + Out(Next(s, labels[0]), labels[1..])
  }

  function Back(s: State, labels: seq<Label>): seq<nat>
    decreases |labels|
  {
    if labels == [] then [] else BackBy(s, labels[0]) + Back(Next(s, labels[0]), labels[1..])
  }

  lemma TakeInOrder(s: State, l: Label)
    requires Takes(s, l)
    ensures s.idle == OutBy(s, l) + Next(s, l).idle
  {
    assert s.idle == [s.idle[0]] + s.idle[1..];
  }

  lemma StepOutBack(s: State, l: Label)
    ensures s.idle + BackBy(s, l) == OutBy(s, l) + Next(s, l).idle
  {
    if Takes(s, l) { TakeInOrder(s, l); }
  }

  /** idle + b == o + mid and mid + bs == os + last make idle + (b + bs) == (o + os) + last. */
  lemma Chain(idle: seq<nat>, b: seq<nat>, bs: seq<nat>, o: seq<nat>, os: seq<nat>, mid: seq<nat>, last: seq<nat>)
    requires idle + b == o + mid && mid + bs == os + last
    ensures idle + (b + bs) == (o + os) + last
  {
    Regroup<nat>(idle, b, bs);
    Regroup<nat>(o, mid, bs);
    Regroup<nat>(o, os, last);
  }

  lemma {:induction false} RunOutBack(s: State, labels: seq<Label>)
    ensures s.idle + Back(s, labels) == Out(s, labels) + Run(s, labels).idle
    decreases |labels|
  {
    if labels != [] {
      var t := Next(s, labels[0]);
      StepOutBack(s, labels[0]);
      RunOutBack(t, labels[1..]);
      Chain(s.idle, BackBy(s, labels[0]), Back(t, labels[1..]), OutBy(s, labels[0]), Out(t, labels[1..]),
            t.idle, Run(t, labels[1..]).idle);
    }
  }

  /** In every run the k-th connection that leaves the queue is the k-th of those that entered it:
      first the ones that Initialize opened, in their order, then those given back, in theirs; and
      the idle ones are the rest, in that order. */
  lemma HandedOutInOrder(created: nat, threads: nat, labels: seq<Label>)
    ensures var s := Initial(created, threads);
      var entered := seq(created, i => i) + Back(s, labels);
      && |Out(s, labels)| <= |entered|
      && Out(s, labels) == entered[..|Out(s, labels)|]
      && Run(s, labels).idle == entered[|Out(s, labels)|..]
  {
    RunOutBack(Initial(created, threads), labels);
  }

  // ---------------------------------------------------------------------------------------------
  // The object
  // ---------------------------------------------------------------------------------------------

  /** The deque behind the mutex. A method is what a thread does to it in one go while it holds the
      lock; its ghost arguments say which step of the machine, by which thread, that is. */
  class PSQLConnectionPool {
    var connections: seq<nat>

    constructor ()
      ensures connections == []
    {
      connections := [];
    }

    /** Opens `count` connections, numbered as they are opened. */
    method Initialize(count: byte)
      modifies this
      ensures connections == old(connections) + Initial(count, 0).idle
      ensures connections == old(connections) + seq(count, i => i)
    {
      for i := 0 to count
        invariant connections == old(connections) + seq(i, k => k)
      {
        connections := connections + [i];
      }
    }

    /** GetConnection at its loop's test: the front connection, or none and the thread must wait. */
    method GetConnection(ghost s: State, ghost i: nat) returns (taken: Option<nat>)
      requires i < |s.threads| && s.threads[i].Testing? && connections == s.idle
      modifies this
      ensures connections == Advance(s, i).idle
      ensures Advance(s, i).threads[i] == match taken { case None => Waiting case Some(conn) => Using(conn) }
      ensures taken == if old(connections) == [] then None else Some(old(connections)[0])
      ensures connections == if old(connections) == [] then [] else old(connections)[1..]
    {
      if connections == [] {
        taken := None;
      } else {
        taken := Some(connections[0]);
        connections := connections[1..];
      }
    }

    method FreeConnection(conn: nat, ghost s: State, ghost i: nat)
      requires i < |s.threads| && s.threads[i] == Pushing(conn) && connections == s.idle
      modifies this
      ensures connections == Advance(s, i).idle && connections == old(connections) + [conn]
    {
      connections := connections + [conn];
    }

    method Shutdown(ghost s: State)
      requires s.owner == Free && connections == s.idle
      modifies this
      ensures connections == Next(s, Label.Shutdown).idle && connections == []
    {
      connections := [];
    }
  }
}
