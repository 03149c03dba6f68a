/**
 The packet workers together with the database pools their packets use. `ProcessPacket` is the only
 caller of the pools; while it runs it holds the packet mutex, and in `GetConnection` it may sleep.
 */
module PooledWorkers {
  import opened Common
  import C = ConnectionPool
  import P = PacketProcessor

  /** What there is to know about packets: whether ProcessPacket returns once the pools have served it, and
      the pool it asks for a connection first, if it asks any. */
  datatype Oracle = Oracle(ends: nat -> bool, asks: nat -> Option<nat>)

  /** Thread i of every pool is worker i. `asked` holds while the packet in progress has asked a pool. */
  datatype Server = Server(proc: P.State, pools: seq<C.State>, asked: bool)

  function Initial(threads: nat, producers: nat, created: seq<nat>): Server {
    Server(P.Initial(threads, producers),
           seq(|created|, p requires 0 <= p < |created| => C.Initial(created[p], threads)), false)
  }

  datatype Label = OfProcessor(pl: P.Label) | OfPool(p: nat, cl: C.Label)

  predicate InPacket(s: Server, i: nat) {
    i < |s.proc.workers| && s.proc.workers[i].Processing?
  }

  /** Thread i is in none of the pools' functions and holds no connection. */
  predicate OutOfPools(s: Server, i: nat) {
    forall p :: 0 <= p < |s.pools| && i < |s.pools[p].threads| ==> s.pools[p].threads[i].Idle?
  }

  /** What Stop's joins wait for. */
  predicate AllExited(s: Server) {
    s.proc.stopped && forall i :: 0 <= i < |s.proc.workers| ==> s.proc.workers[i].Exited?
  }

  /** The packet asks a pool before anything else, and has not done so yet. */
  predicate MustAsk(s: Server, i: nat, o: Oracle)
    requires InPacket(s, i)
  {
    var first := o.asks(s.proc.workers[i].packet);
    !s.asked && first.Some? && first.value < |s.pools|
  }

  /** Whether the packet may ask pool p now: its first pool, then any. */
  predicate MayAsk(s: Server, i: nat, p: nat, o: Oracle)
    requires InPacket(s, i)
  {
    OutOfPools(s, i) && (s.asked || o.asks(s.proc.workers[i].packet) == Some(p))
  }

  /** A worker uses a pool inside ProcessPacket only, one at a time. It returns when it is done with the
      pools, but for packets whose ProcessPacket does not end. The pools are shut down after the
      processor has stopped. */
  predicate Enabled(s: Server, l: Label, o: Oracle) {
    match l
    case OfProcessor(pl) =>
      pl.Finish? && InPacket(s, pl.i) ==>
        OutOfPools(s, pl.i) && !MustAsk(s, pl.i, o) && o.ends(s.proc.workers[pl.i].packet)
    case OfPool(p, cl) =>
      p < |s.pools| &&
      if cl.Shutdown? then AllExited(s) else InPacket(s, cl.i) && (cl.Get? ==> MayAsk(s, cl.i, p, o))
  }

  function Next(s: Server, l: Label, o: Oracle): Server {
    if !Enabled(s, l, o) then s
    else match l
      case OfProcessor(pl) => Server(P.Next(s.proc, pl), s.pools, s.asked && !(pl.Finish? && InPacket(s, pl.i)))
      case OfPool(p, cl) => Server(s.proc, s.pools[p := C.Next(s.pools[p], cl)], s.asked || cl.Get?)
  }

  function Run(s: Server, labels: seq<Label>, o: Oracle): Server
    decreases |labels|
  {
    if labels == [] then s else Run(Next(s, labels[0], o), labels[1..], o)
  }

  // ---------------------------------------------------------------------------------------------
  // What every step keeps
  // ---------------------------------------------------------------------------------------------

  ghost predicate PoolOk(pool: C.State, created: nat, threads: nat) {
    && C.Owned(pool) && C.Alert(pool) && |pool.threads| == threads
    && forall c: nat :: C.Places(pool, c) == if c < created then 1 else 0
  }

  ghost predicate ProcOk(proc: P.State) {
    P.Owned(proc) && P.ThreadCount(proc) && (proc.stopped ==> !proc.running)
  }

  /** A thread is in one pool at most, and in a packet that has asked a pool then. */
  ghost predicate Linked(s: Server) {
    && (forall p: nat, i: nat {:trigger s.pools[p].threads[i]} ::
          p < |s.pools| && i < |s.pools[p].threads| && !s.pools[p].threads[i].Idle? ==> InPacket(s, i) && s.asked)
    && (forall p: nat, q: nat, i: nat {:trigger s.pools[p].threads[i], s.pools[q].threads[i]} ::
          (p < |s.pools| && q < |s.pools| && i < |s.pools[p].threads| && i < |s.pools[q].threads| &&
           !s.pools[p].threads[i].Idle? && !s.pools[q].threads[i].Idle?) ==> p == q)
  }

  ghost predicate Inv(s: Server, created: seq<nat>) {
    && ProcOk(s.proc) && Linked(s) && |s.pools| == |created|
    && (s.asked ==> s.proc.owner.ByWorker? && InPacket(s, s.proc.owner.i))
    && forall p: nat :: p < |s.pools| ==> PoolOk(s.pools[p], created[p], s.proc.threads)
  }

  lemma PoolStepOk(pool: C.State, l: C.Label, created: nat, threads: nat)
    requires PoolOk(pool, created, threads)
    ensures PoolOk(C.Next(pool, l), created, threads)
  {
    C.StepOwned(pool, l);
    C.StepAlert(pool, l);
    C.StepKeepsThreads(pool, l);
    forall c: nat { C.StepKeepsPlaces(pool, l, c); }
  }

  /** A thread enters a pool by its own call only. */
  lemma OnlyGetEnters(pool: C.State, l: C.Label, i: nat)
    requires i < |pool.threads| == |C.Next(pool, l).threads|
    requires pool.threads[i].Idle? && !C.Next(pool, l).threads[i].Idle?
    ensures l == C.Get(i)
  {
  }

  lemma ProcStepOk(proc: P.State, l: P.Label)
    requires ProcOk(proc)
    ensures ProcOk(P.Next(proc, l)) && P.Next(proc, l).threads == proc.threads
  {
    P.StepOwned(proc, l);
    P.StepThreadCount(proc, l);
  }

  lemma WorkStaysInPacket(proc: P.State, j: nat, i: nat)
    requires i < |proc.workers| && proc.workers[i].Processing? && j < |proc.workers|
    ensures i < |P.WorkerStep(proc, j).workers| && P.WorkerStep(proc, j).workers[i].Processing?
  {
    if j == i {
      assert P.WorkerStep(proc, j) == proc;
    } else {
      P.WorkerStepMoves(proc, j);
    }
  }

  lemma FinishStaysInPacket(proc: P.State, j: nat, i: nat)
    requires i < |proc.workers| && proc.workers[i].Processing? && j < |proc.workers| && j != i
    ensures i < |P.FinishStep(proc, j).workers| && P.FinishStep(proc, j).workers[i].Processing?
  {
  }

  /** A worker leaves a packet by its return only. */
  lemma OnlyFinishLeaves(proc: P.State, l: P.Label, i: nat)
    requires i < |proc.workers| && proc.workers[i].Processing? && l != P.Finish(i)
    ensures i < |P.Next(proc, l).workers| && P.Next(proc, l).workers[i].Processing?
  {
    match l {
      case Work(j) => if j < |proc.workers| { WorkStaysInPacket(proc, j, i); }
      case Finish(j) => if j < |proc.workers| { FinishStaysInPacket(proc, j, i); }
      case _ =>
    }
  }

  /** A worker in a packet stays there, with the lock, but for its own return. */
  lemma StaysInPacket(s: Server, pl: P.Label, i: nat)
    requires P.Owned(s.proc) && InPacket(s, i) && pl != P.Finish(i)
    ensures var next := P.Next(s.proc, pl);
      && i < |next.workers| && next.workers[i] == s.proc.workers[i] && next.owner == P.ByWorker(i)
  {
    OnePacket(s, i, i);
    P.StepOwned(s.proc, pl);
    OnlyFinishLeaves(s.proc, pl, i);
    assert P.Next(s.proc, pl).workers[i].HoldsLock();
  }

  lemma ProcessorLinked(s: Server, pl: P.Label, o: Oracle)
    requires P.Owned(s.proc) && Linked(s) && Enabled(s, OfProcessor(pl), o)
    ensures Linked(Next(s, OfProcessor(pl), o))
  {
    var t := Next(s, OfProcessor(pl), o);
    forall p: nat, i: nat | p < |t.pools| && i < |t.pools[p].threads| && !t.pools[p].threads[i].Idle?
      ensures InPacket(t, i) && t.asked
    {
      InsideAPool(s, i, p);
      StaysInPacket(s, pl, i);
      if pl.Finish? && InPacket(s, pl.i) { OnePacket(s, pl.i, i); }
    }
  }

  lemma ProcessorKeeps(s: Server, pl: P.Label, created: seq<nat>, o: Oracle)
    requires Inv(s, created) && Enabled(s, OfProcessor(pl), o)
    ensures Inv(Next(s, OfProcessor(pl), o), created)
  {
    ProcStepOk(s.proc, pl);
    ProcessorLinked(s, pl, o);
    if s.asked && pl != P.Finish(s.proc.owner.i) { StaysInPacket(s, pl, s.proc.owner.i); }
  }

  /** Whoever is in a pool after a step of it was there before, or has just come in from outside. */
  lemma PoolEntries(s: Server, p: nat, cl: C.Label, created: seq<nat>, i: nat, o: Oracle)
    requires Inv(s, created) && Enabled(s, OfPool(p, cl), o)
    requires i < |s.pools[p].threads| == |C.Next(s.pools[p], cl).threads| && !C.Next(s.pools[p], cl).threads[i].Idle?
    ensures InPacket(s, i) && (!s.pools[p].threads[i].Idle? || OutOfPools(s, i))
  {
    if s.pools[p].threads[i].Idle? { OnlyGetEnters(s.pools[p], cl, i); }
  }

  lemma PoolLinked(s: Server, t: Server, p: nat)
    requires Linked(s) && p < |s.pools| == |t.pools| && t.proc == s.proc && t.pools == s.pools[p := t.pools[p]]
    requires |t.pools[p].threads| == |s.pools[p].threads| && (s.asked ==> t.asked)
    requires forall i: nat :: i < |t.pools[p].threads| && !t.pools[p].threads[i].Idle? ==>
      InPacket(s, i) && t.asked && (!s.pools[p].threads[i].Idle? || OutOfPools(s, i))
    ensures Linked(t)
  {
  }

  lemma PoolKeeps(s: Server, p: nat, cl: C.Label, created: seq<nat>, o: Oracle)
    requires Inv(s, created) && Enabled(s, OfPool(p, cl), o)
    ensures Inv(Next(s, OfPool(p, cl), o), created)
  {
    var t := Next(s, OfPool(p, cl), o);
    PoolStepOk(s.pools[p], cl, created[p], s.proc.threads);
    forall i: nat | i < |t.pools[p].threads| && !t.pools[p].threads[i].Idle?
      ensures InPacket(s, i) && t.asked && (!s.pools[p].threads[i].Idle? || OutOfPools(s, i))
    {
      PoolEntries(s, p, cl, created, i, o);
      if s.pools[p].threads[i].Idle? { OnlyGetEnters(s.pools[p], cl, i); }
    }
    PoolLinked(s, t, p);
    if t.asked && !s.asked { OnePacket(s, cl.i, cl.i); }
  }

  lemma NextKeeps(s: Server, l: Label, created: seq<nat>, o: Oracle)
    requires Inv(s, created)
    ensures Inv(Next(s, l, o), created)
  {
    if Enabled(s, l, o) {
      match l {
        case OfProcessor(pl) => ProcessorKeeps(s, pl, created, o);
        case OfPool(p, cl) => PoolKeeps(s, p, cl, created, o);
      }
    }
  }

  lemma {:induction false} RunKeeps(s: Server, labels: seq<Label>, created: seq<nat>, o: Oracle)
    requires Inv(s, created)
    ensures Inv(Run(s, labels, o), created)
    decreases |labels|
  {
    if labels != [] {
      NextKeeps(s, labels[0], created, o);
      RunKeeps(Next(s, labels[0], o), labels[1..], created, o);
    }
  }

  lemma InitialOk(threads: nat, producers: nat, created: seq<nat>)
    ensures Inv(Initial(threads, producers, created), created)
  {
    forall p: nat | p < |created| ensures PoolOk(C.Initial(created[p], threads), created[p], threads) {
      forall c: nat ensures C.Places(C.Initial(created[p], threads), c) == if c < created[p] then 1 else 0 {
        C.EveryConnectionOnce(created[p], threads, [], c);
      }
    }
  }

  lemma ReachableOk(threads: nat, producers: nat, created: seq<nat>, labels: seq<Label>, o: Oracle)
    ensures Inv(Run(Initial(threads, producers, created), labels, o), created)
  {
    InitialOk(threads, producers, created);
    RunKeeps(Initial(threads, producers, created), labels, created, o);
  }

  // ---------------------------------------------------------------------------------------------
  // The mutex leaves the pools to one worker
  // ---------------------------------------------------------------------------------------------

  lemma OnePacket(s: Server, i: nat, k: nat)
    requires P.Owned(s.proc) && InPacket(s, i) && InPacket(s, k)
    ensures i == k && s.proc.owner == P.ByWorker(k)
  {
    assert s.proc.workers[i].HoldsLock() && s.proc.workers[k].HoldsLock();
  }

  lemma OthersOutside(s: Server, created: seq<nat>, p: nat, k: nat, i: nat)
    requires Inv(s, created) && p < |s.pools| && i < |s.pools[p].threads| && InPacket(s, k) && i != k
    ensures s.pools[p].threads[i].Idle?
  {
    if !s.pools[p].threads[i].Idle? { OnePacket(s, i, k); }
  }

  lemma OnePool(s: Server, k: nat, p: nat, q: nat)
    requires Linked(s) && p < |s.pools| && q < |s.pools| && k < |s.pools[p].threads| && k < |s.pools[q].threads|
    requires !s.pools[p].threads[k].Idle? && !s.pools[q].threads[k].Idle?
    ensures p == q
  {
  }

  lemma InsideAPool(s: Server, k: nat, p: nat)
    requires Linked(s) && p < |s.pools| && k < |s.pools[p].threads| && !s.pools[p].threads[k].Idle?
    ensures InPacket(s, k) && !OutOfPools(s, k)
  {
  }

  predicate InGet(t: C.Thread) {
    t.Asking? || t.Testing? || t.Woken? || t.Waiting?
  }

  /** Worker k, inside ProcessPacket, wants a connection of pool p. */
  ghost predicate Wants(s: Server, k: nat, p: nat) {
    InPacket(s, k) && p < |s.pools| && k < |s.pools[p].threads| && InGet(s.pools[p].threads[k])
  }

  /** If the only thread in the pool looks for a connection and finds none, there are none left. */
  lemma EmptyMeansExhausted(s: Server, created: seq<nat>, k: nat, p: nat)
    requires Inv(s, created) && Wants(s, k, p) && s.pools[p].idle == []
    ensures C.Exhausted(s.pools[p])
  {
    forall i: nat | i < |s.pools[p].threads| && i != k ensures s.pools[p].threads[i].Idle? {
      OthersOutside(s, created, p, k, i);
    }
  }

  lemma SleeperFindsNone(s: Server, created: seq<nat>, k: nat, p: nat)
    requires Inv(s, created) && Wants(s, k, p) && s.pools[p].threads[k].Waiting?
    ensures s.pools[p].idle == []
  {
    var pool := s.pools[p];
    forall i | 0 <= i < |pool.threads| ensures C.Due(pool.threads[i]) == 0 {
      if i != k { OthersOutside(s, created, p, k, i); }
    }
    SumZero(pool.threads, C.Due);
  }

  ghost predicate AllGone(s: Server, created: seq<nat>, p: nat)
    requires p < |s.pools| == |created|
  {
    C.AllGone(s.pools[p], created[p])
  }

  lemma ExhaustedIffAllGone(s: Server, created: seq<nat>, p: nat)
    requires Inv(s, created) && p < |s.pools|
    ensures C.Exhausted(s.pools[p]) <==> AllGone(s, created, p)
  {
    if C.Exhausted(s.pools[p]) { C.ExhaustedMeansGone(s.pools[p], created[p]); }
    if AllGone(s, created, p) { C.GoneMeansExhausted(s.pools[p], created[p]); }
  }

  /** In every reachable state a worker sleeps in GetConnection only if every connection of that pool was
      lost: the packet mutex already keeps the workers from waiting for one another's connections. */
  lemma SleepsOnlyIfAllGone(threads: nat, producers: nat, created: seq<nat>, labels: seq<Label>, p: nat, o: Oracle)
    requires p < |created| == |Run(Initial(threads, producers, created), labels, o).pools|
    requires C.SomeoneWaits(Run(Initial(threads, producers, created), labels, o).pools[p])
    ensures AllGone(Run(Initial(threads, producers, created), labels, o), created, p)
  {
    var s := Run(Initial(threads, producers, created), labels, o);
    ReachableOk(threads, producers, created, labels, o);
    var k: nat :| k < |s.pools[p].threads| && s.pools[p].threads[k].Waiting?;
    assert Wants(s, k, p);
    SleeperFindsNone(s, created, k, p);
    EmptyMeansExhausted(s, created, k, p);
    ExhaustedIffAllGone(s, created, p);
  }

  // ---------------------------------------------------------------------------------------------
  // When Stop can return
  // ---------------------------------------------------------------------------------------------

  /** The pools that have a connection that is not lost or dropped. */
  ghost function Left(s: Server): set<nat> {
    set p: nat | p < |s.pools| && !C.Exhausted(s.pools[p])
  }

  /** A worker wants a connection of a pool that has none left. */
  ghost predicate HungAt(s: Server, k: nat, p: nat) {
    Wants(s, k, p) && p !in Left(s)
  }

  ghost predicate Hung(s: Server) {
    exists k: nat, p: nat :: HungAt(s, k, p)
  }

  /** ProcessPacket returns in the end, with these pools. */
  ghost predicate Returns(o: Oracle, packet: nat, pools: nat, left: set<nat>) {
    o.ends(packet) && (o.asks(packet).Some? && o.asks(packet).value < pools ==> o.asks(packet).value in left)
  }

  ghost function Good(s: Server, o: Oracle): nat -> bool {
    (packet: nat) => Returns(o, packet, |s.pools|, Left(s))
  }

  /** The packet in progress returns; if it has asked its pool already, that one does not matter. */
  ghost predicate ReturnsFrom(s: Server, k: nat, o: Oracle)
    requires InPacket(s, k)
  {
    o.ends(s.proc.workers[k].packet) && (MustAsk(s, k, o) ==> o.asks(s.proc.workers[k].packet).value in Left(s))
  }

  /** Nobody wants what is not there, the packet in progress returns, and so do those that the workers
      past their look at the flag must still take. */
  ghost predicate Promising(s: Server, o: Oracle) {
    && !Hung(s)
    && (forall k: nat :: InPacket(s, k) ==> ReturnsFrom(s, k, o))
    && P.Outlook(s.proc, Good(s, o))
  }

  ghost predicate CanEnd(s: Server, o: Oracle) {
    exists more: seq<Label> :: AllExited(Run(s, more, o))
  }

  lemma EndsLater(s: Server, l: Label, o: Oracle)
    requires CanEnd(Next(s, l, o), o)
    ensures CanEnd(s, o)
  {
    var more: seq<Label> :| AllExited(Run(Next(s, l, o), more, o));
    assert ([l] + more)[1..] == more;
    assert AllExited(Run(s, [l] + more, o));
  }

  lemma EndsNow(s: Server, o: Oracle)
    requires AllExited(s)
    ensures CanEnd(s, o)
  {
    assert AllExited(Run(s, [], o));
  }

  // ---------------------------------------------------------------------------------------------
  // If it is promising it can end
  // ---------------------------------------------------------------------------------------------

  /** How far a thread is from the end of its use of a pool. */
  function Rank(t: C.Thread): nat {
    match t
    case Waiting => 9
    case Asking => 8
    case Woken => 8
    case Testing => 7
    case Using(_) => 6
    case Returning(_) => 5
    case Pushing(_) => 4
    case Pushed => 3
    case Notifying => 2
    case Idle => 0
  }

  function RankAt(k: nat): C.State -> nat {
    (pool: C.State) => if k < |pool.threads| then Rank(pool.threads[k]) else 0
  }

  function ProducerWork(proc: P.State): nat {
    if proc.owner.ByProducer? && proc.owner.j < |proc.producers|
    then (if proc.producers[proc.owner.j].Pushing? then 2 else 1) else 0
  }

  function PoolWork(s: Server): nat {
    if s.proc.owner.ByWorker? then Sum(s.pools, RankAt(s.proc.owner.i)) else 0
  }

  /** The next step of a thread that is alone in its pool, unless it wants what is not there. */
  lemma PoolAdvances(pool: C.State, k: nat) returns (l: C.Label)
    requires C.Owned(pool) && k < |pool.threads| && !pool.threads[k].Idle?
    requires forall i: nat :: i < |pool.threads| && i != k ==> pool.threads[i].Idle?
    requires InGet(pool.threads[k]) ==> pool.idle != [] && !pool.threads[k].Waiting?
    ensures !l.Get? && !l.Shutdown? && l.i == k
    ensures var next := C.Next(pool, l);
      && k < |next.threads| && Rank(next.threads[k]) < Rank(pool.threads[k])
      && (InGet(next.threads[k]) ==> next.idle != [])
      && (C.Exhausted(next) ==> C.Exhausted(pool))
  {
    assert pool.owner == C.Free || pool.owner == C.By(k) by {
      if pool.owner.By? { assert pool.threads[pool.owner.i].HoldsLock(); }
    }
    assert pool.threads[k].HoldsLock() <==> pool.owner == C.By(k);
    match pool.threads[k] {
      case Using(_) => l := C.Give(k);
      case Notifying => l := C.Notify(k, k);
      case _ => l := C.Step(k);
    }
    StaysLeft(pool, k, l);
  }

  lemma StaysLeft(pool: C.State, k: nat, l: C.Label)
    requires k < |pool.threads| && (l == C.Give(k) || l == C.Notify(k, k) || l == C.Step(k) || l == C.Get(k))
    ensures C.Exhausted(C.Next(pool, l)) ==> C.Exhausted(pool)
  {
    var next := C.Next(pool, l);
    C.StepKeepsTotal(pool, l);
    if C.Exhausted(next) && !C.Exhausted(pool) {
      C.SomethingLeft(pool);
      C.NothingLeft(next);
    }
  }

  /** A step of the worker's pool. */
  lemma PoolTurn(s: Server, created: seq<nat>, k: nat, p: nat, o: Oracle) returns (l: Label)
    requires Inv(s, created) && Promising(s, o) && InPacket(s, k) && p < |s.pools|
    requires k < |s.pools[p].threads| && !s.pools[p].threads[k].Idle?
    ensures Next(s, l, o).proc == s.proc && Next(s, l, o).asked == s.asked
    ensures Promising(Next(s, l, o), o) && PoolWork(Next(s, l, o)) < PoolWork(s)
  {
    var pool := s.pools[p];
    OnePacket(s, k, k);
    forall i: nat | i < |pool.threads| && i != k ensures pool.threads[i].Idle? { OthersOutside(s, created, p, k, i); }
    if InGet(pool.threads[k]) {
      assert Wants(s, k, p) && !HungAt(s, k, p);
      if pool.idle == [] { EmptyMeansExhausted(s, created, k, p); }
      if pool.threads[k].Waiting? { SleeperFindsNone(s, created, k, p); }
    }
    var cl := PoolAdvances(pool, k);
    l := OfPool(p, cl);
    var t := Next(s, l, o);
    SumUpdate(s.pools, RankAt(k), p, t.pools[p]);
    forall k': nat, p': nat ensures !HungAt(t, k', p') {
      if Wants(t, k', p') {
        OnePacket(s, k, k');
        OnePool(s, k, p, p');
        assert InGet(t.pools[p].threads[k]) ==> t.pools[p].idle != [];
      }
    }
    LeftGrows(s, t, o);
  }

  /** With at least the same connections left, packets return as before. */
  lemma LeftGrows(s: Server, t: Server, o: Oracle)
    requires Promising(s, o) && t.proc == s.proc && |t.pools| == |s.pools| && (s.asked ==> t.asked)
    requires forall p: nat :: p < |s.pools| && C.Exhausted(t.pools[p]) ==> C.Exhausted(s.pools[p])
    requires !Hung(t)
    ensures Promising(t, o)
  {
    assert Left(s) <= Left(t);
    forall k: nat | InPacket(t, k) ensures ReturnsFrom(t, k, o) { assert InPacket(s, k) && ReturnsFrom(s, k, o); }
    P.OutlookWeakens(s.proc, Good(s, o), Good(t, o));
  }

  /** The packet asks its first pool. */
  lemma AskTurn(s: Server, created: seq<nat>, k: nat, o: Oracle) returns (l: Label)
    requires Inv(s, created) && Promising(s, o) && InPacket(s, k) && OutOfPools(s, k) && MustAsk(s, k, o)
    ensures var t := Next(s, l, o);
      t.proc == s.proc && t.asked && Promising(t, o)
  {
    var p := o.asks(s.proc.workers[k].packet).value;
    l := OfPool(p, C.Get(k));
    var t := Next(s, l, o);
    ThreadsMatch(s, created, k, p);
    StaysLeft(s.pools[p], k, C.Get(k));
    assert ReturnsFrom(s, k, o);
    forall k': nat, p': nat ensures !HungAt(t, k', p') {
      if Wants(t, k', p') {
        OnePacket(s, k, k');
        if p' != p { InsideAPool(s, k, p'); }
      }
    }
    LeftGrows(s, t, o);
  }

  lemma ThreadsMatch(s: Server, created: seq<nat>, k: nat, p: nat)
    requires Inv(s, created) && InPacket(s, k) && p < |s.pools|
    ensures k < |s.pools[p].threads|
  {
    assert PoolOk(s.pools[p], created[p], s.proc.threads);
  }

  /** A step of the processor that no pool takes part in. */
  lemma ProcTurn(s: Server, created: seq<nat>, pl: P.Label, o: Oracle)
    requires Inv(s, created) && Promising(s, o) && Enabled(s, OfProcessor(pl), o) && s.proc.stopped
    requires forall i: nat :: !InPacket(s, i) || (OutOfPools(s, i) && pl == P.Finish(i))
    requires pl.Work? || pl.Finish? || (pl.Push? && s.proc.owner == P.ByProducer(pl.j))
    ensures Promising(Next(s, OfProcessor(pl), o), o)
  {
    var t := Next(s, OfProcessor(pl), o);
    assert Left(t) == Left(s);
    forall k: nat, p: nat ensures !HungAt(t, k, p) {
      if Wants(t, k, p) { InsideAPool(s, k, p); }
    }
    NewPacket(s, created, pl, o);
  }

  /** A packet that has just been taken is one that returns. */
  lemma NewPacket(s: Server, created: seq<nat>, pl: P.Label, o: Oracle)
    requires Inv(s, created) && Promising(s, o) && Enabled(s, OfProcessor(pl), o) && s.proc.stopped
    requires forall i: nat :: !InPacket(s, i) || pl == P.Finish(i)
    requires pl.Work? || pl.Finish? || (pl.Push? && s.proc.owner == P.ByProducer(pl.j))
    ensures var t := Next(s, OfProcessor(pl), o);
      (forall k: nat :: InPacket(t, k) ==> ReturnsFrom(t, k, o)) && P.Outlook(t.proc, Good(t, o))
  {
    var t := Next(s, OfProcessor(pl), o);
    assert Left(t) == Left(s);
    match pl {
      case Work(i) => if i < |s.proc.workers| { P.WorkOutlook(s.proc, i, Good(s, o)); WorkTakes(s, i); }
      case Finish(i) => if i < |s.proc.workers| { P.FinishOutlook(s.proc, i, Good(s, o)); }
      case Push(j) => P.PushOutlook(s.proc, j, Good(s, o));
    }
    assert P.Outlook(t.proc, Good(s, o));
    P.OutlookWeakens(t.proc, Good(s, o), Good(t, o));
  }

  /** Who is in a packet after a worker's step took it then, or was in it before. */
  lemma WorkTakes(s: Server, i: nat)
    requires i < |s.proc.workers|
    ensures var t := P.WorkerStep(s.proc, i);
      forall k: nat :: k < |t.workers| && t.workers[k].Processing? ==>
        InPacket(s, k) ||
        (k == i && s.proc.workers[i].Locked? && s.proc.queue != [] && t.workers[i].packet == s.proc.queue[0])
  {
    P.WorkerStepMoves(s.proc, i);
  }

  lemma WorkerTurn(s: Server, created: seq<nat>, pl: P.Label, o: Oracle)
    requires Inv(s, created) && s.proc.stopped && P.OfWorker(pl)
    requires Enabled(s, OfProcessor(pl), o) && P.Next(s.proc, pl) != s.proc
    ensures var t := Next(s, OfProcessor(pl), o);
      t.proc.stopped && Sum(t.proc.workers, P.Remaining) < Sum(s.proc.workers, P.Remaining)
  {
    P.StoppedWorkerTires(s.proc, pl);
  }

  /** A worker that can move, with nobody in a packet. */
  lemma FreeTurn(s: Server, created: seq<nat>) returns (i: nat)
    requires Inv(s, created) && s.proc.stopped && !AllExited(s) && !s.proc.owner.ByProducer?
    requires forall k: nat :: !InPacket(s, k)
    ensures P.Next(s.proc, P.Work(i)) != s.proc
  {
    if s.proc.owner.ByWorker? {
      i := s.proc.owner.i;
      assert s.proc.workers[i].HoldsLock() && !InPacket(s, i);
    } else {
      i :| i < |s.proc.workers| && !s.proc.workers[i].Exited?;
      assert !s.proc.workers[i].HoldsLock();
    }
    P.WorkerMoves(s.proc, i);
  }

  lemma ProducerTurn(s: Server, created: seq<nat>, o: Oracle)
    requires Inv(s, created) && s.proc.stopped && s.proc.owner.ByProducer?
    ensures var t := Next(s, OfProcessor(P.Push(s.proc.owner.j)), o);
      t.proc.stopped && t.proc.workers == s.proc.workers && ProducerWork(t.proc) < ProducerWork(s.proc)
  {
    assert s.proc.producers[s.proc.owner.j].HoldsLock();
  }

  lemma NoPacketWhile(s: Server, i: nat)
    requires P.Owned(s.proc) && !s.proc.owner.ByWorker?
    ensures !InPacket(s, i)
  {
    if InPacket(s, i) { OnePacket(s, i, i); }
  }

  lemma {:induction false} RunsOut(s: Server, created: seq<nat>, o: Oracle)
    requires Inv(s, created) && s.proc.stopped && Promising(s, o)
    ensures CanEnd(s, o)
    decreases Sum(s.proc.workers, P.Remaining), ProducerWork(s.proc), if s.asked then 0 else 1, PoolWork(s)
  {
    if AllExited(s) {
      EndsNow(s, o);
    } else if s.proc.owner.ByProducer? {
      var pl := P.Push(s.proc.owner.j);
      forall i: nat ensures !InPacket(s, i) { NoPacketWhile(s, i); }
      ProducerTurn(s, created, o);
      ProcTurn(s, created, pl, o);
      RunsOutAfter(s, created, OfProcessor(pl), o);
    } else if exists k: nat :: InPacket(s, k) {
      var k: nat :| InPacket(s, k);
      PacketRunsOut(s, created, k, o);
    } else {
      var i := FreeTurn(s, created);
      WorkerTurn(s, created, P.Work(i), o);
      ProcTurn(s, created, P.Work(i), o);
      RunsOutAfter(s, created, OfProcessor(P.Work(i)), o);
    }
  }

  lemma PacketRunsOut(s: Server, created: seq<nat>, k: nat, o: Oracle)
    requires Inv(s, created) && s.proc.stopped && Promising(s, o) && InPacket(s, k)
    ensures CanEnd(s, o)
    decreases Sum(s.proc.workers, P.Remaining), ProducerWork(s.proc), if s.asked then 0 else 1, PoolWork(s), 1
  {
    assert ReturnsFrom(s, k, o);
    if !OutOfPools(s, k) {
      var p: nat :| p < |s.pools| && k < |s.pools[p].threads| && !s.pools[p].threads[k].Idle?;
      var l := PoolTurn(s, created, k, p, o);
      RunsOutAfter(s, created, l, o);
    } else if MustAsk(s, k, o) {
      var l := AskTurn(s, created, k, o);
      RunsOutAfter(s, created, l, o);
    } else {
      forall i: nat | InPacket(s, i) ensures OutOfPools(s, i) && P.Finish(k) == P.Finish(i) { OnePacket(s, i, k); }
      WorkerTurn(s, created, P.Finish(k), o);
      ProcTurn(s, created, P.Finish(k), o);
      RunsOutAfter(s, created, OfProcessor(P.Finish(k)), o);
    }
  }

  lemma RunsOutAfter(s: Server, created: seq<nat>, l: Label, o: Oracle)
    requires Inv(s, created) && Next(s, l, o).proc.stopped && Promising(Next(s, l, o), o)
    requires var t := Next(s, l, o);
      || Sum(t.proc.workers, P.Remaining) < Sum(s.proc.workers, P.Remaining)
      || (t.proc.workers == s.proc.workers && ProducerWork(t.proc) < ProducerWork(s.proc))
      || (t.proc == s.proc && !s.asked && t.asked)
      || (t.proc == s.proc && t.asked == s.asked && PoolWork(t) < PoolWork(s))
    ensures CanEnd(s, o)
    decreases Sum(s.proc.workers, P.Remaining), ProducerWork(s.proc), if s.asked then 0 else 1, PoolWork(s), 0
  {
    NextKeeps(s, l, created, o);
    RunsOut(Next(s, l, o), created, o);
    EndsLater(s, l, o);
  }

  // ---------------------------------------------------------------------------------------------
  // If it is not, it cannot
  // ---------------------------------------------------------------------------------------------

  /** Worker k is in a packet that does not return, as its pool or its own loop has it. */
  ghost predicate StuckAt(s: Server, k: nat, o: Oracle) {
    InPacket(s, k) && (!ReturnsFrom(s, k, o) || exists p: nat :: HungAt(s, k, p))
  }

  lemma ExhaustedKeepsAsking(pool: C.State, l: C.Label, k: nat)
    requires C.Exhausted(pool) && k < |pool.threads| && InGet(pool.threads[k])
    ensures C.Exhausted(C.Next(pool, l)) && k < |C.Next(pool, l).threads| && InGet(C.Next(pool, l).threads[k])
  {
    C.StepExhausted(pool, l);
    C.StepKeepsThreads(pool, l);
  }

  lemma LeftShrinks(s: Server, l: Label, o: Oracle)
    ensures Left(Next(s, l, o)) <= Left(s)
  {
    if Enabled(s, l, o) && l.OfPool? && C.Exhausted(s.pools[l.p]) { C.StepExhausted(s.pools[l.p], l.cl); }
  }

  lemma HungStays(s: Server, created: seq<nat>, l: Label, k: nat, p: nat, o: Oracle)
    requires Inv(s, created) && HungAt(s, k, p)
    ensures HungAt(Next(s, l, o), k, p) && Next(s, l, o).proc.workers[k] == s.proc.workers[k]
  {
    if Enabled(s, l, o) {
      match l {
        case OfProcessor(pl) =>
          InsideAPool(s, k, p);
          StaysInPacket(s, pl, k);
        case OfPool(q, cl) => if q == p { ExhaustedKeepsAsking(s.pools[p], cl, k); }
      }
    }
  }

  /** The first pool it must ask is gone: either it has not asked yet, or it is asking now. */
  lemma GoneAsked(s: Server, created: seq<nat>, l: Label, k: nat, o: Oracle)
    requires Inv(s, created) && InPacket(s, k) && o.ends(s.proc.workers[k].packet) && !ReturnsFrom(s, k, o)
    ensures StuckAt(Next(s, l, o), k, o) && Next(s, l, o).proc.workers[k] == s.proc.workers[k]
  {
    var t := Next(s, l, o);
    LeftShrinks(s, l, o);
    if Enabled(s, l, o) {
      match l {
        case OfProcessor(pl) => StaysInPacket(s, pl, k);
          if pl.Finish? && InPacket(s, pl.i) { OnePacket(s, pl.i, k); }
        case OfPool(q, cl) =>
          if cl.Get? {
            OnePacket(s, cl.i, k);
            ThreadsMatch(s, created, k, q);
            assert HungAt(t, k, q);
          }
      }
    }
  }

  lemma StuckStays(s: Server, created: seq<nat>, l: Label, k: nat, o: Oracle)
    requires Inv(s, created) && StuckAt(s, k, o)
    ensures StuckAt(Next(s, l, o), k, o) && Next(s, l, o).proc.workers[k] == s.proc.workers[k]
  {
    if exists p: nat :: HungAt(s, k, p) {
      var p: nat :| HungAt(s, k, p);
      HungStays(s, created, l, k, p, o);
    } else if o.ends(s.proc.workers[k].packet) {
      GoneAsked(s, created, l, k, o);
    } else if l.OfProcessor? && Enabled(s, l, o) {
      StaysInPacket(s, l.pl, k);
    }
  }

  /** A stopped server that is not promising does not become so. */
  lemma UnpromisingStays(s: Server, created: seq<nat>, l: Label, o: Oracle)
    requires Inv(s, created) && s.proc.stopped && !Promising(s, o)
    ensures !Promising(Next(s, l, o), o) && Next(s, l, o).proc.stopped
  {
    var t := Next(s, l, o);
    if exists k: nat :: StuckAt(s, k, o) {
      var k: nat :| StuckAt(s, k, o);
      StuckStays(s, created, l, k, o);
      StuckIsUnpromising(t, k, o);
    } else {
      NobodyStuck(s, o);
      LeftShrinks(s, l, o);
      if Promising(t, o) { OutlookDecides(s, created, l, o); }
    }
  }

  lemma StuckIsUnpromising(s: Server, k: nat, o: Oracle)
    requires StuckAt(s, k, o)
    ensures !Promising(s, o)
  {
  }

  lemma NobodyStuck(s: Server, o: Oracle)
    requires !Promising(s, o) && forall k: nat :: !StuckAt(s, k, o)
    ensures !P.Outlook(s.proc, Good(s, o))
  {
    forall k: nat, p: nat ensures !HungAt(s, k, p) { assert !StuckAt(s, k, o); }
    forall k: nat | InPacket(s, k) ensures ReturnsFrom(s, k, o) { assert !StuckAt(s, k, o); }
  }

  /** A bad outlook is mended only by a worker that takes the bad packet, and then that one is stuck. */
  lemma OutlookDecides(s: Server, created: seq<nat>, l: Label, o: Oracle)
    requires Inv(s, created) && s.proc.stopped && !P.Outlook(s.proc, Good(s, o)) && Left(Next(s, l, o)) <= Left(s)
    ensures !Promising(Next(s, l, o), o)
  {
    var t := Next(s, l, o);
    if P.Outlook(t.proc, Good(t, o)) {
      P.OutlookWeakens(t.proc, Good(t, o), Good(s, o));
      if l.OfProcessor? && Enabled(s, l, o) {
        P.BadOutlookStays(s.proc, l.pl, Good(s, o));
        var i := l.pl.i;
        assert s.proc.workers[i].HoldsLock();
        assert InPacket(t, i) && t.proc.workers[i].packet == s.proc.queue[0] && !t.asked;
        assert !ReturnsFrom(t, i, o);
      }
    }
  }

  lemma AllExitedIsPromising(s: Server, created: seq<nat>, o: Oracle)
    requires Inv(s, created) && AllExited(s)
    ensures Promising(s, o)
  {
    SumZero(s.proc.workers, P.MayTake);
  }

  lemma {:induction false} UnpromisingNeverEnds(s: Server, created: seq<nat>, labels: seq<Label>, o: Oracle)
    requires Inv(s, created) && s.proc.stopped && !Promising(s, o)
    ensures !AllExited(Run(s, labels, o))
    decreases |labels|
  {
    if labels == [] {
      if AllExited(s) { AllExitedIsPromising(s, created, o); }
    } else {
      NextKeeps(s, labels[0], created, o);
      UnpromisingStays(s, created, labels[0], o);
      UnpromisingNeverEnds(Next(s, labels[0], o), created, labels[1..], o);
    }
  }

  /** In every reachable state after Stop, for any workers, producers, pools and packets: all workers can
      still exit, so that Stop returns, if and only if nobody is looking for a connection of a pool that
      has none left, the packet in progress returns, and so do the packets that the workers past their look at
      the flag must still take, in the order of the queue. */
  lemma StopReturnsIff(threads: nat, producers: nat, created: seq<nat>, labels: seq<Label>, o: Oracle)
    requires Run(Initial(threads, producers, created), labels, o).proc.stopped
    ensures var s := Run(Initial(threads, producers, created), labels, o);
      CanEnd(s, o) <==> Promising(s, o)
  {
    var s := Run(Initial(threads, producers, created), labels, o);
    ReachableOk(threads, producers, created, labels, o);
    if Promising(s, o) {
      RunsOut(s, created, o);
    } else {
      forall more: seq<Label> ensures !AllExited(Run(s, more, o)) { UnpromisingNeverEnds(s, created, more, o); }
    }
  }

  /** What it means for a pool to have a connection left. */
  lemma LeftIff(threads: nat, producers: nat, created: seq<nat>, labels: seq<Label>, p: nat, o: Oracle)
    requires p < |created|
    ensures var s := Run(Initial(threads, producers, created), labels, o);
      |s.pools| == |created|
      && (p in Left(s) <==> exists c: nat :: c < created[p] && s.pools[p].lost[c] + s.pools[p].dropped[c] == 0)
  {
    var s := Run(Initial(threads, producers, created), labels, o);
    ReachableOk(threads, producers, created, labels, o);
    ExhaustedIffAllGone(s, created, p);
    forall c: nat | c < created[p] ensures s.pools[p].lost[c] + s.pools[p].dropped[c] <= 1 {
      assert C.Places(s.pools[p], c) == 1;
    }
  }

  /** For a worker in GetConnection with a packet that ends, and nothing endless to come: Stop can return if
      and only if a connection of that pool is neither lost nor dropped. */
  lemma StopReturnsIffSomeLeft(threads: nat, producers: nat, created: seq<nat>, labels: seq<Label>, k: nat, p: nat,
                               o: Oracle)
    requires Run(Initial(threads, producers, created), labels, o).proc.stopped && p < |created|
    requires Wants(Run(Initial(threads, producers, created), labels, o), k, p)
    ensures var s := Run(Initial(threads, producers, created), labels, o);
      CanEnd(s, o) <==>
        && o.ends(s.proc.workers[k].packet) && P.Outlook(s.proc, Good(s, o))
        && exists c: nat :: c < created[p] && s.pools[p].lost[c] + s.pools[p].dropped[c] == 0
  {
    var s := Run(Initial(threads, producers, created), labels, o);
    ReachableOk(threads, producers, created, labels, o);
    StopReturnsIff(threads, producers, created, labels, o);
    LeftIff(threads, producers, created, labels, p, o);
    InsideAPool(s, k, p);
    forall k': nat | InPacket(s, k') ensures k' == k { OnePacket(s, k', k); }
    forall k': nat, p': nat | Wants(s, k', p') ensures k' == k && p' == p {
      OnePacket(s, k', k);
      OnePool(s, k, p', p);
    }
    if p !in Left(s) { assert HungAt(s, k, p); }
  }

  /** Worker k is stuck, with all the packets as they are in s. */
  ghost predicate StuckAs(s: Server, t: Server, created: seq<nat>, k: nat, o: Oracle) {
    Inv(t, created) && P.HeldAs(s.proc, t.proc, k) && StuckAt(t, k, o)
  }

  lemma StuckDoesNotReturn(s: Server, created: seq<nat>, k: nat, o: Oracle)
    requires Inv(s, created) && StuckAt(s, k, o)
    ensures !Enabled(s, OfProcessor(P.Finish(k)), o)
  {
    if exists p: nat :: HungAt(s, k, p) {
      var p: nat :| HungAt(s, k, p);
      InsideAPool(s, k, p);
    }
  }

  lemma StepStuckAs(s: Server, t: Server, created: seq<nat>, l: Label, k: nat, o: Oracle)
    requires StuckAs(s, t, created, k, o)
    ensures StuckAs(s, Next(t, l, o), created, k, o)
  {
    NextKeeps(t, l, created, o);
    StuckStays(t, created, l, k, o);
    StuckDoesNotReturn(t, created, k, o);
    if l.OfProcessor? && Enabled(t, l, o) { P.StepHeld(s.proc, t.proc, l.pl, k); }
  }

  lemma {:induction false} StuckForever(s: Server, t: Server, created: seq<nat>, labels: seq<Label>, k: nat, o: Oracle)
    requires StuckAs(s, t, created, k, o)
    ensures StuckAs(s, Run(t, labels, o), created, k, o)
    decreases |labels|
  {
    if labels != [] {
      StepStuckAs(s, t, created, labels[0], k, o);
      StuckForever(s, Next(t, labels[0], o), created, labels[1..], k, o);
    }
  }

  /** Stopped or not, once a worker is stuck, in every continuation nothing is enqueued, taken or finished,
      and the worker does not exit. */
  lemma StuckServerIsDead(threads: nat, producers: nat, created: seq<nat>, labels: seq<Label>, more: seq<Label>,
                          k: nat, o: Oracle)
    requires StuckAt(Run(Initial(threads, producers, created), labels, o), k, o)
    ensures var s := Run(Initial(threads, producers, created), labels, o);
      var t := Run(s, more, o);
      && t.proc.enqueued == s.proc.enqueued && t.proc.finished == s.proc.finished && t.proc.queue == s.proc.queue
      && InPacket(t, k) && !AllExited(t)
  {
    var s := Run(Initial(threads, producers, created), labels, o);
    ReachableOk(threads, producers, created, labels, o);
    OnePacket(s, k, k);
    StuckForever(s, s, created, more, k, o);
  }

  /** So it is when a worker looks for a connection of a pool all of whose connections were lost. */
  lemma HungServerIsDead(threads: nat, producers: nat, created: seq<nat>, labels: seq<Label>, more: seq<Label>,
                         k: nat, p: nat, o: Oracle)
    requires p < |created| == |Run(Initial(threads, producers, created), labels, o).pools|
    requires Wants(Run(Initial(threads, producers, created), labels, o), k, p)
    requires AllGone(Run(Initial(threads, producers, created), labels, o), created, p)
    ensures var s := Run(Initial(threads, producers, created), labels, o);
      var t := Run(s, more, o);
      && t.proc.enqueued == s.proc.enqueued && t.proc.finished == s.proc.finished && t.proc.queue == s.proc.queue
      && InPacket(t, k) && !AllExited(t)
  {
    var s := Run(Initial(threads, producers, created), labels, o);
    ReachableOk(threads, producers, created, labels, o);
    ExhaustedIffAllGone(s, created, p);
    assert HungAt(s, k, p) && StuckAt(s, k, o);
    StuckServerIsDead(threads, producers, created, labels, more, k, o);
  }

  // ---------------------------------------------------------------------------------------------
  // It happens
  // ---------------------------------------------------------------------------------------------

  ghost predicate CanHang(s: Server, o: Oracle) {
    exists more: seq<Label> :: Hung(Run(s, more, o))
  }

  lemma HangsLater(s: Server, l: Label, o: Oracle)
    requires CanHang(Next(s, l, o), o)
    ensures CanHang(s, o)
  {
    var more: seq<Label> :| Hung(Run(Next(s, l, o), more, o));
    assert ([l] + more)[1..] == more;
    assert Hung(Run(s, [l] + more, o));
  }

  /** What happened so far in a server with one worker, one producer and one pool. */
  datatype Past = Past(packet: nat, enqueued: seq<nat>, finished: seq<nat>, taken: multiset<nat>)

  function Enqueued(past: Past): Past {
    past.(enqueued := past.enqueued + [past.packet])
  }

  function Taken(past: Past): Past {
    past.(taken := past.taken + multiset{0})
  }

  function Finished(past: Past): Past {
    past.(finished := past.finished + [past.packet])
  }

  function At(past: Past, w: P.Worker, owner: P.Owner, queue: seq<nat>, pool: C.State, asked: bool): Server {
    Server(P.State(1, [w], [P.Idle], owner, queue, true, false, past.enqueued, past.finished, past.taken, 0), [pool],
           asked)
  }

  /** A packet comes in. */
  lemma EnqueuedHangs(past: Past, pool: C.State, o: Oracle)
    requires CanHang(At(Enqueued(past), P.Check, P.Free, [past.packet], pool, false), o)
    ensures CanHang(At(past, P.Check, P.Free, [], pool, false), o)
  {
    var s := At(past, P.Check, P.Free, [], pool, false);
    var a := Next(s, OfProcessor(P.Call(0, past.packet)), o);
    var b := Next(a, OfProcessor(P.Push(0)), o);
    var c := Next(b, OfProcessor(P.Push(0)), o);
    assert Next(c, OfProcessor(P.Push(0)), o) == At(Enqueued(past), P.Check, P.Free, [past.packet], pool, false);
    HangsLater(c, OfProcessor(P.Push(0)), o);
    HangsLater(b, OfProcessor(P.Push(0)), o);
    HangsLater(a, OfProcessor(P.Push(0)), o);
    HangsLater(s, OfProcessor(P.Call(0, past.packet)), o);
  }

  /** The worker takes it. */
  lemma TakenHangs(past: Past, pool: C.State, o: Oracle)
    requires CanHang(At(Taken(past), P.Processing(past.packet), P.ByWorker(0), [], pool, false), o)
    ensures CanHang(At(past, P.Check, P.Free, [past.packet], pool, false), o)
  {
    var s := At(past, P.Check, P.Free, [past.packet], pool, false);
    var a := Next(s, OfProcessor(P.Work(0)), o);
    var b := Next(a, OfProcessor(P.Work(0)), o);
    assert Next(b, OfProcessor(P.Work(0)), o)
        == At(Taken(past), P.Processing(past.packet), P.ByWorker(0), [], pool, false);
    HangsLater(b, OfProcessor(P.Work(0)), o);
    HangsLater(a, OfProcessor(P.Work(0)), o);
    HangsLater(s, OfProcessor(P.Work(0)), o);
  }

  /** ProcessPacket returns. */
  lemma ReturnedHangs(past: Past, pool: C.State, o: Oracle)
    requires pool.threads == [C.Idle] && o.ends(past.packet)
    requires CanHang(At(Finished(past), P.Check, P.Free, [], pool, false), o)
    ensures CanHang(InPool(past, pool, true), o)
  {
    var s := InPool(past, pool, true);
    var a := Next(s, OfProcessor(P.Finish(0)), o);
    assert Next(a, OfProcessor(P.Work(0)), o) == At(Finished(past), P.Check, P.Free, [], pool, false);
    HangsLater(a, OfProcessor(P.Work(0)), o);
    HangsLater(s, OfProcessor(P.Finish(0)), o);
  }

  function Pool(idle: seq<nat>, lost: multiset<nat>): C.State {
    C.State([C.Idle], C.Free, idle, lost, multiset{})
  }

  function InPool(past: Past, pool: C.State, asked: bool): Server {
    At(past, P.Processing(past.packet), P.ByWorker(0), [], pool, asked)
  }

  lemma PoolHangs(past: Past, pool: C.State, cl: C.Label, asked: bool, o: Oracle)
    requires |pool.threads| == 1 && !cl.Shutdown? && cl.i == 0 && (cl.Get? || asked)
    requires cl.Get? ==> pool.threads[0].Idle? && o.asks(past.packet) == Some(0)
    requires CanHang(InPool(past, C.Next(pool, cl), true), o)
    ensures CanHang(InPool(past, pool, asked), o)
  {
    var s := InPool(past, pool, asked);
    assert Next(s, OfPool(0, cl), o) == InPool(past, C.Next(pool, cl), true);
    HangsLater(s, OfPool(0, cl), o);
  }

  /** The database raises an exception while the packet is processed. */
  lemma ThrownHangs(past: Past, idle: seq<nat>, lost: multiset<nat>, o: Oracle)
    requires idle != [] && o.asks(past.packet) == Some(0)
    requires CanHang(InPool(past, Pool(idle[1..], lost + multiset{idle[0]}), true), o)
    ensures CanHang(InPool(past, Pool(idle, lost), false), o)
  {
    var pool := Pool(idle, lost);
    var a := C.Next(pool, C.Get(0));
    var b := C.Next(a, C.Step(0));
    var c := C.Next(b, C.Step(0));
    assert c.threads[0] == C.Using(idle[0]);
    assert C.Next(c, C.Throw(0)).threads == [C.Idle];
    PoolHangs(past, c, C.Throw(0), true, o);
    PoolHangs(past, b, C.Step(0), true, o);
    PoolHangs(past, a, C.Step(0), true, o);
    PoolHangs(past, pool, C.Get(0), false, o);
  }

  /** One packet for every connection, each with an exception, and the next packet that needs one hangs. */
  lemma {:induction false} ExceptionsHang(past: Past, idle: seq<nat>, lost: multiset<nat>, o: Oracle)
    requires o.ends(past.packet) && o.asks(past.packet) == Some(0)
    ensures CanHang(At(past, P.Check, P.Free, [], Pool(idle, lost), false), o)
    decreases |idle|
  {
    var queued := Enqueued(past);
    var taken := Taken(queued);
    if idle == [] {
      AskingHangs(taken, lost, o);
    } else {
      var rest, gone := idle[1..], lost + multiset{idle[0]};
      ExceptionsHang(Finished(taken), rest, gone, o);
      ReturnedHangs(taken, Pool(rest, gone), o);
      ThrownHangs(taken, idle, lost, o);
    }
    TakenHangs(queued, Pool(idle, lost), o);
    EnqueuedHangs(past, Pool(idle, lost), o);
  }

  lemma AskingHangs(past: Past, lost: multiset<nat>, o: Oracle)
    requires o.asks(past.packet) == Some(0)
    ensures CanHang(InPool(past, Pool([], lost), false), o)
  {
    var a := C.Next(Pool([], lost), C.Get(0));
    assert a.threads == [C.Asking];
    assert HungAt(InPool(past, a, true), 0, 0);
    assert Hung(Run(InPool(past, a, true), [], o));
    PoolHangs(past, Pool([], lost), C.Get(0), false, o);
  }

  /** A server with one worker can hang from the start, however many connections its pool has, if some
      packet asks the pool. */
  lemma HangIsReachable(created: nat, packet: nat, o: Oracle)
    requires o.ends(packet) && o.asks(packet) == Some(0)
    ensures exists labels: seq<Label>, k: nat, p: nat :: HungAt(Run(Initial(1, 1, [created]), labels, o), k, p)
  {
    var s := Initial(1, 1, [created]);
    var started := Next(s, OfProcessor(P.Start), o);
    var idle := seq(created, i => i);
    var past := Past(packet, [], [], multiset{});
    assert s.proc.producers == [P.Idle] && s.pools == [Pool(idle, multiset{})] by {
      assert C.Initial(created, 1).threads == [C.Idle];
    }
    assert started.proc.workers == [P.Check];
    assert started == At(past, P.Check, P.Free, [], Pool(idle, multiset{}), false);
    ExceptionsHang(past, idle, multiset{}, o);
    HangsLater(s, OfProcessor(P.Start), o);
    var more: seq<Label> :| Hung(Run(s, more, o));
    var k: nat, p: nat :| HungAt(Run(s, more, o), k, p);
  }
}
