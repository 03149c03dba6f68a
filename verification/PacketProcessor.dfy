/**
 `PacketProcessor` as a machine of interleaved steps: any number of worker threads in
 `ThreadRoutine`, any number of threads in `EnqueuePacket`, one mutex and one deque. A step is what
 one thread does between two points at which another can be scheduled.
 */
module PacketProcessor {
  import opened Common

  /** Where a worker stands in its loop. */
  datatype Worker =
    | Check                   // about to read m_bContinue
    | WantLock                // at m_mtxPackets.lock()
    | Locked                  // holds the lock, about to look at the queue
    | Empty                   // holds the lock, found no packet, about to unlock
    | Sleeping
    | Processing(packet: nat) // holds the lock, inside ProcessPacket
    | Processed               // holds the lock, about to unlock
    | Exited
  {
    predicate HoldsLock() {
      Locked? || Empty? || Processing? || Processed?
    }
  }

  /** Where a thread stands that may call EnqueuePacket. */
  datatype Producer = Idle | WantPush(packet: nat) | Pushing(packet: nat) | Pushed {
    predicate HoldsLock() {
      Pushing? || Pushed?
    }
  }

  datatype Owner = Free | ByWorker(i: nat) | ByProducer(j: nat)

  /** `enqueued` and `finished` are histories; `taken` has a worker once for every packet it popped
      since Stop, and `before` is how many were finished then. */
  datatype State = State(
    threads: nat, workers: seq<Worker>, producers: seq<Producer>, owner: Owner, queue: seq<nat>,
    running: bool, stopped: bool, enqueued: seq<nat>, finished: seq<nat>, taken: multiset<nat>, before: nat)

  function Initial(threads: nat, producers: nat): State {
    State(threads, [], seq(producers, _ => Idle), Free, [], false, false, [], [], multiset{}, 0)
  }

  /** `Finish` is the return of the ProcessPacket a worker is in; whether it comes is not up to the worker. */
  datatype Label = Start | Stop | Work(i: nat) | Finish(i: nat) | Call(j: nat, packet: nat) | Push(j: nat)

  function AtWorker(s: State, i: nat, w: Worker): State
    requires i < |s.workers|
  {
    s.(workers := s.workers[i := w])
  }

  function AtProducer(s: State, j: nat, p: Producer): State
    requires j < |s.producers|
  {
    s.(producers := s.producers[j := p])
  }

  /** One step of a worker; one that waits for the lock, is inside ProcessPacket or has exited stays
      where it is. */
  function WorkerStep(s: State, i: nat): State
    requires i < |s.workers|
  {
    match s.workers[i]
    case Check => AtWorker(s, i, if s.running then WantLock else Exited)
    case WantLock => if s.owner == Free then AtWorker(s, i, Locked).(owner := ByWorker(i)) else s
    case Locked =>
      if s.queue == [] then AtWorker(s, i, Empty)
      else AtWorker(s, i, Processing(s.queue[0])).(queue := s.queue[1..], taken := s.taken + multiset{i})
    case Empty => AtWorker(s, i, Sleeping).(owner := Free)
    case Sleeping => AtWorker(s, i, Check)
    case Processing(packet) => s
    case Processed => AtWorker(s, i, Check).(owner := Free)
    case Exited => s
  }

  function FinishStep(s: State, i: nat): State
    requires i < |s.workers|
  {
    if s.workers[i].Processing? then AtWorker(s, i, Processed).(finished := s.finished + [s.workers[i].packet]) else s
  }

  function ProducerStep(s: State, j: nat): State
    requires j < |s.producers|
  {
    match s.producers[j]
    case Idle => s
    case WantPush(packet) =>
      if s.owner == Free then AtProducer(s, j, Pushing(packet)).(owner := ByProducer(j)) else s
    case Pushing(packet) =>
      AtProducer(s, j, Pushed).(queue := s.queue + [packet], enqueued := s.enqueued + [packet])
    case Pushed => AtProducer(s, j, Idle).(owner := Free)
  }

  /** Start and Stop are called once, in this order; Stop's joins only wait for the workers. */
  function Next(s: State, l: Label): State {
    match l
    case Start =>
      if s.workers == [] && !s.stopped then s.(running := true, workers := seq(s.threads, _ => Check)) else s
    case Stop =>
      if s.stopped then s
      else s.(running := false, stopped := true, taken := multiset{}, before := |s.finished|)
    case Work(i) => if i < |s.workers| then WorkerStep(s, i) else s
    case Finish(i) => if i < |s.workers| then FinishStep(s, i) else s
    case Call(j, packet) =>
      if j < |s.producers| && s.producers[j].Idle? then AtProducer(s, j, WantPush(packet)) else s
    case Push(j) => if j < |s.producers| then ProducerStep(s, j) else s
  }

  function Run(s: State, labels: seq<Label>): State
    decreases |labels|
  {
    if labels == [] then s else Run(Next(s, labels[0]), labels[1..])
  }

  // ---------------------------------------------------------------------------------------------
  // One lock, one order
  // ---------------------------------------------------------------------------------------------

  /** The mutex is held by exactly the thread whose position says so. */
  ghost predicate Owned(s: State) {
    && (forall i: nat :: i < |s.workers| ==> (s.workers[i].HoldsLock() <==> s.owner == ByWorker(i)))
    && (forall j: nat :: j < |s.producers| ==> (s.producers[j].HoldsLock() <==> s.owner == ByProducer(j)))
    && (s.owner.ByWorker? ==> s.owner.i < |s.workers|)
    && (s.owner.ByProducer? ==> s.owner.j < |s.producers|)
  }

  function InProgress(s: State): seq<nat> {
    if s.owner.ByWorker? && s.owner.i < |s.workers| && s.workers[s.owner.i].Processing?
    then [s.workers[s.owner.i].packet] else []
  }

  ghost predicate InOrder(s: State) {
    s.enqueued == s.finished + InProgress(s) + s.queue
  }

  /** How worker i may change the owner: not at all, take a free lock, or give back its own. */
  predicate OwnerMove(before: Owner, after: Owner, me: Owner) {
    after == before || (before == Free && after == me) || (before == me && after == Free)
  }

  lemma WorkerMoveOwned(s: State, t: State, i: nat)
    requires Owned(s) && i < |s.workers| == |t.workers| && t.producers == s.producers
    requires t.workers == s.workers[i := t.workers[i]]
    requires OwnerMove(s.owner, t.owner, ByWorker(i)) && (t.workers[i].HoldsLock() <==> t.owner == ByWorker(i))
    ensures Owned(t)
  {
  }

  lemma ProducerMoveOwned(s: State, t: State, j: nat)
    requires Owned(s) && j < |s.producers| == |t.producers| && t.workers == s.workers
    requires t.producers == s.producers[j := t.producers[j]]
    requires OwnerMove(s.owner, t.owner, ByProducer(j)) && (t.producers[j].HoldsLock() <==> t.owner == ByProducer(j))
    ensures Owned(t)
  {
  }

  lemma WorkerStepMoves(s: State, i: nat)
    requires i < |s.workers|
    ensures |WorkerStep(s, i).workers| == |s.workers|
    ensures WorkerStep(s, i).workers == s.workers[i := WorkerStep(s, i).workers[i]]
  {
    match s.workers[i]
    case _ =>
  }

  /** A worker's step changes its own position, takes at most a free lock, gives back at most its own. */
  lemma WorkerStepFacts(s: State, i: nat)
    requires i < |s.workers| && (s.workers[i].HoldsLock() <==> s.owner == ByWorker(i))
    ensures var t := WorkerStep(s, i);
      && |t.workers| == |s.workers| && t.producers == s.producers
      && t.workers == s.workers[i := t.workers[i]]
      && OwnerMove(s.owner, t.owner, ByWorker(i)) && (t.workers[i].HoldsLock() <==> t.owner == ByWorker(i))
  {
  }

  lemma FinishStepFacts(s: State, i: nat)
    requires i < |s.workers| && (s.workers[i].HoldsLock() <==> s.owner == ByWorker(i))
    ensures var t := FinishStep(s, i);
      && |t.workers| == |s.workers| && t.producers == s.producers
      && t.workers == s.workers[i := t.workers[i]]
      && t.owner == s.owner && (t.workers[i].HoldsLock() <==> t.owner == ByWorker(i))
  {
  }

  lemma ProducerStepFacts(s: State, j: nat)
    requires j < |s.producers| && (s.producers[j].HoldsLock() <==> s.owner == ByProducer(j))
    ensures var t := ProducerStep(s, j);
      && |t.producers| == |s.producers| && t.workers == s.workers
      && t.producers == s.producers[j := t.producers[j]]
      && OwnerMove(s.owner, t.owner, ByProducer(j)) && (t.producers[j].HoldsLock() <==> t.owner == ByProducer(j))
  {
  }

  lemma StepOwned(s: State, l: Label)
    requires Owned(s)
    ensures Owned(Next(s, l))
  {
    match l {
      case Work(i) =>
        if i < |s.workers| {
          WorkerStepFacts(s, i);
          WorkerMoveOwned(s, WorkerStep(s, i), i);
        }
      case Finish(i) =>
        if i < |s.workers| {
          FinishStepFacts(s, i);
          WorkerMoveOwned(s, FinishStep(s, i), i);
        }
      case Push(j) =>
        if j < |s.producers| {
          ProducerStepFacts(s, j);
          ProducerMoveOwned(s, ProducerStep(s, j), j);
        }
      case Call(j, packet) =>
        if j < |s.producers| && s.producers[j].Idle? {
          ProducerMoveOwned(s, Next(s, l), j);
        }
      case _ =>
    }
  }

  lemma WorkerStepInOrder(s: State, i: nat)
    requires i < |s.workers| && InOrder(s) && (s.workers[i].HoldsLock() <==> s.owner == ByWorker(i))
    ensures InOrder(WorkerStep(s, i))
  {
    match s.workers[i] {
      case Locked =>
        if s.queue != [] {
          assert s.finished + [s.queue[0]] + s.queue[1..] == s.finished + [] + s.queue;
        }
      case _ =>
        assert InProgress(WorkerStep(s, i)) == InProgress(s);
    }
  }

  lemma FinishStepInOrder(s: State, i: nat)
    requires i < |s.workers| && InOrder(s) && (s.workers[i].HoldsLock() <==> s.owner == ByWorker(i))
    ensures InOrder(FinishStep(s, i))
  {
    if s.workers[i].Processing? {
      assert s.finished + [s.workers[i].packet] + s.queue == s.finished + [s.workers[i].packet] + [] + s.queue;
    }
  }

  lemma ProducerStepInOrder(s: State, j: nat)
    requires j < |s.producers| && InOrder(s) && (s.producers[j].HoldsLock() <==> s.owner == ByProducer(j))
    ensures InOrder(ProducerStep(s, j))
  {
    var t := ProducerStep(s, j);
    assert InProgress(t) == InProgress(s);
    if s.producers[j].Pushing? {
      Regroup(s.finished + InProgress(s), s.queue, [s.producers[j].packet]);
    }
  }

  lemma StepInOrder(s: State, l: Label)
    requires Owned(s) && InOrder(s)
    ensures InOrder(Next(s, l))
  {
    match l {
      case Work(i) => if i < |s.workers| { WorkerStepInOrder(s, i); }
      case Finish(i) => if i < |s.workers| { FinishStepInOrder(s, i); }
      case Push(j) => if j < |s.producers| { ProducerStepInOrder(s, j); }
      case Start => assert s.workers == [] ==> InProgress(s) == [] && InProgress(Next(s, l)) == [];
      case _ => assert InProgress(Next(s, l)) == InProgress(s);
    }
  }

  lemma {:induction false} RunInOrder(s: State, labels: seq<Label>)
    requires Owned(s) && InOrder(s)
    ensures Owned(Run(s, labels)) && InOrder(Run(s, labels))
    decreases |labels|
  {
    if labels != [] {
      StepOwned(s, labels[0]);
      StepInOrder(s, labels[0]);
      RunInOrder(Next(s, labels[0]), labels[1..]);
    }
  }

  /** For any number of threads and any schedule: what was enqueued is, in that order, what is
      finished, what is in progress and what is queued; at most one worker is inside ProcessPacket;
      and a worker back at the top of its loop, asleep or gone holds no lock. */
  lemma GlobalFifo(threads: nat, producers: nat, labels: seq<Label>)
    ensures var s := Run(Initial(threads, producers), labels);
      && s.enqueued == s.finished + InProgress(s) + s.queue
      && (forall i: nat, j: nat ::
            i < |s.workers| && j < |s.workers| && s.workers[i].Processing? && s.workers[j].Processing? ==> i == j)
      && (forall i: nat ::
            i < |s.workers| && (s.workers[i].Check? || s.workers[i].Sleeping? || s.workers[i].Exited?)
            ==> s.owner != ByWorker(i))
  {
    RunInOrder(Initial(threads, producers), labels);
  }

  // ---------------------------------------------------------------------------------------------
  // Every call once
  // ---------------------------------------------------------------------------------------------

  function PacketOf(p: Producer): seq<nat> {
    if p.WantPush? || p.Pushing? then [p.packet] else []
  }

  function Times(packets: seq<nat>, packet: nat): nat {
    if packets == [] then 0
    else Times(packets[..|packets| - 1], packet) + (if packets[|packets| - 1] == packet then 1 else 0)
  }

  /** Whether a thread is in a call with this packet that has not pushed it yet. */
  function Waits(packet: nat): Producer -> nat {
    (p: Producer) => if PacketOf(p) == [packet] then 1 else 0
  }

  /** A call begins: the label names a thread that is in no other call. */
  predicate Accepts(s: State, l: Label) {
    l.Call? && l.j < |s.producers| && s.producers[l.j].Idle?
  }

  function IsCall(s: State, l: Label, packet: nat): nat {
    if Accepts(s, l) && l.packet == packet then 1 else 0
  }

  /** How many of the calls made in a run are made with this packet. */
  function Calls(s: State, labels: seq<Label>, packet: nat): nat
    decreases |labels|
  {
    if labels == [] then 0
    else IsCall(s, labels[0], packet) + Calls(Next(s, labels[0]), labels[1..], packet)
  }

  lemma TimesPushed(packets: seq<nat>, last: nat, packet: nat)
    ensures Times(packets + [last], packet) == Times(packets, packet) + (if last == packet then 1 else 0)
  {
    assert (packets + [last])[..|packets|] == packets;
  }

  lemma PushCalls(s: State, j: nat, packet: nat)
    requires j < |s.producers|
    ensures Times(ProducerStep(s, j).enqueued, packet) + Sum(ProducerStep(s, j).producers, Waits(packet))
         == Times(s.enqueued, packet) + Sum(s.producers, Waits(packet))
  {
    var t := ProducerStep(s, j);
    assert t.producers == s.producers[j := t.producers[j]];
    SumUpdate(s.producers, Waits(packet), j, t.producers[j]);
    if s.producers[j].Pushing? { TimesPushed(s.enqueued, s.producers[j].packet, packet); }
  }

  /** A step moves a packet from the calls that wait to the queue, or begins a call. */
  lemma StepCalls(s: State, l: Label, packet: nat)
    ensures Times(Next(s, l).enqueued, packet) + Sum(Next(s, l).producers, Waits(packet))
         == Times(s.enqueued, packet) + Sum(s.producers, Waits(packet)) + IsCall(s, l, packet)
  {
    if Accepts(s, l) {
      SumUpdate(s.producers, Waits(packet), l.j, WantPush(l.packet));
    } else if l.Push? && l.j < |s.producers| {
      PushCalls(s, l.j, packet);
    } else {
      assert Next(s, l).enqueued == s.enqueued && Next(s, l).producers == s.producers;
    }
  }

  lemma {:induction false} RunCalls(s: State, labels: seq<Label>, packet: nat)
    ensures Times(Run(s, labels).enqueued, packet) + Sum(Run(s, labels).producers, Waits(packet))
         == Times(s.enqueued, packet) + Sum(s.producers, Waits(packet)) + Calls(s, labels, packet)
    decreases |labels|
  {
    if labels != [] {
      StepCalls(s, labels[0], packet);
      RunCalls(Next(s, labels[0]), labels[1..], packet);
    }
  }

  /** In every run every packet is, exactly as often as a call was made with it, finished, in progress,
      queued or still to be pushed. */
  lemma EveryCallOnce(threads: nat, producers: nat, labels: seq<Label>, packet: nat)
    ensures var s := Run(Initial(threads, producers), labels);
      Times(s.finished + InProgress(s) + s.queue, packet) + Sum(s.producers, Waits(packet))
        == Calls(Initial(threads, producers), labels, packet)
  {
    RunInOrder(Initial(threads, producers), labels);
    RunCalls(Initial(threads, producers), labels, packet);
    SumZero(Initial(threads, producers).producers, Waits(packet));
  }

  /** The packets that come from thread j, as `from` tells, in their order. */
  function Of(packets: seq<nat>, from: nat -> nat, j: nat): seq<nat> {
    if packets == [] then []
    else Of(packets[..|packets| - 1], from, j)
         + (if from(packets[|packets| - 1]) == j then [packets[|packets| - 1]] else [])
  }

  function NewCall(s: State, l: Label, j: nat): seq<nat> {
    if Accepts(s, l) && l.j == j then [l.packet] else []
  }

  /** The packets of thread j's calls in a run. */
  function CalledBy(s: State, labels: seq<Label>, j: nat): seq<nat>
    decreases |labels|
  {
    if labels == [] then []
    else NewCall(s, labels[0], j) + CalledBy(Next(s, labels[0]), labels[1..], j)
  }

  /** `from` knows which thread calls with which packet. */
  ghost predicate Knows(from: nat -> nat, labels: seq<Label>) {
    forall l :: l in labels && l.Call? ==> from(l.packet) == l.j
  }

  ghost predicate KnowsWaiting(from: nat -> nat, s: State) {
    forall j: nat :: j < |s.producers| && PacketOf(s.producers[j]) != [] ==> from(s.producers[j].packet) == j
  }

  function WaitingOf(s: State, j: nat): seq<nat> {
    if j < |s.producers| then PacketOf(s.producers[j]) else []
  }

  lemma OfPushed(packets: seq<nat>, packet: nat, from: nat -> nat, j: nat)
    ensures Of(packets + [packet], from, j) == Of(packets, from, j) + (if from(packet) == j then [packet] else [])
  {
    assert (packets + [packet])[..|packets|] == packets;
  }

  lemma PushCalledBy(s: State, i: nat, from: nat -> nat, j: nat)
    requires KnowsWaiting(from, s) && i < |s.producers| && s.producers[i].Pushing?
    ensures Of(ProducerStep(s, i).enqueued, from, j) + WaitingOf(ProducerStep(s, i), j)
         == Of(s.enqueued, from, j) + WaitingOf(s, j)
  {
    var packet := s.producers[i].packet;
    assert PacketOf(s.producers[i]) == [packet];
    OfPushed(s.enqueued, packet, from, j);
  }

  lemma StepKnows(s: State, l: Label, from: nat -> nat)
    requires KnowsWaiting(from, s) && (l.Call? ==> from(l.packet) == l.j)
    ensures KnowsWaiting(from, Next(s, l))
  {
  }

  lemma OtherCalledBy(s: State, l: Label, j: nat)
    requires !Accepts(s, l) && !(l.Push? && l.j < |s.producers| && s.producers[l.j].Pushing?)
    ensures Next(s, l).enqueued == s.enqueued && WaitingOf(Next(s, l), j) == WaitingOf(s, j)
  {
    if l.Push? && l.j < |s.producers| {
      assert PacketOf(ProducerStep(s, l.j).producers[l.j]) == PacketOf(s.producers[l.j]);
    }
  }

  lemma AcceptCalledBy(s: State, l: Label, j: nat)
    requires Accepts(s, l)
    ensures Next(s, l).enqueued == s.enqueued
    ensures WaitingOf(Next(s, l), j) == WaitingOf(s, j) + NewCall(s, l, j)
  {
  }

  lemma StepCalledBy(s: State, l: Label, from: nat -> nat, j: nat)
    requires KnowsWaiting(from, s)
    ensures Of(Next(s, l).enqueued, from, j) + WaitingOf(Next(s, l), j)
         == Of(s.enqueued, from, j) + WaitingOf(s, j) + NewCall(s, l, j)
  {
    if l.Push? && l.j < |s.producers| && s.producers[l.j].Pushing? {
      PushCalledBy(s, l.j, from, j);
      assert NewCall(s, l, j) == [];
    } else if !Accepts(s, l) {
      OtherCalledBy(s, l, j);
    } else {
      AcceptCalledBy(s, l, j);
      Regroup<nat>(Of(s.enqueued, from, j), WaitingOf(s, j), NewCall(s, l, j));
    }
  }

  lemma {:induction false} RunCalledBy(s: State, labels: seq<Label>, from: nat -> nat, j: nat)
    requires KnowsWaiting(from, s) && Knows(from, labels)
    ensures Of(Run(s, labels).enqueued, from, j) + WaitingOf(Run(s, labels), j)
         == (Of(s.enqueued, from, j) + WaitingOf(s, j)) + CalledBy(s, labels, j)
    decreases |labels|
  {
    if labels != [] {
      var t := Next(s, labels[0]);
      assert labels[0] in labels;
      StepKnows(s, labels[0], from);
      StepCalledBy(s, labels[0], from, j);
      RunCalledBy(t, labels[1..], from, j);
      Regroup<nat>(Of(s.enqueued, from, j) + WaitingOf(s, j), NewCall(s, labels[0], j), CalledBy(t, labels[1..], j));
    }
  }

  /** Whatever the threads do in between, one thread's packets are processed in the order of its calls:
      those finished, in progress, queued and still to be pushed are, in this order, those it handed over. */
  lemma CallersOrder(threads: nat, producers: nat, labels: seq<Label>, from: nat -> nat, j: nat)
    requires Knows(from, labels)
    ensures var s := Run(Initial(threads, producers), labels);
      Of(s.finished + InProgress(s) + s.queue, from, j) + WaitingOf(s, j)
        == CalledBy(Initial(threads, producers), labels, j)
  {
    RunInOrder(Initial(threads, producers), labels);
    RunCalledBy(Initial(threads, producers), labels, from, j);
  }

  /** Until Stop no worker leaves. */
  ghost predicate Staffed(s: State) {
    s.running ==> forall i: nat :: i < |s.workers| ==> !s.workers[i].Exited?
  }

  lemma StepStaffed(s: State, l: Label)
    requires Staffed(s)
    ensures Staffed(Next(s, l))
  {
  }

  lemma {:induction false} RunStaffed(s: State, labels: seq<Label>)
    requires Staffed(s)
    ensures Staffed(Run(s, labels))
    decreases |labels|
  {
    if labels != [] {
      StepStaffed(s, labels[0]);
      RunStaffed(Next(s, labels[0]), labels[1..]);
    }
  }

  /** The packets pushed and not finished. */
  function Unfinished(s: State): seq<nat> {
    InProgress(s) + s.queue
  }

  /** A step that brings the front packet nearer to its end: by the thread that has the lock, or else by
      the first worker. */
  function Helpful(s: State): Label {
    match s.owner
    case Free => Work(0)
    case ByWorker(i) => if i < |s.workers| && s.workers[i].Processing? then Finish(i) else Work(i)
    case ByProducer(j) => Push(j)
  }

  function Distance(s: State): nat {
    match s.owner
    case Free =>
      if s.workers == [] then 0
      else if s.workers[0].WantLock? then 3
      else if s.workers[0].Check? then 4
      else 5
    case ByWorker(i) =>
      if i >= |s.workers| then 0
      else if s.workers[i].Processing? then 1
      else if s.workers[i].Locked? then 2
      else 6
    case ByProducer(j) => if j < |s.producers| && s.producers[j].Pushing? then 7 else 6
  }

  /** The front packet is finished, or it is nearer to that. */
  ghost predicate Helped(s: State, t: State)
    requires Unfinished(s) != []
  {
    || t.finished == s.finished + [Unfinished(s)[0]]
    || (t.finished == s.finished && Unfinished(t) != [] && Unfinished(t)[0] == Unfinished(s)[0]
        && Distance(t) < Distance(s))
  }

  lemma HelpfulWork(s: State, i: nat)
    requires Owned(s) && i < |s.workers| && !s.workers[i].Exited? && s.running && Unfinished(s) != []
    requires s.owner == ByWorker(i) || (s.owner == Free && i == 0)
    ensures Helped(s, Next(s, Helpful(s)))
  {
    assert s.workers[i].HoldsLock() <==> s.owner == ByWorker(i);
  }

  lemma HelpfulPush(s: State, j: nat)
    requires Owned(s) && s.workers != [] && s.owner == ByProducer(j) && Unfinished(s) != []
    ensures Helped(s, Next(s, Helpful(s)))
  {
    assert s.producers[j].HoldsLock();
  }

  lemma HelpfulStep(s: State)
    requires Owned(s) && Staffed(s) && s.running && s.workers != [] && Unfinished(s) != []
    ensures var t := Next(s, Helpful(s));
      Owned(t) && Staffed(t) && t.running && t.workers != [] && Helped(s, t)
  {
    StepOwned(s, Helpful(s));
    StepStaffed(s, Helpful(s));
    match s.owner {
      case Free => HelpfulWork(s, 0);
      case ByWorker(i) => HelpfulWork(s, i);
      case ByProducer(j) => HelpfulPush(s, j);
    }
  }

  lemma {:induction false} HelpfulRun(s: State) returns (labels: seq<Label>)
    requires Owned(s) && Staffed(s) && s.running && s.workers != [] && Unfinished(s) != []
    ensures Run(s, labels).finished == s.finished + [Unfinished(s)[0]]
    decreases Distance(s)
  {
    HelpfulStep(s);
    var t := Next(s, Helpful(s));
    if t.finished == s.finished + [Unfinished(s)[0]] {
      labels := [Helpful(s)];
      assert Run(s, labels) == Run(t, []);
    } else {
      var rest := HelpfulRun(t);
      labels := [Helpful(s)] + rest;
      assert labels[1..] == rest;
    }
  }

  /** Until Stop nothing that happened keeps a pushed packet from its turn: in every reachable state
      the threads can go on so that the front one is the next to be finished. */
  lemma FrontCanFinish(threads: nat, producers: nat, labels: seq<Label>)
    requires var s := Run(Initial(threads, producers), labels);
      s.running && s.workers != [] && Unfinished(s) != []
    ensures var s := Run(Initial(threads, producers), labels);
      exists more :: Run(s, more).finished == s.finished + [Unfinished(s)[0]]
  {
    RunInOrder(Initial(threads, producers), labels);
    RunStaffed(Initial(threads, producers), labels);
    var more := HelpfulRun(Run(Initial(threads, producers), labels));
  }

  // ---------------------------------------------------------------------------------------------
  // Stop
  // ---------------------------------------------------------------------------------------------

  /** Packets a worker can still take once the flag is cleared. */
  function MayTake(w: Worker): nat {
    if w.WantLock? || w.Locked? then 1 else 0
  }

  /** Packets a worker can still finish once the flag is cleared. */
  function MayFinish(w: Worker): nat {
    if w.WantLock? || w.Locked? || w.Processing? then 1 else 0
  }

  /** Since Stop each worker has taken a packet or may still take one, not both, and once. */
  ghost predicate TakesOnce(s: State) {
    s.stopped ==>
      && !s.running
      && (forall i: nat :: i < |s.workers| ==> s.taken[i] + MayTake(s.workers[i]) <= 1)
      && (forall i: nat :: i >= |s.workers| ==> s.taken[i] == 0)
  }

  ghost predicate FinishBounded(s: State) {
    s.stopped ==>
      && !s.running
      && s.before <= |s.finished|
      && |s.finished| - s.before + Sum(s.workers, MayFinish) <= |s.workers|
  }

  ghost predicate ThreadCount(s: State) {
    s.workers == [] || |s.workers| == s.threads
  }

  /** Once the flag is cleared, what a worker takes is what it still might. */
  lemma StoppedTakesOnce(s: State, i: nat)
    requires i < |s.workers| && s.stopped && TakesOnce(s)
    ensures TakesOnce(WorkerStep(s, i))
  {
    assert s.taken[i] + MayTake(s.workers[i]) <= 1;
  }

  lemma StepTakesOnce(s: State, l: Label)
    requires TakesOnce(s)
    ensures TakesOnce(Next(s, l))
  {
    if l.Work? && l.i < |s.workers| && s.stopped { StoppedTakesOnce(s, l.i); }
  }

  /** And what it finishes comes out of what it still may. */
  lemma MoveFinishBounded(s: State, next: State, i: nat, w: Worker)
    requires s.stopped && FinishBounded(s) && i < |s.workers| && next.workers == s.workers[i := w]
    requires next.stopped && !next.running && next.before == s.before && |next.finished| >= |s.finished|
    requires |next.finished| + MayFinish(w) <= |s.finished| + MayFinish(s.workers[i])
    ensures FinishBounded(next)
  {
    SumUpdate(s.workers, MayFinish, i, w);
  }

  lemma WorkFinishBounded(s: State, l: Label)
    requires FinishBounded(s) && s.stopped && OfWorker(l)
    ensures FinishBounded(Next(s, l))
  {
    var next := Next(s, l);
    if next != s { MoveFinishBounded(s, next, l.i, next.workers[l.i]); }
  }

  lemma StepFinishBounded(s: State, l: Label)
    requires FinishBounded(s)
    ensures FinishBounded(Next(s, l))
  {
    if l.Stop? {
      SumBound(s.workers, MayFinish, 1);
    } else if OfWorker(l) && s.stopped {
      WorkFinishBounded(s, l);
    }
  }

  predicate OfWorker(l: Label) {
    l.Work? || l.Finish?
  }

  lemma StepThreadCount(s: State, l: Label)
    requires ThreadCount(s)
    ensures ThreadCount(Next(s, l)) && Next(s, l).threads == s.threads
  {
  }

  lemma {:induction false} RunStopBounded(s: State, labels: seq<Label>)
    requires TakesOnce(s) && FinishBounded(s) && ThreadCount(s)
    ensures var t := Run(s, labels);
      TakesOnce(t) && FinishBounded(t) && ThreadCount(t) && t.threads == s.threads
    decreases |labels|
  {
    if labels != [] {
      StepTakesOnce(s, labels[0]);
      StepFinishBounded(s, labels[0]);
      StepThreadCount(s, labels[0]);
      RunStopBounded(Next(s, labels[0]), labels[1..]);
    }
  }

  /** A multiset with each of n workers once at most has n members at most. */
  lemma {:induction false} OnceEach(m: multiset<nat>, n: nat)
    requires forall i: nat :: m[i] <= if i < n then 1 else 0
    ensures |m| <= n
    decreases n
  {
    if n == 0 {
      assert m == multiset{};
    } else {
      OnceEach(m[n - 1 := 0], n - 1);
    }
  }

  /** In every schedule, each worker takes at most one packet after Stop, so all of them together at
      most as many as there are threads, and they finish at most as many. */
  lemma FewPacketsAfterStop(threads: nat, producers: nat, labels: seq<Label>)
    ensures var s := Run(Initial(threads, producers), labels);
      s.stopped ==>
        && (forall i: nat :: s.taken[i] <= 1)
        && |s.taken| <= threads && |s.finished| - s.before <= threads
  {
    var s := Run(Initial(threads, producers), labels);
    RunStopBounded(Initial(threads, producers), labels);
    if s.stopped { OnceEach(s.taken, |s.workers|); }
  }

  /** How many steps a worker can still make once the flag is cleared. */
  function Remaining(w: Worker): nat {
    match w
    case WantLock => 6
    case Locked => 5
    case Processing(_) => 4
    case Empty => 3
    case Processed => 2
    case Sleeping => 2
    case Check => 1
    case Exited => 0
  }

  /** Worker steps that get anywhere. */
  function Moves(s: State, labels: seq<Label>): nat
    decreases |labels|
  {
    if labels == [] then 0
    else (if OfWorker(labels[0]) && Next(s, labels[0]) != s then 1 else 0) + Moves(Next(s, labels[0]), labels[1..])
  }

  lemma MoveTires(s: State, next: State, i: nat, w: Worker)
    requires i < |s.workers| && next.workers == s.workers[i := w] && Remaining(w) < Remaining(s.workers[i])
    ensures Sum(next.workers, Remaining) < Sum(s.workers, Remaining)
  {
    SumUpdate(s.workers, Remaining, i, w);
  }

  lemma StoppedWorkerTires(s: State, l: Label)
    requires OfWorker(l) && l.i < |s.workers| && s.stopped && !s.running
    ensures var t := Next(s, l);
      && t.stopped && !t.running && |t.workers| == |s.workers|
      && (t == s || Sum(t.workers, Remaining) < Sum(s.workers, Remaining))
  {
    var t := Next(s, l);
    if t != s { MoveTires(s, t, l.i, t.workers[l.i]); }
  }

  lemma StoppedStep(s: State, l: Label)
    requires s.stopped && !s.running
    ensures var t := Next(s, l);
      && t.stopped && !t.running && |t.workers| == |s.workers|
      && Sum(t.workers, Remaining) + (if OfWorker(l) && t != s then 1 else 0) <= Sum(s.workers, Remaining)
  {
    if OfWorker(l) && l.i < |s.workers| { StoppedWorkerTires(s, l); }
  }

  /** After Stop the workers run out of steps: six for each of them at most, in any schedule. */
  lemma {:induction false} StoppedWorkersRunOut(s: State, labels: seq<Label>)
    requires s.stopped && !s.running
    ensures Moves(s, labels) <= Sum(s.workers, Remaining) <= 6 * |s.workers|
    decreases |labels|
  {
    SumBound(s.workers, Remaining, 6);
    if labels != [] {
      StoppedStep(s, labels[0]);
      StoppedWorkersRunOut(Next(s, labels[0]), labels[1..]);
    }
  }

  // ---------------------------------------------------------------------------------------------
  // A ProcessPacket that does not return
  // ---------------------------------------------------------------------------------------------

  /** Worker k is inside ProcessPacket, so holds the lock, and everybody else waits for it or has
      nothing to do. */
  ghost predicate WaitsForReturn(s: State, k: nat) {
    && k < |s.workers| && s.owner == ByWorker(k) && s.workers[k].Processing?
    && (forall i: nat :: i < |s.workers| && i != k ==> s.workers[i].WantLock? || s.workers[i].Exited?)
    && (forall j: nat :: j < |s.producers| ==> s.producers[j].Idle? || s.producers[j].WantPush?)
  }

  /** Some thread can go on by itself, or is inside a ProcessPacket that returns. */
  ghost predicate SomeoneMoves(s: State, ends: nat -> bool) {
    || (exists i: nat :: Next(s, Work(i)) != s)
    || (exists j: nat :: Next(s, Push(j)) != s)
    || (exists i: nat :: i < |s.workers| && s.workers[i].Processing? && ends(s.workers[i].packet))
  }

  lemma WorkerMoves(s: State, i: nat)
    requires i < |s.workers| && !s.workers[i].Exited? && !s.workers[i].Processing?
    requires s.workers[i].WantLock? ==> s.owner == Free
    ensures Next(s, Work(i)) != s
  {
    assert WorkerStep(s, i).workers[i] != s.workers[i];
  }

  lemma ProducerMoves(s: State, j: nat)
    requires j < |s.producers| && (s.producers[j].HoldsLock() || (s.producers[j].WantPush? && s.owner == Free))
    ensures Next(s, Push(j)) != s
  {
    assert ProducerStep(s, j).producers[j] != s.producers[j];
  }

  lemma OthersMove(s: State, k: nat, ends: nat -> bool)
    requires Owned(s) && s.owner == ByWorker(k) && s.workers[k].Processing? && !WaitsForReturn(s, k)
    ensures SomeoneMoves(s, ends)
  {
    var i: nat :| i < |s.workers| && i != k && !s.workers[i].WantLock? && !s.workers[i].Exited?;
    assert !s.workers[i].HoldsLock();
    WorkerMoves(s, i);
  }

  lemma NobodyMoves(s: State, k: nat, ends: nat -> bool)
    requires Owned(s) && WaitsForReturn(s, k) && !ends(s.workers[k].packet)
    ensures !SomeoneMoves(s, ends)
  {
    forall i: nat ensures Next(s, Work(i)) == s {
      if i < |s.workers| && i != k { assert WorkerStep(s, i) == s; }
    }
    forall j: nat ensures Next(s, Push(j)) == s {
      if j < |s.producers| { assert ProducerStep(s, j) == s; }
    }
  }

  /** In every reachable state with a worker still to exit: nobody can go on if and only if one worker
      is inside a ProcessPacket that does not return, holding the lock, and every other thread waits
      for the lock or has nothing to do. */
  lemma NoDeadlockIff(threads: nat, producers: nat, labels: seq<Label>, i: nat, ends: nat -> bool)
    requires i < |Run(Initial(threads, producers), labels).workers|
    requires !Run(Initial(threads, producers), labels).workers[i].Exited?
    ensures var s := Run(Initial(threads, producers), labels);
      SomeoneMoves(s, ends) <==> !exists k: nat :: WaitsForReturn(s, k) && !ends(s.workers[k].packet)
  {
    RunInOrder(Initial(threads, producers), labels);
    var s := Run(Initial(threads, producers), labels);
    forall k: nat | WaitsForReturn(s, k) && !ends(s.workers[k].packet) ensures !SomeoneMoves(s, ends) {
      NobodyMoves(s, k, ends);
    }
    match s.owner {
      case Free => assert !s.workers[i].HoldsLock(); WorkerMoves(s, i);
      case ByProducer(j) => ProducerMoves(s, j);
      case ByWorker(k) =>
        if !s.workers[k].Processing? { WorkerMoves(s, k); }
        else if !WaitsForReturn(s, k) { OthersMove(s, k, ends); }
    }
  }

  /** If every ProcessPacket returns, then, until the last worker has exited, which is what Stop's joins
      wait for, some thread can go on: there is no deadlock. */
  lemma NoDeadlock(threads: nat, producers: nat, labels: seq<Label>, i: nat)
    requires i < |Run(Initial(threads, producers), labels).workers|
    requires !Run(Initial(threads, producers), labels).workers[i].Exited?
    ensures SomeoneMoves(Run(Initial(threads, producers), labels), (packet: nat) => true)
  {
    NoDeadlockIff(threads, producers, labels, i, (packet: nat) => true);
  }

  /** Worker k is inside ProcessPacket with packet p, the lock and the queue as they are in s. */
  ghost predicate HeldAs(s: State, t: State, k: nat) {
    && k < |t.workers| && t.owner == ByWorker(k) && t.workers[k].Processing?
    && t.enqueued == s.enqueued && t.finished == s.finished && t.queue == s.queue
  }

  lemma StepHeld(s: State, t: State, l: Label, k: nat)
    requires Owned(t) && HeldAs(s, t, k) && l != Finish(k)
    ensures Owned(Next(t, l)) && HeldAs(s, Next(t, l), k)
  {
    StepOwned(t, l);
    if l.Work? && l.i < |t.workers| { assert t.workers[l.i].HoldsLock() <==> t.owner == ByWorker(l.i); }
    if l.Finish? && l.i < |t.workers| { assert t.workers[l.i].HoldsLock() <==> t.owner == ByWorker(l.i); }
    if l.Push? && l.j < |t.producers| { assert t.producers[l.j].HoldsLock() <==> t.owner == ByProducer(l.j); }
  }

  /** While a ProcessPacket does not return, in any schedule: its worker keeps the lock, so no packet is
      enqueued, taken or finished, and the worker does not exit, so Stop does not return. */
  lemma {:induction false} NothingUntilReturn(s: State, t: State, labels: seq<Label>, k: nat)
    requires Owned(t) && HeldAs(s, t, k) && Finish(k) !in labels
    ensures HeldAs(s, Run(t, labels), k)
    decreases |labels|
  {
    if labels != [] {
      StepHeld(s, t, labels[0], k);
      NothingUntilReturn(s, Next(t, labels[0]), labels[1..], k);
    }
  }

  // ---------------------------------------------------------------------------------------------
  // The packets still to be taken after Stop
  // ---------------------------------------------------------------------------------------------

  /** The queue as the next worker to get the lock finds it. */
  function Coming(s: State): seq<nat> {
    if s.owner.ByProducer? && s.owner.j < |s.producers| && s.producers[s.owner.j].Pushing?
    then s.queue + [s.producers[s.owner.j].packet] else s.queue
  }

  /** The workers past their look at the flag take one packet each: those all pass `good`. */
  ghost predicate FirstAre(coming: seq<nat>, takers: nat, good: nat -> bool) {
    forall i: nat :: i < takers && i < |coming| ==> good(coming[i])
  }

  ghost predicate Outlook(s: State, good: nat -> bool) {
    FirstAre(Coming(s), Sum(s.workers, MayTake), good)
  }

  lemma FirstTaken(coming: seq<nat>, takers: nat, good: nat -> bool)
    requires takers > 0 && coming != []
    ensures FirstAre(coming, takers, good) <==> good(coming[0]) && FirstAre(coming[1..], takers - 1, good)
  {
    if good(coming[0]) && FirstAre(coming[1..], takers - 1, good) {
      forall i: nat | i < takers && i < |coming| ensures good(coming[i]) {
        if i > 0 { assert coming[1..][i - 1] == coming[i]; }
      }
    }
    if FirstAre(coming, takers, good) {
      forall i: nat | i < takers - 1 && i < |coming[1..]| ensures good(coming[1..][i]) {
        assert coming[i + 1] == coming[1..][i];
      }
    }
  }

  /** A worker moves and takes no packet. */
  lemma QuietOutlook(s: State, t: State, i: nat, w: Worker, good: nat -> bool)
    requires i < |s.workers| && t.workers == s.workers[i := w] && Coming(t) == Coming(s)
    requires MayTake(w) == MayTake(s.workers[i]) || Coming(s) == []
    ensures Outlook(t, good) <==> Outlook(s, good)
  {
    SumUpdate(s.workers, MayTake, i, w);
  }

  /** A worker takes the front packet. */
  lemma TakeOutlook(s: State, i: nat, good: nat -> bool)
    requires i < |s.workers| && s.workers[i].Locked? && s.owner == ByWorker(i) && s.queue != []
    ensures Outlook(s, good) <==> good(s.queue[0]) && Outlook(WorkerStep(s, i), good)
  {
    SumUpdate(s.workers, MayTake, i, WorkerStep(s, i).workers[i]);
    SumAt(s.workers, MayTake, i);
    FirstTaken(s.queue, Sum(s.workers, MayTake), good);
  }

  /** Once the flag is cleared, a worker's step leaves the outlook as it is, but for the packet it takes. */
  lemma WorkOutlook(s: State, i: nat, good: nat -> bool)
    requires Owned(s) && !s.running && i < |s.workers|
    ensures
      if s.workers[i].Locked? && s.queue != [] then
        Outlook(s, good) <==> good(s.queue[0]) && Outlook(WorkerStep(s, i), good)
      else
        Outlook(s, good) <==> Outlook(WorkerStep(s, i), good)
  {
    assert s.workers[i].HoldsLock() <==> s.owner == ByWorker(i);
    var t := WorkerStep(s, i);
    if s.workers[i].Locked? && s.queue != [] {
      TakeOutlook(s, i, good);
    } else if t != s {
      assert Coming(t) == Coming(s);
      QuietOutlook(s, t, i, t.workers[i], good);
    }
  }

  lemma FinishOutlook(s: State, i: nat, good: nat -> bool)
    requires i < |s.workers|
    ensures Outlook(FinishStep(s, i), good) <==> Outlook(s, good)
  {
    if s.workers[i].Processing? { QuietOutlook(s, FinishStep(s, i), i, Processed, good); }
  }

  lemma FirstGrow(coming: seq<nat>, packet: nat, takers: nat, good: nat -> bool)
    requires FirstAre(coming + [packet], takers, good)
    ensures FirstAre(coming, takers, good)
  {
    forall i: nat | i < takers && i < |coming| ensures good(coming[i]) {
      assert (coming + [packet])[i] == coming[i];
    }
  }

  /** A producer makes it no better, and no worse unless it gets the lock. */
  lemma PushOutlook(s: State, j: nat, good: nat -> bool)
    requires Owned(s) && j < |s.producers|
    ensures Outlook(ProducerStep(s, j), good) ==> Outlook(s, good)
    ensures s.owner == ByProducer(j) ==> (Outlook(ProducerStep(s, j), good) <==> Outlook(s, good))
  {
    var t := ProducerStep(s, j);
    assert s.producers[j].HoldsLock() <==> s.owner == ByProducer(j);
    assert t.workers == s.workers;
    if s.producers[j].WantPush? && s.owner == Free {
      assert Coming(t) == s.queue + [s.producers[j].packet] && Coming(s) == s.queue;
      if Outlook(t, good) { FirstGrow(s.queue, s.producers[j].packet, Sum(s.workers, MayTake), good); }
    } else {
      assert Coming(t) == Coming(s);
    }
  }

  lemma OtherOutlook(s: State, l: Label, good: nat -> bool)
    requires s.stopped && !s.running && (l.Start? || l.Stop? || l.Call?)
    ensures Outlook(Next(s, l), good) <==> Outlook(s, good)
  {
    assert Coming(Next(s, l)) == Coming(s);
  }

  /** Nothing mends a bad outlook but a worker taking the bad packet. */
  lemma BadOutlookStays(s: State, l: Label, good: nat -> bool)
    requires Owned(s) && s.stopped && !s.running && !Outlook(s, good) && Outlook(Next(s, l), good)
    ensures l.Work? && l.i < |s.workers| && s.workers[l.i].Locked? && s.queue != [] && !good(s.queue[0])
  {
    match l {
      case Work(i) => if i < |s.workers| { WorkOutlook(s, i, good); }
      case Finish(i) => if i < |s.workers| { FinishOutlook(s, i, good); }
      case Push(j) => if j < |s.producers| { PushOutlook(s, j, good); }
      case _ => OtherOutlook(s, l, good);
    }
  }

  /** The fewer packets pass, the worse the outlook. */
  lemma OutlookWeakens(s: State, good: nat -> bool, better: nat -> bool)
    requires Outlook(s, good) && forall packet: nat :: good(packet) ==> better(packet)
    ensures Outlook(s, better)
  {
  }

  // ---------------------------------------------------------------------------------------------
  // The object
  // ---------------------------------------------------------------------------------------------

  /** The fields the threads share. A method is what one thread does in one go; its ghost arguments
      say which step of the machine, by which thread, that is. */
  class Processor {
    const threads: byte
    var running: bool
    var workers: seq<Worker>
    var packets: seq<nat>

    constructor (numberOfThreads: byte)
      ensures threads == numberOfThreads && !running && workers == [] && packets == []
    {
      threads := numberOfThreads;
      running, workers, packets := false, [], [];
    }

    method Start(ghost s: State)
      requires workers == s.workers == [] && !s.stopped && s.threads == threads
      modifies this
      ensures running == Next(s, Label.Start).running && workers == Next(s, Label.Start).workers
      ensures running && workers == seq(threads, _ => Check)
      ensures packets == old(packets)
    {
      running := true;
      for i := 0 to threads
        invariant running && packets == old(packets) && workers == seq(i, _ => Check)
      {
        workers := workers + [Check];
      }
    }

    method EnqueuePacket(packet: nat, ghost s: State, ghost j: nat)
      requires j < |s.producers| && s.producers[j] == Pushing(packet) && packets == s.queue
      modifies this`packets
      ensures packets == ProducerStep(s, j).queue && packets == old(packets) + [packet]
    {
      packets := packets + [packet];
    }

    /** The look at the queue in ThreadRoutine: the front packet, or none. */
    method TakePacket(ghost s: State, ghost i: nat) returns (taken: Option<nat>)
      requires i < |s.workers| && s.workers[i].Locked? && packets == s.queue
      modifies this`packets
      ensures packets == WorkerStep(s, i).queue
      ensures WorkerStep(s, i).workers[i] == match taken { case None => Empty case Some(packet) => Processing(packet) }
      ensures taken == if old(packets) == [] then None else Some(old(packets)[0])
      ensures packets == if old(packets) == [] then [] else old(packets)[1..]
    {
      if packets == [] {
        taken := None;
      } else {
        taken := Some(packets[0]);
        packets := packets[1..];
      }
    }
  }
}
