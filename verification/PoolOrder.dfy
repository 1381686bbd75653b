/** The order in which tasks and results pass through the pool, and how many run at once. */
module PoolOrder {
  import opened PoolSpec
  import opened PoolSafety

  // ---------- Results ----------

  /** The result that a step sends: into the channel, or straight to a consumer. */
  function SentBy(s: Pool, e: Event): seq<nat> {
    if Enabled(s, e) && e.Deliver? && (e.deliver.SendResult? || e.deliver.SendDirect?)
    then [s.workers[e.w].task] else []
  }

  function Sent(s: Pool, events: seq<Event>): seq<nat>
    decreases events
  {
    if events == [] then [] else SentBy(s, events[0]) + Sent(Next(s, events[0]), events[1..])
  }

  lemma DeliverInOrder(s: Pool, w: nat, e: DeliverStep)
    requires !s.panicked && CanDeliver(s, w, e)
    ensures var r := DoDeliver(s, w, e);
            r.received + r.results == s.received + s.results + SentBy(s, Deliver(w, e))
  {
    match e
    case SendResult =>
      var task := s.workers[w].task;
      assert s.received + (s.results + [task]) == s.received + s.results + [task];
    case SendDirect =>
    case DropResult =>
    case SendPanic =>
  }

  lemma OthersSendNothing(s: Pool, e: Event)
    requires Enabled(s, e) && !e.Deliver? && !e.Receive?
    ensures Next(s, e).received == s.received && Next(s, e).results == s.results && SentBy(s, e) == []
  {
    match e
    case Submit(x) => SubmitKeepsResults(s, x);
    case Loop(w, x) => LoopKeepsResults(s, w, x);
    case Leave(w, x) => LeaveKeepsResults(s, w, x);
    case Scale(x) => assert DoScale(s, x).received == s.received && DoScale(s, x).results == s.results;
    case Close(x) => assert DoClose(s, x).received == s.received && DoClose(s, x).results == s.results;
  }

  lemma SubmitKeepsResults(s: Pool, e: SubmitStep)
    requires CanSubmit(s, e)
    ensures DoSubmit(s, e).received == s.received && DoSubmit(s, e).results == s.results
  {
    match e
    case Start =>
    case SubmitCheck =>
    case SubmitAccept =>
    case SubmitHandOver(_) =>
    case _ =>
  }

  lemma LoopKeepsResults(s: Pool, w: nat, e: LoopStep)
    requires CanLoop(s, w, e)
    ensures DoLoop(s, w, e).received == s.received && DoLoop(s, w, e).results == s.results
    ensures DoLoop(s, w, e).resize == s.resize
  {
    match e
    case Take =>
    case AcquireSlot =>
    case CountUp =>
    case Finish =>
    case ReleaseSlot =>
    case CountDown =>
  }

  lemma LeaveKeepsResults(s: Pool, w: nat, e: LeaveStep)
    requires CanLeave(s, w, e)
    ensures DoLeave(s, w, e).received == s.received && DoLeave(s, w, e).results == s.results
    ensures s.resize == NoResize ==> DoLeave(s, w, e).resize == NoResize
  {
    match e
    case QuitHolding =>
    case StopIdle =>
    case StopHolding =>
    case StopHandOver(_) =>
    case StopPanic =>
    case Exit =>
    case _ =>
  }

  lemma StepInOrder(s: Pool, e: Event)
    ensures Next(s, e).received + Next(s, e).results == s.received + s.results + SentBy(s, e)
  {
    if Enabled(s, e) {
      if e.Deliver? {
        DeliverInOrder(s, e.w, e.deliver);
      } else if e.Receive? {
        assert s.results == [s.results[0]] + s.results[1..];
      } else {
        OthersSendNothing(s, e);
      }
    }
  }

  lemma {:induction false} RunInOrder(s: Pool, events: seq<Event>)
    ensures Run(s, events).received + Run(s, events).results == s.received + s.results + Sent(s, events)
    decreases events
  {
    if events == [] {
      assert s.received + s.results + [] == s.received + s.results;
    } else {
      StepInOrder(s, events[0]);
      RunInOrder(Next(s, events[0]), events[1..]);
      assert s.received + s.results + SentBy(s, events[0]) + Sent(Next(s, events[0]), events[1..])
          == s.received + s.results + Sent(s, events);
    }
  }

  /** In every run results are received in the order in which they were sent, and none is missing. */
  lemma ResultsInOrder(workers: nat, queueSize: nat, events: seq<Event>)
    ensures var s := Reach(workers, queueSize, events);
            s.received + s.results == Sent(New(workers, queueSize), events)
  {
    RunInOrder(New(workers, queueSize), events);
    assert [] + [] + Sent(New(workers, queueSize), events) == Sent(New(workers, queueSize), events);
  }

  // ---------- Tasks ----------

  /** The task that a step offers to the channel: submitted, or put back by a stopped worker. */
  function PutBy(s: Pool, e: Event): seq<nat> {
    if !Enabled(s, e) then []
    else match e
         case Submit(SubmitAccept) => [s.accepted]
         case Submit(SubmitHandOver(_)) => [s.accepted]
         case Leave(w, StopHolding) => if |s.queue| < s.queueCap then [s.workers[w].task] else []
         case Leave(w, StopHandOver(_)) => [s.workers[w].task]
         case _ => []
  }

  function TaskOf(s: Pool, w: nat): seq<nat> {
    if w < |s.workers| && s.workers[w].Holding? then [s.workers[w].task] else []
  }

  /** The task that a worker holds after a step in which it receives from the channel. */
  function TakenBy(s: Pool, e: Event): seq<nat> {
    if !Enabled(s, e) then []
    else match e
         case Submit(SubmitHandOver(w)) => TaskOf(Next(s, e), w)
         case Loop(w, Take) => TaskOf(Next(s, e), w)
         case Leave(_, StopHandOver(v)) => TaskOf(Next(s, e), v)
         case _ => []
  }

  function Put(s: Pool, events: seq<Event>): seq<nat>
    decreases events
  {
    if events == [] then [] else PutBy(s, events[0]) + Put(Next(s, events[0]), events[1..])
  }

  function Taken(s: Pool, events: seq<Event>): seq<nat>
    decreases events
  {
    if events == [] then [] else TakenBy(s, events[0]) + Taken(Next(s, events[0]), events[1..])
  }

  lemma SubmitFifo(s: Pool, e: SubmitStep)
    requires !s.panicked && CanSubmit(s, e)
    ensures TakenBy(s, Submit(e)) + DoSubmit(s, e).queue == s.queue + PutBy(s, Submit(e))
  {
    SubmitFrame(s, e);
  }

  lemma LoopFifo(s: Pool, w: nat, e: LoopStep)
    requires !s.panicked && CanLoop(s, w, e)
    ensures TakenBy(s, Loop(w, e)) + DoLoop(s, w, e).queue == s.queue + PutBy(s, Loop(w, e))
  {
    LoopFrame(s, w, e);
    if e.Take? {
      assert s.queue == [s.queue[0]] + s.queue[1..];
    }
  }

  lemma LeaveFifo(s: Pool, w: nat, e: LeaveStep)
    requires !s.panicked && CanLeave(s, w, e)
    ensures TakenBy(s, Leave(w, e)) + DoLeave(s, w, e).queue == s.queue + PutBy(s, Leave(w, e))
  {
    LeaveFrame(s, w, e);
  }

  lemma StepFifo(s: Pool, e: Event)
    ensures TakenBy(s, e) + Next(s, e).queue == s.queue + PutBy(s, e)
  {
    if Enabled(s, e) {
      match e
      case Submit(x) => SubmitFifo(s, x);
      case Loop(w, x) => LoopFifo(s, w, x);
      case Leave(w, x) => LeaveFifo(s, w, x);
      case Deliver(w, x) => DeliverFrame(s, w, x);
      case Scale(x) => assert DoScale(s, x).queue == s.queue;
      case Close(x) => assert DoClose(s, x).queue == s.queue;
      case Receive =>
    }
  }

  lemma {:induction false} RunFifo(s: Pool, events: seq<Event>)
    ensures Taken(s, events) + Run(s, events).queue == s.queue + Put(s, events)
    decreases events
  {
    if events == [] {
      assert s.queue + [] == s.queue;
    } else {
      var s1, rest := Next(s, events[0]), events[1..];
      StepFifo(s, events[0]);
      RunFifo(s1, rest);
      Regroup(TakenBy(s, events[0]), Taken(s1, rest), Run(s, events).queue, s.queue, PutBy(s, events[0]),
              Put(s1, rest), s1.queue);
    }
  }

  lemma Regroup(a: seq<nat>, b: seq<nat>, c: seq<nat>, d: seq<nat>, x: seq<nat>, y: seq<nat>, m: seq<nat>)
    requires a + m == d + x && b + c == m + y
    ensures (a + b) + c == d + (x + y)
  {
    assert (a + b) + c == a + (b + c) == (a + m) + y;
    assert (d + x) + y == d + (x + y);
  }

  /** In every run workers take the tasks in the order in which they were put into the channel. */
  lemma FirstInFirstOut(workers: nat, queueSize: nat, events: seq<Event>)
    ensures Taken(New(workers, queueSize), events) + Reach(workers, queueSize, events).queue
            == Put(New(workers, queueSize), events)
  {
    RunFifo(New(workers, queueSize), events);
    assert [] + Put(New(workers, queueSize), events) == Put(New(workers, queueSize), events);
  }

  /** The numbers from a up to b, b excluded. */
  function Range(a: nat, b: nat): seq<nat>
    decreases b - a
  {
    if b <= a then [] else [a] + Range(a + 1, b)
  }

  /** Without Resize the order is that of the accepted submissions. */
  lemma {:induction false} PutWithoutResize(s: Pool, events: seq<Event>)
    requires s.resize == NoResize && forall e :: e in events ==> !e.Scale?
    ensures Put(s, events) == Range(s.accepted, Run(s, events).accepted) && s.accepted <= Run(s, events).accepted
    decreases events
  {
    if events != [] {
      var e := events[0];
      assert forall x :: x in events[1..] ==> x in events;
      StepAccepts(s, e);
      PutWithoutResize(Next(s, e), events[1..]);
    }
  }

  lemma StepAccepts(s: Pool, e: Event)
    requires s.resize == NoResize && !e.Scale?
    ensures PutBy(s, e) == Range(s.accepted, Next(s, e).accepted)
    ensures Next(s, e).resize == NoResize
    ensures Next(s, e).accepted == s.accepted || (Next(s, e).accepted == s.accepted + 1 && PutBy(s, e) == [s.accepted])
  {
    if Enabled(s, e) {
      match e
      case Submit(x) => SubmitAccepts(s, x);
      case Loop(w, x) =>
        LoopFrame(s, w, x);
        LoopKeepsResults(s, w, x);
      case Deliver(w, x) =>
        DeliverFrame(s, w, x);
        assert DoDeliver(s, w, x).resize == NoResize;
      case Leave(w, x) =>
        LeaveFrame(s, w, x);
        LeaveKeepsResults(s, w, x);
      case Close(x) => assert DoClose(s, x).accepted == s.accepted && DoClose(s, x).resize == NoResize;
      case Receive =>
    }
  }

  lemma SubmitAccepts(s: Pool, e: SubmitStep)
    requires !s.panicked && CanSubmit(s, e)
    ensures PutBy(s, Submit(e)) == Range(s.accepted, DoSubmit(s, e).accepted)
    ensures DoSubmit(s, e).resize == s.resize
    ensures DoSubmit(s, e).accepted == s.accepted
            || (DoSubmit(s, e).accepted == s.accepted + 1 && PutBy(s, Submit(e)) == [s.accepted])
  {
    assert Range(s.accepted, s.accepted + 1) == [s.accepted] + Range(s.accepted + 1, s.accepted + 1);
  }

  /** A pool that is never resized serves its submissions strictly in order. */
  lemma ServedInOrder(workers: nat, queueSize: nat, events: seq<Event>)
    requires forall e :: e in events ==> !e.Scale?
    ensures var s := Reach(workers, queueSize, events);
            Taken(New(workers, queueSize), events) + s.queue == Range(0, s.accepted)
  {
    FirstInFirstOut(workers, queueSize, events);
    PutWithoutResize(New(workers, queueSize), events);
  }

  // ---------- How many workers ----------

  lemma CrewStays(s: Pool, e: Event)
    requires Enabled(s, e) && !e.Scale? && !e.Submit?
    ensures |Next(s, e).workers| == |s.workers| && Next(s, e).started == s.started
  {
    match e
    case Loop(w, x) => LoopCrew(s, w, x);
    case Deliver(w, x) => assert |DoDeliver(s, w, x).workers| == |s.workers| && DoDeliver(s, w, x).started == s.started;
    case Leave(w, x) => LeaveCrew(s, w, x);
    case Close(x) => assert |DoClose(s, x).workers| == |s.workers| && DoClose(s, x).started == s.started;
    case Receive =>
  }

  lemma LoopCrew(s: Pool, w: nat, e: LoopStep)
    requires CanLoop(s, w, e)
    ensures |DoLoop(s, w, e).workers| == |s.workers| && DoLoop(s, w, e).started == s.started
  {
    match e
    case Take =>
    case AcquireSlot =>
    case CountUp =>
    case Finish =>
    case ReleaseSlot =>
    case CountDown =>
  }

  lemma LeaveCrew(s: Pool, w: nat, e: LeaveStep)
    requires CanLeave(s, w, e)
    ensures |DoLeave(s, w, e).workers| == |s.workers| && DoLeave(s, w, e).started == s.started
  {
    match e
    case QuitHolding =>
    case StopIdle =>
    case StopHolding =>
    case StopHandOver(_) =>
    case StopPanic =>
    case Exit =>
    case _ =>
  }

  lemma SubmitCrew(s: Pool, e: SubmitStep)
    requires CanSubmit(s, e) && |s.workers| == (if s.started then s.slots else 0)
    ensures var r := DoSubmit(s, e);
            && |r.workers| == (if r.started then s.slots else 0)
            && r.started == (s.started || ((e.Start? || e.SubmitCheck?) && !s.closed))
  {
    CountRepeat(s.slots, Idle, Active);
    match e
    case Start =>
    case SubmitCheck =>
    case SubmitHandOver(_) =>
    case _ =>
  }

  /** Without Resize a started pool has as many workers as configured, none before and none later. */
  lemma {:induction false} CrewExactly(workers: nat, queueSize: nat, events: seq<Event>)
    requires forall e :: e in events ==> !e.Scale?
    ensures var s := Reach(workers, queueSize, events); |s.workers| == if s.started then workers else 0
    decreases |events|
  {
    if events != [] {
      var before, e := events[..|events| - 1], events[|events| - 1];
      assert events == before + [e] && e in events;
      assert forall x :: x in before ==> x in events;
      CrewExactly(workers, queueSize, before);
      RunSnoc(New(workers, queueSize), before, e);
      ReachInv(workers, queueSize, before);
      var s := Reach(workers, queueSize, before);
      if Enabled(s, e) {
        if e.Submit? {
          SubmitCrew(s, e.submit);
        } else {
          CrewStays(s, e);
        }
      }
    }
  }

  // ---------- All of them at work at once ----------

  /** The first k workers execute a task each, the others are idle and nothing else goes on. */
  predicate Going(s: Pool, k: nat) {
    && s.started && !s.closed && !s.tasksClosed && !s.panicked && s.submitting == 0
    && s.queue == [] && 1 <= s.queueCap
    && k <= s.slots == |s.workers| && s.occupied == k
    && (forall i :: 0 <= i < k ==> Executing(s.workers[i]))
    && (forall i :: k <= i < s.slots ==> s.workers[i] == Idle)
  }

  lemma TaskStarts(s: Pool, k: nat, t: nat)
    requires k < |s.workers| && s.workers[k] == Idle && s.queue == [t] && s.occupied < s.slots && !s.panicked
    ensures Run(s, [Loop(k, Take), Loop(k, AcquireSlot), Loop(k, CountUp)])
            == s.(queue := [], workers := s.workers[k := Running(t)], occupied := s.occupied + 1,
                  active := s.active + 1, begun := s.begun + [t])
  {
    RunOfThree(s, Loop(k, Take), Loop(k, AcquireSlot), Loop(k, CountUp));
    TaskTaken(s, k, t);
    var s2 := s.(queue := [], workers := s.workers[k := Admitted(t)], occupied := s.occupied + 1);
    assert s2.workers[k := Running(t)] == s.workers[k := Running(t)];
  }

  lemma TaskTaken(s: Pool, k: nat, t: nat)
    requires k < |s.workers| && s.workers[k] == Idle && s.queue == [t] && s.occupied < s.slots && !s.panicked
    ensures Next(Next(s, Loop(k, Take)), Loop(k, AcquireSlot))
            == s.(queue := [], workers := s.workers[k := Admitted(t)], occupied := s.occupied + 1)
  {
    var s1 := s.(queue := [], workers := s.workers[k := Holding(t)]);
    TakesOnly(s, k, t);
    assert s1.workers[k := Admitted(t)] == s.workers[k := Admitted(t)];
  }

  lemma TakesOnly(s: Pool, k: nat, t: nat)
    requires k < |s.workers| && s.workers[k] == Idle && s.queue == [t] && !s.panicked
    ensures Next(s, Loop(k, Take)) == s.(queue := [], workers := s.workers[k := Holding(t)])
  {
    assert [t][1..] == [];
  }

  lemma OneMoreAtWork(s: Pool, k: nat) returns (events: seq<Event>)
    requires Going(s, k) && k < s.slots
    ensures Going(Run(s, events), k + 1) && Run(s, events).slots == s.slots
  {
    var start := [Loop(k, Take), Loop(k, AcquireSlot), Loop(k, CountUp)];
    events := SubmitOne() + start;
    RunConcat(s, SubmitOne(), start);
    AcceptsNext(s);
    TaskStarts(s.(queue := [s.accepted], accepted := s.accepted + 1), k, s.accepted);
  }

  lemma {:induction false} AllAtWork(s: Pool, k: nat) returns (events: seq<Event>)
    requires Going(s, k)
    ensures Going(Run(s, events), s.slots) && Run(s, events).slots == s.slots
    decreases s.slots - k
  {
    if k == s.slots {
      events := [];
    } else {
      var first := OneMoreAtWork(s, k);
      var rest := AllAtWork(Run(s, first), k + 1);
      RunConcat(s, first, rest);
      events := first + rest;
    }
  }

  lemma {:induction false} AllExecuting(ws: seq<Worker>)
    requires forall i :: 0 <= i < |ws| ==> Executing(ws[i])
    ensures Count(ws, Executing) == |ws|
  {
    if ws != [] {
      AllExecuting(ws[1..]);
    }
  }

  /** The concurrency promised is there: as many tasks as there are workers can execute at once. */
  lemma FullConcurrency(workers: nat, queueSize: nat)
    requires 1 <= queueSize
    ensures exists events :: Count(Reach(workers, queueSize, events).workers, Executing) == workers
  {
    var s0 := New(workers, queueSize);
    var s := Next(s0, Submit(Start));
    CountRepeat(workers, Idle, Active);
    assert [] + Repeat(workers, Idle) == Repeat(workers, Idle);
    var events := AllAtWork(s, 0);
    AllExecuting(Run(s, events).workers);
    RunCons(s0, Submit(Start), events);
    assert Count(Reach(workers, queueSize, [Submit(Start)] + events).workers, Executing) == workers;
  }
}
