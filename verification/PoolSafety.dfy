/** What every run of the worker pool guarantees. */
module PoolSafety {
  import opened PoolSpec

  function One(b: bool): int {
    if b then 1 else 0
  }

  lemma PutCounts(ws: seq<Worker>, w: nat, x: Worker)
    requires w < |ws|
    ensures Count(ws[w := x], Busy) == Count(ws, Busy) - One(Busy(ws[w])) + One(Busy(x))
    ensures Count(ws[w := x], Shown) == Count(ws, Shown) - One(Shown(ws[w])) + One(Shown(x))
    ensures Count(ws[w := x], Active) == Count(ws, Active) - One(Active(ws[w])) + One(Active(x))
    ensures Count(ws[w := x], Present) == Count(ws, Present) - One(Present(ws[w])) + One(Present(x))
  {
    CountUpdate(ws, w, x, Busy);
    CountUpdate(ws, w, x, Shown);
    CountUpdate(ws, w, x, Active);
    CountUpdate(ws, w, x, Present);
  }

  lemma AddCounts(ws: seq<Worker>, n: nat)
    ensures Count(ws + Repeat(n, Idle), Busy) == Count(ws, Busy)
    ensures Count(ws + Repeat(n, Idle), Shown) == Count(ws, Shown)
    ensures Count(ws + Repeat(n, Idle), Active) == Count(ws, Active) + n
    ensures Count(ws + Repeat(n, Idle), Present) == Count(ws, Present) + n
  {
    CountConcat(ws, Repeat(n, Idle), Busy);
    CountConcat(ws, Repeat(n, Idle), Shown);
    CountConcat(ws, Repeat(n, Idle), Active);
    CountConcat(ws, Repeat(n, Idle), Present);
    CountRepeat(n, Idle, Busy);
    CountRepeat(n, Idle, Shown);
    CountRepeat(n, Idle, Active);
    CountRepeat(n, Idle, Present);
  }

  lemma AddOne(ws: seq<Worker>)
    ensures Count(ws + [Idle], Busy) == Count(ws, Busy)
    ensures Count(ws + [Idle], Shown) == Count(ws, Shown)
    ensures Count(ws + [Idle], Active) == Count(ws, Active) + 1
    ensures Count(ws + [Idle], Present) == Count(ws, Present) + 1
  {
    AddCounts(ws, 1);
    assert Repeat(1, Idle) == [Idle];
  }

  lemma {:induction false} CountAtLeast(ws: seq<Worker>, w: nat, p: Worker -> bool)
    requires w < |ws| && p(ws[w])
    ensures 0 < Count(ws, p)
  {
    if w != 0 {
      CountAtLeast(ws[1..], w - 1, p);
    }
  }

  /** Who is present is active or has returned. */
  lemma {:induction false} PresentCounts(ws: seq<Worker>)
    ensures Count(ws, Active) + Count(ws, Returned) == Count(ws, Present)
  {
    if ws != [] {
      PresentCounts(ws[1..]);
    }
  }

  // ---------- Counters and capacities ----------

  /** The semaphore holds one slot for every busy worker, and the counters count. */
  predicate Counted(s: Pool) {
    && Tallied(s.workers, s.occupied, s.active, s.slots, s.workerCount)
    && |s.queue| <= s.queueCap
    && |s.results| <= s.queueCap
  }

  predicate Tallied(ws: seq<Worker>, occupied: int, active: int, slots: nat, workerCount: int) {
    && occupied == Count(ws, Busy) && occupied <= slots
    && active == Count(ws, Shown)
    && workerCount == Count(ws, Present)
  }

  /** A worker moves and the counters follow. */
  lemma PutTallied(s: Pool, w: nat, x: Worker)
    requires Counted(s) && w < |s.workers|
    requires s.occupied - One(Busy(s.workers[w])) + One(Busy(x)) <= s.slots
    ensures var was := s.workers[w];
            Tallied(s.workers[w := x], s.occupied - One(Busy(was)) + One(Busy(x)),
                    s.active - One(Shown(was)) + One(Shown(x)), s.slots,
                    s.workerCount - One(Present(was)) + One(Present(x)))
  {
    PutCounts(s.workers, w, x);
  }

  lemma SubmitCounted(s: Pool, e: SubmitStep)
    requires Counted(s) && CanSubmit(s, e)
    ensures Counted(DoSubmit(s, e))
  {
    AddCounts(s.workers, s.slots);
    if e.SubmitHandOver? {
      PutTallied(s, e.to, Holding(s.accepted));
    }
  }

  lemma LoopCounted(s: Pool, w: nat, e: LoopStep)
    requires Counted(s) && CanLoop(s, w, e)
    ensures Counted(DoLoop(s, w, e))
  {
    PutTallied(s, w, DoLoop(s, w, e).workers[w]);
  }

  lemma DeliverCounted(s: Pool, w: nat, e: DeliverStep)
    requires Counted(s) && CanDeliver(s, w, e)
    ensures Counted(DoDeliver(s, w, e))
  {
    PutTallied(s, w, Idle);
  }

  lemma HandOverCounted(s: Pool, w: nat, v: nat)
    requires Counted(s) && CanLeave(s, w, StopHandOver(v))
    ensures Counted(DoLeave(s, w, StopHandOver(v)))
  {
    PutTallied(s, w, Leaving);
    PutTallied(Put(s, w, Leaving), v, Holding(s.workers[w].task));
  }

  lemma StopHoldingCounted(s: Pool, w: nat)
    requires Counted(s) && CanLeave(s, w, StopHolding)
    ensures Counted(DoLeave(s, w, StopHolding))
  {
    PutTallied(s, w, Leaving);
  }

  lemma LeaveCounted(s: Pool, w: nat, e: LeaveStep)
    requires Counted(s) && CanLeave(s, w, e)
    ensures Counted(DoLeave(s, w, e))
  {
    match e
    case StopHandOver(v) => HandOverCounted(s, w, v);
    case Exit => PutTallied(s, w, Gone);
    case StopHolding => StopHoldingCounted(s, w);
    case StopPanic =>
    case _ => PutTallied(s, w, Leaving);
  }

  lemma ScaleCounted(s: Pool, e: ResizeStep)
    requires Counted(s) && CanScale(s, e)
    ensures Counted(DoScale(s, e))
  {
    AddOne(s.workers);
  }

  lemma NextCounted(s: Pool, e: Event)
    requires Counted(s)
    ensures Counted(Next(s, e))
  {
    if Enabled(s, e) {
      match e
      case Submit(x) => SubmitCounted(s, x);
      case Loop(w, x) => LoopCounted(s, w, x);
      case Deliver(w, x) => DeliverCounted(s, w, x);
      case Leave(w, x) => LeaveCounted(s, w, x);
      case Scale(x) => ScaleCounted(s, x);
      case Close(x) => assert Counted(DoClose(s, x));
      case Receive => assert Counted(DoReceive(s));
    }
  }

  // ---------- What a step leaves alone ----------

  predicate SameConfig(a: Pool, b: Pool) {
    a.slots == b.slots && a.queueCap == b.queueCap
  }

  predicate SameClose(a: Pool, b: Pool) {
    a.atClose == b.atClose && a.tasksClosed == b.tasksClosed
  }

  lemma SubmitClose(s: Pool, e: SubmitStep)
    requires CanSubmit(s, e)
    ensures SameClose(DoSubmit(s, e), s) && DoSubmit(s, e).resize == s.resize
    ensures DoSubmit(s, e).dropped == s.dropped
  {}

  lemma LoopClose(s: Pool, w: nat, e: LoopStep)
    requires CanLoop(s, w, e)
    ensures SameClose(DoLoop(s, w, e), s) && DoLoop(s, w, e).resize == s.resize
    ensures DoLoop(s, w, e).dropped == s.dropped
  {}

  lemma DeliverClose(s: Pool, w: nat, e: DeliverStep)
    requires CanDeliver(s, w, e)
    ensures SameClose(DoDeliver(s, w, e), s) && DoDeliver(s, w, e).resize == s.resize
  {}

  lemma LeaveClose(s: Pool, w: nat, e: LeaveStep)
    requires CanLeave(s, w, e)
    ensures SameClose(DoLeave(s, w, e), s) && DoLeave(s, w, e).dropped == s.dropped
  {}

  lemma SubmitFrame(s: Pool, e: SubmitStep)
    requires CanSubmit(s, e)
    ensures var r := DoSubmit(s, e);
            && SameConfig(r, s) && r.abandoned == s.abandoned && s.accepted <= r.accepted
            && r.queue == if e.SubmitAccept? then s.queue + [s.accepted] else s.queue
  {}

  lemma LoopFrame(s: Pool, w: nat, e: LoopStep)
    requires CanLoop(s, w, e)
    ensures var r := DoLoop(s, w, e);
            && SameConfig(r, s) && r.abandoned == s.abandoned && s.accepted == r.accepted
            && r.queue == if e.Take? then s.queue[1..] else s.queue
  {}

  lemma DeliverFrame(s: Pool, w: nat, e: DeliverStep)
    requires CanDeliver(s, w, e)
    ensures var r := DoDeliver(s, w, e);
            SameConfig(r, s) && r.abandoned == s.abandoned && s.accepted == r.accepted && r.queue == s.queue
  {}

  lemma LeaveFrame(s: Pool, w: nat, e: LeaveStep)
    requires CanLeave(s, w, e)
    ensures var r := DoLeave(s, w, e);
            && SameConfig(r, s) && s.accepted == r.accepted
            && (r.abandoned == if e.QuitHolding? || (e.StopHolding? && s.queueCap <= |s.queue|)
                               then s.abandoned + [s.workers[w].task] else s.abandoned)
            && r.queue == if e.StopHolding? && |s.queue| < s.queueCap then s.queue + [s.workers[w].task] else s.queue
  {}

  lemma NextConfig(s: Pool, e: Event)
    ensures SameConfig(Next(s, e), s) && s.accepted <= Next(s, e).accepted
  {
    if Enabled(s, e) {
      match e
      case Submit(x) => SubmitFrame(s, x);
      case Loop(w, x) => LoopFrame(s, w, x);
      case Deliver(w, x) => DeliverFrame(s, w, x);
      case Leave(w, x) => LeaveFrame(s, w, x);
      case Scale(x) => assert SameConfig(DoScale(s, x), s) && DoScale(s, x).accepted == s.accepted;
      case Close(x) => assert SameConfig(DoClose(s, x), s) && DoClose(s, x).accepted == s.accepted;
      case Receive =>
    }
  }

  // ---------- Shutting down ----------

  /**
   * Unless a Submit or Resize was under way when the task channel was closed, none is later,
   * nobody sends on a closed channel, and the result channel is closed after the last worker.
   */
  predicate Orderly(s: Pool) {
    && (s.tasksClosed ==> s.closed)
    && (s.tasksClosed <==> s.atClose.Closing?)
    && (s.resultsClosed ==> s.tasksClosed)
    && (!s.started ==> s.workers == [] && s.queue == [] && s.accepted == 0 && s.submitting == 0
                       && s.resizing == 0 && s.resize == NoResize)
    && (s.atClose.Closing? && !s.atClose.overlap ==> s.submitting == 0 && s.resizing == 0 && s.resize == NoResize)
    && (s.resultsClosed && s.atClose.Closing? && !s.atClose.overlap ==> Count(s.workers, Present) == 0)
    && (s.panicked ==> s.atClose.Closing? && s.atClose.overlap)
  }

  lemma NextOrderly(s: Pool, e: Event)
    requires Orderly(s)
    ensures Orderly(Next(s, e))
  {
    if Enabled(s, e) {
      match e
      case Submit(x) => SubmitOrderly(s, x);
      case Loop(w, x) => LoopOrderly(s, w, x);
      case Deliver(w, x) => DeliverOrderly(s, w, x);
      case Leave(w, x) => LeaveOrderly(s, w, x);
      case Scale(x) =>
      case Close(x) =>
      case Receive =>
    }
  }

  lemma SubmitOrderly(s: Pool, e: SubmitStep)
    requires Orderly(s) && CanSubmit(s, e)
    ensures Orderly(DoSubmit(s, e))
  {
    if e.SubmitHandOver? {
      CountAtLeast(s.workers, e.to, Present);
    }
  }

  lemma LoopOrderly(s: Pool, w: nat, e: LoopStep)
    requires Orderly(s) && CanLoop(s, w, e)
    ensures Orderly(DoLoop(s, w, e))
  {
    CountAtLeast(s.workers, w, Present);
  }

  lemma DeliverOrderly(s: Pool, w: nat, e: DeliverStep)
    requires Orderly(s) && CanDeliver(s, w, e)
    ensures Orderly(DoDeliver(s, w, e))
  {
    CountAtLeast(s.workers, w, Present);
  }

  lemma LeaveOrderly(s: Pool, w: nat, e: LeaveStep)
    requires Orderly(s) && CanLeave(s, w, e)
    ensures Orderly(DoLeave(s, w, e))
  {
    CountAtLeast(s.workers, w, Present);
  }

  /**
   * After an orderly close without cancellation: if some worker was active then, one stays
   * active until the queue is empty; if none was, the queue stays as it was.
   */
  predicate Draining(s: Pool) {
    s.atClose.Closing? && !s.atClose.overlap && !s.cancelled ==>
      if s.atClose.alive then s.queue == [] || 0 < Count(s.workers, Active)
      else Count(s.workers, Active) == 0 && s.queue == s.atClose.queued
  }

  lemma NextDraining(s: Pool, e: Event)
    requires Orderly(s) && Draining(s)
    ensures Draining(Next(s, e))
  {
    if Enabled(s, e) {
      match e
      case Submit(x) => assert Draining(DoSubmit(s, x));
      case Loop(w, x) => LoopDraining(s, w, x);
      case Deliver(w, x) => DeliverDraining(s, w, x);
      case Leave(w, x) => LeaveDraining(s, w, x);
      case Scale(x) => assert Draining(DoScale(s, x));
      case Close(x) => assert Draining(DoClose(s, x));
      case Receive => assert Draining(DoReceive(s));
    }
  }

  lemma LoopDraining(s: Pool, w: nat, e: LoopStep)
    requires Orderly(s) && Draining(s) && CanLoop(s, w, e)
    ensures Draining(DoLoop(s, w, e))
  {
    CountAtLeast(s.workers, w, Active);
    CountAtLeast(DoLoop(s, w, e).workers, w, Active);
  }

  lemma DeliverDraining(s: Pool, w: nat, e: DeliverStep)
    requires Orderly(s) && Draining(s) && CanDeliver(s, w, e)
    ensures Draining(DoDeliver(s, w, e))
  {
    PutCounts(s.workers, w, Idle);
  }

  lemma LeaveDraining(s: Pool, w: nat, e: LeaveStep)
    requires Orderly(s) && Draining(s) && CanLeave(s, w, e)
    ensures Draining(DoLeave(s, w, e))
  {
    PutCounts(s.workers, w, if e.Exit? then Gone else Leaving);
  }

  // ---------- Resizing ----------

  /**
   * While a Resize is at work and nothing else makes workers leave: the active workers, those
   * to be started and the exits it overlooked add up to the target and the stops to come.
   */
  predicate OnTarget(s: Pool) {
    s.resize.Resizing? && !s.cancelled && !s.tasksClosed ==>
      Count(s.workers, Active) + s.resize.grow + s.resize.pending == s.resize.target + s.resize.stop
  }

  /** A worker that stays active does not matter. */
  lemma StayingOnTarget(s: Pool, w: nat, x: Worker)
    requires OnTarget(s) && w < |s.workers| && Active(s.workers[w]) && Active(x)
    ensures OnTarget(Put(s, w, x))
  {
    PutCounts(s.workers, w, x);
  }

  lemma SubmitOnTarget(s: Pool, e: SubmitStep)
    requires Orderly(s) && OnTarget(s) && CanSubmit(s, e)
    ensures OnTarget(DoSubmit(s, e))
  {
    if e.SubmitHandOver? {
      StayingOnTarget(s, e.to, Holding(s.accepted));
    }
  }

  lemma LoopOnTarget(s: Pool, w: nat, e: LoopStep)
    requires OnTarget(s) && CanLoop(s, w, e)
    ensures OnTarget(DoLoop(s, w, e))
  {
    match e
    case Take => StayingOnTarget(s, w, Holding(s.queue[0]));
    case _ => StayingOnTarget(s, w, DoLoop(s, w, e).workers[w]);
  }

  lemma DeliverOnTarget(s: Pool, w: nat, e: DeliverStep)
    requires OnTarget(s) && CanDeliver(s, w, e)
    ensures OnTarget(DoDeliver(s, w, e))
  {
    StayingOnTarget(s, w, Idle);
  }

  /** A stop signal takes one active worker and one unit of work. */
  lemma StoppingOnTarget(s: Pool, w: nat)
    requires OnTarget(s) && w < |s.workers| && Active(s.workers[w]) && StopOffered(s)
    ensures OnTarget(Put(s, w, Leaving).(resize := StopOne(s.resize)))
  {
    PutCounts(s.workers, w, Leaving);
  }

  lemma LeaveOnTarget(s: Pool, w: nat, e: LeaveStep)
    requires OnTarget(s) && CanLeave(s, w, e)
    ensures OnTarget(DoLeave(s, w, e))
  {
    match e
    case StopIdle => StoppingOnTarget(s, w);
    case StopHolding => StoppingOnTarget(s, w);
    case StopHandOver(v) =>
      StoppingOnTarget(s, w);
      StayingOnTarget(Put(s, w, Leaving).(resize := StopOne(s.resize)), v, Holding(s.workers[w].task));
    case Exit => PutCounts(s.workers, w, Gone);
    case _ =>
  }

  lemma ScaleOnTarget(s: Pool, e: ResizeStep)
    requires Counted(s) && OnTarget(s) && CanScale(s, e)
    ensures OnTarget(DoScale(s, e))
  {
    if e.ResizeBegin? {
      PresentCounts(s.workers);
    } else if e.GrowOne? {
      AddOne(s.workers);
    }
  }

  lemma NextOnTarget(s: Pool, e: Event)
    requires Counted(s) && Orderly(s) && OnTarget(s)
    ensures OnTarget(Next(s, e))
  {
    if Enabled(s, e) {
      match e
      case Submit(x) => SubmitOnTarget(s, x);
      case Loop(w, x) => LoopOnTarget(s, w, x);
      case Deliver(w, x) => DeliverOnTarget(s, w, x);
      case Leave(w, x) => LeaveOnTarget(s, w, x);
      case Scale(x) => ScaleOnTarget(s, x);
      case Close(x) => assert OnTarget(DoClose(s, x));
      case Receive => assert OnTarget(DoReceive(s));
    }
  }

  // ---------- Every run ----------

  predicate Inv(s: Pool) {
    Counted(s) && Orderly(s) && Draining(s) && OnTarget(s)
  }

  lemma {:induction false} RunKeepsInv(s: Pool, events: seq<Event>)
    requires Inv(s)
    ensures Inv(Run(s, events))
    ensures SameConfig(Run(s, events), s)
    decreases events
  {
    if events != [] {
      NextConfig(s, events[0]);
      NextCounted(s, events[0]);
      NextOrderly(s, events[0]);
      NextDraining(s, events[0]);
      NextOnTarget(s, events[0]);
      RunKeepsInv(Next(s, events[0]), events[1..]);
    }
  }

  function Reach(workers: nat, queueSize: nat, events: seq<Event>): Pool {
    Run(New(workers, queueSize), events)
  }

  lemma ReachInv(workers: nat, queueSize: nat, events: seq<Event>)
    ensures Inv(Reach(workers, queueSize, events))
    ensures Reach(workers, queueSize, events).slots == workers
    ensures Reach(workers, queueSize, events).queueCap == queueSize
  {
    RunKeepsInv(New(workers, queueSize), events);
  }

  /**
   * Conservation, for every run and every task: a task that was accepted is queued, in one
   * worker's hands, begun or abandoned, and only one of these, once. So no task is executed
   * twice, and every finished execution has one result, which is in one place.
   */
  lemma TaskConservation(workers: nat, queueSize: nat, events: seq<Event>, t: nat)
    ensures var s := Reach(workers, queueSize, events);
            var at := multiset(s.workers);
            && multiset(s.queue)[t] + at[Holding(t)] + at[Admitted(t)] + multiset(s.begun)[t] + multiset(s.abandoned)[t]
               == (if t < s.accepted then 1 else 0)
            && multiset(s.begun)[t] == at[Running(t)] + multiset(s.finished)[t]
            && multiset(s.finished)[t]
               == at[Done(t)] + at[Released(t)] + at[Sending(t)]
                  + multiset(s.results)[t] + multiset(s.received)[t] + multiset(s.dropped)[t]
  {
    RunConserves(New(workers, queueSize), events, t);
  }

  /** Tasks are given up in two ways only: on cancellation, and when a put-back finds the queue full. */
  lemma AbandonedExactly(s: Pool, e: Event)
    ensures Next(s, e).abandoned != s.abandoned
            <==> Enabled(s, e) && e.Leave?
                 && (e.leave.QuitHolding? || (e.leave.StopHolding? && s.queueCap <= |s.queue|))
  {
    if Enabled(s, e) {
      match e
      case Submit(x) => SubmitFrame(s, x);
      case Loop(w, x) => LoopFrame(s, w, x);
      case Deliver(w, x) => DeliverFrame(s, w, x);
      case Leave(w, x) =>
        LeaveFrame(s, w, x);
        assert |Next(s, e).abandoned| != |s.abandoned| || Next(s, e).abandoned == s.abandoned;
      case Scale(x) => assert DoScale(s, x).abandoned == s.abandoned;
      case Close(x) => assert DoClose(s, x).abandoned == s.abandoned;
      case Receive => assert DoReceive(s).abandoned == s.abandoned;
    }
  }

  /** A result is lost in one way only: a worker that is about to send it finds the open channel full. */
  lemma DroppedExactly(s: Pool, e: Event)
    requires Counted(s)
    ensures Next(s, e).dropped != s.dropped
            <==> Enabled(s, e) && e.Deliver? && e.deliver.DropResult?
    ensures Next(s, e).dropped != s.dropped ==> !s.resultsClosed && |s.results| == s.queueCap
  {
    if Enabled(s, e) {
      match e
      case Submit(x) => SubmitClose(s, x);
      case Loop(w, x) => LoopClose(s, w, x);
      case Deliver(w, x) => assert |DoDeliver(s, w, x).dropped| == |s.dropped| + One(x.DropResult?);
      case Leave(w, x) => LeaveClose(s, w, x);
      case Scale(x) => assert DoScale(s, x).dropped == s.dropped;
      case Close(x) => assert DoClose(s, x).dropped == s.dropped;
      case Receive => assert DoReceive(s).dropped == s.dropped;
    }
  }

  predicate Executing(w: Worker) { w.Running? }

  lemma {:induction false} ExecutingBusy(ws: seq<Worker>)
    ensures Count(ws, Executing) <= Count(ws, Busy)
  {
    if ws != [] {
      ExecutingBusy(ws[1..]);
    }
  }

  /** However often the pool is resized, no more tasks execute at once than Workers at construction. */
  lemma ConcurrencyBound(workers: nat, queueSize: nat, events: seq<Event>)
    ensures var s := Reach(workers, queueSize, events);
            && Count(s.workers, Executing) <= workers
            && s.occupied == Count(s.workers, Busy) && s.active == Count(s.workers, Shown)
  {
    ReachInv(workers, queueSize, events);
    ExecutingBusy(Reach(workers, queueSize, events).workers);
  }

  /** The close of the task channel, and nothing else, writes the record of it, once. */
  lemma AtCloseStays(s: Pool, e: Event)
    ensures s.tasksClosed || e != Close(CloseTasks) || !Enabled(s, e)
            ==> Next(s, e).atClose == s.atClose && Next(s, e).tasksClosed == s.tasksClosed
  {
    if Enabled(s, e) {
      match e
      case Submit(x) => SubmitClose(s, x);
      case Loop(w, x) => LoopClose(s, w, x);
      case Deliver(w, x) => DeliverClose(s, w, x);
      case Leave(w, x) => LeaveClose(s, w, x);
      case Scale(x) => assert SameClose(DoScale(s, x), s);
      case Close(x) =>
      case Receive =>
    }
  }

  lemma {:induction false} AtCloseKept(s: Pool, events: seq<Event>)
    requires s.tasksClosed
    ensures SameClose(Run(s, events), s)
    decreases events
  {
    if events != [] {
      AtCloseStays(s, events[0]);
      AtCloseKept(Next(s, events[0]), events[1..]);
    }
  }

  /** What the record says at the end is what was the case at the close. */
  lemma CloseRemembered(workers: nat, queueSize: nat, before: seq<Event>, after: seq<Event>)
    requires Enabled(Reach(workers, queueSize, before), Close(CloseTasks))
    ensures var c := Reach(workers, queueSize, before);
            var s := Reach(workers, queueSize, before + [Close(CloseTasks)] + after);
            s.tasksClosed && s.atClose == Closing(UnderWay(c), 0 < Count(c.workers, Active), c.queue)
  {
    RunSnoc(New(workers, queueSize), before, Close(CloseTasks));
    RunConcat(New(workers, queueSize), before + [Close(CloseTasks)], after);
    AtCloseKept(Reach(workers, queueSize, before + [Close(CloseTasks)]), after);
  }

  /** Every closed channel was closed by some step of the run. */
  lemma {:induction false} WhenClosed(workers: nat, queueSize: nat, events: seq<Event>) returns (k: nat)
    requires Reach(workers, queueSize, events).atClose.Closing?
    ensures k < |events| && events[k] == Close(CloseTasks)
    ensures var c := Reach(workers, queueSize, events[..k]);
            Enabled(c, Close(CloseTasks)) && Reach(workers, queueSize, events).atClose.overlap == UnderWay(c)
    decreases |events|
  {
    var n := |events| - 1;
    var s := Reach(workers, queueSize, events[..n]);
    assert events == events[..n] + [events[n]];
    RunSnoc(New(workers, queueSize), events[..n], events[n]);
    AtCloseStays(s, events[n]);
    ReachInv(workers, queueSize, events[..n]);
    if s.tasksClosed || events[n] != Close(CloseTasks) || !Enabled(s, events[n]) {
      k := WhenClosed(workers, queueSize, events[..n]);
      assert events[..n][..k] == events[..k];
    } else {
      k := n;
    }
  }

  /** A send on a closed channel needs a Submit or Resize that was under way when it was closed. */
  lemma NoPanicWithoutOverlap(workers: nat, queueSize: nat, events: seq<Event>)
    requires Reach(workers, queueSize, events).panicked
    ensures exists k :: 0 <= k < |events| && events[k] == Close(CloseTasks)
                        && Enabled(Reach(workers, queueSize, events[..k]), events[k])
                        && UnderWay(Reach(workers, queueSize, events[..k]))
  {
    ReachInv(workers, queueSize, events);
    var k := WhenClosed(workers, queueSize, events);
  }

  /** ... and the panic does happen, in every pool: a Submit passes its check, then the pool is shut down. */
  lemma OverlapCanPanic(workers: nat, queueSize: nat)
    ensures Reach(workers, queueSize,
                  [Submit(SubmitCheck), Close(CloseFlag), Close(CloseTasks), Submit(SubmitPanic)]).panicked
  {
    var s0 := New(workers, queueSize);
    RunOfFour(s0, Submit(SubmitCheck), Close(CloseFlag), Close(CloseTasks), Submit(SubmitPanic));
    var s1 := Next(s0, Submit(SubmitCheck));
    assert s1.submitting == 1 && !s1.closed && !s1.tasksClosed && !s1.panicked;
    ClosesAnyway(s1);
  }

  lemma ClosesAnyway(s: Pool)
    requires 0 < s.submitting && !s.closed && !s.tasksClosed && !s.panicked
    ensures Next(Next(Next(s, Close(CloseFlag)), Close(CloseTasks)), Submit(SubmitPanic)).panicked
  {
    var s2 := Next(Next(s, Close(CloseFlag)), Close(CloseTasks));
    assert s2.tasksClosed && s2.submitting == s.submitting && !s2.panicked;
  }

  // ---------- Shutdown drains ----------

  lemma {:induction false} NobodyStands(ws: seq<Worker>, t: nat)
    requires Count(ws, Present) == 0
    ensures InHand(ws, t) == InExecution(ws, t) == InReport(ws, t) == 0
  {
    CountNone(ws, Present);
    assert forall x: Worker :: x in ws ==> x == Gone;
  }

  /**
   * Shutdown without cancellation and without an overlapping Submit or Resize. Every accepted
   * task has been executed once, or abandoned once, or is still queued; nobody holds one any
   * more. The queue is empty exactly when some worker had not been told to stop at the time of
   * closing, or nothing was queued then.
   */
  lemma ShutdownDrainsExactly(workers: nat, queueSize: nat, before: seq<Event>, after: seq<Event>, t: nat)
    requires var c := Reach(workers, queueSize, before); Enabled(c, Close(CloseTasks)) && !UnderWay(c)
    requires var s := Reach(workers, queueSize, before + [Close(CloseTasks)] + after); s.resultsClosed && !s.cancelled
    ensures var c := Reach(workers, queueSize, before);
            var s := Reach(workers, queueSize, before + [Close(CloseTasks)] + after);
            && !s.panicked
            && multiset(s.finished)[t] + multiset(s.abandoned)[t] + multiset(s.queue)[t]
               == (if t < s.accepted then 1 else 0)
            && (s.queue == [] <==> 0 < Count(c.workers, Active) || c.queue == [])
  {
    var events := before + [Close(CloseTasks)] + after;
    var s := Reach(workers, queueSize, events);
    CloseRemembered(workers, queueSize, before, after);
    ReachInv(workers, queueSize, events);
    RunConserves(New(workers, queueSize), events, t);
    PresentCounts(s.workers);
    NobodyStands(s.workers, t);
  }

  /** Neither Resize nor cancellation. */
  predicate Plain(e: Event) {
    !e.Scale? && e != Close(Cancel)
  }

  predicate PlainState(s: Pool) {
    && !s.cancelled && s.resizing == 0 && s.resize == NoResize && s.abandoned == []
    && (s.started && !s.tasksClosed ==> 0 < Count(s.workers, Active))
    && (s.atClose.Closing? ==> s.atClose.alive || s.atClose.queued == [])
  }

  lemma NextPlain(s: Pool, e: Event)
    requires 1 <= s.slots && Orderly(s) && PlainState(s) && Plain(e)
    ensures PlainState(Next(s, e))
  {
    if Enabled(s, e) {
      match e
      case Submit(x) => SubmitPlain(s, x);
      case Loop(w, x) => LoopPlain(s, w, x);
      case Deliver(w, x) => DeliverPlain(s, w, x);
      case Leave(w, x) => LeavePlain(s, w, x);
      case Close(x) => assert PlainState(DoClose(s, x));
      case Receive => assert PlainState(DoReceive(s));
    }
  }

  lemma SubmitPlain(s: Pool, e: SubmitStep)
    requires 1 <= s.slots && Orderly(s) && PlainState(s) && CanSubmit(s, e)
    ensures PlainState(DoSubmit(s, e))
  {
    AddCounts(s.workers, s.slots);
    if e.SubmitHandOver? {
      PutCounts(s.workers, e.to, Holding(s.accepted));
    }
  }

  lemma LoopPlain(s: Pool, w: nat, e: LoopStep)
    requires PlainState(s) && CanLoop(s, w, e)
    ensures PlainState(DoLoop(s, w, e))
  {
    CountAtLeast(DoLoop(s, w, e).workers, w, Active);
  }

  lemma DeliverPlain(s: Pool, w: nat, e: DeliverStep)
    requires PlainState(s) && CanDeliver(s, w, e)
    ensures PlainState(DoDeliver(s, w, e))
  {
    PutCounts(s.workers, w, Idle);
  }

  lemma LeavePlain(s: Pool, w: nat, e: LeaveStep)
    requires PlainState(s) && CanLeave(s, w, e)
    ensures PlainState(DoLeave(s, w, e))
  {
    PutCounts(s.workers, w, if e.Exit? then Gone else Leaving);
  }

  lemma {:induction false} RunPlain(s: Pool, events: seq<Event>)
    requires 1 <= s.slots && Orderly(s) && PlainState(s) && forall e :: e in events ==> Plain(e)
    ensures PlainState(Run(s, events))
    decreases events
  {
    if events != [] {
      NextPlain(s, events[0]);
      NextOrderly(s, events[0]);
      NextConfig(s, events[0]);
      assert forall e :: e in events[1..] ==> e in events;
      RunPlain(Next(s, events[0]), events[1..]);
    }
  }

  /**
   * A pool with at least one worker that is never resized nor cancelled, and shut down while no
   * Submit is under way: every accepted task has been executed exactly once.
   */
  lemma ShutdownExecutesAll(workers: nat, queueSize: nat, before: seq<Event>, after: seq<Event>)
    requires 1 <= workers && forall e :: e in before + [Close(CloseTasks)] + after ==> Plain(e)
    requires var c := Reach(workers, queueSize, before); Enabled(c, Close(CloseTasks)) && c.submitting == 0
    requires Reach(workers, queueSize, before + [Close(CloseTasks)] + after).resultsClosed
    ensures var s := Reach(workers, queueSize, before + [Close(CloseTasks)] + after);
            && !s.panicked
            && forall t: nat :: multiset(s.finished)[t] == if t < s.accepted then 1 else 0
  {
    var events := before + [Close(CloseTasks)] + after;
    var c, s := Reach(workers, queueSize, before), Reach(workers, queueSize, events);
    assert forall e :: e in before ==> e in events;
    RunPlain(New(workers, queueSize), before);
    RunPlain(New(workers, queueSize), events);
    ReachInv(workers, queueSize, before);
    forall t: nat ensures !s.panicked && multiset(s.finished)[t] == if t < s.accepted then 1 else 0 {
      ShutdownDrainsExactly(workers, queueSize, before, after, t);
      CloseRemembered(workers, queueSize, before, after);
    }
    ShutdownDrainsExactly(workers, queueSize, before, after, 0);
  }

  // ---------- Waiting for the drain ----------

  /** Has a task and is not counted in ActiveWorkers yet. */
  predicate HasTask(w: Worker) { w.Holding? || w.Admitted? }

  predicate Finishing(w: Worker) { w.Done? || w.Released? || w.Sending? }

  lemma {:induction false} Someone(ws: seq<Worker>, p: Worker -> bool) returns (w: nat)
    requires 0 < Count(ws, p)
    ensures w < |ws| && p(ws[w])
  {
    if p(ws[0]) {
      w := 0;
    } else {
      w := Someone(ws[1..], p);
      w := w + 1;
    }
  }

  lemma NobodyWith(ws: seq<Worker>, t: nat)
    ensures Count(ws, HasTask) == 0 ==> InHand(ws, t) == 0
    ensures Count(ws, Executing) == 0 ==> InExecution(ws, t) == 0
    ensures Count(ws, Finishing) == 0 ==> InReport(ws, t) == 0
  {
    CountNone(ws, HasTask);
    CountNone(ws, Executing);
    CountNone(ws, Finishing);
    assert forall x :: x in multiset(ws) ==> x in ws;
  }

  /** The task is over: executed to the end, or given up. */
  predicate Settled(s: Pool, t: nat) {
    multiset(s.finished)[t] + multiset(s.abandoned)[t] == 1
  }

  lemma {:induction false} ShownExecuting(ws: seq<Worker>)
    ensures Count(ws, Executing) <= Count(ws, Shown)
  {
    if ws != [] {
      ShownExecuting(ws[1..]);
    }
  }

  /** With no active worker an accepted task is over unless it is queued or in uncounted hands. */
  lemma SettledExactly(s: Pool, t: nat)
    requires Counted(s) && Conserved(s, t) && t < s.accepted && s.active == 0
    ensures Settled(s, t) <==> t !in s.queue && InHand(s.workers, t) == 0
  {
    ShownExecuting(s.workers);
    NobodyWith(s.workers, t);
    assert t in s.queue <==> t in multiset(s.queue);
  }

  /** Somewhere in the run a stopped worker puts the task back. */
  predicate PutsBack(s: Pool, events: seq<Event>, t: nat)
    decreases events
  {
    events != [] &&
    (|| (Enabled(s, events[0]) && events[0].Leave? && events[0].leave.StopHolding?
         && |s.queue| < s.queueCap && s.workers[events[0].w] == Holding(t))
     || PutsBack(Next(s, events[0]), events[1..], t))
  }

  /** The step is the put-back of a stopped worker that finds room. */
  predicate FindsRoom(s: Pool, e: Event) {
    Enabled(s, e) && e.Leave? && e.leave.StopHolding? && |s.queue| < s.queueCap
  }

  lemma NextQueue(s: Pool, e: Event)
    ensures var q := Next(s, e).queue;
            || q == s.queue
            || (s.queue != [] && q == s.queue[1..])
            || q == s.queue + [s.accepted]
            || (FindsRoom(s, e) && q == s.queue + [s.workers[e.w].task])
  {
    if Enabled(s, e) {
      match e
      case Submit(x) => SubmitFrame(s, x);
      case Loop(w, x) => LoopFrame(s, w, x);
      case Deliver(w, x) => DeliverFrame(s, w, x);
      case Leave(w, x) => LeaveFrame(s, w, x);
      case Scale(x) => assert DoScale(s, x).queue == s.queue;
      case Close(x) => assert DoClose(s, x).queue == s.queue;
      case Receive => assert DoReceive(s).queue == s.queue;
    }
  }

  /** Only a put-back brings a task into the queue that was accepted before. */
  lemma QueuedAgain(s: Pool, e: Event, t: nat)
    requires t !in s.queue && t < s.accepted
    ensures t in Next(s, e).queue ==> PutsBack(s, [e], t)
  {
    hide Effect;
    NextQueue(s, e);
    assert s.queue != [] ==> forall u :: u in s.queue[1..] ==> u in s.queue;
  }

  lemma {:induction false} RunQueuedAgain(s: Pool, events: seq<Event>, t: nat)
    requires t !in s.queue && t < s.accepted
    ensures t in Run(s, events).queue ==> PutsBack(s, events, t)
    decreases events
  {
    if events != [] {
      QueuedAgain(s, events[0], t);
      NextConfig(s, events[0]);
      if t !in Next(s, events[0]).queue {
        RunQueuedAgain(Next(s, events[0]), events[1..], t);
      }
    }
  }

  lemma {:induction false} AcceptedGrows(s: Pool, events: seq<Event>)
    ensures s.accepted <= Run(s, events).accepted
    decreases events
  {
    if events != [] {
      NextConfig(s, events[0]);
      AcceptedGrows(Next(s, events[0]), events[1..]);
    }
  }

  /**
   * WaitForDrain makes two reads: it sees an empty queue, later no active worker. At the second
   * read all tasks accepted before the first are over exactly if none of them is in the hands of
   * a worker not yet counted, and none is queued again. The latter takes a put-back by a stopped
   * worker between the two reads.
   */
  lemma DrainedExactly(workers: nat, queueSize: nat, before: seq<Event>, between: seq<Event>)
    requires Reach(workers, queueSize, before).queue == []
    requires Reach(workers, queueSize, before + between).active == 0
    ensures var first := Reach(workers, queueSize, before);
            var second := Reach(workers, queueSize, before + between);
            && ((forall t: nat :: t < first.accepted ==> Settled(second, t))
                <==> forall t: nat :: t < first.accepted ==> t !in second.queue && InHand(second.workers, t) == 0)
            && (forall t: nat :: t < first.accepted && t in second.queue ==> PutsBack(first, between, t))
  {
    var first := Reach(workers, queueSize, before);
    var second := Reach(workers, queueSize, before + between);
    RunConcat(New(workers, queueSize), before, between);
    ReachInv(workers, queueSize, before + between);
    AcceptedGrows(first, between);
    forall t: nat | t < first.accepted
      ensures Settled(second, t) <==> t !in second.queue && InHand(second.workers, t) == 0
      ensures t in second.queue ==> PutsBack(first, between, t)
    {
      RunConserves(New(workers, queueSize), before + between, t);
      SettledExactly(second, t);
      RunQueuedAgain(first, between, t);
    }
  }

  /** If nothing happens between the reads: all is over exactly if no worker has an uncounted task. */
  lemma DrainedAtOnceExactly(workers: nat, queueSize: nat, events: seq<Event>)
    requires var s := Reach(workers, queueSize, events); s.queue == [] && s.active == 0
    ensures var s := Reach(workers, queueSize, events);
            (forall t: nat :: t < s.accepted ==> Settled(s, t)) <==> Count(s.workers, HasTask) == 0
  {
    var s := Reach(workers, queueSize, events);
    assert events + [] == events;
    DrainedExactly(workers, queueSize, events, []);
    if Count(s.workers, HasTask) == 0 {
      forall t: nat | t < s.accepted ensures InHand(s.workers, t) == 0 {
        NobodyWith(s.workers, t);
      }
    } else {
      var w := Someone(s.workers, HasTask);
      var t := s.workers[w].task;
      RunConserves(New(workers, queueSize), events, t);
      assert s.workers[w] in multiset(s.workers);
      assert 0 < InHand(s.workers, t) && t < s.accepted;
    }
  }

  function SubmitOne(): seq<Event> {
    [Submit(SubmitCheck), Submit(SubmitAccept)]
  }

  /** A started pool with an empty queue accepts the next task. */
  lemma AcceptsNext(s: Pool)
    requires s.started && !s.closed && !s.tasksClosed && !s.panicked && s.submitting == 0
    requires s.queue == [] && 1 <= s.queueCap
    ensures Run(s, SubmitOne()) == s.(queue := [s.accepted], accepted := s.accepted + 1)
  {
    assert Next(s, Submit(SubmitCheck)) == s.(submitting := 1);
    PutsFirst(s);
    RunOfTwo(s, Submit(SubmitCheck), Submit(SubmitAccept));
  }

  lemma PutsFirst(s: Pool)
    requires !s.tasksClosed && !s.panicked && s.queue == [] && 1 <= s.queueCap && s.submitting == 0
    ensures Next(s.(submitting := 1), Submit(SubmitAccept)) == s.(queue := [s.accepted], accepted := s.accepted + 1)
  {
    assert s.queue + [s.accepted] == [s.accepted];
  }

  /** A pool of n workers whose first worker has just taken the only task. */
  function OneTaken(n: nat): Pool
    requires 1 <= n
  {
    New(n, 1).(started := true, workers := [Holding(0)] + Repeat(n - 1, Idle), workerCount := n, accepted := 1)
  }

  function TakeOne(): seq<Event> {
    [Submit(SubmitCheck), Submit(SubmitAccept), Loop(0, Take)]
  }

  lemma AcceptsOne(n: nat)
    requires 1 <= n
    ensures Next(Next(New(n, 1), Submit(SubmitCheck)), Submit(SubmitAccept)) == OneQueued(n)
  {
    var s1 := Next(New(n, 1), Submit(SubmitCheck));
    assert s1 == New(n, 1).(started := true, workers := Repeat(n, Idle), workerCount := n, submitting := 1);
    var s2 := Next(s1, Submit(SubmitAccept));
    assert s2 == s1.(submitting := 0, queue := [0], accepted := 1);
  }

  function OneQueued(n: nat): Pool {
    New(n, 1).(started := true, workers := Repeat(n, Idle), workerCount := n, queue := [0], accepted := 1)
  }

  lemma TakesQueued(n: nat)
    requires 1 <= n
    ensures Next(OneQueued(n), Loop(0, Take)) == OneTaken(n)
  {
    assert Repeat(n, Idle)[0 := Holding(0)] == [Holding(0)] + Repeat(n - 1, Idle);
  }

  lemma TakesOne(n: nat)
    requires 1 <= n
    ensures Reach(n, 1, TakeOne()) == OneTaken(n)
  {
    AcceptsOne(n);
    TakesQueued(n);
    RunOfThree(New(n, 1), Submit(SubmitCheck), Submit(SubmitAccept), Loop(0, Take));
  }

  /** Both reads succeed although the only task is in a worker's hands, before the semaphore or just past it. */
  lemma DrainMissesHolder()
    ensures var s := Reach(1, 1, TakeOne());
            s.queue == [] && s.active == 0 && s.workers == [Holding(0)] && s.accepted == 1 && !Settled(s, 0)
    ensures var s := Reach(1, 1, TakeOne() + [Loop(0, AcquireSlot)]);
            s.queue == [] && s.active == 0 && s.workers == [Admitted(0)] && s.accepted == 1 && !Settled(s, 0)
  {
    TakesOne(1);
    RunSnoc(New(1, 1), TakeOne(), Loop(0, AcquireSlot));
    assert OneTaken(1).workers[0 := Admitted(0)] == [Admitted(0)];
  }

  /** Resize(1) of two workers, the first of which holds the task: it is told to stop and puts it back. */
  lemma PutsOneBack()
    ensures var s := Next(Next(OneTaken(2), Scale(ResizeCheck)), Scale(ResizeBegin(1)));
            && s.queue == [] && s.active == 0
            && var r := Next(s, Leave(0, StopHolding));
               r.queue == [0] && r.active == 0 && r.workers == [Leaving, Idle] && r.finished == r.abandoned == []
  {
    assert OneTaken(2).workers == [Holding(0), Idle];
    var s1 := Next(OneTaken(2), Scale(ResizeCheck));
    assert s1 == OneTaken(2).(resizing := 1);
    var s2 := Next(s1, Scale(ResizeBegin(1)));
    assert s2.resize.stop == 1 && s2.queue == [] && s2.workers == [Holding(0), Idle];
  }

  /** Both reads succeed although the only task was put back between them: nobody has it, it is queued. */
  lemma DrainMissesPutBack()
    ensures var before := TakeOne() + [Scale(ResizeCheck), Scale(ResizeBegin(1))];
            && Reach(2, 1, before).queue == []
            && var s := Reach(2, 1, before + [Leave(0, StopHolding)]);
               s.active == 0 && s.queue == [0] && Count(s.workers, HasTask) == 0 && !Settled(s, 0)
  {
    TakesOne(2);
    PutsOneBack();
    var before := TakeOne() + [Scale(ResizeCheck), Scale(ResizeBegin(1))];
    RunConcat(New(2, 1), TakeOne(), [Scale(ResizeCheck), Scale(ResizeBegin(1))]);
    RunOfTwo(OneTaken(2), Scale(ResizeCheck), Scale(ResizeBegin(1)));
    RunSnoc(New(2, 1), before, Leave(0, StopHolding));
    CountNone([Leaving, Idle], HasTask);
  }

  // ---------- Resize ----------

  /** A Resize at work keeps its target and what it noted when it read the worker count. */
  predicate SamePlan(a: Resize, b: Resize) {
    a.Resizing? && b.Resizing? && a.target == b.target && a.pending == b.pending
  }

  lemma LeaveKeepsPlan(s: Pool, w: nat, e: LeaveStep)
    requires CanLeave(s, w, e) && s.resize.Resizing?
    ensures SamePlan(DoLeave(s, w, e).resize, s.resize)
  {
    match e
    case StopIdle =>
    case StopHolding =>
    case StopHandOver(_) =>
    case _ =>
  }

  lemma PlanStays(s: Pool, e: Event)
    requires s.resize.Resizing? && e != Scale(ResizeEnd) && e != Scale(ResizeCancelled)
    ensures SamePlan(Next(s, e).resize, s.resize)
  {
    if Enabled(s, e) {
      match e
      case Submit(x) => SubmitClose(s, x);
      case Loop(w, x) => LoopClose(s, w, x);
      case Deliver(w, x) => DeliverClose(s, w, x);
      case Leave(w, x) => LeaveKeepsPlan(s, w, x);
      case Scale(x) =>
      case Close(x) => assert DoClose(s, x).resize == s.resize;
      case Receive =>
    }
  }

  lemma {:induction false} PlanKept(s: Pool, events: seq<Event>)
    requires s.resize.Resizing? && Scale(ResizeEnd) !in events && Scale(ResizeCancelled) !in events
    ensures SamePlan(Run(s, events).resize, s.resize)
    decreases events
  {
    if events != [] {
      PlanStays(s, events[0]);
      PlanKept(Next(s, events[0]), events[1..]);
    }
  }

  /**
   * Resize(n) reads the worker count and, after whatever other steps, is about to return without
   * error, while nothing else made workers leave: the number of workers not told to stop is n
   * less those that had returned, but were still counted, when the count was read. It is n
   * exactly if there were none.
   */
  lemma ResizeExactly(workers: nat, queueSize: nat, before: seq<Event>, n: int, after: seq<Event>)
    requires Enabled(Reach(workers, queueSize, before), Scale(ResizeBegin(n)))
    requires Scale(ResizeEnd) !in after && Scale(ResizeCancelled) !in after
    requires var s := Reach(workers, queueSize, before + [Scale(ResizeBegin(n))] + after);
             CanScale(s, ResizeEnd) && !s.cancelled && !s.tasksClosed
    ensures var pending := Count(Reach(workers, queueSize, before).workers, Returned);
            var s := Reach(workers, queueSize, before + [Scale(ResizeBegin(n))] + after);
            && Count(s.workers, Active) == n - pending
            && (Count(s.workers, Active) == n <==> pending == 0)
  {
    var first := before + [Scale(ResizeBegin(n))];
    RunSnoc(New(workers, queueSize), before, Scale(ResizeBegin(n)));
    RunConcat(New(workers, queueSize), first, after);
    PlanKept(Reach(workers, queueSize, first), after);
    ReachInv(workers, queueSize, first + after);
  }

  /** Resizing two workers to one, twice in a row, can leave none. */
  lemma ResizeTwiceStopsAll()
    ensures var s := Reach(2, 1, [Submit(Start)] + ResizeToOne(0) + ResizeToOne(1));
            && Count(s.workers, Active) == 0 && s.resize == NoResize && !s.closed && !s.panicked
  {
    AllStopped();
    CountNone([Leaving, Leaving], Active);
  }

  lemma AllStopped()
    ensures Reach(2, 1, [Submit(Start)] + ResizeToOne(0) + ResizeToOne(1))
            == New(2, 1).(started := true, workers := [Leaving, Leaving], workerCount := 2)
  {
    var s0 := New(2, 1);
    var s1 := s0.(started := true, workers := [Idle, Idle], workerCount := 2);
    TwoStarted();
    ToOne(s1, 0);
    var s2 := s1.(workers := [Leaving, Idle]);
    assert s1.workers[0 := Leaving] == s2.workers;
    ToOne(s2, 1);
    assert s2.workers[1 := Leaving] == [Leaving, Leaving];
    RunCons(s0, Submit(Start), ResizeToOne(0) + ResizeToOne(1));
    RunConcat(s1, ResizeToOne(0), ResizeToOne(1));
    assert [Submit(Start)] + ResizeToOne(0) + ResizeToOne(1) == [Submit(Start)] + (ResizeToOne(0) + ResizeToOne(1));
  }

  lemma TwoStarted()
    ensures Next(New(2, 1), Submit(Start)) == New(2, 1).(started := true, workers := [Idle, Idle], workerCount := 2)
  {
    assert Repeat(2, Idle) == [Idle] + Repeat(1, Idle) && Repeat(1, Idle) == [Idle];
  }

  /** Resize(1) whose stop signal goes to the given idle worker, who does not get to exit yet. */
  function ResizeToOne(w: nat): seq<Event> {
    [Scale(ResizeCheck), Scale(ResizeBegin(1)), Leave(w, StopIdle), Scale(ResizeEnd)]
  }

  lemma ToOne(s: Pool, w: nat)
    requires w < |s.workers| && s.workers[w] == Idle && s.workerCount == 2
    requires s.started && !s.closed && !s.panicked && s.resize == NoResize && s.resizing == 0
    ensures Run(s, ResizeToOne(w)) == s.(workers := s.workers[w := Leaving])
  {
    RunOfFour(s, Scale(ResizeCheck), Scale(ResizeBegin(1)), Leave(w, StopIdle), Scale(ResizeEnd));
    PlansToOne(s);
    StopsOne(s, w, Count(s.workers, Returned));
    EndsPlan(s.(workers := s.workers[w := Leaving]), Count(s.workers, Returned));
  }

  lemma StopsOne(s: Pool, w: nat, pending: nat)
    requires w < |s.workers| && s.workers[w] == Idle && !s.panicked
    ensures Next(s.(resize := Resizing(1, 0, 1, pending)), Leave(w, StopIdle))
            == s.(workers := s.workers[w := Leaving]).(resize := Resizing(1, 0, 0, pending))
  {}

  lemma EndsPlan(s: Pool, pending: nat)
    requires !s.panicked && s.resize == NoResize
    ensures Next(s.(resize := Resizing(1, 0, 0, pending)), Scale(ResizeEnd)) == s
  {}

  lemma PlansToOne(s: Pool)
    requires s.workerCount == 2
    requires s.started && !s.closed && !s.panicked && s.resize == NoResize && s.resizing == 0
    ensures Next(Next(s, Scale(ResizeCheck)), Scale(ResizeBegin(1)))
            == s.(resize := Resizing(1, 0, 1, Count(s.workers, Returned)))
  {
    assert Next(s, Scale(ResizeCheck)) == s.(resizing := 1);
  }
}
