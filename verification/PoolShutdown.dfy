/** Shutting the pool down: that it always ends, and which late calls can still crash it. */
module PoolShutdown {
  import opened PoolSpec
  import opened PoolSafety

  // ---------- An orderly shutdown always ends ----------

  /** The task channel is closed and neither a Submit nor a Resize is under way. */
  predicate Settling(s: Pool) {
    && Counted(s) && s.tasksClosed && s.closed && !s.panicked
    && s.submitting == 0 && s.resizing == 0 && s.resize == NoResize
    && (s.resultsClosed ==> Count(s.workers, Present) == 0)
  }

  /** The step can be taken and changes something. */
  predicate Moves(s: Pool, e: Event) {
    Enabled(s, e) && Next(s, e) != s
  }

  predicate AllMove(s: Pool, events: seq<Event>)
    decreases events
  {
    events == [] || (Moves(s, events[0]) && AllMove(Next(s, events[0]), events[1..]))
  }

  /** How far the shutdown is from its end. */
  function Rest(s: Pool): int {
    8 * |s.queue| + Remaining(s.workers) + |s.results| + One(!s.cancelled) + One(!s.resultsClosed)
  }

  lemma LoopSettles(s: Pool, w: nat, e: LoopStep)
    requires Settling(s) && CanLoop(s, w, e)
    ensures Settling(DoLoop(s, w, e)) && Rest(DoLoop(s, w, e)) < Rest(s)
  {
    CountAtLeast(s.workers, w, Present);
    LoopCounted(s, w, e);
    RemainingUpdate(s.workers, w, DoLoop(s, w, e).workers[w]);
  }

  lemma DeliverSettles(s: Pool, w: nat, e: DeliverStep)
    requires Settling(s) && CanDeliver(s, w, e)
    ensures Settling(DoDeliver(s, w, e)) && Rest(DoDeliver(s, w, e)) < Rest(s)
  {
    CountAtLeast(s.workers, w, Present);
    DeliverCounted(s, w, e);
    RemainingUpdate(s.workers, w, Idle);
  }

  lemma LeaveSettles(s: Pool, w: nat, e: LeaveStep)
    requires Settling(s) && CanLeave(s, w, e)
    ensures Settling(DoLeave(s, w, e)) && Rest(DoLeave(s, w, e)) < Rest(s)
  {
    CountAtLeast(s.workers, w, Present);
    LeaveCounted(s, w, e);
    RemainingUpdate(s.workers, w, if e.Exit? then Gone else Leaving);
  }

  lemma StepSettles(s: Pool, e: Event)
    requires Settling(s) && Moves(s, e)
    ensures Settling(Next(s, e)) && Rest(Next(s, e)) < Rest(s)
  {
    match e
    case Submit(x) =>
    case Loop(w, x) => LoopSettles(s, w, x);
    case Deliver(w, x) => DeliverSettles(s, w, x);
    case Leave(w, x) => LeaveSettles(s, w, x);
    case Scale(x) =>
    case Close(x) => assert x.Cancel? || x.CloseResults?;
    case Receive =>
  }

  lemma {:induction false} RunSettles(s: Pool, events: seq<Event>)
    requires Settling(s) && AllMove(s, events)
    ensures Settling(Run(s, events)) && |events| <= Rest(s) && Run(s, events).slots == s.slots
    decreases events
  {
    if events != [] {
      StepSettles(s, events[0]);
      NextConfig(s, events[0]);
      RunSettles(Next(s, events[0]), events[1..]);
    }
  }

  /** As long as somebody is there, somebody can go on; without a slot only the timeout helps. */
  lemma Progress(s: Pool) returns (e: Event)
    requires Settling(s) && !s.resultsClosed
    ensures Moves(s, e)
    ensures 1 <= s.slots || s.cancelled ==> e != Close(Cancel)
  {
    if Count(s.workers, Present) == 0 {
      return Close(CloseResults);
    }
    var w := Someone(s.workers, Present);
    match s.workers[w]
    case Idle => e := if s.queue == [] then Leave(w, SeeClosed) else Loop(w, Take);
    case Leaving => e := Leave(w, Exit);
    case Holding(_) =>
      if s.occupied < s.slots {
        e := Loop(w, AcquireSlot);
      } else if s.cancelled {
        e := Leave(w, QuitHolding);
      } else if s.slots == 0 {
        e := Close(Cancel);
      } else {
        var v := Someone(s.workers, Busy);
        e := BusyStep(s, v);
      }
    case Admitted(_) => e := BusyStep(s, w);
    case Running(_) => e := BusyStep(s, w);
    case Done(_) => e := BusyStep(s, w);
    case Released(_) => e := Loop(w, CountDown);
    case Sending(_) => e := Deliver(w, if |s.results| < s.queueCap then SendResult else DropResult);
  }

  lemma BusyStep(s: Pool, w: nat) returns (e: Event)
    requires !s.panicked && w < |s.workers| && Busy(s.workers[w])
    ensures Moves(s, e) && e != Close(Cancel)
  {
    match s.workers[w]
    case Admitted(_) => e := Loop(w, CountUp);
    case Running(_) => e := Loop(w, Finish);
    case _ => e := Loop(w, ReleaseSlot);
  }

  /**
   * From an orderly close of the task channel every run is over after a bounded number of steps,
   * and can go on until the result channel is closed. With at least one slot it can do so without
   * the cancellation that follows the timeout.
   */
  lemma ShutdownAlwaysEnds(workers: nat, queueSize: nat, before: seq<Event>, later: seq<Event>)
    requires var c := Reach(workers, queueSize, before); Enabled(c, Close(CloseTasks)) && !UnderWay(c)
    requires AllMove(Reach(workers, queueSize, before + [Close(CloseTasks)]), later)
    ensures var s := Reach(workers, queueSize, before + [Close(CloseTasks)]);
            var r := Run(s, later);
            && |later| <= Rest(s)
            && (r.resultsClosed || exists e :: Moves(r, e) && (1 <= workers || r.cancelled ==> e != Close(Cancel)))
  {
    var s := Reach(workers, queueSize, before + [Close(CloseTasks)]);
    SettlesAtClose(workers, queueSize, before);
    RunSettles(s, later);
    var r := Run(s, later);
    if !r.resultsClosed {
      var e := Progress(r);
      assert Moves(r, e);
    }
  }

  lemma SettlesAtClose(workers: nat, queueSize: nat, before: seq<Event>)
    requires var c := Reach(workers, queueSize, before); Enabled(c, Close(CloseTasks)) && !UnderWay(c)
    ensures Settling(Reach(workers, queueSize, before + [Close(CloseTasks)]))
    ensures Reach(workers, queueSize, before + [Close(CloseTasks)]).slots == workers
  {
    CloseRemembered(workers, queueSize, before, []);
    assert before + [Close(CloseTasks)] + [] == before + [Close(CloseTasks)];
    ReachInv(workers, queueSize, before + [Close(CloseTasks)]);
  }

  // ---------- What may be left behind ----------

  /** After two Resize(1) calls nobody is left to take the task submitted next; Shutdown leaves it queued. */
  lemma ShutdownLeavesTask()
    ensures !UnderWay(Reach(2, 1, StopAll() + SubmitOne() + ExitBoth()))
    ensures var s := Reach(2, 1, StopAll() + SubmitOne() + ExitBoth() + CloseAll());
            && s.resultsClosed && !s.cancelled && s.accepted == 1 && s.queue == [0] && s.finished == []
  {
    var s0 := New(2, 1);
    var s1 := s0.(started := true, workers := [Leaving, Leaving], workerCount := 2);
    AllStopped();
    var s2 := s1.(queue := [0], accepted := 1);
    var s3 := s2.(workers := [Gone, Gone], workerCount := 0);
    AcceptsNext(s1);
    BothExit();
    RunConcat(s0, StopAll(), SubmitOne());
    RunConcat(s0, StopAll() + SubmitOne(), ExitBoth());
    RunConcat(s0, StopAll() + SubmitOne() + ExitBoth(), CloseAll());
    ClosesEmpty(s3);
  }

  function StopAll(): seq<Event> {
    [Submit(Start)] + ResizeToOne(0) + ResizeToOne(1)
  }

  function ExitBoth(): seq<Event> {
    [Leave(0, Exit), Leave(1, Exit)]
  }

  function CloseAll(): seq<Event> {
    [Close(CloseFlag), Close(CloseTasks), Close(CloseResults)]
  }

  lemma BothExit()
    ensures var s := New(2, 1).(started := true, workers := [Leaving, Leaving], workerCount := 2,
                                queue := [0], accepted := 1);
            Run(s, ExitBoth()) == s.(workers := [Gone, Gone], workerCount := 0)
  {
    var s := New(2, 1).(started := true, workers := [Leaving, Leaving], workerCount := 2, queue := [0], accepted := 1);
    assert Next(s, Leave(0, Exit)) == s.(workers := [Gone, Leaving], workerCount := 1);
    RunOfTwo(s, Leave(0, Exit), Leave(1, Exit));
  }

  lemma ClosesEmpty(s: Pool)
    requires s.workers == [Gone, Gone] && !s.closed && !s.tasksClosed && !s.resultsClosed && !s.panicked
    requires s.submitting == 0 && s.resizing == 0 && s.resize == NoResize
    ensures Run(s, CloseAll())
            == s.(closed := true, tasksClosed := true, resultsClosed := true, atClose := Closing(false, false, s.queue))
  {
    CountNone(s.workers, Active);
    CountNone(s.workers, Present);
    assert Next(s, Close(CloseFlag)) == s.(closed := true);
    RunOfThree(s, Close(CloseFlag), Close(CloseTasks), Close(CloseResults));
  }
}
