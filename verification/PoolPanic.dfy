/** Which Submit and Resize calls crash the program if the pool is shut down under them. */
module PoolPanic {
  import opened PoolSpec
  import opened PoolSafety

  /** Some continuation sends on a closed channel. */
  ghost predicate CanPanic(s: Pool) {
    exists events :: Run(s, events).panicked
  }

  predicate Holds(w: Worker) { w.Holding? }

  /** Has been admitted and has still to report. */
  predicate Carries(w: Worker) { w.Admitted? || w.Running? || w.Done? || w.Released? || w.Sending? }

  /** The workers a Resize call has still to start. */
  function Growing(s: Pool): nat {
    if s.resize.Resizing? then s.resize.grow else 0
  }

  /** A stop signal is offered, or a late Resize can still find more workers than it wants. */
  predicate StopToCome(s: Pool) {
    StopOffered(s) || 2 <= s.resizing || (1 <= s.resizing && 2 <= s.workerCount + Growing(s))
  }

  /** A worker has, or can still get, a task from the closed channel. */
  predicate TaskToHold(s: Pool) {
    || 0 < Count(s.workers, Holds)
    || (s.queue != [] && (0 < Count(s.workers, Active) || 0 < Growing(s) || 2 <= s.resizing))
  }

  /**
   * The three ways to a crash: a Submit past its check; a worker stopped with a task, which it
   * puts back into the closed channel; a worker started late, which reports to closed results.
   */
  predicate MayPanic(s: Pool) {
    || 0 < s.submitting
    || (StopToCome(s) && TaskToHold(s))
    || (1 <= s.slots && s.queue != [] && (0 < Growing(s) || 0 < s.resizing))
  }

  /** The task channel is closed. */
  predicate TasksShut(s: Pool) {
    s.closed && s.tasksClosed && !s.panicked && Counted(s)
  }

  // ---------- If none of the ways is open, none ever opens ----------

  predicate Harmless(s: Pool) {
    && TasksShut(s) && !MayPanic(s)
    && (s.resultsClosed ==>
          && Count(s.workers, Carries) == 0
          && (1 <= s.slots ==> Count(s.workers, Holds) == 0 && (s.queue == [] || Count(s.workers, Active) == 0)))
  }

  lemma PutHarm(ws: seq<Worker>, w: nat, x: Worker)
    requires w < |ws|
    ensures Count(ws[w := x], Holds) == Count(ws, Holds) - One(Holds(ws[w])) + One(Holds(x))
    ensures Count(ws[w := x], Carries) == Count(ws, Carries) - One(Carries(ws[w])) + One(Carries(x))
    ensures Count(ws[w := x], Active) == Count(ws, Active) - One(Active(ws[w])) + One(Active(x))
    ensures Holds(ws[w]) ==> 0 < Count(ws, Holds)
    ensures Carries(ws[w]) ==> 0 < Count(ws, Carries)
    ensures Active(ws[w]) ==> 0 < Count(ws, Active)
  {
    CountUpdate(ws, w, x, Holds);
    CountUpdate(ws, w, x, Carries);
    CountUpdate(ws, w, x, Active);
    CountNone(ws, Holds);
    CountNone(ws, Carries);
    CountNone(ws, Active);
  }

  lemma AddHarm(ws: seq<Worker>)
    ensures Count(ws + [Idle], Holds) == Count(ws, Holds)
    ensures Count(ws + [Idle], Carries) == Count(ws, Carries)
    ensures Count(ws + [Idle], Active) == Count(ws, Active) + 1
  {
    CountConcat(ws, [Idle], Holds);
    CountConcat(ws, [Idle], Carries);
    CountConcat(ws, [Idle], Active);
  }

  lemma {:induction false} NobodyPresent(ws: seq<Worker>)
    requires Count(ws, Present) == 0
    ensures Count(ws, Holds) == Count(ws, Carries) == Count(ws, Active) == Count(ws, Busy) == 0
  {
    CountNone(ws, Present);
    CountNone(ws, Holds);
    CountNone(ws, Carries);
    CountNone(ws, Active);
    CountNone(ws, Busy);
  }

  lemma LoopHarmless(s: Pool, w: nat, e: LoopStep)
    requires Harmless(s) && CanLoop(s, w, e)
    ensures Harmless(DoLoop(s, w, e))
  {
    LoopCounted(s, w, e);
    PutHarm(s.workers, w, DoLoop(s, w, e).workers[w]);
  }

  lemma DeliverHarmless(s: Pool, w: nat, e: DeliverStep)
    requires Harmless(s) && CanDeliver(s, w, e)
    ensures Harmless(DoDeliver(s, w, e))
  {
    DeliverCounted(s, w, e);
    PutHarm(s.workers, w, Idle);
  }

  lemma LeaveHarmless(s: Pool, w: nat, e: LeaveStep)
    requires Harmless(s) && CanLeave(s, w, e)
    ensures Harmless(DoLeave(s, w, e))
  {
    LeaveCounted(s, w, e);
    PutHarm(s.workers, w, if e.Exit? then Gone else Leaving);
  }

  lemma ScaleHarmless(s: Pool, e: ResizeStep)
    requires Harmless(s) && CanScale(s, e)
    ensures Harmless(DoScale(s, e))
  {
    ScaleCounted(s, e);
    AddHarm(s.workers);
  }

  lemma CloseHarmless(s: Pool, e: CloseStep)
    requires Harmless(s) && CanClose(s, e)
    ensures Harmless(DoClose(s, e))
  {
    if e.CloseResults? {
      NobodyPresent(s.workers);
    }
  }

  lemma NextHarmless(s: Pool, e: Event)
    requires Harmless(s)
    ensures Harmless(Next(s, e))
  {
    if Enabled(s, e) {
      match e
      case Submit(x) =>
      case Loop(w, x) => LoopHarmless(s, w, x);
      case Deliver(w, x) => DeliverHarmless(s, w, x);
      case Leave(w, x) => LeaveHarmless(s, w, x);
      case Scale(x) => ScaleHarmless(s, x);
      case Close(x) => CloseHarmless(s, x);
      case Receive =>
    }
  }

  lemma {:induction false} RunHarmless(s: Pool, events: seq<Event>)
    requires Harmless(s)
    ensures !Run(s, events).panicked
    decreases events
  {
    if events != [] {
      NextHarmless(s, events[0]);
      RunHarmless(Next(s, events[0]), events[1..]);
    }
  }

  // ---------- Each of the ways leads to a crash ----------

  lemma Back(s: Pool, e: Event)
    requires CanPanic(Next(s, e))
    ensures CanPanic(s)
  {
    var events :| Run(Next(s, e), events).panicked;
    RunCons(s, e, events);
    assert Run(s, [e] + events).panicked;
  }

  lemma AtOnce(s: Pool)
    requires s.panicked
    ensures CanPanic(s)
  {
    assert Run(s, []).panicked;
  }

  // A worker is stopped with a task in hand.

  /** How much the Resize calls under way have still to do. */
  function Late(s: Pool): nat {
    Growing(s) + if s.resize.Resizing? then 1 else 0
  }

  /** As long as no stop signal is offered the next step of a Resize brings it closer. */
  lemma ScaleOn(s: Pool) returns (e: ResizeStep)
    requires TasksShut(s) && StopToCome(s) && !StopOffered(s) && 1 <= s.workerCount
    ensures CanScale(s, e) && TasksShut(DoScale(s, e)) && StopToCome(DoScale(s, e))
    ensures s.workers <= DoScale(s, e).workers
    ensures DoScale(s, e).resizing < s.resizing
            || (DoScale(s, e).resizing == s.resizing && Late(DoScale(s, e)) < Late(s))
  {
    e := if !s.resize.Resizing? then ResizeBegin(if 2 <= s.workerCount then 1 else 2)
         else if s.resize.grow == 0 then ResizeEnd
         else GrowOne;
    ScaleCounted(s, e);
  }

  lemma {:induction false} HolderPanics(s: Pool, w: nat)
    requires TasksShut(s) && StopToCome(s) && w < |s.workers| && Holds(s.workers[w])
    ensures CanPanic(s)
    decreases s.resizing, Late(s)
  {
    if StopOffered(s) {
      AtOnce(Next(s, Leave(w, StopPanic)));
      Back(s, Leave(w, StopPanic));
    } else {
      CountAtLeast(s.workers, w, Present);
      var e := ScaleOn(s);
      HolderPanics(DoScale(s, e), w);
      Back(s, Scale(e));
    }
  }

  /** What a worker on its way does not change. */
  predicate SameAround(r: Pool, s: Pool) {
    && r.queue == s.queue && r.slots == s.slots && r.resize == s.resize && r.resizing == s.resizing
    && r.workerCount == s.workerCount && r.cancelled == s.cancelled
    && r.closed == s.closed && r.tasksClosed == s.tasksClosed && r.resultsClosed == s.resultsClosed
    && r.panicked == s.panicked
  }

  /** The next step of a worker that carries a task: towards the result channel. */
  lemma CarrierStep(s: Pool, w: nat) returns (e: Event)
    requires TasksShut(s) && w < |s.workers| && Carries(s.workers[w])
    requires s.workers[w].Sending? ==> !s.resultsClosed
    ensures Enabled(s, e)
    ensures var r := Next(s, e);
            && TasksShut(r) && SameAround(r, s)
            && |r.workers| == |s.workers| && r.workers == s.workers[w := r.workers[w]]
            && (if s.workers[w].Sending? then r.workers[w] == Idle else Carries(r.workers[w]))
            && Effort(r.workers[w]) < Effort(s.workers[w])
  {
    if s.workers[w].Sending? {
      var d := if |s.results| < s.queueCap then SendResult else DropResult;
      DeliverCounted(s, w, d);
      e := Deliver(w, d);
    } else {
      var l := if s.workers[w].Admitted? then CountUp
               else if s.workers[w].Running? then Finish
               else if s.workers[w].Done? then ReleaseSlot
               else CountDown;
      LoopCounted(s, w, l);
      e := Loop(w, l);
    }
  }

  /** A worker that carries a task gets one step further. */
  lemma CarrierMoves(s: Pool, w: nat) returns (r: Pool)
    requires TasksShut(s) && w < |s.workers| && Carries(s.workers[w])
    requires s.workers[w].Sending? ==> !s.resultsClosed
    ensures CanPanic(r) ==> CanPanic(s)
    ensures TasksShut(r) && SameAround(r, s) && |r.workers| == |s.workers|
    ensures if s.workers[w].Sending? then r.workers[w] == Idle else Carries(r.workers[w])
    ensures Effort(r.workers[w]) < Effort(s.workers[w])
  {
    var e := CarrierStep(s, w);
    r := Next(s, e);
    if CanPanic(r) {
      Back(s, e);
    }
  }

  /** A worker that is still active comes for a queued task and is stopped with it. */
  lemma {:induction false} TakerPanics(s: Pool, w: nat)
    requires TasksShut(s) && StopToCome(s) && s.queue != [] && w < |s.workers| && Active(s.workers[w])
    ensures CanPanic(s)
    decreases Effort(s.workers[w])
  {
    if s.workers[w].Idle? {
      LoopCounted(s, w, Take);
      HolderPanics(Next(s, Loop(w, Take)), w);
      Back(s, Loop(w, Take));
    } else if s.workers[w].Holding? {
      HolderPanics(s, w);
    } else if s.workers[w].Sending? && s.resultsClosed {
      ReporterPanics(s, w);
    } else {
      var r := CarrierMoves(s, w);
      TakerPanics(r, w);
    }
  }

  lemma ReporterPanics(s: Pool, w: nat)
    requires !s.panicked && s.resultsClosed && w < |s.workers| && s.workers[w].Sending?
    ensures CanPanic(s)
  {
    AtOnce(Next(s, Deliver(w, SendPanic)));
    Back(s, Deliver(w, SendPanic));
  }

  /** A Resize that starts nobody can be brought to an end, if need be by cancellation. */
  lemma FinishResize(s: Pool) returns (r: Pool)
    requires TasksShut(s) && Growing(s) == 0
    ensures CanPanic(r) ==> CanPanic(s)
    ensures r == s.(resize := NoResize, cancelled := r.cancelled)
  {
    if !s.resize.Resizing? {
      r := s;
    } else if s.resize.stop == 0 {
      r := Next(s, Scale(ResizeEnd));
      if CanPanic(r) {
        Back(s, Scale(ResizeEnd));
      }
    } else {
      r := CancelResize(s);
    }
  }

  lemma CancelResize(s: Pool) returns (r: Pool)
    requires TasksShut(s) && StopOffered(s)
    ensures CanPanic(r) ==> CanPanic(s)
    ensures r == s.(resize := NoResize, cancelled := true)
  {
    var c := Next(s, Close(Cancel));
    assert c == s.(cancelled := true);
    r := Next(c, Scale(ResizeCancelled));
    if CanPanic(r) {
      Back(c, Scale(ResizeCancelled));
      Back(s, Close(Cancel));
    }
  }

  /** A late Resize starts a worker for a queued task, another one stops it. */
  lemma StarterPanics(s: Pool)
    requires TasksShut(s) && StopToCome(s) && s.queue != [] && 0 < Growing(s)
    ensures CanPanic(s)
  {
    ScaleCounted(s, GrowOne);
    TakerPanics(Next(s, Scale(GrowOne)), |s.workers|);
    Back(s, Scale(GrowOne));
  }

  lemma TwoResizesPanic(s: Pool)
    requires TasksShut(s) && s.queue != [] && 2 <= s.resizing
    ensures CanPanic(s)
  {
    if 0 < Growing(s) {
      StarterPanics(s);
    } else {
      var r := FinishResize(s);
      StartsTwo(r);
    }
  }

  lemma StartsTwo(s: Pool)
    requires TasksShut(s) && s.queue != [] && 2 <= s.resizing && s.resize == NoResize
    ensures CanPanic(s)
  {
    CountNonNegative(s);
    var e := ResizeBegin(s.workerCount + 2);
    ScaleCounted(s, e);
    StarterPanics(Next(s, Scale(e)));
    Back(s, Scale(e));
  }

  lemma CountNonNegative(s: Pool)
    requires Counted(s)
    ensures 0 <= s.workerCount
  {}

  // A worker is started late and reports to closed results.

  lemma {:induction false} CarrierPanics(s: Pool, w: nat)
    requires TasksShut(s) && s.resultsClosed && w < |s.workers| && Carries(s.workers[w])
    ensures CanPanic(s)
    decreases Effort(s.workers[w])
  {
    if s.workers[w].Sending? {
      ReporterPanics(s, w);
    } else {
      var r := CarrierMoves(s, w);
      CarrierPanics(r, w);
    }
  }

  lemma FreshPanics(s: Pool, w: nat)
    requires TasksShut(s) && s.resultsClosed && s.occupied < s.slots && s.queue != []
    requires w < |s.workers| && s.workers[w] == Idle
    ensures CanPanic(s)
  {
    LoopCounted(s, w, Take);
    var h := Next(s, Loop(w, Take));
    LoopCounted(h, w, AcquireSlot);
    CarrierPanics(Next(h, Loop(w, AcquireSlot)), w);
    Back(h, Loop(w, AcquireSlot));
    Back(s, Loop(w, Take));
  }

  lemma GrowerPanics(s: Pool)
    requires TasksShut(s) && s.resultsClosed && s.occupied < s.slots && s.queue != [] && 0 < Growing(s)
    ensures CanPanic(s)
  {
    ScaleCounted(s, GrowOne);
    FreshPanics(Next(s, Scale(GrowOne)), |s.workers|);
    Back(s, Scale(GrowOne));
  }

  /** Everybody is gone and the results are closed, but a Resize is still to start workers. */
  lemma LatePanics(s: Pool)
    requires TasksShut(s) && s.resultsClosed && 1 <= s.slots && s.queue != [] && Count(s.workers, Present) == 0
    requires 0 < Growing(s) || 0 < s.resizing
    ensures CanPanic(s)
  {
    NobodyPresent(s.workers);
    if 0 < Growing(s) {
      GrowerPanics(s);
    } else {
      var r := FinishResize(s);
      ScaleCounted(r, ResizeBegin(1));
      GrowerPanics(Next(r, Scale(ResizeBegin(1))));
      Back(r, Scale(ResizeBegin(1)));
    }
  }

  /** After a cancellation everybody can leave with the queue as it is. */
  lemma {:induction false} EvacuationPanics(s: Pool)
    requires TasksShut(s) && !s.resultsClosed && s.cancelled && 1 <= s.slots && s.queue != []
    requires 0 < Growing(s) || 0 < s.resizing
    ensures CanPanic(s)
    decreases Remaining(s.workers)
  {
    if Count(s.workers, Present) == 0 {
      LatePanics(Next(s, Close(CloseResults)));
      Back(s, Close(CloseResults));
    } else {
      var w := Someone(s.workers, Present);
      var e := WayOut(s, w);
      RemainingUpdate(s.workers, w, Next(s, e).workers[w]);
      EvacuationPanics(Next(s, e));
      Back(s, e);
    }
  }

  lemma WayOut(s: Pool, w: nat) returns (e: Event)
    requires TasksShut(s) && !s.resultsClosed && s.cancelled && w < |s.workers| && Present(s.workers[w])
    ensures Enabled(s, e)
    ensures var r := Next(s, e);
            && TasksShut(r) && SameAround(r, s.(workerCount := r.workerCount))
            && |r.workers| == |s.workers| && r.workers == s.workers[w := r.workers[w]]
            && Effort(r.workers[w]) < Effort(s.workers[w])
  {
    if s.workers[w].Idle? {
      e := Leaves(s, w, SeeCancel);
    } else if s.workers[w].Holding? {
      e := Leaves(s, w, QuitHolding);
    } else if s.workers[w].Leaving? {
      e := Leaves(s, w, Exit);
    } else {
      e := CarrierStep(s, w);
    }
  }

  lemma Leaves(s: Pool, w: nat, x: LeaveStep) returns (e: Event)
    requires TasksShut(s) && CanLeave(s, w, x) && (x.SeeCancel? || x.QuitHolding? || x.Exit?)
    ensures e == Leave(w, x)
    ensures var r := Next(s, e);
            && TasksShut(r) && SameAround(r, s.(workerCount := r.workerCount))
            && r.workers == s.workers[w := if x.Exit? then Gone else Leaving]
  {
    LeaveCounted(s, w, x);
    e := Leave(w, x);
  }

  lemma LateStartPanics(s: Pool)
    requires TasksShut(s) && !s.resultsClosed && 1 <= s.slots && s.queue != []
    requires 0 < Growing(s) || 0 < s.resizing
    ensures CanPanic(s)
  {
    EvacuationPanics(Next(s, Close(Cancel)));
    Back(s, Close(Cancel));
  }

  /**
   * For every reachable state between the closing of the task channel and that of the results:
   * some continuation crashes exactly if one of the three ways is open.
   */
  lemma PanicExactly(workers: nat, queueSize: nat, events: seq<Event>)
    requires var s := Reach(workers, queueSize, events); s.tasksClosed && !s.resultsClosed && !s.panicked
    ensures CanPanic(Reach(workers, queueSize, events)) <==> MayPanic(Reach(workers, queueSize, events))
  {
    var s := Reach(workers, queueSize, events);
    ReachInv(workers, queueSize, events);
    if !MayPanic(s) {
      forall more ensures !Run(s, more).panicked {
        RunHarmless(s, more);
      }
    } else if 0 < s.submitting {
      AtOnce(Next(s, Submit(SubmitPanic)));
      Back(s, Submit(SubmitPanic));
    } else if StopToCome(s) && TaskToHold(s) {
      StopPanics(s);
    } else {
      LateStartPanics(s);
    }
  }

  lemma StopPanics(s: Pool)
    requires TasksShut(s) && StopToCome(s) && TaskToHold(s)
    ensures CanPanic(s)
  {
    if 0 < Count(s.workers, Holds) {
      var w := Someone(s.workers, Holds);
      HolderPanics(s, w);
    } else if 0 < Count(s.workers, Active) {
      var w := Someone(s.workers, Active);
      TakerPanics(s, w);
    } else if 0 < Growing(s) {
      StarterPanics(s);
    } else {
      TwoResizesPanic(s);
    }
  }

  // ---------- An instance ----------

  function CloseUnderResize(): seq<Event> {
    [Scale(ResizeCheck), Close(CloseFlag), Close(CloseTasks), Scale(ResizeBegin(1))]
  }

  /** A Resize past its check comes to its stop signal after the close; the worker it stops crashes. */
  lemma StopCanPanic()
    ensures Reach(2, 1, TakeOne() + CloseUnderResize() + [Leave(0, StopPanic)]).panicked
  {
    var s0, s1 := New(2, 1), OneTaken(2);
    TakesOne(2);
    RunConcat(s0, TakeOne(), CloseUnderResize());
    RunSnoc(s0, TakeOne() + CloseUnderResize(), Leave(0, StopPanic));
    ClosesUnder(s1);
    StopsHolder(Run(s1, CloseUnderResize()));
  }

  lemma StopsHolder(s: Pool)
    requires s.tasksClosed && !s.panicked && StopOffered(s) && 0 < |s.workers| && s.workers[0].Holding?
    ensures Next(s, Leave(0, StopPanic)).panicked
  {}

  lemma ClosesUnder(s: Pool)
    requires s.started && !s.closed && !s.tasksClosed && !s.panicked && s.resize == NoResize && s.resizing == 0
    requires s.workerCount == 2
    ensures var r := Run(s, CloseUnderResize());
            r.workers == s.workers && r.tasksClosed && StopOffered(r) && !r.panicked
  {
    var s1 := Next(s, Scale(ResizeCheck));
    assert s1 == s.(resizing := 1);
    var s2 := Next(s1, Close(CloseFlag));
    assert s2 == s1.(closed := true);
    var s3 := Next(s2, Close(CloseTasks));
    assert s3.workers == s.workers && s3.tasksClosed && s3.resizing == 1 && s3.workerCount == 2;
    RunOfFour(s, Scale(ResizeCheck), Close(CloseFlag), Close(CloseTasks), Scale(ResizeBegin(1)));
  }
}
