/** The pool as an object: what one goroutine runs on its own, updating the struct in place. */
module PoolObject {
  import opened PoolSpec
  import opened PoolSafety

  datatype SubmitResult = Accepted | QueueFull | ContextCancelled | Crashed

  /** Why a worker stops running: it has returned, waits at a select, or has crashed the program. */
  datatype Halt = Returned | Blocked | Panicked

  datatype ResizeResult = Resized | BadSize | NotRunning | ContextDone | WaitsForLock | WaitsForWorker

  /** The step can be taken and leads from s to r. */
  predicate Legal(s: Pool, e: Event, r: Pool) {
    Enabled(s, e) && r == Next(s, e)
  }

  ghost predicate Links(states: seq<Pool>, events: seq<Event>) {
    |states| == |events| + 1 && forall i :: 0 <= i < |events| ==> Legal(states[i], events[i], states[i + 1])
  }

  /** The steps lead from s to r, each taken when it could be taken. */
  ghost predicate Takes(s: Pool, events: seq<Event>, r: Pool) {
    exists states :: Links(states, events) && states[0] == s && states[|events|] == r
  }

  lemma TakesOneMore(s: Pool, events: seq<Event>, m: Pool, e: Event, r: Pool)
    requires Takes(s, events, m) && Legal(m, e, r)
    ensures Takes(s, events + [e], r)
  {
    var states :| Links(states, events) && states[0] == s && states[|events|] == m;
    assert Links(states + [r], events + [e]);
  }

  lemma {:induction false} LinksRun(states: seq<Pool>, events: seq<Event>)
    requires Links(states, events)
    ensures states[|events|] == Run(states[0], events)
    decreases events
  {
    if events != [] {
      assert Legal(states[0], events[0], states[0 + 1]);
      forall i | 0 <= i < |events| - 1 ensures Legal(states[1..][i], events[1..][i], states[1..][i + 1]) {
        assert Legal(states[i + 1], events[i + 1], states[i + 1 + 1]);
      }
      LinksRun(states[1..], events[1..]);
    }
  }

  lemma TakesRun(s: Pool, events: seq<Event>, r: Pool)
    requires Takes(s, events, r)
    ensures r == Run(s, events)
  {
    var states :| Links(states, events) && states[0] == s && states[|events|] == r;
    LinksRun(states, events);
  }

  /** A step of this worker. */
  predicate Own(e: Event, w: nat) {
    match e
    case Loop(v, _) => v == w
    case Deliver(v, _) => v == w
    case Leave(v, _) => v == w
    case _ => false
  }

  /** Since then only this worker has taken steps. */
  ghost predicate OnlySince(was: seq<Event>, now: seq<Event>, w: nat) {
    |was| <= |now| && was == now[..|was|] && forall i :: |was| <= i < |now| ==> Own(now[i], w)
  }

  /** Since then only a Resize has taken steps, its own and those of workers it stops. */
  ghost predicate ResizeSince(was: seq<Event>, now: seq<Event>) {
    |was| <= |now| && was == now[..|was|]
    && forall i :: |was| <= i < |now| ==> now[i].Scale? || (now[i].Leave? && Stops(now[i].leave))
  }

  predicate Stops(e: LeaveStep) {
    e.StopIdle? || e.StopHolding? || e.StopHandOver?
  }

  /** No step of this worker can be taken. */
  ghost predicate Stuck(s: Pool, w: nat) {
    forall e :: Own(e, w) ==> !Enabled(s, e)
  }

  lemma StuckAtSelect(s: Pool, w: nat)
    requires w < |s.workers| && !s.cancelled && !StopOffered(s)
    requires (s.workers[w] == Idle && s.queue == [] && !s.tasksClosed)
             || (s.workers[w].Holding? && s.slots <= s.occupied)
    ensures Stuck(s, w)
  {
    forall e | Own(e, w) ensures !Enabled(s, e) {
      match e
      case Loop(_, x) => assert !CanLoop(s, w, x);
      case Deliver(_, x) => assert !CanDeliver(s, w, x);
      case Leave(_, x) => assert !CanLeave(s, w, x);
    }
  }

  class WorkerPool {
    const queueSize: nat
    const slots: nat
    var tasks: seq<nat>
    var results: seq<nat>
    var sem: int
    var activeWorkers: int
    var goroutines: seq<Worker>
    var workerCount: int
    var started: bool
    var closed: bool
    var tasksClosed: bool
    var resultsClosed: bool
    var cancelled: bool
    var panicked: bool
    var submitting: nat
    var resizing: nat
    var resize: Resize
    var accepted: nat
    ghost var begun: seq<nat>
    ghost var finished: seq<nat>
    ghost var abandoned: seq<nat>
    ghost var dropped: seq<nat>
    ghost var received: seq<nat>
    ghost var atClose: AtClose
    ghost var history: seq<Event>

    ghost function Abs(): Pool
      reads this
    {
      Pool(queueSize, slots, tasks, results, goroutines, workerCount, sem, activeWorkers,
           started, closed, tasksClosed, resultsClosed, cancelled, panicked,
           submitting, resizing, resize,
           accepted, begun, finished, abandoned, dropped, received, atClose)
    }

    /** The fields are what the steps of the history make of a new pool. */
    ghost predicate Valid()
      reads this
    {
      Takes(New(slots, queueSize), history, Abs())
    }

    constructor (workers: nat, queueSize: nat)
      ensures Valid() && history == [] && slots == workers && this.queueSize == queueSize
    {
      this.queueSize, slots := queueSize, workers;
      tasks, results, goroutines, workerCount, sem, activeWorkers := [], [], [], 0, 0, 0;
      started, closed, tasksClosed, resultsClosed, cancelled, panicked := false, false, false, false, false, false;
      submitting, resizing, resize, accepted := 0, 0, NoResize, 0;
      begun, finished, abandoned, dropped, received, atClose := [], [], [], [], [], NotYet;
      history := [];
      new;
      assert Links([Abs()], []);
    }

    /** What every run of the step system guarantees holds of the object. */
    lemma Reached()
      requires Valid()
      ensures Abs() == Reach(slots, queueSize, history) && Inv(Abs())
    {
      TakesRun(New(slots, queueSize), history, Abs());
      ReachInv(slots, queueSize, history);
    }

    /** Notes a step: the fields have just been changed as it demands. */
    ghost method Note(before: Pool, e: Event)
      requires Takes(New(slots, queueSize), history, before) && Legal(before, e, Abs())
      modifies `history
      ensures Valid() && history == old(history) + [e]
    {
      TakesOneMore(New(slots, queueSize), history, before, e, Abs());
      history := history + [e];
    }

    // ---------- Starting and submitting ----------

    /** Starting the workers, one after the other. */
    method StartLocked()
      modifies `started, `goroutines, `workerCount
      ensures Abs() == Started(old(Abs()))
    {
      if started || closed {
        return;
      }
      started := true;
      ghost var before := goroutines;
      var i := 0;
      assert before + Repeat(0, Idle) == before;
      while i < slots
        invariant 0 <= i <= slots
        invariant started && goroutines == before + Repeat(i, Idle) && workerCount == old(workerCount) + i
      {
        RepeatSnoc(i, Idle);
        assert before + Repeat(i, Idle) + [Idle] == before + Repeat(i + 1, Idle);
        workerCount := workerCount + 1;
        goroutines := goroutines + [Idle];
        i := i + 1;
      }
    }

    method Start()
      requires Valid() && !panicked
      modifies `started, `goroutines, `workerCount, `history
      ensures Valid() && history == old(history) + [Submit(SubmitStep.Start)]
    {
      StartLocked();
      Note(old(Abs()), Submit(SubmitStep.Start));
    }

    /** Submit under the lock. */
    method BeginSubmit() returns (ok: bool)
      requires Valid() && !panicked
      modifies `started, `goroutines, `workerCount, `submitting, `history
      ensures Valid() && history == old(history) + [Submit(SubmitCheck)]
      ensures ok == !closed && submitting == old(submitting) + if ok then 1 else 0
      ensures ok ==> started
    {
      ok := !closed;
      if ok {
        StartLocked();
        submitting := submitting + 1;
      }
      Note(old(Abs()), Submit(SubmitCheck));
    }

    /**
     * The select of Submit. waiting names a worker that already waits at the channel, if there is
     * one: it gets the task directly, whatever the capacity.
     */
    method EndSubmit(waiting: seq<nat>) returns (r: SubmitResult)
      requires Valid() && 0 < submitting && !panicked
      requires waiting != [] ==> tasks == [] && waiting[0] < |goroutines| && goroutines[waiting[0]] == Idle
      modifies `submitting, `tasks, `goroutines, `accepted, `panicked, `history
      ensures !cancelled ==> r == if tasksClosed then Crashed
                                  else if waiting != [] || |old(tasks)| < queueSize then Accepted
                                  else QueueFull
      ensures cancelled ==> r == ContextCancelled
                            || (r == Crashed && tasksClosed)
                            || (r == Accepted && !tasksClosed && (waiting != [] || |old(tasks)| < queueSize))
      ensures Valid() && history == old(history) + [Submit(match r
                                                            case Crashed => SubmitPanic
                                                            case ContextCancelled => SubmitCancelled
                                                            case QueueFull => SubmitFull
                                                            case Accepted => if waiting != []
                                                                             then SubmitHandOver(waiting[0])
                                                                             else SubmitAccept)]
    {
      hide Valid;
      if {
        case tasksClosed =>
          SendOnClosed();
          r := Crashed;
        case !tasksClosed && waiting != [] =>
          HandOver(waiting[0]);
          r := Accepted;
        case !tasksClosed && waiting == [] && |tasks| < queueSize =>
          Enqueue();
          r := Accepted;
        case cancelled =>
          GiveUp(SubmitCancelled);
          r := ContextCancelled;
        case !tasksClosed && waiting == [] && queueSize <= |tasks| && !cancelled =>
          GiveUp(SubmitFull);
          r := QueueFull;
      }
    }

    method SendOnClosed()
      requires Valid() && 0 < submitting && !panicked && tasksClosed
      modifies `panicked, `history
      ensures Valid() && history == old(history) + [Submit(SubmitPanic)]
    {
      panicked := true;
      Note(old(Abs()), Submit(SubmitPanic));
    }

    method GiveUp(why: SubmitStep)
      requires Valid() && 0 < submitting && !panicked
      requires why.SubmitCancelled? || why.SubmitFull?
      requires why.SubmitCancelled? ==> cancelled
      requires why.SubmitFull? ==> !tasksClosed && !cancelled && queueSize <= |tasks|
      modifies `submitting, `history
      ensures Valid() && history == old(history) + [Submit(why)]
    {
      submitting := submitting - 1;
      Note(old(Abs()), Submit(why));
    }

    method HandOver(w: nat)
      requires Valid() && 0 < submitting && !panicked && !tasksClosed
      requires tasks == [] && w < |goroutines| && goroutines[w] == Idle
      modifies `submitting, `goroutines, `accepted, `history
      ensures Valid() && history == old(history) + [Submit(SubmitHandOver(w))]
    {
      submitting, goroutines, accepted := submitting - 1, goroutines[w := Holding(accepted)], accepted + 1;
      Note(old(Abs()), Submit(SubmitHandOver(w)));
    }

    method Enqueue()
      requires Valid() && 0 < submitting && !panicked && !tasksClosed && |tasks| < queueSize
      modifies `submitting, `tasks, `accepted, `history
      ensures Valid() && history == old(history) + [Submit(SubmitAccept)]
    {
      submitting, tasks, accepted := submitting - 1, tasks + [accepted], accepted + 1;
      Note(old(Abs()), Submit(SubmitAccept));
    }

    // ---------- The worker loop ----------

    /** Somebody sends on the channel of stop signals. */
    predicate StopSignal()
      reads this
    {
      resize.Resizing? && 0 < resize.stop
    }

    method Dequeue(w: nat)
      requires Valid() && !panicked && w < |goroutines| && goroutines[w] == Idle && tasks != []
      modifies `goroutines, `tasks, `history
      ensures Valid() && history == old(history) + [Loop(w, Take)]
      ensures goroutines == old(goroutines)[w := Holding(old(tasks)[0])] && tasks == old(tasks)[1..]
    {
      goroutines, tasks := goroutines[w := Holding(tasks[0])], tasks[1..];
      Note(old(Abs()), Loop(w, Take));
    }

    method AcquireSem(w: nat)
      requires Valid() && !panicked && w < |goroutines| && goroutines[w].Holding? && sem < slots
      modifies `goroutines, `sem, `history
      ensures Valid() && history == old(history) + [Loop(w, AcquireSlot)]
      ensures goroutines == old(goroutines)[w := Admitted(old(goroutines)[w].task)] && sem == old(sem) + 1
    {
      goroutines, sem := goroutines[w := Admitted(goroutines[w].task)], sem + 1;
      Note(old(Abs()), Loop(w, AcquireSlot));
    }

    method CountActive(w: nat)
      requires Valid() && !panicked && w < |goroutines| && goroutines[w].Admitted?
      modifies `goroutines, `activeWorkers, `begun, `history
      ensures Valid() && history == old(history) + [Loop(w, CountUp)]
      ensures goroutines == old(goroutines)[w := Running(old(goroutines)[w].task)]
      ensures activeWorkers == old(activeWorkers) + 1 && begun == old(begun) + [old(goroutines)[w].task]
    {
      begun := begun + [goroutines[w].task];
      goroutines, activeWorkers := goroutines[w := Running(goroutines[w].task)], activeWorkers + 1;
      Note(old(Abs()), Loop(w, CountUp));
    }

    /** executeTask returns; a panic of the task has become an error result. */
    method ExecuteTask(w: nat)
      requires Valid() && !panicked && w < |goroutines| && goroutines[w].Running?
      modifies `goroutines, `finished, `history
      ensures Valid() && history == old(history) + [Loop(w, Finish)]
      ensures goroutines == old(goroutines)[w := Done(old(goroutines)[w].task)]
    {
      finished, goroutines := finished + [goroutines[w].task], goroutines[w := Done(goroutines[w].task)];
      Note(old(Abs()), Loop(w, Finish));
    }

    method ReleaseSem(w: nat)
      requires Valid() && !panicked && w < |goroutines| && goroutines[w].Done?
      modifies `goroutines, `sem, `history
      ensures Valid() && history == old(history) + [Loop(w, ReleaseSlot)]
      ensures goroutines == old(goroutines)[w := Released(old(goroutines)[w].task)] && sem == old(sem) - 1
    {
      goroutines, sem := goroutines[w := Released(goroutines[w].task)], sem - 1;
      Note(old(Abs()), Loop(w, ReleaseSlot));
    }

    method UncountActive(w: nat)
      requires Valid() && !panicked && w < |goroutines| && goroutines[w].Released?
      modifies `goroutines, `activeWorkers, `history
      ensures Valid() && history == old(history) + [Loop(w, CountDown)]
      ensures goroutines == old(goroutines)[w := Sending(old(goroutines)[w].task)]
      ensures activeWorkers == old(activeWorkers) - 1
    {
      goroutines, activeWorkers := goroutines[w := Sending(goroutines[w].task)], activeWorkers - 1;
      Note(old(Abs()), Loop(w, CountDown));
    }

    /** The body of the loop from the granted slot to the result. */
    method RunTask(w: nat)
      requires Valid() && !panicked && w < |goroutines| && goroutines[w].Holding? && sem < slots
      modifies `goroutines, `sem, `activeWorkers, `begun, `finished, `history
      ensures Valid() && OnlySince(old(history), history, w)
      ensures goroutines == old(goroutines)[w := Sending(old(goroutines)[w].task)]
      ensures sem == old(sem) && activeWorkers == old(activeWorkers)
      ensures begun == old(begun) + [old(goroutines)[w].task]
    {
      hide Valid;
      AcquireSem(w);
      CountActive(w);
      ExecuteTask(w);
      ReleaseSem(w);
      UncountActive(w);
    }

    /** The non-blocking send of a result, which a consumer may be waiting for. */
    method Report(w: nat)
      requires Valid() && !panicked && w < |goroutines| && goroutines[w].Sending?
      modifies `goroutines, `results, `received, `dropped, `panicked, `history
      ensures Valid() && OnlySince(old(history), history, w)
      ensures panicked == resultsClosed
      ensures !panicked ==> goroutines == old(goroutines)[w := Idle]
      ensures !panicked ==> dropped == old(dropped)
                            || (queueSize <= |old(results)| && dropped == old(dropped) + [old(goroutines)[w].task])
    {
      hide Valid;
      if {
        case resultsClosed => SendToClosed(w);
        case !resultsClosed && |results| < queueSize => SendResult(w);
        case !resultsClosed && results == [] => SendToConsumer(w);
        case !resultsClosed && queueSize <= |results| => DropResult(w);
      }
    }

    method SendToClosed(w: nat)
      requires Valid() && !panicked && w < |goroutines| && goroutines[w].Sending? && resultsClosed
      modifies `panicked, `history
      ensures Valid() && history == old(history) + [Deliver(w, SendPanic)] && panicked
    {
      panicked := true;
      Note(old(Abs()), Deliver(w, SendPanic));
    }

    method SendResult(w: nat)
      requires Valid() && !panicked && w < |goroutines| && goroutines[w].Sending?
      requires !resultsClosed && |results| < queueSize
      modifies `goroutines, `results, `history
      ensures Valid() && history == old(history) + [Deliver(w, DeliverStep.SendResult)]
      ensures goroutines == old(goroutines)[w := Idle]
    {
      results, goroutines := results + [goroutines[w].task], goroutines[w := Idle];
      Note(old(Abs()), Deliver(w, DeliverStep.SendResult));
    }

    method SendToConsumer(w: nat)
      requires Valid() && !panicked && w < |goroutines| && goroutines[w].Sending? && !resultsClosed && results == []
      modifies `goroutines, `received, `history
      ensures Valid() && history == old(history) + [Deliver(w, SendDirect)]
      ensures goroutines == old(goroutines)[w := Idle]
    {
      received, goroutines := received + [goroutines[w].task], goroutines[w := Idle];
      Note(old(Abs()), Deliver(w, SendDirect));
    }

    method DropResult(w: nat)
      requires Valid() && !panicked && w < |goroutines| && goroutines[w].Sending?
      requires !resultsClosed && queueSize <= |results|
      modifies `goroutines, `dropped, `history
      ensures Valid() && history == old(history) + [Deliver(w, DeliverStep.DropResult)]
      ensures goroutines == old(goroutines)[w := Idle] && dropped == old(dropped) + [old(goroutines)[w].task]
    {
      dropped, goroutines := dropped + [goroutines[w].task], goroutines[w := Idle];
      Note(old(Abs()), Deliver(w, DeliverStep.DropResult));
    }

    /** A worker without a task takes one of the ways out of the outer select. */
    method LeaveIdle(w: nat, way: LeaveStep)
      requires Valid() && !panicked && w < |goroutines| && goroutines[w] == Idle
      requires way.SeeClosed? || way.SeeCancel? || way.StopIdle?
      requires way.SeeClosed? ==> tasks == [] && tasksClosed
      requires way.SeeCancel? ==> cancelled
      requires way.StopIdle? ==> StopSignal()
      modifies `goroutines, `resize, `history
      ensures Valid() && history == old(history) + [Leave(w, way)]
      ensures goroutines == old(goroutines)[w := Leaving]
      ensures resize == if way.StopIdle? then StopOne(old(resize)) else old(resize)
    {
      goroutines := goroutines[w := Leaving];
      if way.StopIdle? {
        resize := StopOne(resize);
      }
      Note(old(Abs()), Leave(w, way));
    }

    method QuitWithTask(w: nat)
      requires Valid() && !panicked && w < |goroutines| && goroutines[w].Holding? && cancelled
      modifies `goroutines, `abandoned, `history
      ensures Valid() && history == old(history) + [Leave(w, QuitHolding)]
      ensures goroutines == old(goroutines)[w := Leaving]
    {
      abandoned := abandoned + [goroutines[w].task];
      goroutines := goroutines[w := Leaving];
      Note(old(Abs()), Leave(w, QuitHolding));
    }

    /** A stopped worker puts its task back: into the channel, to a waiting worker, or nowhere. */
    method PutBack(w: nat)
      requires Valid() && !panicked && w < |goroutines| && goroutines[w].Holding? && StopSignal()
      modifies `goroutines, `tasks, `abandoned, `resize, `panicked, `history
      ensures Valid() && OnlySince(old(history), history, w)
      ensures !tasksClosed ==> ResizeSince(old(history), history)
      ensures panicked == tasksClosed
      ensures !panicked ==> |goroutines| == |old(goroutines)| && goroutines[w] == Leaving
                            && resize == StopOne(old(resize))
      ensures !panicked ==> abandoned == old(abandoned)
                            || (queueSize <= |old(tasks)| && abandoned == old(abandoned) + [old(goroutines)[w].task])
    {
      hide Valid;
      if {
        case tasksClosed =>
          PutOnClosed(w);
        case !tasksClosed && |tasks| < queueSize =>
          PutInto(w);
        case !tasksClosed && queueSize <= |tasks| =>
          LoseTask(w);
        case v: nat :| !tasksClosed && tasks == [] && v < |goroutines| && goroutines[v] == Idle =>
          PassOn(w, v);
      }
    }

    method PutOnClosed(w: nat)
      requires Valid() && !panicked && tasksClosed && w < |goroutines| && goroutines[w].Holding? && StopSignal()
      modifies `panicked, `history
      ensures Valid() && history == old(history) + [Leave(w, StopPanic)] && panicked
    {
      panicked := true;
      Note(old(Abs()), Leave(w, StopPanic));
    }

    method PutInto(w: nat)
      requires Valid() && !panicked && !tasksClosed && w < |goroutines| && goroutines[w].Holding? && StopSignal()
      requires |tasks| < queueSize
      modifies `goroutines, `tasks, `resize, `history
      ensures Valid() && history == old(history) + [Leave(w, StopHolding)]
      ensures goroutines == old(goroutines)[w := Leaving] && resize == StopOne(old(resize))
      ensures tasks == old(tasks) + [old(goroutines)[w].task]
    {
      tasks := tasks + [goroutines[w].task];
      goroutines, resize := goroutines[w := Leaving], StopOne(resize);
      Note(old(Abs()), Leave(w, StopHolding));
    }

    method LoseTask(w: nat)
      requires Valid() && !panicked && !tasksClosed && w < |goroutines| && goroutines[w].Holding? && StopSignal()
      requires queueSize <= |tasks|
      modifies `goroutines, `abandoned, `resize, `history
      ensures Valid() && history == old(history) + [Leave(w, StopHolding)]
      ensures goroutines == old(goroutines)[w := Leaving] && resize == StopOne(old(resize))
      ensures abandoned == old(abandoned) + [old(goroutines)[w].task]
    {
      abandoned := abandoned + [goroutines[w].task];
      goroutines, resize := goroutines[w := Leaving], StopOne(resize);
      Note(old(Abs()), Leave(w, StopHolding));
    }

    method PassOn(w: nat, v: nat)
      requires Valid() && !panicked && !tasksClosed && w < |goroutines| && goroutines[w].Holding? && StopSignal()
      requires tasks == [] && v < |goroutines| && goroutines[v] == Idle
      modifies `goroutines, `resize, `history
      ensures Valid() && history == old(history) + [Leave(w, StopHandOver(v))]
      ensures goroutines == old(goroutines)[w := Leaving][v := Holding(old(goroutines)[w].task)]
      ensures resize == StopOne(old(resize))
    {
      goroutines := goroutines[w := Leaving][v := Holding(goroutines[w].task)];
      resize := StopOne(resize);
      Note(old(Abs()), Leave(w, StopHandOver(v)));
    }

    /** The deferred counters of a worker that returns. */
    method ExitWorker(w: nat)
      requires Valid() && !panicked && w < |goroutines| && goroutines[w] == Leaving
      modifies `goroutines, `workerCount, `history
      ensures Valid() && history == old(history) + [Leave(w, Exit)]
      ensures goroutines == old(goroutines)[w := Gone] && workerCount == old(workerCount) - 1
    {
      goroutines, workerCount := goroutines[w := Gone], workerCount - 1;
      Note(old(Abs()), Leave(w, Exit));
    }

    /** The inner select and what follows, for a worker that has just taken a task. */
    method Serve(w: nat) returns (h: Halt, again: bool)
      requires Valid() && !panicked && w < |goroutines| && goroutines[w].Holding?
      modifies this
      ensures Valid() && OnlySince(old(history), history, w)
      ensures again ==> !panicked && w < |goroutines| && goroutines[w] == Idle && tasks == old(tasks)
      ensures !again ==> HaltedAs(h, w)
    {
      hide Valid;
      again := false;
      if {
        case sem < slots =>
          RunTask(w);
          Report(w);
          h, again := Panicked, !panicked;
        case cancelled =>
          QuitWithTask(w);
          ExitWorker(w);
          h := Returned;
        case StopSignal() =>
          PutBack(w);
          if panicked {
            return Panicked, false;
          }
          ExitWorker(w);
          h := Returned;
        case slots <= sem && !cancelled && !StopSignal() =>
          StuckAtSelect(Abs(), w);
          h := Blocked;
      }
    }

    ghost predicate HaltedAs(h: Halt, w: nat)
      reads this
    {
      && panicked == h.Panicked?
      && (h.Returned? ==> w < |goroutines| && goroutines[w] == Gone)
      && (h.Blocked? ==> Stuck(Abs(), w))
    }

    /**
     * The goroutine of a worker, from the outer select until it cannot go on by itself: for every
     * choice of the selects its steps are steps of the system, it leaves nothing half done, and
     * it stops only when it has returned, no step of it is possible, or the program has crashed.
     */
    method Worker(w: nat) returns (h: Halt)
      requires Valid() && !panicked && w < |goroutines| && goroutines[w] == Idle
      modifies this
      ensures Valid() && OnlySince(old(history), history, w)
      ensures HaltedAs(h, w)
    {
      hide Valid;
      while true
        invariant Valid() && !panicked && w < |goroutines| && goroutines[w] == Idle
        invariant OnlySince(old(history), history, w)
        decreases |tasks|
      {
        if {
          case cancelled =>
            LeaveIdle(w, SeeCancel);
            break;
          case StopSignal() =>
            LeaveIdle(w, StopIdle);
            break;
          case tasks == [] && tasksClosed =>
            LeaveIdle(w, SeeClosed);
            break;
          case tasks != [] =>
            Dequeue(w);
            var again;
            h, again := Serve(w);
            if !again {
              return;
            }
          case tasks == [] && !tasksClosed && !cancelled && !StopSignal() =>
            StuckAtSelect(Abs(), w);
            return Blocked;
        }
      }
      ExitWorker(w);
      return Returned;
    }

    // ---------- Resize ----------

    method PassCheck()
      requires Valid() && !panicked && started && !closed
      modifies `resizing, `history
      ensures Valid() && history == old(history) + [Scale(ResizeCheck)] && resizing == old(resizing) + 1
    {
      resizing := resizing + 1;
      Note(old(Abs()), Scale(ResizeCheck));
    }

    /** The lock is taken and the worker count read. */
    method BeginResize(newSize: int)
      requires Valid() && !panicked && 0 < resizing && resize == NoResize && 0 < newSize
      modifies `resizing, `resize, `history
      ensures Valid() && history == old(history) + [Scale(ResizeBegin(newSize))]
      ensures resize == Resizing(newSize, if workerCount < newSize then newSize - workerCount else 0,
                                 if newSize < workerCount then workerCount - newSize else 0,
                                 Count(goroutines, PoolSpec.Returned))
    {
      var pending := Count(goroutines, PoolSpec.Returned);
      resizing := resizing - 1;
      resize := Resizing(newSize, if workerCount < newSize then newSize - workerCount else 0,
                         if newSize < workerCount then workerCount - newSize else 0, pending);
      assert resize == Plan(old(Abs()), newSize);
      Note(old(Abs()), Scale(ResizeBegin(newSize)));
    }

    method StartWorker()
      requires Valid() && !panicked && resize.Resizing? && 0 < resize.grow
      modifies `goroutines, `workerCount, `resize, `history
      ensures Valid() && history == old(history) + [Scale(GrowOne)]
      ensures goroutines == old(goroutines) + [Idle] && resize == old(resize).(grow := old(resize).grow - 1)
      ensures workerCount == old(workerCount) + 1
    {
      goroutines, workerCount := goroutines + [Idle], workerCount + 1;
      resize := resize.(grow := resize.grow - 1);
      Note(old(Abs()), Scale(GrowOne));
    }

    method EndResize(how: ResizeStep)
      requires Valid() && !panicked && resize.Resizing?
      requires how.ResizeEnd? || how.ResizeCancelled?
      requires how.ResizeEnd? ==> resize.grow == 0 && resize.stop == 0
      requires how.ResizeCancelled? ==> StopSignal() && cancelled
      modifies `resize, `history
      ensures Valid() && history == old(history) + [Scale(how)] && resize == NoResize
    {
      resize := NoResize;
      Note(old(Abs()), Scale(how));
    }

    /** Scaling up: the missing workers are started one after the other. */
    method ScaleUp(currentCount: int, newSize: int)
      requires Valid() && !panicked && resize.Resizing? && resize.grow == newSize - currentCount
      modifies `goroutines, `workerCount, `resize, `history
      ensures Valid() && ResizeSince(old(history), history)
      ensures resize == old(resize).(grow := 0)
      ensures goroutines == old(goroutines) + Repeat(newSize - currentCount, Idle)
    {
      hide Valid;
      ghost var before := goroutines;
      assert before + Repeat(0, Idle) == before;
      for i := currentCount to newSize
        invariant Valid() && ResizeSince(old(history), history)
        invariant resize == old(resize).(grow := newSize - i)
        invariant goroutines == before + Repeat(i - currentCount, Idle)
      {
        RepeatSnoc(i - currentCount, Idle);
        assert before + Repeat(i - currentCount, Idle) + [Idle] == before + Repeat(i + 1 - currentCount, Idle);
        StartWorker();
      }
    }

    /**
     * Scaling down: every signal needs a worker that receives it, at the outer select or waiting
     * for the semaphore. The runtime picks one.
     */
    method ScaleDown(toRemove: nat) returns (r: ResizeResult)
      requires Valid() && !panicked && !tasksClosed && resize.Resizing? && resize.stop == toRemove
      modifies `goroutines, `tasks, `abandoned, `resize, `panicked, `history
      ensures Valid() && !panicked && ResizeSince(old(history), history)
      ensures r.Resized? ==> resize == old(resize).(stop := 0)
      ensures r.ContextDone? ==> cancelled && resize == NoResize
      ensures r.WaitsForWorker? ==> StopSignal() && !cancelled
                                    && forall v :: v in goroutines ==> !v.Idle? && !v.Holding?
      ensures r.Resized? || r.ContextDone? || r.WaitsForWorker?
    {
      hide Valid;
      for i := 0 to toRemove
        invariant Valid() && !panicked && ResizeSince(old(history), history)
        invariant resize == old(resize).(stop := toRemove - i)
      {
        if {
          case w: nat :| w < |goroutines| && goroutines[w] == Idle =>
            LeaveIdle(w, StopIdle);
          case w: nat :| w < |goroutines| && goroutines[w].Holding? =>
            PutBack(w);
          case cancelled =>
            EndResize(ResizeCancelled);
            return ContextDone;
          case !cancelled && forall v :: v in goroutines ==> !v.Idle? && !v.Holding? =>
            return WaitsForWorker;
        }
      }
      return Resized;
    }

    /** What a Resize that is about to end has done. */
    lemma HitsTarget()
      requires Valid() && resize.Resizing? && resize.grow == 0 && resize.stop == 0 && !cancelled && !tasksClosed
      ensures Count(goroutines, Active) == resize.target - resize.pending
    {
      Reached();
    }

    lemma StillOpen()
      requires Valid() && !closed
      ensures !tasksClosed
    {
      Reached();
    }

    /**
     * Resize. When it succeeds, so many workers have not been told to stop as were asked for,
     * less those that had returned but were still counted.
     */
    method Resize(newSize: int) returns (r: ResizeResult)
      requires Valid() && !panicked
      modifies this
      ensures Valid() && !panicked && ResizeSince(old(history), history)
      ensures r.BadSize? <==> newSize <= 0
      ensures r.NotRunning? <==> 0 < newSize && (!old(started) || old(closed))
      ensures r.BadSize? || r.NotRunning? ==> history == old(history)
      ensures r.WaitsForLock? ==> old(resize) != NoResize
      ensures r.ContextDone? ==> cancelled
      ensures r.WaitsForWorker? ==> StopSignal() && !cancelled
                                    && forall v :: v in goroutines ==> !v.Idle? && !v.Holding?
      ensures r.Resized? ==> resize == NoResize
      ensures r.Resized? && !cancelled
              ==> Count(goroutines, Active) == newSize - Count(old(goroutines), PoolSpec.Returned)
    {
      hide Valid;
      if newSize <= 0 {
        return BadSize;
      }
      if !started || closed {
        return NotRunning;
      }
      PassCheck();
      if resize != NoResize {
        return WaitsForLock;
      }
      r := Rescale(newSize);
    }

    /** Resize under its lock. */
    method Rescale(newSize: int) returns (r: ResizeResult)
      requires Valid() && !panicked && !closed && 0 < resizing && resize == NoResize && 0 < newSize
      modifies this
      ensures Valid() && !panicked && ResizeSince(old(history), history)
      ensures r.ContextDone? ==> cancelled
      ensures r.WaitsForWorker? ==> StopSignal() && !cancelled
                                    && forall v :: v in goroutines ==> !v.Idle? && !v.Holding?
      ensures r.Resized? ==> resize == NoResize
      ensures r.Resized? && !cancelled
              ==> Count(goroutines, Active) == newSize - Count(old(goroutines), PoolSpec.Returned)
      ensures r.Resized? || r.ContextDone? || r.WaitsForWorker?
    {
      hide Valid;
      StillOpen();
      var currentCount := workerCount;
      BeginResize(newSize);
      if currentCount < newSize {
        ScaleUp(currentCount, newSize);
      } else if newSize < currentCount {
        r := ScaleDown(currentCount - newSize);
        if !r.Resized? {
          return;
        }
      }
      if !cancelled {
        HitsTarget();
      }
      EndResize(ResizeEnd);
      return Resized;
    }
  }

  lemma {:induction false} RepeatSnoc(n: nat, x: Worker)
    ensures Repeat(n + 1, x) == Repeat(n, x) + [x]
  {
    if n != 0 {
      RepeatSnoc(n - 1, x);
    }
  }
}
