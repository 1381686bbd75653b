/** Map and ParallelExecute: a pool with as much queue as items, one submitter, one collector. */
module PoolMap {
  import opened PoolSpec
  import opened PoolSafety
  import opened PoolOrder

  /**
   * One call. The submitting goroutine has offered so many of the n tasks and submitted so many
   * successfully; afterwards it collects into a channel with room for all, which it closes at
   * the end. The caller has read so many results from that channel; then it stops the pool.
   */
  datatype Job = Job(pool: Pool, n: nat, offered: nat, submitted: nat, read: nat, closed: bool)

  datatype Step =
    | Offer | Accept | AcceptDirect(to: nat) | Refuse
    | Work(w: nat, loop: LoopStep)
    | Report(w: nat, deliver: DeliverStep)
    | Collect | CloseChannel | Read
    | Stop(close: CloseStep)
    | Quit(w: nat, leave: LeaveStep)

  function NewJob(workers: nat, n: nat): Job {
    Job(New(workers, n), n, 0, 0, 0, false)
  }

  /** All tasks have been offered and the last Submit has returned. */
  predicate Offered(j: Job) {
    j.offered == j.n && j.pool.submitting == 0
  }

  predicate Waiting(j: Job) {
    Offered(j) && |j.pool.received| < j.submitted
  }

  /** The caller's range loop is over. */
  predicate Collected(j: Job) {
    j.closed && j.read == |j.pool.received|
  }

  /** The deferred Stop has waited for all workers: the call returns. */
  predicate Returned(j: Job) {
    j.pool.resultsClosed
  }

  /** Stop cancels, then shuts down. */
  predicate CanStop(j: Job, e: CloseStep) {
    match e
    case Cancel => Collected(j) && !j.pool.cancelled
    case CloseFlag => j.pool.cancelled && CanClose(j.pool, e)
    case _ => CanClose(j.pool, e)
  }

  predicate Can(j: Job, e: Step) {
    !j.pool.panicked &&
    match e
    case Offer => j.offered < j.n && j.pool.submitting == 0
    case Accept => CanSubmit(j.pool, SubmitAccept)
    case AcceptDirect(to) => CanSubmit(j.pool, SubmitHandOver(to))
    case Refuse => CanSubmit(j.pool, SubmitFull)
    case Work(w, x) => CanLoop(j.pool, w, x)
    case Report(w, x) => CanDeliver(j.pool, w, x) && (x.SendDirect? ==> Waiting(j))
    case Collect => Waiting(j) && j.pool.results != []
    case CloseChannel => Offered(j) && j.submitted <= |j.pool.received| && !j.closed
    case Read => j.read < |j.pool.received|
    case Stop(x) => CanStop(j, x)
    case Quit(w, x) => CanLeave(j.pool, w, x)
  }

  function Do(j: Job, e: Step): Job
    requires Can(j, e)
  {
    match e
    case Offer => j.(pool := DoSubmit(j.pool, SubmitCheck), offered := j.offered + 1)
    case Accept => j.(pool := DoSubmit(j.pool, SubmitAccept), submitted := j.submitted + 1)
    case AcceptDirect(to) => j.(pool := DoSubmit(j.pool, SubmitHandOver(to)), submitted := j.submitted + 1)
    case Refuse => j.(pool := DoSubmit(j.pool, SubmitFull))
    case Work(w, x) => j.(pool := DoLoop(j.pool, w, x))
    case Report(w, x) => j.(pool := DoDeliver(j.pool, w, x))
    case Collect => j.(pool := DoReceive(j.pool))
    case CloseChannel => j.(closed := true)
    case Read => j.(read := j.read + 1)
    case Stop(x) => j.(pool := DoClose(j.pool, x))
    case Quit(w, x) => j.(pool := DoLeave(j.pool, w, x))
  }

  function Run(j: Job, steps: seq<Step>): Job
    decreases steps
  {
    if steps == [] then j else Run(if Can(j, steps[0]) then Do(j, steps[0]) else j, steps[1..])
  }

  // ---------- How many tasks are where ----------

  /** The numbers behind conservation. */
  predicate Numbers(p: Pool) {
    && |p.queue| + Count(p.workers, HasTask) + |p.begun| == p.accepted
    && Count(p.workers, Executing) + |p.finished| == |p.begun|
    && Count(p.workers, Finishing) + |p.results| + |p.received| + |p.dropped| == |p.finished|
  }

  lemma PutNumbers(ws: seq<Worker>, w: nat, x: Worker)
    requires w < |ws|
    ensures Count(ws[w := x], HasTask) == Count(ws, HasTask) - One(HasTask(ws[w])) + One(HasTask(x))
    ensures Count(ws[w := x], Executing) == Count(ws, Executing) - One(Executing(ws[w])) + One(Executing(x))
    ensures Count(ws[w := x], Finishing) == Count(ws, Finishing) - One(Finishing(ws[w])) + One(Finishing(x))
    ensures Remaining(ws[w := x]) == Remaining(ws) - Effort(ws[w]) + Effort(x)
  {
    CountUpdate(ws, w, x, HasTask);
    CountUpdate(ws, w, x, Executing);
    CountUpdate(ws, w, x, Finishing);
    RemainingUpdate(ws, w, x);
  }

  lemma StartedNumbers(n: nat)
    ensures Count(Repeat(n, Idle), HasTask) == Count(Repeat(n, Idle), Executing) == 0
    ensures Count(Repeat(n, Idle), Finishing) == 0 && Remaining(Repeat(n, Idle)) == 2 * n
  {
    CountRepeat(n, Idle, HasTask);
    CountRepeat(n, Idle, Executing);
    CountRepeat(n, Idle, Finishing);
    RemainingRepeat(n);
  }

  // ---------- The invariant ----------

  /** Nothing but the map itself happens to the pool, and it stops it only at the end. */
  predicate Undisturbed(p: Pool) {
    && !p.panicked && p.resize == NoResize
    && (p.closed ==> p.cancelled) && (p.tasksClosed ==> p.closed) && (p.resultsClosed ==> p.tasksClosed)
    && (!p.cancelled ==> forall k :: 0 <= k < |p.workers| ==> Active(p.workers[k]))
    && |p.workers| == (if p.started then p.slots else 0)
    && p.dropped == [] && p.abandoned == []
  }

  predicate Inv(j: Job) {
    && Counted(j.pool) && Numbers(j.pool) && Undisturbed(j.pool)
    && j.pool.queueCap == j.n
    && j.pool.submitting <= 1
    && j.pool.accepted + j.pool.submitting == j.offered <= j.n
    && j.submitted == j.pool.accepted
    && (0 < j.offered <==> j.pool.started)
    && j.read <= |j.pool.received|
    && (j.closed ==> Offered(j) && |j.pool.received| == j.submitted)
    && (j.pool.cancelled ==> Collected(j))
  }

  lemma NewJobInv(workers: nat, n: nat)
    ensures Inv(NewJob(workers, n))
  {}

  lemma OfferInv(j: Job)
    requires Inv(j) && Can(j, Offer)
    ensures Inv(Do(j, Offer)) && SameConfig(Do(j, Offer).pool, j.pool)
  {
    SubmitCounted(j.pool, SubmitCheck);
    if !j.pool.started {
      assert j.pool.workers == [];
      StartedNumbers(j.pool.slots);
      CountRepeat(j.pool.slots, Idle, Active);
      assert [] + Repeat(j.pool.slots, Idle) == Repeat(j.pool.slots, Idle);
    }
  }

  lemma AcceptInv(j: Job)
    requires Inv(j) && Can(j, Accept)
    ensures Inv(Do(j, Accept)) && SameConfig(Do(j, Accept).pool, j.pool)
  {
    SubmitCounted(j.pool, SubmitAccept);
  }

  lemma AcceptDirectInv(j: Job, to: nat)
    requires Inv(j) && Can(j, AcceptDirect(to))
    ensures Inv(Do(j, AcceptDirect(to))) && SameConfig(Do(j, AcceptDirect(to)).pool, j.pool)
  {
    SubmitCounted(j.pool, SubmitHandOver(to));
    PutNumbers(j.pool.workers, to, Holding(j.pool.accepted));
  }

  /** No submission is ever refused: fewer tasks have been accepted than fit. */
  lemma NeverRefused(j: Job)
    requires Inv(j)
    ensures !Can(j, Refuse)
    ensures 0 < j.pool.submitting ==> Can(j, Accept)
  {}

  /** After everything has been collected the workers have nothing more in hand. */
  lemma NothingInHand(j: Job)
    requires Inv(j) && j.closed
    ensures j.pool.queue == j.pool.results == []
    ensures forall k :: 0 <= k < |j.pool.workers|
                        ==> j.pool.workers[k].Idle? || j.pool.workers[k].Leaving? || j.pool.workers[k].Gone?
  {
    CountNone(j.pool.workers, HasTask);
    CountNone(j.pool.workers, Executing);
    CountNone(j.pool.workers, Finishing);
  }

  /** No result is ever dropped: fewer results exist than fit. */
  lemma NeverDropped(j: Job, w: nat)
    requires Inv(j)
    ensures !Can(j, Report(w, DropResult)) && !Can(j, Report(w, SendPanic))
    ensures w < |j.pool.workers| && j.pool.workers[w].Sending? ==> Can(j, Report(w, SendResult))
  {
    if w < |j.pool.workers| && j.pool.workers[w].Sending? {
      CountAtLeast(j.pool.workers, w, Finishing);
      if j.closed {
        NothingInHand(j);
        assert false;
      }
    }
  }

  lemma LoopNumbers(p: Pool, w: nat, x: LoopStep)
    requires Numbers(p) && CanLoop(p, w, x)
    ensures Numbers(DoLoop(p, w, x))
  {
    match x
    case Take => PutNumbers(p.workers, w, Holding(p.queue[0]));
    case AcquireSlot => PutNumbers(p.workers, w, Admitted(p.workers[w].task));
    case CountUp => PutNumbers(p.workers, w, Running(p.workers[w].task));
    case Finish => PutNumbers(p.workers, w, Done(p.workers[w].task));
    case ReleaseSlot => PutNumbers(p.workers, w, Released(p.workers[w].task));
    case CountDown => PutNumbers(p.workers, w, Sending(p.workers[w].task));
  }

  lemma LoopUndisturbed(p: Pool, w: nat, x: LoopStep)
    requires Undisturbed(p) && CanLoop(p, w, x)
    ensures Undisturbed(DoLoop(p, w, x))
  {}

  lemma WorkInv(j: Job, w: nat, x: LoopStep)
    requires Inv(j) && Can(j, Work(w, x))
    ensures Inv(Do(j, Work(w, x))) && SameConfig(Do(j, Work(w, x)).pool, j.pool)
  {
    LoopCounted(j.pool, w, x);
    LoopNumbers(j.pool, w, x);
    LoopUndisturbed(j.pool, w, x);
  }

  lemma ReportInv(j: Job, w: nat, x: DeliverStep)
    requires Inv(j) && Can(j, Report(w, x))
    ensures Inv(Do(j, Report(w, x))) && SameConfig(Do(j, Report(w, x)).pool, j.pool)
  {
    NeverDropped(j, w);
    DeliverCounted(j.pool, w, x);
    PutNumbers(j.pool.workers, w, Idle);
  }

  lemma CollectInv(j: Job)
    requires Inv(j) && Can(j, Collect)
    ensures Inv(Do(j, Collect)) && SameConfig(Do(j, Collect).pool, j.pool)
  {}

  lemma QuitInv(j: Job, w: nat, x: LeaveStep)
    requires Inv(j) && Can(j, Quit(w, x))
    ensures Inv(Do(j, Quit(w, x))) && SameConfig(Do(j, Quit(w, x)).pool, j.pool)
    ensures x.SeeClosed? || x.SeeCancel? || x.Exit?
  {
    if j.closed {
      NothingInHand(j);
    }
    LeaveCounted(j.pool, w, x);
    PutNumbers(j.pool.workers, w, if x.Exit? then Gone else Leaving);
  }

  lemma DoKeepsInv(j: Job, e: Step)
    requires Inv(j) && Can(j, e)
    ensures Inv(Do(j, e)) && SameConfig(Do(j, e).pool, j.pool) && Do(j, e).n == j.n
  {
    match e
    case Offer => OfferInv(j);
    case Accept => AcceptInv(j);
    case AcceptDirect(to) => AcceptDirectInv(j, to);
    case Refuse => NeverRefused(j);
    case Work(w, x) => WorkInv(j, w, x);
    case Report(w, x) => ReportInv(j, w, x);
    case Collect => CollectInv(j);
    case CloseChannel => CloseInv(j);
    case Read =>
    case Stop(x) => StopInv(j, x);
    case Quit(w, x) => QuitInv(j, w, x);
  }

  /** The collector stops only when it has collected everything. */
  lemma CloseInv(j: Job)
    requires Inv(j) && Can(j, CloseChannel)
    ensures Inv(Do(j, CloseChannel))
  {}

  lemma StopInv(j: Job, x: CloseStep)
    requires Inv(j) && Can(j, Stop(x))
    ensures Inv(Do(j, Stop(x))) && SameConfig(Do(j, Stop(x)).pool, j.pool)
  {}

  lemma {:induction false} RunKeepsInv(j: Job, steps: seq<Step>)
    requires Inv(j)
    ensures Inv(Run(j, steps)) && SameConfig(Run(j, steps).pool, j.pool) && Run(j, steps).n == j.n
    decreases steps
  {
    if steps != [] {
      if Can(j, steps[0]) {
        DoKeepsInv(j, steps[0]);
        RunKeepsInv(Do(j, steps[0]), steps[1..]);
      } else {
        RunKeepsInv(j, steps[1..]);
      }
    }
  }

  /** Conservation comes from the pool: every step of the job is at most one step of it. */
  lemma DoConserves(j: Job, e: Step, t: nat)
    requires Conserved(j.pool, t) && Can(j, e)
    ensures Conserved(Do(j, e).pool, t)
  {
    match e
    case Offer => SubmitConserves(j.pool, SubmitCheck, t);
    case Accept => SubmitConserves(j.pool, SubmitAccept, t);
    case AcceptDirect(to) => SubmitConserves(j.pool, SubmitHandOver(to), t);
    case Refuse => SubmitConserves(j.pool, SubmitFull, t);
    case Work(w, x) => LoopConserves(j.pool, w, x, t);
    case Report(w, x) => DeliverConserves(j.pool, w, x, t);
    case Collect => ReceiveConserves(j.pool, t);
    case CloseChannel =>
    case Read =>
    case Stop(x) => CloseConserves(j.pool, x, t);
    case Quit(w, x) => LeaveConserves(j.pool, w, x, t);
  }

  lemma {:induction false} JobConserves(j: Job, steps: seq<Step>, t: nat)
    requires Conserved(j.pool, t)
    ensures Conserved(Run(j, steps).pool, t)
    decreases steps
  {
    if steps != [] {
      if Can(j, steps[0]) {
        DoConserves(j, steps[0], t);
        JobConserves(Do(j, steps[0]), steps[1..], t);
      } else {
        JobConserves(j, steps[1..], t);
      }
    }
  }

  // ---------- Always finishes ----------

  ghost predicate CanProceed(j: Job) {
    exists e :: Can(j, e)
  }

  /** A worker with a task can always go on. */
  lemma WorkerProceeds(j: Job, w: nat)
    requires Inv(j) && w < |j.pool.workers|
    requires Active(j.pool.workers[w]) && j.pool.workers[w] != Idle
    ensures CanProceed(j)
  {
    var ws := j.pool.workers;
    match ws[w]
    case Holding(_) =>
      if j.pool.occupied < j.pool.slots {
        assert Can(j, Work(w, AcquireSlot));
      } else {
        AtLeastOne(j.pool);
        var v := Someone(ws, Busy);
        BusyProceeds(j, v);
      }
    case Sending(_) =>
      NeverDropped(j, w);
      assert Can(j, Report(w, SendResult));
    case Released(_) => assert Can(j, Work(w, CountDown));
    case _ => BusyProceeds(j, w);
  }

  lemma BusyProceeds(j: Job, w: nat)
    requires Inv(j) && w < |j.pool.workers| && Busy(j.pool.workers[w])
    ensures CanProceed(j)
  {
    assert Can(j, Work(w, match j.pool.workers[w]
                               case Admitted(_) => CountUp
                               case Running(_) => Finish
                               case _ => ReleaseSlot));
  }

  lemma AtLeastOne(p: Pool)
    requires Undisturbed(p) && 0 < |p.workers|
    ensures 1 <= p.slots
  {}

  /** Stop goes on until the last worker is gone. */
  lemma StopProceeds(j: Job)
    requires Inv(j) && Collected(j) && !Returned(j)
    ensures CanProceed(j)
  {
    var p := j.pool;
    NothingInHand(j);
    if !p.cancelled {
      assert Can(j, Stop(Cancel));
    } else if !p.closed {
      assert Can(j, Stop(CloseFlag));
    } else if !p.tasksClosed {
      assert Can(j, Stop(CloseTasks));
    } else if Count(p.workers, Present) == 0 {
      assert Can(j, Stop(CloseResults));
    } else {
      var w := Someone(p.workers, Present);
      assert Can(j, Quit(w, if p.workers[w].Leaving? then Exit else SeeCancel));
    }
  }

  /** With a worker, or with nothing to do, a call that has not returned can always go on. */
  lemma Progress(j: Job)
    requires Inv(j) && !Returned(j)
    requires 1 <= j.pool.slots || j.n == 0
    ensures CanProceed(j)
  {
    var p := j.pool;
    if j.read < |p.received| {
      assert Can(j, Read);
    } else if 0 < p.submitting {
      NeverRefused(j);
    } else if j.offered < j.n {
      assert Can(j, Offer);
    } else if j.closed {
      StopProceeds(j);
    } else if w: nat :| w < |p.workers| && p.workers[w] != Idle {
      WorkerProceeds(j, w);
    } else if p.queue != [] {
      assert Can(j, Work(0, Take));
    } else if p.results != [] {
      NothingWaits(j);
      assert Can(j, Collect);
    } else {
      NothingWaits(j);
      assert Can(j, CloseChannel);
    }
  }

  /** If all workers are idle and the queue is empty all results are collected or in the channel. */
  lemma NothingWaits(j: Job)
    requires Inv(j) && j.pool.queue == [] && forall k :: 0 <= k < |j.pool.workers| ==> j.pool.workers[k] == Idle
    ensures |j.pool.results| + |j.pool.received| == j.submitted
  {
    CountNone(j.pool.workers, HasTask);
    CountNone(j.pool.workers, Executing);
    CountNone(j.pool.workers, Finishing);
  }

  /** How far the call is from its end. */
  function Rest(j: Job): int {
    10 * (j.n - j.offered) + 9 * j.pool.submitting + 8 * |j.pool.queue|
    + (if j.pool.started then Remaining(j.pool.workers) else 2 * j.pool.slots)
    + |j.pool.results| + (j.n - j.read) + One(!j.closed)
    + One(!j.pool.cancelled) + One(!j.pool.closed) + One(!j.pool.tasksClosed) + One(!j.pool.resultsClosed)
  }

  /** Every step brings the end closer. */
  lemma StepsToTheEnd(j: Job, e: Step)
    requires Inv(j) && Can(j, e)
    ensures Rest(Do(j, e)) < Rest(j)
  {
    match e
    case Offer => OfferCloser(j);
    case Accept => AcceptCloser(j);
    case AcceptDirect(to) => AcceptDirectCloser(j, to);
    case Refuse => NeverRefused(j);
    case Work(w, x) => WorkCloser(j, w, x);
    case Report(w, x) => ReportCloser(j, w, x);
    case Collect => CollectCloser(j);
    case CloseChannel =>
    case Read =>
    case Stop(x) => StopCloser(j, x);
    case Quit(w, x) => QuitCloser(j, w, x);
  }

  lemma AcceptCloser(j: Job)
    requires Inv(j) && Can(j, Accept)
    ensures Rest(Do(j, Accept)) < Rest(j)
  {}

  lemma AcceptDirectCloser(j: Job, to: nat)
    requires Inv(j) && Can(j, AcceptDirect(to))
    ensures Rest(Do(j, AcceptDirect(to))) < Rest(j)
  {
    PutNumbers(j.pool.workers, to, Holding(j.pool.accepted));
  }

  lemma CollectCloser(j: Job)
    requires Inv(j) && Can(j, Collect)
    ensures Rest(Do(j, Collect)) < Rest(j)
  {}

  lemma OfferCloser(j: Job)
    requires Inv(j) && Can(j, Offer)
    ensures Rest(Do(j, Offer)) < Rest(j)
  {
    if !j.pool.started {
      StartedNumbers(j.pool.slots);
      assert j.pool.workers + Repeat(j.pool.slots, Idle) == Repeat(j.pool.slots, Idle);
    }
  }

  lemma WorkCloser(j: Job, w: nat, x: LoopStep)
    requires Inv(j) && Can(j, Work(w, x))
    ensures Rest(Do(j, Work(w, x))) < Rest(j)
  {
    PutNumbers(j.pool.workers, w, DoLoop(j.pool, w, x).workers[w]);
  }

  lemma ReportCloser(j: Job, w: nat, x: DeliverStep)
    requires Inv(j) && Can(j, Report(w, x))
    ensures Rest(Do(j, Report(w, x))) < Rest(j)
  {
    NeverDropped(j, w);
    PutNumbers(j.pool.workers, w, Idle);
  }

  lemma StopCloser(j: Job, x: CloseStep)
    requires Inv(j) && Can(j, Stop(x))
    ensures Rest(Do(j, Stop(x))) < Rest(j)
  {}

  lemma QuitCloser(j: Job, w: nat, x: LeaveStep)
    requires Inv(j) && Can(j, Quit(w, x))
    ensures Rest(Do(j, Quit(w, x))) < Rest(j)
  {
    QuitInv(j, w, x);
    PutNumbers(j.pool.workers, w, if x.Exit? then Gone else Leaving);
  }

  /** Every step of the sequence can be taken when its turn comes. */
  predicate Effective(j: Job, steps: seq<Step>)
    decreases steps
  {
    steps == [] || (Can(j, steps[0]) && Effective(Do(j, steps[0]), steps[1..]))
  }

  lemma {:induction false} RunsAreBounded(j: Job, steps: seq<Step>)
    requires Inv(j) && Effective(j, steps)
    ensures |steps| <= Rest(j)
    decreases steps
  {
    if steps != [] {
      StepsToTheEnd(j, steps[0]);
      DoKeepsInv(j, steps[0]);
      RunsAreBounded(Do(j, steps[0]), steps[1..]);
    } else {
      RestNonNegative(j);
    }
  }

  lemma RestNonNegative(j: Job)
    requires Inv(j)
    ensures 0 <= Rest(j)
  {}

  /**
   * For every interleaving: a map with a worker takes at most 11 n + 2 workers + 5 steps, the
   * deferred Stop included, and wherever it can go no further it has returned.
   */
  lemma MapAlwaysReturns(workers: nat, n: nat, steps: seq<Step>)
    requires 1 <= workers || n == 0
    requires Effective(NewJob(workers, n), steps)
    ensures |steps| <= 11 * n + 2 * workers + 5
    ensures var j := Run(NewJob(workers, n), steps);
            Returned(j) || CanProceed(j)
  {
    var j := NewJob(workers, n);
    NewJobInv(workers, n);
    RunsAreBounded(j, steps);
    RunKeepsInv(j, steps);
    if !Returned(Run(j, steps)) {
      Progress(Run(j, steps));
    }
  }

  /** Some schedule leads to the end. */
  lemma {:induction false} CanFinish(j: Job)
    requires Inv(j) && (1 <= j.pool.slots || j.n == 0)
    ensures exists steps :: Returned(Run(j, steps))
    decreases Rest(j)
  {
    RestNonNegative(j);
    if Returned(j) {
      assert Returned(Run(j, []));
    } else {
      Progress(j);
      var e :| Can(j, e);
      StepsToTheEnd(j, e);
      DoKeepsInv(j, e);
      CanFinish(Do(j, e));
      var rest :| Returned(Run(Do(j, e), rest));
      assert ([e] + rest)[1..] == rest;
      assert Returned(Run(j, [e] + rest));
    }
  }

  /** Without workers no task is ever begun. */
  lemma {:induction false} NothingBegun(j: Job, steps: seq<Step>)
    requires Inv(j) && j.pool.slots == 0 && j.pool.begun == []
    ensures Run(j, steps).pool.begun == []
    decreases steps
  {
    if steps != [] {
      if Can(j, steps[0]) {
        DoKeepsInv(j, steps[0]);
        BegunStays(j, steps[0]);
        NothingBegun(Do(j, steps[0]), steps[1..]);
      } else {
        NothingBegun(j, steps[1..]);
      }
    }
  }

  lemma BegunStays(j: Job, e: Step)
    requires Inv(j) && j.pool.slots == 0 && j.pool.begun == [] && Can(j, e)
    ensures Do(j, e).pool.begun == []
  {
    assert j.pool.workers == [];
  }

  /** A map can return exactly if there is a worker or nothing to do. */
  lemma MapReturnsExactly(workers: nat, n: nat)
    ensures (exists steps :: Returned(Run(NewJob(workers, n), steps))) <==> 1 <= workers || n == 0
  {
    var j := NewJob(workers, n);
    NewJobInv(workers, n);
    if 1 <= workers || n == 0 {
      CanFinish(j);
    } else {
      forall steps ensures !Returned(Run(j, steps)) {
        RunKeepsInv(j, steps);
        NothingBegun(j, steps);
      }
    }
  }

  // ---------- What is returned ----------

  /** The result that a step sends to the result channel. */
  function ReportedBy(j: Job, e: Step): seq<nat> {
    if Can(j, e) && e.Report? && (e.deliver.SendResult? || e.deliver.SendDirect?)
    then [j.pool.workers[e.w].task] else []
  }

  /** The tasks of a run in the order of their completion. */
  function Reported(j: Job, steps: seq<Step>): seq<nat>
    decreases steps
  {
    if steps == [] then []
    else ReportedBy(j, steps[0]) + Reported(if Can(j, steps[0]) then Do(j, steps[0]) else j, steps[1..])
  }

  lemma DoKeepsOrder(j: Job, e: Step)
    requires Can(j, e)
    ensures var p := Do(j, e).pool;
            p.received + p.results == j.pool.received + j.pool.results + ReportedBy(j, e)
  {
    match e
    case Offer => SubmitKeepsResults(j.pool, SubmitCheck);
    case Accept => SubmitKeepsResults(j.pool, SubmitAccept);
    case AcceptDirect(to) => SubmitKeepsResults(j.pool, SubmitHandOver(to));
    case Refuse => SubmitKeepsResults(j.pool, SubmitFull);
    case Work(w, x) => LoopKeepsResults(j.pool, w, x);
    case Report(w, x) => DeliverInOrder(j.pool, w, x);
    case Collect => StepInOrder(j.pool, Event.Receive);
    case CloseChannel =>
    case Read =>
    case Stop(x) =>
      assert DoClose(j.pool, x).received == j.pool.received;
      assert DoClose(j.pool, x).results == j.pool.results;
    case Quit(w, x) => LeaveKeepsResults(j.pool, w, x);
  }

  lemma {:induction false} RunKeepsOrder(j: Job, steps: seq<Step>)
    ensures var p := Run(j, steps).pool;
            p.received + p.results == j.pool.received + j.pool.results + Reported(j, steps)
    decreases steps
  {
    if steps == [] {
      assert j.pool.received + j.pool.results + [] == j.pool.received + j.pool.results;
    } else {
      var j1 := if Can(j, steps[0]) then Do(j, steps[0]) else j;
      if Can(j, steps[0]) {
        DoKeepsOrder(j, steps[0]);
      }
      RunKeepsOrder(j1, steps[1..]);
      Associates(j.pool.received + j.pool.results, ReportedBy(j, steps[0]), Reported(j1, steps[1..]));
    }
  }

  lemma Associates<A>(a: seq<A>, b: seq<A>, c: seq<A>)
    ensures (a + b) + c == a + (b + c)
  {}

  lemma OrderOfCompletion(workers: nat, n: nat, steps: seq<Step>)
    requires Collected(Run(NewJob(workers, n), steps)) || Returned(Run(NewJob(workers, n), steps))
    ensures Run(NewJob(workers, n), steps).pool.received == Reported(NewJob(workers, n), steps)
  {
    var j := Run(NewJob(workers, n), steps);
    NewJobInv(workers, n);
    RunKeepsInv(NewJob(workers, n), steps);
    NothingInHand(j);
    RunKeepsOrder(NewJob(workers, n), steps);
    assert [] + [] + Reported(NewJob(workers, n), steps) == Reported(NewJob(workers, n), steps);
    assert j.pool.received + [] == j.pool.received;
  }

  /**
   * When the range loop is over, and so when the call returns, every task has been executed
   * exactly once, and the results have reached the caller in the order of completion, each once.
   * ParallelExecute returns just this.
   */
  lemma ResultsArePermutation(workers: nat, n: nat, steps: seq<Step>)
    requires Collected(Run(NewJob(workers, n), steps)) || Returned(Run(NewJob(workers, n), steps))
    ensures var p := Run(NewJob(workers, n), steps).pool;
            && p.received == Reported(NewJob(workers, n), steps)
            && |p.received| == n
            && (forall t: nat :: multiset(p.received)[t] == if t < n then 1 else 0)
            && (forall t: nat :: multiset(p.begun)[t] == if t < n then 1 else 0)
  {
    OrderOfCompletion(workers, n, steps);
    OneOfEach(workers, n, steps);
  }

  lemma OneOfEach(workers: nat, n: nat, steps: seq<Step>)
    requires Collected(Run(NewJob(workers, n), steps)) || Returned(Run(NewJob(workers, n), steps))
    ensures var p := Run(NewJob(workers, n), steps).pool;
            && |p.received| == n
            && (forall t: nat :: multiset(p.received)[t] == if t < n then 1 else 0)
            && (forall t: nat :: multiset(p.begun)[t] == if t < n then 1 else 0)
  {
    var j := Run(NewJob(workers, n), steps);
    NewJobInv(workers, n);
    RunKeepsInv(NewJob(workers, n), steps);
    forall t: nat
      ensures multiset(j.pool.received)[t] == (if t < n then 1 else 0)
      ensures multiset(j.pool.begun)[t] == if t < n then 1 else 0
    {
      JobConserves(NewJob(workers, n), steps, t);
      AllReceived(j, t);
    }
  }

  /** Counting leaves no room for a task anywhere else. */
  lemma AllReceived(j: Job, t: nat)
    requires Inv(j) && Collected(j) && Conserved(j.pool, t)
    ensures |j.pool.received| == j.n
    ensures multiset(j.pool.received)[t] == multiset(j.pool.begun)[t] == if t < j.n then 1 else 0
  {
    NobodyWith(j.pool.workers, t);
  }

  // ---------- With one worker ----------

  /** What the only worker has in its hands. */
  function AtHand(ws: seq<Worker>): seq<nat> {
    if ws == [] then []
    else match ws[0]
         case Idle => []
         case Leaving => []
         case Gone => []
         case w => [w.task]
  }

  /** The results, the task at hand and the queue, one after the other. */
  function Line(p: Pool): seq<nat> {
    p.received + p.results + AtHand(p.workers) + p.queue
  }

  /** The tasks stand in line in their original order. */
  predicate InLine(j: Job) {
    |j.pool.workers| <= 1 && Line(j.pool) == Range(0, j.pool.accepted)
  }

  lemma {:induction false} RangeSnoc(a: nat, b: nat)
    requires a <= b
    ensures Range(a, b + 1) == Range(a, b) + [b]
    decreases b - a
  {
    if a < b {
      RangeSnoc(a + 1, b);
    } else {
      assert Range(a, a + 1) == [a] + Range(a + 1, a + 1);
    }
  }

  /** The four parts of the line move on, or not, and the whole keeps its order. */
  lemma WorkInLine(p: Pool, w: nat, x: LoopStep)
    requires |p.workers| <= 1 && CanLoop(p, w, x)
    ensures Line(DoLoop(p, w, x)) == Line(p) && DoLoop(p, w, x).accepted == p.accepted
    ensures |DoLoop(p, w, x).workers| <= 1
  {
    LoopKeepsResults(p, w, x);
    LoopFrame(p, w, x);
    if x.Take? {
      assert p.queue == [p.queue[0]] + p.queue[1..];
      assert DoLoop(p, w, x).workers == [Holding(p.queue[0])];
    } else {
      assert AtHand(DoLoop(p, w, x).workers) == AtHand(p.workers);
    }
  }

  lemma ReportInLine(p: Pool, w: nat, x: DeliverStep)
    requires |p.workers| <= 1 && CanDeliver(p, w, x) && (x.SendResult? || x.SendDirect?) && !p.panicked
    ensures Line(DoDeliver(p, w, x)) == Line(p) && DoDeliver(p, w, x).accepted == p.accepted
    ensures |DoDeliver(p, w, x).workers| <= 1
  {
    DeliverInOrder(p, w, x);
    DeliverFrame(p, w, x);
    assert DoDeliver(p, w, x).workers == [Idle];
  }

  lemma AcceptInLine(p: Pool)
    requires |p.workers| <= 1 && Line(p) == Range(0, p.accepted) && CanSubmit(p, SubmitAccept)
    ensures Line(DoSubmit(p, SubmitAccept)) == Range(0, p.accepted + 1)
    ensures DoSubmit(p, SubmitAccept).accepted == p.accepted + 1 && |DoSubmit(p, SubmitAccept).workers| <= 1
  {
    RangeSnoc(0, p.accepted);
    Associates(p.received + p.results + AtHand(p.workers), p.queue, [p.accepted]);
  }

  lemma HandOverInLine(p: Pool, to: nat)
    requires |p.workers| <= 1 && Line(p) == Range(0, p.accepted) && CanSubmit(p, SubmitHandOver(to))
    ensures Line(DoSubmit(p, SubmitHandOver(to))) == Range(0, p.accepted + 1)
    ensures DoSubmit(p, SubmitHandOver(to)).accepted == p.accepted + 1
    ensures |DoSubmit(p, SubmitHandOver(to)).workers| <= 1
  {
    RangeSnoc(0, p.accepted);
    assert p.workers == [Idle] && p.workers[to := Holding(p.accepted)] == [Holding(p.accepted)];
    assert p.received + p.results + [] + [] == p.received + p.results;
    assert p.received + p.results + [p.accepted] + [] == p.received + p.results + [p.accepted];
  }

  lemma CollectInLine(j: Job)
    requires InLine(j) && Can(j, Collect)
    ensures InLine(Do(j, Collect))
  {
    StepInOrder(j.pool, Event.Receive);
  }

  lemma DoInLine(j: Job, e: Step)
    requires Inv(j) && j.pool.slots == 1 && InLine(j) && Can(j, e)
    ensures InLine(Do(j, e))
  {
    match e
    case Offer => OfferInLine(j);
    case Accept => AcceptInLine(j.pool);
    case AcceptDirect(to) => HandOverInLine(j.pool, to);
    case Refuse => NeverRefused(j);
    case Work(w, x) => WorkInLine(j.pool, w, x);
    case Report(w, x) =>
      NeverDropped(j, w);
      ReportInLine(j.pool, w, x);
    case Collect => CollectInLine(j);
    case CloseChannel =>
    case Read =>
    case Stop(x) => StopInLine(j, x);
    case Quit(w, x) => QuitInLine(j, w, x);
  }

  lemma OfferInLine(j: Job)
    requires Inv(j) && j.pool.slots == 1 && InLine(j) && Can(j, Offer)
    ensures InLine(Do(j, Offer))
  {
    assert Repeat(1, Idle) == [Idle];
    if !j.pool.started {
      assert j.pool.workers == [] && Do(j, Offer).pool.workers == [Idle];
    }
  }

  lemma StopInLine(j: Job, x: CloseStep)
    requires InLine(j) && Can(j, Stop(x))
    ensures InLine(Do(j, Stop(x)))
  {}

  lemma QuitInLine(j: Job, w: nat, x: LeaveStep)
    requires Inv(j) && InLine(j) && Can(j, Quit(w, x))
    ensures InLine(Do(j, Quit(w, x)))
  {
    QuitInv(j, w, x);
    LeaveKeepsResults(j.pool, w, x);
    LeaveFrame(j.pool, w, x);
    assert AtHand(Do(j, Quit(w, x)).pool.workers) == AtHand(j.pool.workers);
  }

  lemma {:induction false} RunInLine(j: Job, steps: seq<Step>)
    requires Inv(j) && j.pool.slots == 1 && InLine(j)
    ensures InLine(Run(j, steps))
    decreases steps
  {
    if steps != [] {
      if Can(j, steps[0]) {
        DoKeepsInv(j, steps[0]);
        DoInLine(j, steps[0]);
        RunInLine(Do(j, steps[0]), steps[1..]);
      } else {
        RunInLine(j, steps[1..]);
      }
    }
  }

  /** With one worker the order of completion is that of the items, on every schedule. */
  lemma OneWorkerKeepsOrder(n: nat, steps: seq<Step>)
    requires Collected(Run(NewJob(1, n), steps)) || Returned(Run(NewJob(1, n), steps))
    ensures Run(NewJob(1, n), steps).pool.received == Range(0, n)
  {
    var j := Run(NewJob(1, n), steps);
    NewJobInv(1, n);
    RunKeepsInv(NewJob(1, n), steps);
    RunInLine(NewJob(1, n), steps);
    NothingInHand(j);
    AtHandIdle(j.pool.workers);
    assert j.pool.received + [] + [] + [] == j.pool.received;
  }

  lemma AtHandIdle(ws: seq<Worker>)
    requires forall k :: 0 <= k < |ws| ==> ws[k].Idle? || ws[k].Leaving? || ws[k].Gone?
    ensures AtHand(ws) == []
  {}

  // ---------- What Map and ParallelExecute promise ----------

  /** In no reachable state is a Submit about to be refused or a result about to be dropped. */
  lemma NothingLost(workers: nat, n: nat, steps: seq<Step>, w: nat)
    ensures var j := Run(NewJob(workers, n), steps);
            && !Can(j, Refuse) && !Can(j, Report(w, DropResult)) && !Can(j, Report(w, SendPanic))
            && j.submitted == j.offered - j.pool.submitting && j.pool.dropped == []
  {
    var j := Run(NewJob(workers, n), steps);
    NewJobInv(workers, n);
    RunKeepsInv(NewJob(workers, n), steps);
    NeverRefused(j);
    NeverDropped(j, w);
  }

  /** ParallelExecute starts a worker for every function, so it returns, with one result for each. */
  lemma ParallelExecuteComplete(n: nat, steps: seq<Step>)
    ensures exists some :: Returned(Run(NewJob(n, n), some))
    ensures Effective(NewJob(n, n), steps)
            ==> |steps| <= 13 * n + 5 && (Returned(Run(NewJob(n, n), steps)) || CanProceed(Run(NewJob(n, n), steps)))
    ensures Returned(Run(NewJob(n, n), steps))
            ==> forall t: nat :: multiset(Run(NewJob(n, n), steps).pool.received)[t] == if t < n then 1 else 0
  {
    MapReturnsExactly(n, n);
    if Effective(NewJob(n, n), steps) {
      MapAlwaysReturns(n, n, steps);
    }
    if Returned(Run(NewJob(n, n), steps)) {
      ResultsArePermutation(n, n, steps);
    }
  }

  datatype Outcome<R> = Value(value: R) | Error(error: int)

  datatype MapResult<R> = Values(values: seq<R>) | Failed(error: int)

  /** Turning the collected results into the output slice, up to the first error. */
  method BuildOutput<R(0)>(outcomes: seq<Outcome<R>>, order: seq<nat>) returns (r: MapResult<R>)
    requires forall i :: 0 <= i < |order| ==> order[i] < |outcomes|
    ensures r.Values? <==> forall i :: 0 <= i < |order| ==> outcomes[order[i]].Value?
    ensures r.Values? ==> |r.values| == |order|
                          && forall i :: 0 <= i < |order| ==> outcomes[order[i]] == Value(r.values[i])
    ensures r.Failed? ==> exists i :: 0 <= i < |order| && outcomes[order[i]] == Error(r.error)
                                      && forall k :: 0 <= k < i ==> outcomes[order[k]].Value?
  {
    var output := new R[|order|];
    for i := 0 to |order|
      invariant forall k :: 0 <= k < i ==> outcomes[order[k]] == Value(output[k])
    {
      match outcomes[order[i]]
      case Error(e) => return Failed(e);
      case Value(v) => output[i] := v;
    }
    return Values(output[..]);
  }

  predicate Pickable<R>(outcomes: seq<Outcome<R>>, order: seq<nat>) {
    forall i :: 0 <= i < |order| ==> order[i] < |outcomes| && outcomes[order[i]].Value?
  }

  /** The values of the outcomes, in the given order. */
  function Pick<R>(outcomes: seq<Outcome<R>>, order: seq<nat>): seq<R>
    requires Pickable(outcomes, order)
  {
    seq(|order|, i requires 0 <= i < |order| => outcomes[order[i]].value)
  }

  /** Taking out one element takes out its value. */
  lemma PickWithout<R>(outcomes: seq<Outcome<R>>, b: seq<nat>, k: nat)
    requires Pickable(outcomes, b) && k < |b|
    ensures Pickable(outcomes, b[..k] + b[k + 1..])
    ensures Pick(outcomes, b[..k] + b[k + 1..]) == Pick(outcomes, b)[..k] + Pick(outcomes, b)[k + 1..]
  {}

  lemma CutOut(a: seq<nat>, b: seq<nat>, k: nat)
    requires multiset(a) == multiset(b) && a != [] && k < |b| && b[k] == a[0]
    ensures multiset(a[1..]) == multiset(b[..k] + b[k + 1..])
  {
    ConsMultiset(a[0], a[1..]);
    assert a == [a[0]] + a[1..];
    CutMultiset(b, k);
    CancelOne(multiset(a[1..]), multiset(b[..k] + b[k + 1..]), a[0]);
  }

  lemma ConsMultiset<A>(x: A, s: seq<A>)
    ensures multiset([x] + s) == multiset(s) + multiset{x}
  {}

  lemma CancelOne<A>(a: multiset<A>, b: multiset<A>, x: A)
    requires a + multiset{x} == b + multiset{x}
    ensures a == b
  {
    assert a == a + multiset{x} - multiset{x};
    assert b == b + multiset{x} - multiset{x};
  }

  /** Reordering the items reorders the values. */
  lemma {:induction false} PickPermutes<R>(outcomes: seq<Outcome<R>>, a: seq<nat>, b: seq<nat>)
    requires multiset(a) == multiset(b) && Pickable(outcomes, a) && Pickable(outcomes, b)
    ensures multiset(Pick(outcomes, a)) == multiset(Pick(outcomes, b))
  {
    if a == [] {
      assert |multiset(b)| == 0;
    } else {
      assert a[0] in multiset(b);
      var k :| 0 <= k < |b| && b[k] == a[0];
      CutOut(a, b, k);
      PickPermutes(outcomes, a[1..], b[..k] + b[k + 1..]);
      SameWithOne(outcomes, a, b, k);
    }
  }

  lemma PickHead<R>(outcomes: seq<Outcome<R>>, a: seq<nat>)
    requires Pickable(outcomes, a) && a != []
    ensures multiset(Pick(outcomes, a)) == multiset(Pick(outcomes, a[1..])) + multiset{outcomes[a[0]].value}
  {
    ConsMultiset(outcomes[a[0]].value, Pick(outcomes, a[1..]));
    assert Pick(outcomes, a) == [outcomes[a[0]].value] + Pick(outcomes, a[1..]);
  }

  lemma PickSplit<R>(outcomes: seq<Outcome<R>>, b: seq<nat>, k: nat)
    requires Pickable(outcomes, b) && k < |b|
    ensures Pickable(outcomes, b[..k] + b[k + 1..])
    ensures multiset(Pick(outcomes, b))
            == multiset(Pick(outcomes, b[..k] + b[k + 1..])) + multiset{outcomes[b[k]].value}
  {
    PickWithout(outcomes, b, k);
    CutMultiset(Pick(outcomes, b), k);
  }

  lemma CutMultiset<A>(s: seq<A>, k: nat)
    requires k < |s|
    ensures multiset(s) == multiset(s[..k] + s[k + 1..]) + multiset{s[k]}
  {
    assert s == s[..k] + [s[k]] + s[k + 1..];
  }

  lemma SameWithOne<R>(outcomes: seq<Outcome<R>>, a: seq<nat>, b: seq<nat>, k: nat)
    requires Pickable(outcomes, a) && Pickable(outcomes, b) && a != [] && k < |b| && b[k] == a[0]
    requires Pickable(outcomes, b[..k] + b[k + 1..])
    requires multiset(Pick(outcomes, a[1..])) == multiset(Pick(outcomes, b[..k] + b[k + 1..]))
    ensures multiset(Pick(outcomes, a)) == multiset(Pick(outcomes, b))
  {
    PickHead(outcomes, a);
    PickSplit(outcomes, b, k);
  }

  lemma {:induction false} RangeOnce(a: nat, b: nat)
    ensures forall t: nat :: multiset(Range(a, b))[t] == if a <= t < b then 1 else 0
    decreases b - a
  {
    if a < b {
      RangeOnce(a + 1, b);
    }
  }

  lemma {:induction false} RangeAt(a: nat, b: nat)
    ensures |Range(a, b)| == if a <= b then b - a else 0
    ensures forall i :: 0 <= i < |Range(a, b)| ==> Range(a, b)[i] == a + i
    decreases b - a
  {
    if a < b {
      RangeAt(a + 1, b);
    }
  }

  /** All items in their original order. */
  function Items(n: nat): seq<nat> {
    Range(0, n)
  }

  lemma SameOnce(a: seq<nat>, b: seq<nat>, n: nat)
    requires forall t: nat :: multiset(a)[t] == if t < n then 1 else 0
    requires forall t: nat :: multiset(b)[t] == if t < n then 1 else 0
    ensures multiset(a) == multiset(b)
    ensures forall i :: 0 <= i < |a| ==> a[i] < n && a[i] in b
  {
    forall i | 0 <= i < |a| ensures a[i] < n && a[i] in b {
      assert a[i] in multiset(a);
      assert a[i] in multiset(b);
    }
  }

  /** The order in which the results arrived. */
  function Arrivals(workers: nat, n: nat, steps: seq<Step>): seq<nat> {
    Run(NewJob(workers, n), steps).pool.received
  }

  /**
   * Map after its range loop, for every interleaving. outcomes[i] is what fn returned for the
   * i-th item. It succeeds exactly if fn did for all items, and then returns a permutation of
   * the values; otherwise it returns the error of some item. With one worker it returns the
   * values in the order of the items, or the error of the first item that failed.
   */
  method FinishMap<R(0)>(outcomes: seq<Outcome<R>>, order: seq<nat>, ghost workers: nat, ghost steps: seq<Step>)
    returns (r: MapResult<R>)
    requires Collected(Run(NewJob(workers, |outcomes|), steps)) && order == Arrivals(workers, |outcomes|, steps)
    ensures r.Values? <==> Pickable(outcomes, Items(|outcomes|))
    ensures r.Values? ==> multiset(r.values) == multiset(Pick(outcomes, Items(|outcomes|)))
    ensures r.Values? && workers == 1 ==> r.values == Pick(outcomes, Items(|outcomes|))
    ensures r.Failed? ==> exists i :: 0 <= i < |outcomes| && outcomes[i] == Error(r.error)
                                      && (workers == 1 ==> forall k :: 0 <= k < i ==> outcomes[k].Value?)
  {
    AllItems(|outcomes|, order, workers, steps);
    r := BuildOutput(outcomes, order);
    if r.Values? {
      ArrivedAll(outcomes, order, |outcomes|);
      assert r.values == Pick(outcomes, order);
      PickPermutes(outcomes, order, Items(|outcomes|));
    } else {
      SomeItemFailed(outcomes, order, r.error, workers);
    }
  }

  lemma AllItems(n: nat, order: seq<nat>, workers: nat, steps: seq<Step>)
    requires Collected(Run(NewJob(workers, n), steps)) && order == Arrivals(workers, n, steps)
    ensures multiset(order) == multiset(Items(n)) && (workers == 1 ==> order == Items(n))
    ensures forall i :: 0 <= i < |order| ==> order[i] < n
    ensures forall i :: 0 <= i < |Items(n)| ==> Items(n)[i] < n && Items(n)[i] in order
    ensures |Items(n)| == n && forall i :: 0 <= i < n ==> Items(n)[i] == i
  {
    OneOfEach(workers, n, steps);
    RangeOnce(0, n);
    RangeAt(0, n);
    SameOnce(order, Items(n), n);
    SameOnce(Items(n), order, n);
    if workers == 1 {
      OneWorkerKeepsOrder(n, steps);
    }
  }

  lemma SomeItemFailed<R>(outcomes: seq<Outcome<R>>, order: seq<nat>, error: int, workers: nat)
    requires forall i :: 0 <= i < |order| ==> order[i] < |outcomes|
    requires |Items(|outcomes|)| == |outcomes| && forall i :: 0 <= i < |outcomes| ==> Items(|outcomes|)[i] == i
    requires workers == 1 ==> order == Items(|outcomes|)
    requires exists i :: 0 <= i < |order| && outcomes[order[i]] == Error(error)
                         && forall k :: 0 <= k < i ==> outcomes[order[k]].Value?
    ensures !Pickable(outcomes, Items(|outcomes|))
    ensures exists i :: 0 <= i < |outcomes| && outcomes[i] == Error(error)
                        && (workers == 1 ==> forall k :: 0 <= k < i ==> outcomes[k].Value?)
  {
    var i :| 0 <= i < |order| && outcomes[order[i]] == Error(error)
             && forall k :: 0 <= k < i ==> outcomes[order[k]].Value?;
    assert !outcomes[Items(|outcomes|)[order[i]]].Value?;
    if workers == 1 {
      forall k | 0 <= k < i ensures outcomes[k].Value? {
        assert outcomes[order[k]].Value?;
      }
    }
    assert outcomes[order[i]] == Error(error);
  }

  lemma ArrivedAll<R>(outcomes: seq<Outcome<R>>, order: seq<nat>, n: nat)
    requires n == |outcomes| && Pickable(outcomes, order)
    requires forall i :: 0 <= i < |Items(n)| ==> Items(n)[i] < n && Items(n)[i] in order
    ensures Pickable(outcomes, Items(n))
  {
    forall i | 0 <= i < |Items(n)| ensures outcomes[Items(n)[i]].Value? {
      var k :| 0 <= k < |order| && order[k] == Items(n)[i];
    }
  }
}
