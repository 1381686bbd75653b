/** The worker pool as a step system: every channel operation and critical section is one step. */
module PoolSpec {

  /**
   * Where a worker goroutine stands. A task is the number under which its submission was
   * accepted.
   */
  datatype Worker =
    | Idle                  // at the outer select
    | Holding(task: nat)    // has a task, waits for a semaphore slot
    | Admitted(task: nat)   // has a slot, is not yet counted in ActiveWorkers
    | Running(task: nat)    // is counted, executes the task
    | Done(task: nat)       // has executed it, still has the slot
    | Released(task: nat)   // has returned the slot, is still counted
    | Sending(task: nat)    // is no longer counted, is about to send the result
    | Leaving               // has returned, the deferred counters are still to change
    | Gone

  /** Has a slot of the semaphore. */
  predicate Busy(w: Worker) { w.Admitted? || w.Running? || w.Done? }

  /** Is counted in ActiveWorkers. */
  predicate Shown(w: Worker) { w.Running? || w.Done? || w.Released? }

  predicate Active(w: Worker) { !w.Leaving? && !w.Gone? }

  predicate Returned(w: Worker) { w.Leaving? }

  predicate Present(w: Worker) { !w.Gone? }

  /**
   * A Resize call that holds its lock: how many workers it has still to start or to stop. pending
   * notes how many had returned but were still counted when it read the worker count.
   */
  datatype Resize = NoResize | Resizing(target: int, grow: nat, stop: nat, pending: nat)

  /** What was there when the task channel was closed. */
  datatype AtClose = NotYet | Closing(overlap: bool, alive: bool, queued: seq<nat>)

  /**
   * queueCap and slots are fixed at construction (QueueSize and Workers). submitting and
   * resizing count the calls that have passed the closed check and not yet gone on. accepted,
   * begun, finished, abandoned, dropped, received and atClose are an observer's records.
   */
  datatype Pool = Pool(
    queueCap: nat, slots: nat,
    queue: seq<nat>, results: seq<nat>, workers: seq<Worker>, workerCount: int, occupied: int, active: int,
    started: bool, closed: bool, tasksClosed: bool, resultsClosed: bool, cancelled: bool, panicked: bool,
    submitting: nat, resizing: nat, resize: Resize,
    accepted: nat, begun: seq<nat>, finished: seq<nat>, abandoned: seq<nat>,
    dropped: seq<nat>, received: seq<nat>, atClose: AtClose)

  datatype SubmitStep =
    | Start | SubmitCheck | SubmitAccept | SubmitHandOver(to: nat) | SubmitCancelled | SubmitFull | SubmitPanic

  /** A worker on its way through the loop. */
  datatype LoopStep = Take | AcquireSlot | CountUp | Finish | ReleaseSlot | CountDown

  /** A worker with a result: into the channel, straight to a consumer, or dropped. */
  datatype DeliverStep = SendResult | SendDirect | DropResult | SendPanic

  /** A worker on its way out. */
  datatype LeaveStep =
    | SeeClosed | SeeCancel | QuitHolding
    | StopIdle | StopHolding | StopHandOver(to: nat) | StopPanic
    | Exit

  datatype ResizeStep = ResizeCheck | ResizeBegin(size: int) | GrowOne | ResizeCancelled | ResizeEnd

  datatype CloseStep = CloseFlag | CloseTasks | Cancel | CloseResults

  datatype Event =
    | Submit(submit: SubmitStep)
    | Loop(w: nat, loop: LoopStep)
    | Deliver(w: nat, deliver: DeliverStep)
    | Leave(w: nat, leave: LeaveStep)
    | Scale(scale: ResizeStep)
    | Close(close: CloseStep)
    | Receive

  function New(workers: nat, queueSize: nat): Pool {
    Pool(queueSize, workers, [], [], [], 0, 0, 0, false, false, false, false, false, false,
         0, 0, NoResize, 0, [], [], [], [], [], NotYet)
  }

  predicate Is(s: Pool, w: nat, x: Worker) {
    w < |s.workers| && s.workers[w] == x
  }

  function Repeat(n: nat, x: Worker): seq<Worker> {
    if n == 0 then [] else [x] + Repeat(n - 1, x)
  }

  function Count(ws: seq<Worker>, p: Worker -> bool): nat {
    if ws == [] then 0 else (if p(ws[0]) then 1 else 0) + Count(ws[1..], p)
  }

  predicate CanSubmit(s: Pool, e: SubmitStep) {
    match e
    case Start => true
    case SubmitCheck => true
    case SubmitAccept => 0 < s.submitting && !s.tasksClosed && |s.queue| < s.queueCap
    case SubmitHandOver(w) => 0 < s.submitting && !s.tasksClosed && s.queue == [] && Is(s, w, Idle)
    case SubmitCancelled => 0 < s.submitting && s.cancelled
    case SubmitFull => 0 < s.submitting && !s.tasksClosed && !s.cancelled && s.queueCap <= |s.queue|
    case SubmitPanic => 0 < s.submitting && s.tasksClosed
  }

  /** startLocked */
  function Started(s: Pool): Pool {
    if s.started || s.closed then s
    else s.(started := true, workers := s.workers + Repeat(s.slots, Idle), workerCount := s.workerCount + s.slots)
  }

  function Put(s: Pool, w: nat, x: Worker): Pool
    requires w < |s.workers|
  {
    s.(workers := s.workers[w := x])
  }

  function DoSubmit(s: Pool, e: SubmitStep): Pool
    requires CanSubmit(s, e)
  {
    match e
    case Start => Started(s)
    case SubmitCheck => if s.closed then s else Started(s).(submitting := s.submitting + 1)
    case SubmitAccept =>
      s.(submitting := s.submitting - 1, queue := s.queue + [s.accepted], accepted := s.accepted + 1)
    case SubmitHandOver(w) =>
      Put(s, w, Holding(s.accepted)).(submitting := s.submitting - 1, accepted := s.accepted + 1)
    case SubmitCancelled => s.(submitting := s.submitting - 1)
    case SubmitFull => s.(submitting := s.submitting - 1)
    case SubmitPanic => s.(panicked := true)
  }

  predicate CanLoop(s: Pool, w: nat, e: LoopStep) {
    w < |s.workers| &&
    match e
    case Take => s.workers[w] == Idle && s.queue != []
    case AcquireSlot => s.workers[w].Holding? && s.occupied < s.slots
    case CountUp => s.workers[w].Admitted?
    case Finish => s.workers[w].Running?
    case ReleaseSlot => s.workers[w].Done?
    case CountDown => s.workers[w].Released?
  }

  function DoLoop(s: Pool, w: nat, e: LoopStep): Pool
    requires CanLoop(s, w, e)
  {
    match e
    case Take => Put(s, w, Holding(s.queue[0])).(queue := s.queue[1..])
    case AcquireSlot => Put(s, w, Admitted(s.workers[w].task)).(occupied := s.occupied + 1)
    case CountUp =>
      Put(s, w, Running(s.workers[w].task)).(active := s.active + 1, begun := s.begun + [s.workers[w].task])
    case Finish => Put(s, w, Done(s.workers[w].task)).(finished := s.finished + [s.workers[w].task])
    case ReleaseSlot => Put(s, w, Released(s.workers[w].task)).(occupied := s.occupied - 1)
    case CountDown => Put(s, w, Sending(s.workers[w].task)).(active := s.active - 1)
  }

  predicate CanDeliver(s: Pool, w: nat, e: DeliverStep) {
    w < |s.workers| && s.workers[w].Sending? &&
    match e
    case SendResult => !s.resultsClosed && |s.results| < s.queueCap
    case SendDirect => !s.resultsClosed && s.results == []
    case DropResult => !s.resultsClosed && s.queueCap <= |s.results|
    case SendPanic => s.resultsClosed
  }

  function DoDeliver(s: Pool, w: nat, e: DeliverStep): Pool
    requires CanDeliver(s, w, e)
  {
    match e
    case SendResult => Put(s, w, Idle).(results := s.results + [s.workers[w].task])
    case SendDirect => Put(s, w, Idle).(received := s.received + [s.workers[w].task])
    case DropResult => Put(s, w, Idle).(dropped := s.dropped + [s.workers[w].task])
    case SendPanic => s.(panicked := true)
  }

  /** A Resize call offers a stop signal. */
  predicate StopOffered(s: Pool) {
    s.resize.Resizing? && 0 < s.resize.stop
  }

  predicate CanLeave(s: Pool, w: nat, e: LeaveStep) {
    w < |s.workers| &&
    match e
    case SeeClosed => s.workers[w] == Idle && s.tasksClosed && s.queue == []
    case SeeCancel => s.workers[w] == Idle && s.cancelled
    case QuitHolding => s.workers[w].Holding? && s.cancelled
    case StopIdle => s.workers[w] == Idle && StopOffered(s)
    case StopHolding => s.workers[w].Holding? && StopOffered(s) && !s.tasksClosed
    case StopHandOver(v) =>
      s.workers[w].Holding? && StopOffered(s) && !s.tasksClosed && s.queue == [] && Is(s, v, Idle)
    case StopPanic => s.workers[w].Holding? && StopOffered(s) && s.tasksClosed
    case Exit => s.workers[w] == Leaving
  }

  function StopOne(r: Resize): Resize
    requires r.Resizing? && 0 < r.stop
  {
    r.(stop := r.stop - 1)
  }

  /** A stopped worker puts its task back, at the end of the queue; if there is no room it is lost. */
  function DoLeave(s: Pool, w: nat, e: LeaveStep): Pool
    requires CanLeave(s, w, e)
  {
    match e
    case SeeClosed => Put(s, w, Leaving)
    case SeeCancel => Put(s, w, Leaving)
    case QuitHolding => Put(s, w, Leaving).(abandoned := s.abandoned + [s.workers[w].task])
    case StopIdle => Put(s, w, Leaving).(resize := StopOne(s.resize))
    case StopHolding =>
      var room := |s.queue| < s.queueCap;
      var task := [s.workers[w].task];
      Put(s, w, Leaving).(resize := StopOne(s.resize),
                          queue := if room then s.queue + task else s.queue,
                          abandoned := if room then s.abandoned else s.abandoned + task)
    case StopHandOver(v) =>
      Put(Put(s, w, Leaving), v, Holding(s.workers[w].task)).(resize := StopOne(s.resize))
    case StopPanic => s.(panicked := true)
    case Exit => Put(s, w, Gone).(workerCount := s.workerCount - 1)
  }

  predicate CanScale(s: Pool, e: ResizeStep) {
    match e
    case ResizeCheck => s.started && !s.closed
    case ResizeBegin(target) => 0 < s.resizing && s.resize == NoResize && 0 < target
    case GrowOne => s.resize.Resizing? && 0 < s.resize.grow
    case ResizeCancelled => StopOffered(s) && s.cancelled
    case ResizeEnd => s.resize.Resizing? && s.resize.grow == 0 && s.resize.stop == 0
  }

  /** A Resize call compares its target with the current worker count. */
  function Plan(s: Pool, target: int): Resize {
    Resizing(target,
             if s.workerCount < target then target - s.workerCount else 0,
             if target < s.workerCount then s.workerCount - target else 0,
             Count(s.workers, Returned))
  }

  function DoScale(s: Pool, e: ResizeStep): Pool
    requires CanScale(s, e)
  {
    match e
    case ResizeCheck => s.(resizing := s.resizing + 1)
    case ResizeBegin(target) => s.(resizing := s.resizing - 1, resize := Plan(s, target))
    case GrowOne =>
      s.(workers := s.workers + [Idle], workerCount := s.workerCount + 1,
         resize := s.resize.(grow := s.resize.grow - 1))
    case ResizeCancelled => s.(resize := NoResize)
    case ResizeEnd => s.(resize := NoResize)
  }

  /** A Submit or Resize is under way. */
  predicate UnderWay(s: Pool) {
    0 < s.submitting || 0 < s.resizing || s.resize != NoResize
  }

  predicate CanClose(s: Pool, e: CloseStep) {
    match e
    case CloseFlag => !s.closed
    case CloseTasks => s.closed && !s.tasksClosed
    case Cancel => true
    case CloseResults => s.tasksClosed && !s.resultsClosed && Count(s.workers, Present) == 0
  }

  function DoClose(s: Pool, e: CloseStep): Pool
    requires CanClose(s, e)
  {
    match e
    case CloseFlag => s.(closed := true)
    case CloseTasks =>
      s.(tasksClosed := true,
         atClose := Closing(UnderWay(s), 0 < Count(s.workers, Active), s.queue))
    case Cancel => s.(cancelled := true)
    case CloseResults => s.(resultsClosed := true)
  }

  /** The step can be taken. A crashed program takes none. */
  predicate Enabled(s: Pool, e: Event) {
    !s.panicked &&
    match e
    case Submit(x) => CanSubmit(s, x)
    case Loop(w, x) => CanLoop(s, w, x)
    case Deliver(w, x) => CanDeliver(s, w, x)
    case Leave(w, x) => CanLeave(s, w, x)
    case Scale(x) => CanScale(s, x)
    case Close(x) => CanClose(s, x)
    case Receive => s.results != []
  }

  function DoReceive(s: Pool): Pool
    requires s.results != []
  {
    s.(results := s.results[1..], received := s.received + [s.results[0]])
  }

  function Effect(s: Pool, e: Event): Pool
    requires Enabled(s, e)
  {
    match e
    case Submit(x) => DoSubmit(s, x)
    case Loop(w, x) => DoLoop(s, w, x)
    case Deliver(w, x) => DoDeliver(s, w, x)
    case Leave(w, x) => DoLeave(s, w, x)
    case Scale(x) => DoScale(s, x)
    case Close(x) => DoClose(s, x)
    case Receive => DoReceive(s)
  }

  /** A step that cannot be taken changes nothing. */
  function Next(s: Pool, e: Event): Pool {
    if Enabled(s, e) then Effect(s, e) else s
  }

  function Run(s: Pool, events: seq<Event>): Pool
    decreases events
  {
    if events == [] then s else Run(Next(s, events[0]), events[1..])
  }

  lemma RunCons(s: Pool, e: Event, rest: seq<Event>)
    ensures Run(s, [e] + rest) == Run(Next(s, e), rest)
  {
    assert ([e] + rest)[1..] == rest;
  }

  lemma {:induction false} RunConcat(s: Pool, a: seq<Event>, b: seq<Event>)
    ensures Run(s, a + b) == Run(Run(s, a), b)
    decreases a
  {
    if a == [] {
      assert a + b == b;
    } else {
      assert (a + b)[1..] == a[1..] + b;
      RunConcat(Next(s, a[0]), a[1..], b);
    }
  }

  lemma RunSnoc(s: Pool, events: seq<Event>, e: Event)
    ensures Run(s, events + [e]) == Next(Run(s, events), e)
  {
    RunConcat(s, events, [e]);
    assert [e] == [e] + [];
    RunCons(Run(s, events), e, []);
  }

  lemma RunOfTwo(s: Pool, a: Event, b: Event)
    ensures Run(s, [a, b]) == Next(Next(s, a), b)
  {
    assert [a, b] == [a] + [b] && [b] == [b] + [];
    RunCons(s, a, [b]);
    RunCons(Next(s, a), b, []);
  }

  lemma RunOfThree(s: Pool, a: Event, b: Event, c: Event)
    ensures Run(s, [a, b, c]) == Next(Next(Next(s, a), b), c)
  {
    assert [a, b, c] == [a] + [b, c];
    RunCons(s, a, [b, c]);
    RunOfTwo(Next(s, a), b, c);
  }

  lemma RunOfFour(s: Pool, a: Event, b: Event, c: Event, d: Event)
    ensures Run(s, [a, b, c, d]) == Next(Next(Next(Next(s, a), b), c), d)
  {
    assert [a, b, c, d] == [a] + [b, c, d];
    RunCons(s, a, [b, c, d]);
    RunOfThree(Next(s, a), b, c, d);
  }

  // ---------- Counting workers ----------

  lemma {:induction false} CountUpdate(ws: seq<Worker>, w: nat, x: Worker, p: Worker -> bool)
    requires w < |ws|
    ensures Count(ws[w := x], p) == Count(ws, p) - (if p(ws[w]) then 1 else 0) + if p(x) then 1 else 0
  {
    if w == 0 {
      assert ws[0 := x][1..] == ws[1..];
    } else {
      assert ws[w := x][1..] == ws[1..][w - 1 := x];
      CountUpdate(ws[1..], w - 1, x, p);
    }
  }

  lemma {:induction false} CountConcat(a: seq<Worker>, b: seq<Worker>, p: Worker -> bool)
    ensures Count(a + b, p) == Count(a, p) + Count(b, p)
  {
    if a == [] {
      assert a + b == b;
    } else {
      assert (a + b)[1..] == a[1..] + b;
      CountConcat(a[1..], b, p);
    }
  }

  lemma {:induction false} CountRepeat(n: nat, x: Worker, p: Worker -> bool)
    ensures Count(Repeat(n, x), p) == if p(x) then n else 0
    ensures |Repeat(n, x)| == n && forall k :: 0 <= k < n ==> Repeat(n, x)[k] == x
  {
    if n != 0 {
      CountRepeat(n - 1, x, p);
    }
  }

  lemma {:induction false} CountNone(ws: seq<Worker>, p: Worker -> bool)
    ensures Count(ws, p) == 0 <==> forall k :: 0 <= k < |ws| ==> !p(ws[k])
  {
    if ws != [] {
      CountNone(ws[1..], p);
      assert ws == [ws[0]] + ws[1..];
    }
  }

  // ---------- How much is left to do ----------

  /** An upper bound of the steps a worker still takes before it is gone, if it gets no new task. */
  function Effort(w: Worker): nat {
    match w
    case Gone => 0
    case Leaving => 1
    case Idle => 2
    case Sending(_) => 4
    case Released(_) => 5
    case Done(_) => 6
    case Running(_) => 7
    case Admitted(_) => 8
    case Holding(_) => 9
  }

  function Remaining(ws: seq<Worker>): nat {
    if ws == [] then 0 else Effort(ws[0]) + Remaining(ws[1..])
  }

  lemma {:induction false} RemainingUpdate(ws: seq<Worker>, w: nat, x: Worker)
    requires w < |ws|
    ensures Remaining(ws[w := x]) == Remaining(ws) - Effort(ws[w]) + Effort(x)
  {
    if w == 0 {
      assert ws[0 := x][1..] == ws[1..];
    } else {
      assert ws[w := x][1..] == ws[1..][w - 1 := x];
      RemainingUpdate(ws[1..], w - 1, x);
    }
  }

  lemma {:induction false} RemainingRepeat(n: nat)
    ensures Remaining(Repeat(n, Idle)) == 2 * n
  {
    if n != 0 {
      RemainingRepeat(n - 1);
      assert Repeat(n, Idle)[1..] == Repeat(n - 1, Idle);
    }
  }

  // ---------- Conservation ----------

  /**
   * For one task: it is accepted once or not at all, and it is in exactly one place: in the
   * queue, in one worker's hands, begun, or abandoned. What was begun is running or finished;
   * what was finished is on its way to the consumer, received, or dropped.
   */
  predicate Conserved(s: Pool, t: nat) {
    Balanced(View(s), t)
  }

  /** The part of the state that holds tasks. */
  datatype Tasks = Tasks(accepted: nat, queue: seq<nat>, workers: seq<Worker>, begun: seq<nat>, finished: seq<nat>,
                         abandoned: seq<nat>, results: seq<nat>, received: seq<nat>, dropped: seq<nat>)

  function View(s: Pool): Tasks {
    Tasks(s.accepted, s.queue, s.workers, s.begun, s.finished, s.abandoned, s.results, s.received, s.dropped)
  }

  /** How many workers have the task in hand: not yet begun, begun, finished. */
  function InHand(ws: seq<Worker>, t: nat): nat {
    multiset(ws)[Holding(t)] + multiset(ws)[Admitted(t)]
  }

  function InExecution(ws: seq<Worker>, t: nat): nat {
    multiset(ws)[Running(t)]
  }

  function InReport(ws: seq<Worker>, t: nat): nat {
    multiset(ws)[Done(t)] + multiset(ws)[Released(t)] + multiset(ws)[Sending(t)]
  }

  predicate Balanced(v: Tasks, t: nat) {
    && multiset(v.queue)[t] + InHand(v.workers, t) + multiset(v.begun)[t] + multiset(v.abandoned)[t]
       == (if t < v.accepted then 1 else 0)
    && InExecution(v.workers, t) + multiset(v.finished)[t] == multiset(v.begun)[t]
    && InReport(v.workers, t) + multiset(v.results)[t] + multiset(v.received)[t] + multiset(v.dropped)[t]
       == multiset(v.finished)[t]
  }

  lemma Snoc<A>(s: seq<A>, y: A, x: A)
    ensures multiset(s + [y])[x] == multiset(s)[x] + if x == y then 1 else 0
  {}

  lemma Behead<A>(s: seq<A>, x: A)
    requires s != []
    ensures multiset(s[1..])[x] == multiset(s)[x] - if x == s[0] then 1 else 0
  {
    assert s == [s[0]] + s[1..];
  }

  function Has(w: Worker, x: Worker): nat {
    if w == x then 1 else 0
  }

  lemma Replace(ws: seq<Worker>, w: nat, x: Worker, y: Worker)
    requires w < |ws|
    ensures multiset(ws[w := x])[y] == multiset(ws)[y] - Has(ws[w], y) + Has(x, y)
  {
    assert ws == ws[..w] + [ws[w]] + ws[w + 1..];
    assert ws[w := x] == ws[..w] + [x] + ws[w + 1..];
  }

  function Hand(w: Worker, t: nat): nat {
    if w == Holding(t) || w == Admitted(t) then 1 else 0
  }

  function Execution(w: Worker, t: nat): nat {
    if w == Running(t) then 1 else 0
  }

  function Report(w: Worker, t: nat): nat {
    if w == Done(t) || w == Released(t) || w == Sending(t) then 1 else 0
  }

  /** All places of one task after a worker has moved. */
  lemma PutPlaces(ws: seq<Worker>, w: nat, x: Worker, t: nat)
    requires w < |ws|
    ensures InHand(ws[w := x], t) == InHand(ws, t) - Hand(ws[w], t) + Hand(x, t)
    ensures InExecution(ws[w := x], t) == InExecution(ws, t) - Execution(ws[w], t) + Execution(x, t)
    ensures InReport(ws[w := x], t) == InReport(ws, t) - Report(ws[w], t) + Report(x, t)
  {
    Replace(ws, w, x, Holding(t));
    Replace(ws, w, x, Admitted(t));
    Replace(ws, w, x, Running(t));
    Replace(ws, w, x, Done(t));
    Replace(ws, w, x, Released(t));
    Replace(ws, w, x, Sending(t));
  }

  lemma {:induction false} NoneIdle(n: nat, x: Worker)
    requires x != Idle
    ensures multiset(Repeat(n, Idle))[x] == 0
  {
    CountRepeat(n, Idle, Active);
  }

  lemma AddPlaces(ws: seq<Worker>, n: nat, t: nat)
    ensures InHand(ws + Repeat(n, Idle), t) == InHand(ws, t)
    ensures InExecution(ws + Repeat(n, Idle), t) == InExecution(ws, t)
    ensures InReport(ws + Repeat(n, Idle), t) == InReport(ws, t)
  {
    forall x | x != Idle ensures multiset(ws + Repeat(n, Idle))[x] == multiset(ws)[x] {
      NoneIdle(n, x);
    }
  }

  // The ways in which a task can move.

  /** A worker goes on and its task stays where it is. */
  lemma GoesOn(v: Tasks, w: nat, x: Worker, t: nat)
    requires Balanced(v, t) && w < |v.workers|
    requires Hand(v.workers[w], t) == Hand(x, t) && Execution(v.workers[w], t) == Execution(x, t)
    requires Report(v.workers[w], t) == Report(x, t)
    ensures Balanced(v.(workers := v.workers[w := x]), t)
  {
    PutPlaces(v.workers, w, x, t);
  }

  lemma Enqueued(v: Tasks, t: nat)
    requires Balanced(v, t)
    ensures Balanced(v.(queue := v.queue + [v.accepted], accepted := v.accepted + 1), t)
  {
    Snoc(v.queue, v.accepted, t);
  }

  lemma HandedOver(v: Tasks, w: nat, t: nat)
    requires Balanced(v, t) && w < |v.workers| && v.workers[w] == Idle
    ensures Balanced(v.(workers := v.workers[w := Holding(v.accepted)], accepted := v.accepted + 1), t)
  {
    PutPlaces(v.workers, w, Holding(v.accepted), t);
  }

  lemma Dequeued(v: Tasks, w: nat, t: nat)
    requires Balanced(v, t) && w < |v.workers| && v.workers[w] == Idle && v.queue != []
    ensures Balanced(v.(workers := v.workers[w := Holding(v.queue[0])], queue := v.queue[1..]), t)
  {
    PutPlaces(v.workers, w, Holding(v.queue[0]), t);
    Behead(v.queue, t);
  }

  lemma Begins(v: Tasks, w: nat, t: nat)
    requires Balanced(v, t) && w < |v.workers| && v.workers[w].Admitted?
    ensures var task := v.workers[w].task;
            Balanced(v.(workers := v.workers[w := Running(task)], begun := v.begun + [task]), t)
  {
    PutPlaces(v.workers, w, Running(v.workers[w].task), t);
    Snoc(v.begun, v.workers[w].task, t);
  }

  lemma Finishes(v: Tasks, w: nat, t: nat)
    requires Balanced(v, t) && w < |v.workers| && v.workers[w].Running?
    ensures var task := v.workers[w].task;
            Balanced(v.(workers := v.workers[w := Done(task)], finished := v.finished + [task]), t)
  {
    PutPlaces(v.workers, w, Done(v.workers[w].task), t);
    Snoc(v.finished, v.workers[w].task, t);
  }

  /** A sender becomes idle, and its task turns up in one of the three sequences of results. */
  lemma Reported(v: Tasks, w: nat, t: nat)
    requires Balanced(v, t) && w < |v.workers| && v.workers[w].Sending?
    ensures var idle := v.(workers := v.workers[w := Idle]);
            var task := [v.workers[w].task];
            && Balanced(idle.(results := v.results + task), t)
            && Balanced(idle.(received := v.received + task), t)
            && Balanced(idle.(dropped := v.dropped + task), t)
  {
    PutPlaces(v.workers, w, Idle, t);
    Snoc(v.results, v.workers[w].task, t);
    Snoc(v.received, v.workers[w].task, t);
    Snoc(v.dropped, v.workers[w].task, t);
  }

  lemma Collected(v: Tasks, t: nat)
    requires Balanced(v, t) && v.results != []
    ensures Balanced(v.(results := v.results[1..], received := v.received + [v.results[0]]), t)
  {
    Behead(v.results, t);
    Snoc(v.received, v.results[0], t);
  }

  /** A worker leaves and puts its task down: into the queue, or nowhere. */
  lemma PutDown(v: Tasks, w: nat, t: nat)
    requires Balanced(v, t) && w < |v.workers| && v.workers[w].Holding?
    ensures var gone := v.(workers := v.workers[w := Leaving]);
            var task := [v.workers[w].task];
            Balanced(gone.(queue := v.queue + task), t) && Balanced(gone.(abandoned := v.abandoned + task), t)
  {
    PutPlaces(v.workers, w, Leaving, t);
    Snoc(v.queue, v.workers[w].task, t);
    Snoc(v.abandoned, v.workers[w].task, t);
  }

  /** A worker leaves and its task goes straight to an idle one. */
  lemma PassedOn(v: Tasks, w: nat, u: nat, t: nat)
    requires Balanced(v, t) && w < |v.workers| && v.workers[w].Holding? && u < |v.workers| && v.workers[u] == Idle
    ensures Balanced(v.(workers := v.workers[w := Leaving][u := Holding(v.workers[w].task)]), t)
  {
    PutPlaces(v.workers, w, Leaving, t);
    PutPlaces(v.workers[w := Leaving], u, Holding(v.workers[w].task), t);
  }

  lemma StartConserves(s: Pool, t: nat)
    requires Conserved(s, t)
    ensures Conserved(Started(s), t)
  {
    AddPlaces(s.workers, s.slots, t);
  }

  lemma SubmitConserves(s: Pool, e: SubmitStep, t: nat)
    requires Conserved(s, t) && CanSubmit(s, e)
    ensures Conserved(DoSubmit(s, e), t)
  {
    match e
    case SubmitAccept => Enqueued(View(s), t);
    case SubmitHandOver(w) => HandedOver(View(s), w, t);
    case Start => StartConserves(s, t);
    case SubmitCheck =>
      StartConserves(s, t);
      assert View(DoSubmit(s, e)) == if s.closed then View(s) else View(Started(s));
    case _ => assert View(DoSubmit(s, e)) == View(s);
  }

  lemma LoopConserves(s: Pool, w: nat, e: LoopStep, t: nat)
    requires Conserved(s, t) && CanLoop(s, w, e)
    ensures Conserved(DoLoop(s, w, e), t)
  {
    match e
    case Take => Dequeued(View(s), w, t);
    case CountUp => Begins(View(s), w, t);
    case Finish => Finishes(View(s), w, t);
    case AcquireSlot => Walks(s, w, e, t);
    case ReleaseSlot => Walks(s, w, e, t);
    case CountDown => Walks(s, w, e, t);
  }

  lemma Walks(s: Pool, w: nat, e: LoopStep, t: nat)
    requires Conserved(s, t) && CanLoop(s, w, e) && (e.AcquireSlot? || e.ReleaseSlot? || e.CountDown?)
    ensures Conserved(DoLoop(s, w, e), t)
  {
    var to := DoLoop(s, w, e).workers[w];
    GoesOn(View(s), w, to, t);
    assert View(DoLoop(s, w, e)) == View(s).(workers := s.workers[w := to]);
  }

  lemma DeliverConserves(s: Pool, w: nat, e: DeliverStep, t: nat)
    requires Conserved(s, t) && CanDeliver(s, w, e)
    ensures Conserved(DoDeliver(s, w, e), t)
  {
    Reported(View(s), w, t);
  }

  lemma ReceiveConserves(s: Pool, t: nat)
    requires Conserved(s, t) && s.results != []
    ensures Conserved(DoReceive(s), t)
  {
    Collected(View(s), t);
  }

  lemma LeaveConserves(s: Pool, w: nat, e: LeaveStep, t: nat)
    requires Conserved(s, t) && CanLeave(s, w, e)
    ensures Conserved(DoLeave(s, w, e), t)
  {
    match e
    case QuitHolding => PutDown(View(s), w, t);
    case StopHolding => PutDown(View(s), w, t);
    case StopHandOver(u) => PassedOn(View(s), w, u, t);
    case StopPanic => assert View(DoLeave(s, w, e)) == View(s);
    case _ => WalksOut(s, w, e, t);
  }

  lemma WalksOut(s: Pool, w: nat, e: LeaveStep, t: nat)
    requires Conserved(s, t) && CanLeave(s, w, e) && (e.SeeClosed? || e.SeeCancel? || e.StopIdle? || e.Exit?)
    ensures Conserved(DoLeave(s, w, e), t)
  {
    var to := DoLeave(s, w, e).workers[w];
    GoesOn(View(s), w, to, t);
    assert View(DoLeave(s, w, e)) == View(s).(workers := s.workers[w := to]);
  }

  lemma ScaleConserves(s: Pool, e: ResizeStep, t: nat)
    requires Conserved(s, t) && CanScale(s, e)
    ensures Conserved(DoScale(s, e), t)
  {
    if e.GrowOne? {
      AddPlaces(s.workers, 1, t);
      assert Repeat(1, Idle) == [Idle];
    }
  }

  lemma CloseConserves(s: Pool, e: CloseStep, t: nat)
    requires Conserved(s, t) && CanClose(s, e)
    ensures Conserved(DoClose(s, e), t)
  {}

  lemma NextConserves(s: Pool, e: Event, t: nat)
    requires Conserved(s, t)
    ensures Conserved(Next(s, e), t)
  {
    if Enabled(s, e) {
      match e
      case Submit(x) => SubmitConserves(s, x, t);
      case Loop(w, x) => LoopConserves(s, w, x, t);
      case Deliver(w, x) => DeliverConserves(s, w, x, t);
      case Leave(w, x) => LeaveConserves(s, w, x, t);
      case Scale(x) => ScaleConserves(s, x, t);
      case Close(x) => CloseConserves(s, x, t);
      case Receive => ReceiveConserves(s, t);
    }
  }

  lemma {:induction false} RunConserves(s: Pool, events: seq<Event>, t: nat)
    requires Conserved(s, t)
    ensures Conserved(Run(s, events), t)
    decreases events
  {
    if events != [] {
      NextConserves(s, events[0], t);
      RunConserves(Next(s, events[0]), events[1..], t);
    }
  }
}
