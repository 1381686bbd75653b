/** The circuit breaker: the lock is free while fn runs, so outcomes may arrive late. */
module BreakerSpec {

  datatype Mode = Closed | Open | HalfOpen

  /** Configuration (max failures, timeout, probe quota) and fields of the breaker. */
  datatype Breaker = Breaker(max: int, timeout: int, quota: int, mode: Mode,
                             failures: int, successes: int, allowed: int, last: int)

  /** At least one probe is always allowed. */
  function Quota(halfOpenRequests: int): nat {
    if halfOpenRequests <= 0 then 1 else halfOpenRequests
  }

  function New(max: int, timeout: int, halfOpenRequests: int): Breaker {
    Breaker(max, timeout, Quota(halfOpenRequests), Closed, 0, 0, 0, 0)
  }

  function ToOpen(b: Breaker, now: int): Breaker {
    b.(mode := Open, last := now, successes := 0, allowed := 0)
  }

  function ToHalfOpen(b: Breaker): Breaker {
    b.(mode := HalfOpen, successes := 0, allowed := b.quota)
  }

  function ToClosed(b: Breaker): Breaker {
    b.(mode := Closed, failures := 0, successes := 0, allowed := 0)
  }

  function Check(b: Breaker, now: int): Breaker {
    if b.mode == Open && b.timeout <= now - b.last then ToHalfOpen(b) else b
  }

  /** How a call is let in; its outcome is later handled according to this. */
  datatype Admission = Rejected | AsProbe | AsNormal

  function Admit(b: Breaker, now: int): Admission {
    var c := Check(b, now);
    if c.mode == Open || (c.mode == HalfOpen && c.allowed <= 0) then Rejected
    else if c.mode == HalfOpen then AsProbe
    else AsNormal
  }

  function Enter(b: Breaker, now: int): Breaker {
    var c := Check(b, now);
    if Admit(b, now) == AsProbe then c.(allowed := c.allowed - 1) else c
  }

  function FinishProbe(b: Breaker, ok: bool, now: int): Breaker {
    if !ok then ToOpen(b, now)
    else if b.quota <= b.successes + 1 then ToClosed(b)
    else b.(successes := b.successes + 1)
  }

  /** The failing path reads the clock twice, for the failure and for the opening. */
  function FinishNormal(b: Breaker, ok: bool, failedAt: int, openedAt: int): Breaker {
    if ok then b.(failures := 0)
    else
      var c := b.(failures := b.failures + 1, last := failedAt);
      if b.max <= c.failures then ToOpen(c, openedAt) else c
  }

  // ---------- Concurrent runs ----------

  datatype Event =
    | Call(now: int)
    | ProbeDone(ok: bool, now: int)
    | NormalDone(ok: bool, failedAt: int, openedAt: int)
    | Ask(now: int)
    | Reset

  /** The breaker and the outstanding calls of both kinds. */
  datatype World = World(b: Breaker, probes: nat, normals: nat)

  function Begin(max: int, timeout: int, halfOpenRequests: int): World {
    World(New(max, timeout, halfOpenRequests), 0, 0)
  }

  /** An outcome that no call is waiting for changes nothing. */
  function Step(w: World, e: Event): World {
    match e
    case Call(now) =>
      var b := Enter(w.b, now);
      (match Admit(w.b, now)
       case Rejected => w.(b := b)
       case AsProbe => w.(b := b, probes := w.probes + 1)
       case AsNormal => w.(b := b, normals := w.normals + 1))
    case ProbeDone(ok, now) =>
      if w.probes == 0 then w else w.(b := FinishProbe(w.b, ok, now), probes := w.probes - 1)
    case NormalDone(ok, failedAt, openedAt) =>
      if w.normals == 0 then w else w.(b := FinishNormal(w.b, ok, failedAt, openedAt), normals := w.normals - 1)
    case Ask(now) => w.(b := Check(w.b, now))
    case Reset => w.(b := ToClosed(w.b))
  }

  function Run(w: World, events: seq<Event>): World
    decreases events
  {
    if events == [] then w else Run(Step(w, events[0]), events[1..])
  }

  // ---------- The log of a run, kept from events, answers and visible modes ----------

  /** An invocation of fn, and how many openings came before it. */
  datatype Start = Start(at: int, openings: nat)

  /**
   * Outstanding calls of both kinds; failing normal calls since the last success or closing;
   * probe successes since the last change of mode; probes let in since the breaker turned
   * half-open; the instant of the last failing outcome; all openings; all invocations.
   */
  datatype Log = Log(probes: nat, normals: nat, streak: nat, successes: nat, probesIn: nat,
                     lastFailure: int, openings: seq<int>, starts: seq<Start>)

  const EMPTY: Log := Log(0, 0, 0, 0, 0, 0, [], [])

  function AtLeastOne(n: int): nat {
    if n < 1 then 1 else n
  }

  /** The event opens the breaker, once more or for the first time. */
  predicate Opens(max: int, h: Log, e: Event) {
    || (e.ProbeDone? && !e.ok && 0 < h.probes)
    || (e.NormalDone? && !e.ok && 0 < h.normals && AtLeastOne(max) <= h.streak + 1)
  }

  /** The event closes the breaker: a reset, or a probe success, late or not, that completes the quota. */
  predicate Closes(halfOpen: int, h: Log, e: Event) {
    e.Reset? || (e.ProbeDone? && e.ok && 0 < h.probes && AtLeastOne(halfOpen) <= h.successes + 1)
  }

  /** The breaker was open and, looked at, no longer is: a half-open period begins. */
  function Looked(w: World, h: Log, e: Event): Log {
    if w.b.mode == Open && Step(w, e).b.mode != Open then h.(successes := 0, probesIn := 0) else h
  }

  function Note(max: int, halfOpen: int, w: World, h: Log, e: Event): Log {
    match e
    case Ask(_) => Looked(w, h, e)
    case Call(now) =>
      var l := Looked(w, h, e);
      var starts := h.starts + [Start(now, |h.openings|)];
      (match Admit(w.b, now)
       case Rejected => l
       case AsProbe => l.(probes := h.probes + 1, probesIn := l.probesIn + 1, starts := starts)
       case AsNormal => l.(normals := h.normals + 1, starts := starts))
    case Reset => h.(streak := 0, successes := 0)
    case ProbeDone(ok, now) =>
      if h.probes == 0 then h
      else if Opens(max, h, e) then
        h.(probes := h.probes - 1, successes := 0, lastFailure := now, openings := h.openings + [now])
      else if Closes(halfOpen, h, e) then h.(probes := h.probes - 1, streak := 0, successes := 0)
      else h.(probes := h.probes - 1, successes := h.successes + 1)
    case NormalDone(ok, failedAt, openedAt) =>
      if h.normals == 0 then h
      else if ok then h.(normals := h.normals - 1, streak := 0)
      else if Opens(max, h, e) then
        h.(normals := h.normals - 1, streak := h.streak + 1, successes := 0, lastFailure := openedAt,
           openings := h.openings + [openedAt])
      else h.(normals := h.normals - 1, streak := h.streak + 1, lastFailure := failedAt)
  }

  function LogFrom(max: int, halfOpen: int, w: World, h: Log, events: seq<Event>): Log
    decreases events
  {
    if events == [] then h
    else LogFrom(max, halfOpen, Step(w, events[0]), Note(max, halfOpen, w, h, events[0]), events[1..])
  }

  function Reach(max: int, timeout: int, halfOpen: int, events: seq<Event>): World {
    Run(Begin(max, timeout, halfOpen), events)
  }

  function History(max: int, timeout: int, halfOpen: int, events: seq<Event>): Log {
    LogFrom(max, halfOpen, Begin(max, timeout, halfOpen), EMPTY, events)
  }

  /** The fields are what the log says. */
  predicate Inv(max: int, halfOpen: int, w: World, h: Log) {
    && w.b.max == max && w.b.quota == AtLeastOne(halfOpen)
    && w.probes == h.probes && w.normals == h.normals
    && w.b.failures == h.streak && w.b.successes == h.successes && w.b.last == h.lastFailure
    && h.successes < w.b.quota
    && (w.b.mode == HalfOpen ==>
          && w.b.allowed + h.probesIn == w.b.quota && 0 <= w.b.allowed
          && h.probesIn <= h.successes + h.probes)
    && (w.b.mode != HalfOpen ==> w.b.allowed == 0)
    && (w.b.mode == Closed ==> h.streak < AtLeastOne(max))
    && (w.b.mode != Closed ==> h.openings != [])
  }

  lemma CallKeepsInv(max: int, halfOpen: int, w: World, h: Log, now: int)
    requires Inv(max, halfOpen, w, h)
    ensures Inv(max, halfOpen, Step(w, Call(now)), Note(max, halfOpen, w, h, Call(now)))
  {}

  lemma OutcomeKeepsInv(max: int, halfOpen: int, w: World, h: Log, e: Event)
    requires Inv(max, halfOpen, w, h) && (e.ProbeDone? || e.NormalDone?)
    ensures Inv(max, halfOpen, Step(w, e), Note(max, halfOpen, w, h, e))
  {}

  lemma StepKeepsInv(max: int, halfOpen: int, w: World, h: Log, e: Event)
    requires Inv(max, halfOpen, w, h)
    ensures Inv(max, halfOpen, Step(w, e), Note(max, halfOpen, w, h, e))
    ensures Step(w, e).b.timeout == w.b.timeout
  {
    match e
    case Call(now) => CallKeepsInv(max, halfOpen, w, h, now);
    case ProbeDone(_, _) => OutcomeKeepsInv(max, halfOpen, w, h, e);
    case NormalDone(_, _, _) => OutcomeKeepsInv(max, halfOpen, w, h, e);
    case Ask(_) =>
    case Reset =>
  }

  lemma {:induction false} RunKeepsInv(max: int, halfOpen: int, w: World, h: Log, events: seq<Event>)
    requires Inv(max, halfOpen, w, h)
    ensures Inv(max, halfOpen, Run(w, events), LogFrom(max, halfOpen, w, h, events))
    ensures Run(w, events).b.timeout == w.b.timeout
    decreases events
  {
    if events != [] {
      StepKeepsInv(max, halfOpen, w, h, events[0]);
      RunKeepsInv(max, halfOpen, Step(w, events[0]), Note(max, halfOpen, w, h, events[0]), events[1..]);
    }
  }

  lemma ReachInv(max: int, timeout: int, halfOpen: int, events: seq<Event>)
    ensures Inv(max, halfOpen, Reach(max, timeout, halfOpen, events), History(max, timeout, halfOpen, events))
    ensures Reach(max, timeout, halfOpen, events).b.timeout == timeout
  {
    RunKeepsInv(max, halfOpen, Begin(max, timeout, halfOpen), EMPTY, events);
  }

  lemma RunCons(w: World, e: Event, rest: seq<Event>)
    ensures Run(w, [e] + rest) == Run(Step(w, e), rest)
  {
    assert ([e] + rest)[1..] == rest;
  }

  lemma {:induction false} Concat(max: int, halfOpen: int, w: World, h: Log, a: seq<Event>, b: seq<Event>)
    ensures Run(w, a + b) == Run(Run(w, a), b)
    ensures LogFrom(max, halfOpen, w, h, a + b)
            == LogFrom(max, halfOpen, Run(w, a), LogFrom(max, halfOpen, w, h, a), b)
    decreases a
  {
    if a == [] {
      assert a + b == b;
    } else {
      assert (a + b)[1..] == a[1..] + b;
      Concat(max, halfOpen, Step(w, a[0]), Note(max, halfOpen, w, h, a[0]), a[1..], b);
    }
  }

  lemma Snoc(max: int, timeout: int, halfOpen: int, events: seq<Event>, e: Event)
    ensures Reach(max, timeout, halfOpen, events + [e]) == Step(Reach(max, timeout, halfOpen, events), e)
    ensures History(max, timeout, halfOpen, events + [e])
            == Note(max, halfOpen, Reach(max, timeout, halfOpen, events), History(max, timeout, halfOpen, events), e)
  {
    var w, h := Reach(max, timeout, halfOpen, events), History(max, timeout, halfOpen, events);
    Concat(max, halfOpen, Begin(max, timeout, halfOpen), EMPTY, events, [e]);
    assert [e] == [e] + [] && [e][1..] == [];
    RunCons(w, e, []);
    assert LogFrom(max, halfOpen, w, h, [e])
        == LogFrom(max, halfOpen, Step(w, e), Note(max, halfOpen, w, h, e), []);
  }

  // ---------- What every run guarantees ----------

  /**
   * The answer to every call of every run: let in while closed; let in as a probe on an open
   * breaker exactly if the timeout has passed since the last failing outcome, and on a half-open
   * one exactly if fewer probes than the quota have been let in; otherwise rejected.
   */
  lemma AdmitsExactly(max: int, timeout: int, halfOpen: int, events: seq<Event>, now: int)
    ensures var w := Reach(max, timeout, halfOpen, events);
            var h := History(max, timeout, halfOpen, events);
            Admit(w.b, now) == match w.b.mode
                               case Closed => AsNormal
                               case Open => if h.lastFailure + timeout <= now then AsProbe else Rejected
                               case HalfOpen => if h.probesIn < AtLeastOne(halfOpen) then AsProbe else Rejected
  {
    ReachInv(max, timeout, halfOpen, events);
  }

  /**
   * The mode after every event of every run: what opens, what closes, and when a look at the
   * clock ends the rest.
   */
  lemma ModeExactly(max: int, timeout: int, halfOpen: int, events: seq<Event>, e: Event)
    ensures var w := Reach(max, timeout, halfOpen, events);
            var h := History(max, timeout, halfOpen, events);
            var r := Reach(max, timeout, halfOpen, events + [e]);
            && (r.b.mode == Closed <==> Closes(halfOpen, h, e) || (w.b.mode == Closed && !Opens(max, h, e)))
            && (r.b.mode == HalfOpen
                <==> || (w.b.mode == Open && (e.Call? || e.Ask?) && h.lastFailure + timeout <= e.now)
                     || (w.b.mode == HalfOpen && !Opens(max, h, e) && !Closes(halfOpen, h, e)))
  {
    ReachInv(max, timeout, halfOpen, events);
    Snoc(max, timeout, halfOpen, events, e);
  }

  /**
   * The breaker is never wedged half-open: for every overlap of calls, late outcomes and resets,
   * every probe of the period has succeeded or is outstanding, so the next call is let in or an
   * outstanding probe can still decide.
   */
  lemma NeverWedged(max: int, timeout: int, halfOpen: int, events: seq<Event>, now: int)
    ensures var w := Reach(max, timeout, halfOpen, events);
            var h := History(max, timeout, halfOpen, events);
            w.b.mode == HalfOpen ==>
              && h.probesIn <= h.successes + h.probes
              && h.successes < AtLeastOne(halfOpen)
              && (Admit(w.b, now) == AsProbe || 0 < h.probes)
  {
    ReachInv(max, timeout, halfOpen, events);
  }

  /** No half-open period lets in more probes than the quota. */
  lemma ProbesLimited(max: int, timeout: int, halfOpen: int, events: seq<Event>)
    ensures var w := Reach(max, timeout, halfOpen, events);
            && (w.b.mode == HalfOpen ==> History(max, timeout, halfOpen, events).probesIn <= AtLeastOne(halfOpen))
            && (w.b.mode != HalfOpen ==> w.b.allowed == 0)
  {
    ReachInv(max, timeout, halfOpen, events);
  }

  /** The counter is the run of failures since the last success or closing, and stays below the limit. */
  lemma FailuresCounted(max: int, timeout: int, halfOpen: int, events: seq<Event>)
    ensures var w := Reach(max, timeout, halfOpen, events);
            var h := History(max, timeout, halfOpen, events);
            && w.b.failures == h.streak
            && (w.b.mode == Closed ==> h.streak < AtLeastOne(max))
  {
    ReachInv(max, timeout, halfOpen, events);
  }

  /**
   * In every run an event makes the breaker leave Open exactly in one of three ways: the timeout
   * has passed since the last failing outcome, a reset, or a late probe success that completes
   * the quota.
   */
  lemma LeavesOpenExactly(max: int, timeout: int, halfOpen: int, events: seq<Event>, e: Event)
    requires Reach(max, timeout, halfOpen, events).b.mode == Open
    ensures var h := History(max, timeout, halfOpen, events);
            var r := Reach(max, timeout, halfOpen, events + [e]);
            && (r.b.mode == HalfOpen <==> (e.Call? || e.Ask?) && h.lastFailure + timeout <= e.now)
            && (r.b.mode == Closed <==> Closes(halfOpen, h, e))
  {
    ModeExactly(max, timeout, halfOpen, events, e);
  }

  // ---------- Calls one after the other ----------

  /** A call with its outcome, or a look at the state. */
  datatype Op = Do(now: int, ok: bool, failedAt: int, openedAt: int) | Look(now: int)

  /** The events of one operation: the outcome follows if the call is let in. */
  function Steps(w: World, op: Op): seq<Event> {
    match op
    case Look(now) => [Ask(now)]
    case Do(now, ok, failedAt, openedAt) =>
      match Admit(w.b, now)
      case Rejected => [Call(now)]
      case AsProbe => [Call(now), ProbeDone(ok, openedAt)]
      case AsNormal => [Call(now), NormalDone(ok, failedAt, openedAt)]
  }

  function Script(w: World, ops: seq<Op>): seq<Event>
    decreases ops
  {
    if ops == [] then [] else Steps(w, ops[0]) + Script(Run(w, Steps(w, ops[0])), ops[1..])
  }

  predicate Ordered(clock: int, ops: seq<Op>)
    decreases ops
  {
    ops == [] ||
    (&& clock <= ops[0].now
     && (ops[0].Do? ==> ops[0].now <= ops[0].failedAt <= ops[0].openedAt)
     && Ordered(OpEnd(ops[0]), ops[1..]))
  }

  function OpEnd(op: Op): int {
    if op.Do? then op.openedAt else op.now
  }

  /** Every invocation so far came a full timeout after every opening before it. */
  ghost predicate Rested(h: Log, timeout: int) {
    && (forall j :: 0 <= j < |h.starts| ==> h.starts[j].openings <= |h.openings|)
    && (forall i, j :: 0 <= j < |h.starts| && 0 <= i < h.starts[j].openings && i < |h.openings|
                       ==> h.openings[i] + timeout <= h.starts[j].at)
  }

  /** Nothing is outstanding; open means the last opening is remembered, otherwise all are a timeout ago. */
  ghost predicate Quiet(w: World, h: Log, clock: int) {
    && h.probes == 0 && h.normals == 0 && Rested(h, w.b.timeout)
    && (w.b.mode == Open ==> forall i :: 0 <= i < |h.openings| ==> h.openings[i] <= h.lastFailure)
    && (w.b.mode != Open ==> forall i :: 0 <= i < |h.openings| ==> h.openings[i] + w.b.timeout <= clock)
    && (forall i :: 0 <= i < |h.openings| ==> h.openings[i] <= clock)
  }

  /** A call that is let in comes after a full rest. */
  lemma CallRested(max: int, halfOpen: int, w: World, h: Log, clock: int, now: int)
    requires Inv(max, halfOpen, w, h) && Quiet(w, h, clock) && clock <= now
    ensures var l := Note(max, halfOpen, w, h, Call(now));
            && Rested(l, w.b.timeout) && l.openings == h.openings
            && (Admit(w.b, now) == Rejected ==> Quiet(Step(w, Call(now)), l, now))
            && (Admit(w.b, now) == AsProbe ==> l.probes == 1 && l.normals == 0 && Step(w, Call(now)).b.mode == HalfOpen)
            && (Admit(w.b, now) == AsNormal ==> l.probes == 0 && l.normals == 1 && Step(w, Call(now)).b.mode == Closed)
            && (Admit(w.b, now) != Rejected ==>
                  forall i :: 0 <= i < |l.openings| ==> l.openings[i] + w.b.timeout <= now)
  {}

  /** A call that was let in after a full rest finishes. */
  lemma OutcomeKeepsQuiet(max: int, halfOpen: int, w: World, h: Log, now: int, e: Event)
    requires Inv(max, halfOpen, w, h) && Rested(h, w.b.timeout)
    requires forall i :: 0 <= i < |h.openings| ==> h.openings[i] + w.b.timeout <= now && h.openings[i] <= now
    requires || (e.ProbeDone? && now <= e.now && h.probes == 1 && h.normals == 0 && w.b.mode == HalfOpen)
             || (e.NormalDone? && now <= e.failedAt <= e.openedAt && h.probes == 0 && h.normals == 1
                 && w.b.mode == Closed)
    ensures Quiet(Step(w, e), Note(max, halfOpen, w, h, e), if e.ProbeDone? then e.now else e.openedAt)
  {}

  lemma QuietLater(w: World, h: Log, clock: int, end: int)
    requires Quiet(w, h, clock) && clock <= end
    ensures Quiet(w, h, end)
  {}

  lemma LogOfTwo(max: int, halfOpen: int, w: World, h: Log, a: Event, b: Event)
    ensures Run(w, [a, b]) == Step(Step(w, a), b)
    ensures LogFrom(max, halfOpen, w, h, [a, b])
            == Note(max, halfOpen, Step(w, a), Note(max, halfOpen, w, h, a), b)
  {
    LogOfOne(max, halfOpen, Step(w, a), Note(max, halfOpen, w, h, a), b);
    assert [a, b][1..] == [b];
  }

  lemma LogOfOne(max: int, halfOpen: int, w: World, h: Log, e: Event)
    ensures Run(w, [e]) == Step(w, e) && LogFrom(max, halfOpen, w, h, [e]) == Note(max, halfOpen, w, h, e)
  {
    assert [e][1..] == [];
    assert Run(w, [e]) == Run(Step(w, e), []);
    assert LogFrom(max, halfOpen, w, h, [e])
        == LogFrom(max, halfOpen, Step(w, e), Note(max, halfOpen, w, h, e), []);
  }

  lemma DoKeepsQuiet(max: int, halfOpen: int, w: World, h: Log, clock: int, op: Op)
    requires Inv(max, halfOpen, w, h) && Quiet(w, h, clock) && op.Do? && Ordered(clock, [op])
    ensures Quiet(Run(w, Steps(w, op)), LogFrom(max, halfOpen, w, h, Steps(w, op)), OpEnd(op))
  {
    var c, l := Step(w, Call(op.now)), Note(max, halfOpen, w, h, Call(op.now));
    CallRested(max, halfOpen, w, h, clock, op.now);
    StepKeepsInv(max, halfOpen, w, h, Call(op.now));
    match Admit(w.b, op.now)
    case Rejected =>
      LogOfOne(max, halfOpen, w, h, Call(op.now));
      QuietLater(c, l, op.now, op.openedAt);
    case AsProbe =>
      LogOfTwo(max, halfOpen, w, h, Call(op.now), ProbeDone(op.ok, op.openedAt));
      OutcomeKeepsQuiet(max, halfOpen, c, l, op.now, ProbeDone(op.ok, op.openedAt));
    case AsNormal =>
      LogOfTwo(max, halfOpen, w, h, Call(op.now), NormalDone(op.ok, op.failedAt, op.openedAt));
      OutcomeKeepsQuiet(max, halfOpen, c, l, op.now, NormalDone(op.ok, op.failedAt, op.openedAt));
  }

  lemma OpKeepsQuiet(max: int, halfOpen: int, w: World, h: Log, clock: int, op: Op)
    requires Inv(max, halfOpen, w, h) && Quiet(w, h, clock) && Ordered(clock, [op])
    ensures Quiet(Run(w, Steps(w, op)), LogFrom(max, halfOpen, w, h, Steps(w, op)), OpEnd(op))
  {
    if op.Do? {
      DoKeepsQuiet(max, halfOpen, w, h, clock, op);
    } else {
      LogOfOne(max, halfOpen, w, h, Ask(op.now));
    }
  }

  function End(clock: int, ops: seq<Op>): int
    decreases ops
  {
    if ops == [] then clock else End(OpEnd(ops[0]), ops[1..])
  }

  lemma {:induction false} ScriptKeepsQuiet(max: int, halfOpen: int, w: World, h: Log, clock: int, ops: seq<Op>)
    requires Inv(max, halfOpen, w, h) && Quiet(w, h, clock) && Ordered(clock, ops)
    ensures Quiet(Run(w, Script(w, ops)), LogFrom(max, halfOpen, w, h, Script(w, ops)), End(clock, ops))
    decreases ops
  {
    if ops != [] {
      var first := Steps(w, ops[0]);
      OpKeepsQuiet(max, halfOpen, w, h, clock, ops[0]);
      RunKeepsInv(max, halfOpen, w, h, first);
      ScriptKeepsQuiet(max, halfOpen, Run(w, first), LogFrom(max, halfOpen, w, h, first), OpEnd(ops[0]), ops[1..]);
      Concat(max, halfOpen, w, h, first, Script(Run(w, first), ops[1..]));
    }
  }

  /** Without overlap and resets no fn is invoked within the timeout of any opening before it. */
  lemma RestAfterOpening(max: int, timeout: int, halfOpen: int, clock: int, ops: seq<Op>)
    requires Ordered(clock, ops)
    ensures Rested(History(max, timeout, halfOpen, Script(Begin(max, timeout, halfOpen), ops)), timeout)
  {
    var w := Begin(max, timeout, halfOpen);
    ScriptKeepsQuiet(max, halfOpen, w, EMPTY, clock, ops);
    ReachInv(max, timeout, halfOpen, Script(w, ops));
  }

  // ---------- With overlap ----------

  /** Something closed the breaker and nothing has opened it since. */
  ghost predicate ClosedSince(max: int, timeout: int, halfOpen: int, events: seq<Event>) {
    exists k :: 0 <= k < |events| && ClosesAt(max, timeout, halfOpen, events, k)
                && forall j :: k < j < |events| ==> !OpensAt(max, timeout, halfOpen, events, j)
  }

  predicate ClosesAt(max: int, timeout: int, halfOpen: int, events: seq<Event>, k: nat)
    requires k < |events|
  {
    Closes(halfOpen, History(max, timeout, halfOpen, events[..k]), events[k])
  }

  predicate OpensAt(max: int, timeout: int, halfOpen: int, events: seq<Event>, k: nat)
    requires k < |events|
  {
    Opens(max, History(max, timeout, halfOpen, events[..k]), events[k])
  }

  lemma SameAt(max: int, timeout: int, halfOpen: int, events: seq<Event>, e: Event, k: nat)
    requires k < |events|
    ensures ClosesAt(max, timeout, halfOpen, events + [e], k) <==> ClosesAt(max, timeout, halfOpen, events, k)
    ensures OpensAt(max, timeout, halfOpen, events + [e], k) <==> OpensAt(max, timeout, halfOpen, events, k)
  {
    assert (events + [e])[..k] == events[..k];
  }

  lemma ClosedSinceSnoc(max: int, timeout: int, halfOpen: int, events: seq<Event>, e: Event)
    ensures var h := History(max, timeout, halfOpen, events);
            ClosedSince(max, timeout, halfOpen, events + [e])
            <==> Closes(halfOpen, h, e) || (ClosedSince(max, timeout, halfOpen, events) && !Opens(max, h, e))
  {
    var all, n := events + [e], |events|;
    assert all[..n] == events;
    assert ClosesAt(max, timeout, halfOpen, all, n) <==> Closes(halfOpen, History(max, timeout, halfOpen, events), e);
    assert OpensAt(max, timeout, halfOpen, all, n) <==> Opens(max, History(max, timeout, halfOpen, events), e);
    forall k | 0 <= k < n
      ensures ClosesAt(max, timeout, halfOpen, all, k) <==> ClosesAt(max, timeout, halfOpen, events, k)
      ensures OpensAt(max, timeout, halfOpen, all, k) <==> OpensAt(max, timeout, halfOpen, events, k)
    {
      SameAt(max, timeout, halfOpen, events, e, k);
    }
  }

  /** The readings of a concurrent run never go back. */
  predicate Timely(clock: int, e: Event) {
    match e
    case Reset => true
    case NormalDone(ok, failedAt, openedAt) => clock <= failedAt <= openedAt
    case _ => clock <= e.now
  }

  function Clock(clock: int, e: Event): int {
    match e
    case Reset => clock
    case NormalDone(ok, failedAt, openedAt) => openedAt
    case _ => e.now
  }

  function ClockAfter(clock: int, events: seq<Event>): int
    decreases events
  {
    if events == [] then clock else ClockAfter(Clock(clock, events[0]), events[1..])
  }

  predicate AllTimely(clock: int, events: seq<Event>)
    decreases events
  {
    events == [] || (Timely(clock, events[0]) && AllTimely(Clock(clock, events[0]), events[1..]))
  }

  /**
   * While the breaker is open the last failure is not before any opening; half-open means that
   * all openings are a timeout ago.
   */
  ghost predicate Resting(w: World, h: Log, clock: int) {
    && (w.b.mode == Open ==> forall t :: t in h.openings ==> t <= h.lastFailure)
    && (w.b.mode == HalfOpen ==> forall t :: t in h.openings ==> t + w.b.timeout <= clock)
    && (forall t :: t in h.openings ==> t <= clock)
  }

  lemma StepKeepsResting(max: int, halfOpen: int, w: World, h: Log, clock: int, e: Event)
    requires Inv(max, halfOpen, w, h) && Resting(w, h, clock) && Timely(clock, e)
    ensures Resting(Step(w, e), Note(max, halfOpen, w, h, e), Clock(clock, e))
  {}

  lemma {:induction false} RunKeepsResting(max: int, halfOpen: int, w: World, h: Log, clock: int, events: seq<Event>)
    requires Inv(max, halfOpen, w, h) && Resting(w, h, clock) && AllTimely(clock, events)
    ensures Resting(Run(w, events), LogFrom(max, halfOpen, w, h, events), ClockAfter(clock, events))
    decreases events
  {
    if events != [] {
      var e := events[0];
      StepKeepsInv(max, halfOpen, w, h, e);
      StepKeepsResting(max, halfOpen, w, h, clock, e);
      RunKeepsResting(max, halfOpen, Step(w, e), Note(max, halfOpen, w, h, e), Clock(clock, e), events[1..]);
    }
  }

  /** Closed means never opened, or closed since the last opening. */
  lemma {:induction false} ClosedExactly(max: int, timeout: int, halfOpen: int, events: seq<Event>)
    ensures Reach(max, timeout, halfOpen, events).b.mode == Closed
            <==> History(max, timeout, halfOpen, events).openings == [] || ClosedSince(max, timeout, halfOpen, events)
    decreases |events|
  {
    if events != [] {
      var before, e := events[..|events| - 1], events[|events| - 1];
      assert events == before + [e];
      ClosedExactly(max, timeout, halfOpen, before);
      ReachInv(max, timeout, halfOpen, before);
      ModeExactly(max, timeout, halfOpen, before, e);
      Snoc(max, timeout, halfOpen, before, e);
      ClosedSinceSnoc(max, timeout, halfOpen, before, e);
    }
  }

  /**
   * For every overlap of calls: within the timeout of an opening a call is let in exactly if a
   * reset, or a probe success that completed the quota, has closed the breaker since.
   */
  lemma EarlyAdmissionExactly(max: int, timeout: int, halfOpen: int, clock: int, events: seq<Event>, now: int)
    requires AllTimely(clock, events) && ClockAfter(clock, events) <= now
    requires var h := History(max, timeout, halfOpen, events);
             h.openings != [] && now < h.openings[|h.openings| - 1] + timeout
    ensures Admit(Reach(max, timeout, halfOpen, events).b, now) != Rejected
            <==> ClosedSince(max, timeout, halfOpen, events)
  {
    var h := History(max, timeout, halfOpen, events);
    ClosedExactly(max, timeout, halfOpen, events);
    ReachInv(max, timeout, halfOpen, events);
    RunKeepsResting(max, halfOpen, Begin(max, timeout, halfOpen), EMPTY, clock, events);
    assert h.openings[|h.openings| - 1] in h.openings;
  }

  /** It does happen, at any time t: a late probe closes the breaker one tick after it opened. */
  lemma LateProbeClosesEarly(t: int)
    ensures var h := History(1, 10, 1, Overlap(t) + [NormalDone(false, t + 11, t + 11), ProbeDone(true, t + 12)]
                                       + [Call(t + 12)]);
            && h.openings == [t, t + 11]
            && h.starts == [Start(t, 0), Start(t, 0), Start(t + 10, 1), Start(t + 12, 2)]
            && h.openings[1] + 10 > h.starts[3].at
  {
    var w0, late := Begin(1, 10, 1), [NormalDone(false, t + 11, t + 11), ProbeDone(true, t + 12)];
    OpensTwice(t);
    ClosesEarly(t);
    Concat(1, 1, w0, EMPTY, Overlap(t), late);
    Snoc(1, 10, 1, Overlap(t) + late, Call(t + 12));
  }

  /** Two calls overlap, the first failure opens the breaker, a probe is let in after the timeout. */
  function Overlap(t: int): seq<Event> {
    [Call(t), Call(t)] + [NormalDone(false, t, t), Call(t + 10)]
  }

  /** The breaker and the log when both calls are out, and when the probe and one of them is. */
  function Both(): World {
    World(New(1, 10, 1), 0, 2)
  }

  function BothLog(t: int): Log {
    Log(0, 2, 0, 0, 0, 0, [], [Start(t, 0), Start(t, 0)])
  }

  function Mixed(t: int): World {
    World(Breaker(1, 10, 1, HalfOpen, 1, 0, 0, t), 1, 1)
  }

  function MixedLog(t: int): Log {
    Log(1, 1, 1, 0, 1, t, [t], [Start(t, 0), Start(t, 0), Start(t + 10, 1)])
  }

  lemma BothStart(t: int)
    ensures Run(Begin(1, 10, 1), [Call(t), Call(t)]) == Both()
    ensures LogFrom(1, 1, Begin(1, 10, 1), EMPTY, [Call(t), Call(t)]) == BothLog(t)
  {
    var w0 := Begin(1, 10, 1);
    LogOfTwo(1, 1, w0, EMPTY, Call(t), Call(t));
    assert Note(1, 1, w0, EMPTY, Call(t)).starts == [Start(t, 0)];
  }

  lemma FirstFails(t: int)
    ensures Run(Both(), [NormalDone(false, t, t), Call(t + 10)]) == Mixed(t)
    ensures LogFrom(1, 1, Both(), BothLog(t), [NormalDone(false, t, t), Call(t + 10)]) == MixedLog(t)
  {
    LogOfTwo(1, 1, Both(), BothLog(t), NormalDone(false, t, t), Call(t + 10));
    var w3, h3 := Step(Both(), NormalDone(false, t, t)), Note(1, 1, Both(), BothLog(t), NormalDone(false, t, t));
    assert w3 == World(Breaker(1, 10, 1, Open, 1, 0, 0, t), 0, 1) && h3.openings == [t];
  }

  lemma OpensTwice(t: int)
    ensures Reach(1, 10, 1, Overlap(t)) == Mixed(t) && History(1, 10, 1, Overlap(t)) == MixedLog(t)
  {
    BothStart(t);
    FirstFails(t);
    Concat(1, 1, Begin(1, 10, 1), EMPTY, [Call(t), Call(t)], [NormalDone(false, t, t), Call(t + 10)]);
  }

  /** The second failure opens the breaker again while the probe is out; the probe closes it. */
  lemma ClosesEarly(t: int)
    ensures var events := [NormalDone(false, t + 11, t + 11), ProbeDone(true, t + 12)];
            var h := LogFrom(1, 1, Mixed(t), MixedLog(t), events);
            && h.openings == [t, t + 11] && h.starts == MixedLog(t).starts
            && Run(Mixed(t), events).b.mode == Closed
  {
    var w, h, e := Mixed(t), MixedLog(t), NormalDone(false, t + 11, t + 11);
    LogOfTwo(1, 1, w, h, e, ProbeDone(true, t + 12));
    assert Step(w, e).b == Breaker(1, 10, 1, Open, 2, 0, 0, t + 11) && Note(1, 1, w, h, e).openings == [t, t + 11];
  }

  // ---------- Tripping and recovering ----------

  /** So many calls at one instant, all with the same outcome. */
  function Same(n: nat, ok: bool, now: int): seq<Op> {
    if n == 0 then [] else [Do(now, ok, now, now)] + Same(n - 1, ok, now)
  }

  /** So many calls at one instant that are let in as probes and succeed. */
  function Probes(n: nat, now: int): seq<Event> {
    if n == 0 then [] else [Call(now), ProbeDone(true, now)] + Probes(n - 1, now)
  }

  function Normals(n: nat, now: int): seq<Event> {
    if n == 0 then [] else [Call(now), NormalDone(false, now, now)] + Normals(n - 1, now)
  }

  lemma ScriptOfSame(w: World, n: nat, ok: bool, now: int)
    requires 0 < n
    ensures var first := Steps(w, Do(now, ok, now, now));
            Script(w, Same(n, ok, now)) == first + Script(Run(w, first), Same(n - 1, ok, now))
  {
    assert Same(n, ok, now) == [Do(now, ok, now, now)] + Same(n - 1, ok, now);
    assert Same(n, ok, now)[1..] == Same(n - 1, ok, now);
  }

  lemma {:induction false} ProbesCount(max: int, halfOpen: int, w: World, h: Log, n: nat, now: int)
    requires Inv(max, halfOpen, w, h) && h.probes == 0 && w.b.mode == HalfOpen
    requires n <= AtLeastOne(halfOpen) - h.successes
    ensures Script(w, Same(n, true, now)) == Probes(n, now)
    ensures var r := Run(w, Probes(n, now));
            && (r.b.mode == Closed <==> n == AtLeastOne(halfOpen) - h.successes)
            && (r.b.mode == Closed ==> r.b.failures == 0) && r.b.mode != Open
    decreases n
  {
    if n != 0 {
      var e1, e2 := Call(now), ProbeDone(true, now);
      var c, l := Step(w, e1), Note(max, halfOpen, w, h, e1);
      assert Admit(w.b, now) == AsProbe;
      StepKeepsInv(max, halfOpen, w, h, e1);
      StepKeepsInv(max, halfOpen, c, l, e2);
      LogOfTwo(max, halfOpen, w, h, e1, e2);
      ScriptOfSame(w, n, true, now);
      Concat(max, halfOpen, w, h, [e1, e2], Probes(n - 1, now));
      if n == 1 {
        assert Same(0, true, now) == [] && Probes(0, now) == [] && [e1, e2] + [] == [e1, e2];
      } else {
        ProbesCount(max, halfOpen, Step(c, e2), Note(max, halfOpen, c, l, e2), n - 1, now);
      }
    }
  }

  /**
   * From half-open with nothing outstanding: successful calls one after the other are all let in
   * as probes, and they close the breaker exactly when they complete the quota.
   */
  lemma FewerProbesDoNotClose(max: int, timeout: int, halfOpen: int, events: seq<Event>, n: nat, now: int)
    requires Reach(max, timeout, halfOpen, events).b.mode == HalfOpen
    requires var h := History(max, timeout, halfOpen, events);
             h.probes == 0 && n <= AtLeastOne(halfOpen) - h.successes
    ensures var w := Reach(max, timeout, halfOpen, events);
            var h := History(max, timeout, halfOpen, events);
            && Script(w, Same(n, true, now)) == Probes(n, now)
            && (Run(w, Probes(n, now)).b.mode == Closed <==> n == AtLeastOne(halfOpen) - h.successes)
            && Run(w, Probes(n, now)).b.mode != Open
  {
    ReachInv(max, timeout, halfOpen, events);
    ProbesCount(max, halfOpen, Reach(max, timeout, halfOpen, events), History(max, timeout, halfOpen, events), n, now);
  }

  /**
   * Recovery. Whatever happened before, once no probe is outstanding and the timeout has passed
   * since the last failing outcome, as many successful calls as the quota are all let in and leave
   * the breaker closed.
   */
  lemma Recovers(max: int, timeout: int, halfOpen: int, events: seq<Event>, now: int)
    requires Reach(max, timeout, halfOpen, events).b.mode == Open
    requires var h := History(max, timeout, halfOpen, events); h.probes == 0 && h.lastFailure + timeout <= now
    ensures var w := Reach(max, timeout, halfOpen, events);
            var n := AtLeastOne(halfOpen);
            && Script(w, Same(n, true, now)) == Probes(n, now)
            && Run(w, Probes(n, now)).b.mode == Closed && Run(w, Probes(n, now)).b.failures == 0
  {
    var w, h := Reach(max, timeout, halfOpen, events), History(max, timeout, halfOpen, events);
    var n := AtLeastOne(halfOpen);
    ReachInv(max, timeout, halfOpen, events);
    StepKeepsInv(max, halfOpen, w, h, Ask(now));
    var p := Step(w, Ask(now));
    ProbesCount(max, halfOpen, p, Note(max, halfOpen, w, h, Ask(now)), n, now);
    assert Step(p, Call(now)) == Step(w, Call(now));
    SameFromProbe(w, p, n, now);
  }

  /** Looking at the state first makes no difference. */
  lemma SameFromProbe(w: World, p: World, n: nat, now: int)
    requires 0 < n && Step(p, Call(now)) == Step(w, Call(now))
    requires Steps(p, Do(now, true, now, now)) == Steps(w, Do(now, true, now, now)) == [Call(now), ProbeDone(true, now)]
    ensures Script(w, Same(n, true, now)) == Script(p, Same(n, true, now))
    ensures Run(w, Probes(n, now)) == Run(p, Probes(n, now))
  {
    var two, rest := [Call(now), ProbeDone(true, now)], Probes(n - 1, now);
    ScriptOfSame(w, n, true, now);
    ScriptOfSame(p, n, true, now);
    LogOfTwo(0, 0, w, EMPTY, Call(now), ProbeDone(true, now));
    LogOfTwo(0, 0, p, EMPTY, Call(now), ProbeDone(true, now));
    Concat(0, 0, w, EMPTY, two, rest);
    Concat(0, 0, p, EMPTY, two, rest);
    assert Probes(n, now) == two + rest;
  }

  lemma {:induction false} FailuresCount(max: int, halfOpen: int, w: World, h: Log, n: nat, now: int)
    requires Inv(max, halfOpen, w, h) && h.normals == 0 && w.b.mode == Closed && n <= AtLeastOne(max) - h.streak
    ensures Script(w, Same(n, false, now)) == Normals(n, now)
    ensures var r := Run(w, Normals(n, now));
            && (r.b.mode == Open <==> n == AtLeastOne(max) - h.streak)
            && (r.b.mode == Closed <==> n < AtLeastOne(max) - h.streak)
    decreases n
  {
    if n != 0 {
      var e1, e2 := Call(now), NormalDone(false, now, now);
      var c, l := Step(w, e1), Note(max, halfOpen, w, h, e1);
      assert Admit(w.b, now) == AsNormal;
      StepKeepsInv(max, halfOpen, w, h, e1);
      StepKeepsInv(max, halfOpen, c, l, e2);
      LogOfTwo(max, halfOpen, w, h, e1, e2);
      ScriptOfSame(w, n, false, now);
      Concat(max, halfOpen, w, h, [e1, e2], Normals(n - 1, now));
      if n == 1 {
        assert Same(0, false, now) == [] && Normals(0, now) == [] && [e1, e2] + [] == [e1, e2];
      } else {
        FailuresCount(max, halfOpen, Step(c, e2), Note(max, halfOpen, c, l, e2), n - 1, now);
      }
    }
  }

  /** A new breaker lets failing calls in until there are MaxFailures of them, or one; then it is open. */
  lemma TripsExactly(max: int, timeout: int, halfOpen: int, n: nat, now: int)
    requires n <= AtLeastOne(max)
    ensures var w := Begin(max, timeout, halfOpen);
            && Script(w, Same(n, false, now)) == Normals(n, now)
            && (Run(w, Normals(n, now)).b.mode == Open <==> n == AtLeastOne(max))
            && (Run(w, Normals(n, now)).b.mode == Closed <==> n < AtLeastOne(max))
  {
    ReachInv(max, timeout, halfOpen, []);
    FailuresCount(max, halfOpen, Begin(max, timeout, halfOpen), EMPTY, n, now);
  }

  /**
   * What the outcome of a probe does in any run, early or late: a failure opens the breaker in
   * every mode, a success closes it if the quota is complete.
   */
  lemma ProbeOutcome(max: int, timeout: int, halfOpen: int, events: seq<Event>, ok: bool, now: int)
    requires 0 < History(max, timeout, halfOpen, events).probes
    ensures var w := Reach(max, timeout, halfOpen, events);
            var h := History(max, timeout, halfOpen, events);
            var r := Reach(max, timeout, halfOpen, events + [ProbeDone(ok, now)]);
            && (r.b.mode == Open <==> !ok || (w.b.mode == Open && h.successes + 1 < AtLeastOne(halfOpen)))
            && (r.b.mode == Closed <==> ok && (w.b.mode == Closed || h.successes + 1 == AtLeastOne(halfOpen)))
  {
    ReachInv(max, timeout, halfOpen, events);
    ModeExactly(max, timeout, halfOpen, events, ProbeDone(ok, now));
  }

  /** A probe that fails after the breaker has been closed does reopen it, at any time t. */
  lemma LateProbeReopens(t: int)
    ensures var before := [Call(t), NormalDone(false, t, t)] + [Call(t + 10), Reset];
            && Reach(1, 10, 1, before).b.mode == Closed
            && Reach(1, 10, 1, before + [ProbeDone(false, t + 11)]).b.mode == Open
  {
    var w0 := Begin(1, 10, 1);
    LogOfTwo(1, 1, w0, EMPTY, Call(t), NormalDone(false, t, t));
    var w2 := Step(Step(w0, Call(t)), NormalDone(false, t, t));
    assert w2 == World(Breaker(1, 10, 1, Open, 1, 0, 0, t), 0, 0);
    LogOfTwo(1, 1, w2, EMPTY, Call(t + 10), Reset);
    assert Step(Step(w2, Call(t + 10)), Reset) == World(Breaker(1, 10, 1, Closed, 0, 0, 0, t), 1, 0);
    Concat(1, 1, w0, EMPTY, [Call(t), NormalDone(false, t, t)], [Call(t + 10), Reset]);
    Snoc(1, 10, 1, [Call(t), NormalDone(false, t, t)] + [Call(t + 10), Reset], ProbeDone(false, t + 11));
  }

  // ---------- The struct ----------

  class CircuitBreaker {
    const maxFailures: int
    const timeout: int
    const halfOpenRequests: int
    var state: Mode
    var failures: int
    var successes: int
    var halfOpenAllowed: int
    var lastFailure: int

    ghost function Abs(): Breaker
      reads this
    {
      Breaker(maxFailures, timeout, halfOpenRequests, state, failures, successes, halfOpenAllowed, lastFailure)
    }

    constructor (max: int, timeout: int, halfOpen: int)
      ensures Abs() == New(max, timeout, halfOpen)
    {
      maxFailures, this.timeout := max, timeout;
      halfOpenRequests := Quota(halfOpen);
      state, failures, successes, halfOpenAllowed, lastFailure := Closed, 0, 0, 0, 0;
    }

    method Opening(now: int)
      modifies this
      ensures Abs() == ToOpen(old(Abs()), now)
    {
      state, lastFailure, successes, halfOpenAllowed := Open, now, 0, 0;
    }

    method Closing()
      modifies this
      ensures Abs() == ToClosed(old(Abs()))
    {
      state, failures, successes, halfOpenAllowed := Closed, 0, 0, 0;
    }

    method CheckStateTransition(now: int)
      modifies this
      ensures Abs() == Check(old(Abs()), now)
    {
      if state == Open && timeout <= now - lastFailure {
        state, successes, halfOpenAllowed := HalfOpen, 0, halfOpenRequests;
      }
    }

    /** Execute up to the call of fn. */
    method BeginExecute(now: int) returns (a: Admission)
      modifies this
      ensures a == Admit(old(Abs()), now) && Abs() == Enter(old(Abs()), now)
    {
      CheckStateTransition(now);
      match state
      case Open => return Rejected;
      case HalfOpen =>
        if halfOpenAllowed <= 0 {
          return Rejected;
        }
        halfOpenAllowed := halfOpenAllowed - 1;
        return AsProbe;
      case Closed => return AsNormal;
    }

    /** Execute after fn has returned, for a call let in as a probe. */
    method EndProbe(ok: bool, now: int)
      modifies this
      ensures Abs() == FinishProbe(old(Abs()), ok, now)
    {
      if !ok {
        Opening(now);
        return;
      }
      successes := successes + 1;
      if halfOpenRequests <= successes {
        Closing();
      }
    }

    /** Execute after fn has returned, for a call let in while closed. */
    method EndNormal(ok: bool, failedAt: int, openedAt: int)
      modifies this
      ensures Abs() == FinishNormal(old(Abs()), ok, failedAt, openedAt)
    {
      if !ok {
        failures, lastFailure := failures + 1, failedAt;
        if maxFailures <= failures {
          Opening(openedAt);
        }
        return;
      }
      failures := 0;
    }

    method State(now: int) returns (m: Mode)
      modifies this
      ensures Abs() == Check(old(Abs()), now) && m == Abs().mode
    {
      CheckStateTransition(now);
      m := state;
    }

    method Reset()
      modifies this
      ensures Abs() == ToClosed(old(Abs()))
    {
      Closing();
    }
  }
}
