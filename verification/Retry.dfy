/** Retrying with exponential backoff: the attempts, the callbacks and the delays. */
module RetrySpec {

  /** Delays in nanoseconds. */
  datatype Config = Config(maxAttempts: int, initialDelay: int, maxDelay: int, factor: real, jitter: bool)

  const SECOND: int := 1000000000

  /** Values that make no sense are replaced by defaults. */
  function Normalize(c: Config): (n: Config)
    ensures 1 <= n.maxAttempts && 1 <= n.initialDelay && 1 <= n.maxDelay && 0.0 < n.factor
  {
    Config(if c.maxAttempts <= 0 then 3 else c.maxAttempts,
           if c.initialDelay <= 0 then SECOND else c.initialDelay,
           if c.maxDelay <= 0 then 30 * SECOND else c.maxDelay,
           if c.factor <= 0.0 then 2.0 else c.factor,
           c.jitter)
  }

  predicate Sane(c: Config) {
    1 <= c.maxAttempts && 1 <= c.initialDelay && 1 <= c.maxDelay && 0.0 < c.factor
  }

  /** A configuration that makes sense is used as it is; of any other only the values that do not are replaced. */
  lemma DefaultsExactly(c: Config)
    ensures Normalize(c) == c <==> Sane(c)
    ensures var n := Normalize(c);
            && n.jitter == c.jitter
            && (if 1 <= c.maxAttempts then n.maxAttempts == c.maxAttempts else n.maxAttempts == 3)
            && (if 1 <= c.initialDelay then n.initialDelay == c.initialDelay else n.initialDelay == 1000000000)
            && (if 1 <= c.maxDelay then n.maxDelay == c.maxDelay else n.maxDelay == 30000000000)
            && (if 0.0 < c.factor then n.factor == c.factor else n.factor == 2.0)
  {}

  /** What fn returns; an error says whether it may be retried. */
  datatype Outcome = Ok | Err(code: int, retryable: bool)

  datatype Result = Success | LastError(error: Outcome) | Cancelled

  /** fn's answers, the random numbers in [0, 1), and whether the context ends a sleep. */
  datatype Env = Env(outcome: nat -> Outcome, random: nat -> real, cancelled: nat -> bool)

  ghost predicate Random(env: Env) {
    forall k: nat :: 0.0 <= env.random(k) < 1.0
  }

  /** Everything the callers can see: calls of fn, onRetry, completed sleeps, onFinalError. */
  datatype Event =
    | Called(attempt: nat)
    | Retrying(attempt: nat, error: Outcome, delay: int)
    | Slept(delay: int)
    | GaveUp(attempts: int, error: Outcome)

  // ---------- Delays ----------

  function Pow(x: real, n: nat): real {
    if n == 0 then 1.0 else x * Pow(x, n - 1)
  }

  /** The capped geometric series. */
  function Capped(c: Config, attempt: nat): real {
    var raw := c.initialDelay as real * Pow(c.factor, attempt);
    if raw > c.maxDelay as real then c.maxDelay as real else raw
  }

  function Jittered(jitter: bool, delay: real, random: real): real {
    if jitter then delay + Times(random, 0.1 * delay) else delay
  }

  function Times(x: real, y: real): real {
    x * y
  }

  function Delay(c: Config, attempt: nat, random: real): int {
    Jittered(c.jitter, Capped(c, attempt), random).Floor
  }

  lemma {:induction false} PowPositive(x: real, n: nat)
    requires 0.0 < x
    ensures 0.0 < Pow(x, n)
  {
    if n != 0 {
      PowPositive(x, n - 1);
    }
  }

  lemma CappedRange(c: Config, attempt: nat)
    requires Sane(c)
    ensures 0.0 < Capped(c, attempt) <= c.maxDelay as real
  {
    PowPositive(c.factor, attempt);
  }

  function Least(x: real, y: real): real {
    if x < y then x else y
  }

  /**
   * The delays before jitter: the initial delay, and each next one the factor times the last,
   * both cut off at the maximum. Cutting off early or late makes no difference, except for a
   * factor below one, when the delays shrink from a first one above the maximum.
   */
  lemma CappedSeries(c: Config, k: nat)
    requires Sane(c)
    ensures Capped(c, 0) == Least(c.initialDelay as real, c.maxDelay as real)
    ensures Capped(c, k + 1) == Least(Times(c.factor, Uncapped(c, k)), c.maxDelay as real)
    ensures 1.0 <= c.factor ==> Capped(c, k + 1) == Least(Times(c.factor, Capped(c, k)), c.maxDelay as real)
  {
    CappedIsLeast(c, 0);
    CappedIsLeast(c, k);
    CappedIsLeast(c, k + 1);
    UncappedNext(c, k);
    if 1.0 <= c.factor {
      LeastNext(c.factor, Uncapped(c, k), c.maxDelay as real);
    }
  }

  /** The geometric series itself. */
  function Uncapped(c: Config, k: nat): real {
    Times(c.initialDelay as real, Pow(c.factor, k))
  }

  lemma CappedIsLeast(c: Config, k: nat)
    ensures Capped(c, k) == Least(Uncapped(c, k), c.maxDelay as real)
    ensures Uncapped(c, 0) == c.initialDelay as real
  {}

  lemma UncappedNext(c: Config, k: nat)
    ensures Uncapped(c, k + 1) == Times(c.factor, Uncapped(c, k))
  {
    Exchange(c.initialDelay as real, c.factor, Pow(c.factor, k));
  }

  lemma LeastNext(factor: real, raw: real, max: real)
    requires 1.0 <= factor && 0.0 <= max
    ensures Least(Times(factor, raw), max) == Least(Times(factor, Least(raw, max)), max)
  {
    if raw > max {
      AtLeastItself(factor, raw);
      AtLeastItself(factor, max);
    }
  }

  lemma Exchange(x: real, y: real, z: real)
    ensures x * (y * z) == y * (x * z)
  {}

  lemma AtLeastItself(factor: real, x: real)
    requires 1.0 <= factor && 0.0 <= x
    ensures x <= factor * x
  {
    NonNegative(factor - 1.0, x);
    assert (factor - 1.0) * x == factor * x - x;
  }

  lemma Multiply(m: real, x: real, y: real)
    requires 0.0 <= m && x <= y
    ensures m * x <= m * y
  {
    NonNegative(m, y - x);
    assert m * (y - x) == m * y - m * x;
  }

  lemma NonNegative(x: real, y: real)
    requires 0.0 <= x && 0.0 <= y
    ensures 0.0 <= x * y
  {
    if x == 0.0 || y == 0.0 {
      assert x * y == 0.0;
    }
  }

  lemma PowGrows(x: real, n: nat)
    requires 1.0 <= x
    ensures Pow(x, n) <= Pow(x, n + 1)
  {
    var p := Pow(x, n);
    PowPositive(x, n);
    NonNegative(x - 1.0, p);
    assert (x - 1.0) * p == x * p - p;
  }

  lemma CappedStep(c: Config, n: nat)
    requires Sane(c) && 1.0 <= c.factor
    ensures Capped(c, n) <= Capped(c, n + 1)
  {
    PowGrows(c.factor, n);
    Multiply(c.initialDelay as real, Pow(c.factor, n), Pow(c.factor, n + 1));
  }

  lemma {:induction false} CappedGrows(c: Config, a: nat, b: nat)
    requires Sane(c) && 1.0 <= c.factor && a <= b
    ensures Capped(c, a) <= Capped(c, b)
    decreases b
  {
    if a < b {
      CappedGrows(c, a, b - 1);
      CappedStep(c, b - 1);
    }
  }

  /** Without jitter the delays never shrink, as long as the factor is at least one. */
  lemma DelaysGrow(c: Config, a: nat, b: nat, r: real, q: real)
    requires Sane(c) && !c.jitter && 1.0 <= c.factor && a <= b
    ensures Delay(c, a, r) <= Delay(c, b, q)
  {
    CappedGrows(c, a, b);
  }

  /** Jitter only ever adds, at most a tenth, and may exceed the configured maximum by as much. */
  lemma DelayRange(c: Config, attempt: nat, random: real)
    requires Sane(c) && 0.0 <= random < 1.0
    ensures 0 <= Delay(c, attempt, random)
    ensures Capped(c, attempt).Floor <= Delay(c, attempt, random)
    ensures Delay(c, attempt, random) as real <= 1.1 * Capped(c, attempt)
    ensures Delay(c, attempt, random) as real <= 1.1 * c.maxDelay as real
  {
    CappedRange(c, attempt);
    JitterRange(c.jitter, Capped(c, attempt), random);
    Multiply(1.1, Capped(c, attempt), c.maxDelay as real);
  }

  lemma JitterRange(jitter: bool, delay: real, random: real)
    requires 0.0 <= random < 1.0 && 0.0 <= delay
    ensures delay <= Jittered(jitter, delay, random) <= 1.1 * delay
  {
    Fraction(random, 0.1 * delay);
    AddTenth(delay, Times(random, 0.1 * delay));
  }

  lemma Fraction(random: real, x: real)
    requires 0.0 <= random <= 1.0 && 0.0 <= x
    ensures 0.0 <= Times(random, x) <= x
  {
    NonNegative(random, x);
    NonNegative(1.0 - random, x);
    assert (1.0 - random) * x == x - random * x;
  }

  lemma AddTenth(d: real, e: real)
    requires 0.0 <= e <= 0.1 * d
    ensures d <= d + e <= 1.1 * d
  {}

  /**
   * A delay can exceed the configured maximum, for some random number, exactly if there is jitter
   * and the capped delay, a tenth added, comes to more than the next nanosecond.
   */
  lemma ExceedsMaximumExactly(c: Config, attempt: nat)
    requires Sane(c)
    ensures (exists random :: 0.0 <= random < 1.0 && c.maxDelay < Delay(c, attempt, random))
            <==> c.jitter && (c.maxDelay + 1) as real < 1.1 * Capped(c, attempt)
  {
    var d := Capped(c, attempt);
    CappedRange(c, attempt);
    if c.jitter && (c.maxDelay + 1) as real < 1.1 * d {
      var random := ((c.maxDelay + 1) as real - d) / (0.1 * d);
      ShareOf((c.maxDelay + 1) as real - d, 0.1 * d);
      assert Jittered(c.jitter, d, random) == (c.maxDelay + 1) as real;
      assert c.maxDelay < Delay(c, attempt, random);
    } else {
      forall random | 0.0 <= random < 1.0 ensures Delay(c, attempt, random) <= c.maxDelay {
        if c.jitter {
          ProperFraction(random, 0.1 * d);
        }
      }
    }
  }

  lemma ShareOf(x: real, whole: real)
    requires 0.0 <= x < whole
    ensures 0.0 <= x / whole < 1.0 && Times(x / whole, whole) == x
  {}

  lemma ProperFraction(random: real, x: real)
    requires 0.0 <= random < 1.0 && 0.0 < x
    ensures Times(random, x) < x
  {
    assert x - random * x == (1.0 - random) * x;
  }

  lemma JitterExceedsMaximum()
    ensures var c := Config(3, 1000, 1000, 2.0, true);
            Sane(c) && Delay(c, 0, 0.5) == 1050 && c.maxDelay == 1000
  {
    var c := Config(3, 1000, 1000, 2.0, true);
    assert Pow(2.0, 0) == 1.0;
    assert Capped(c, 0) == 1000.0;
    assert Times(0.5, 0.1 * 1000.0) == 50.0;
  }

  // ---------- The loop ----------

  /** The loop goes on after this attempt. */
  predicate Continues(c: Config, env: Env, k: nat) {
    && env.outcome(k).Err? && env.outcome(k).retryable
    && k != c.maxAttempts - 1
    && !env.cancelled(k)
  }

  datatype Run = Run(trace: seq<Event>, result: Result)

  /** The rest of the loop from attempt k on. */
  function From(c: Config, env: Env, k: nat): Run
    requires k < c.maxAttempts
    decreases c.maxAttempts - k
  {
    var o := env.outcome(k);
    if o.Ok? then
      Run([Called(k)], Success)
    else if !o.retryable || k == c.maxAttempts - 1 then
      Run([Called(k), GaveUp(c.maxAttempts, o)], LastError(o))
    else
      var d := Delay(c, k, env.random(k));
      if env.cancelled(k) then
        Run([Called(k), Retrying(k + 1, o, d)], Cancelled)
      else
        var rest := From(c, env, k + 1);
        Run([Called(k), Retrying(k + 1, o, d), Slept(d)] + rest.trace, rest.result)
  }

  /** The last attempt made. */
  function Last(c: Config, env: Env, k: nat): nat
    requires k < c.maxAttempts
    decreases c.maxAttempts - k
  {
    if Continues(c, env, k) then Last(c, env, k + 1) else k
  }

  function Calls(t: seq<Event>): seq<nat> {
    if t == [] then [] else (if t[0].Called? then [t[0].attempt] else []) + Calls(t[1..])
  }

  function Retries(t: seq<Event>): seq<Event> {
    if t == [] then [] else (if t[0].Retrying? then [t[0]] else []) + Retries(t[1..])
  }

  function Finals(t: seq<Event>): seq<Event> {
    if t == [] then [] else (if t[0].GaveUp? then [t[0]] else []) + Finals(t[1..])
  }

  function TotalSleep(t: seq<Event>): int {
    if t == [] then 0 else (if t[0].Slept? then t[0].delay else 0) + TotalSleep(t[1..])
  }

  function Sleeps(t: seq<Event>): seq<int> {
    if t == [] then [] else (if t[0].Slept? then [t[0].delay] else []) + Sleeps(t[1..])
  }

  /** The loop stops at the first attempt that does not continue, within the limit. */
  lemma {:induction false} LastIsFirstStop(c: Config, env: Env, k: nat)
    requires k < c.maxAttempts
    ensures k <= Last(c, env, k) < c.maxAttempts
    ensures !Continues(c, env, Last(c, env, k))
    ensures forall i: nat :: k <= i < Last(c, env, k) ==> Continues(c, env, i)
    decreases c.maxAttempts - k
  {
    if Continues(c, env, k) {
      LastIsFirstStop(c, env, k + 1);
    }
  }

  /** The first turn of the loop, and the rest. */
  lemma TraceTurn(t: seq<Event>, k: nat, o: Outcome, d: int)
    ensures var full := [Called(k), Retrying(k + 1, o, d), Slept(d)] + t;
            && Calls(full) == [k] + Calls(t)
            && Retries(full) == [Retrying(k + 1, o, d)] + Retries(t)
            && Finals(full) == Finals(t)
            && TotalSleep(full) == d + TotalSleep(t)
            && Sleeps(full) == [d] + Sleeps(t)
  {
    Prepend(Slept(d), t);
    Prepend(Retrying(k + 1, o, d), [Slept(d)] + t);
    Prepend(Called(k), [Retrying(k + 1, o, d)] + ([Slept(d)] + t));
    assert [Called(k), Retrying(k + 1, o, d), Slept(d)] + t
        == [Called(k)] + ([Retrying(k + 1, o, d)] + ([Slept(d)] + t));
  }

  lemma Prepend(e: Event, t: seq<Event>)
    ensures Calls([e] + t) == (if e.Called? then [e.attempt] else []) + Calls(t)
    ensures Retries([e] + t) == (if e.Retrying? then [e] else []) + Retries(t)
    ensures Finals([e] + t) == (if e.GaveUp? then [e] else []) + Finals(t)
    ensures TotalSleep([e] + t) == (if e.Slept? then e.delay else 0) + TotalSleep(t)
    ensures Sleeps([e] + t) == (if e.Slept? then [e.delay] else []) + Sleeps(t)
  {
    assert ([e] + t)[1..] == t;
  }

  /** The last turn: a call and perhaps one callback. */
  lemma TraceEnd(k: nat, e: Event)
    requires e.Retrying? || e.GaveUp?
    ensures Calls([Called(k), e]) == [k] == Calls([Called(k)])
    ensures Retries([Called(k), e]) == (if e.Retrying? then [e] else []) && Retries([Called(k)]) == []
    ensures Finals([Called(k), e]) == (if e.GaveUp? then [e] else []) && Finals([Called(k)]) == []
    ensures TotalSleep([Called(k), e]) == 0 == TotalSleep([Called(k)])
    ensures Sleeps([Called(k), e]) == [] == Sleeps([Called(k)])
  {
    Prepend(e, []);
    Prepend(Called(k), [e]);
    Prepend(Called(k), []);
    assert [Called(k), e] == [Called(k)] + [e] && [e] == [e] + [] && [Called(k)] == [Called(k)] + [];
  }

  /** The numbers from k up to n, n excluded. */
  function UpTo(k: nat, n: nat): seq<nat>
    decreases n - k
  {
    if n <= k then [] else [k] + UpTo(k + 1, n)
  }

  lemma {:induction false} UpToLength(k: nat, n: nat)
    requires k <= n
    ensures |UpTo(k, n)| == n - k
    decreases n - k
  {
    if k < n {
      UpToLength(k + 1, n);
    }
  }

  /** The callbacks that belong to the attempts from k up to n, n excluded. */
  function Backoffs(c: Config, env: Env, k: nat, n: nat): seq<Event>
    decreases n - k
  {
    if n <= k then []
    else [Retrying(k + 1, env.outcome(k), Delay(c, k, env.random(k)))] + Backoffs(c, env, k + 1, n)
  }

  /** fn is called on consecutive attempts, from k up to the last one. */
  lemma {:induction false} CallsConsecutive(c: Config, env: Env, k: nat)
    requires k < c.maxAttempts
    ensures Calls(From(c, env, k).trace) == UpTo(k, Last(c, env, k) + 1)
    decreases c.maxAttempts - k
  {
    LastIsFirstStop(c, env, k);
    var o, d := env.outcome(k), Delay(c, k, env.random(k));
    if Continues(c, env, k) {
      CallsConsecutive(c, env, k + 1);
      LastIsFirstStop(c, env, k + 1);
      TraceTurn(From(c, env, k + 1).trace, k, o, d);
    } else {
      TraceEnd(k, GaveUp(c.maxAttempts, o));
      TraceEnd(k, Retrying(k + 1, o, d));
      assert UpTo(k, k + 1) == [k];
    }
  }

  /** onRetry fires once for every backoff, with the attempt, the error and the delay of it. */
  lemma {:induction false} RetriesMatch(c: Config, env: Env, k: nat)
    requires k < c.maxAttempts
    ensures Retries(From(c, env, k).trace)
            == Backoffs(c, env, k, Last(c, env, k) + if From(c, env, k).result == Cancelled then 1 else 0)
    decreases c.maxAttempts - k
  {
    LastIsFirstStop(c, env, k);
    var o, d := env.outcome(k), Delay(c, k, env.random(k));
    if Continues(c, env, k) {
      RetriesMatch(c, env, k + 1);
      LastIsFirstStop(c, env, k + 1);
      TraceTurn(From(c, env, k + 1).trace, k, o, d);
    } else {
      TraceEnd(k, GaveUp(c.maxAttempts, o));
      TraceEnd(k, Retrying(k + 1, o, d));
      assert Backoffs(c, env, k + 1, k + 1) == [];
    }
  }

  /** The delays of the attempts from k up to n, n excluded. */
  function Delays(c: Config, env: Env, k: nat, n: nat): seq<int>
    decreases n - k
  {
    if n <= k then [] else [Delay(c, k, env.random(k))] + Delays(c, env, k + 1, n)
  }

  /** Every attempt but the last is followed by one full sleep of its delay. */
  lemma {:induction false} SleepsMatch(c: Config, env: Env, k: nat)
    requires k < c.maxAttempts
    ensures Sleeps(From(c, env, k).trace) == Delays(c, env, k, Last(c, env, k))
    decreases c.maxAttempts - k
  {
    LastIsFirstStop(c, env, k);
    var o, d := env.outcome(k), Delay(c, k, env.random(k));
    if Continues(c, env, k) {
      SleepsMatch(c, env, k + 1);
      LastIsFirstStop(c, env, k + 1);
      TraceTurn(From(c, env, k + 1).trace, k, o, d);
    } else {
      TraceEnd(k, GaveUp(c.maxAttempts, o));
      TraceEnd(k, Retrying(k + 1, o, d));
    }
  }

  /** What comes next after an event of the trace, if anything does. */
  predicate Follows(a: Event, b: Event) {
    match a
    case Called(k) => (b.Retrying? && b.attempt == k + 1) || b.GaveUp?
    case Retrying(_, _, d) => b == Slept(d)
    case Slept(_) => b.Called?
    case GaveUp(_, _) => false
  }

  ghost predicate InOrder(t: seq<Event>) {
    forall i :: 0 <= i < |t| - 1 ==> Follows(t[i], t[i + 1])
  }

  /** Call, callback, sleep, and the next call: every turn happens in this order. */
  lemma {:induction false} TurnsInOrder(c: Config, env: Env, k: nat)
    requires k < c.maxAttempts
    ensures InOrder(From(c, env, k).trace) && From(c, env, k).trace != []
    ensures From(c, env, k).trace[0] == Called(k)
    decreases c.maxAttempts - k
  {
    if Continues(c, env, k) {
      TurnsInOrder(c, env, k + 1);
      var rest, t := From(c, env, k + 1).trace, From(c, env, k).trace;
      forall i | 0 <= i < |t| - 1 ensures Follows(t[i], t[i + 1]) {
        if 3 <= i {
          assert t[i] == rest[i - 3] && t[i + 1] == rest[i - 3 + 1];
        }
      }
    }
  }

  /** The result is decided by the last attempt, and onFinalError fires exactly with the last error. */
  lemma {:induction false} ResultMatches(c: Config, env: Env, k: nat)
    requires k < c.maxAttempts
    ensures var run := From(c, env, k);
            var last := Last(c, env, k);
            var o := env.outcome(last);
            && (run.result == Success <==> o.Ok?)
            && (run.result == LastError(o) <==> o.Err? && (!o.retryable || last == c.maxAttempts - 1))
            && (run.result == Cancelled <==> o.Err? && o.retryable && last != c.maxAttempts - 1)
            && Finals(run.trace) == if run.result.LastError? then [GaveUp(c.maxAttempts, o)] else []
    decreases c.maxAttempts - k
  {
    var o, d := env.outcome(k), Delay(c, k, env.random(k));
    if Continues(c, env, k) {
      ResultMatches(c, env, k + 1);
      TraceTurn(From(c, env, k + 1).trace, k, o, d);
    } else {
      TraceEnd(k, GaveUp(c.maxAttempts, o));
      TraceEnd(k, Retrying(k + 1, o, d));
    }
  }

  /** The attempt ends the loop at once: its error must not be retried. */
  predicate Fatal(o: Outcome) {
    o.Err? && !o.retryable
  }

  /**
   * onFinalError is told the configured limit. That is the number of calls exactly if no attempt
   * before the limit answered with an error that must not be retried.
   */
  lemma ReportedAttempts(c: Config, env: Env)
    requires 1 <= c.maxAttempts && From(c, env, 0).result.LastError?
    ensures Finals(From(c, env, 0).trace) == [GaveUp(c.maxAttempts, env.outcome(Last(c, env, 0)))]
    ensures c.maxAttempts == |Calls(From(c, env, 0).trace)|
            <==> forall k: nat :: k < c.maxAttempts - 1 ==> !Fatal(env.outcome(k))
  {
    ResultMatches(c, env, 0);
    CallsConsecutive(c, env, 0);
    UpToLength(0, Last(c, env, 0) + 1);
    LastIsFirstStop(c, env, 0);
    if Last(c, env, 0) < c.maxAttempts - 1 {
      assert Fatal(env.outcome(Last(c, env, 0)));
    } else {
      forall k: nat | k < c.maxAttempts - 1 ensures !Fatal(env.outcome(k)) {
        assert Continues(c, env, k);
      }
    }
  }

  /** Three attempts are reported although the only call failed for good. */
  lemma ReportsThreeForOne(env: Env)
    requires env.outcome(0) == Err(7, false)
    ensures var run := From(Config(3, 1, 1, 2.0, false), env, 0);
            Calls(run.trace) == [0] && Finals(run.trace) == [GaveUp(3, Err(7, false))]
  {
    TraceEnd(0, GaveUp(3, Err(7, false)));
  }

  /** The sum of the capped series over the attempts from k up to n, n excluded. */
  function Series(c: Config, k: nat, n: nat): real
    decreases n - k
  {
    if n <= k then 0.0 else Capped(c, k) + Series(c, k + 1, n)
  }

  /** All sleeping together takes at most 1.1 times the capped series over the attempts made. */
  lemma {:induction false} SleepBound(c: Config, env: Env, k: nat)
    requires Sane(c) && Random(env) && k < c.maxAttempts
    ensures TotalSleep(From(c, env, k).trace) as real <= 1.1 * Series(c, k, Last(c, env, k))
    ensures 0 <= TotalSleep(From(c, env, k).trace)
    decreases c.maxAttempts - k
  {
    var o, d := env.outcome(k), Delay(c, k, env.random(k));
    if Continues(c, env, k) {
      SleepBound(c, env, k + 1);
      LastIsFirstStop(c, env, k + 1);
      DelayRange(c, k, env.random(k));
      TraceTurn(From(c, env, k + 1).trace, k, o, d);
    } else {
      TraceEnd(k, GaveUp(c.maxAttempts, o));
      TraceEnd(k, Retrying(k + 1, o, d));
    }
  }

  /** The loop. The whole visible behaviour is the specified run of the normalized configuration. */
  method DoWithCallbacks(config: Config, env: Env) returns (result: Result, trace: seq<Event>)
    ensures Run(trace, result) == From(Normalize(config), env, 0)
  {
    var c := Normalize(config);
    ghost var goal := From(c, env, 0);
    trace := [];
    var lastErr := Ok;
    var attempt := 0;
    while attempt < c.maxAttempts
      invariant 0 <= attempt < c.maxAttempts
      invariant goal == Run(trace + From(c, env, attempt).trace, From(c, env, attempt).result)
    {
      ghost var before := trace;
      trace := trace + [Called(attempt)];
      var err := env.outcome(attempt);
      if err.Ok? {
        return Success, trace;
      }
      lastErr := err;
      assert trace + [GaveUp(c.maxAttempts, err)] == before + [Called(attempt), GaveUp(c.maxAttempts, err)];
      if !err.retryable {
        break;
      }
      if attempt == c.maxAttempts - 1 {
        break;
      }
      var delay := Delay(c, attempt, env.random(attempt));
      trace := trace + [Retrying(attempt + 1, err, delay)];
      assert trace == before + [Called(attempt), Retrying(attempt + 1, err, delay)];
      if env.cancelled(attempt) {
        return Cancelled, trace;
      }
      trace := trace + [Slept(delay)];
      Regroup(before, Called(attempt), Retrying(attempt + 1, err, delay), Slept(delay),
              From(c, env, attempt + 1).trace);
      attempt := attempt + 1;
    }
    trace := trace + [GaveUp(c.maxAttempts, lastErr)];
    return LastError(lastErr), trace;
  }

  lemma Regroup(t: seq<Event>, a: Event, b: Event, c: Event, rest: seq<Event>)
    ensures t + ([a, b, c] + rest) == t + [a] + [b] + [c] + rest
  {}
}
