/** The sliding window rate limiter, judged against the full history of what it allowed. */
module SlidingWindowSpec {

  /** Never decreasing. */
  ghost predicate Sorted(s: seq<int>) {
    forall i, j :: 0 <= i < j < |s| ==> s[i] <= s[j]
  }

  /** How many instants lie between the two bounds, both included. */
  function CountIn(s: seq<int>, lo: int, hi: int): nat {
    if s == [] then 0 else (if lo <= s[0] <= hi then 1 else 0) + CountIn(s[1..], lo, hi)
  }

  /** How many instants are not before the cutoff. */
  function CountFrom(s: seq<int>, cutoff: int): nat {
    if s == [] then 0 else (if cutoff <= s[0] then 1 else 0) + CountFrom(s[1..], cutoff)
  }

  /** The longest prefix before the cutoff dropped. */
  function Prune(s: seq<int>, cutoff: int): seq<int> {
    if s != [] && s[0] < cutoff then Prune(s[1..], cutoff) else s
  }

  /** The part of the history at or after the cutoff. */
  ghost predicate IsRecent(h: seq<int>, kept: seq<int>, cutoff: int) {
    && |kept| <= |h| && kept == h[|h| - |kept|..]
    && (forall i :: 0 <= i < |h| - |kept| ==> h[i] < cutoff)
    && (forall i :: 0 <= i < |kept| ==> cutoff <= kept[i])
  }

  lemma {:induction false} PruneSuffix(s: seq<int>, cutoff: int)
    requires Sorted(s)
    ensures IsRecent(s, Prune(s, cutoff), cutoff)
  {
    if s != [] && s[0] < cutoff {
      PruneSuffix(s[1..], cutoff);
    }
  }

  lemma {:induction false} CountFromAll(s: seq<int>, cutoff: int)
    requires forall i :: 0 <= i < |s| ==> cutoff <= s[i]
    ensures CountFrom(s, cutoff) == |s|
  {
    if s != [] {
      CountFromAll(s[1..], cutoff);
    }
  }

  /** What pruning leaves is what is counted. */
  lemma {:induction false} PruneCounts(s: seq<int>, cutoff: int)
    requires Sorted(s)
    ensures |Prune(s, cutoff)| == CountFrom(s, cutoff)
  {
    if s != [] {
      if s[0] < cutoff {
        PruneCounts(s[1..], cutoff);
      } else {
        CountFromAll(s, cutoff);
      }
    }
  }

  // ---------- Runs ----------

  /** The limiter: its configuration and its slice of instants. */
  datatype State = State(size: int, max: int, stamps: seq<int>)

  /**
   * A call reads the clock once for the cutoff and, if it is allowed, once more for the recorded
   * time. The second reading of a refused call stands for any instant up to the next call.
   */
  datatype Call = Call(seen: int, recorded: int)

  function Init(size: int, max: int): State {
    State(size, max, [])
  }

  predicate Allows(s: State, seen: int) {
    |Prune(s.stamps, seen - s.size)| < s.max
  }

  function Step(s: State, c: Call): State {
    var kept := Prune(s.stamps, c.seen - s.size);
    if |kept| < s.max then s.(stamps := kept + [c.recorded]) else s.(stamps := kept)
  }

  function Run(s: State, calls: seq<Call>): State
    decreases calls
  {
    if calls == [] then s else Run(Step(s, calls[0]), calls[1..])
  }

  /** The clock never goes back, inside a call and from call to call. */
  predicate Monotone(start: int, calls: seq<Call>)
    decreases calls
  {
    calls == [] || (start <= calls[0].seen <= calls[0].recorded && Monotone(calls[0].recorded, calls[1..]))
  }

  /** The last clock reading of a run. */
  function Clock(start: int, calls: seq<Call>): int {
    if calls == [] then start else calls[|calls| - 1].recorded
  }

  /** The full history: the recorded instants of all calls that were allowed, in order. */
  function Allowed(s: State, calls: seq<Call>): seq<int>
    decreases calls
  {
    if calls == [] then []
    else (if Allows(s, calls[0].seen) then [calls[0].recorded] else []) + Allowed(Step(s, calls[0]), calls[1..])
  }

  /** Any max + 1 consecutive instants span more than the window. */
  ghost predicate Spaced(h: seq<int>, max: int, size: int) {
    && (max <= 0 ==> h == [])
    && (0 < max ==> forall i :: 0 <= i && i + max < |h| ==> h[i] + size < h[i + max])
  }

  /** The kept instants are a suffix of the history, and what was dropped lies before the cutoff. */
  ghost predicate KeepsSuffix(h: seq<int>, kept: seq<int>, cutoff: int) {
    && |kept| <= |h| && kept == h[|h| - |kept|..]
    && (forall i :: 0 <= i < |h| - |kept| ==> h[i] < cutoff)
  }

  /** The limiter after a history, at a time of the clock. */
  ghost predicate Inv(s: State, h: seq<int>, clock: int) {
    && Sorted(h)
    && (forall i :: 0 <= i < |h| ==> h[i] <= clock)
    && KeepsSuffix(h, s.stamps, clock - s.size)
    && Spaced(h, s.max, s.size)
  }

  lemma PruneHistory(s: State, h: seq<int>, clock: int, seen: int)
    requires Inv(s, h, clock) && clock <= seen
    ensures Prune(s.stamps, seen - s.size) == Prune(h, seen - s.size)
  {
    PruneBeyond(h, |h| - |s.stamps|, seen - s.size);
  }

  lemma PruneIsRecent(s: State, h: seq<int>, clock: int, seen: int)
    requires Inv(s, h, clock) && clock <= seen
    ensures IsRecent(h, Prune(s.stamps, seen - s.size), seen - s.size)
  {
    PruneHistory(s, h, clock, seen);
    PruneSuffix(h, seen - s.size);
  }

  lemma {:induction false} PruneBeyond(h: seq<int>, gone: nat, cutoff: int)
    requires gone <= |h| && forall i :: 0 <= i < gone ==> h[i] < cutoff
    ensures Prune(h[gone..], cutoff) == Prune(h, cutoff)
    decreases gone
  {
    if gone == 0 {
      assert h[0..] == h;
    } else {
      assert h[gone..] == h[1..][gone - 1..];
      PruneBeyond(h[1..], gone - 1, cutoff);
    }
  }

  lemma RecentGrows(h: seq<int>, kept: seq<int>, cutoff: int, t: int)
    requires IsRecent(h, kept, cutoff)
    ensures KeepsSuffix(h, kept, cutoff) && KeepsSuffix(h + [t], kept + [t], cutoff)
    ensures cutoff <= t ==> IsRecent(h + [t], kept + [t], cutoff)
  {
    assert kept + [t] == (h + [t])[|h| - |kept|..];
  }

  lemma CutoffMoves(h: seq<int>, kept: seq<int>, cutoff: int, later: int)
    requires KeepsSuffix(h, kept, cutoff) && cutoff <= later
    ensures KeepsSuffix(h, kept, later)
  {}

  /** The instant max places earlier has been pruned, so it lies outside the window. */
  lemma SpacedGrows(h: seq<int>, kept: nat, max: int, size: int, cutoff: int, t: int)
    requires Spaced(h, max, size) && kept <= |h| && kept < max && cutoff <= t - size
    requires forall i :: 0 <= i < |h| - kept ==> h[i] < cutoff
    ensures Spaced(h + [t], max, size)
  {
    forall i | 0 <= i && i + max < |h + [t]| ensures (h + [t])[i] + size < (h + [t])[i + max] {
      assert i + max < |h| ==> h[i] + size < h[i + max];
    }
  }

  /** What a call adds to the history. */
  function Added(s: State, c: Call): seq<int> {
    if Allows(s, c.seen) then [c.recorded] else []
  }

  lemma AllowedKeepsInv(s: State, h: seq<int>, c: Call, kept: seq<int>)
    requires Sorted(h) && Spaced(h, s.max, s.size) && IsRecent(h, kept, c.seen - s.size) && |kept| < s.max
    requires c.seen <= c.recorded && forall i :: 0 <= i < |h| ==> h[i] <= c.seen
    ensures Inv(s.(stamps := kept + [c.recorded]), h + [c.recorded], c.recorded)
  {
    RecentGrows(h, kept, c.seen - s.size, c.recorded);
    CutoffMoves(h + [c.recorded], kept + [c.recorded], c.seen - s.size, c.recorded - s.size);
    SpacedGrows(h, |kept|, s.max, s.size, c.seen - s.size, c.recorded);
  }

  lemma RefusedKeepsInv(s: State, h: seq<int>, c: Call, kept: seq<int>)
    requires Sorted(h) && Spaced(h, s.max, s.size) && IsRecent(h, kept, c.seen - s.size)
    requires c.seen <= c.recorded && forall i :: 0 <= i < |h| ==> h[i] <= c.seen
    ensures Inv(s.(stamps := kept), h, c.recorded)
  {
    CutoffMoves(h, kept, c.seen - s.size, c.recorded - s.size);
  }

  lemma StepKeepsInv(s: State, h: seq<int>, clock: int, c: Call)
    requires Inv(s, h, clock) && clock <= c.seen <= c.recorded
    ensures Inv(Step(s, c), h + Added(s, c), c.recorded)
  {
    var kept := Prune(s.stamps, c.seen - s.size);
    PruneIsRecent(s, h, clock, c.seen);
    if |kept| < s.max {
      AllowedKeepsInv(s, h, c, kept);
      assert Added(s, c) == [c.recorded];
    } else {
      RefusedKeepsInv(s, h, c, kept);
      assert Added(s, c) == [];
      assert h + [] == h;
    }
  }

  lemma {:induction false} RunKeepsInv(s: State, h: seq<int>, clock: int, calls: seq<Call>)
    requires Inv(s, h, clock) && Monotone(clock, calls)
    ensures Inv(Run(s, calls), h + Allowed(s, calls), Clock(clock, calls))
    ensures Run(s, calls).size == s.size && Run(s, calls).max == s.max
    decreases calls
  {
    if calls == [] {
      assert h + [] == h;
    } else {
      StepKeepsInv(s, h, clock, calls[0]);
      RunKeepsInv(Step(s, calls[0]), h + Added(s, calls[0]), calls[0].recorded, calls[1..]);
      assert h + Allowed(s, calls) == h + Added(s, calls[0]) + Allowed(Step(s, calls[0]), calls[1..]);
    }
  }

  lemma ReachInv(size: int, max: int, start: int, calls: seq<Call>)
    requires Monotone(start, calls)
    ensures var s := Run(Init(size, max), calls);
            Inv(s, Allowed(Init(size, max), calls), Clock(start, calls)) && s.size == size && s.max == max
  {
    RunKeepsInv(Init(size, max), [], start, calls);
    assert [] + Allowed(Init(size, max), calls) == Allowed(Init(size, max), calls);
  }

  /**
   * After every call the slice is exactly the part of the history at or after its cutoff. (With a
   * negative window the instant just recorded may lie before the cutoff, but it is kept.)
   */
  lemma StampsAreSuffix(size: int, max: int, start: int, calls: seq<Call>, c: Call)
    requires Monotone(start, calls + [c])
    ensures var h := Allowed(Init(size, max), calls + [c]);
            var kept := Run(Init(size, max), calls + [c]).stamps;
            && KeepsSuffix(h, kept, c.seen - size)
            && (0 <= size ==> IsRecent(h, kept, c.seen - size))
  {
    var s := Run(Init(size, max), calls);
    MonotoneSnoc(start, calls, c);
    ReachInv(size, max, start, calls);
    AllowedSnoc(Init(size, max), calls, c);
    StepIsRecent(s, Allowed(Init(size, max), calls), Clock(start, calls), c);
  }

  lemma StepIsRecent(s: State, h: seq<int>, clock: int, c: Call)
    requires Inv(s, h, clock) && clock <= c.seen <= c.recorded
    ensures KeepsSuffix(h + Added(s, c), Step(s, c).stamps, c.seen - s.size)
    ensures 0 <= s.size ==> IsRecent(h + Added(s, c), Step(s, c).stamps, c.seen - s.size)
  {
    var kept := Prune(s.stamps, c.seen - s.size);
    PruneIsRecent(s, h, clock, c.seen);
    RecentGrows(h, kept, c.seen - s.size, c.recorded);
    if |kept| < s.max {
      assert Added(s, c) == [c.recorded];
    } else {
      assert Added(s, c) == [];
      assert h + [] == h;
    }
  }

  lemma {:induction false} MonotoneSnoc(start: int, calls: seq<Call>, c: Call)
    ensures Monotone(start, calls + [c]) <==> Monotone(start, calls) && Clock(start, calls) <= c.seen <= c.recorded
    decreases calls
  {
    if calls == [] {
      assert [] + [c] == [c] && [c][1..] == [];
    } else {
      assert (calls + [c])[1..] == calls[1..] + [c];
      MonotoneSnoc(calls[0].recorded, calls[1..], c);
    }
  }

  lemma {:induction false} AllowedSnoc(s: State, calls: seq<Call>, c: Call)
    ensures Run(s, calls + [c]) == Step(Run(s, calls), c)
    ensures Allowed(s, calls + [c]) == Allowed(s, calls) + Added(Run(s, calls), c)
    decreases calls
  {
    if calls == [] {
      assert [] + [c] == [c] && [c][1..] == [];
    } else {
      assert (calls + [c])[1..] == calls[1..] + [c];
      AllowedSnoc(Step(s, calls[0]), calls[1..], c);
    }
  }

  /**
   * The decision of every call in every run, in terms of the full history: it is allowed if and
   * only if fewer than max of the instants recorded so far lie in the window that ends now.
   */
  lemma AllowsExactly(size: int, max: int, start: int, calls: seq<Call>, seen: int)
    requires Monotone(start, calls) && Clock(start, calls) <= seen
    ensures Allows(Run(Init(size, max), calls), seen)
            <==> CountFrom(Allowed(Init(size, max), calls), seen - size) < max
  {
    var s := Run(Init(size, max), calls);
    ReachInv(size, max, start, calls);
    AllowsByHistory(s, Allowed(Init(size, max), calls), Clock(start, calls), seen);
  }

  lemma AllowsByHistory(s: State, h: seq<int>, clock: int, seen: int)
    requires Inv(s, h, clock) && clock <= seen
    ensures Allows(s, seen) <==> CountFrom(h, seen - s.size) < s.max
  {
    PruneHistory(s, h, clock, seen);
    PruneCounts(h, seen - s.size);
  }

  // ---------- The limit ----------

  lemma {:induction false} CountInConcat(a: seq<int>, b: seq<int>, lo: int, hi: int)
    ensures CountIn(a + b, lo, hi) == CountIn(a, lo, hi) + CountIn(b, lo, hi)
  {
    if a == [] {
      assert a + b == b;
    } else {
      assert (a + b)[1..] == a[1..] + b;
      CountInConcat(a[1..], b, lo, hi);
    }
  }

  lemma {:induction false} CountInBound(s: seq<int>, lo: int, hi: int)
    ensures CountIn(s, lo, hi) <= |s|
    ensures (forall i :: 0 <= i < |s| ==> hi < s[i]) ==> CountIn(s, lo, hi) == 0
  {
    if s != [] {
      CountInBound(s[1..], lo, hi);
    }
  }

  lemma {:induction false} SpacedCount(h: seq<int>, max: nat, size: int, lo: int)
    requires Sorted(h) && Spaced(h, max, size)
    ensures CountIn(h, lo, lo + size) <= max
  {
    if h != [] && max < |h| {
      if h[0] < lo {
        SpacedCount(h[1..], max, size, lo);
      } else {
        assert h[0] + size < h[0 + max];
        assert h == h[..max] + h[max..];
        CountInConcat(h[..max], h[max..], lo, lo + size);
        CountInBound(h[..max], lo, lo + size);
        CountInBound(h[max..], lo, lo + size);
      }
    } else {
      CountInBound(h, lo, lo + size);
    }
  }

  /**
   * In every run every closed interval of the window's length, wherever it starts, holds at
   * most max recorded instants of allowed calls.
   */
  lemma WindowBound(size: int, max: int, start: int, calls: seq<Call>, lo: int)
    requires Monotone(start, calls)
    ensures CountIn(Allowed(Init(size, max), calls), lo, lo + size) <= if max < 0 then 0 else max
  {
    ReachInv(size, max, start, calls);
    SpacedCount(Allowed(Init(size, max), calls), if max < 0 then 0 else max, size, lo);
  }

  /** The bound cannot be had for any longer interval: one request comes back a nanosecond later. */
  lemma WindowBoundTight(size: nat)
    ensures CountIn(Allowed(Init(size, 1), [Call(0, 0), Call(size + 1, size + 1)]), 0, size + 1) == 2
  {
    var s := Init(size, 1);
    var a, b := Call(0, 0), Call(size + 1, size + 1);
    var s1 := Step(s, a);
    assert Prune(s.stamps, 0 - size) == [];
    assert s1.stamps == [0];
    assert Prune(s1.stamps, 1) == [];
    assert [a, b][1..] == [b] && [b][1..] == [];
    assert Allowed(s1, [b]) == [size + 1] + Allowed(Step(s1, b), []);
    assert Allowed(s, [a, b]) == [0] + Allowed(s1, [b]);
    assert [0] + [size + 1] == [0, size + 1] && [0, size + 1][1..] == [size + 1];
    assert CountIn([size + 1], 0, size + 1) == 1;
  }

  // ---------- Waiting ----------

  const MILLISECOND: int := 1000000

  /** Wait sleeps a tenth of the window, one millisecond at least. */
  function WaitDur(size: int): int {
    if size / 10 < MILLISECOND then MILLISECOND else size / 10
  }

  predicate AllRefused(s: State, calls: seq<Call>)
    decreases calls
  {
    calls == [] || (!Allows(s, calls[0].seen) && AllRefused(Step(s, calls[0]), calls[1..]))
  }

  /** Every sleep lasts at least as long as was computed. */
  ghost predicate SleepsHonoured(size: int, calls: seq<Call>) {
    forall i :: 0 <= i < |calls| - 1 ==> calls[i].seen + WaitDur(size) <= calls[i + 1].seen
  }

  lemma RefusedSeesOld(s: State, h: seq<int>, clock: int, seen: int, newest: int)
    requires Inv(s, h, clock) && 1 <= s.max && clock <= seen && !Allows(s, seen)
    requires forall i :: 0 <= i < |h| ==> h[i] <= newest
    ensures seen - s.size <= newest
  {
    PruneIsRecent(s, h, clock, seen);
    var kept := Prune(s.stamps, seen - s.size);
    assert kept[0] == h[|h| - |kept|];
  }

  /** While calls are refused nothing is recorded, so the last one still sees an old instant. */
  lemma {:induction false} RefusedSpan(s: State, h: seq<int>, clock: int, calls: seq<Call>, newest: int)
    requires Inv(s, h, clock) && 1 <= s.max && Monotone(clock, calls) && AllRefused(s, calls) && calls != []
    requires forall i :: 0 <= i < |h| ==> h[i] <= newest
    ensures calls[|calls| - 1].seen - s.size <= newest
    decreases calls
  {
    if |calls| == 1 {
      RefusedSeesOld(s, h, clock, calls[0].seen, newest);
    } else {
      StepKeepsInv(s, h, clock, calls[0]);
      assert h + [] == h;
      RefusedSpan(Step(s, calls[0]), h, calls[0].recorded, calls[1..], newest);
    }
  }

  lemma {:induction false} SleepSpan(size: int, calls: seq<Call>)
    requires SleepsHonoured(size, calls) && calls != []
    ensures calls[0].seen + (|calls| - 1) * WaitDur(size) <= calls[|calls| - 1].seen
    decreases calls
  {
    if 1 < |calls| {
      var d := WaitDur(size);
      SleepSpan(size, calls[1..]);
      assert calls[0].seen + d <= calls[1].seen;
      assert (|calls| - 1) * d == d + (|calls[1..]| - 1) * d;
    }
  }

  /**
   * After any run a lone waiter whose sleeps are never cut short is served at its twelfth call at
   * the latest.
   */
  lemma TwelfthCallServes(size: int, max: int, start: int, before: seq<Call>, calls: seq<Call>)
    requires 1 <= max && Monotone(start, before) && Monotone(Clock(start, before), calls)
    requires SleepsHonoured(size, calls) && AllRefused(Run(Init(size, max), before), calls)
    ensures |calls| <= 11
  {
    ReachInv(size, max, start, before);
    if 12 <= |calls| {
      var clock := Clock(start, before);
      RefusedSpan(Run(Init(size, max), before), Allowed(Init(size, max), before), clock, calls, clock);
      SleepSpan(size, calls);
      ElevenSleeps(size, |calls|);
    }
  }

  lemma ElevenSleeps(size: int, n: int)
    requires 12 <= n
    ensures size < (n - 1) * WaitDur(size)
  {
    var d := WaitDur(size);
    assert (n - 1) * d == 11 * d + (n - 12) * d;
    assert 0 <= (n - 12) * d;
  }

  // ---------- The struct ----------

  class SlidingWindow {
    const windowSize: int
    const maxRequests: int
    var timestamps: seq<int>
    ghost var calls: seq<Call>

    ghost function Abs(): State
      reads this
    {
      State(windowSize, maxRequests, timestamps)
    }

    /** The fields are what the calls so far have made of a new limiter. */
    ghost predicate Valid()
      reads this
    {
      Abs() == Run(Init(windowSize, maxRequests), calls)
    }

    constructor (size: int, max: int)
      ensures Valid() && windowSize == size && maxRequests == max && calls == []
    {
      windowSize, maxRequests := size, max;
      timestamps, calls := [], [];
    }

    method Cleanup(now: int)
      modifies `timestamps
      ensures timestamps == Prune(old(timestamps), now - windowSize)
    {
      var cutoff := now - windowSize;
      var i := 0;
      assert timestamps[0..] == timestamps;
      while i < |timestamps| && timestamps[i] < cutoff
        invariant 0 <= i <= |timestamps|
        invariant Prune(timestamps[i..], cutoff) == Prune(timestamps, cutoff)
      {
        assert timestamps[i..][1..] == timestamps[i + 1..];
        i := i + 1;
      }
      if 0 < i {
        timestamps := timestamps[i..];
      }
    }

    /**
     * With a clock that never goes back: allowed exactly if fewer than maxRequests calls were
     * recorded in the window that ends now.
     */
    method Allow(seen: int, recorded: int) returns (ok: bool)
      requires Valid()
      modifies this
      ensures Valid() && calls == old(calls) + [Call(seen, recorded)]
      ensures ok == Allows(old(Abs()), seen)
      ensures forall start ::
                Monotone(start, old(calls)) && Clock(start, old(calls)) <= seen ==>
                ok == (CountFrom(Allowed(Init(windowSize, maxRequests), old(calls)), seen - windowSize) < maxRequests)
    {
      forall start | Monotone(start, calls) && Clock(start, calls) <= seen
        ensures Allows(Abs(), seen)
                == (CountFrom(Allowed(Init(windowSize, maxRequests), calls), seen - windowSize) < maxRequests)
      {
        AllowsExactly(windowSize, maxRequests, start, calls, seen);
      }
      AllowedSnoc(Init(windowSize, maxRequests), calls, Call(seen, recorded));
      calls := calls + [Call(seen, recorded)];
      Cleanup(seen);
      if |timestamps| < maxRequests {
        timestamps := timestamps + [recorded];
        return true;
      }
      return false;
    }

    /** The clock reads next[i] at the i-th call; the context ends during the sleep after the last. */
    method Wait(next: seq<Call>) returns (ok: bool, refused: nat)
      requires Valid()
      modifies this
      ensures refused <= |next| && AllRefused(old(Abs()), next[..refused])
      ensures ok <==> refused < |next|
      ensures Valid() && calls == old(calls) + if ok then next[..refused + 1] else next
      ensures ok ==> Allows(Run(old(Abs()), next[..refused]), next[refused].seen)
      ensures 1 <= maxRequests && SleepsHonoured(windowSize, next)
              && (exists start :: Monotone(start, old(calls)) && Monotone(Clock(start, old(calls)), next))
              ==> refused <= 11
    {
      ghost var start := Abs();
      refused := 0;
      assert calls + next[..0] == calls;
      while refused < |next|
        invariant Valid() && refused <= |next| && calls == old(calls) + next[..refused]
        invariant AllRefused(start, next[..refused]) && Abs() == Run(start, next[..refused])
      {
        RunSnoc(start, next[..refused], next[refused]);
        assert next[..refused] + [next[refused]] == next[..refused + 1];
        assert calls + [next[refused]] == old(calls) + next[..refused + 1];
        AllowedSnoc(Init(windowSize, maxRequests), calls, next[refused]);
        var allowed := Allow(next[refused].seen, next[refused].recorded);
        if allowed {
          ServedInTime(windowSize, maxRequests, old(calls), next, refused);
          return true, refused;
        }
        refused := refused + 1;
      }
      assert next[..refused] == next;
      ServedInTime(windowSize, maxRequests, old(calls), next, refused);
      return false, refused;
    }
  }

  lemma {:induction false} MonotonePrefix(clock: int, calls: seq<Call>, n: nat)
    requires Monotone(clock, calls) && n <= |calls|
    ensures Monotone(clock, calls[..n])
    decreases n
  {
    if n != 0 {
      assert calls[..n][1..] == calls[1..][..n - 1];
      MonotonePrefix(calls[0].recorded, calls[1..], n - 1);
    }
  }

  lemma ServedInTime(size: int, max: int, before: seq<Call>, calls: seq<Call>, n: nat)
    requires n <= |calls| && AllRefused(Run(Init(size, max), before), calls[..n])
    ensures 1 <= max && SleepsHonoured(size, calls)
            && (exists start :: Monotone(start, before) && Monotone(Clock(start, before), calls))
            ==> n <= 11
  {
    if 1 <= max && SleepsHonoured(size, calls) {
      forall start | Monotone(start, before) && Monotone(Clock(start, before), calls) ensures n <= 11 {
        MonotonePrefix(Clock(start, before), calls, n);
        TwelfthCallServes(size, max, start, before, calls[..n]);
      }
    }
  }

  lemma {:induction false} RunSnoc(s: State, calls: seq<Call>, c: Call)
    ensures Run(s, calls + [c]) == Step(Run(s, calls), c)
    ensures AllRefused(s, calls) && !Allows(Run(s, calls), c.seen) ==> AllRefused(s, calls + [c])
    decreases calls
  {
    if calls == [] {
      assert [c][1..] == [];
      assert Run(s, [c]) == Run(Step(s, c), []);
      assert calls + [c] == [c];
    } else {
      assert (calls + [c])[1..] == calls[1..] + [c];
      RunSnoc(Step(s, calls[0]), calls[1..], c);
    }
  }
}
