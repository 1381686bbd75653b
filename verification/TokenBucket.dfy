/** The token bucket rate limiter: time in nanoseconds, tokens as real numbers. */
module TokenBucketSpec {

  const MILLISECOND: int := 1000000
  const SECOND: int := 1000000000

  datatype Bucket = Bucket(rate: real, capacity: int, tokens: real, last: int)

  /** What the rate yields in so many nanoseconds. */
  function Gain(rate: real, nanos: int): real {
    nanos as real / SECOND as real * rate
  }

  lemma GainAdds(rate: real, a: int, b: int)
    ensures Gain(rate, a + b) == Gain(rate, a) + Gain(rate, b)
    ensures Gain(rate, 0) == 0.0
  {
    var x, y := a as real / SECOND as real, b as real / SECOND as real;
    assert (a + b) as real == a as real + b as real;
    assert (a as real + b as real) / SECOND as real == x + y;
    assert (x + y) * rate == x * rate + y * rate;
  }

  function Pos(x: real): real {
    if x < 0.0 then 0.0 else x
  }

  lemma GainBound(rate: real, nanos: int)
    requires 0 <= nanos
    ensures Gain(rate, nanos) <= Gain(Pos(rate), nanos)
    ensures 0.0 <= Gain(Pos(rate), nanos)
    ensures 0.0 <= rate ==> 0.0 <= Gain(rate, nanos)
    ensures rate <= 0.0 ==> Gain(rate, nanos) <= 0.0
  {
    var x := nanos as real / SECOND as real;
    assert 0.0 <= x;
    if 0.0 <= rate {
      assert 0.0 <= x * rate;
    } else {
      assert x * rate <= 0.0;
    }
  }

  function New(rate: real, capacity: int, now: int): Bucket {
    Bucket(rate, capacity, capacity as real, now)
  }

  function Refill(b: Bucket, now: int): Bucket {
    var raw := b.tokens + Gain(b.rate, now - b.last);
    b.(tokens := if raw > b.capacity as real then b.capacity as real else raw, last := now)
  }

  predicate Allows(b: Bucket, now: int) {
    1.0 <= Refill(b, now).tokens
  }

  /** The bucket after a call at the given time. */
  function Call(b: Bucket, now: int): Bucket {
    var r := Refill(b, now);
    if 1.0 <= r.tokens then r.(tokens := r.tokens - 1.0) else r
  }

  function Run(b: Bucket, times: seq<int>): Bucket
    decreases times
  {
    if times == [] then b else Run(Call(b, times[0]), times[1..])
  }

  /** The clock never goes back. */
  predicate Monotone(start: int, times: seq<int>)
    decreases times
  {
    times == [] || (start <= times[0] && Monotone(times[0], times[1..]))
  }

  /** How many calls between the two instants, both included, were allowed. */
  function Count(b: Bucket, times: seq<int>, lo: int, hi: int): nat
    decreases times
  {
    if times == [] then 0
    else (if Allows(b, times[0]) && lo <= times[0] <= hi then 1 else 0)
         + Count(Call(b, times[0]), times[1..], lo, hi)
  }

  /** The bucket never holds more than its capacity. */
  predicate Capped(b: Bucket) {
    b.tokens <= b.capacity as real
  }

  // ---------- At most capacity + rate * time ----------

  lemma {:induction false} NothingAfter(b: Bucket, times: seq<int>, lo: int, hi: int)
    requires Monotone(b.last, times) && hi < b.last
    ensures Count(b, times, lo, hi) == 0
    decreases times
  {
    if times != [] {
      NothingAfter(Call(b, times[0]), times[1..], lo, hi);
    }
  }

  lemma RefillBound(b: Bucket, now: int)
    requires b.last <= now
    ensures Refill(b, now).tokens <= Pos(b.tokens) + Gain(Pos(b.rate), now - b.last)
  {
    GainBound(b.rate, now - b.last);
  }

  /** From a bucket already inside the interval: its tokens and what still flows in. */
  lemma {:induction false} CountInside(b: Bucket, times: seq<int>, lo: int, hi: int)
    requires Monotone(b.last, times) && b.last <= hi
    ensures Count(b, times, lo, hi) as real <= Pos(b.tokens) + Gain(Pos(b.rate), hi - b.last)
    decreases times
  {
    GainBound(b.rate, hi - b.last);
    if times != [] {
      var now := times[0];
      var c := Call(b, now);
      if hi < now {
        NothingAfter(c, times[1..], lo, hi);
      } else {
        CountInside(c, times[1..], lo, hi);
        RefillBound(b, now);
        GainAdds(Pos(b.rate), now - b.last, hi - now);
        GainBound(b.rate, now - b.last);
        assert (now - b.last) + (hi - now) == hi - b.last;
      }
    }
  }

  lemma RefillTwice(b: Bucket, now: int)
    ensures Refill(Refill(b, now), now) == Refill(b, now)
  {
    GainAdds(b.rate, 0, 0);
  }

  /** From a bucket before the interval: at most a full bucket and what flows in during it. */
  lemma {:induction false} CountBefore(b: Bucket, times: seq<int>, lo: int, hi: int)
    requires Monotone(b.last, times) && b.last < lo <= hi
    ensures Count(b, times, lo, hi) as real <= Pos(b.capacity as real) + Gain(Pos(b.rate), hi - lo)
    decreases times
  {
    GainBound(b.rate, hi - lo);
    if times != [] {
      var now := times[0];
      if now < lo {
        CountBefore(Call(b, now), times[1..], lo, hi);
      } else if hi < now {
        NothingAfter(Call(b, now), times[1..], lo, hi);
      } else {
        var r := Refill(b, now);
        RefillTwice(b, now);
        CountInside(r, times, lo, hi);
        assert Count(r, times, lo, hi) == Count(b, times, lo, hi);
        GainAdds(Pos(b.rate), hi - now, now - lo);
        GainBound(b.rate, now - lo);
        assert (hi - now) + (now - lo) == hi - lo;
      }
    }
  }

  /**
   * For every configuration, every run and every interval: no more calls are allowed than a
   * full bucket plus what the rate yields during the interval.
   */
  lemma BurstBound(rate: real, capacity: int, start: int, times: seq<int>, lo: int, hi: int)
    requires Monotone(start, times) && lo <= hi
    ensures Count(New(rate, capacity, start), times, lo, hi) as real
            <= Pos(capacity as real) + Gain(Pos(rate), hi - lo)
  {
    var b := New(rate, capacity, start);
    GainBound(rate, hi - lo);
    if start < lo {
      CountBefore(b, times, lo, hi);
    } else if hi < start {
      NothingAfter(b, times, lo, hi);
    } else {
      CountInside(b, times, lo, hi);
      GainAdds(Pos(rate), hi - start, start - lo);
      GainBound(rate, start - lo);
      assert (hi - start) + (start - lo) == hi - lo;
    }
  }

  // ---------- Every decision, from the calls allowed before ----------

  lemma {:induction false} MonotoneSnoc(start: int, times: seq<int>, t: int)
    ensures Monotone(start, times + [t])
            <==> Monotone(start, times) && start <= t && forall i :: 0 <= i < |times| ==> times[i] <= t
    decreases times
  {
    if times == [] {
      assert [] + [t] == [t] && [t][1..] == [];
    } else {
      assert (times + [t])[1..] == times[1..] + [t];
      MonotoneSnoc(times[0], times[1..], t);
      assert Monotone(start, times) ==> start <= times[0];
    }
  }

  lemma {:induction false} CountSnoc(b: Bucket, times: seq<int>, t: int, lo: int, hi: int)
    ensures Run(b, times + [t]) == Call(Run(b, times), t)
    ensures Count(b, times + [t], lo, hi)
            == Count(b, times, lo, hi) + if Allows(Run(b, times), t) && lo <= t <= hi then 1 else 0
    decreases times
  {
    if times == [] {
      assert [] + [t] == [t] && [t][1..] == [];
      assert Run(Call(b, t), []) == Call(b, t);
    } else {
      assert (times + [t])[1..] == times[1..] + [t];
      CountSnoc(Call(b, times[0]), times[1..], t, lo, hi);
    }
  }

  /** Calls up to t: looking further ahead finds no more, looking only after t finds none. */
  lemma {:induction false} CountUpTo(b: Bucket, times: seq<int>, lo: int, t: int, hi: int)
    requires t <= hi && forall i :: 0 <= i < |times| ==> times[i] <= t
    ensures Count(b, times, lo, hi) == Count(b, times, lo, t)
    ensures t < lo ==> Count(b, times, lo, hi) == 0
    decreases times
  {
    if times != [] {
      assert forall i :: 0 <= i < |times[1..]| ==> times[1..][i] == times[i + 1];
      CountUpTo(Call(b, times[0]), times[1..], lo, t, hi);
    }
  }

  /** What a bucket that was full at the instant lo would hold now, after the calls allowed since. */
  function Level(b: Bucket, times: seq<int>, lo: int, now: int): real {
    b.capacity as real + Gain(b.rate, now - lo) - Count(b, times, lo, now) as real
  }

  /** The bucket holds the least of these levels. */
  ghost predicate Least(b: Bucket, start: int, times: seq<int>, now: int, tokens: real) {
    && (forall lo :: start <= lo <= now ==> tokens <= Level(b, times, lo, now))
    && (exists lo :: start <= lo <= now && tokens == Level(b, times, lo, now))
  }

  lemma {:induction false} RunConfig(b: Bucket, times: seq<int>)
    ensures Run(b, times).rate == b.rate && Run(b, times).capacity == b.capacity
    decreases times
  {
    if times != [] {
      RunConfig(Call(b, times[0]), times[1..]);
    }
  }

  lemma StartsLeast(b: Bucket, start: int, now: int)
    requires b.tokens == b.capacity as real && b.last == start <= now
    ensures Least(b, start, [], now, Refill(b, now).tokens)
  {
    forall lo | start <= lo <= now ensures Refill(b, now).tokens <= Level(b, [], lo, now) {
      GainMonotone(b.rate, now - lo, now - start);
    }
    GainAdds(b.rate, 0, 0);
    if Refill(b, now).tokens == b.capacity as real {
      assert Refill(b, now).tokens == Level(b, [], now, now);
    } else {
      assert Refill(b, now).tokens == Level(b, [], start, now);
    }
  }

  /** More time yields more, unless the rate is negative and it yields less. */
  lemma GainMonotone(rate: real, a: int, b: int)
    requires 0 <= a <= b
    ensures 0.0 <= Gain(rate, a) || Gain(rate, b) <= Gain(rate, a)
    ensures 0.0 <= rate ==> Gain(rate, a) <= Gain(rate, b)
    ensures rate <= 0.0 ==> Gain(rate, b) <= Gain(rate, a)
  {
    GainAdds(rate, a, b - a);
    GainBound(rate, b - a);
    GainBound(rate, a);
  }

  /** One call more: its instant t, and now some later time. */
  lemma StaysLeast(b: Bucket, start: int, times: seq<int>, t: int, now: int)
    requires start <= t <= now && forall i :: 0 <= i < |times| ==> times[i] <= t
    requires Capped(Run(b, times)) && Least(b, start, times, t, Refill(Run(b, times), t).tokens)
    ensures Capped(Run(b, times + [t]))
    ensures Least(b, start, times + [t], now, Refill(Run(b, times + [t]), now).tokens)
  {
    var r, c := Refill(Run(b, times), t), Call(Run(b, times), t);
    RunConfig(b, times);
    forall lo | start <= lo <= now ensures Refill(c, now).tokens <= Level(b, times + [t], lo, now) {
      LevelGrows(b, times, t, lo, now);
      if t < lo {
        GainMonotone(b.rate, now - lo, now - t);
      }
    }
    CountSnoc(b, times, t, t, t);
    if c.tokens + Gain(b.rate, now - t) > b.capacity as real {
      GainAdds(b.rate, 0, 0);
      LevelGrows(b, times, t, now, now);
    } else {
      var lo :| start <= lo <= t && r.tokens == Level(b, times, lo, t);
      LevelGrows(b, times, t, lo, now);
      assert Refill(c, now).tokens == Level(b, times + [t], lo, now);
    }
  }

  lemma LevelGrows(b: Bucket, times: seq<int>, t: int, lo: int, now: int)
    requires t <= now && lo <= now && forall i :: 0 <= i < |times| ==> times[i] <= t
    ensures lo <= t ==> Level(b, times + [t], lo, now)
                        == Level(b, times, lo, t) + Gain(b.rate, now - t)
                           - if Allows(Run(b, times), t) then 1.0 else 0.0
    ensures t < lo ==> Level(b, times + [t], lo, now) == b.capacity as real + Gain(b.rate, now - lo)
  {
    CountSnoc(b, times, t, lo, now);
    CountUpTo(b, times, lo, t, now);
    if lo <= t {
      GainAdds(b.rate, t - lo, now - t);
      assert (t - lo) + (now - t) == now - lo;
    }
  }

  lemma {:induction false} RunIsLeast(b: Bucket, start: int, times: seq<int>, now: int)
    requires b.tokens == b.capacity as real && b.last == start && Monotone(start, times + [now])
    ensures Capped(Run(b, times)) && Least(b, start, times, now, Refill(Run(b, times), now).tokens)
    decreases |times|
  {
    MonotoneSnoc(start, times, now);
    if times == [] {
      StartsLeast(b, start, now);
    } else {
      var before, t := times[..|times| - 1], times[|times| - 1];
      assert times == before + [t];
      MonotoneSnoc(start, before, t);
      RunIsLeast(b, start, before, t);
      StaysLeast(b, start, before, t, now);
    }
  }

  /**
   * The decision of every call of every run, for every rate and capacity: it is allowed if and
   * only if, for every instant since the start, one call more than were allowed from that instant
   * on fits into a full bucket and what the rate has yielded since. So the bucket starts full,
   * earns up to its capacity, and refuses nothing it could serve.
   */
  lemma AllowsExactly(rate: real, capacity: int, start: int, times: seq<int>, now: int)
    requires Monotone(start, times + [now])
    ensures Allows(Run(New(rate, capacity, start), times), now)
            <==> forall lo :: start <= lo <= now ==>
                   (Count(New(rate, capacity, start), times, lo, now) + 1) as real
                   <= capacity as real + Gain(rate, now - lo)
  {
    var b := New(rate, capacity, start);
    RunIsLeast(b, start, times, now);
    var tokens := Refill(Run(b, times), now).tokens;
    if 1.0 <= tokens {
      forall lo | start <= lo <= now
        ensures (Count(b, times, lo, now) + 1) as real <= capacity as real + Gain(rate, now - lo)
      {
        assert tokens <= Level(b, times, lo, now);
      }
    } else {
      var lo :| start <= lo <= now && tokens == Level(b, times, lo, now);
      assert !((Count(b, times, lo, now) + 1) as real <= capacity as real + Gain(rate, now - lo));
    }
  }

  function Copies(n: nat, t: int): seq<int> {
    if n == 0 then [] else [t] + Copies(n - 1, t)
  }

  /** The bound is met: a full bucket serves a burst of exactly its capacity. */
  lemma {:induction false} FullBurst(b: Bucket, n: nat)
    requires 0 <= b.capacity && b.tokens == n as real && n <= b.capacity
    ensures Count(b, Copies(n, b.last), b.last, b.last) == n
    ensures !Allows(Run(b, Copies(n, b.last)), b.last)
    decreases n
  {
    GainAdds(b.rate, 0, 0);
    if n != 0 {
      assert Copies(n, b.last)[1..] == Copies(n - 1, b.last);
      FullBurst(Call(b, b.last), n - 1);
    }
  }

  // ---------- Lazy refill is invisible ----------

  /** Two buckets no later call can tell apart. */
  predicate SameFrom(a: Bucket, b: Bucket, t: int) {
    && a.rate == b.rate && a.capacity == b.capacity
    && a.last <= t && b.last <= t && Capped(a) && Capped(b)
    && Refill(a, t) == Refill(b, t)
  }

  /** Looking at the bucket in between does not change what a later refill finds. */
  lemma RefillThrough(b: Bucket, t: int, now: int)
    requires Capped(b) && b.last <= t <= now
    ensures Refill(Refill(b, t), now) == Refill(b, now)
  {
    GainAdds(b.rate, t - b.last, now - t);
    assert (t - b.last) + (now - t) == now - b.last;
    GainBound(b.rate, t - b.last);
    GainBound(b.rate, now - t);
  }

  lemma SameLater(a: Bucket, b: Bucket, t: int, now: int)
    requires SameFrom(a, b, t) && t <= now
    ensures SameFrom(a, b, now) && Call(a, now) == Call(b, now) && Allows(a, now) == Allows(b, now)
  {
    RefillThrough(a, t, now);
    RefillThrough(b, t, now);
  }

  /** The run without its refused calls. */
  function Kept(b: Bucket, times: seq<int>): seq<int>
    decreases times
  {
    if times == [] then []
    else (if Allows(b, times[0]) then [times[0]] else []) + Kept(Call(b, times[0]), times[1..])
  }

  /** The whole bucket after every allowed call. */
  function Levels(b: Bucket, times: seq<int>): seq<Bucket>
    decreases times
  {
    if times == [] then []
    else (if Allows(b, times[0]) then [Call(b, times[0])] else []) + Levels(Call(b, times[0]), times[1..])
  }

  lemma {:induction false} KeptFromSame(a: Bucket, b: Bucket, t: int, times: seq<int>, now: int)
    requires SameFrom(a, b, t) && Monotone(t, times + [now])
    ensures Kept(b, Kept(a, times)) == Kept(a, times)
    ensures Levels(b, Kept(a, times)) == Levels(a, times)
    ensures SameFrom(Run(a, times), Run(b, Kept(a, times)), now)
    decreases times
  {
    if times == [] {
      assert (times + [now])[0] == now;
      SameLater(a, b, t, now);
    } else {
      var u := times[0];
      assert (times + [now])[0] == u && (times + [now])[1..] == times[1..] + [now];
      SameLater(a, b, t, u);
      var c := Call(a, u);
      RefillTwice(a, u);
      RefillTwice(b, u);
      var rest := Kept(c, times[1..]);
      if Allows(a, u) {
        KeptFromSame(c, c, u, times[1..], now);
        assert Kept(a, times) == [u] + rest && ([u] + rest)[1..] == rest;
      } else {
        KeptFromSame(c, b, u, times[1..], now);
        assert Kept(a, times) == rest && Run(a, times) == Run(c, times[1..]);
      }
    }
  }

  /**
   * Deleting every refused call from a run changes nothing else: all remaining calls are still
   * allowed, each leaves the same bucket behind, and any later call decides the same.
   */
  lemma RefusedCallsInvisible(b: Bucket, times: seq<int>, now: int)
    requires Capped(b) && Monotone(b.last, times + [now])
    ensures var kept := Kept(b, times);
            && Kept(b, kept) == kept
            && Levels(b, kept) == Levels(b, times)
            && Call(Run(b, kept), now) == Call(Run(b, times), now)
            && (Allows(Run(b, kept), now) <==> Allows(Run(b, times), now))
  {
    KeptFromSame(b, b, b.last, times, now);
    SameLater(Run(b, times), Run(b, Kept(b, times)), now, now);
  }

  // ---------- Waiting ----------

  /** How long Wait sleeps after a refusal: truncated to nanoseconds, one millisecond at least. */
  function WaitDur(b: Bucket): int {
    if 0.0 < b.rate then
      var deficit := if 1.0 - b.tokens < 0.0 then 0.0 else 1.0 - b.tokens;
      var d := (deficit / b.rate * SECOND as real).Floor;
      if d < MILLISECOND then MILLISECOND else d
    else 100 * MILLISECOND
  }

  lemma GainGrows(rate: real, a: int, b: int)
    requires 0.0 <= rate && a <= b
    ensures Gain(rate, a) <= Gain(rate, b)
  {
    GainAdds(rate, a, b - a);
    GainBound(rate, b - a);
    assert a + (b - a) == b;
  }

  /** Truncation costs less than one nanosecond's worth of tokens. */
  lemma TruncationLoss(rate: real, deficit: real, d: int)
    requires 0.0 < rate && 0.0 <= deficit && d == (deficit / rate * SECOND as real).Floor
    ensures deficit - Gain(rate, 1) < Gain(rate, d) <= deficit
  {
    var x := deficit / rate * SECOND as real;
    assert x / SECOND as real * rate == deficit by {
      assert x / SECOND as real == deficit / rate;
    }
    Scale(d as real, x, rate);
    Scale(x - 1.0, d as real, rate);
    var u, v := x / SECOND as real, 1.0 / SECOND as real;
    assert (x - 1.0) / SECOND as real == u - v;
    assert (u - v) * rate == u * rate - v * rate;
    assert Gain(rate, 1) == v * rate;
  }

  lemma Scale(a: real, b: real, rate: real)
    requires 0.0 < rate
    ensures a <= b ==> a / SECOND as real * rate <= b / SECOND as real * rate
    ensures a < b ==> a / SECOND as real * rate < b / SECOND as real * rate
  {
    var u, v := a / SECOND as real, b / SECOND as real;
    if a < b {
      assert u < v;
      assert 0.0 < (v - u) * rate;
      assert (v - u) * rate == v * rate - u * rate;
    }
  }

  /** After the computed sleep less than a nanosecond's worth is missing. */
  lemma SleepNearlyFills(b: Bucket, now: int)
    requires 0.0 < b.rate && 1 <= b.capacity && b.tokens < 1.0
    requires b.last + WaitDur(b) <= now
    ensures 1.0 - Gain(b.rate, 1) < Refill(b, now).tokens
    ensures 1.0 - b.tokens <= Gain(b.rate, MILLISECOND) ==> Allows(b, now)
  {
    var deficit := 1.0 - b.tokens;
    var d := (deficit / b.rate * SECOND as real).Floor;
    TruncationLoss(b.rate, deficit, d);
    GainGrows(b.rate, d, now - b.last);
    GainGrows(b.rate, MILLISECOND, now - b.last);
    GainGrows(b.rate, 0, 1);
    GainAdds(b.rate, 0, 0);
    Scale(0.0, 1.0, b.rate);
  }

  /** No sleep is too long: a nanosecond earlier, if more than the minimum was asked for, is too early. */
  lemma NoSoonerServed(b: Bucket, now: int)
    requires 0.0 < b.rate && b.tokens < 1.0
    requires MILLISECOND < WaitDur(b) && b.last <= now < b.last + WaitDur(b)
    ensures !Allows(b, now)
  {
    var deficit := 1.0 - b.tokens;
    var d := (deficit / b.rate * SECOND as real).Floor;
    GainGrows(b.rate, now - b.last, d - 1);
    GainAdds(b.rate, d - 1, 1);
    TruncationLoss(b.rate, deficit, d);
  }

  /** A lone waiter whose sleeps are never cut short is served at its third call at the latest. */
  lemma ThirdCallServes(b: Bucket, t1: int, t2: int, t3: int)
    requires 0.0 < b.rate && 1 <= b.capacity && b.last <= t1
    requires t1 + WaitDur(Call(b, t1)) <= t2
    requires t2 + WaitDur(Call(Call(b, t1), t2)) <= t3
    ensures Allows(b, t1) || Allows(Call(b, t1), t2) || Allows(Call(Call(b, t1), t2), t3)
  {
    if !Allows(b, t1) {
      var b1 := Call(b, t1);
      SleepNearlyFills(b1, t2);
      if !Allows(b1, t2) {
        var b2 := Call(b1, t2);
        GainGrows(b.rate, 1, MILLISECOND);
        SleepNearlyFills(b2, t3);
      }
    }
  }

  /** Three calls can be needed: at three tokens a second the truncated sleep is too short. */
  lemma SecondCallCanFail()
    ensures var b := Bucket(3.0, 1, 0.0, 0);
            WaitDur(b) == 333333333 && !Allows(b, 333333333)
  {
    var b := Bucket(3.0, 1, 0.0, 0);
    var x := 1.0 / 3.0 * SECOND as real;
    assert 333333333.0 <= x < 333333334.0;
    assert x.Floor == 333333333;
    assert Gain(3.0, 333333333) == 0.999999999;
  }

  /** A capped bucket serves somebody, some day, exactly when a whole token fits and one is there or flows in. */
  lemma ServesSomeDay(b: Bucket)
    requires Capped(b)
    ensures (exists now :: b.last <= now && Allows(b, now))
            <==> 1 <= b.capacity && (1.0 <= b.tokens || 0.0 < b.rate)
  {
    if 1 <= b.capacity && (1.0 <= b.tokens || 0.0 < b.rate) {
      if 1.0 <= b.tokens {
        GainAdds(b.rate, 0, 0);
        assert Allows(b, b.last);
      } else {
        var deficit := 1.0 - b.tokens;
        var d := (deficit / b.rate * SECOND as real).Floor;
        TruncationLoss(b.rate, deficit, d);
        GainAdds(b.rate, d, 1);
        assert 0.0 <= deficit / b.rate;
        assert 0.0 <= deficit / b.rate * SECOND as real;
        assert Allows(b, b.last + d + 1);
      }
    }
    forall now | b.last <= now && Allows(b, now)
      ensures 1 <= b.capacity && (1.0 <= b.tokens || 0.0 < b.rate)
    {
      GainBound(b.rate, now - b.last);
    }
  }

  /** Every sleep between two readings lasts at least as long as was asked for. */
  predicate SleepsHonoured(nows: seq<int>, asked: seq<int>) {
    forall i :: 0 <= i < |asked| && i + 1 < |nows| ==> nows[i] + asked[i] <= nows[i + 1]
  }

  /** The first n calls are refused. */
  predicate RefusedUpTo(b: Bucket, nows: seq<int>, n: nat)
    requires n <= |nows|
    decreases n
  {
    n == 0 || (!Allows(b, nows[0]) && RefusedUpTo(Call(b, nows[0]), nows[1..], n - 1))
  }

  lemma {:induction false} RefusedOneMore(b: Bucket, nows: seq<int>, n: nat)
    requires n < |nows| && RefusedUpTo(b, nows, n) && !Allows(Run(b, nows[..n]), nows[n])
    ensures RefusedUpTo(b, nows, n + 1)
    ensures Run(b, nows[..n + 1]) == Call(Run(b, nows[..n]), nows[n])
    decreases n
  {
    if n != 0 {
      assert nows[..n][1..] == nows[1..][..n - 1];
      assert nows[..n + 1][1..] == nows[1..][..n];
      RefusedOneMore(Call(b, nows[0]), nows[1..], n - 1);
    } else {
      assert nows[..1] == [nows[0]];
      assert Run(b, nows[..1]) == Run(Call(b, nows[0]), nows[..1][1..]);
    }
  }

  /** What is asked for after each of the first refusals. */
  ghost predicate AsksFor(b: Bucket, nows: seq<int>, asked: seq<int>) {
    |asked| <= |nows| && forall i :: 0 <= i < |asked| ==> asked[i] == WaitDur(Run(b, nows[..i + 1]))
  }

  lemma RefusedAtMostTwice(b: Bucket, nows: seq<int>, asked: seq<int>)
    requires AsksFor(b, nows, asked) && RefusedUpTo(b, nows, |asked|) && SleepsHonoured(nows, asked)
    requires 0.0 < b.rate && 1 <= b.capacity && nows != [] && b.last <= nows[0]
    ensures |asked| <= 2
  {
    if 3 <= |asked| {
      var b1 := Call(b, nows[0]);
      var b2 := Call(b1, nows[1]);
      assert nows[1..][0] == nows[1] && nows[1..][1..] == nows[2..];
      assert RefusedUpTo(b1, nows[1..], |asked| - 1) && RefusedUpTo(b2, nows[2..], |asked| - 2);
      RefusedOneMore(b, nows, 0);
      RefusedOneMore(b, nows, 1);
      assert asked[0] == WaitDur(Run(b, nows[..0 + 1])) && asked[1] == WaitDur(Run(b, nows[..1 + 1]));
      ThirdCallServes(b, nows[0], nows[1], nows[2]);
    }
  }

  // ---------- The struct ----------

  class TokenBucket {
    const rate: real
    const capacity: int
    var tokens: real
    var lastTime: int

    ghost function Abs(): Bucket
      reads this
    {
      Bucket(rate, capacity, tokens, lastTime)
    }

    constructor (rate: real, capacity: int, now: int)
      ensures Abs() == New(rate, capacity, now)
    {
      this.rate, this.capacity := rate, capacity;
      tokens, lastTime := capacity as real, now;
    }

    method RefillNow(now: int)
      modifies this
      ensures Abs() == Refill(old(Abs()), now)
    {
      tokens := tokens + (now - lastTime) as real / SECOND as real * rate;
      if tokens > capacity as real {
        tokens := capacity as real;
      }
      lastTime := now;
    }

    method Allow(now: int) returns (ok: bool)
      modifies this
      ensures ok == Allows(old(Abs()), now) && Abs() == Call(old(Abs()), now)
    {
      RefillNow(now);
      if 1.0 <= tokens {
        tokens := tokens - 1.0;
        return true;
      }
      return false;
    }

    method SleepTime() returns (d: int)
      ensures d == WaitDur(Abs())
    {
      if 0.0 < rate {
        var deficit := 1.0 - tokens;
        if deficit < 0.0 {
          deficit := 0.0;
        }
        d := (deficit / rate * SECOND as real).Floor;
        if d < MILLISECOND {
          d := MILLISECOND;
        }
      } else {
        d := 100 * MILLISECOND;
      }
    }

    /**
     * The clock reads nows[i] at the i-th call; the context ends during the sleep after the
     * last one. asked are the sleeps computed after the refusals.
     */
    method Wait(nows: seq<int>) returns (ok: bool, refused: nat, asked: seq<int>)
      requires nows != []
      modifies this
      ensures refused <= |nows| && RefusedUpTo(old(Abs()), nows, refused)
      ensures ok <==> refused < |nows|
      ensures ok ==> Allows(Run(old(Abs()), nows[..refused]), nows[refused])
                     && Abs() == Call(Run(old(Abs()), nows[..refused]), nows[refused])
      ensures !ok ==> Abs() == Run(old(Abs()), nows)
      ensures |asked| == refused && AsksFor(old(Abs()), nows, asked)
      ensures 0.0 < rate && 1 <= capacity && old(lastTime) <= nows[0] && SleepsHonoured(nows, asked)
              ==> refused <= 2 && (3 <= |nows| ==> ok)
    {
      ghost var start := Abs();
      refused, asked := 0, [];
      while refused < |nows|
        invariant refused <= |nows| && RefusedUpTo(start, nows, refused)
        invariant Abs() == Run(start, nows[..refused])
        invariant |asked| == refused && AsksFor(start, nows, asked)
      {
        var allowed := Allow(nows[refused]);
        if allowed {
          ServedInTime(start, nows, asked);
          return true, refused, asked;
        }
        RefusedOneMore(start, nows, refused);
        refused := refused + 1;
        var waitDur := SleepTime();
        asked := asked + [waitDur];
      }
      assert nows[..refused] == nows;
      ServedInTime(start, nows, asked);
      return false, refused, asked;
    }
  }

  lemma ServedInTime(b: Bucket, nows: seq<int>, asked: seq<int>)
    requires AsksFor(b, nows, asked) && RefusedUpTo(b, nows, |asked|) && nows != []
    ensures 0.0 < b.rate && 1 <= b.capacity && b.last <= nows[0] && SleepsHonoured(nows, asked) ==> |asked| <= 2
  {
    if 0.0 < b.rate && 1 <= b.capacity && b.last <= nows[0] && SleepsHonoured(nows, asked) {
      RefusedAtMostTwice(b, nows, asked);
    }
  }
}
