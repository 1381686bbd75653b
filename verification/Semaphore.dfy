/** The weighted semaphore: its wake-up pass, its critical sections and every run of them. */
module SemaphoreSpec {

  /** A request. The ticket is its arrival number and stands for its ready channel. */
  datatype Waiter = Waiter(ticket: nat, weight: int)

  /** Arrival order: tickets strictly increase. */
  ghost predicate Sorted(ws: seq<Waiter>) {
    forall i, j :: 0 <= i < j < |ws| ==> ws[i].ticket < ws[j].ticket
  }

  lemma SortedTail(ws: seq<Waiter>)
    requires ws != [] && Sorted(ws)
    ensures Sorted(ws[1..])
    ensures forall w :: w in ws[1..] ==> ws[0].ticket < w.ticket
  {}

  lemma SortedCons(first: Waiter, ws: seq<Waiter>)
    requires Sorted(ws)
    requires forall w :: w in ws ==> first.ticket < w.ticket
    ensures Sorted([first] + ws)
  {
    assert forall i :: 0 <= i < |ws| ==> ws[i] in ws;
  }

  lemma SortedSnoc(ws: seq<Waiter>, last: Waiter)
    requires Sorted(ws)
    requires forall w :: w in ws ==> w.ticket < last.ticket
    ensures Sorted(ws + [last])
  {
    assert forall i :: 0 <= i < |ws| ==> ws[i] in ws;
  }

  function Total(ws: seq<Waiter>): int {
    if ws == [] then 0 else ws[0].weight + Total(ws[1..])
  }

  lemma {:induction false} TotalConcat(a: seq<Waiter>, b: seq<Waiter>)
    ensures Total(a + b) == Total(a) + Total(b)
  {
    if a == [] {
      assert a + b == b;
    } else {
      assert (a + b)[1..] == a[1..] + b;
      TotalConcat(a[1..], b);
    }
  }

  // ---------- The wake-up pass ----------

  datatype Pass = Pass(current: int, kept: seq<Waiter>, woken: seq<Waiter>)

  /** The charged weight once a waiter has been looked at. */
  function After(max: int, current: int, w: Waiter): int {
    if current + w.weight <= max then current + w.weight else current
  }

  /** One left-to-right pass that admits every waiter that fits at the moment it is looked at. */
  function Greedy(max: int, current: int, ws: seq<Waiter>): Pass
    decreases ws
  {
    if ws == [] then
      Pass(current, [], [])
    else if current + ws[0].weight <= max then
      var rest := Greedy(max, current + ws[0].weight, ws[1..]);
      rest.(woken := [ws[0]] + rest.woken)
    else
      var rest := Greedy(max, current, ws[1..]);
      rest.(kept := [ws[0]] + rest.kept)
  }

  /** The pass splits the queue in two and charges exactly what it woke. */
  lemma {:induction false} GreedySplits(max: int, current: int, ws: seq<Waiter>)
    ensures var p := Greedy(max, current, ws);
            && multiset(p.kept) + multiset(p.woken) == multiset(ws)
            && p.current == current + Total(p.woken)
    decreases ws
  {
    if ws != [] {
      GreedySplits(max, After(max, current, ws[0]), ws[1..]);
      assert ws == [ws[0]] + ws[1..];
    }
  }

  lemma {:induction false} GreedyMembers(max: int, current: int, ws: seq<Waiter>)
    ensures var p := Greedy(max, current, ws);
            && (forall w :: w in ws <==> w in p.kept || w in p.woken)
  {
    var p := Greedy(max, current, ws);
    GreedySplits(max, current, ws);
    forall w ensures w in ws <==> w in p.kept || w in p.woken {
      assert w in ws <==> w in multiset(ws);
      assert multiset(ws)[w] == multiset(p.kept)[w] + multiset(p.woken)[w];
    }
  }

  /** Both parts keep arrival order. */
  lemma {:induction false} GreedyKeepsOrder(max: int, current: int, ws: seq<Waiter>)
    requires Sorted(ws)
    ensures Sorted(Greedy(max, current, ws).kept) && Sorted(Greedy(max, current, ws).woken)
    decreases ws
  {
    if ws != [] {
      var rest := Greedy(max, After(max, current, ws[0]), ws[1..]);
      SortedTail(ws);
      GreedyMembers(max, After(max, current, ws[0]), ws[1..]);
      GreedyKeepsOrder(max, After(max, current, ws[0]), ws[1..]);
      SortedCons(ws[0], rest.kept);
      SortedCons(ws[0], rest.woken);
    }
  }

  /** Nothing that still fits is left behind, and the capacity is respected. */
  lemma {:induction false} GreedyExhausts(max: int, current: int, ws: seq<Waiter>)
    requires current <= max
    requires forall w :: w in ws ==> 0 < w.weight
    ensures var p := Greedy(max, current, ws);
            && current <= p.current <= max
            && forall w :: w in p.kept ==> p.current + w.weight > max
    decreases ws
  {
    if ws != [] {
      assert forall w :: w in ws[1..] ==> w in ws;
      GreedyExhausts(max, After(max, current, ws[0]), ws[1..]);
    }
  }

  /** A waiter passed over is heavier than everything woken behind it. */
  lemma {:induction false} GreedyNoOvertaking(max: int, current: int, ws: seq<Waiter>, a: Waiter, b: Waiter)
    requires current <= max && Sorted(ws)
    requires forall w :: w in ws ==> 0 < w.weight
    requires a in Greedy(max, current, ws).kept && b in Greedy(max, current, ws).woken && a.ticket < b.ticket
    ensures b.weight < a.weight
    decreases ws
  {
    var c := After(max, current, ws[0]);
    SortedTail(ws);
    GreedyMembers(max, c, ws[1..]);
    if a == ws[0] {
      WokenFits(max, c, ws[1..]);
    } else {
      GreedyNoOvertaking(max, c, ws[1..], a, b);
    }
  }

  lemma {:induction false} WokenFits(max: int, current: int, ws: seq<Waiter>)
    requires current <= max
    requires forall w :: w in ws ==> 0 < w.weight
    ensures forall b :: b in Greedy(max, current, ws).woken ==> current + b.weight <= max
    decreases ws
  {
    if ws != [] {
      assert forall w :: w in ws[1..] ==> w in ws;
      WokenFits(max, After(max, current, ws[0]), ws[1..]);
    }
  }

  // ---------- Removing a cancelled request ----------

  /** The queue without the first request carrying the ticket. */
  function Remove(ws: seq<Waiter>, ticket: nat): seq<Waiter> {
    if ws == [] then []
    else if ws[0].ticket == ticket then ws[1..]
    else [ws[0]] + Remove(ws[1..], ticket)
  }

  predicate Has(ws: seq<Waiter>, ticket: nat) {
    exists w :: w in ws && w.ticket == ticket
  }

  /** The weight removed with the ticket; zero when it is not there. */
  function WeightOf(ws: seq<Waiter>, ticket: nat): int {
    if ws == [] then 0
    else if ws[0].ticket == ticket then ws[0].weight
    else WeightOf(ws[1..], ticket)
  }

  lemma {:induction false} RemoveOne(ws: seq<Waiter>, ticket: nat)
    ensures Total(Remove(ws, ticket)) == Total(ws) - WeightOf(ws, ticket)
    ensures forall w :: w in Remove(ws, ticket) ==> w in ws
    ensures forall w :: w in ws && w.ticket != ticket ==> w in Remove(ws, ticket)
    ensures Has(ws, ticket) ==> Waiter(ticket, WeightOf(ws, ticket)) in ws
    ensures !Has(ws, ticket) ==> Remove(ws, ticket) == ws && WeightOf(ws, ticket) == 0
  {
    if ws != [] {
      assert ws == [ws[0]] + ws[1..];
      RemoveOne(ws[1..], ticket);
    }
  }

  lemma {:induction false} RemoveSorted(ws: seq<Waiter>, ticket: nat)
    requires Sorted(ws)
    ensures Sorted(Remove(ws, ticket))
    ensures !Has(Remove(ws, ticket), ticket)
  {
    if ws != [] {
      SortedTail(ws);
      if ws[0].ticket != ticket {
        RemoveSorted(ws[1..], ticket);
        RemoveOne(ws[1..], ticket);
        SortedCons(ws[0], Remove(ws[1..], ticket));
      }
    }
  }

  lemma {:induction false} RemoveAt(ws: seq<Waiter>, i: nat)
    requires i < |ws|
    requires forall w :: w in ws[..i] ==> w.ticket != ws[i].ticket
    ensures Has(ws, ws[i].ticket)
    ensures Remove(ws, ws[i].ticket) == ws[..i] + ws[i + 1..]
  {
    assert ws[i] in ws;
    if i != 0 {
      assert ws[0] in ws[..i];
      assert forall w :: w in ws[1..][..i - 1] ==> w in ws[..i];
      RemoveAt(ws[1..], i - 1);
    }
  }

  // ---------- The state machine ----------

  /**
   * The fields max, current and waiters are the semaphore's own. The others describe its
   * callers: next numbers arrivals, granted logs every grant, unseen holds the requests that
   * were granted while queued and whose Acquire has not returned yet, held is the weight
   * callers own, lost the weight of granted requests whose Acquire returned the context's
   * error, and clamped what over-releases were cut short by.
   */
  datatype State = State(max: int, current: int, waiters: seq<Waiter>, next: nat,
                         granted: seq<Waiter>, unseen: seq<Waiter>,
                         held: int, lost: int, clamped: int)

  /** One critical section, or one choice of the select in Acquire. */
  datatype Event =
    | Acquire(weight: int)
    | TryAcquire(weight: int)
    | Observe(ticket: nat)
    | Cancel(ticket: nat)
    | Release(weight: int)

  function Init(maxWeight: int): State {
    State(if maxWeight <= 0 then 1 else maxWeight, 0, [], 0, [], [], 0, 0, 0)
  }

  /** A request is granted on arrival when it fits and nobody waits. */
  predicate FastPath(s: State, weight: int) {
    s.current + weight <= s.max && s.waiters == []
  }

  function Grant(s: State, weight: int): State {
    s.(current := s.current + weight, next := s.next + 1,
       granted := s.granted + [Waiter(s.next, weight)], held := s.held + weight)
  }

  function Enqueue(s: State, weight: int): State {
    s.(waiters := s.waiters + [Waiter(s.next, weight)], next := s.next + 1)
  }

  function Notify(s: State): State {
    var p := Greedy(s.max, s.current, s.waiters);
    s.(current := p.current, waiters := p.kept, granted := s.granted + p.woken, unseen := s.unseen + p.woken)
  }

  function Lower(s: State, weight: int): State {
    if s.current < weight
    then s.(current := 0, held := s.held - weight, clamped := s.clamped + (weight - s.current))
    else s.(current := s.current - weight, held := s.held - weight)
  }

  function Step(s: State, e: Event): State {
    match e
    case Acquire(w) =>
      if w <= 0 || w > s.max then s
      else if FastPath(s, w) then Grant(s, w)
      else Enqueue(s, w)
    case TryAcquire(w) =>
      if w <= 0 || w > s.max then s
      else if FastPath(s, w) then Grant(s, w)
      else s.(next := s.next + 1)
    case Observe(t) =>
      s.(unseen := Remove(s.unseen, t), held := s.held + WeightOf(s.unseen, t))
    case Cancel(t) =>
      if Has(s.waiters, t) then s.(waiters := Remove(s.waiters, t))
      else s.(unseen := Remove(s.unseen, t), lost := s.lost + WeightOf(s.unseen, t))
    case Release(w) =>
      if w <= 0 then s else Notify(Lower(s, w))
  }

  function Run(s: State, events: seq<Event>): State
    decreases events
  {
    if events == [] then s else Run(Step(s, events[0]), events[1..])
  }

  // ---------- The invariant ----------

  ghost predicate WellQueued(s: State) {
    && Sorted(s.waiters)
    && (forall w :: w in s.waiters ==> 1 <= w.weight <= s.max && w.ticket < s.next)
  }

  /** Every request is granted at most once, and never while it still waits. */
  ghost predicate GrantedOnce(s: State) {
    && (forall g :: g in s.granted ==> g.ticket < s.next)
    && (forall i, j :: 0 <= i < j < |s.granted| ==> s.granted[i].ticket != s.granted[j].ticket)
    && (forall w, g :: w in s.waiters && g in s.granted ==> w.ticket != g.ticket)
  }

  /** Whoever still waits is heavier than every later request that has been granted. */
  ghost predicate NobodyOvertaken(s: State) {
    forall a, b :: a in s.waiters && b in s.granted && a.ticket < b.ticket ==> b.weight < a.weight
  }

  predicate Balanced(s: State) {
    s.current == s.held + Total(s.unseen) + s.lost + s.clamped
  }

  ghost predicate Inv(s: State) {
    && 1 <= s.max
    && 0 <= s.current <= s.max
    && (s.waiters != [] ==> 0 < s.current)
    && WellQueued(s)
    && GrantedOnce(s)
    && NobodyOvertaken(s)
    && Balanced(s)
    && (forall u :: u in s.unseen ==> 1 <= u.weight)
    && 0 <= s.lost && 0 <= s.clamped
  }

  lemma GrantKeepsInv(s: State, weight: int)
    requires Inv(s) && 1 <= weight <= s.max && FastPath(s, weight)
    ensures Inv(Grant(s, weight))
  {}

  lemma EnqueueKeepsInv(s: State, weight: int)
    requires Inv(s) && 1 <= weight <= s.max && !FastPath(s, weight)
    ensures Inv(Enqueue(s, weight))
  {
    var ws := Enqueue(s, weight).waiters;
    SortedSnoc(s.waiters, Waiter(s.next, weight));
    assert forall w :: w in ws ==> w in s.waiters || w == Waiter(s.next, weight);
    assert s.waiters != [] || s.current + weight > s.max;
  }

  /** Releasing may leave a queue that nothing blocks any more; the pass restores the rest. */
  ghost predicate InvBeforeNotify(s: State) {
    Inv(s.(waiters := [])) && WellQueued(s) && GrantedOnce(s) && NobodyOvertaken(s)
  }

  lemma LowerKeepsInv(s: State, weight: int)
    requires Inv(s) && 0 < weight
    ensures InvBeforeNotify(Lower(s, weight))
  {}

  lemma NotifyKeepsInv(s: State)
    requires InvBeforeNotify(s)
    ensures Inv(Notify(s))
    ensures forall w :: w in Notify(s).waiters ==> Notify(s).current + w.weight > s.max
  {
    var p := Greedy(s.max, s.current, s.waiters);
    GreedySplits(s.max, s.current, s.waiters);
    GreedyMembers(s.max, s.current, s.waiters);
    GreedyKeepsOrder(s.max, s.current, s.waiters);
    GreedyExhausts(s.max, s.current, s.waiters);
    NotifyOvertakesNobody(s);
    TotalConcat(s.unseen, p.woken);
    NotifyGrantsOnce(s);
    assert p.kept != [] ==> p.kept[0] in p.kept;
  }

  lemma NotifyOvertakesNobody(s: State)
    requires InvBeforeNotify(s)
    ensures NobodyOvertaken(Notify(s))
  {
    var p := Greedy(s.max, s.current, s.waiters);
    GreedyMembers(s.max, s.current, s.waiters);
    forall a, b | a in p.kept && b in s.granted + p.woken && a.ticket < b.ticket ensures b.weight < a.weight {
      if b in p.woken {
        GreedyNoOvertaking(s.max, s.current, s.waiters, a, b);
      }
    }
  }

  lemma NotifyGrantsOnce(s: State)
    requires InvBeforeNotify(s)
    ensures GrantedOnce(Notify(s))
  {
    var p := Greedy(s.max, s.current, s.waiters);
    GreedySplits(s.max, s.current, s.waiters);
    GreedyMembers(s.max, s.current, s.waiters);
    GreedyKeepsOrder(s.max, s.current, s.waiters);
    forall w, g | w in p.kept && g in s.granted + p.woken ensures w.ticket != g.ticket {
      if g in p.woken {
        KeptNotWoken(s.max, s.current, s.waiters, w, g);
      }
    }
    var g := s.granted + p.woken;
    forall i, j | 0 <= i < j < |g| ensures g[i].ticket != g[j].ticket {
      if i < |s.granted| <= j {
        assert g[j] in p.woken;
        assert g[i] in s.granted;
      }
    }
  }

  lemma KeptNotWoken(max: int, current: int, ws: seq<Waiter>, a: Waiter, b: Waiter)
    requires Sorted(ws) && a in Greedy(max, current, ws).kept && b in Greedy(max, current, ws).woken
    ensures a.ticket != b.ticket
    decreases ws
  {
    if ws != [] {
      var c := After(max, current, ws[0]);
      assert forall w :: w in ws[1..] ==> ws[0].ticket < w.ticket;
      GreedyMembers(max, c, ws[1..]);
      if a in Greedy(max, c, ws[1..]).kept && b in Greedy(max, c, ws[1..]).woken {
        KeptNotWoken(max, c, ws[1..], a, b);
      }
    }
  }

  lemma RemovalKeepsInv(s: State, ticket: nat)
    requires Inv(s)
    ensures Inv(Step(s, Observe(ticket))) && Inv(Step(s, Cancel(ticket)))
  {
    RemoveOne(s.waiters, ticket);
    RemoveSorted(s.waiters, ticket);
    RemoveOne(s.unseen, ticket);
  }

  lemma StepKeepsInv(s: State, e: Event)
    requires Inv(s)
    ensures Inv(Step(s, e))
  {
    match e
    case Acquire(w) =>
      if 1 <= w <= s.max {
        if FastPath(s, w) { GrantKeepsInv(s, w); } else { EnqueueKeepsInv(s, w); }
      }
    case TryAcquire(w) =>
      if 1 <= w <= s.max && FastPath(s, w) { GrantKeepsInv(s, w); }
    case Observe(t) => RemovalKeepsInv(s, t);
    case Cancel(t) => RemovalKeepsInv(s, t);
    case Release(w) =>
      if 0 < w {
        LowerKeepsInv(s, w);
        NotifyKeepsInv(Lower(s, w));
      }
  }

  lemma {:induction false} RunKeepsInv(s: State, events: seq<Event>)
    requires Inv(s)
    ensures Inv(Run(s, events))
    decreases events
  {
    if events != [] {
      StepKeepsInv(s, events[0]);
      RunKeepsInv(Step(s, events[0]), events[1..]);
    }
  }

  lemma {:induction false} RunKeepsMax(s: State, events: seq<Event>)
    ensures Run(s, events).max == s.max
    decreases events
  {
    if events != [] {
      RunKeepsMax(Step(s, events[0]), events[1..]);
    }
  }

  // ---------- What every run guarantees ----------

  function Reach(maxWeight: int, events: seq<Event>): State {
    Run(Init(maxWeight), events)
  }

  lemma ReachInv(maxWeight: int, events: seq<Event>)
    ensures Inv(Reach(maxWeight, events))
    ensures Reach(maxWeight, events).max == if maxWeight <= 0 then 1 else maxWeight
  {
    RunKeepsInv(Init(maxWeight), events);
    RunKeepsMax(Init(maxWeight), events);
  }

  /** The charged weight never leaves the range from zero to the maximum. */
  lemma CapacityRespected(maxWeight: int, events: seq<Event>)
    ensures var s := Reach(maxWeight, events);
            0 <= s.current <= (if maxWeight <= 0 then 1 else maxWeight)
  {
    ReachInv(maxWeight, events);
  }

  /** Somebody waits only while some weight is charged, over-releases and cancellations included. */
  lemma NoStrandedWaiter(maxWeight: int, events: seq<Event>)
    ensures var s := Reach(maxWeight, events);
            && (s.waiters != [] ==> 0 < s.current)
            && (s.held <= 0 && s.unseen == [] && s.lost == 0 && s.clamped == 0 ==> s.waiters == [])
  {
    ReachInv(maxWeight, events);
  }

  lemma {:induction false} RunConcat(s: State, a: seq<Event>, b: seq<Event>)
    ensures Run(s, a + b) == Run(Run(s, a), b)
    decreases a
  {
    if a == [] {
      assert a + b == b;
    } else {
      assert (a + b)[1..] == a[1..] + b;
      RunConcat(Step(s, a[0]), a[1..], b);
    }
  }

  /** A queued request that nobody cancels stays queued until it is granted; grants are never forgotten. */
  lemma StepTracks(s: State, e: Event, a: Waiter)
    requires Inv(s)
    requires a in s.waiters || a in s.granted
    requires e != Cancel(a.ticket)
    ensures a in Step(s, e).waiters || a in Step(s, e).granted
  {
    GreedyMembers(s.max, Lower(s, if e.Release? then e.weight else 0).current, s.waiters);
    if e.Cancel? {
      RemoveOne(s.waiters, e.ticket);
    }
  }

  lemma {:induction false} RunTracks(s: State, events: seq<Event>, a: Waiter)
    requires Inv(s)
    requires a in s.waiters || a in s.granted
    requires Cancel(a.ticket) !in events
    ensures a in Run(s, events).waiters || a in Run(s, events).granted
    decreases events
  {
    if events != [] {
      StepKeepsInv(s, events[0]);
      StepTracks(s, events[0], a);
      RunTracks(Step(s, events[0]), events[1..], a);
    }
  }

  /**
   * No overtaking. Request a is queued after the events before. Whatever happens later, once a
   * request b that arrived after that point and is at least as heavy has been granted, on any
   * of the three paths, a no longer waits: unless it was cancelled it has been granted as well.
   */
  lemma NoOvertaking(maxWeight: int, before: seq<Event>, later: seq<Event>, a: Waiter, b: Waiter)
    requires a in Reach(maxWeight, before).waiters
    requires b in Reach(maxWeight, before + later).granted
    requires Reach(maxWeight, before).next <= b.ticket
    requires a.weight <= b.weight
    ensures a !in Reach(maxWeight, before + later).waiters
    ensures Cancel(a.ticket) !in later ==> a in Reach(maxWeight, before + later).granted
  {
    ReachInv(maxWeight, before);
    ReachInv(maxWeight, before + later);
    RunConcat(Init(maxWeight), before, later);
    if Cancel(a.ticket) !in later {
      RunTracks(Reach(maxWeight, before), later, a);
    }
  }

  /** No ready channel is closed twice, and none is closed whose waiter is still queued. */
  lemma NoDoubleGrant(maxWeight: int, events: seq<Event>)
    ensures var s := Reach(maxWeight, events);
            && (forall i, j :: 0 <= i < j < |s.granted| ==> s.granted[i].ticket != s.granted[j].ticket)
            && (forall w, g :: w in s.waiters && g in s.granted ==> w.ticket != g.ticket)
  {
    ReachInv(maxWeight, events);
  }

  // ---------- The books, kept from the calls and their answers ----------

  /** The call returns at once with the weight. */
  predicate Admits(s: State, e: Event) {
    (e.Acquire? || e.TryAcquire?) && 0 < e.weight <= s.max && FastPath(s, e.weight)
  }

  /** The call has to wait. */
  predicate Queues(s: State, e: Event) {
    e.Acquire? && 0 < e.weight <= s.max && !FastPath(s, e.weight)
  }

  /** The callers' side of one event: what they take, see granted, and give back. */
  function Taken(s: State, e: Event): int {
    if Admits(s, e) then e.weight
    else if e.Observe? then WeightOf(s.unseen, e.ticket)
    else if e.Release? && 0 < e.weight then -e.weight
    else 0
  }

  /** The weight of a grant whose call returns the context's error all the same. */
  function Lost(s: State, e: Event): int {
    if e.Cancel? && !Has(s.waiters, e.ticket) then WeightOf(s.unseen, e.ticket) else 0
  }

  /** What a release gives back beyond the charge. */
  function Excess(s: State, e: Event): int {
    if e.Release? && s.current < e.weight then e.weight - s.current else 0
  }

  /** The requests of the first queue that are not in the second. */
  function Left(ws: seq<Waiter>, kept: seq<Waiter>): seq<Waiter> {
    if ws == [] then [] else (if ws[0] in kept then [] else [ws[0]]) + Left(ws[1..], kept)
  }

  /** The requests that an event takes out of the queue with a grant. */
  function Woken(s: State, e: Event): seq<Waiter> {
    if e.Release? then Left(s.waiters, Step(s, e).waiters) else []
  }

  function Granted(s: State, e: Event): seq<Waiter> {
    if Admits(s, e) then [Waiter(s.next, e.weight)] else Woken(s, e)
  }

  /** The request with the ticket, if it is there. */
  function Find(ws: seq<Waiter>, ticket: nat): seq<Waiter> {
    if Has(ws, ticket) then [Waiter(ticket, WeightOf(ws, ticket))] else []
  }

  datatype Books = Books(owned: int, lost: int, excess: int, granted: seq<Waiter>,
                         asked: seq<Waiter>, woken: seq<Waiter>, withdrawn: seq<Waiter>, returned: seq<Waiter>)

  function Add(k: Books, s: State, e: Event): Books {
    Books(k.owned + Taken(s, e), k.lost + Lost(s, e), k.excess + Excess(s, e), k.granted + Granted(s, e),
          k.asked + (if Queues(s, e) then [Waiter(s.next, e.weight)] else []),
          k.woken + Woken(s, e),
          k.withdrawn + (if e.Cancel? then Find(s.waiters, e.ticket) else []),
          k.returned + (if e.Observe? || (e.Cancel? && !Has(s.waiters, e.ticket))
                        then Find(s.unseen, e.ticket) else []))
  }

  /** All events of a run entered, one after the other. */
  function Keep(k: Books, s: State, events: seq<Event>): Books
    decreases events
  {
    if events == [] then k else Keep(Add(k, s, events[0]), Step(s, events[0]), events[1..])
  }

  function BooksOf(maxWeight: int, events: seq<Event>): Books {
    Keep(Books(0, 0, 0, [], [], [], [], []), Init(maxWeight), events)
  }

  /** The observer's fields agree with the books. */
  predicate Agree(k: Books, s: State) {
    k.owned == s.held && k.lost == s.lost && k.excess == s.clamped && k.granted == s.granted
  }

  /**
   * A request that had to wait is waiting, withdrawn or granted; a granted one has not returned
   * yet, or has returned, with the weight or with the context's error.
   */
  predicate Conserved(k: Books, s: State) {
    && multiset(k.asked) == multiset(s.waiters) + multiset(k.withdrawn) + multiset(k.woken)
    && multiset(k.woken) == multiset(s.unseen) + multiset(k.returned)
  }

  lemma {:induction false} LeftOfMore(ws: seq<Waiter>, w: Waiter, kept: seq<Waiter>)
    requires w !in ws
    ensures Left(ws, [w] + kept) == Left(ws, kept)
  {
    if ws != [] {
      assert ws[0] in [w] + kept <==> ws[0] == w || ws[0] in kept;
      LeftOfMore(ws[1..], w, kept);
    }
  }

  /** What the pass wakes is what leaves the queue, in order. */
  lemma {:induction false} WokenIsLeft(max: int, current: int, ws: seq<Waiter>)
    requires Sorted(ws)
    ensures Greedy(max, current, ws).woken == Left(ws, Greedy(max, current, ws).kept)
    decreases ws
  {
    if ws != [] {
      var c := After(max, current, ws[0]);
      SortedTail(ws);
      WokenIsLeft(max, c, ws[1..]);
      GreedyMembers(max, c, ws[1..]);
      if current + ws[0].weight > max {
        LeftOfMore(ws[1..], ws[0], Greedy(max, c, ws[1..]).kept);
      }
    }
  }

  lemma {:induction false} FindRemoves(ws: seq<Waiter>, ticket: nat)
    ensures multiset(ws) == multiset(Remove(ws, ticket)) + multiset(Find(ws, ticket))
  {
    if ws != [] {
      assert ws == [ws[0]] + ws[1..];
      if ws[0].ticket == ticket {
        assert ws[0] in ws;
      } else {
        FindRemoves(ws[1..], ticket);
        assert Has(ws, ticket) <==> Has(ws[1..], ticket);
      }
    } else {
      assert !Has(ws, ticket);
    }
  }

  lemma NothingLeft(ws: seq<Waiter>)
    ensures Left(ws, ws) == []
  {
    AllKept(ws, ws);
  }

  lemma {:induction false} AllKept(ws: seq<Waiter>, kept: seq<Waiter>)
    requires forall w :: w in ws ==> w in kept
    ensures Left(ws, kept) == []
  {
    if ws != [] {
      assert ws[0] in ws;
      AllKept(ws[1..], kept);
    }
  }

  lemma ReleaseWakes(s: State, e: Event)
    requires Inv(s) && e.Release?
    ensures Step(s, e).granted == s.granted + Woken(s, e)
    ensures Step(s, e).unseen == s.unseen + Woken(s, e)
    ensures multiset(s.waiters) == multiset(Step(s, e).waiters) + multiset(Woken(s, e))
  {
    if 0 < e.weight {
      var l := Lower(s, e.weight);
      WokenIsLeft(s.max, l.current, s.waiters);
      GreedySplits(s.max, l.current, s.waiters);
    } else {
      NothingLeft(s.waiters);
    }
  }

  lemma ReleaseAgrees(k: Books, s: State, e: Event)
    requires Inv(s) && Agree(k, s) && e.Release?
    ensures Agree(Add(k, s, e), Step(s, e))
  {
    ReleaseWakes(s, e);
    assert Granted(s, e) == Woken(s, e);
  }

  lemma StepAgrees(k: Books, s: State, e: Event)
    requires Inv(s) && Agree(k, s)
    ensures Agree(Add(k, s, e), Step(s, e))
  {
    if e.Release? {
      ReleaseAgrees(k, s, e);
    } else {
      assert Woken(s, e) == [] && k.granted + [] == k.granted;
      if e.Cancel? {
        RemoveOne(s.unseen, e.ticket);
      }
    }
  }

  lemma AcquireConserves(k: Books, s: State, e: Event)
    requires Conserved(k, s) && (e.Acquire? || e.TryAcquire?)
    ensures Conserved(Add(k, s, e), Step(s, e))
  {
    assert Woken(s, e) == [];
    assert Add(k, s, e).withdrawn == k.withdrawn && Add(k, s, e).returned == k.returned;
    assert Add(k, s, e).woken == k.woken;
  }

  lemma CancelConserves(k: Books, s: State, t: nat)
    requires Conserved(k, s)
    ensures Conserved(Add(k, s, Cancel(t)), Step(s, Cancel(t)))
  {
    var k1 := Add(k, s, Cancel(t));
    assert k1.asked == k.asked && k1.woken == k.woken;
    if Has(s.waiters, t) {
      FindRemoves(s.waiters, t);
      assert k1.withdrawn == k.withdrawn + Find(s.waiters, t) && k1.returned == k.returned;
    } else {
      FindRemoves(s.unseen, t);
      assert k1.withdrawn == k.withdrawn && k1.returned == k.returned + Find(s.unseen, t);
    }
  }

  lemma ObserveConserves(k: Books, s: State, t: nat)
    requires Conserved(k, s)
    ensures Conserved(Add(k, s, Observe(t)), Step(s, Observe(t)))
  {
    var k1 := Add(k, s, Observe(t));
    FindRemoves(s.unseen, t);
    assert k1.asked == k.asked && k1.woken == k.woken && k1.withdrawn == k.withdrawn;
    assert k1.returned == k.returned + Find(s.unseen, t);
  }

  lemma WakingConserves(k: Books, s: State, woken: seq<Waiter>, left: seq<Waiter>)
    requires Conserved(k, s) && multiset(s.waiters) == multiset(left) + multiset(woken)
    ensures multiset(k.asked) == multiset(left) + multiset(k.withdrawn) + multiset(k.woken + woken)
    ensures multiset(k.woken + woken) == multiset(s.unseen + woken) + multiset(k.returned)
  {}

  lemma ReleaseConserves(k: Books, s: State, e: Event)
    requires Inv(s) && Conserved(k, s) && e.Release?
    ensures Conserved(Add(k, s, e), Step(s, e))
  {
    ReleaseWakes(s, e);
    WakingConserves(k, s, Woken(s, e), Step(s, e).waiters);
    assert k.asked + [] == k.asked && k.withdrawn + [] == k.withdrawn && k.returned + [] == k.returned;
  }

  lemma StepConserves(k: Books, s: State, e: Event)
    requires Inv(s) && Conserved(k, s)
    ensures Conserved(Add(k, s, e), Step(s, e))
  {
    match e
    case Acquire(_) => AcquireConserves(k, s, e);
    case TryAcquire(_) => AcquireConserves(k, s, e);
    case Observe(t) => ObserveConserves(k, s, t);
    case Cancel(t) => CancelConserves(k, s, t);
    case Release(_) => ReleaseConserves(k, s, e);
  }

  lemma {:induction false} RunAgrees(k: Books, s: State, events: seq<Event>)
    requires Inv(s) && Agree(k, s) && Conserved(k, s)
    ensures Agree(Keep(k, s, events), Run(s, events)) && Conserved(Keep(k, s, events), Run(s, events))
    decreases events
  {
    if events != [] {
      StepKeepsInv(s, events[0]);
      StepAgrees(k, s, events[0]);
      StepConserves(k, s, events[0]);
      RunAgrees(Add(k, s, events[0]), Step(s, events[0]), events[1..]);
    }
  }

  /**
   * In every run the charge is what the callers own by the books, what has been granted and not
   * seen yet, what was lost, and what over-releases were cut short by.
   */
  lemma Accounting(maxWeight: int, events: seq<Event>)
    ensures var s := Reach(maxWeight, events);
            var k := BooksOf(maxWeight, events);
            && Agree(k, s)
            && s.current == k.owned + Total(s.unseen) + k.lost + k.excess
            && 0 <= k.lost && 0 <= k.excess
  {
    ReachInv(maxWeight, events);
    RunAgrees(Books(0, 0, 0, [], [], [], [], []), Init(maxWeight), events);
  }

  /** No request is forgotten, doubled or granted another weight than it asked for. */
  lemma RequestsConserved(maxWeight: int, events: seq<Event>)
    ensures Conserved(BooksOf(maxWeight, events), Reach(maxWeight, events))
  {
    ReachInv(maxWeight, events);
    RunAgrees(Books(0, 0, 0, [], [], [], [], []), Init(maxWeight), events);
  }

  /** Callers that never give back more than they own. */
  predicate Disciplined(s: State, events: seq<Event>)
    decreases events
  {
    events == [] ||
    (&& (events[0].Release? && 0 < events[0].weight ==> events[0].weight <= s.held)
     && Disciplined(Step(s, events[0]), events[1..]))
  }

  lemma DisciplinedStep(s: State, e: Event)
    requires Inv(s) && 0 <= s.held && Disciplined(s, [e])
    ensures Step(s, e).clamped == s.clamped && 0 <= Step(s, e).held && s.lost <= Step(s, e).lost
  {
    TotalNonNegative(s.unseen);
    if e.Observe? || e.Cancel? {
      RemoveOne(s.unseen, e.ticket);
    }
  }

  lemma {:induction false} DisciplinedNeverClamps(s: State, events: seq<Event>)
    requires Inv(s) && 0 <= s.held && Disciplined(s, events)
    ensures Run(s, events).clamped == s.clamped && 0 <= Run(s, events).held
    decreases events
  {
    if events != [] {
      StepKeepsInv(s, events[0]);
      DisciplinedStep(s, events[0]);
      DisciplinedNeverClamps(Step(s, events[0]), events[1..]);
    }
  }

  lemma {:induction false} TotalNonNegative(ws: seq<Waiter>)
    requires forall w :: w in ws ==> 1 <= w.weight
    ensures 0 <= Total(ws)
  {
    if ws != [] {
      assert forall w :: w in ws[1..] ==> w in ws;
      TotalNonNegative(ws[1..]);
    }
  }

  lemma StepNeverRecovers(s: State, e: Event)
    requires Inv(s)
    ensures s.lost <= Step(s, e).lost
  {
    if e.Cancel? {
      RemoveOne(s.unseen, e.ticket);
    }
  }

  /**
   * With disciplined callers the charge is exact, and it is exact forever: when every caller
   * has returned what it owns, what is still charged is the lost weight and nothing else.
   */
  lemma DisciplinedAccounting(maxWeight: int, events: seq<Event>)
    requires Disciplined(Init(maxWeight), events)
    ensures var s := Reach(maxWeight, events);
            && s.current == s.held + Total(s.unseen) + s.lost
            && (s.held == 0 && s.unseen == [] ==> s.current == s.lost)
  {
    ReachInv(maxWeight, events);
    DisciplinedNeverClamps(Init(maxWeight), events);
  }

  /**
   * The point of the semaphore: as long as nobody gives back more than it owns, all that callers
   * own together never exceeds the maximum. Without releases this is the sum of all weights
   * taken.
   */
  lemma OwnedWithinMaximum(maxWeight: int, events: seq<Event>)
    requires Disciplined(Init(maxWeight), events)
    ensures 0 <= BooksOf(maxWeight, events).owned <= if maxWeight <= 0 then 1 else maxWeight
  {
    Accounting(maxWeight, events);
    ReachInv(maxWeight, events);
    DisciplinedNeverClamps(Init(maxWeight), events);
    TotalNonNegative(Reach(maxWeight, events).unseen);
  }

  /** Weight is lost in one way only: Acquire picks the context although it had been granted. */
  lemma LossExactly(s: State, e: Event)
    requires Inv(s)
    ensures Step(s, e).lost != s.lost
            <==> e.Cancel? && !Has(s.waiters, e.ticket) && Has(s.unseen, e.ticket)
    ensures Step(s, e).lost != s.lost ==> Step(s, e).lost == s.lost + WeightOf(s.unseen, e.ticket)
                                          && Step(s, e).current == s.current
  {
    if e.Cancel? {
      RemoveOne(s.unseen, e.ticket);
    }
  }

  /** The grant comes first, then the context is picked: one unit stays charged and nobody owns it. */
  lemma LateCancelLoses()
    ensures var s := Reach(3, [Acquire(3), Acquire(1), Release(3), Cancel(1)]);
            s.lost == 1 && s.current == 1 && s.held == 0 && s.waiters == [] && s.unseen == []
  {
    RunOfFour(Init(3), Acquire(3), Acquire(1), Release(3), Cancel(1));
    var s2 := Step(Step(Init(3), Acquire(3)), Acquire(1));
    assert s2 == Enqueue(Grant(Init(3), 3), 1) && s2.waiters == [Waiter(1, 1)];
    var s3 := Step(s2, Release(3));
    assert Greedy(3, 0, [Waiter(1, 1)]) == Pass(1, [], [Waiter(1, 1)]) by {
      assert Greedy(3, 1, []) == Pass(1, [], []);
    }
    assert s3.waiters == [] && s3.unseen == [Waiter(1, 1)] && s3.current == 1;
    assert !Has(s3.waiters, 1);
  }

  /** Lost weight is never available again, as long as callers return only what they own. */
  lemma LostForever(maxWeight: int, before: seq<Event>, later: seq<Event>)
    requires Disciplined(Init(maxWeight), before + later)
    ensures Reach(maxWeight, before).lost <= Reach(maxWeight, before + later).current
  {
    ReachInv(maxWeight, before);
    ReachInv(maxWeight, before + later);
    RunConcat(Init(maxWeight), before, later);
    DisciplinedNeverClamps(Init(maxWeight), before + later);
    RunNeverRecovers(Reach(maxWeight, before), later);
    TotalNonNegative(Reach(maxWeight, before + later).unseen);
  }

  lemma {:induction false} RunNeverRecovers(s: State, events: seq<Event>)
    requires Inv(s)
    ensures s.lost <= Run(s, events).lost
    decreases events
  {
    if events != [] {
      StepKeepsInv(s, events[0]);
      StepNeverRecovers(s, events[0]);
      RunNeverRecovers(Step(s, events[0]), events[1..]);
    }
  }

  /**
   * Cancelling takes the request out, whether it still waits or has just been granted, and
   * leaves every other request where it was.
   */
  lemma CancelForgets(maxWeight: int, events: seq<Event>, ticket: nat, other: Waiter)
    requires other.ticket != ticket
    ensures var s := Reach(maxWeight, events);
            var c := Step(s, Cancel(ticket));
            && !Has(c.waiters, ticket)
            && (Has(s.waiters, ticket) ==> c.unseen == s.unseen && c.lost == s.lost)
            && (other in c.waiters <==> other in s.waiters)
            && (other in c.unseen <==> other in s.unseen)
            && c.current == s.current
  {
    var s := Reach(maxWeight, events);
    ReachInv(maxWeight, events);
    RemoveOne(s.waiters, ticket);
    RemoveSorted(s.waiters, ticket);
    RemoveOne(s.unseen, ticket);
  }

  /** A caller may return more than it took: the charge stops at zero instead of failing. */
  lemma OverReleaseClamps()
    ensures var s := Reach(3, [Acquire(1), Release(3)]);
            s.current == 0 && s.held == -2 && s.clamped == 2
  {
    var s := Step(Init(3), Acquire(1));
    assert s == Grant(Init(3), 1);
    assert Run(Init(3), [Acquire(1), Release(3)]) == Run(s, [Release(3)]);
    assert Run(s, [Release(3)]) == Run(Step(s, Release(3)), []);
  }

  // ---------- Who may stay queued ----------

  /** The first waiter does not fit. */
  predicate HeadBlocked(s: State) {
    s.waiters != [] ==> s.current + s.waiters[0].weight > s.max
  }

  /** After a release nobody who fits is left in the queue. */
  lemma ReleaseServesAllThatFit(maxWeight: int, events: seq<Event>, weight: int)
    requires 0 < weight
    ensures var s := Reach(maxWeight, events + [Release(weight)]);
            forall w :: w in s.waiters ==> s.current + w.weight > s.max
  {
    var s := Reach(maxWeight, events);
    ReachInv(maxWeight, events);
    RunConcat(Init(maxWeight), events, [Release(weight)]);
    LowerKeepsInv(s, weight);
    NotifyKeepsInv(Lower(s, weight));
    assert Run(s, [Release(weight)]) == Run(Step(s, Release(weight)), []);
  }

  /**
   * While the first waiter does not fit, one that fits comes to the head exactly if the first
   * waiter is cancelled and the one behind it fits.
   */
  lemma HeadStaysBlocked(s: State, e: Event)
    requires Inv(s) && HeadBlocked(s)
    ensures !HeadBlocked(Step(s, e))
            <==> |s.waiters| >= 2 && e == Cancel(s.waiters[0].ticket) && s.current + s.waiters[1].weight <= s.max
  {
    if e.Release? && 0 < e.weight {
      LowerKeepsInv(s, e.weight);
      NotifyKeepsInv(Lower(s, e.weight));
      var t := Step(s, e);
      assert t.waiters != [] ==> t.waiters[0] in t.waiters;
    }
    if s.waiters != [] {
      assert s.waiters[0] in s.waiters;
    }
  }

  /** Cancelling does not run the wake-up pass, so a waiter that fits can stay asleep. */
  lemma CancelLeavesSleeper()
    ensures var s := Reach(3, [Acquire(2), Acquire(3), Acquire(1), Cancel(1)]);
            s.waiters == [Waiter(2, 1)] && s.current == 2 && !HeadBlocked(s)
  {
    RunOfFour(Init(3), Acquire(2), Acquire(3), Acquire(1), Cancel(1));
    var s2 := Step(Step(Init(3), Acquire(2)), Acquire(3));
    assert s2 == Enqueue(Grant(Init(3), 2), 3);
    var s3 := Step(s2, Acquire(1));
    assert s3 == Enqueue(s2, 1) && s3.waiters == [Waiter(1, 3), Waiter(2, 1)];
    assert s3.waiters[0].ticket == 1;
    assert Remove(s3.waiters, 1) == s3.waiters[1..];
  }

  lemma RunOfFour(s: State, a: Event, b: Event, c: Event, d: Event)
    ensures Run(s, [a, b, c, d]) == Step(Step(Step(Step(s, a), b), c), d)
  {
    assert [a, b, c, d][1..] == [b, c, d] && [b, c, d][1..] == [c, d] && [c, d][1..] == [d];
    assert Run(s, [a, b, c, d]) == Run(Step(s, a), [b, c, d]);
    assert Run(Step(s, a), [b, c, d]) == Run(Step(Step(s, a), b), [c, d]);
    assert Run(Step(Step(Step(s, a), b), c), [d]) == Run(Step(Step(Step(Step(s, a), b), c), d), []);
  }

  // ---------- The struct ----------

  datatype Entry = Admitted | TooHeavy | Queued(ticket: nat)

  class Semaphore {
    const maxWeight: int
    var current: int
    var waiters: seq<Waiter>
    var next: nat
    ghost var granted: seq<Waiter>
    ghost var unseen: seq<Waiter>
    ghost var held: int
    ghost var lost: int
    ghost var clamped: int

    ghost function Abs(): State
      reads this
    {
      State(maxWeight, current, waiters, next, granted, unseen, held, lost, clamped)
    }

    constructor (max: int)
      ensures Abs() == Init(max)
    {
      maxWeight := if max <= 0 then 1 else max;
      current, waiters, next := 0, [], 0;
      granted, unseen, held, lost, clamped := [], [], 0, 0, 0;
    }

    /** Acquire up to the point where it has to wait. */
    method BeginAcquire(weight: int) returns (entry: Entry)
      modifies this
      ensures Abs() == Step(old(Abs()), Event.Acquire(weight))
      ensures entry == if weight <= 0 then Admitted
                       else if weight > maxWeight then TooHeavy
                       else if FastPath(old(Abs()), weight) then Admitted
                       else Queued(old(next))
    {
      if weight <= 0 {
        return Admitted;
      }
      if weight > maxWeight {
        return TooHeavy;
      }
      var ticket := next;
      next := next + 1;
      if current + weight <= maxWeight && |waiters| == 0 {
        current := current + weight;
        granted, held := granted + [Waiter(ticket, weight)], held + weight;
        return Admitted;
      }
      waiters := waiters + [Waiter(ticket, weight)];
      return Queued(ticket);
    }

    /** The select of Acquire when it picks the closed ready channel. */
    ghost method FinishWait(ticket: nat)
      modifies this
      ensures Abs() == Step(old(Abs()), Observe(ticket))
    {
      held := held + WeightOf(unseen, ticket);
      unseen := Remove(unseen, ticket);
    }

    /** The select of Acquire when it picks the context: search the queue and cut the request out. */
    method CancelWait(ticket: nat)
      modifies this
      ensures Abs() == Step(old(Abs()), Event.Cancel(ticket))
    {
      var i := 0;
      while i < |waiters|
        invariant 0 <= i <= |waiters|
        invariant forall w :: w in waiters[..i] ==> w.ticket != ticket
        invariant Abs() == old(Abs())
      {
        if waiters[i].ticket == ticket {
          RemoveAt(waiters, i);
          waiters := waiters[..i] + waiters[i + 1..];
          return;
        }
        i := i + 1;
      }
      assert waiters[..i] == waiters;
      lost := lost + WeightOf(unseen, ticket);
      unseen := Remove(unseen, ticket);
    }

    method TryAcquire(weight: int) returns (ok: bool)
      modifies this
      ensures Abs() == Step(old(Abs()), Event.TryAcquire(weight))
      ensures ok == (weight <= 0 || (weight <= maxWeight && FastPath(old(Abs()), weight)))
    {
      if weight <= 0 {
        return true;
      }
      if weight > maxWeight {
        return false;
      }
      next := next + 1;
      if current + weight <= maxWeight && |waiters| == 0 {
        current := current + weight;
        granted, held := granted + [Waiter(next - 1, weight)], held + weight;
        return true;
      }
      return false;
    }

    method Release(weight: int)
      modifies this
      ensures Abs() == Step(old(Abs()), Event.Release(weight))
    {
      if weight <= 0 {
        return;
      }
      current, held := current - weight, held - weight;
      if current < 0 {
        clamped := clamped - current;
        current := 0;
      }
      assert Abs() == Lower(old(Abs()), weight);
      NotifyWaiters();
    }

    /** The in-place scan: a woken waiter is cut out of the slice and the index stays. */
    method NotifyWaiters()
      modifies this
      ensures Abs() == Notify(old(Abs()))
    {
      ghost var goal := Greedy(maxWeight, current, waiters);
      ghost var woken: seq<Waiter> := [];
      assert waiters[0..] == waiters;
      var i := 0;
      while i < |waiters|
        invariant 0 <= i <= |waiters|
        invariant Ahead(goal, maxWeight, current, waiters, i, woken)
        invariant granted == old(granted) + woken && unseen == old(unseen) + woken
        invariant next == old(next) && held == old(held) && lost == old(lost) && clamped == old(clamped)
        decreases |waiters| - i
      {
        var w := waiters[i];
        if current + w.weight <= maxWeight {
          AheadTake(goal, maxWeight, current, waiters, i, woken);
          current := current + w.weight;
          woken := woken + [w];
          granted, unseen := granted + [w], unseen + [w];
          waiters := waiters[..i] + waiters[i + 1..];
        } else {
          AheadSkip(goal, maxWeight, current, waiters, i, woken);
          i := i + 1;
        }
      }
      assert waiters[..i] + [] == waiters && woken + [] == woken;
    }
  }

  /** Halfway through the scan: what the rest of the pass will do completes the goal. */
  ghost predicate Ahead(goal: Pass, max: int, current: int, ws: seq<Waiter>, i: nat, woken: seq<Waiter>)
    requires i <= |ws|
  {
    var rest := Greedy(max, current, ws[i..]);
    goal == Pass(rest.current, ws[..i] + rest.kept, woken + rest.woken)
  }

  lemma AheadTake(goal: Pass, max: int, current: int, ws: seq<Waiter>, i: nat, woken: seq<Waiter>)
    requires i < |ws| && Ahead(goal, max, current, ws, i, woken)
    requires current + ws[i].weight <= max
    ensures Ahead(goal, max, current + ws[i].weight, ws[..i] + ws[i + 1..], i, woken + [ws[i]])
  {
    var cut := ws[..i] + ws[i + 1..];
    assert cut[i..] == ws[i..][1..] && cut[..i] == ws[..i];
    var rest := Greedy(max, current + ws[i].weight, cut[i..]);
    assert woken + ([ws[i]] + rest.woken) == woken + [ws[i]] + rest.woken;
  }

  lemma AheadSkip(goal: Pass, max: int, current: int, ws: seq<Waiter>, i: nat, woken: seq<Waiter>)
    requires i < |ws| && Ahead(goal, max, current, ws, i, woken)
    requires current + ws[i].weight > max
    ensures Ahead(goal, max, current, ws, i + 1, woken)
  {
    assert ws[i + 1..] == ws[i..][1..] && ws[..i + 1] == ws[..i] + [ws[i]];
    var rest := Greedy(max, current, ws[i + 1..]);
    assert ws[..i] + ([ws[i]] + rest.kept) == ws[..i + 1] + rest.kept;
  }
}
