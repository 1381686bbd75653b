/** The abstract priority queue: its entries in the order in which they will be taken out. */
module QueueSpec {

  datatype Option<T> = None | Some(value: T)

  datatype Entry<T> = Entry(value: T, priority: int)

  /** Stable insertion: behind everything of the same or a higher priority. */
  function Insert<T>(q: seq<Entry<T>>, e: Entry<T>): seq<Entry<T>> {
    if q == [] || q[0].priority < e.priority then [e] + q
    else [q[0]] + Insert(q[1..], e)
  }

  function InsertAll<T>(q: seq<Entry<T>>, es: seq<Entry<T>>): seq<Entry<T>>
    decreases es
  {
    if es == [] then q else InsertAll(Insert(q, es[0]), es[1..])
  }

  ghost predicate Ordered<T>(q: seq<Entry<T>>) {
    forall i, j :: 0 <= i < j < |q| ==> q[j].priority <= q[i].priority
  }

  /** The entries of one priority, in the order in which they appear. */
  function Class<T>(q: seq<Entry<T>>, p: int): seq<Entry<T>> {
    if q == [] then []
    else if q[0].priority == p then [q[0]] + Class(q[1..], p)
    else Class(q[1..], p)
  }

  lemma {:induction false} ClassConcat<T>(a: seq<Entry<T>>, b: seq<Entry<T>>, p: int)
    ensures Class(a + b, p) == Class(a, p) + Class(b, p)
  {
    if a == [] {
      assert a + b == b;
    } else {
      assert (a + b)[1..] == a[1..] + b;
      ClassConcat(a[1..], b, p);
    }
  }

  lemma {:induction false} ClassMembers<T>(q: seq<Entry<T>>, p: int)
    ensures forall e :: e in Class(q, p) <==> e in q && e.priority == p
  {
    if q != [] {
      assert q == [q[0]] + q[1..];
      ClassMembers(q[1..], p);
    }
  }

  lemma OrderedCons<T>(e: Entry<T>, q: seq<Entry<T>>)
    requires Ordered(q) && forall k :: 0 <= k < |q| ==> q[k].priority <= e.priority
    ensures Ordered([e] + q)
  {}

  lemma {:induction false} InsertKeepsOrder<T>(q: seq<Entry<T>>, e: Entry<T>)
    requires Ordered(q)
    ensures Ordered(Insert(q, e))
    ensures multiset(Insert(q, e)) == multiset(q) + multiset{e}
  {
    if q == [] || q[0].priority < e.priority {
      assert Insert(q, e) == [e] + q;
    } else {
      InsertKeepsOrder(q[1..], e);
      assert q == [q[0]] + q[1..];
      var r := Insert(q[1..], e);
      forall k | 0 <= k < |r| ensures r[k].priority <= q[0].priority {
        assert r[k] in multiset(r);
        assert r[k] in q[1..] || r[k] == e;
      }
      OrderedCons(q[0], r);
    }
  }

  lemma {:induction false} NothingAbove<T>(q: seq<Entry<T>>, p: int)
    requires forall e :: e in q ==> e.priority < p
    ensures Class(q, p) == []
  {
    if q != [] {
      assert forall e :: e in q[1..] ==> e in q;
      NothingAbove(q[1..], p);
    }
  }

  /** Inside its priority an entry goes to the back; other priorities do not notice. */
  lemma {:induction false} InsertAppendsToClass<T>(q: seq<Entry<T>>, e: Entry<T>, p: int)
    requires Ordered(q)
    ensures Class(Insert(q, e), p) == Class(q, p) + Class([e], p)
  {
    if q == [] || q[0].priority < e.priority {
      assert Insert(q, e) == [e] + q;
      ClassConcat([e], q, p);
      if p == e.priority {
        NothingAbove(q, p);
      }
    } else {
      InsertAppendsToClass(q[1..], e, p);
    }
  }

  lemma SomeClass<T>(a: seq<Entry<T>>, b: seq<Entry<T>>)
    requires forall p :: Class(a, p) == Class(b, p)
    ensures a != [] ==> b != []
  {
    if a != [] {
      ClassMembers(a, a[0].priority);
      ClassMembers(b, a[0].priority);
    }
  }

  /** An ordered sequence is determined by its classes. */
  lemma {:induction false} OrderedUnique<T>(a: seq<Entry<T>>, b: seq<Entry<T>>)
    requires Ordered(a) && Ordered(b)
    requires forall p :: Class(a, p) == Class(b, p)
    ensures a == b
  {
    if a == [] || b == [] {
      SomeClass(a, b);
      SomeClass(b, a);
    } else {
      ClassMembers(a, b[0].priority);
      ClassMembers(b, b[0].priority);
      ClassMembers(a, a[0].priority);
      ClassMembers(b, a[0].priority);
      assert b[0] in Class(a, b[0].priority) && a[0] in Class(b, a[0].priority);
      assert a[0].priority == b[0].priority;
      assert Class(a, a[0].priority)[0] == a[0] && Class(b, b[0].priority)[0] == b[0];
      forall p ensures Class(a[1..], p) == Class(b[1..], p) {
        assert Class(a, p) == (if a[0].priority == p then [a[0]] else []) + Class(a[1..], p);
        assert Class(b, p) == (if b[0].priority == p then [b[0]] else []) + Class(b[1..], p);
        if a[0].priority == p {
          assert Class(a, p)[1..] == Class(a[1..], p);
          assert Class(b, p)[1..] == Class(b[1..], p);
        }
      }
      OrderedUnique(a[1..], b[1..]);
      assert a == [a[0]] + a[1..] && b == [b[0]] + b[1..];
    }
  }

  // ---------- Runs ----------

  datatype Op<T> = Push(value: T, priority: int) | Pop

  function Step<T>(q: seq<Entry<T>>, op: Op<T>): seq<Entry<T>> {
    match op
    case Push(v, p) => Insert(q, Entry(v, p))
    case Pop => if q == [] then q else q[1..]
  }

  /** What a pop returns. */
  function Head<T>(q: seq<Entry<T>>): Option<Entry<T>> {
    if q == [] then None else Some(q[0])
  }

  function Run<T>(q: seq<Entry<T>>, ops: seq<Op<T>>): seq<Entry<T>>
    decreases ops
  {
    if ops == [] then q else Run(Step(q, ops[0]), ops[1..])
  }

  /** Everything that goes in, told from the operations alone. */
  function Pushed<T>(ops: seq<Op<T>>): seq<Entry<T>> {
    if ops == [] then []
    else (if ops[0].Push? then [Entry(ops[0].value, ops[0].priority)] else []) + Pushed(ops[1..])
  }

  /** Everything that comes out: the answers to the pops, without the empty ones. */
  function Popped<T>(q: seq<Entry<T>>, ops: seq<Op<T>>): seq<Entry<T>>
    decreases ops
  {
    if ops == [] then []
    else (if ops[0].Pop? && Head(q).Some? then [Head(q).value] else []) + Popped(Step(q, ops[0]), ops[1..])
  }

  lemma StepKeepsOrder<T>(q: seq<Entry<T>>, op: Op<T>)
    requires Ordered(q)
    ensures Ordered(Step(q, op))
  {
    if op.Push? {
      InsertKeepsOrder(q, Entry(op.value, op.priority));
    }
  }

  lemma {:induction false} RunKeepsOrder<T>(q: seq<Entry<T>>, ops: seq<Op<T>>)
    requires Ordered(q)
    ensures Ordered(Run(q, ops))
    decreases ops
  {
    if ops != [] {
      StepKeepsOrder(q, ops[0]);
      RunKeepsOrder(Step(q, ops[0]), ops[1..]);
    }
  }

  lemma PushClasses<T>(
      q: seq<Entry<T>>, e: Entry<T>, out: seq<Entry<T>>, end: seq<Entry<T>>, rest: seq<Entry<T>>, p: int)
    requires Ordered(q) && Class(out, p) + Class(end, p) == Class(Insert(q, e), p) + Class(rest, p)
    ensures Class(out, p) + Class(end, p) == Class(q, p) + Class([e] + rest, p)
  {
    InsertAppendsToClass(q, e, p);
    ClassConcat([e], rest, p);
    Associative(Class(q, p), Class([e], p), Class(rest, p));
  }

  lemma PopClasses<T>(q: seq<Entry<T>>, out: seq<Entry<T>>, end: seq<Entry<T>>, rest: seq<Entry<T>>, p: int)
    requires q != [] && Class(out, p) + Class(end, p) == Class(q[1..], p) + Class(rest, p)
    ensures Class([q[0]] + out, p) + Class(end, p) == Class(q, p) + Class(rest, p)
  {
    ClassConcat([q[0]], out, p);
    ClassConcat([q[0]], q[1..], p);
    assert q == [q[0]] + q[1..];
    Associative(Class([q[0]], p), Class(out, p), Class(end, p));
    Associative(Class([q[0]], p), Class(q[1..], p), Class(rest, p));
  }

  /** What comes out and what stays is what was there and what goes in, in order inside each priority. */
  lemma {:induction false} ClassesKept<T>(q: seq<Entry<T>>, ops: seq<Op<T>>, p: int)
    requires Ordered(q)
    ensures Class(Popped(q, ops), p) + Class(Run(q, ops), p) == Class(q, p) + Class(Pushed(ops), p)
    decreases ops
  {
    if ops == [] {
      assert [] + Class(q, p) == Class(q, p) + [];
    } else {
      StepKeepsOrder(q, ops[0]);
      ClassesKept(Step(q, ops[0]), ops[1..], p);
      var out, rest := Popped(Step(q, ops[0]), ops[1..]), Pushed(ops[1..]);
      if ops[0].Push? {
        var e := Entry(ops[0].value, ops[0].priority);
        PushClasses(q, e, out, Run(q, ops), rest, p);
        assert Popped(q, ops) == out;
        assert Pushed(ops) == [e] + rest;
      } else if q != [] {
        PopClasses(q, out, Run(q, ops), rest, p);
        assert Popped(q, ops) == [q[0]] + out;
        assert Pushed(ops) == rest;
      } else {
        assert Popped(q, ops) == out;
        assert Pushed(ops) == rest;
      }
    }
  }

  lemma {:induction false} ClassCounts<T>(q: seq<Entry<T>>, e: Entry<T>)
    ensures multiset(q)[e] == multiset(Class(q, e.priority))[e]
  {
    if q != [] {
      ClassCounts(q[1..], e);
      assert q == [q[0]] + q[1..];
    }
  }

  lemma CountKept<T>(ops: seq<Op<T>>, e: Entry<T>)
    ensures multiset(Pushed(ops))[e] == multiset(Popped([], ops))[e] + multiset(Run([], ops))[e]
  {
    var start: seq<Entry<T>> := [];
    ClassesKept(start, ops, e.priority);
    ClassCounts(Pushed(ops), e);
    ClassCounts(Popped(start, ops), e);
    ClassCounts(Run(start, ops), e);
    assert [] + Class(Pushed(ops), e.priority) == Class(Pushed(ops), e.priority);
    assert multiset(Class(Popped(start, ops), e.priority) + Class(Run(start, ops), e.priority))
        == multiset(Class(Popped(start, ops), e.priority)) + multiset(Class(Run(start, ops), e.priority));
  }

  /**
   * First in, first out inside every priority, for every interleaving of pushes and pops:
   * what came out followed by what is still queued is what went in, and nothing is lost.
   */
  lemma FifoPerPriority<T>(ops: seq<Op<T>>)
    ensures multiset(Pushed(ops)) == multiset(Popped([], ops)) + multiset(Run([], ops))
    ensures forall p :: Class(Popped([], ops), p) + Class(Run([], ops), p) == Class(Pushed(ops), p)
  {
    NothingIsLost(ops);
    forall p ensures Class(Popped([], ops), p) + Class(Run([], ops), p) == Class(Pushed(ops), p) {
      ClassesKept<T>([], ops, p);
      assert [] + Class(Pushed(ops), p) == Class(Pushed(ops), p);
    }
  }

  lemma NothingIsLost<T>(ops: seq<Op<T>>)
    ensures multiset(Pushed(ops)) == multiset(Popped([], ops)) + multiset(Run([], ops))
  {
    var pushed, popped, rest := multiset(Pushed(ops)), multiset(Popped([], ops)), multiset(Run([], ops));
    forall e ensures pushed[e] == (popped + rest)[e] {
      CountKept(ops, e);
    }
    SameCounts(pushed, popped + rest);
  }

  lemma SameCounts<A>(a: multiset<A>, b: multiset<A>)
    requires forall x :: a[x] == b[x]
    ensures a == b
  {}

  /** A pop returns an entry exactly if one is queued, and never one while a higher priority is queued. */
  lemma HighestFirst<T>(ops: seq<Op<T>>)
    ensures var q := Run<T>([], ops);
            && (Head(q).Some? <==> q != [])
            && (Head(q).Some? ==> Head(q).value in q && forall e :: e in q ==> e.priority <= Head(q).value.priority)
  {
    var start: seq<Entry<T>> := [];
    RunKeepsOrder(start, ops);
  }

  lemma {:induction false} InsertAllOrders<T>(q: seq<Entry<T>>, es: seq<Entry<T>>)
    requires Ordered(q)
    ensures Ordered(InsertAll(q, es))
    ensures multiset(InsertAll(q, es)) == multiset(q) + multiset(es)
    decreases es
  {
    if es != [] {
      InsertKeepsOrder(q, es[0]);
      InsertAllOrders(Insert(q, es[0]), es[1..]);
      assert es == [es[0]] + es[1..];
    }
  }

  lemma {:induction false} InsertAllAppendsToClass<T>(q: seq<Entry<T>>, es: seq<Entry<T>>, p: int)
    requires Ordered(q)
    ensures Class(InsertAll(q, es), p) == Class(q, p) + Class(es, p)
    decreases es
  {
    if es != [] {
      InsertKeepsOrder(q, es[0]);
      InsertAppendsToClass(q, es[0], p);
      InsertAllAppendsToClass(Insert(q, es[0]), es[1..], p);
      ClassConcat([es[0]], es[1..], p);
      Associative(Class(q, p), Class([es[0]], p), Class(es[1..], p));
      assert es == [es[0]] + es[1..];
    }
  }

  lemma Associative<A>(a: seq<A>, b: seq<A>, c: seq<A>)
    ensures (a + b) + c == a + (b + c)
  {}

  function Pushes<T>(es: seq<Entry<T>>): seq<Op<T>> {
    if es == [] then [] else [Push(es[0].value, es[0].priority)] + Pushes(es[1..])
  }

  function Pops<T>(n: nat): seq<Op<T>> {
    if n == 0 then [] else [Pop] + Pops(n - 1)
  }

  lemma {:induction false} RunPushes<T>(q: seq<Entry<T>>, es: seq<Entry<T>>, ops: seq<Op<T>>)
    ensures Run(q, Pushes(es) + ops) == Run(InsertAll(q, es), ops)
    ensures Popped(q, Pushes(es) + ops) == Popped(InsertAll(q, es), ops)
    decreases es
  {
    if es == [] {
      assert Pushes(es) + ops == ops;
    } else {
      var all := Pushes(es) + ops;
      assert all[0] == Push(es[0].value, es[0].priority) && all[1..] == Pushes(es[1..]) + ops;
      RunPushes(Insert(q, es[0]), es[1..], ops);
      assert Popped(q, all) == [] + Popped(Insert(q, es[0]), all[1..]);
    }
  }

  lemma {:induction false} RunPops<T>(q: seq<Entry<T>>)
    ensures Popped(q, Pops(|q|)) == q && Run(q, Pops(|q|)) == []
    decreases q
  {
    if q != [] {
      assert Pops<T>(|q|)[0] == Op<T>.Pop && Pops<T>(|q|)[1..] == Pops(|q[1..]|);
      RunPops(q[1..]);
      assert q == [q[0]] + q[1..];
    }
  }

  /**
   * Draining is a stable sort: the result holds exactly the pushed entries, in falling priority
   * and, inside one priority, in the order pushed. Any sequence with these properties is it.
   */
  lemma DrainSortsStably<T>(es: seq<Entry<T>>, sorted: seq<Entry<T>>)
    ensures var out := Popped([], Pushes(es) + Pops(|es|));
            && Ordered(out)
            && multiset(out) == multiset(es)
            && (forall p :: Class(out, p) == Class(es, p))
            && (Ordered(sorted) && (forall p :: Class(sorted, p) == Class(es, p)) ==> sorted == out)
  {
    var out := InsertAll<T>([], es);
    DrainIs(es);
    InsertAllOrders<T>([], es);
    forall p ensures Class(out, p) == Class(es, p) { InsertAllAppendsToClass<T>([], es, p); }
    if Ordered(sorted) && forall p :: Class(sorted, p) == Class(es, p) {
      OrderedUnique(sorted, out);
    }
  }

  lemma DrainIs<T>(es: seq<Entry<T>>)
    ensures Popped([], Pushes(es) + Pops(|es|)) == InsertAll([], es)
  {
    RunPushes<T>([], es, Pops(|es|));
    InsertAllOrders<T>([], es);
    assert |multiset(InsertAll<T>([], es))| == |multiset(es)|;
    RunPops(InsertAll<T>([], es));
  }
}

/** The binary heap behind the queue, with the sift operations of Go's container/heap. */
module HeapQueue {
  import opened QueueSpec

  class Item<T> {
    const value: T
    const priority: int
    const order: nat
    var index: int

    constructor (value: T, priority: int, order: nat)
      ensures this.value == value && this.priority == priority && this.order == order
    {
      this.value, this.priority, this.order := value, priority, order;
    }
  }

  predicate Before<T>(a: Item<T>, b: Item<T>) {
    if a.priority != b.priority then a.priority > b.priority else a.order < b.order
  }

  /** Go divides towards zero, so the root is its own parent. */
  function Parent(k: nat): nat {
    if k == 0 then 0 else (k - 1) / 2
  }

  function Swapped<A>(s: seq<A>, i: nat, j: nat): seq<A>
    requires i < |s| && j < |s|
  {
    s[i := s[j]][j := s[i]]
  }

  /** Heap order on the first n slots. */
  ghost predicate Heap<T>(s: seq<Item<T>>, n: nat)
    requires n <= |s|
  {
    forall k :: 0 < k < n ==> !Before(s[k], s[Parent(k)])
  }

  /** Heap order, except that slot j may come before its parent. */
  ghost predicate HeapButUp<T>(s: seq<Item<T>>, j: nat)
    requires j < |s|
  {
    && (forall k :: 0 < k < |s| && k != j ==> !Before(s[k], s[Parent(k)]))
    && (forall k :: 0 < k < |s| && Parent(k) == j ==> !Before(s[k], s[Parent(j)]))
  }

  /** Heap order on n slots, except that the children of slot i may come before it. */
  ghost predicate HeapButDown<T>(s: seq<Item<T>>, i: nat, n: nat)
    requires i <= n <= |s| && i < |s|
  {
    && (forall k :: 0 < k < n && Parent(k) != i ==> !Before(s[k], s[Parent(k)]))
    && (forall k :: 0 < k < n && Parent(k) == i && 0 < i ==> !Before(s[k], s[Parent(i)]))
  }

  lemma UpStep<T>(s: seq<Item<T>>, j: nat)
    requires 0 < j < |s| && HeapButUp(s, j) && Before(s[j], s[Parent(j)])
    ensures HeapButUp(Swapped(s, Parent(j), j), Parent(j))
  {
    var i := Parent(j);
    var t := Swapped(s, i, j);
    forall k | 0 < k < |s| && k != i ensures !Before(t[k], t[Parent(k)]) {
      assert k != j && Parent(k) == i ==> !Before(s[k], s[i]);
    }
    forall k | 0 < k < |s| && Parent(k) == i ensures !Before(t[k], t[Parent(i)]) {
      assert 0 < i ==> !Before(s[i], s[Parent(i)]);
      assert k != j ==> !Before(s[k], s[Parent(k)]);
    }
  }

  lemma OnlyTwoChildren(i: nat, n: nat)
    ensures forall k :: 0 < k < n && Parent(k) == i ==> k == 2 * i + 1 || k == 2 * i + 2
  {}

  lemma HeapDone<T>(s: seq<Item<T>>, i: nat, j: nat, n: nat)
    requires i < j < n <= |s| && HeapButDown(s, i, n)
    requires forall k :: 0 < k < n && Parent(k) == i ==> !Before(s[k], s[j])
    requires !Before(s[j], s[i])
    ensures Heap(s, n)
  {
    forall k | 0 < k < n ensures !Before(s[k], s[Parent(k)]) {
      assert Parent(k) == i ==> !Before(s[k], s[j]);
    }
  }

  lemma LeafDone<T>(s: seq<Item<T>>, i: nat, n: nat)
    requires i <= n <= |s| && i < |s| && n <= 2 * i + 1 && HeapButDown(s, i, n)
    ensures Heap(s, n)
  {
    assert forall k :: 0 < k < n ==> Parent(k) != i;
  }

  lemma DownStep<T>(s: seq<Item<T>>, i: nat, j: nat, n: nat)
    requires i < n <= |s| && 0 < j < n && Parent(j) == i && HeapButDown(s, i, n)
    requires forall k :: 0 < k < n && Parent(k) == i ==> !Before(s[k], s[j])
    requires Before(s[j], s[i])
    ensures HeapButDown(Swapped(s, i, j), j, n)
  {
    var t := Swapped(s, i, j);
    assert i < j;
    forall k | 0 < k < n && Parent(k) != j ensures !Before(t[k], t[Parent(k)]) {
      if k == i {
        assert !Before(s[j], s[Parent(i)]);
      }
    }
    forall k | 0 < k < n && Parent(k) == j && 0 < j ensures !Before(t[k], t[Parent(j)]) {
      assert k != i && k != j;
      assert !Before(s[k], s[Parent(k)]);
    }
  }

  lemma {:induction false} RootFirst<T>(s: seq<Item<T>>, n: nat, k: nat)
    requires k < n <= |s| && Heap(s, n)
    ensures !Before(s[k], s[0])
  {
    if k != 0 {
      RootFirst(s, n, Parent(k));
    }
  }

  lemma SwappedMultiset<A>(s: seq<A>, i: nat, j: nat)
    requires i < |s| && j < |s|
    ensures multiset(Swapped(s, i, j)) == multiset(s)
  {}

  lemma MultisetMembers<T>(s: seq<Item<T>>, t: seq<Item<T>>)
    requires multiset(s) == multiset(t)
    ensures |s| == |t|
    ensures forall k :: 0 <= k < |s| ==> s[k] in t
  {
    assert |s| == |multiset(s)| && |t| == |multiset(t)|;
    assert forall k :: 0 <= k < |s| ==> s[k] in multiset(t);
  }

  class InnerHeap<T> {
    var items: seq<Item<T>>

    /** Every item knows its slot; so no item occurs twice. */
    ghost predicate Indexed()
      reads this, items
    {
      forall k :: 0 <= k < |items| ==> items[k].index == k
    }

    constructor ()
      ensures items == []
    {
      items := [];
    }

    predicate Less(i: nat, j: nat)
      requires i < |items| && j < |items|
      reads this
    {
      Before(items[i], items[j])
    }

    method Swap(i: nat, j: nat)
      requires i < |items| && j < |items| && Indexed()
      modifies this, items[i], items[j]
      ensures items == Swapped(old(items), i, j) && multiset(items) == multiset(old(items))
      ensures Indexed() && (forall k :: 0 <= k < |items| ==> items[k] in old(items))
    {
      SwappedMultiset(items, i, j);
      MultisetMembers(Swapped(items, i, j), items);
      items := Swapped(items, i, j);
      items[i].index := i;
      items[j].index := j;
    }

    method Push(it: Item<T>)
      requires Indexed() && it !in items
      modifies this, it
      ensures items == old(items) + [it] && Indexed()
    {
      it.index := |items|;
      items := items + [it];
    }

    method Pop() returns (it: Item<T>)
      requires items != [] && Indexed()
      modifies this, items[|items| - 1]
      ensures it == old(items)[|old(items)| - 1] && items == old(items)[..|old(items)| - 1]
      ensures Indexed() && it.index == -1
    {
      var n := |items|;
      it := items[n - 1];
      it.index := -1;
      items := items[..n - 1];
    }

    method Up(j0: nat)
      requires j0 < |items| && Indexed() && HeapButUp(items, j0)
      modifies this, items
      ensures Indexed() && Heap(items, |items|)
      ensures multiset(items) == multiset(old(items)) && (forall k :: 0 <= k < |items| ==> items[k] in old(items))
    {
      var j: nat := j0;
      while true
        invariant j < |items| == |old(items)| && Indexed() && HeapButUp(items, j)
        invariant multiset(items) == multiset(old(items))
        invariant forall k :: 0 <= k < |items| ==> items[k] in old(items)
        decreases j
      {
        var i := Parent(j);
        if i == j || !Less(j, i) {
          return;
        }
        UpStep(items, j);
        Swap(i, j);
        j := i;
      }
    }

    /** The child that comes first. */
    method PickChild(i: nat, n: nat) returns (j: nat)
      requires 2 * i + 1 < n <= |items|
      ensures i < j < n && Parent(j) == i
      ensures forall k :: 0 < k < n && Parent(k) == i ==> !Before(items[k], items[j])
    {
      j := 2 * i + 1;
      var j2 := j + 1;
      if j2 < n && Less(j2, j) {
        j := j2;
      }
      OnlyTwoChildren(i, n);
    }

    /** One turn of the loop below: the chosen child moves up, and what lies past n stays. */
    method SiftStep(i: nat, j: nat, n: nat)
      requires i < j < n <= |items| && Parent(j) == i && Indexed() && HeapButDown(items, i, n)
      requires forall k :: 0 < k < n && Parent(k) == i ==> !Before(items[k], items[j])
      requires Before(items[j], items[i])
      modifies this, items[i], items[j]
      ensures |items| == |old(items)| && Indexed() && HeapButDown(items, j, n)
      ensures multiset(items) == multiset(old(items)) && items[n..] == old(items)[n..]
      ensures forall k :: 0 <= k < |items| ==> items[k] in old(items)
    {
      DownStep(items, i, j, n);
      Swap(i, j);
    }

    method Down(i0: nat, n: nat)
      requires i0 <= n <= |items| && i0 < |items| && Indexed() && HeapButDown(items, i0, n)
      modifies this, items
      ensures Indexed() && |items| == |old(items)| && Heap(items, n)
      ensures multiset(items) == multiset(old(items)) && (forall k :: 0 <= k < |items| ==> items[k] in old(items))
      ensures items[n..] == old(items)[n..]
    {
      var i: nat := i0;
      while true
        invariant i <= n <= |items| == |old(items)| && i < |items| && Indexed() && HeapButDown(items, i, n)
        invariant multiset(items) == multiset(old(items)) && items[n..] == old(items)[n..]
        invariant forall k :: 0 <= k < |items| ==> items[k] in old(items)
        decreases n - i
      {
        var j1 := 2 * i + 1;
        if n <= j1 {
          LeafDone(items, i, n);
          return;
        }
        var j := PickChild(i, n);
        if !Less(j, i) {
          HeapDone(items, i, j, n);
          return;
        }
        SiftStep(i, j, n);
        i := j;
      }
    }

    /** heap.Push */
    method HeapPush(it: Item<T>)
      requires Indexed() && it !in items && Heap(items, |items|)
      modifies this, items, it
      ensures Indexed() && Heap(items, |items|)
      ensures multiset(items) == multiset(old(items)) + multiset{it}
      ensures forall k :: 0 <= k < |items| ==> items[k] == it || items[k] in old(items)
    {
      Push(it);
      Up(|items| - 1);
    }

    /** The first half of heap.Pop: the root goes to the last slot, the rest is a heap again. */
    method RootToBack()
      requires items != [] && Indexed() && Heap(items, |items|)
      modifies this, items
      ensures Indexed() && |items| == |old(items)| && Heap(items, |items| - 1)
      ensures items[|items| - 1..] == [old(items)[0]]
      ensures multiset(items) == multiset(old(items))
      ensures forall k :: 0 <= k < |items| ==> items[k] in old(items)
    {
      var n := |items| - 1;
      Swap(0, n);
      Down(0, n);
    }

    /** heap.Pop */
    method HeapPop() returns (it: Item<T>)
      requires items != [] && Indexed() && Heap(items, |items|)
      modifies this, items
      ensures Indexed() && Heap(items, |items|)
      ensures it == old(items)[0] && it.index == -1
      ensures multiset(items) == multiset(old(items)) - multiset{it}
      ensures forall k :: 0 <= k < |items| ==> items[k] in old(items)
    {
      RootToBack();
      CutLast(items, old(items)[0]);
      it := Pop();
    }
  }

  lemma CutLast<T>(s: seq<Item<T>>, it: Item<T>)
    requires s != [] && s[|s| - 1..] == [it]
    ensures s[|s| - 1] == it
    ensures multiset(s[..|s| - 1]) == multiset(s) - multiset{it}
    ensures Heap(s, |s| - 1) ==> Heap(s[..|s| - 1], |s| - 1)
  {
    assert s[|s| - 1..][0] == it;
    assert s == s[..|s| - 1] + [it];
  }

  // ---------- The queue and its abstract contents ----------

  ghost predicate SortedItems<T>(m: seq<Item<T>>) {
    forall i, j :: 0 <= i < j < |m| ==> Before(m[i], m[j])
  }

  function Entries<T>(m: seq<Item<T>>): seq<Entry<T>> {
    if m == [] then [] else [Entry(m[0].value, m[0].priority)] + Entries(m[1..])
  }

  function Place<T>(m: seq<Item<T>>, it: Item<T>): seq<Item<T>> {
    if m == [] || Before(it, m[0]) then [it] + m else [m[0]] + Place(m[1..], it)
  }

  lemma {:induction false} PlaceIsInsert<T>(m: seq<Item<T>>, it: Item<T>)
    requires forall k :: 0 <= k < |m| ==> m[k].order < it.order
    ensures Entries(Place(m, it)) == Insert(Entries(m), Entry(it.value, it.priority))
  {
    if m == [] || Before(it, m[0]) {
      assert ([it] + m)[1..] == m;
    } else {
      PlaceIsInsert(m[1..], it);
    }
  }

  lemma {:induction false} PlaceAdds<T>(m: seq<Item<T>>, it: Item<T>)
    ensures multiset(Place(m, it)) == multiset(m) + multiset{it}
    ensures forall k :: 0 <= k < |Place(m, it)| ==> Place(m, it)[k] == it || Place(m, it)[k] in m
  {
    if m != [] && !Before(it, m[0]) {
      PlaceAdds(m[1..], it);
      assert m == [m[0]] + m[1..];
    }
  }

  lemma SortedCons<T>(first: Item<T>, m: seq<Item<T>>)
    requires SortedItems(m)
    requires forall k :: 0 <= k < |m| ==> Before(first, m[k])
    ensures SortedItems([first] + m)
  {}

  lemma {:induction false} PlaceSorts<T>(m: seq<Item<T>>, it: Item<T>)
    requires SortedItems(m)
    requires forall k :: 0 <= k < |m| ==> m[k].order < it.order
    ensures SortedItems(Place(m, it))
  {
    if m == [] || Before(it, m[0]) {
      SortedCons(it, m);
    } else {
      PlaceSorts(m[1..], it);
      PlaceAdds(m[1..], it);
      SortedCons(m[0], Place(m[1..], it));
    }
  }

  /** The root of the heap is the head of the abstract queue. */
  lemma RootIsHead<T>(s: seq<Item<T>>, m: seq<Item<T>>)
    requires Heap(s, |s|) && SortedItems(m) && multiset(s) == multiset(m) && s != []
    ensures m != [] && s[0] == m[0]
  {
    MultisetMembers(s, m);
    MultisetMembers(m, s);
    var k :| 0 <= k < |s| && s[k] == m[0];
    RootFirst(s, |s|, k);
  }

  lemma TailRemoves<T>(m: seq<Item<T>>)
    requires m != [] && SortedItems(m)
    ensures multiset(m[1..]) == multiset(m) - multiset{m[0]} && SortedItems(m[1..])
    ensures Entries(m)[0] == Entry(m[0].value, m[0].priority) && Entries(m)[1..] == Entries(m[1..])
  {
    assert m == [m[0]] + m[1..];
  }

  class PriorityQueue<T> {
    const h: InnerHeap<T>
    var order: nat
    ghost var model: seq<Item<T>>

    ghost predicate Valid()
      reads this, h, h.items
    {
      && h.Indexed() && Heap(h.items, |h.items|)
      && SortedItems(model) && multiset(model) == multiset(h.items)
      && (forall k :: 0 <= k < |model| ==> model[k].order <= order)
    }

    /** The abstract queue. */
    ghost function Contents(): seq<Entry<T>>
      reads this
    {
      Entries(model)
    }

    constructor ()
      ensures Valid() && fresh(h) && h.items == [] && Contents() == []
    {
      h := new InnerHeap();
      order, model := 0, [];
    }

    method Push(value: T, priority: int)
      requires Valid()
      modifies this, h, h.items
      ensures Valid() && Contents() == Step(old(Contents()), Op.Push(value, priority))
      ensures forall k :: 0 <= k < |h.items| ==> h.items[k] in old(h.items) || fresh(h.items[k])
    {
      order := order + 1;
      var it := new Item(value, priority, order);
      PlaceIsInsert(model, it);
      PlaceAdds(model, it);
      PlaceSorts(model, it);
      h.HeapPush(it);
      model := Place(model, it);
    }

    method Pop() returns (r: Option<T>)
      requires Valid()
      modifies this, h, h.items
      ensures Valid() && Contents() == Step(old(Contents()), Op.Pop)
      ensures r == match Head(old(Contents()))
                   case None => None
                   case Some(e) => Some(e.value)
      ensures forall k :: 0 <= k < |h.items| ==> h.items[k] in old(h.items)
    {
      if |h.items| == 0 {
        assert |multiset(model)| == 0;
        return None;
      }
      RootIsHead(h.items, model);
      var it := h.HeapPop();
      TailRemoves(model);
      model := model[1..];
      return Some(it.value);
    }

    method Peek() returns (r: Option<T>)
      requires Valid()
      ensures r == match Head(Contents())
                   case None => None
                   case Some(e) => Some(e.value)
    {
      if |h.items| == 0 {
        assert |multiset(model)| == 0;
        return None;
      }
      RootIsHead(h.items, model);
      return Some(h.items[0].value);
    }

    method Len() returns (n: nat)
      requires Valid()
      ensures n == |Contents()|
    {
      EntriesLength(model);
      assert |multiset(model)| == |multiset(h.items)|;
      n := |h.items|;
    }
  }

  lemma {:induction false} EntriesLength<T>(m: seq<Item<T>>)
    ensures |Entries(m)| == |m|
  {
    if m != [] {
      EntriesLength(m[1..]);
    }
  }
}
