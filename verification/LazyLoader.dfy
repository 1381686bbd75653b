/** Content split into lines, loaded chunk by chunk through a cache. */
module LazyLoaderSpec {

  // ---------- Lines ----------

  /** strings.Split with a newline as separator: never empty, one line more than newlines. */
  function Split(s: string): (lines: seq<string>)
    ensures lines != []
  {
    if s == [] then [""]
    else if s[0] == '\n' then [""] + Split(s[1..])
    else var rest := Split(s[1..]); [[s[0]] + rest[0]] + rest[1..]
  }

  /** strings.Join with a newline as separator. */
  function Join(lines: seq<string>): string {
    if lines == [] then ""
    else if |lines| == 1 then lines[0]
    else lines[0] + "\n" + Join(lines[1..])
  }

  lemma {:induction false} JoinSplit(s: string)
    ensures Join(Split(s)) == s
  {
    if s != [] {
      var rest := Split(s[1..]);
      JoinSplit(s[1..]);
      assert s == [s[0]] + s[1..];
      if s[0] == '\n' {
        assert ([""] + rest)[1..] == rest;
      } else {
        JoinHead(s[0], rest);
      }
    }
  }

  lemma JoinHead(c: char, lines: seq<string>)
    requires lines != []
    ensures Join([[c] + lines[0]] + lines[1..]) == [c] + Join(lines)
  {
    var longer := [[c] + lines[0]] + lines[1..];
    assert longer[1..] == lines[1..];
    if |lines| != 1 {
      assert ([c] + lines[0]) + "\n" + Join(lines[1..]) == [c] + (lines[0] + "\n" + Join(lines[1..]));
    }
  }

  predicate IsLine(s: string) {
    '\n' !in s
  }

  /** Lines without their separators. */
  ghost predicate AreLines(lines: seq<string>) {
    lines != [] && forall i :: 0 <= i < |lines| ==> IsLine(lines[i])
  }

  /** Splitting is the inverse of joining lines. */
  lemma {:induction false} SplitJoin(lines: seq<string>)
    requires AreLines(lines)
    ensures Split(Join(lines)) == lines
    decreases |lines|, |lines[0]|
  {
    var s := Join(lines);
    assert IsLine(lines[0]);
    if lines[0] == "" {
      if |lines| == 1 {
        assert s == "";
      } else {
        assert AreLines(lines[1..]) by {
          forall i | 0 <= i < |lines[1..]| ensures IsLine(lines[1..][i]) { assert IsLine(lines[i + 1]); }
        }
        SplitJoin(lines[1..]);
        assert s == "\n" + Join(lines[1..]);
        assert s[1..] == Join(lines[1..]);
        assert lines == [""] + lines[1..];
      }
    } else {
      var shorter := [lines[0][1..]] + lines[1..];
      assert shorter[1..] == lines[1..];
      assert lines[0] == [lines[0][0]] + shorter[0];
      assert lines == [lines[0]] + lines[1..];
      forall i | 0 <= i < |shorter| ensures IsLine(shorter[i]) { assert IsLine(lines[i]); }
      JoinHead(lines[0][0], shorter);
      assert s == [lines[0][0]] + Join(shorter);
      assert s[1..] == Join(shorter) && s[0] == lines[0][0];
      SplitJoin(shorter);
    }
  }

  lemma {:induction false} SplitGivesLines(s: string)
    ensures AreLines(Split(s))
  {
    if s != [] {
      SplitGivesLines(s[1..]);
      var rest := Split(s[1..]);
      forall i | 0 <= i < |Split(s)| ensures IsLine(Split(s)[i]) {
        if s[0] == '\n' {
          assert 0 < i ==> Split(s)[i] == rest[i - 1];
        } else {
          assert IsLine(rest[0]);
          assert 0 < i ==> Split(s)[i] == rest[i];
        }
      }
    }
  }

  /** The lines of a content are determined: no line has a newline, and joined they give the content. */
  lemma SplitExactly(s: string, lines: seq<string>)
    ensures Split(s) == lines <==> AreLines(lines) && Join(lines) == s
  {
    SplitGivesLines(s);
    JoinSplit(s);
    if AreLines(lines) && Join(lines) == s {
      SplitJoin(lines);
    }
  }

  lemma {:induction false} JoinConcat(a: seq<string>, b: seq<string>)
    requires a != [] && b != []
    ensures Join(a + b) == Join(a) + "\n" + Join(b)
  {
    assert (a + b)[1..] == a[1..] + b;
    if |a| == 1 {
      assert a[1..] + b == b;
    } else {
      JoinConcat(a[1..], b);
      var x, y, z := a[0] + "\n", Join(a[1..]) + "\n", Join(b);
      assert x + (y + z) == (x + y) + z;
      assert a[0] + "\n" + (Join(a[1..]) + "\n") == (a[0] + "\n" + Join(a[1..])) + "\n";
    }
  }

  // ---------- Chunks ----------

  /** Go's integer division truncates towards zero. */
  function GoDiv(a: int, b: int): int
    requires b != 0
  {
    if 0 <= a then (if 0 < b then a / b else -(a / -b))
    else if 0 < b then -(-a / b) else (-a) / (-b)
  }

  function TotalChunks(total: int, chunkSize: int): int
    requires chunkSize != 0
  {
    GoDiv(total + chunkSize - 1, chunkSize)
  }

  /** A text, no text, or a run-time panic (slice bounds out of range). */
  datatype Loaded = Chunk(text: string) | Missing | Panic

  /** The load closure of a string loader. */
  function LoadLines(lines: seq<string>, chunkSize: int, index: int): Loaded {
    var start := index * chunkSize;
    var end := if start + chunkSize > |lines| then |lines| else start + chunkSize;
    if |lines| <= start then Chunk("")
    else if 0 <= start <= end then Chunk(Join(lines[start..end]))
    else Panic
  }

  /** What GetChunk is to answer, whatever the cache holds. */
  function Fetch(load: int -> Loaded, total: int, index: int): Loaded {
    if index < 0 || total <= index then Missing else load(index)
  }

  function Loader(lines: seq<string>, chunkSize: int): int -> Loaded {
    index => LoadLines(lines, chunkSize, index)
  }

  function GetLines(lines: seq<string>, startLine: int, endLine: int): seq<string> {
    if startLine < 0 || endLine <= startLine || |lines| <= startLine then []
    else lines[startLine..if endLine > |lines| then |lines| else endLine]
  }

  /** Adjoining ranges make up their union, and the range of all lines is all lines. */
  lemma GetLinesAdjoin(lines: seq<string>, a: nat, b: nat, c: nat)
    requires a <= b <= c
    ensures GetLines(lines, a, b) + GetLines(lines, b, c) == GetLines(lines, a, c)
    ensures GetLines(lines, 0, |lines|) == lines
    ensures |GetLines(lines, a, b)| <= b - a
  {}

  lemma ChunkBounds(n: int, c: int, i: int)
    requires 1 <= n && 1 <= c
    ensures 1 <= TotalChunks(n, c)
    ensures i < TotalChunks(n, c) <==> i * c < n
    ensures 0 <= i <==> 0 <= i * c
  {
    var t := (n + c - 1) / c;
    var r := (n + c - 1) % c;
    assert n + c - 1 == t * c + r && 0 <= r < c;
    assert t * c >= n && (t - 1) * c < n by {
      assert (t - 1) * c == t * c - c;
    }
    Scale(i, t - 1, c);
    Scale(t, i, c);
    Scale(1, t, c);
    Scale(0, i, c);
    Scale(i, -1, c);
    if t < 1 {
      Scale(t, 0, c);
    }
  }

  lemma ChunkStep(n: int, c: int, i: nat)
    requires 1 <= n && 1 <= c && i < TotalChunks(n, c)
    ensures 0 <= i * c < n && (i + 1) * c == i * c + c
    ensures i + 1 < TotalChunks(n, c) <==> i * c + c < n
  {
    ChunkBounds(n, c, i);
    ChunkBounds(n, c, i + 1);
    assert (i + 1) * c == i * c + c;
  }

  lemma Scale(a: int, b: int, c: int)
    requires 0 < c
    ensures a <= b ==> a * c <= b * c
  {
    if a <= b {
      assert 0 <= (b - a) * c;
      assert (b - a) * c == b * c - a * c;
    }
  }

  /** A chunk is what GetLines returns for its range; a missing chunk is an empty range. */
  lemma ChunkIsLines(content: string, c: int, i: int)
    requires 1 <= c
    ensures var lines := Split(content);
            var f := Fetch(Loader(lines, c), TotalChunks(|lines|, c), i);
            && (f == Missing <==> GetLines(lines, i * c, i * c + c) == [])
            && (f != Missing ==> f == Chunk(Join(GetLines(lines, i * c, i * c + c))))
            && |GetLines(lines, i * c, i * c + c)| <= c
  {
    ChunkBounds(|Split(content)|, c, i);
  }

  // ---------- The round trip ----------

  /** The texts of the chunks from the given index on. */
  function Texts(lines: seq<string>, c: int, i: int): seq<string>
    requires c != 0
    decreases TotalChunks(|lines|, c) - i
  {
    if TotalChunks(|lines|, c) <= i then []
    else match Fetch(Loader(lines, c), TotalChunks(|lines|, c), i)
         case Chunk(text) => [text] + Texts(lines, c, i + 1)
         case _ => [] + Texts(lines, c, i + 1)
  }

  /** The loader can be made, every chunk loads, and joining the chunks gives the content back. */
  ghost predicate RoundTrip(content: string, c: int) {
    && c != 0
    && (forall i :: 0 <= i < TotalChunks(|Split(content)|, c)
                    ==> Fetch(Loader(Split(content), c), TotalChunks(|Split(content)|, c), i).Chunk?)
    && Join(Texts(Split(content), c, 0)) == content
  }

  lemma {:induction false} TextsJoin(lines: seq<string>, c: int, i: nat)
    requires 1 <= c && lines != [] && i < TotalChunks(|lines|, c)
    ensures i * c < |lines| && 0 <= i * c
    ensures Texts(lines, c, i) != [] && Join(Texts(lines, c, i)) == Join(lines[i * c..])
    decreases TotalChunks(|lines|, c) - i
  {
    ChunkStep(|lines|, c, i);
    if i + 1 < TotalChunks(|lines|, c) {
      TextsJoin(lines, c, i + 1);
      TextsFull(lines, c, i);
    } else {
      TextsLast(lines, c, i);
    }
  }

  /** A chunk that is followed by others is full. */
  lemma TextsFull(lines: seq<string>, c: int, i: nat)
    requires 1 <= c && i + 1 < TotalChunks(|lines|, c)
    requires 0 <= i * c && i * c + c == (i + 1) * c < |lines|
    requires Texts(lines, c, i + 1) != [] && Join(Texts(lines, c, i + 1)) == Join(lines[(i + 1) * c..])
    ensures Texts(lines, c, i) != [] && Join(Texts(lines, c, i)) == Join(lines[i * c..])
  {
    var start, rest := i * c, Texts(lines, c, i + 1);
    assert Texts(lines, c, i) == [Join(lines[start..start + c])] + rest;
    assert lines[start..][..c] == lines[start..start + c] && lines[start..][c..] == lines[start + c..];
    JoinFront(lines[start..], c, rest);
  }

  lemma TextsLast(lines: seq<string>, c: int, i: nat)
    requires 1 <= c && i + 1 == TotalChunks(|lines|, c)
    requires 0 <= i * c < |lines| <= i * c + c
    ensures Texts(lines, c, i) != [] && Join(Texts(lines, c, i)) == Join(lines[i * c..])
  {
    var start := i * c;
    assert lines[start..|lines|] == lines[start..];
    assert Texts(lines, c, i + 1) == [];
    assert Texts(lines, c, i) == [Join(lines[start..])];
  }

  /** Splitting lines off into a chunk of their own. */
  lemma JoinFront(lines: seq<string>, c: nat, rest: seq<string>)
    requires 1 <= c < |lines| && rest != [] && Join(rest) == Join(lines[c..])
    ensures Join([Join(lines[..c])] + rest) == Join(lines)
  {
    JoinConcat([Join(lines[..c])], rest);
    JoinConcat(lines[..c], lines[c..]);
    assert lines[..c] + lines[c..] == lines;
  }

  lemma SplitLong(s: string)
    ensures 1 < |Split(s)| ==> s != ""
  {}

  lemma NegativeChunks(n: int, c: int)
    requires 1 <= n && c < 0
    ensures n == 1 ==> TotalChunks(n, c) == 1
    ensures 1 < n ==> TotalChunks(n, c) <= 0
  {
    var a := n + c - 1;
    if 0 <= a {
      DivNonNegative(a, -c);
    } else {
      DivSmall(-a, -c);
    }
  }

  lemma DivNonNegative(a: int, d: int)
    requires 0 <= a && 0 < d
    ensures 0 <= a / d
  {}

  lemma DivSmall(a: int, d: int)
    requires 0 <= a <= d && 0 < d
    ensures a / d == if a == d then 1 else 0
  {}

  /** The round trip holds for every content exactly when the chunk size is positive. */
  lemma RoundTripExactly(content: string, c: int)
    ensures RoundTrip(content, c) <==> 1 <= c
  {
    var lines := Split(content);
    if 1 <= c {
      forall i | 0 <= i < TotalChunks(|lines|, c)
        ensures Fetch(Loader(lines, c), TotalChunks(|lines|, c), i).Chunk?
      {
        ChunkBounds(|lines|, c, i);
      }
      ChunkBounds(|lines|, c, 0);
      TextsJoin(lines, c, 0);
      JoinSplit(content);
      assert lines[0 * c..] == lines;
    } else if c < 0 {
      NegativeChunks(|lines|, c);
      if |lines| == 1 {
        assert Fetch(Loader(lines, c), 1, 0) == Panic;
      } else {
        SplitLong(content);
        assert Texts(lines, c, 0) == [];
      }
    }
  }

  // ---------- The cache ----------

  datatype Event = Get(index: int) | Clear

  ghost predicate Faithful(cache: map<int, string>, load: int -> Loaded, total: int) {
    forall i :: i in cache ==> 0 <= i < total && load(i) == Chunk(cache[i])
  }

  function Answer(cache: map<int, string>, load: int -> Loaded, total: int, index: int): Loaded {
    if index < 0 || total <= index then Missing
    else if index in cache then Chunk(cache[index])
    else load(index)
  }

  function After(cache: map<int, string>, load: int -> Loaded, total: int, e: Event): map<int, string> {
    match e
    case Clear => map[]
    case Get(i) =>
      var a := Answer(cache, load, total, i);
      if a.Chunk? then cache[i := a.text] else cache
  }

  function Answers(cache: map<int, string>, load: int -> Loaded, total: int, events: seq<Event>): seq<Loaded>
    decreases events
  {
    if events == [] then []
    else (if events[0].Get? then [Answer(cache, load, total, events[0].index)] else [])
         + Answers(After(cache, load, total, events[0]), load, total, events[1..])
  }

  function Fetches(load: int -> Loaded, total: int, events: seq<Event>): seq<Loaded> {
    if events == [] then []
    else (if events[0].Get? then [Fetch(load, total, events[0].index)] else []) + Fetches(load, total, events[1..])
  }

  /** The cache is transparent: every answer in every run is the one without a cache. */
  lemma {:induction false} CacheTransparent(
      cache: map<int, string>, load: int -> Loaded, total: int, events: seq<Event>)
    requires Faithful(cache, load, total)
    ensures Answers(cache, load, total, events) == Fetches(load, total, events)
    decreases events
  {
    if events != [] {
      CacheTransparent(After(cache, load, total, events[0]), load, total, events[1..]);
    }
  }

  function AfterAll(cache: map<int, string>, load: int -> Loaded, total: int, events: seq<Event>): map<int, string>
    decreases events
  {
    if events == [] then cache else AfterAll(After(cache, load, total, events[0]), load, total, events[1..])
  }

  /** The chunks that have been read since the last Clear, told from the requests alone. */
  function Read(seen: set<int>, load: int -> Loaded, total: int, events: seq<Event>): set<int>
    decreases events
  {
    if events == [] then seen
    else match events[0]
         case Clear => Read({}, load, total, events[1..])
         case Get(i) => Read(if Fetch(load, total, i).Chunk? then seen + {i} else seen, load, total, events[1..])
  }

  /** Exactly the chunks read since the last Clear are cached, with their texts: none is loaded twice. */
  lemma {:induction false} CachedExactly(
      cache: map<int, string>, load: int -> Loaded, total: int, events: seq<Event>)
    requires Faithful(cache, load, total)
    ensures AfterAll(cache, load, total, events).Keys == Read(cache.Keys, load, total, events)
    ensures Faithful(AfterAll(cache, load, total, events), load, total)
    decreases events
  {
    if events != [] {
      var next := After(cache, load, total, events[0]);
      CachedExactly(next, load, total, events[1..]);
      match events[0]
      case Clear => assert next.Keys == {};
      case Get(i) =>
        assert Answer(cache, load, total, i) == Fetch(load, total, i);
        assert next.Keys == if Fetch(load, total, i).Chunk? then cache.Keys + {i} else cache.Keys;
    }
  }

  class LazyLoader {
    const totalChunks: int
    const loadFn: int -> Loaded
    var chunks: map<int, string>

    ghost predicate Valid()
      reads this
    {
      Faithful(chunks, loadFn, totalChunks)
    }

    constructor (totalSize: int, chunkSize: int, loadFn: int -> Loaded)
      requires chunkSize != 0
      ensures Valid() && chunks == map[]
      ensures totalChunks == TotalChunks(totalSize, chunkSize) && this.loadFn == loadFn
    {
      totalChunks := TotalChunks(totalSize, chunkSize);
      this.loadFn := loadFn;
      chunks := map[];
    }

    method GetChunk(index: int) returns (r: Loaded)
      requires Valid()
      modifies this
      ensures Valid()
      ensures r == Fetch(loadFn, totalChunks, index)
      ensures chunks == if r.Chunk? then old(chunks)[index := r.text] else old(chunks)
    {
      if index < 0 || totalChunks <= index {
        return Missing;
      }
      if index in chunks {
        return Chunk(chunks[index]);
      }
      r := loadFn(index);
      if r.Chunk? {
        chunks := chunks[index := r.text];
      }
    }

    method Clear()
      modifies this
      ensures Valid() && chunks == map[]
    {
      chunks := map[];
    }

    method CachedCount() returns (n: nat)
      ensures n == |chunks|
    {
      n := |chunks|;
    }
  }

  class StringLoader {
    const lines: seq<string>
    const loader: LazyLoader

    ghost predicate Valid(content: string, chunkSize: int)
      reads this, loader
    {
      && chunkSize != 0
      && lines == Split(content)
      && loader.loadFn == Loader(lines, chunkSize)
      && loader.totalChunks == TotalChunks(|lines|, chunkSize)
      && loader.Valid()
    }

    constructor (content: string, chunkSize: int)
      requires chunkSize != 0
      ensures Valid(content, chunkSize) && fresh(loader)
    {
      lines := Split(content);
      loader := new LazyLoader(|Split(content)|, chunkSize, Loader(Split(content), chunkSize));
    }

    method GetChunk(index: int, ghost content: string, ghost chunkSize: int) returns (r: Loaded)
      requires Valid(content, chunkSize)
      modifies loader
      ensures Valid(content, chunkSize)
      ensures r == Fetch(Loader(Split(content), chunkSize), TotalChunks(|Split(content)|, chunkSize), index)
      ensures 1 <= chunkSize && r != Missing
              ==> r == Chunk(Join(GetLines(Split(content), index * chunkSize, index * chunkSize + chunkSize)))
    {
      r := loader.GetChunk(index);
      if 1 <= chunkSize {
        ChunkIsLines(content, chunkSize, index);
      }
    }

    method Clear(ghost content: string, ghost chunkSize: int)
      requires Valid(content, chunkSize)
      modifies loader
      ensures Valid(content, chunkSize) && loader.chunks == map[]
    {
      loader.Clear();
    }
  }
}
