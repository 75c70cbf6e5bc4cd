/**
 The JSON counterexample shrinker: a recursive generator of smaller candidates and a greedy
 loop that keeps the first candidate on which the caller's failure predicate still holds.
 The lazily consumed generator is the sequence of the values it yields, in order.
 */
module Shrinking {
  import opened Results
  import opened Json
  import opened Sorting

  type Value = Json<real>

  // ---------------------------------------------------------------------------------------
  // Size and depth
  // ---------------------------------------------------------------------------------------

  /** Math.trunc */
  function Trunc(x: real): int {
    if x >= 0.0 then x.Floor else -(-x).Floor
  }

  function Magnitude(x: real): nat {
    if x == 0.0 then 0 else if x >= 0.0 then 1 + x.Floor else 1 + (-x).Floor
  }

  /** The well-founded size under which every candidate is strictly smaller. */
  function Size(v: Value): nat
    decreases v, |Children(v)| + 1
  {
    match v
    case Null => 0
    case Bool(b) => if b then 1 else 0
    case Num(n) => Magnitude(n)
    case Str(s) => |s|
    case _ => SizeFrom(v, 0)
  }

  function SizeFrom(v: Value, i: nat): nat
    requires i <= |Children(v)|
    decreases v, |Children(v)| - i
  {
    if i == |Children(v)| then 0
    else
      1 + Size(Children(v)[i]) + SizeFrom(v, i + 1)
  }

  /** Nesting depth: 0 for a scalar, 1 for an empty container. */
  function Depth(v: Value): nat
    decreases v, |Children(v)| + 1
  {
    if IsContainer(v) then 1 + DepthFrom(v, 0) else 0
  }

  function DepthFrom(v: Value, i: nat): nat
    requires i <= |Children(v)|
    decreases v, |Children(v)| - i
  {
    if i == |Children(v)| then 0
    else
      Max(Depth(Children(v)[i]), DepthFrom(v, i + 1))
  }

  function Max(a: nat, b: nat): nat {
    if a >= b then a else b
  }

  function TotalSize(vs: seq<Value>): nat {
    if vs == [] then 0 else 1 + Size(vs[0]) + TotalSize(vs[1..])
  }

  function MaxDepth(vs: seq<Value>): nat {
    if vs == [] then 0 else Max(Depth(vs[0]), MaxDepth(vs[1..]))
  }

  lemma {:induction false} FromIsTotal(v: Value, i: nat)
    requires i <= |Children(v)|
    ensures SizeFrom(v, i) == TotalSize(Children(v)[i..])
    ensures DepthFrom(v, i) == MaxDepth(Children(v)[i..])
    decreases |Children(v)| - i
  {
    if i < |Children(v)| {
      FromIsTotal(v, i + 1);
      assert Children(v)[i..][1..] == Children(v)[i + 1..];
    }
  }

  lemma ContainerMeasures(v: Value)
    requires IsContainer(v)
    ensures Size(v) == TotalSize(Children(v)) && Depth(v) == 1 + MaxDepth(Children(v))
  {
    FromIsTotal(v, 0);
    assert Children(v)[0..] == Children(v);
  }

  lemma {:induction false} TotalsOfConcat(a: seq<Value>, b: seq<Value>)
    ensures TotalSize(a + b) == TotalSize(a) + TotalSize(b)
    ensures MaxDepth(a + b) == Max(MaxDepth(a), MaxDepth(b))
  {
    if a == [] {
      assert a + b == b;
    } else {
      TotalsOfConcat(a[1..], b);
      assert (a + b)[1..] == a[1..] + b;
    }
  }

  // ---------------------------------------------------------------------------------------
  // Candidates
  // ---------------------------------------------------------------------------------------

  /** The container without the n children from position start on. */
  function Without(v: Value, start: nat, n: nat): (r: Value)
    requires IsContainer(v) && start + n <= |Children(v)|
    ensures IsContainer(r) && Children(r) == Children(v)[..start] + Children(v)[start + n..]
  {
    match v
    case Arr(items) => Arr(items[..start] + items[start + n..])
    case Obj(entries) => Obj(entries[..start] + entries[start + n..])
  }

  /** The container with child i replaced. */
  function WithChild(v: Value, i: nat, child: Value): (r: Value)
    requires IsContainer(v) && i < |Children(v)|
    ensures IsContainer(r) && Children(r) == Children(v)[i := child]
  {
    match v
    case Arr(items) => Arr(items[i := child])
    case Obj(entries) => Obj(entries[i := Entry(entries[i].key, child)])
  }

  function ChunksOfSize(length: nat, size: nat, start: nat): seq<(nat, nat)>
    requires size > 0
    decreases length - start
  {
    if start + size <= length then [(start, size)] + ChunksOfSize(length, size, start + size) else []
  }

  function ChunksFrom(length: nat, size: nat): seq<(nat, nat)> {
    if size == 0 then [] else ChunksOfSize(length, size, 0) + ChunksFrom(length, size / 2)
  }

  method PushChunks(before: seq<(nat, nat)>, length: nat, size: nat) returns (chunks: seq<(nat, nat)>)
    requires size > 0
    ensures chunks == before + ChunksOfSize(length, size, 0)
  {
    chunks := before;
    var start: nat := 0;
    while start + size <= length
      invariant chunks + ChunksOfSize(length, size, start) == before + ChunksOfSize(length, size, 0)
      decreases length - start
    {
      NextChunk(chunks, length, size, start);
      chunks := chunks + [(start, size)];
      start := start + size;
    }
  }

  /** Blocks to remove from an array, as (start, size): the whole array, then halves, down to single elements. */
  method RemovalChunks(length: nat) returns (chunks: seq<(nat, nat)>)
    ensures chunks == ChunksFrom(length, length)
  {
    chunks := [];
    var size: nat := length;
    while size >= 1
      invariant chunks + ChunksFrom(length, size) == ChunksFrom(length, length)
    {
      NextSize(chunks, length, size);
      chunks := PushChunks(chunks, length, size);
      if size == 1 {
        break;
      }
      size := size / 2;
    }
  }

  lemma NextChunk(chunks: seq<(nat, nat)>, length: nat, size: nat, start: nat)
    requires size > 0 && start + size <= length
    ensures chunks + ChunksOfSize(length, size, start) == chunks + [(start, size)] + ChunksOfSize(length, size, start + size)
  {
  }

  lemma NextSize(chunks: seq<(nat, nat)>, length: nat, size: nat)
    requires size > 0
    ensures chunks + ChunksFrom(length, size) == chunks + ChunksOfSize(length, size, 0) + ChunksFrom(length, size / 2)
    ensures size == 1 ==> chunks + ChunksFrom(length, size) == chunks + ChunksOfSize(length, size, 0)
  {
    hide ChunksOfSize;
  }

  function Range(n: nat): (r: seq<nat>)
    ensures |r| == n && forall i :: 0 <= i < n ==> r[i] == i
    ensures forall i: nat :: i in r <==> i < n
  {
    if n == 0 then [] else Range(n - 1) + [n - 1]
  }

  predicate Within(positions: seq<nat>, n: nat) {
    forall k :: 0 <= k < |positions| ==> positions[k] < n
  }

  /** Inserts a position into a list that is ordered by the keys at its positions. */
  function InsertByKey(entries: seq<Entry<Value>>, p: nat, positions: seq<nat>): (r: seq<nat>)
    requires p < |entries| && Within(positions, |entries|)
    ensures Within(r, |entries|) && |r| == |positions| + 1
    ensures forall i: nat :: i in r <==> i == p || i in positions
  {
    if positions == [] || TextLeq(entries[p].key, entries[positions[0]].key) then [p] + positions
    else [positions[0]] + InsertByKey(entries, p, positions[1..])
  }

  /** The positions below n in the order of their keys. */
  function PositionsByKey(entries: seq<Entry<Value>>, n: nat): (r: seq<nat>)
    requires n <= |entries|
    ensures Within(r, |entries|) && |r| == n
    ensures forall i: nat :: i in r <==> i < n
  {
    if n == 0 then [] else InsertByKey(entries, n - 1, PositionsByKey(entries, n - 1))
  }

  /** The positions of a container's children in the order in which they are edited: objects go by sorted key. */
  function Positions(v: Value): (r: seq<nat>)
    ensures Within(r, |Children(v)|) && |r| == |Children(v)|
    ensures forall i: nat :: i in r <==> i < |Children(v)|
  {
    match v
    case Obj(entries) => PositionsByKey(entries, |entries|)
    case _ => Range(|Children(v)|)
  }

  predicate Fit(chunks: seq<(nat, nat)>, length: nat) {
    forall k :: 0 <= k < |chunks| ==> chunks[k].1 > 0 && chunks[k].0 + chunks[k].1 <= length
  }

  function Removals(v: Value, chunks: seq<(nat, nat)>): (r: seq<Value>)
    requires IsContainer(v) && Fit(chunks, |Children(v)|)
    ensures |r| == |chunks| && forall k :: 0 <= k < |r| ==> r[k] == Without(v, chunks[k].0, chunks[k].1)
  {
    if chunks == [] then [] else [Without(v, chunks[0].0, chunks[0].1)] + Removals(v, chunks[1..])
  }

  lemma {:induction false} ChunksFit(length: nat, size: nat, start: nat)
    requires size > 0
    ensures Fit(ChunksOfSize(length, size, start), length)
    decreases length - start
  {
    if start + size <= length {
      ChunksFit(length, size, start + size);
    }
  }

  lemma {:induction false} AllChunksFit(length: nat, size: nat)
    ensures Fit(ChunksFrom(length, size), length)
  {
    if size > 0 {
      ChunksFit(length, size, 0);
      AllChunksFit(length, size / 2);
    }
  }

  /** One-child blocks at the given positions. */
  function Singles(positions: seq<nat>): (r: seq<(nat, nat)>)
    ensures |r| == |positions| && forall k :: 0 <= k < |r| ==> r[k] == (positions[k], 1)
  {
    if positions == [] then [] else [(positions[0], 1)] + Singles(positions[1..])
  }

  /** The values that remove something from this container itself. */
  function Deletions(v: Value): seq<Value>
    requires IsContainer(v)
  {
    match v
    case Arr(items) =>
      AllChunksFit(|items|, |items|);
      Removals(v, ChunksFrom(|items|, |items|))
    case Obj(entries) =>
      Removals(v, Singles(Positions(v)))
  }

  /** The generator: everything it yields for v, in order. */
  function Candidates(v: Value, maxDepth: nat): seq<Value>
    decreases v, |Children(v)| + 1
  {
    match v
    case Null => []
    case Bool(b) => if b then [Bool(false)] else []
    case Num(n) => if n != 0.0 then [Num(0.0), Num(Trunc(n / 2.0) as real)] else []
    case Str(s) => (if |s| > 0 then [Str([])] else []) + (if |s| > 1 then [Str(s[..(|s| + 1) / 2])] else [])
    case _ =>
      Deletions(v) +
      if maxDepth > 0 then
        Edits(v, Positions(v), maxDepth - 1)
      else []
  }

  /** Each child in turn replaced by each of its own candidates. */
  function Edits(v: Value, positions: seq<nat>, maxDepth: nat): seq<Value>
    requires IsContainer(v) && |positions| <= |Children(v)| && Within(positions, |Children(v)|)
    decreases v, |positions|
  {
    if positions == [] then []
    else
      var p := positions[0];
      EditsOfChild(v, p, Candidates(Children(v)[p], maxDepth)) + Edits(v, positions[1..], maxDepth)
  }

  function EditsOfChild(v: Value, p: nat, cs: seq<Value>): (r: seq<Value>)
    requires IsContainer(v) && p < |Children(v)|
    ensures |r| == |cs| && forall k :: 0 <= k < |cs| ==> r[k] == WithChild(v, p, cs[k])
  {
    if cs == [] then [] else [WithChild(v, p, cs[0])] + EditsOfChild(v, p, cs[1..])
  }

  ghost predicate IsEdit(v: Value, positions: seq<nat>, maxDepth: nat, x: Value)
    requires IsContainer(v)
  {
    exists k, c ::
      && 0 <= k < |positions| && positions[k] < |Children(v)|
      && c in Candidates(Children(v)[positions[k]], maxDepth)
      && x == WithChild(v, positions[k], c)
  }

  lemma {:induction false} EditsHold(v: Value, positions: seq<nat>, maxDepth: nat, x: Value)
    requires IsContainer(v) && |positions| <= |Children(v)| && Within(positions, |Children(v)|)
    ensures x in Edits(v, positions, maxDepth) <==> IsEdit(v, positions, maxDepth, x)
    decreases |positions|
  {
    hide Candidates, WithChild, Children;
    if positions != [] {
      var first, rest := positions[0], positions[1..];
      var cs := Candidates(Children(v)[first], maxDepth);
      EditsHold(v, rest, maxDepth, x);
      if x in EditsOfChild(v, first, cs) {
        var k :| 0 <= k < |cs| && EditsOfChild(v, first, cs)[k] == x;
        assert cs[k] in cs && positions[0] == first;
      } else if x in Edits(v, rest, maxDepth) {
        var k, c :| 0 <= k < |rest| && c in Candidates(Children(v)[rest[k]], maxDepth) && x == WithChild(v, rest[k], c);
        assert positions[k + 1] == rest[k];
      }
      if IsEdit(v, positions, maxDepth, x) {
        var k, c :| 0 <= k < |positions| && c in Candidates(Children(v)[positions[k]], maxDepth) && x == WithChild(v, positions[k], c);
        if k == 0 {
          var j :| 0 <= j < |cs| && cs[j] == c;
          assert EditsOfChild(v, first, cs)[j] == x;
        } else {
          assert rest[k - 1] == positions[k];
        }
      }
    }
  }

  // ---------------------------------------------------------------------------------------
  // Every candidate is strictly smaller and never deeper
  // ---------------------------------------------------------------------------------------

  /** Leaving out a middle part that is not empty leaves less. */
  lemma TotalsOfCut(front: seq<Value>, middle: seq<Value>, tail: seq<Value>)
    requires middle != []
    ensures TotalSize(front + tail) < TotalSize(front + (middle + tail))
    ensures MaxDepth(front + tail) <= MaxDepth(front + (middle + tail))
  {
    hide Size, Depth, MaxDepth;
    assert TotalSize(middle) > 0;
    hide TotalSize;
    TotalsOfConcat(front, tail);
    TotalsOfConcat(middle, tail);
    TotalsOfConcat(front, middle + tail);
  }

  lemma WithoutShrinks(v: Value, start: nat, n: nat)
    requires IsContainer(v) && n > 0 && start + n <= |Children(v)|
    ensures Size(Without(v, start, n)) < Size(v) && Depth(Without(v, start, n)) <= Depth(v)
  {
    hide Size, Depth, Without, MaxDepth, TotalSize, Children;
    var cs := Children(v);
    ContainerMeasures(v);
    ContainerMeasures(Without(v, start, n));
    TotalsOfCut(cs[..start], cs[start..start + n], cs[start + n..]);
    assert cs == cs[..start] + (cs[start..start + n] + cs[start + n..]);
  }

  lemma {:induction false} TotalsOfUpdate(vs: seq<Value>, i: nat, child: Value)
    requires i < |vs|
    ensures TotalSize(vs[i := child]) == TotalSize(vs) - Size(vs[i]) + Size(child)
    ensures Depth(child) <= Depth(vs[i]) ==> MaxDepth(vs[i := child]) <= MaxDepth(vs)
  {
    hide Size, Depth;
    if i == 0 {
      assert vs[i := child] == [child] + vs[1..];
    } else {
      TotalsOfUpdate(vs[1..], i - 1, child);
      assert vs[i := child][1..] == vs[1..][i - 1 := child];
    }
  }

  lemma WithChildShrinks(v: Value, i: nat, child: Value)
    requires IsContainer(v) && i < |Children(v)|
    requires Size(child) < Size(Children(v)[i]) && Depth(child) <= Depth(Children(v)[i])
    ensures Size(WithChild(v, i, child)) < Size(v) && Depth(WithChild(v, i, child)) <= Depth(v)
  {
    hide Size, Depth, WithChild, TotalSize, MaxDepth;
    ContainerMeasures(v);
    ContainerMeasures(WithChild(v, i, child));
    TotalsOfUpdate(Children(v), i, child);
  }

  lemma ContainerCandidates(v: Value, maxDepth: nat)
    requires IsContainer(v)
    ensures Candidates(v, maxDepth) == Deletions(v) + if maxDepth > 0 then Edits(v, Positions(v), maxDepth - 1) else []
  {
    hide Edits, Positions, Deletions;
  }

  lemma ScalarCandidatesShrink(v: Value, maxDepth: nat, c: Value)
    requires !IsContainer(v) && c in Candidates(v, maxDepth)
    ensures Size(c) < Size(v) && Depth(c) <= Depth(v)
  {
  }

  lemma {:induction false} CandidatesShrink(v: Value, maxDepth: nat, c: Value)
    requires c in Candidates(v, maxDepth)
    ensures Size(c) < Size(v) && Depth(c) <= Depth(v)
    decreases v, |Children(v)| + 1
  {
    hide Deletions, Positions, Candidates, Size, Depth, Edits;
    if IsContainer(v) {
      ContainerCandidates(v, maxDepth);
      if c in Deletions(v) {
        DeletionShrinks(v, c);
      } else {
        EditsShrink(v, Positions(v), maxDepth - 1, c);
      }
    } else {
      ScalarCandidatesShrink(v, maxDepth, c);
    }
  }

  lemma {:induction false} EditsShrink(v: Value, positions: seq<nat>, maxDepth: nat, c: Value)
    requires IsContainer(v) && |positions| <= |Children(v)| && Within(positions, |Children(v)|)
    requires c in Edits(v, positions, maxDepth)
    ensures Size(c) < Size(v) && Depth(c) <= Depth(v)
    decreases v, |positions|
  {
    hide Size, Depth, Positions, Deletions, Children;
    var p, rest := positions[0], positions[1..];
    if c in Edits(v, rest, maxDepth) {
      EditsShrink(v, rest, maxDepth, c);
    } else {
      var ds := Candidates(Children(v)[p], maxDepth);
      var k :| 0 <= k < |ds| && EditsOfChild(v, p, ds)[k] == c;
      CandidatesShrink(Children(v)[p], maxDepth, ds[k]);
      WithChildShrinks(v, p, ds[k]);
    }
  }

  lemma RemovalShrinks(v: Value, chunks: seq<(nat, nat)>, c: Value)
    requires IsContainer(v) && Fit(chunks, |Children(v)|)
    requires c in Removals(v, chunks)
    ensures Size(c) < Size(v) && Depth(c) <= Depth(v)
  {
    var k :| 0 <= k < |chunks| && Removals(v, chunks)[k] == c;
    WithoutShrinks(v, chunks[k].0, chunks[k].1);
  }

  lemma DeletionShrinks(v: Value, c: Value)
    requires IsContainer(v) && c in Deletions(v)
    ensures Size(c) < Size(v) && Depth(c) <= Depth(v)
  {
    match v
    case Arr(items) =>
      AllChunksFit(|items|, |items|);
      RemovalShrinks(v, ChunksFrom(|items|, |items|), c);
    case Obj(entries) =>
      RemovalShrinks(v, Singles(Positions(v)), c);
  }

  // ---------------------------------------------------------------------------------------
  // The depth cut hides nothing, and every single deletion is a candidate
  // ---------------------------------------------------------------------------------------

  lemma {:induction false} ChildDepth(vs: seq<Value>, i: nat)
    requires i < |vs|
    ensures Depth(vs[i]) <= MaxDepth(vs)
  {
    if i > 0 {
      ChildDepth(vs[1..], i - 1);
    }
  }

  /** For a value within the limit, the generator yields what it would yield with any larger limit. */
  lemma {:induction false} DepthCutHidesNothing(v: Value, maxDepth: nat, larger: nat)
    requires Depth(v) <= maxDepth <= larger
    ensures Candidates(v, maxDepth) == Candidates(v, larger)
    decreases v, |Children(v)| + 1
  {
    hide Deletions, Positions, Candidates, Edits, Depth;
    if IsContainer(v) {
      ContainerMeasures(v);
      ContainerCandidates(v, maxDepth);
      ContainerCandidates(v, larger);
      EditsCutHidesNothing(v, Positions(v), maxDepth - 1, larger - 1);
    } else {
      ScalarsIgnoreDepth(v, maxDepth, larger);
    }
  }

  lemma ScalarsIgnoreDepth(v: Value, maxDepth: nat, larger: nat)
    requires !IsContainer(v)
    ensures Candidates(v, maxDepth) == Candidates(v, larger)
  {
  }

  lemma {:induction false} EditsCutHidesNothing(v: Value, positions: seq<nat>, maxDepth: nat, larger: nat)
    requires IsContainer(v) && |positions| <= |Children(v)| && Within(positions, |Children(v)|)
    requires Depth(v) - 1 <= maxDepth <= larger
    ensures Edits(v, positions, maxDepth) == Edits(v, positions, larger)
    decreases v, |positions|
  {
    hide Deletions, Positions, Depth;
    if positions != [] {
      ContainerMeasures(v);
      ChildDepth(Children(v), positions[0]);
      DepthCutHidesNothing(Children(v)[positions[0]], maxDepth, larger);
      EditsCutHidesNothing(v, positions[1..], maxDepth, larger);
    }
  }

  /** path leads through containers to one element or key of v. */
  predicate ValidPath(v: Value, path: seq<nat>) {
    && path != []
    && path[0] < |Children(v)|
    && (|path| > 1 ==> ValidPath(Children(v)[path[0]], path[1..]))
  }

  /** v with the one array element or object key at the end of path removed, whatever the nesting level. */
  function DeleteAt(v: Value, path: seq<nat>): Value
    requires ValidPath(v, path)
    decreases |path|
  {
    if |path| == 1 then Without(v, path[0], 1)
    else WithChild(v, path[0], DeleteAt(Children(v)[path[0]], path[1..]))
  }

  lemma {:induction false} SingleChunks(length: nat, start: nat, i: nat)
    requires start <= i < length
    ensures (i, 1) in ChunksOfSize(length, 1, start)
    decreases length - start
  {
    if start < i {
      SingleChunks(length, start + 1, i);
    }
  }

  lemma {:induction false} SingleElementsAreRemoved(length: nat, size: nat, i: nat)
    requires 1 <= size && i < length
    ensures (i, 1) in ChunksFrom(length, size)
  {
    if size == 1 {
      SingleChunks(length, 0, i);
    } else {
      SingleElementsAreRemoved(length, size / 2, i);
    }
  }

  lemma RemovalOf(v: Value, chunks: seq<(nat, nat)>, chunk: (nat, nat))
    requires IsContainer(v) && Fit(chunks, |Children(v)|) && chunk in chunks && chunk.1 > 0 && chunk.0 + chunk.1 <= |Children(v)|
    ensures Without(v, chunk.0, chunk.1) in Removals(v, chunks)
  {
    var k :| 0 <= k < |chunks| && chunks[k] == chunk;
    assert Removals(v, chunks)[k] == Without(v, chunk.0, chunk.1);
  }

  lemma SingleDeletionIsCandidate(v: Value, i: nat, maxDepth: nat)
    requires IsContainer(v) && i < |Children(v)|
    ensures Without(v, i, 1) in Candidates(v, maxDepth)
  {
    match v
    case Arr(items) =>
      SingleElementsAreRemoved(|items|, |items|, i);
      AllChunksFit(|items|, |items|);
      RemovalOf(v, ChunksFrom(|items|, |items|), (i, 1));
    case Obj(entries) =>
      assert i in Positions(v);
      var k :| 0 <= k < |Positions(v)| && Positions(v)[k] == i;
      assert Singles(Positions(v))[k] == (i, 1);
      RemovalOf(v, Singles(Positions(v)), (i, 1));
  }

  lemma EditIsCandidate(v: Value, maxDepth: nat, i: nat, c: Value)
    requires IsContainer(v) && i < |Children(v)| && maxDepth > 0 && c in Candidates(Children(v)[i], maxDepth - 1)
    ensures WithChild(v, i, c) in Candidates(v, maxDepth)
  {
    hide Deletions, Candidates, Positions, Edits;
    ContainerCandidates(v, maxDepth);
    assert i in Positions(v);
    var k :| 0 <= k < |Positions(v)| && Positions(v)[k] == i;
    EditsHold(v, Positions(v), maxDepth - 1, WithChild(v, i, c));
  }

  /** Deleting any one element or key, at any nesting level, is among the candidates. */
  lemma {:induction false} EveryDeletionIsCandidate(v: Value, path: seq<nat>, maxDepth: nat)
    requires ValidPath(v, path) && Depth(v) <= maxDepth
    ensures DeleteAt(v, path) in Candidates(v, maxDepth)
    decreases |path|
  {
    hide Candidates, Depth, WithChild, Without;
    if |path| == 1 {
      SingleDeletionIsCandidate(v, path[0], maxDepth);
    } else {
      var i := path[0];
      ContainerMeasures(v);
      ChildDepth(Children(v), i);
      EveryDeletionIsCandidate(Children(v)[i], path[1..], maxDepth - 1);
      EditIsCandidate(v, maxDepth, i, DeleteAt(Children(v)[i], path[1..]));
    }
  }

  // ---------------------------------------------------------------------------------------
  // Limits and the boundary check
  // ---------------------------------------------------------------------------------------

  const MAX_SAFE_INTEGER: int := 9007199254740991

  datatype Options = Options(maxAttempts: Option<int>, maxReductions: Option<int>, maxDepth: Option<int>, maxBytes: Option<int>)

  datatype Limits = Limits(maxAttempts: nat, maxReductions: nat, maxDepth: nat, maxBytes: nat)

  datatype ShrinkError = InvalidLimit | ExceedsBytes | ExceedsDepth

  predicate ValidLimit(value: Option<int>) {
    value.Some? ==> 1 <= value.value <= MAX_SAFE_INTEGER
  }

  function LimitOr(value: Option<int>, fallback: nat): nat
    requires ValidLimit(value)
  {
    if value.Some? then value.value else fallback
  }

  function NormalizeLimits(o: Options): Result<Limits, ShrinkError> {
    if ValidLimit(o.maxAttempts) && ValidLimit(o.maxReductions) && ValidLimit(o.maxDepth) && ValidLimit(o.maxBytes) then
      Ok(Limits(LimitOr(o.maxAttempts, 500), LimitOr(o.maxReductions, 100), LimitOr(o.maxDepth, 32), LimitOr(o.maxBytes, 1_000_000)))
    else
      Err(InvalidLimit)
  }

  /** The deepest level the pending containers reach, each entry counting from its own level. */
  ghost function Reach(pending: seq<(Value, nat)>): nat
    requires forall k :: 0 <= k < |pending| ==> pending[k].1 > 0
  {
    if pending == [] then 0
    else
      var last := pending[|pending| - 1];
      Max(last.1 - 1 + Depth(last.0), Reach(pending[..|pending| - 1]))
  }

  ghost function PendingSize(pending: seq<(Value, nat)>): nat {
    if pending == [] then 0
    else 1 + Size(pending[|pending| - 1].0) + PendingSize(pending[..|pending| - 1])
  }

  ghost predicate IsWorklist(pending: seq<(Value, nat)>) {
    forall k :: 0 <= k < |pending| ==> pending[k].1 > 0 && IsContainer(pending[k].0)
  }

  lemma PushOne(pending: seq<(Value, nat)>, entry: (Value, nat))
    requires IsWorklist(pending) && entry.1 > 0
    ensures forall k :: 0 <= k < |pending + [entry]| ==> (pending + [entry])[k].1 > 0
    ensures Reach(pending + [entry]) == Max(entry.1 - 1 + Depth(entry.0), Reach(pending))
    ensures PendingSize(pending + [entry]) == 1 + Size(entry.0) + PendingSize(pending)
  {
    hide Size, Depth;
    assert (pending + [entry])[..|pending|] == pending;
  }

  lemma ScalarsAreFlat(v: Value)
    ensures !IsContainer(v) ==> Depth(v) == 0
    ensures MaxDepth([v]) == Depth(v) && TotalSize([v]) == 1 + Size(v)
  {
  }

  /** Pushes the children that are themselves containers, one level further down. */
  method PushContainers(before: seq<(Value, nat)>, children: seq<Value>, level: nat) returns (pending: seq<(Value, nat)>)
    requires IsWorklist(before) && level > 0
    ensures IsWorklist(pending)
    ensures Max(level, Reach(pending)) == Max(Reach(before), level + MaxDepth(children))
    ensures PendingSize(pending) <= PendingSize(before) + TotalSize(children)
  {
    hide Size, Depth, Children, Reach, PendingSize;
    pending := before;
    for k := 0 to |children|
      invariant IsWorklist(pending)
      invariant Max(level, Reach(pending)) == Max(Reach(before), level + MaxDepth(children[..k]))
      invariant PendingSize(pending) <= PendingSize(before) + TotalSize(children[..k])
    {
      assert children[..k + 1] == children[..k] + [children[k]];
      TotalsOfConcat(children[..k], [children[k]]);
      ScalarsAreFlat(children[k]);
      if IsContainer(children[k]) {
        PushOne(pending, (children[k], level + 1));
        pending := pending + [(children[k], level + 1)];
      }
    }
    assert children[..|children|] == children;
  }

  /** The worklist computation of the nesting depth. */
  method MeasureDepth(v: Value) returns (maximum: nat)
    ensures maximum == Depth(v)
  {
    hide Size, Depth, TotalSize, MaxDepth, Children;
    if !IsContainer(v) {
      ScalarsAreFlat(v);
      return 0;
    }
    var pending: seq<(Value, nat)> := [(v, 1)];
    assert pending[..0] == [];
    maximum := 0;
    while |pending| > 0
      invariant IsWorklist(pending)
      invariant Max(maximum, Reach(pending)) == Depth(v)
      decreases PendingSize(pending)
    {
      var entry := pending[|pending| - 1];
      ContainerMeasures(entry.0);
      maximum := Max(maximum, entry.1);
      pending := PushContainers(pending[..|pending| - 1], Children(entry.0), entry.1);
    }
  }

  method AssertJsonBoundary(value: Value, maxDepth: nat, maxBytes: nat, byteLength: Value -> nat) returns (error: Option<ShrinkError>)
    ensures error == if byteLength(value) > maxBytes then Some(ExceedsBytes) else if Depth(value) > maxDepth then Some(ExceedsDepth) else None
  {
    if byteLength(value) > maxBytes {
      return Some(ExceedsBytes);
    }
    var depth := MeasureDepth(value);
    if depth > maxDepth {
      return Some(ExceedsDepth);
    }
    return None;
  }

  // ---------------------------------------------------------------------------------------
  // The greedy loop
  // ---------------------------------------------------------------------------------------

  datatype ShrinkResult = ShrinkResult(value: Value, attempts: nat, reductions: nat, complete: bool)

  /** The caller's deterministic predicate and the serialised size of a value in bytes. */
  datatype Host = Host(fails: Value -> bool, byteLength: Value -> nat)

  /** The first position from i on at which a candidate is too large or keeps the failure, or the end. */
  function FirstStop(cs: seq<Value>, host: Host, maxBytes: nat, i: nat): (k: nat)
    requires i <= |cs|
    ensures i <= k <= |cs|
    ensures forall j :: i <= j < k ==> host.byteLength(cs[j]) <= maxBytes && !host.fails(cs[j])
    ensures k < |cs| ==> host.byteLength(cs[k]) > maxBytes || host.fails(cs[k])
    decreases |cs| - i
  {
    if i == |cs| || host.byteLength(cs[i]) > maxBytes || host.fails(cs[i]) then i else FirstStop(cs, host, maxBytes, i + 1)
  }

  /** How one pass over the candidates ends. */
  datatype Pass = Stopped(attempts: nat) | Accepted(value: Value, attempts: nat) | Oversized

  /** The pass over cs: it stops at an oversized candidate, at the first failing one, or when the attempts run out. */
  function PassOver(cs: seq<Value>, host: Host, limits: Limits, attempts: nat): (pass: Pass)
    ensures pass.Accepted? ==> pass.value in cs && host.fails(pass.value) && pass.attempts <= limits.maxAttempts
  {
    var k := FirstStop(cs, host, limits.maxBytes, 0);
    if attempts + k >= limits.maxAttempts then Stopped(limits.maxAttempts)
    else if k == |cs| then Stopped(attempts + k)
    else if host.byteLength(cs[k]) > limits.maxBytes then Oversized
    else Accepted(cs[k], attempts + k + 1)
  }

  /**
   What the loop computes from a given point: repeatedly the first failing candidate is kept; a
   candidate over the byte limit ends the run with an error; either budget ends it early.
   */
  ghost function ShrinkFrom(current: Value, host: Host, limits: Limits, attempts: nat, reductions: nat): Result<ShrinkResult, ShrinkError>
    decreases Size(current)
  {
    if attempts >= limits.maxAttempts || reductions >= limits.maxReductions then
      Ok(ShrinkResult(current, attempts, reductions, false))
    else
      match PassOver(Candidates(current, limits.maxDepth), host, limits, attempts)
      case Oversized => Err(ExceedsBytes)
      case Stopped(tried) => Ok(ShrinkResult(current, tried, reductions, tried < limits.maxAttempts))
      case Accepted(value, tried) =>
        CandidatesShrink(current, limits.maxDepth, value);
        ShrinkFrom(value, host, limits, tried, reductions + 1)
  }

  /** The call once the limits are known. */
  ghost function ShrinkWithin(input: Value, host: Host, limits: Limits): Result<ShrinkResult, ShrinkError> {
    if host.byteLength(input) > limits.maxBytes then Err(ExceedsBytes)
    else if Depth(input) > limits.maxDepth then Err(ExceedsDepth)
    else ShrinkFrom(input, host, limits, 0, 0)
  }

  ghost function ShrinkSpec(input: Value, host: Host, options: Options): Result<ShrinkResult, ShrinkError> {
    match NormalizeLimits(options)
    case Err(e) => Err(e)
    case Ok(limits) => ShrinkWithin(input, host, limits)
  }

  method TryCandidates(cs: seq<Value>, host: Host, limits: Limits, attempts0: nat) returns (pass: Pass)
    requires attempts0 < limits.maxAttempts
    requires forall c :: c in cs ==> Depth(c) <= limits.maxDepth
    ensures pass == PassOver(cs, host, limits, attempts0)
  {
    var attempts := attempts0;
    for k := 0 to |cs|
      invariant attempts == attempts0 + k <= limits.maxAttempts
      invariant FirstStop(cs, host, limits.maxBytes, k) == FirstStop(cs, host, limits.maxBytes, 0)
    {
      if attempts >= limits.maxAttempts {
        break;
      }
      attempts := attempts + 1;
      var error := AssertJsonBoundary(cs[k], limits.maxDepth, limits.maxBytes, host.byteLength);
      if error.Some? {
        return Oversized;
      }
      if host.fails(cs[k]) {
        return Accepted(cs[k], attempts);
      }
    }
    return Stopped(attempts);
  }

  /** The candidates of a value within the depth limit stay within it. */
  lemma CandidatesWithinDepth(v: Value, maxDepth: nat)
    requires Depth(v) <= maxDepth
    ensures forall c :: c in Candidates(v, maxDepth) ==> Depth(c) <= maxDepth
  {
    forall c | c in Candidates(v, maxDepth)
      ensures Depth(c) <= maxDepth
    {
      CandidatesShrink(v, maxDepth, c);
    }
  }

  method ShrinkLoop(input: Value, host: Host, limits: Limits) returns (result: Result<ShrinkResult, ShrinkError>)
    requires Depth(input) <= limits.maxDepth
    ensures result == ShrinkFrom(input, host, limits, 0, 0)
  {
    hide Candidates, Size, Depth, PassOver;
    var current := input;
    var attempts: nat, reductions: nat := 0, 0;
    while attempts < limits.maxAttempts && reductions < limits.maxReductions
      invariant Depth(current) <= limits.maxDepth
      invariant ShrinkFrom(current, host, limits, attempts, reductions) == ShrinkFrom(input, host, limits, 0, 0)
      decreases Size(current)
    {
      CandidatesWithinDepth(current, limits.maxDepth);
      var pass := TryCandidates(Candidates(current, limits.maxDepth), host, limits, attempts);
      match pass
      case Oversized => return Err(ExceedsBytes);
      case Stopped(tried) => return Ok(ShrinkResult(current, tried, reductions, tried < limits.maxAttempts && reductions < limits.maxReductions));
      case Accepted(value, tried) =>
        CandidatesShrink(current, limits.maxDepth, value);
        current, attempts, reductions := value, tried, reductions + 1;
    }
    result := Ok(ShrinkResult(current, attempts, reductions, attempts < limits.maxAttempts && reductions < limits.maxReductions));
  }

  method ShrinkJsonCounterexample(input: Value, host: Host, options: Options) returns (result: Result<ShrinkResult, ShrinkError>)
    ensures result == ShrinkSpec(input, host, options)
  {
    var normalized := NormalizeLimits(options);
    if normalized.Err? {
      return Err(normalized.error);
    }
    var limits := normalized.value;
    var bad := AssertJsonBoundary(input, limits.maxDepth, limits.maxBytes, host.byteLength);
    if bad.Some? {
      return Err(bad.value);
    }
    result := ShrinkLoop(input, host, limits);
  }

  // ---------------------------------------------------------------------------------------
  // What the result is worth
  // ---------------------------------------------------------------------------------------

  ghost predicate NoCandidateFails(v: Value, host: Host, maxDepth: nat) {
    forall c :: c in Candidates(v, maxDepth) ==> !host.fails(c)
  }

  lemma StoppedEarlyMeansNoneFails(cs: seq<Value>, host: Host, limits: Limits, attempts: nat)
    requires PassOver(cs, host, limits, attempts).Stopped?
    ensures PassOver(cs, host, limits, attempts).attempts <= limits.maxAttempts
    ensures PassOver(cs, host, limits, attempts).attempts < limits.maxAttempts ==> forall c :: c in cs ==> !host.fails(c)
  {
  }

  lemma {:induction false} ShrinkFromFacts(current: Value, host: Host, limits: Limits, attempts: nat, reductions: nat)
    requires attempts <= limits.maxAttempts && reductions <= limits.maxReductions
    requires ShrinkFrom(current, host, limits, attempts, reductions).Ok?
    ensures var r := ShrinkFrom(current, host, limits, attempts, reductions).value;
      && r.attempts <= limits.maxAttempts && r.reductions <= limits.maxReductions
      && (r.complete <==> r.attempts < limits.maxAttempts && r.reductions < limits.maxReductions)
      && (r.complete ==> NoCandidateFails(r.value, host, limits.maxDepth))
      && r.reductions + Size(r.value) <= reductions + Size(current)
      && Depth(r.value) <= Depth(current)
      && (r.value == current || host.fails(r.value))
    decreases Size(current)
  {
    hide Size, Depth, Candidates, PassOver;
    if attempts < limits.maxAttempts && reductions < limits.maxReductions {
      var cs := Candidates(current, limits.maxDepth);
      match PassOver(cs, host, limits, attempts)
      case Oversized =>
      case Stopped(tried) =>
        StoppedEarlyMeansNoneFails(cs, host, limits, attempts);
      case Accepted(value, tried) =>
        CandidatesShrink(current, limits.maxDepth, value);
        ShrinkFromFacts(value, host, limits, tried, reductions + 1);
    }
  }

  /** Nothing stops the loop before the candidate at k: all before it are small enough and pass. */
  ghost predicate ComesTo(v: Value, host: Host, limits: Limits, k: nat) {
    k <= |Candidates(v, limits.maxDepth)|
    && forall j :: 0 <= j < k ==> host.byteLength(Candidates(v, limits.maxDepth)[j]) <= limits.maxBytes && !host.fails(Candidates(v, limits.maxDepth)[j])
  }

  /**
   One reduction, with budgets that allow it: the first failing candidate in their order is what
   the loop goes on with, one that is too large is what it ends with, and if there is neither, the
   value stays and all candidates were tried.
   */
  lemma FirstFailingIsKept(v: Value, host: Host, limits: Limits, attempts: nat, reductions: nat, k: nat)
    requires reductions < limits.maxReductions && attempts + k < limits.maxAttempts && ComesTo(v, host, limits, k)
    ensures var cs, r := Candidates(v, limits.maxDepth), ShrinkFrom(v, host, limits, attempts, reductions);
      if k == |cs| then r == Ok(ShrinkResult(v, attempts + k, reductions, true))
      else if host.byteLength(cs[k]) > limits.maxBytes then r == Err(ExceedsBytes)
      else host.fails(cs[k]) ==> r == ShrinkFrom(cs[k], host, limits, attempts + k + 1, reductions + 1)
  {
    hide Candidates, Size;
    var cs := Candidates(v, limits.maxDepth);
    var stop := FirstStop(cs, host, limits.maxBytes, 0);
    assert stop >= k;
    if k < |cs| && (host.byteLength(cs[k]) > limits.maxBytes || host.fails(cs[k])) {
      assert stop == k;
    }
  }

  /**
   The result keeps the failure, is never deeper than the input, and costs at most one unit of
   the input's size for each accepted reduction.
   */
  lemma ResultIsAReduction(input: Value, host: Host, options: Options)
    requires ShrinkSpec(input, host, options).Ok?
    ensures var r := ShrinkSpec(input, host, options).value;
      && (r.value == input || host.fails(r.value))
      && Depth(r.value) <= Depth(input)
      && r.reductions <= Size(input) - Size(r.value)
  {
    ShrinkFromFacts(input, host, NormalizeLimits(options).value, 0, 0);
  }

  /** A complete result is locally minimal: no single element or key, however deeply nested, can be dropped. */
  lemma CompleteIsLocallyMinimal(input: Value, host: Host, options: Options, path: seq<nat>)
    requires ShrinkSpec(input, host, options).Ok? && ShrinkSpec(input, host, options).value.complete
    requires ValidPath(ShrinkSpec(input, host, options).value.value, path)
    ensures NoCandidateFails(ShrinkSpec(input, host, options).value.value, host, NormalizeLimits(options).value.maxDepth)
    ensures !host.fails(DeleteAt(ShrinkSpec(input, host, options).value.value, path))
  {
    var limits := NormalizeLimits(options).value;
    var v := ShrinkSpec(input, host, options).value.value;
    ShrinkFromFacts(input, host, limits, 0, 0);
    EveryDeletionIsCandidate(v, path, limits.maxDepth);
  }

  /** A reduction budget above the size of the input never cuts a run short: only the attempt budget can. */
  lemma OnlyAttemptsCutShort(input: Value, host: Host, options: Options)
    requires ShrinkSpec(input, host, options).Ok? && NormalizeLimits(options).value.maxReductions > Size(input)
    ensures var r := ShrinkSpec(input, host, options).value;
      r.complete <==> r.attempts < NormalizeLimits(options).value.maxAttempts
  {
    ShrinkFromFacts(input, host, NormalizeLimits(options).value, 0, 0);
  }

  /**
   The byte limit is not monotone: `true` is within four bytes, its only candidate `false` is
   not, and the run ends with an error although the input was accepted.
   */
  lemma CandidateMayOutgrowByteLimit(host: Host, options: Options)
    requires host.byteLength(Bool(true)) == 4 && host.byteLength(Bool(false)) == 5
    requires NormalizeLimits(options).Ok? && options.maxBytes == Some(4)
    ensures ShrinkSpec(Bool(true), host, options) == Err(ExceedsBytes)
  {
    assert Candidates(Bool(true), NormalizeLimits(options).value.maxDepth) == [Bool(false)];
  }
}
