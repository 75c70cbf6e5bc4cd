/**
 What the shrinker tries first: the candidates of scalars, the blocks that are removed from arrays,
 and the turn in which children are edited.
 */
module ShrinkingTurns {
  import opened Json
  import opened Shrinking

  /** A number gives zero, and then the integer next to its half on the side of zero. */
  lemma NumberCandidates(n: real, maxDepth: nat)
    requires n != 0.0
    ensures var cs := Candidates(Num(n), maxDepth);
      && |cs| == 2 && cs[0] == Num(0.0)
      && exists m: int :: IsHalf(n, m) && cs[1] == Num(m as real)
  {
    var m := Trunc(n / 2.0);
    assert IsHalf(n, m);
    assert Candidates(Num(n), maxDepth) == [Num(0.0), Num(m as real)];
  }

  predicate IsHalf(n: real, m: int) {
    if n > 0.0 then 0.0 <= m as real <= n / 2.0 < m as real + 1.0 else m as real - 1.0 < n / 2.0 <= m as real <= 0.0
  }

  /** A text gives the empty one, and if it is longer than one unit then its first half, the longer one. */
  lemma TextCandidates(s: Text, maxDepth: nat)
    requires s != []
    ensures var cs := Candidates(Str(s), maxDepth);
      && cs != [] && cs[0] == Str([]) && |cs| == (if |s| == 1 then 1 else 2)
      && (|s| > 1 ==> cs[1].Str? && cs[1].s <= s && |s| <= 2 * |cs[1].s| <= |s| + 1)
  {
  }

  /** The other scalars, and what nothing can shrink. */
  lemma OtherCandidates(maxDepth: nat)
    ensures Candidates(Bool(true), maxDepth) == [Bool(false)] && Candidates(Bool(false), maxDepth) == [] && Candidates(Null, maxDepth) == []
    ensures Candidates(Num(0.0), maxDepth) == [] && Candidates(Str([]), maxDepth) == []
  {
  }

  /** size comes from length by halving, rounded down, any number of times. */
  ghost predicate Halved(length: nat, size: nat)
    decreases length
  {
    length > 0 && (size == length || Halved(length / 2, size))
  }

  /** start is first, or some sizes behind it. */
  predicate Multiple(start: nat, size: nat, first: nat)
    requires size > 0
    decreases start - first
  {
    start == first || (start >= first + size && Multiple(start, size, first + size))
  }

  lemma {:induction false} ChunksOfSizeAre(length: nat, size: nat, first: nat, c: (nat, nat))
    requires size > 0
    ensures c in ChunksOfSize(length, size, first) <==> c.1 == size && Multiple(c.0, size, first) && c.0 + size <= length
    decreases length - first
  {
    if first + size <= length {
      ChunksOfSizeAre(length, size, first + size, c);
      MultipleIsBehind(c.0, size, first + size);
    }
  }

  lemma MultipleIsBehind(start: nat, size: nat, first: nat)
    requires size > 0
    ensures Multiple(start, size, first) ==> start >= first
  {
  }

  /** The blocks that are removed from an array: of the halved lengths, at the multiples of each. */
  lemma {:induction false} ChunksAre(length: nat, size: nat, c: (nat, nat))
    ensures c in ChunksFrom(length, size) <==> Halved(size, c.1) && c.1 > 0 && Multiple(c.0, c.1, 0) && c.0 + c.1 <= length
  {
    hide ChunksOfSize, Multiple;
    if size > 0 {
      ChunksOfSizeAre(length, size, 0, c);
      ChunksAre(length, size / 2, c);
      HalvedIsSmaller(size / 2, c.1);
    }
  }

  lemma {:induction false} HalvedIsSmaller(length: nat, size: nat)
    ensures Halved(length, size) ==> 0 < size <= length
  {
    if length > 0 {
      HalvedIsSmaller(length / 2, size);
    }
  }

  /** Larger blocks come first, and blocks of one size from the left. */
  predicate InTurn(c: (nat, nat), d: (nat, nat)) {
    c.1 > d.1 || (c.1 == d.1 && c.0 < d.0)
  }

  ghost predicate AllInTurn(chunks: seq<(nat, nat)>) {
    forall a, b :: 0 <= a < b < |chunks| ==> InTurn(chunks[a], chunks[b])
  }

  lemma {:induction false} ChunksOfSizeInTurn(length: nat, size: nat, first: nat)
    requires size > 0
    ensures AllInTurn(ChunksOfSize(length, size, first))
    ensures forall c :: c in ChunksOfSize(length, size, first) ==> c.1 == size && c.0 >= first
    decreases length - first
  {
    if first + size <= length {
      ChunksOfSizeInTurn(length, size, first + size);
      var rest := ChunksOfSize(length, size, first + size);
      assert forall b :: 0 <= b < |rest| ==> rest[b] in rest;
    }
  }

  lemma {:induction false} ChunksInTurn(length: nat, size: nat)
    ensures AllInTurn(ChunksFrom(length, size))
    ensures forall c :: c in ChunksFrom(length, size) ==> c.1 <= size
  {
    hide ChunksOfSize;
    if size > 0 {
      ChunksOfSizeInTurn(length, size, 0);
      ChunksInTurn(length, size / 2);
      var front, rest := ChunksOfSize(length, size, 0), ChunksFrom(length, size / 2);
      assert forall a :: 0 <= a < |front| ==> front[a] in front;
      assert forall b :: 0 <= b < |rest| ==> rest[b] in rest;
    }
  }

  /** Which child a candidate edits, by its turn, and which of the child's candidates it takes. */
  ghost predicate EditMarks(v: Value, positions: seq<nat>, maxDepth: nat, edits: seq<Value>, marks: seq<(nat, nat)>)
    requires IsContainer(v)
  {
    && |marks| == |edits|
    && (forall k :: 0 <= k < |marks| ==>
          && marks[k].0 < |positions| && positions[marks[k].0] < |Children(v)|
          && marks[k].1 < |Candidates(Children(v)[positions[marks[k].0]], maxDepth)|
          && edits[k] == WithChild(v, positions[marks[k].0], Candidates(Children(v)[positions[marks[k].0]], maxDepth)[marks[k].1]))
    && forall a, b :: 0 <= a < b < |marks| ==> marks[a].0 < marks[b].0 || (marks[a].0 == marks[b].0 && marks[a].1 < marks[b].1)
  }

  function FirstMarks(n: nat): (r: seq<(nat, nat)>)
    ensures |r| == n && forall k :: 0 <= k < n ==> r[k] == (0, k)
  {
    if n == 0 then [] else FirstMarks(n - 1) + [(0, n - 1)]
  }

  function LaterMarks(marks: seq<(nat, nat)>): (r: seq<(nat, nat)>)
    ensures |r| == |marks| && forall k :: 0 <= k < |r| ==> r[k] == (marks[k].0 + 1, marks[k].1)
  {
    if marks == [] then [] else [(marks[0].0 + 1, marks[0].1)] + LaterMarks(marks[1..])
  }

  lemma FirstEdits(v: Value, ps: seq<nat>, maxDepth: nat)
    requires IsContainer(v) && |ps| <= |Children(v)| && Within(ps, |Children(v)|)
    ensures Edits(v, ps, maxDepth) ==
      if ps == [] then [] else EditsOfChild(v, ps[0], Candidates(Children(v)[ps[0]], maxDepth)) + Edits(v, ps[1..], maxDepth)
  {
    hide Candidates;
  }

  lemma FrontMarks(v: Value, positions: seq<nat>, maxDepth: nat)
    requires IsContainer(v) && positions != [] && Within(positions, |Children(v)|)
    ensures var cs := Candidates(Children(v)[positions[0]], maxDepth);
      EditMarks(v, positions, maxDepth, EditsOfChild(v, positions[0], cs), FirstMarks(|cs|))
  {
    hide Candidates, Children, WithChild;
  }

  lemma ShiftMarks(v: Value, positions: seq<nat>, maxDepth: nat, edits: seq<Value>, marks: seq<(nat, nat)>)
    requires IsContainer(v) && positions != [] && EditMarks(v, positions[1..], maxDepth, edits, marks)
    ensures EditMarks(v, positions, maxDepth, edits, LaterMarks(marks))
  {
    hide Candidates, Children, WithChild;
    assert forall k :: 0 <= k < |marks| ==> positions[1..][marks[k].0] == positions[marks[k].0 + 1];
  }

  lemma JoinMarks(v: Value, positions: seq<nat>, maxDepth: nat, front: seq<Value>, rest: seq<Value>, a: seq<(nat, nat)>, b: seq<(nat, nat)>)
    requires IsContainer(v) && EditMarks(v, positions, maxDepth, front, a) && EditMarks(v, positions, maxDepth, rest, b)
    requires forall i, j :: 0 <= i < |a| && 0 <= j < |b| ==> a[i].0 < b[j].0
    ensures EditMarks(v, positions, maxDepth, front + rest, a + b)
  {
    hide Candidates, Children, WithChild;
  }

  lemma MoreMarks(v: Value, positions: seq<nat>, maxDepth: nat, later: seq<(nat, nat)>) returns (marks: seq<(nat, nat)>)
    requires IsContainer(v) && positions != [] && |positions| <= |Children(v)| && Within(positions, |Children(v)|)
    requires EditMarks(v, positions[1..], maxDepth, Edits(v, positions[1..], maxDepth), later)
    ensures EditMarks(v, positions, maxDepth,
      EditsOfChild(v, positions[0], Candidates(Children(v)[positions[0]], maxDepth)) + Edits(v, positions[1..], maxDepth), marks)
  {
    hide Candidates, Children, Edits, EditMarks, FirstMarks, LaterMarks, EditsOfChild;
    var cs, rest := Candidates(Children(v)[positions[0]], maxDepth), Edits(v, positions[1..], maxDepth);
    FrontMarks(v, positions, maxDepth);
    ShiftMarks(v, positions, maxDepth, rest, later);
    var front, behind := FirstMarks(|cs|), LaterMarks(later);
    assert forall i :: 0 <= i < |front| ==> front[i].0 == 0;
    assert forall j :: 0 <= j < |behind| ==> behind[j].0 > 0;
    marks := front + behind;
    JoinMarks(v, positions, maxDepth, EditsOfChild(v, positions[0], cs), rest, front, behind);
  }

  /** Children are edited in the order of the positions, each by its own candidates in their order. */
  lemma {:induction false} EditsInTurn(v: Value, positions: seq<nat>, maxDepth: nat) returns (marks: seq<(nat, nat)>)
    requires IsContainer(v) && |positions| <= |Children(v)| && Within(positions, |Children(v)|)
    ensures EditMarks(v, positions, maxDepth, Edits(v, positions, maxDepth), marks)
    decreases |positions|
  {
    FirstEdits(v, positions, maxDepth);
    if positions == [] {
      marks := [];
    } else {
      hide Candidates, Children, Edits, EditMarks, EditsOfChild;
      marks := EditsInTurn(v, positions[1..], maxDepth);
      marks := MoreMarks(v, positions, maxDepth, marks);
    }
  }

  /** A container first loses children, and only then are children edited. */
  lemma DeletionsComeFirst(v: Value, maxDepth: nat)
    requires IsContainer(v)
    ensures Deletions(v) <= Candidates(v, maxDepth)
    ensures forall k :: 0 <= k < |Candidates(v, maxDepth)| ==>
      IsContainer(Candidates(v, maxDepth)[k]) && (k < |Deletions(v)| <==> |Children(Candidates(v, maxDepth)[k])| < |Children(v)|)
  {
    hide Candidates, Edits, Deletions, Positions, Children, EditMarks;
    ContainerCandidates(v, maxDepth);
    var cs := Candidates(v, maxDepth);
    forall k | 0 <= k < |cs|
      ensures IsContainer(cs[k]) && (k < |Deletions(v)| <==> |Children(cs[k])| < |Children(v)|)
    {
      if k < |Deletions(v)| {
        assert cs[k] == Deletions(v)[k];
        DeletionLosesChildren(v, cs[k]);
      } else {
        EditKeepsChildren(v, Positions(v), maxDepth - 1, k - |Deletions(v)|);
      }
    }
  }

  lemma EditKeepsChildren(v: Value, positions: seq<nat>, maxDepth: nat, k: nat)
    requires IsContainer(v) && |positions| <= |Children(v)| && Within(positions, |Children(v)|) && k < |Edits(v, positions, maxDepth)|
    ensures var c := Edits(v, positions, maxDepth)[k]; IsContainer(c) && |Children(c)| == |Children(v)|
  {
    hide Candidates, Edits, Children;
    var marks := EditsInTurn(v, positions, maxDepth);
    assert Edits(v, positions, maxDepth)[k] == WithChild(v, positions[marks[k].0], Candidates(Children(v)[positions[marks[k].0]], maxDepth)[marks[k].1]);
  }

  lemma DeletionLosesChildren(v: Value, c: Value)
    requires IsContainer(v) && c in Deletions(v)
    ensures IsContainer(c) && |Children(c)| < |Children(v)|
  {
    hide Removals, ChunksFrom, Positions;
    match v
    case Arr(items) =>
      AllChunksFit(|items|, |items|);
      RemovalLosesChildren(v, ChunksFrom(|items|, |items|), c);
    case Obj(entries) =>
      RemovalLosesChildren(v, Singles(Positions(v)), c);
  }

  lemma RemovalLosesChildren(v: Value, chunks: seq<(nat, nat)>, c: Value)
    requires IsContainer(v) && Fit(chunks, |Children(v)|) && c in Removals(v, chunks)
    ensures IsContainer(c) && |Children(c)| < |Children(v)|
  {
    hide Children;
    var k :| 0 <= k < |chunks| && Removals(v, chunks)[k] == c;
  }
}
