/**
 Grouping of findings by pairwise similarity: an in-place union-find with path
 compression and no ranks, driven by every same-risk pair whose score reaches the
 threshold.  The clusters are proved to be the connected components of those pairs.
 */
module Clustering {
  import opened Results
  import opened Sorting

  datatype Severity = Critical | High | Medium | Low | Info

  function Rank(s: Severity): nat {
    match s
    case Critical => 0
    case High => 1
    case Medium => 2
    case Low => 3
    case Info => 4
  }

  function WorseSeverity(a: Severity, b: Severity): Severity {
    if Rank(a) <= Rank(b) then a else b
  }

  /** A finding with its fingerprint, and the root cause that it names, if it does. */
  datatype Finding = Finding(id: string, riskId: string, severity: Severity, discoveredAt: int, priority: real,
                             signature: string, rootCause: Option<string>)

  /** A recorded similarity edge; findings are named by their ids, as in the report. */
  datatype Edge = Edge(leftId: string, rightId: string, score: real)

  datatype Cluster = Cluster(
    signature: string,
    rootCause: string,
    members: seq<nat>,          // positions in the input, ordered by discoveredAt
    representative: nat,
    severity: Severity,
    priority: real,
    edges: seq<Edge>)

  datatype ClusteringError = ThresholdOutOfRange | TooManyFindings | BadDimension

  /** The number that toFixed(6) writes: the nearest one with six digits, and of two the one further from zero. */
  function Rounded(x: real): (r: real)
    ensures -0.0000005 <= r - x <= 0.0000005 && (r - x == 0.0000005 ==> x > 0.0) && (r - x == -0.0000005 ==> x < 0.0)
    ensures exists n: int :: r == Digits(n)
  {
    var n: int := if x < 0.0 then -(0.5 - x * 1000000.0).Floor else (x * 1000000.0 + 0.5).Floor;
    assert Digits(n) == n as real / 1000000.0;
    Digits(n)
  }

  function Digits(n: int): real {
    n as real / 1000000.0
  }

  /** The root cause that is named, or one made from the fingerprint. */
  function RootCauseOf(f: Finding): string {
    if f.rootCause.Some? then f.rootCause.value else "root-" + if |f.signature| <= 24 then f.signature else f.signature[..24]
  }

  type Scorer = (Finding, Finding) -> real

  /** How two findings are compared: by their tokens, or by the cosine of the vectors that the caller embeds them in. */
  datatype Similarity = ByTokens(similarity: Scorer) | ByEmbedding(embed: Finding -> seq<real>, cosine: (seq<real>, seq<real>) -> real)

  const MAX_DIMENSION := 4_096

  function ScorerOf(s: Similarity): Scorer {
    match s
    case ByTokens(similarity) => similarity
    case ByEmbedding(embed, cosine) => (a, b) => cosine(embed(a), embed(b))
  }

  predicate BoundedVector(s: Similarity, f: Finding) {
    s.ByEmbedding? ==> 0 < |s.embed(f)| <= MAX_DIMENSION
  }

  /** Findings for one risk are compared, which fails when their vectors differ in dimension. */
  predicate Comparable(s: Similarity, a: Finding, b: Finding) {
    a.riskId == b.riskId && s.ByEmbedding? ==> |s.embed(a)| == |s.embed(b)|
  }

  /** Every vector is bounded and no two findings for one risk differ in dimension. */
  ghost predicate VectorsFit(fs: seq<Finding>, s: Similarity) {
    && (forall f :: f in fs ==> BoundedVector(s, f))
    && RowsComparable(fs, s, |fs|)
  }

  ghost predicate RowsComparable(fs: seq<Finding>, s: Similarity, n: nat)
    requires n <= |fs|
  {
    forall i, j :: 0 <= i < n && i < j < |fs| ==> Comparable(s, fs[i], fs[j])
  }

  // ---------------------------------------------------------------------------------------
  // The relation the clusters are specified by
  // ---------------------------------------------------------------------------------------

  ghost predicate Linked(fs: seq<Finding>, score: Scorer, threshold: real, i: nat, j: nat)
    requires i < |fs| && j < |fs|
  {
    fs[i].riskId == fs[j].riskId && score(fs[i], fs[j]) >= threshold
  }

  /** The linked pairs (i, j), i < j, that come before position (left, right) in the double loop. */
  ghost function LinksBefore(fs: seq<Finding>, score: Scorer, threshold: real, left: nat, right: nat): set<(nat, nat)>
  {
    set i: nat, j: nat | 0 <= i < |fs| && 0 <= j < |fs| && i < j && (i < left || (i == left && j < right)) && Linked(fs, score, threshold, i, j) :: (i, j)
  }

  ghost function Links(fs: seq<Finding>, score: Scorer, threshold: real): set<(nat, nat)> {
    LinksBefore(fs, score, threshold, |fs|, 0)
  }

  ghost predicate Adjacent(links: set<(nat, nat)>, a: nat, b: nat) {
    (a, b) in links || (b, a) in links
  }

  ghost predicate IsChain(links: set<(nat, nat)>, p: seq<nat>) {
    forall k :: 0 <= k < |p| - 1 ==> Adjacent(links, p[k], p[k + 1])
  }

  ghost predicate ChainFromTo(links: set<(nat, nat)>, p: seq<nat>, a: nat, b: nat) {
    |p| > 0 && p[0] == a && p[|p| - 1] == b && IsChain(links, p)
  }

  /** a and b are joined by a chain of links, in either direction. */
  ghost predicate Connected(links: set<(nat, nat)>, a: nat, b: nat) {
    exists p: seq<nat> :: ChainFromTo(links, p, a, b)
  }

  lemma ConnectedRefl(links: set<(nat, nat)>, a: nat)
    ensures Connected(links, a, a)
  {
    assert ChainFromTo(links, [a], a, a);
  }

  lemma ConnectedStep(links: set<(nat, nat)>, a: nat, b: nat)
    requires Adjacent(links, a, b)
    ensures Connected(links, a, b)
  {
    assert ChainFromTo(links, [a, b], a, b);
  }

  lemma ConnectedTrans(links: set<(nat, nat)>, a: nat, b: nat, c: nat)
    requires Connected(links, a, b) && Connected(links, b, c)
    ensures Connected(links, a, c)
  {
    var p :| ChainFromTo(links, p, a, b);
    var q :| ChainFromTo(links, q, b, c);
    var r := p + q[1..];
    forall k | 0 <= k < |r| - 1
      ensures Adjacent(links, r[k], r[k + 1])
    {
      if k < |p| - 1 {
        assert Adjacent(links, p[k], p[k + 1]);
      } else {
        assert r[k] == q[k - (|p| - 1)];
        assert Adjacent(links, q[k - (|p| - 1)], q[k - (|p| - 1) + 1]);
      }
    }
    assert ChainFromTo(links, r, a, c);
  }

  lemma ConnectedMonotone(links: set<(nat, nat)>, more: set<(nat, nat)>, a: nat, b: nat)
    requires links <= more && Connected(links, a, b)
    ensures Connected(more, a, b)
  {
    var p :| ChainFromTo(links, p, a, b);
    forall k | 0 <= k < |p| - 1
      ensures Adjacent(more, p[k], p[k + 1])
    {
      assert Adjacent(links, p[k], p[k + 1]);
    }
    assert ChainFromTo(more, p, a, b);
  }

  // ---------------------------------------------------------------------------------------
  // The parent array
  // ---------------------------------------------------------------------------------------

  /**
   The forest invariant.  root[i] is the representative that following parents from i leads
   to, and depth is a measure that falls along every parent step, which is what makes the
   search for a root terminate.
   */
  ghost predicate Forest(parent: seq<nat>, root: seq<nat>, depth: seq<nat>) {
    && |parent| == |root| == |depth|
    && forall i :: 0 <= i < |parent| ==> Placed(parent, root, depth, i)
  }

  ghost predicate Placed(parent: seq<nat>, root: seq<nat>, depth: seq<nat>, i: nat)
    requires |parent| == |root| == |depth| && i < |parent|
  {
    && parent[i] < |parent|
    && root[i] < |parent|
    && root[parent[i]] == root[i]
    && root[root[i]] == root[i]
    && parent[root[i]] == root[i]
    && (parent[i] == i <==> depth[i] == 0)
    && (parent[i] == i <==> root[i] == i)
    && (parent[i] != i ==> depth[parent[i]] < depth[i])
  }

  /** The classes of the partition are exactly the components of the links. */
  ghost predicate Components(root: seq<nat>, links: set<(nat, nat)>) {
    && (forall i, j :: (i, j) in links ==> i < |root| && j < |root|)
    && forall a: nat, b: nat :: a < |root| && b < |root| ==> (root[a] == root[b] <==> Connected(links, a, b))
  }

  /** Finds the root of start and points every node on the way at it. */
  method Find(parent: array<nat>, start: nat, ghost root: seq<nat>, ghost depth: seq<nat>) returns (r: nat)
    requires start < parent.Length
    requires Forest(parent[..], root, depth)
    modifies parent
    ensures r == root[start]
    ensures Forest(parent[..], root, depth)
  {
    r := start;
    assert Placed(parent[..], root, depth, start);
    while parent[r] != r
      invariant r < parent.Length && root[r] == root[start]
      decreases depth[r]
    {
      assert Placed(parent[..], root, depth, r);
      r := parent[r];
    }
    assert Placed(parent[..], root, depth, r);
    var index: nat := start;
    while parent[index] != index
      invariant index < parent.Length == |root| == |depth| && r < parent.Length
      invariant Forest(parent[..], root, depth)
      invariant root[index] == r && parent[r] == r
      decreases depth[index]
    {
      assert Placed(parent[..], root, depth, index);
      ghost var before := parent[..];
      var next: nat := parent[index];
      CompressedForest(before, root, depth, index);
      parent[index] := r;
      assert parent[..] == before[index := r];
      index := next;
    }
  }

  /** Pointing a node straight at its root changes no class. */
  lemma CompressedForest(parent: seq<nat>, root: seq<nat>, depth: seq<nat>, index: nat)
    requires Forest(parent, root, depth) && index < |parent| && parent[index] != index
    ensures root[index] < |parent| && Forest(parent[index := root[index]], root, depth)
  {
    assert Placed(parent, root, depth, index);
    var shorter := parent[index := root[index]];
    forall i | 0 <= i < |parent|
      ensures Placed(shorter, root, depth, i)
    {
      assert Placed(parent, root, depth, i);
      assert Placed(parent, root, depth, root[i]);
    }
  }

  /** The representatives after the class of right has been joined to the class of left. */
  ghost function Merge(root: seq<nat>, left: nat, right: nat): (r: seq<nat>)
    requires left < |root| && right < |root|
    ensures |r| == |root|
  {
    seq(|root|, i requires 0 <= i < |root| => if root[i] == root[right] then root[left] else root[i])
  }

  ghost function Deepen(depth: seq<nat>, root: seq<nat>, left: nat, right: nat): (r: seq<nat>)
    requires left < |root| && right < |root| && |depth| == |root|
    ensures |r| == |root|
  {
    seq(|root|, i requires 0 <= i < |root| => if root[i] == root[right] && root[left] != root[right] then depth[i] + 1 else depth[i])
  }

  method Union(parent: array<nat>, left: nat, right: nat, ghost root: seq<nat>, ghost depth: seq<nat>)
    requires left < parent.Length && right < parent.Length
    requires Forest(parent[..], root, depth)
    modifies parent
    ensures |root| == |depth| == parent.Length
    ensures Forest(parent[..], Merge(root, left, right), Deepen(depth, root, left, right))
  {
    var leftRoot := Find(parent, left, root, depth);
    var rightRoot := Find(parent, right, root, depth);
    ghost var before := parent[..];
    JoinedForest(before, root, depth, left, right);
    if leftRoot != rightRoot {
      parent[rightRoot] := leftRoot;
      assert parent[..] == before[rightRoot := leftRoot];
    }
  }

  /** Hanging the right root under the left root leaves a forest, with the two classes merged. */
  lemma JoinedForest(parent: seq<nat>, root: seq<nat>, depth: seq<nat>, left: nat, right: nat)
    requires left < |parent| && right < |parent| && Forest(parent, root, depth)
    ensures root[left] < |parent| && root[right] < |parent|
    ensures var joined := if root[left] == root[right] then parent else parent[root[right] := root[left]];
      Forest(joined, Merge(root, left, right), Deepen(depth, root, left, right))
  {
    var merged, deeper := Merge(root, left, right), Deepen(depth, root, left, right);
    var l, r := root[left], root[right];
    assert Placed(parent, root, depth, left) && Placed(parent, root, depth, right);
    if l == r {
      assert merged == root && deeper == depth;
    } else {
      var joined := parent[r := l];
      forall i | 0 <= i < |joined|
        ensures Placed(joined, merged, deeper, i)
      {
        assert Placed(parent, root, depth, i);
        assert Placed(parent, root, depth, l) && Placed(parent, root, depth, r);
      }
    }
  }

  /** Joining two classes and recording the link between them keeps classes and components the same. */
  lemma MergeKeepsComponents(root: seq<nat>, links: set<(nat, nat)>, left: nat, right: nat)
    requires left < |root| && right < |root|
    requires Components(root, links)
    ensures Components(Merge(root, left, right), links + {(left, right)})
  {
    var merged, more := Merge(root, left, right), links + {(left, right)};
    forall i, j | (i, j) in more
      ensures i < |root| && j < |root| && merged[i] == merged[j]
    {
      if (i, j) in links {
        ConnectedStep(links, i, j);
      }
    }
    forall a: nat, b: nat | a < |root| && b < |root|
      ensures merged[a] == merged[b] <==> Connected(more, a, b)
    {
      if Connected(more, a, b) {
        var p :| ChainFromTo(more, p, a, b);
        ChainStaysInClass(merged, more, p);
      }
      if merged[a] == merged[b] {
        MergedAreConnected(root, links, left, right, a, b);
      }
    }
  }

  lemma {:induction false} ChainStaysInClass(root: seq<nat>, links: set<(nat, nat)>, p: seq<nat>)
    requires |p| > 0 && IsChain(links, p) && p[0] < |root|
    requires forall i, j :: (i, j) in links ==> i < |root| && j < |root| && root[i] == root[j]
    ensures p[|p| - 1] < |root| && root[p[0]] == root[p[|p| - 1]]
  {
    if |p| > 1 {
      assert Adjacent(links, p[0], p[1]);
      forall k | 0 <= k < |p[1..]| - 1
        ensures Adjacent(links, p[1..][k], p[1..][k + 1])
      {
        assert Adjacent(links, p[k + 1], p[k + 1 + 1]);
      }
      ChainStaysInClass(root, links, p[1..]);
    }
  }

  lemma MergedAreConnected(root: seq<nat>, links: set<(nat, nat)>, left: nat, right: nat, a: nat, b: nat)
    requires left < |root| && right < |root| && a < |root| && b < |root|
    requires Components(root, links)
    requires Merge(root, left, right)[a] == Merge(root, left, right)[b]
    ensures Connected(links + {(left, right)}, a, b)
  {
    var more := links + {(left, right)};
    ConnectedStep(more, left, right);
    ConnectedStep(more, right, left);
    if root[a] == root[b] {
      ConnectedMonotone(links, more, a, b);
    } else if root[a] == root[right] {
      ConnectedMonotone(links, more, a, right);
      ConnectedMonotone(links, more, left, b);
      ConnectedTrans(more, a, right, left);
      ConnectedTrans(more, a, left, b);
    } else {
      ConnectedMonotone(links, more, a, left);
      ConnectedMonotone(links, more, right, b);
      ConnectedTrans(more, a, left, right);
      ConnectedTrans(more, a, right, b);
    }
  }

  lemma NoLinksNoClasses(n: nat, root: seq<nat>)
    requires |root| == n && forall i :: 0 <= i < n ==> root[i] == i
    ensures Components(root, {})
  {
    forall a: nat, b: nat | a < n && b < n
      ensures root[a] == root[b] <==> Connected({}, a, b)
    {
      if Connected({}, a, b) {
        var p :| ChainFromTo({}, p, a, b);
        ChainStaysInClass(root, {}, p);
      } else {
        ConnectedRefl({}, a);
      }
    }
  }

  /** What the double loop has established once the links so far have been joined. */
  ghost predicate JoinedSoFar(fs: seq<Finding>, score: Scorer, parent: seq<nat>, root: seq<nat>, depth: seq<nat>, edges: seq<Edge>, links: set<(nat, nat)>) {
    |root| == |fs| && Forest(parent, root, depth) && Components(root, links) && EdgesRecord(fs, score, edges, links)
  }

  /** Records and joins one linked pair. */
  method JoinPair(fs: seq<Finding>, score: Scorer, left: nat, right: nat, parent: array<nat>, before: seq<Edge>,
                  ghost root0: seq<nat>, ghost depth0: seq<nat>, ghost links: set<(nat, nat)>)
    returns (edges: seq<Edge>, ghost root: seq<nat>, ghost depth: seq<nat>)
    requires left < right < |fs|
    requires JoinedSoFar(fs, score, parent[..], root0, depth0, before, links)
    modifies parent
    ensures JoinedSoFar(fs, score, parent[..], root, depth, edges, links + {(left, right)})
  {
    edges := before + [Edge(fs[left].id, fs[right].id, Rounded(score(fs[left], fs[right])))];
    Union(parent, left, right, root0, depth0);
    MergeKeepsComponents(root0, links, left, right);
    root, depth := Merge(root0, left, right), Deepen(depth0, root0, left, right);
    RecordEdge(fs, score, before, links, (left, right));
  }

  /** The inner loop: compares one finding with all later ones, until two cannot be compared. */
  method JoinRow(fs: seq<Finding>, s: Similarity, threshold: real, left: nat, parent: array<nat>, before: seq<Edge>,
                 ghost root0: seq<nat>, ghost depth0: seq<nat>)
    returns (ok: bool, edges: seq<Edge>, ghost root: seq<nat>, ghost depth: seq<nat>)
    requires left < |fs|
    requires JoinedSoFar(fs, ScorerOf(s), parent[..], root0, depth0, before, LinksBefore(fs, ScorerOf(s), threshold, left, left + 1))
    modifies parent
    ensures ok <==> forall j :: left < j < |fs| ==> Comparable(s, fs[left], fs[j])
    ensures ok ==> JoinedSoFar(fs, ScorerOf(s), parent[..], root, depth, edges, LinksBefore(fs, ScorerOf(s), threshold, left + 1, left + 2))
  {
    var score := ScorerOf(s);
    edges, root, depth := before, root0, depth0;
    for right := left + 1 to |fs|
      invariant forall j :: left < j < right ==> Comparable(s, fs[left], fs[j])
      invariant JoinedSoFar(fs, score, parent[..], root, depth, edges, LinksBefore(fs, score, threshold, left, right))
    {
      NextPair(fs, score, threshold, left, right);
      if fs[left].riskId == fs[right].riskId {
        if !Comparable(s, fs[left], fs[right]) {
          return false, edges, root, depth;
        }
        if score(fs[left], fs[right]) >= threshold {
          edges, root, depth := JoinPair(fs, score, left, right, parent, edges, root, depth, LinksBefore(fs, score, threshold, left, right));
        }
      }
    }
    NextRow(fs, score, threshold, left);
    ok := true;
  }

  /** The double loop: afterwards two findings share a root exactly when a chain of links joins them. */
  method JoinSimilar(fs: seq<Finding>, s: Similarity, threshold: real)
    returns (ok: bool, parent: array<nat>, edges: seq<Edge>, ghost root: seq<nat>, ghost depth: seq<nat>)
    ensures fresh(parent) && parent.Length == |fs|
    ensures ok <==> RowsComparable(fs, s, |fs|)
    ensures ok ==> JoinedSoFar(fs, ScorerOf(s), parent[..], root, depth, edges, Links(fs, ScorerOf(s), threshold))
  {
    parent := new nat[|fs|](i => i);
    edges := [];
    root := seq(|fs|, i => i);
    depth := seq(|fs|, i => 0);
    NoLinksNoClasses(|fs|, root);
    assert LinksBefore(fs, ScorerOf(s), threshold, 0, 1) == {};
    for left := 0 to |fs|
      invariant RowsComparable(fs, s, left)
      invariant JoinedSoFar(fs, ScorerOf(s), parent[..], root, depth, edges, LinksBefore(fs, ScorerOf(s), threshold, left, left + 1))
    {
      ok, edges, root, depth := JoinRow(fs, s, threshold, left, parent, edges, root, depth);
      if !ok {
        return;
      }
    }
    assert LinksBefore(fs, ScorerOf(s), threshold, |fs|, |fs| + 1) == Links(fs, ScorerOf(s), threshold);
    ok := true;
  }

  lemma NextPair(fs: seq<Finding>, score: Scorer, threshold: real, left: nat, right: nat)
    requires left < right < |fs|
    ensures LinksBefore(fs, score, threshold, left, right + 1) ==
      if Linked(fs, score, threshold, left, right)
      then LinksBefore(fs, score, threshold, left, right) + {(left, right)}
      else LinksBefore(fs, score, threshold, left, right)
  {
  }

  lemma NextRow(fs: seq<Finding>, score: Scorer, threshold: real, left: nat)
    requires left < |fs|
    ensures LinksBefore(fs, score, threshold, left, |fs|) == LinksBefore(fs, score, threshold, left + 1, left + 2)
  {
  }

  lemma RecordEdge(fs: seq<Finding>, score: Scorer, edges: seq<Edge>, links: set<(nat, nat)>, link: (nat, nat))
    requires EdgesRecord(fs, score, edges, links) && link.0 < |fs| && link.1 < |fs|
    ensures EdgesRecord(fs, score, edges + [EdgeOf(fs, score, link)], links + {link})
  {
    var more := edges + [EdgeOf(fs, score, link)];
    forall e | e in more
      ensures exists l :: l in links + {link} && l.0 < |fs| && l.1 < |fs| && EdgeOf(fs, score, l) == e
    {
      if e == EdgeOf(fs, score, link) {
        assert link in links + {link};
      } else {
        assert e in edges;
        var l :| l in links && l.0 < |fs| && l.1 < |fs| && EdgeOf(fs, score, l) == e;
        assert l in links + {link};
      }
    }
  }

  ghost function EdgeOf(fs: seq<Finding>, score: Scorer, link: (nat, nat)): Edge
    requires link.0 < |fs| && link.1 < |fs|
  {
    Edge(fs[link.0].id, fs[link.1].id, Rounded(score(fs[link.0], fs[link.1])))
  }

  /** The recorded edges are exactly those of the links. */
  ghost predicate EdgesRecord(fs: seq<Finding>, score: Scorer, edges: seq<Edge>, links: set<(nat, nat)>) {
    && (forall l :: l in links ==> l.0 < |fs| && l.1 < |fs| && EdgeOf(fs, score, l) in edges)
    && forall e :: e in edges ==> exists l :: l in links && l.0 < |fs| && l.1 < |fs| && EdgeOf(fs, score, l) == e
  }

  // ---------------------------------------------------------------------------------------
  // Groups and clusters
  // ---------------------------------------------------------------------------------------

  /** The positions below n whose root is r, in input order. */
  ghost function Bucket(root: seq<nat>, r: nat, n: nat): seq<nat>
    requires n <= |root|
  {
    if n == 0 then [] else Bucket(root, r, n - 1) + if root[n - 1] == r then [n - 1] else []
  }

  lemma {:induction false} BucketHolds(root: seq<nat>, r: nat, n: nat)
    requires n <= |root|
    ensures forall i: nat :: i in Bucket(root, r, n) <==> i < n && root[i] == r
    ensures forall i: nat :: i in Bucket(root, r, n) ==> multiset(Bucket(root, r, n))[i] == 1
  {
    if n > 0 {
      BucketHolds(root, r, n - 1);
    }
  }

  lemma {:induction false} BucketStartsFirst(root: seq<nat>, r: nat, n: nat)
    requires n <= |root|
    ensures forall k :: 0 <= k < |Bucket(root, r, n)| ==> Bucket(root, r, n)[0] <= Bucket(root, r, n)[k] < n
  {
    if n > 0 {
      BucketStartsFirst(root, r, n - 1);
    }
  }

  /** The distinct roots of the first n positions, in the order in which they are first met. */
  ghost function FirstRoots(root: seq<nat>, n: nat): seq<nat>
    requires n <= |root|
  {
    if n == 0 then []
    else
      var before := FirstRoots(root, n - 1);
      if root[n - 1] in before then before else before + [root[n - 1]]
  }

  lemma {:induction false} FirstRootsAreTheRoots(root: seq<nat>, n: nat)
    requires n <= |root|
    ensures forall i :: 0 <= i < n ==> root[i] in FirstRoots(root, n)
    ensures forall a, b :: 0 <= a < b < |FirstRoots(root, n)| ==> FirstRoots(root, n)[a] != FirstRoots(root, n)[b]
  {
    if n > 0 {
      FirstRootsAreTheRoots(root, n - 1);
      var before := FirstRoots(root, n - 1);
      assert forall a :: 0 <= a < |before| ==> before[a] in before;
    }
  }

  lemma {:induction false} FirstRootsHaveBuckets(root: seq<nat>, n: nat, r: nat)
    requires n <= |root|
    ensures r in FirstRoots(root, n) <==> Bucket(root, r, n) != []
  {
    if n > 0 {
      FirstRootsHaveBuckets(root, n - 1, r);
    }
  }

  /** What the group table holds after the first n findings: one bucket for each root met so far. */
  ghost predicate GroupsUpTo(root: seq<nat>, n: nat, order: seq<nat>, buckets: map<nat, seq<nat>>)
    requires n <= |root|
  {
    && order == FirstRoots(root, n)
    && (forall r :: r in order <==> r in buckets)
    && (forall r :: r in buckets ==> buckets[r] == Bucket(root, r, n))
  }

  lemma AddToGroup(root: seq<nat>, n: nat, order: seq<nat>, buckets: map<nat, seq<nat>>)
    requires n < |root| && GroupsUpTo(root, n, order, buckets)
    ensures var key := root[n];
      var bucket := (if key in buckets then buckets[key] else []) + [n];
      GroupsUpTo(root, n + 1, if key in buckets then order else order + [key], buckets[key := bucket])
  {
    FirstRootsHaveBuckets(root, n, root[n]);
  }

  /** Fills the group table: every root is looked up twice, as the original does. */
  method GroupByRoot(fs: seq<Finding>, parent: array<nat>, ghost root: seq<nat>, ghost depth: seq<nat>)
    returns (order: seq<nat>, buckets: map<nat, seq<nat>>)
    requires parent.Length == |fs| && Forest(parent[..], root, depth)
    modifies parent
    ensures |root| == |fs| && GroupsUpTo(root, |fs|, order, buckets)
  {
    buckets := map[];
    order := [];
    for index := 0 to |fs|
      invariant Forest(parent[..], root, depth)
      invariant GroupsUpTo(root, index, order, buckets)
    {
      var first := Find(parent, index, root, depth);
      var bucket := (if first in buckets then buckets[first] else []) + [index];
      var key := Find(parent, index, root, depth);
      AddToGroup(root, index, order, buckets);
      if key !in buckets {
        order := order + [key];
      }
      buckets := buckets[key := bucket];
    }
  }

  /** members lists the class of r, each position once. */
  ghost predicate ListsClass(root: seq<nat>, r: nat, members: seq<nat>) {
    && members != []
    && (forall k :: 0 <= k < |members| ==> members[k] < |root|)
    && (forall i: nat :: i in members <==> i < |root| && root[i] == r)
    && (forall i: nat :: i in members ==> multiset(members)[i] == 1)
  }

  lemma BucketListsClass(root: seq<nat>, r: nat, members: seq<nat>)
    requires members != [] && multiset(members) == multiset(Bucket(root, r, |root|))
    ensures ListsClass(root, r, members)
  {
    BucketHolds(root, r, |root|);
    SameElements(members, Bucket(root, r, |root|));
    forall k | 0 <= k < |members|
      ensures members[k] < |root|
    {
      assert members[k] in members;
    }
  }

  lemma {:induction false} DistinctOnce<T>(xs: seq<T>)
    requires forall a, b :: 0 <= a < b < |xs| ==> xs[a] != xs[b]
    ensures forall x :: x in xs ==> multiset(xs)[x] == 1
  {
    if xs != [] {
      var rest := xs[1..];
      assert xs == [xs[0]] + rest;
      DistinctOnce(rest);
      assert xs[0] !in rest;
      assert multiset(xs)[xs[0]] == 1 + multiset(rest)[xs[0]];
    }
  }

  predicate Earlier(fs: seq<Finding>, a: nat, b: nat) {
    (if a < |fs| then fs[a].discoveredAt else 0) <= (if b < |fs| then fs[b].discoveredAt else 0)
  }

  predicate MoreUrgent(a: Cluster, b: Cluster) {
    Rank(a.severity) < Rank(b.severity) || (a.severity == b.severity && a.priority >= b.priority)
  }

  function WorstOf(fs: seq<Finding>, members: seq<nat>): (s: Severity)
    requires members != [] && forall k :: 0 <= k < |members| ==> members[k] < |fs|
    ensures exists k :: 0 <= k < |members| && fs[members[k]].severity == s
    ensures forall k :: 0 <= k < |members| ==> Rank(s) <= Rank(fs[members[k]].severity)
  {
    var n := |members| - 1;
    if n == 0 then fs[members[0]].severity
    else WorseSeverity(WorstOf(fs, members[..n]), fs[members[n]].severity)
  }

  function MaxPriority(fs: seq<Finding>, members: seq<nat>): (p: real)
    requires members != [] && forall k :: 0 <= k < |members| ==> members[k] < |fs|
    ensures exists k :: 0 <= k < |members| && fs[members[k]].priority == p
    ensures forall k :: 0 <= k < |members| ==> fs[members[k]].priority <= p
  {
    var n := |members| - 1;
    if n == 0 then fs[members[0]].priority
    else
      var p := MaxPriority(fs, members[..n]);
      if p >= fs[members[n]].priority then p else fs[members[n]].priority
  }

  function EdgesWithin(edges: seq<Edge>, ids: set<string>): (r: seq<Edge>)
    ensures forall e :: e in r <==> e in edges && e.leftId in ids && e.rightId in ids
  {
    if edges == [] then []
    else (if edges[0].leftId in ids && edges[0].rightId in ids then [edges[0]] else []) + EdgesWithin(edges[1..], ids)
  }

  function MakeCluster(fs: seq<Finding>, edges: seq<Edge>, members: seq<nat>): (c: Cluster)
    requires members != [] && forall k :: 0 <= k < |members| ==> members[k] < |fs|
    ensures multiset(c.members) == multiset(members)
  {
    var ordered := OrderMembers(fs, members);
    var ids := set i | i in ordered :: fs[i].id;
    Cluster(fs[members[0]].signature, RootCauseOf(fs[members[0]]), ordered, ordered[0], WorstOf(fs, ordered), MaxPriority(fs, ordered), EdgesWithin(edges, ids))
  }

  function OrderMembers(fs: seq<Finding>, members: seq<nat>): (ordered: seq<nat>)
    requires members != [] && forall k :: 0 <= k < |members| ==> members[k] < |fs|
    ensures multiset(ordered) == multiset(members)
    ensures ordered != [] && forall k :: 0 <= k < |ordered| ==> ordered[k] < |fs|
    ensures forall j, k :: 0 <= j < k < |ordered| ==> fs[ordered[j]].discoveredAt <= fs[ordered[k]].discoveredAt
  {
    var ordered := Sort((a: nat, b: nat) => Earlier(fs, a, b), members);
    SameElements(ordered, members);
    SortSorts((a: nat, b: nat) => Earlier(fs, a, b), members);
    assert forall k :: 0 <= k < |ordered| ==> ordered[k] in members;
    assert forall j, k :: 0 <= j < k < |ordered| ==> Earlier(fs, ordered[j], ordered[k]);
    ordered
  }

  /** Of the members, the first in the input. */
  ghost predicate IsFirst(members: seq<nat>, first: nat) {
    first in members && forall i :: i in members ==> first <= i
  }

  /** The derived fields of a cluster are those its members and the recorded edges determine. */
  ghost predicate IsReportOf(fs: seq<Finding>, edges: seq<Edge>, c: Cluster) {
    && c.members != []
    && (forall k :: 0 <= k < |c.members| ==> c.members[k] < |fs|)
    && c.representative == c.members[0]
    && (exists first: nat :: first < |fs| && IsFirst(c.members, first) && c.signature == fs[first].signature && c.rootCause == RootCauseOf(fs[first]))
    && (forall j, k :: 0 <= j < k < |c.members| ==> fs[c.members[j]].discoveredAt <= fs[c.members[k]].discoveredAt)
    && (forall k :: 0 <= k < |c.members| ==> Rank(c.severity) <= Rank(fs[c.members[k]].severity) && fs[c.members[k]].priority <= c.priority)
    && (exists k :: 0 <= k < |c.members| && fs[c.members[k]].severity == c.severity)
    && (exists k :: 0 <= k < |c.members| && fs[c.members[k]].priority == c.priority)
    && ReportsEdges(fs, edges, c)
  }

  /** A cluster reports the recorded edges whose two ids are both ids of its members. */
  ghost predicate ReportsEdges(fs: seq<Finding>, edges: seq<Edge>, c: Cluster) {
    forall e :: e in c.edges <==> e in edges && HasId(fs, c.members, e.leftId) && HasId(fs, c.members, e.rightId)
  }

  ghost predicate HasId(fs: seq<Finding>, members: seq<nat>, id: string) {
    exists i :: i in members && i < |fs| && fs[i].id == id
  }

  lemma ClusterIsReport(fs: seq<Finding>, edges: seq<Edge>, members: seq<nat>)
    requires members != [] && forall k :: 0 <= k < |members| ==> members[0] <= members[k] < |fs|
    ensures IsReportOf(fs, edges, MakeCluster(fs, edges, members))
  {
    var c := MakeCluster(fs, edges, members);
    var ordered := OrderMembers(fs, members);
    var ids := set i | i in ordered :: fs[i].id;
    forall id
      ensures id in ids <==> HasId(fs, ordered, id)
    {
    }
    assert c.edges == EdgesWithin(edges, ids);
    SameElements(c.members, members);
    assert IsFirst(c.members, members[0]);
  }

  // ---------------------------------------------------------------------------------------
  // The whole algorithm
  // ---------------------------------------------------------------------------------------

  ghost predicate InSomeCluster(cs: seq<Cluster>, i: nat) {
    exists c :: c in cs && i in c.members
  }

  /** The clusters partition the n findings, and their classes are the components of the links. */
  ghost predicate AreComponents(cs: seq<Cluster>, n: nat, links: set<(nat, nat)>) {
    && (forall c :: c in cs ==> multiset(cs)[c] == 1)
    && (forall i: nat :: i < n ==> InSomeCluster(cs, i))
    && (forall c, i :: c in cs && i in c.members ==> i < n && multiset(c.members)[i] == 1)
    && (forall c, i: nat, j: nat :: c in cs && i in c.members && j < n ==> (j in c.members <==> Connected(links, i, j)))
  }

  lemma ClassesAreComponents(root: seq<nat>, order: seq<nat>, cs: seq<Cluster>, links: set<(nat, nat)>)
    requires Components(root, links)
    requires |cs| == |order| && forall k :: 0 <= k < |cs| ==> ListsClass(root, order[k], cs[k].members)
    requires forall a, b :: 0 <= a < b < |order| ==> order[a] != order[b]
    requires forall i :: 0 <= i < |root| ==> root[i] in order
    ensures AreComponents(cs, |root|, links)
  {
    forall a, b | 0 <= a < b < |cs|
      ensures cs[a] != cs[b]
    {
      assert cs[a].members[0] in cs[a].members;
      assert ListsClass(root, order[a], cs[a].members) && ListsClass(root, order[b], cs[b].members);
    }
    DistinctOnce(cs);
    forall i: nat | i < |root|
      ensures InSomeCluster(cs, i)
    {
      var k :| 0 <= k < |order| && order[k] == root[i];
      assert ListsClass(root, order[k], cs[k].members);
      assert cs[k] in cs;
    }
    forall c, i: nat | c in cs && i in c.members
      ensures i < |root| && multiset(c.members)[i] == 1
      ensures forall j: nat :: j < |root| ==> (j in c.members <==> Connected(links, i, j))
    {
      var k :| 0 <= k < |cs| && cs[k] == c;
      assert ListsClass(root, order[k], c.members);
      forall j: nat | j < |root|
        ensures j in c.members <==> Connected(links, i, j)
      {
        assert root[i] == root[j] <==> Connected(links, i, j);
      }
    }
  }

  lemma PermutedComponents(cs: seq<Cluster>, ds: seq<Cluster>, n: nat, links: set<(nat, nat)>)
    requires AreComponents(cs, n, links) && multiset(ds) == multiset(cs)
    ensures AreComponents(ds, n, links)
  {
    SameElements(ds, cs);
    forall i: nat | i < n
      ensures InSomeCluster(ds, i)
    {
      assert InSomeCluster(cs, i);
    }
  }

  /** The cluster of one bucket lists that bucket's class and reports on it. */
  ghost predicate ClusterFor(fs: seq<Finding>, edges: seq<Edge>, root: seq<nat>, r: nat, c: Cluster) {
    ListsClass(root, r, c.members) && IsReportOf(fs, edges, c)
  }

  method ClusterOfGroup(fs: seq<Finding>, edges: seq<Edge>, members: seq<nat>, ghost root: seq<nat>, ghost r: nat)
    returns (c: Cluster)
    requires |root| == |fs| && members != [] && members == Bucket(root, r, |root|)
    ensures ClusterFor(fs, edges, root, r, c)
  {
    BucketListsClass(root, r, members);
    BucketStartsFirst(root, r, |root|);
    c := MakeCluster(fs, edges, members);
    BucketListsClass(root, r, c.members);
    ClusterIsReport(fs, edges, members);
  }

  lemma GroupAt(root: seq<nat>, order: seq<nat>, buckets: map<nat, seq<nat>>, k: nat)
    requires GroupsUpTo(root, |root|, order, buckets) && k < |order|
    ensures order[k] in buckets && buckets[order[k]] != [] && buckets[order[k]] == Bucket(root, order[k], |root|)
  {
    assert order[k] in order;
    FirstRootsHaveBuckets(root, |root|, order[k]);
  }

  method MakeClusters(fs: seq<Finding>, edges: seq<Edge>, order: seq<nat>, buckets: map<nat, seq<nat>>, ghost root: seq<nat>)
    returns (clusters: seq<Cluster>)
    requires |root| == |fs| && GroupsUpTo(root, |fs|, order, buckets)
    ensures |clusters| == |order| && forall k :: 0 <= k < |clusters| ==> ClusterFor(fs, edges, root, order[k], clusters[k])
  {
    hide ClusterFor;
    clusters := [];
    for k := 0 to |order|
      invariant |clusters| == k
      invariant forall a :: 0 <= a < k ==> ClusterFor(fs, edges, root, order[a], clusters[a])
    {
      GroupAt(root, order, buckets, k);
      var c := ClusterOfGroup(fs, edges, buckets[order[k]], root, order[k]);
      clusters := clusters + [c];
    }
  }

  ghost predicate Reports(fs: seq<Finding>, edges: seq<Edge>, cs: seq<Cluster>) {
    forall c :: c in cs ==> IsReportOf(fs, edges, c)
  }

  lemma UrgencyIsTotal()
    ensures TotalPreorder(MoreUrgent)
  {
  }

  /** The check of all vectors ahead of any comparison. */
  method CheckVectors(fs: seq<Finding>, s: Similarity) returns (ok: bool)
    ensures ok <==> forall f :: f in fs ==> BoundedVector(s, f)
  {
    for i := 0 to |fs|
      invariant forall k :: 0 <= k < i ==> BoundedVector(s, fs[k])
    {
      if !BoundedVector(s, fs[i]) {
        return false;
      }
    }
    return true;
  }

  method ClusterBySimilarity(fs: seq<Finding>, s: Similarity, threshold: real)
    returns (result: Result<seq<Cluster>, ClusteringError>)
    ensures result == Err(ThresholdOutOfRange) <==> threshold < 0.0 || threshold > 1.0
    ensures result == Err(TooManyFindings) <==> 0.0 <= threshold <= 1.0 && |fs| > 10_000
    ensures result == Err(BadDimension) <==> 0.0 <= threshold <= 1.0 && |fs| <= 10_000 && !VectorsFit(fs, s)
    ensures result.Ok? ==> AreComponents(result.value, |fs|, Links(fs, ScorerOf(s), threshold))
    ensures result.Ok? ==> exists edges :: EdgesRecord(fs, ScorerOf(s), edges, Links(fs, ScorerOf(s), threshold)) && Reports(fs, edges, result.value)
    ensures result.Ok? ==> SortedBy(MoreUrgent, result.value)
  {
    if threshold < 0.0 || threshold > 1.0 {
      return Err(ThresholdOutOfRange);
    }
    if |fs| > 10_000 {
      return Err(TooManyFindings);
    }
    var bounded := CheckVectors(fs, s);
    if !bounded {
      return Err(BadDimension);
    }
    var ok, parent, edges, root, depth := JoinSimilar(fs, s, threshold);
    if !ok {
      return Err(BadDimension);
    }
    var order, buckets := GroupByRoot(fs, parent, root, depth);
    var clusters := MakeClusters(fs, edges, order, buckets, root);
    FirstRootsAreTheRoots(root, |root|);
    assert forall k :: 0 <= k < |clusters| ==> ClusterFor(fs, edges, root, order[k], clusters[k]);
    ClassesAreComponents(root, order, clusters, Links(fs, ScorerOf(s), threshold));
    UrgencyIsTotal();
    SortSorts(MoreUrgent, clusters);
    PermutedComponents(clusters, Sort(MoreUrgent, clusters), |fs|, Links(fs, ScorerOf(s), threshold));
    assert Reports(fs, edges, Sort(MoreUrgent, clusters));
    result := Ok(Sort(MoreUrgent, clusters));
  }

  /** Severities from bad to harmless. */
  predicate AtLeastAsBad(a: Severity, b: Severity) {
    match a
    case Critical => true
    case High => !b.Critical?
    case Medium => b.Medium? || b.Low? || b.Info?
    case Low => b.Low? || b.Info?
    case Info => b.Info?
  }

  ghost predicate HasMember(fs: seq<Finding>, c: Cluster, s: Severity) {
    exists i :: i in c.members && i < |fs| && fs[i].severity == s
  }

  /** A cluster with a critical member is critical, else one with a high member is high, and so on down. */
  lemma ClusterSeverity(fs: seq<Finding>, edges: seq<Edge>, c: Cluster)
    requires IsReportOf(fs, edges, c)
    ensures HasMember(fs, c, c.severity) && forall s :: HasMember(fs, c, s) ==> AtLeastAsBad(c.severity, s)
  {
    hide ReportsEdges, RootCauseOf;
    var k :| 0 <= k < |c.members| && fs[c.members[k]].severity == c.severity;
    assert c.members[k] in c.members;
    forall s | HasMember(fs, c, s)
      ensures AtLeastAsBad(c.severity, s)
    {
      var i :| i in c.members && i < |fs| && fs[i].severity == s;
      var j :| 0 <= j < |c.members| && c.members[j] == i;
      assert Rank(c.severity) <= Rank(fs[c.members[j]].severity);
    }
  }

  /** Worse clusters come first, and of equally bad ones those of higher priority. */
  lemma UrgentFirst(cs: seq<Cluster>, i: nat, j: nat)
    requires SortedBy(MoreUrgent, cs) && i < j < |cs|
    ensures AtLeastAsBad(cs[i].severity, cs[j].severity) && (cs[i].severity == cs[j].severity ==> cs[i].priority >= cs[j].priority)
  {
    assert MoreUrgent(cs[i], cs[j]);
  }

  /** With unique ids, an edge is reported in a cluster only if that cluster holds both of its ends. */
  lemma EdgesExplainTheirCluster(fs: seq<Finding>, score: Scorer, threshold: real, edges: seq<Edge>, c: Cluster, e: Edge)
    requires forall i, j :: 0 <= i < j < |fs| ==> fs[i].id != fs[j].id
    requires EdgesRecord(fs, score, edges, Links(fs, score, threshold)) && ReportsEdges(fs, edges, c) && e in c.edges
    ensures exists i: nat, j: nat ::
      && i < j < |fs| && i in c.members && j in c.members
      && Linked(fs, score, threshold, i, j)
      && e == EdgeOf(fs, score, (i, j))
  {
    assert HasId(fs, c.members, e.leftId) && HasId(fs, c.members, e.rightId);
    assert e in edges;
    var l :| l in Links(fs, score, threshold) && l.0 < |fs| && l.1 < |fs| && EdgeOf(fs, score, l) == e;
    assert l.0 < l.1 && Linked(fs, score, threshold, l.0, l.1);
    var i :| i in c.members && i < |fs| && fs[i].id == e.leftId;
    var j :| j in c.members && j < |fs| && fs[j].id == e.rightId;
    assert i == l.0 && j == l.1;
  }
}
