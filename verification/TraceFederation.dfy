/** Merging spans of independently ingested trace sources: the first span of an id is kept and differing ones make the id conflicting. */
module TraceFederation {
  import opened Results

  datatype Span = Span(source: string, traceId: string, spanId: string, parent: Option<string>, name: string, service: Option<string>,
                       startedAt: string, endedAt: string, status: string, attributes: string)

  datatype Source = Source(name: string, spans: seq<Span>, warnings: seq<string>)

  /** Kept spans by trace and span id, and conflicting span ids by trace. */
  datatype Merge = Merge(kept: map<string, map<string, Span>>, conflicts: map<string, set<string>>, warnings: set<string>)

  /** Everything but the source agrees. */
  predicate SameContent(a: Span, b: Span) {
    a == b.(source := a.source)
  }

  predicate Identifies(x: Span, t: string, s: string) {
    x.traceId == t && x.spanId == s
  }

  function Flatten(sources: seq<Source>): seq<Span> {
    if sources == [] then [] else Flatten(sources[..|sources| - 1]) + sources[|sources| - 1].spans
  }

  /** The first span with the ids. */
  function First(spans: seq<Span>, t: string, s: string): Option<Span> {
    if spans == [] then None
    else
      var before := First(spans[..|spans| - 1], t, s);
      if before.Some? then before else if Identifies(spans[|spans| - 1], t, s) then Some(spans[|spans| - 1]) else None
  }

  predicate HasTrace(spans: seq<Span>, t: string) {
    exists i :: 0 <= i < |spans| && spans[i].traceId == t
  }

  /** Some span with the ids differs from the first one. */
  predicate DiffersFromFirst(spans: seq<Span>, t: string, s: string) {
    exists i :: 0 <= i < |spans| && Identifies(spans[i], t, s) && First(spans, t, s).Some? && !SameContent(First(spans, t, s).value, spans[i])
  }

  function KeptAt(m: Merge, t: string, s: string): Option<Span> {
    if t in m.kept && s in m.kept[t] then Some(m.kept[t][s]) else None
  }

  predicate ConflictAt(m: Merge, t: string, s: string) {
    t in m.conflicts && s in m.conflicts[t]
  }

  /** The merge of these spans. */
  ghost predicate Merges(m: Merge, spans: seq<Span>) {
    && (forall t :: t in m.kept <==> HasTrace(spans, t))
    && (forall t, s :: KeptAt(m, t, s) == First(spans, t, s))
    && (forall t, s :: ConflictAt(m, t, s) <==> DiffersFromFirst(spans, t, s))
  }

  function AddSpan(m: Merge, x: Span): Merge {
    var trace := if x.traceId in m.kept then m.kept[x.traceId] else map[];
    if x.spanId in trace && !SameContent(trace[x.spanId], x) then
      var ids := if x.traceId in m.conflicts then m.conflicts[x.traceId] else {};
      m.(kept := m.kept[x.traceId := trace], conflicts := m.conflicts[x.traceId := ids + {x.spanId}])
    else if x.spanId !in trace then m.(kept := m.kept[x.traceId := trace[x.spanId := x]])
    else m.(kept := m.kept[x.traceId := trace])
  }

  lemma AddSpanPoint(m: Merge, x: Span, t: string, s: string)
    ensures var n := AddSpan(m, x);
      && (t in n.kept <==> t in m.kept || t == x.traceId)
      && KeptAt(n, t, s) == (if KeptAt(m, t, s).Some? || !Identifies(x, t, s) then KeptAt(m, t, s) else Some(x))
      && (ConflictAt(n, t, s) <==>
            ConflictAt(m, t, s) || (Identifies(x, t, s) && KeptAt(m, t, s).Some? && !SameContent(KeptAt(m, t, s).value, x)))
  {
    hide SameContent;
  }

  lemma {:induction false} FirstIsKnown(spans: seq<Span>, t: string, s: string)
    ensures First(spans, t, s).Some? <==> exists i :: 0 <= i < |spans| && Identifies(spans[i], t, s)
    ensures First(spans, t, s).Some? ==> First(spans, t, s).value in spans && Identifies(First(spans, t, s).value, t, s)
  {
    hide Identifies;
    if spans != [] {
      var n := |spans| - 1;
      FirstIsKnown(spans[..n], t, s);
      assert forall i :: 0 <= i < n ==> spans[..n][i] == spans[i];
    }
  }

  /** The span that is kept is the first in the order of the sources. */
  lemma {:induction false} KeptIsFirst(spans: seq<Span>, t: string, s: string) returns (i: nat)
    requires First(spans, t, s).Some?
    ensures i < |spans| && spans[i] == First(spans, t, s).value && Identifies(spans[i], t, s)
    ensures forall j :: 0 <= j < i ==> !Identifies(spans[j], t, s)
  {
    hide Identifies;
    var n := |spans| - 1;
    if First(spans[..n], t, s).Some? {
      i := KeptIsFirst(spans[..n], t, s);
      assert forall j :: 0 <= j <= i ==> spans[..n][j] == spans[j];
    } else {
      i := n;
      FirstIsKnown(spans[..n], t, s);
      assert forall j :: 0 <= j < n ==> spans[..n][j] == spans[j];
    }
  }

  lemma MorePoint(spans: seq<Span>, x: Span, t: string, s: string)
    ensures HasTrace(spans + [x], t) <==> HasTrace(spans, t) || t == x.traceId
    ensures First(spans + [x], t, s) == if First(spans, t, s).Some? || !Identifies(x, t, s) then First(spans, t, s) else Some(x)
    ensures DiffersFromFirst(spans + [x], t, s) <==>
      DiffersFromFirst(spans, t, s) || (Identifies(x, t, s) && First(spans, t, s).Some? && !SameContent(First(spans, t, s).value, x))
  {
    var more := spans + [x];
    assert more[..|spans|] == spans && more[|spans|] == x;
    assert forall i :: 0 <= i < |spans| ==> more[i] == spans[i];
    FirstIsKnown(spans, t, s);
    assert First(spans, t, s).None? ==> forall i :: 0 <= i < |spans| ==> !Identifies(spans[i], t, s);
    assert SameContent(x, x);
    hide First, Identifies, SameContent;
  }

  lemma AddSpanMerges(m: Merge, spans: seq<Span>, x: Span)
    requires Merges(m, spans)
    ensures Merges(AddSpan(m, x), spans + [x])
  {
    hide AddSpan, First, DiffersFromFirst, HasTrace, KeptAt, ConflictAt, Identifies, SameContent;
    forall t, s
      ensures (t in AddSpan(m, x).kept <==> HasTrace(spans + [x], t)) && KeptAt(AddSpan(m, x), t, s) == First(spans + [x], t, s)
      ensures ConflictAt(AddSpan(m, x), t, s) <==> DiffersFromFirst(spans + [x], t, s)
    {
      AddSpanPoint(m, x, t, s);
      MorePoint(spans, x, t, s);
    }
    forall t
      ensures t in AddSpan(m, x).kept <==> HasTrace(spans + [x], t)
    {
      AddSpanPoint(m, x, t, "");
      MorePoint(spans, x, t, "");
    }
  }

  lemma WarningsDoNotCount(m: Merge, n: Merge, spans: seq<Span>)
    requires Merges(m, spans) && n.kept == m.kept && n.conflicts == m.conflicts
    ensures Merges(n, spans)
  {
    hide First, DiffersFromFirst, HasTrace;
    assert forall t, s :: KeptAt(n, t, s) == KeptAt(m, t, s) && (ConflictAt(n, t, s) <==> ConflictAt(m, t, s));
  }

  lemma NothingMerges()
    ensures Merges(Merge(map[], map[], {}), [])
  {
  }

  method FederateTraceSources(sources: seq<Source>) returns (r: Option<Merge>)
    ensures r.Some? <==> 1 <= |sources| <= 64
    ensures r.Some? ==> Merges(r.value, Flatten(sources))
    ensures r.Some? ==> forall w :: w in r.value.warnings <==> Warned(sources, w)
  {
    hide Merges, Warned;
    if !(1 <= |sources| <= 64) {
      return None;
    }
    var m := Merge(map[], map[], {});
    NothingMerges();
    NothingWarned();
    for i := 0 to |sources|
      invariant Merges(m, Flatten(sources[..i]))
      invariant forall w :: w in m.warnings <==> Warned(sources[..i], w)
    {
      assert sources[..i + 1][..i] == sources[..i] && sources[..i + 1] == sources[..i] + [sources[i]];
      var source := sources[i];
      ghost var was := m;
      m := AddWarnings(m, source);
      WarningsDoNotCount(was, m, Flatten(sources[..i]));
      WarnedBy(sources[..i], source);
      var spans := source.spans;
      ghost var before := Flatten(sources[..i]);
      assert before + spans[..0] == before;
      for j := 0 to |spans|
        invariant Merges(m, before + spans[..j])
        invariant forall w :: w in m.warnings <==> Warned(sources[..i + 1], w)
      {
        var x := spans[j];
        AddSpanMerges(m, before + spans[..j], x);
        assert before + spans[..j] + [x] == before + spans[..j + 1];
        var trace := if x.traceId in m.kept then m.kept[x.traceId] else map[];
        if x.spanId in trace && !SameContent(trace[x.spanId], x) {
          var ids := if x.traceId in m.conflicts then m.conflicts[x.traceId] else {};
          m := m.(conflicts := m.conflicts[x.traceId := ids + {x.spanId}]);
        } else if x.spanId !in trace {
          trace := trace[x.spanId := x];
        }
        m := m.(kept := m.kept[x.traceId := trace]);
      }
      assert spans[..|spans|] == spans;
    }
    assert sources[..|sources|] == sources;
    return Some(m);
  }

  ghost predicate Warned(sources: seq<Source>, w: string) {
    exists i, j :: 0 <= i < |sources| && 0 <= j < |sources[i].warnings| && w == sources[i].name + ": " + sources[i].warnings[j]
  }

  ghost predicate WarnsAt(source: Source, w: string, n: nat)
    requires n <= |source.warnings|
  {
    exists j :: 0 <= j < n && w == source.name + ": " + source.warnings[j]
  }

  lemma NothingWarned()
    ensures forall w :: !Warned([], w)
  {
  }

  lemma WarnedBy(sources: seq<Source>, source: Source)
    ensures forall w :: Warned(sources + [source], w) <==> Warned(sources, w) || WarnsAt(source, w, |source.warnings|)
  {
    var more := sources + [source];
    assert more[|sources|] == source && forall i :: 0 <= i < |sources| ==> more[i] == sources[i];
    forall w
      ensures Warned(more, w) <==> Warned(sources, w) || WarnsAt(source, w, |source.warnings|)
    {
      if Warned(more, w) {
        var i, j :| 0 <= i < |more| && 0 <= j < |more[i].warnings| && w == more[i].name + ": " + more[i].warnings[j];
      }
      if Warned(sources, w) {
        var i, j :| 0 <= i < |sources| && 0 <= j < |sources[i].warnings| && w == sources[i].name + ": " + sources[i].warnings[j];
        assert more[i] == sources[i];
      }
    }
  }

  method AddWarnings(m: Merge, source: Source) returns (n: Merge)
    ensures n.kept == m.kept && n.conflicts == m.conflicts
    ensures forall w :: w in n.warnings <==> w in m.warnings || WarnsAt(source, w, |source.warnings|)
  {
    n := m;
    for j := 0 to |source.warnings|
      invariant n.kept == m.kept && n.conflicts == m.conflicts
      invariant forall w :: w in n.warnings <==> w in m.warnings || WarnsAt(source, w, j)
    {
      n := n.(warnings := n.warnings + {source.name + ": " + source.warnings[j]});
    }
  }

  // ---------------------------------------------------------------------------------------
  // The order of the sources does not matter, except for what conflicting ids keep
  // ---------------------------------------------------------------------------------------

  /** Two spans with the ids differ. */
  ghost predicate Disputed(spans: multiset<Span>, t: string, s: string) {
    exists a, b :: a in spans && b in spans && Identifies(a, t, s) && Identifies(b, t, s) && !SameContent(a, b)
  }

  lemma ConflictIffDisputed(spans: seq<Span>, t: string, s: string)
    ensures DiffersFromFirst(spans, t, s) <==> Disputed(multiset(spans), t, s)
  {
    FirstIsKnown(spans, t, s);
    var first := First(spans, t, s);
    if DiffersFromFirst(spans, t, s) {
      var i :| 0 <= i < |spans| && Identifies(spans[i], t, s) && !SameContent(first.value, spans[i]);
      assert first.value in multiset(spans) && spans[i] in multiset(spans);
    }
    if Disputed(multiset(spans), t, s) {
      var a, b :| a in multiset(spans) && b in multiset(spans) && Identifies(a, t, s) && Identifies(b, t, s) && !SameContent(a, b);
      assert a in spans && b in spans;
      if SameContent(first.value, a) {
        assert !SameContent(first.value, b);
      }
    }
    hide First;
  }

  /** Merging the same spans in any two orders gives the same traces, the same span ids and the same conflicts. */
  lemma OrderDoesNotMatter(m: Merge, n: Merge, spans: seq<Span>, shuffled: seq<Span>, t: string, s: string)
    requires Merges(m, spans) && Merges(n, shuffled) && multiset(spans) == multiset(shuffled)
    ensures t in m.kept <==> t in n.kept
    ensures KeptAt(m, t, s).Some? <==> KeptAt(n, t, s).Some?
    ensures ConflictAt(m, t, s) <==> ConflictAt(n, t, s)
    ensures KeptAt(m, t, s).Some? && !ConflictAt(m, t, s) ==> SameContent(KeptAt(m, t, s).value, KeptAt(n, t, s).value)
  {
    ConflictIffDisputed(spans, t, s);
    ConflictIffDisputed(shuffled, t, s);
    SameMembers(spans, shuffled);
    FirstIsKnown(spans, t, s);
    FirstIsKnown(shuffled, t, s);
    KeptIsAgreed(spans, shuffled, t, s);
    assert HasTrace(spans, t) <==> HasTrace(shuffled, t) by {
      SameTraces(spans, shuffled, t);
    }
    hide First, DiffersFromFirst, HasTrace, Disputed, SameContent;
  }

  lemma SameMembers(spans: seq<Span>, shuffled: seq<Span>)
    requires multiset(spans) == multiset(shuffled)
    ensures forall x :: x in spans <==> x in shuffled
  {
    assert forall x :: x in spans <==> x in multiset(spans);
    assert forall x :: x in shuffled <==> x in multiset(shuffled);
  }

  lemma SameTraces(spans: seq<Span>, shuffled: seq<Span>, t: string)
    requires forall x :: x in spans <==> x in shuffled
    ensures HasTrace(spans, t) <==> HasTrace(shuffled, t)
  {
    if i :| 0 <= i < |spans| && spans[i].traceId == t {
      assert spans[i] in shuffled;
    }
    if i :| 0 <= i < |shuffled| && shuffled[i].traceId == t {
      assert shuffled[i] in spans;
    }
  }

  lemma KeptIsAgreed(spans: seq<Span>, shuffled: seq<Span>, t: string, s: string)
    requires forall x :: x in spans <==> x in shuffled
    ensures First(spans, t, s).Some? <==> First(shuffled, t, s).Some?
    ensures First(spans, t, s).Some? && !DiffersFromFirst(spans, t, s) ==> SameContent(First(spans, t, s).value, First(shuffled, t, s).value)
  {
    FirstIsKnown(spans, t, s);
    FirstIsKnown(shuffled, t, s);
    hide First;
    if i :| 0 <= i < |spans| && Identifies(spans[i], t, s) {
      assert spans[i] in shuffled;
    }
    if i :| 0 <= i < |shuffled| && Identifies(shuffled[i], t, s) {
      assert shuffled[i] in spans;
    }
    if First(spans, t, s).Some? && First(shuffled, t, s).Some? {
      assert First(shuffled, t, s).value in spans;
    }
  }

  /** A kept span names a parent that the trace does not hold. */
  predicate OrphanAt(m: Merge, t: string, s: string) {
    KeptAt(m, t, s).Some? && KeptAt(m, t, s).value.parent.Some? && KeptAt(m, t, s).value.parent.value != ""
    && KeptAt(m, t, KeptAt(m, t, s).value.parent.value).None?
  }

  /** Whether a span is an orphan depends on the order at most when its id is conflicting. */
  lemma OrphansAgreeUnlessConflicting(m: Merge, n: Merge, spans: seq<Span>, shuffled: seq<Span>, t: string, s: string)
    requires Merges(m, spans) && Merges(n, shuffled) && multiset(spans) == multiset(shuffled) && !ConflictAt(m, t, s)
    ensures OrphanAt(m, t, s) <==> OrphanAt(n, t, s)
  {
    hide Merges, KeptAt, ConflictAt;
    OrderDoesNotMatter(m, n, spans, shuffled, t, s);
    if KeptAt(m, t, s).Some? && KeptAt(m, t, s).value.parent.Some? {
      OrderDoesNotMatter(m, n, spans, shuffled, t, KeptAt(m, t, s).value.parent.value);
    }
  }
}
