/**
 The order in which the shrinker tries candidates.  Object keys are edited in sorted order, so the
 order of an object's properties makes no difference: inputs that are the same JSON give, step by
 step, candidates that are the same JSON, and shrink alike.
 */
module ShrinkingOrder {
  import opened Results
  import opened Json
  import opened JsonPrinter
  import opened Shrinking
  import opened ShrinkingTurns
  import opened ShrinkingBytes

  // ---------------------------------------------------------------------------------------
  // Keys are tried in sorted order
  // ---------------------------------------------------------------------------------------

  ghost predicate KeysInOrder(entries: seq<Entry<Value>>, positions: seq<nat>)
    requires Within(positions, |entries|)
  {
    forall a, b :: 0 <= a < b < |positions| ==> TextLeq(entries[positions[a]].key, entries[positions[b]].key)
  }

  predicate Distinct(positions: seq<nat>) {
    forall a, b :: 0 <= a < b < |positions| ==> positions[a] != positions[b]
  }

  lemma {:induction false} InsertKeepsOrder(entries: seq<Entry<Value>>, p: nat, positions: seq<nat>)
    requires p < |entries| && Within(positions, |entries|) && KeysInOrder(entries, positions) && Distinct(positions) && p !in positions
    ensures KeysInOrder(entries, InsertByKey(entries, p, positions)) && Distinct(InsertByKey(entries, p, positions))
  {
    hide TextLeq, InsertByKey, KeysInOrder, Distinct;
    InsertStep(entries, p, positions);
    if positions == [] || TextLeq(entries[p].key, entries[positions[0]].key) {
      SmallestInFront(entries, p, positions);
    } else {
      TextLeqTotal(entries[p].key, entries[positions[0]].key);
      TailIsInOrder(entries, positions);
      InsertKeepsOrder(entries, p, positions[1..]);
      InFrontKeepsOrder(entries, positions, p, InsertByKey(entries, p, positions[1..]));
    }
  }

  lemma SmallestInFront(entries: seq<Entry<Value>>, p: nat, positions: seq<nat>)
    requires p < |entries| && Within(positions, |entries|) && KeysInOrder(entries, positions) && Distinct(positions) && p !in positions
    requires positions == [] || TextLeq(entries[p].key, entries[positions[0]].key)
    ensures KeysInOrder(entries, [p] + positions) && Distinct([p] + positions)
  {
    hide TextLeq;
    forall b | 1 <= b < |positions|
      ensures TextLeq(entries[p].key, entries[positions[b]].key)
    {
      TextLeqTransitive(entries[p].key, entries[positions[0]].key, entries[positions[b]].key);
    }
  }

  lemma TailIsInOrder(entries: seq<Entry<Value>>, positions: seq<nat>)
    requires positions != [] && Within(positions, |entries|) && KeysInOrder(entries, positions) && Distinct(positions)
    ensures Within(positions[1..], |entries|) && KeysInOrder(entries, positions[1..]) && Distinct(positions[1..])
  {
    hide TextLeq;
  }

  lemma InsertStep(entries: seq<Entry<Value>>, p: nat, positions: seq<nat>)
    requires p < |entries| && Within(positions, |entries|)
    ensures InsertByKey(entries, p, positions) ==
      if positions == [] || TextLeq(entries[p].key, entries[positions[0]].key) then [p] + positions
      else [positions[0]] + InsertByKey(entries, p, positions[1..])
  {
    hide TextLeq;
  }

  lemma InFrontKeepsOrder(entries: seq<Entry<Value>>, positions: seq<nat>, p: nat, rest: seq<nat>)
    requires positions != [] && Within(positions, |entries|) && KeysInOrder(entries, positions) && Distinct(positions)
    requires Within(rest, |entries|) && KeysInOrder(entries, rest) && Distinct(rest) && forall i: nat :: i in rest <==> i == p || i in positions[1..]
    requires p < |entries| && p !in positions && TextLeq(entries[positions[0]].key, entries[p].key)
    ensures KeysInOrder(entries, [positions[0]] + rest) && Distinct([positions[0]] + rest)
  {
    hide TextLeq;
    forall b | 0 <= b < |rest|
      ensures TextLeq(entries[positions[0]].key, entries[rest[b]].key) && positions[0] != rest[b]
    {
      assert rest[b] in rest;
      if rest[b] != p {
        var c :| 0 <= c < |positions[1..]| && positions[1..][c] == rest[b];
        assert positions[c + 1] == rest[b];
      }
    }
  }

  /** The keys are edited in sorted order, each once. */
  lemma {:induction false} PositionsAreInOrder(entries: seq<Entry<Value>>, n: nat)
    requires n <= |entries|
    ensures KeysInOrder(entries, PositionsByKey(entries, n)) && Distinct(PositionsByKey(entries, n))
  {
    hide InsertByKey, TextLeq;
    if n > 0 {
      PositionsAreInOrder(entries, n - 1);
      InsertKeepsOrder(entries, n - 1, PositionsByKey(entries, n - 1));
    }
  }

  /** So an object's children are tried in the order of their keys, and an array's from front to back. */
  lemma ChildrenInTurn(v: Value)
    ensures v.Obj? ==> KeysInOrder(v.entries, Positions(v))
    ensures v.Arr? ==> forall k :: 0 <= k < |v.items| ==> Positions(v)[k] == k
    ensures Distinct(Positions(v))
  {
    hide KeysInOrder, PositionsByKey;
    if v.Obj? {
      PositionsAreInOrder(v.entries, |v.entries|);
    }
  }

  /** The key at each position, as an entry without a value. */
  function KeysAt(entries: seq<Entry<Value>>, positions: seq<nat>): (r: seq<Entry<bool>>)
    requires Within(positions, |entries|)
    ensures |r| == |positions| && forall k :: 0 <= k < |r| ==> r[k] == Entry(entries[positions[k]].key, true)
  {
    if positions == [] then [] else [Entry(entries[positions[0]].key, true)] + KeysAt(entries, positions[1..])
  }

  lemma KeysAtAreSorted(es: seq<Entry<Value>>)
    requires UniqueKeys(es)
    ensures StrictlySorted(KeysAt(es, PositionsByKey(es, |es|)))
  {
    hide TextLeq, PositionsByKey, KeysAt;
    var ps := PositionsByKey(es, |es|);
    PositionsAreInOrder(es, |es|);
    forall a, b | 0 <= a < b < |ps|
      ensures TextLeq(es[ps[a]].key, es[ps[b]].key) && es[ps[a]].key != es[ps[b]].key
    {
      assert ps[a] != ps[b];
    }
    hide KeysInOrder, Distinct, UniqueKeys;
  }

  lemma KeysAtAreAll(es: seq<Entry<Value>>, x: Entry<bool>)
    ensures x in KeysAt(es, PositionsByKey(es, |es|)) <==> x.value && HasKey(es, x.key)
  {
    hide PositionsByKey, KeysAt;
    var ps := PositionsByKey(es, |es|);
    if x.value && HasKey(es, x.key) {
      var i :| 0 <= i < |es| && es[i].key == x.key;
      assert i in ps;
      var k :| 0 <= k < |ps| && ps[k] == i;
      assert KeysAt(es, ps)[k] == x;
    }
  }

  /** The positions in turn have the same keys. */
  ghost predicate SameKeyEach(es: seq<Entry<Value>>, fs: seq<Entry<Value>>, ps: seq<nat>, qs: seq<nat>) {
    && Within(ps, |es|) && Within(qs, |fs|) && |ps| == |qs|
    && forall k :: 0 <= k < |ps| ==> es[ps[k]].key == fs[qs[k]].key
  }

  /** Objects with the same keys are edited at the same keys, one after another. */
  lemma SameKeysInTurn(es: seq<Entry<Value>>, fs: seq<Entry<Value>>)
    requires UniqueKeys(es) && UniqueKeys(fs) && forall key :: HasKey(es, key) <==> HasKey(fs, key)
    ensures |es| == |fs| && SameKeyEach(es, fs, PositionsByKey(es, |es|), PositionsByKey(fs, |fs|))
  {
    hide PositionsByKey, KeysAt, HasKey, StrictlySorted, UniqueKeys;
    var xs, ys := KeysAt(es, PositionsByKey(es, |es|)), KeysAt(fs, PositionsByKey(fs, |fs|));
    KeysAtAreSorted(es);
    KeysAtAreSorted(fs);
    forall x
      ensures x in xs <==> x in ys
    {
      KeysAtAreAll(es, x);
      KeysAtAreAll(fs, x);
    }
    SortedListsAgree(xs, ys);
    forall k | 0 <= k < |es|
      ensures es[PositionsByKey(es, |es|)[k]].key == fs[PositionsByKey(fs, |fs|)[k]].key
    {
      assert xs[k] == ys[k];
    }
  }

  // ---------------------------------------------------------------------------------------
  // One deletion or edit of values that are the same
  // ---------------------------------------------------------------------------------------

  /** Positions of the two values that stand for each other. */
  ghost predicate Paired(v: Value, w: Value, p: nat, q: nat) {
    && ((v.Arr? && w.Arr? && p == q && p < |v.items| && p < |w.items|)
        || (v.Obj? && w.Obj? && p < |v.entries| && q < |w.entries| && v.entries[p].key == w.entries[q].key))
    && SameJson(Children(v)[p], Children(w)[q])
  }

  /** fs holds the same value under the key of e; by membership. */
  ghost predicate Holds(fs: seq<Entry<Value>>, e: Entry<Value>) {
    exists f :: f in fs && e.key == f.key && SameJson(e.value, f.value)
  }

  lemma HoldsIff(fs: seq<Entry<Value>>, e: Entry<Value>)
    ensures HoldsSame(fs, e) <==> Holds(fs, e)
  {
    hide SameJson;
    if Holds(fs, e) {
      var f :| f in fs && e.key == f.key && SameJson(e.value, f.value);
      var j :| 0 <= j < |fs| && fs[j] == f;
    }
  }

  ghost predicate SameEntries(es: seq<Entry<Value>>, fs: seq<Entry<Value>>) {
    (forall e :: e in es ==> Holds(fs, e)) && forall f :: f in fs ==> HasKey(es, f.key)
  }

  lemma SameEntriesIff(es: seq<Entry<Value>>, fs: seq<Entry<Value>>)
    ensures SameJson(Obj(es), Obj(fs)) <==> SameEntries(es, fs)
  {
    hide Holds, HoldsSame, HasKey;
    forall e
      ensures HoldsSame(fs, e) <==> Holds(fs, e)
    {
      HoldsIff(fs, e);
    }
    assert SameJson(Obj(es), Obj(fs)) <==> (forall i :: 0 <= i < |es| ==> HoldsSame(fs, es[i])) && forall j :: 0 <= j < |fs| ==> HasKey(es, fs[j].key);
    hide SameJson;
  }

  lemma SameHaveSameKeys(es: seq<Entry<Value>>, fs: seq<Entry<Value>>)
    requires SameEntries(es, fs)
    ensures forall key :: HasKey(es, key) <==> HasKey(fs, key)
  {
    hide SameJson;
    forall key | HasKey(es, key)
      ensures HasKey(fs, key)
    {
      var i :| 0 <= i < |es| && es[i].key == key;
      assert Holds(fs, es[i]);
    }
    forall key | HasKey(fs, key)
      ensures HasKey(es, key)
    {
      var j :| 0 <= j < |fs| && fs[j].key == key;
      assert fs[j] in fs;
    }
  }

  lemma RemainingPlaces(es: seq<Entry<Value>>, p: nat)
    requires p < |es|
    ensures var r := es[..p] + es[p + 1..];
      && |r| == |es| - 1 && (forall i :: 0 <= i < p ==> r[i] == es[i]) && forall i :: p <= i < |r| ==> r[i] == es[i + 1]
  {
  }

  lemma Remaining(es: seq<Entry<Value>>, p: nat)
    requires UniqueKeys(es) && p < |es|
    ensures UniqueKeys(es[..p] + es[p + 1..])
    ensures forall e :: e in es[..p] + es[p + 1..] <==> e in es && e.key != es[p].key
  {
    var r := es[..p] + es[p + 1..];
    RemainingPlaces(es, p);
    forall e | e in es && e.key != es[p].key
      ensures e in r
    {
      var i :| 0 <= i < |es| && es[i] == e;
      if i < p {
        assert r[i] == e;
      } else {
        assert r[i - 1] == e;
      }
    }
    forall i | 0 <= i < |r|
      ensures r[i] in es && r[i].key != es[p].key
    {
      if i < p {
        assert r[i] == es[i];
      } else {
        assert r[i] == es[i + 1];
      }
    }
  }

  lemma KeyIn(es: seq<Entry<Value>>, e: Entry<Value>)
    requires e in es
    ensures HasKey(es, e.key)
  {
  }

  lemma HasKeyIn(es: seq<Entry<Value>>, key: Text) returns (e: Entry<Value>)
    requires HasKey(es, key)
    ensures e in es && e.key == key
  {
    var i :| 0 <= i < |es| && es[i].key == key;
    e := es[i];
  }

  /** Deleting one key from both leaves the same entries. */
  lemma SameAfterDeletion(es: seq<Entry<Value>>, fs: seq<Entry<Value>>, p: nat, q: nat)
    requires UniqueKeys(es) && UniqueKeys(fs) && SameEntries(es, fs) && p < |es| && q < |fs| && es[p].key == fs[q].key
    ensures SameEntries(es[..p] + es[p + 1..], fs[..q] + fs[q + 1..])
  {
    var key := es[p].key;
    Remaining(es, p);
    Remaining(fs, q);
    var restE, restF := es[..p] + es[p + 1..], fs[..q] + fs[q + 1..];
    hide SameJson, UniqueKeys, HasKey;
    forall e | e in restE
      ensures Holds(restF, e)
    {
      assert Holds(fs, e);
      var f :| f in fs && e.key == f.key && SameJson(e.value, f.value);
      assert f in restF;
    }
    forall f | f in restF
      ensures HasKey(restE, f.key)
    {
      var e := HasKeyIn(es, f.key);
      assert e in restE;
      KeyIn(restE, e);
    }
  }

  lemma Edited(es: seq<Entry<Value>>, p: nat, c: Value)
    requires UniqueKeys(es) && p < |es|
    ensures var r := es[p := Entry(es[p].key, c)];
      && UniqueKeys(r) && forall e :: e in r <==> e == Entry(es[p].key, c) || (e in es && e.key != es[p].key)
  {
    var r := es[p := Entry(es[p].key, c)];
    assert r[p] == Entry(es[p].key, c);
    forall e | e in es && e.key != es[p].key
      ensures e in r
    {
      var i :| 0 <= i < |es| && es[i] == e;
      assert r[i] == e;
    }
    forall e | e in r && e != Entry(es[p].key, c)
      ensures e in es && e.key != es[p].key
    {
      var i :| 0 <= i < |r| && r[i] == e;
      assert es[i] == e;
    }
  }

  /** Replacing the value of one key in both by the same leaves the same entries. */
  lemma SameAfterEdit(es: seq<Entry<Value>>, fs: seq<Entry<Value>>, p: nat, q: nat, c: Value, d: Value)
    requires UniqueKeys(es) && UniqueKeys(fs) && SameEntries(es, fs) && p < |es| && q < |fs| && es[p].key == fs[q].key && SameJson(c, d)
    ensures SameEntries(es[p := Entry(es[p].key, c)], fs[q := Entry(fs[q].key, d)])
  {
    Edited(es, p, c);
    Edited(fs, q, d);
    var newE, newF := es[p := Entry(es[p].key, c)], fs[q := Entry(fs[q].key, d)];
    hide SameJson, UniqueKeys, HasKey;
    forall e | e in newE
      ensures Holds(newF, e)
    {
      if e == Entry(es[p].key, c) {
        assert Entry(fs[q].key, d) in newF;
      } else {
        assert Holds(fs, e);
        var f :| f in fs && e.key == f.key && SameJson(e.value, f.value);
        assert f in newF;
      }
    }
    forall f | f in newF
      ensures HasKey(newE, f.key)
    {
      if f == Entry(fs[q].key, d) {
        KeyIn(newE, Entry(es[p].key, c));
      } else {
        var e := HasKeyIn(es, f.key);
        KeyIn(newE, e);
      }
    }
  }

  lemma DeletionsAreSame(v: Value, w: Value, p: nat, q: nat)
    requires WellFormed(v) && WellFormed(w) && SameJson(v, w) && v.Obj? && w.Obj? && Paired(v, w, p, q)
    ensures SameJson(Without(v, p, 1), Without(w, q, 1))
  {
    hide SameJson, SameEntries, WellFormed, UniqueKeys;
    SameEntriesIff(v.entries, w.entries);
    KeysDiffer(v);
    KeysDiffer(w);
    SameAfterDeletion(v.entries, w.entries, p, q);
    SameEntriesIff(v.entries[..p] + v.entries[p + 1..], w.entries[..q] + w.entries[q + 1..]);
  }

  lemma KeysDiffer(v: Value)
    requires WellFormed(v) && v.Obj?
    ensures UniqueKeys(v.entries)
  {
  }

  lemma EditsAreSame(v: Value, w: Value, p: nat, q: nat, c: Value, d: Value)
    requires WellFormed(v) && WellFormed(w) && SameJson(v, w) && Paired(v, w, p, q) && SameJson(c, d)
    ensures SameJson(WithChild(v, p, c), WithChild(w, q, d))
  {
    hide SameJson, SameEntries, WellFormed, UniqueKeys;
    if v.Obj? {
      SameEntriesIff(v.entries, w.entries);
      KeysDiffer(v);
      KeysDiffer(w);
      SameAfterEdit(v.entries, w.entries, p, q, c, d);
      SameEntriesIff(v.entries[p := Entry(v.entries[p].key, c)], w.entries[q := Entry(w.entries[q].key, d)]);
    } else {
      ArrEditsAreSame(v.items, w.items, p, c, d);
    }
  }

  lemma ArrEditsAreSame(xs: seq<Value>, ys: seq<Value>, p: nat, c: Value, d: Value)
    requires SameJson(Arr(xs), Arr(ys)) && p < |xs| && SameJson(c, d)
    ensures SameJson(Arr(xs[p := c]), Arr(ys[p := d]))
  {
  }

  lemma ArrBlocksAreSame(xs: seq<Value>, ys: seq<Value>, start: nat, n: nat)
    requires SameJson(Arr(xs), Arr(ys)) && start + n <= |xs|
    ensures |ys| == |xs| && SameJson(Arr(xs[..start] + xs[start + n..]), Arr(ys[..start] + ys[start + n..]))
  {
    var a, b := xs[..start] + xs[start + n..], ys[..start] + ys[start + n..];
    forall i | 0 <= i < |a|
      ensures SameJson(a[i], b[i])
    {
      assert SameJson(xs[if i < start then i else i + n], ys[if i < start then i else i + n]);
    }
  }

  // ---------------------------------------------------------------------------------------
  // All candidates, in turn
  // ---------------------------------------------------------------------------------------

  ghost predicate SameEach(cs: seq<Value>, ds: seq<Value>) {
    |cs| == |ds| && forall k :: 0 <= k < |cs| ==> SameJson(cs[k], ds[k])
  }

  /** The positions in turn stand for each other. */
  ghost predicate PairedEach(v: Value, w: Value, ps: seq<nat>, qs: seq<nat>) {
    |ps| == |qs| && forall k :: 0 <= k < |ps| ==> Paired(v, w, ps[k], qs[k])
  }

  lemma PositionsArePaired(v: Value, w: Value)
    requires WellFormed(v) && WellFormed(w) && SameJson(v, w) && IsContainer(v)
    ensures IsContainer(w) && v.Arr? == w.Arr? && |Children(v)| == |Children(w)| && PairedEach(v, w, Positions(v), Positions(w))
  {
    SameKind(v, w);
    hide SameJson, WellFormed, PairedEach;
    match v
    case Arr(items) => ArrPositionsArePaired(items, w.items);
    case Obj(entries) => ObjPositionsArePaired(entries, w.entries);
  }

  lemma SameKind(v: Value, w: Value)
    requires SameJson(v, w)
    ensures v.Arr? == w.Arr? && v.Obj? == w.Obj?
  {
  }

  lemma ArrPositionsArePaired(xs: seq<Value>, ys: seq<Value>)
    requires SameJson(Arr(xs), Arr(ys))
    ensures |xs| == |ys| && PairedEach(Arr(xs), Arr(ys), Range(|xs|), Range(|ys|))
  {
  }

  lemma ObjPositionsArePaired(es: seq<Entry<Value>>, fs: seq<Entry<Value>>)
    requires WellFormed(Obj(es)) && WellFormed(Obj(fs)) && SameJson(Obj(es), Obj(fs))
    ensures |es| == |fs| && PairedEach(Obj(es), Obj(fs), PositionsByKey(es, |es|), PositionsByKey(fs, |fs|))
  {
    hide SameJson, WellFormed, PositionsByKey, PairedEach, SameEntries, UniqueKeys, HasKey, SameKeyEach;
    SameEntriesIff(es, fs);
    KeysDiffer(Obj(es));
    KeysDiffer(Obj(fs));
    SameHaveSameKeys(es, fs);
    SameKeysInTurn(es, fs);
    SameKeysArePaired(es, fs, PositionsByKey(es, |es|), PositionsByKey(fs, |fs|));
  }

  lemma SameKeysArePaired(es: seq<Entry<Value>>, fs: seq<Entry<Value>>, ps: seq<nat>, qs: seq<nat>)
    requires UniqueKeys(fs) && SameEntries(es, fs) && SameKeyEach(es, fs, ps, qs)
    ensures PairedEach(Obj(es), Obj(fs), ps, qs)
  {
    hide UniqueKeys, SameEntries, Paired;
    forall k | 0 <= k < |ps|
      ensures Paired(Obj(es), Obj(fs), ps[k], qs[k])
    {
      SameKeyIsPaired(es, fs, ps[k], qs[k]);
    }
  }

  lemma SameKeyIsPaired(es: seq<Entry<Value>>, fs: seq<Entry<Value>>, p: nat, q: nat)
    requires UniqueKeys(fs) && SameEntries(es, fs) && p < |es| && q < |fs| && es[p].key == fs[q].key
    ensures Paired(Obj(es), Obj(fs), p, q)
  {
    hide SameJson;
    assert Holds(fs, es[p]);
    var f :| f in fs && es[p].key == f.key && SameJson(es[p].value, f.value);
    var j :| 0 <= j < |fs| && fs[j] == f;
    assert j == q;
  }

  lemma SameConcat(a: seq<Value>, b: seq<Value>, c: seq<Value>, d: seq<Value>)
    requires SameEach(a, b) && SameEach(c, d)
    ensures SameEach(a + c, b + d)
  {
    hide SameJson;
  }

  lemma RemovalsAreSame(v: Value, w: Value)
    requires WellFormed(v) && WellFormed(w) && SameJson(v, w) && IsContainer(v)
    ensures IsContainer(w) && SameEach(Deletions(v), Deletions(w))
  {
    hide SameJson, ChunksFrom, WellFormed, Removals, Positions, PairedEach, Singles, SameEach, Fit;
    PositionsArePaired(v, w);
    if v.Arr? {
      AllChunksFit(|v.items|, |v.items|);
      BlockRemovalsAreSame(v.items, w.items, ChunksFrom(|v.items|, |v.items|));
    } else {
      KeyRemovalsAreSame(v, w, Positions(v), Positions(w));
    }
  }

  lemma BlockRemovalsAreSame(xs: seq<Value>, ys: seq<Value>, chunks: seq<(nat, nat)>)
    requires SameJson(Arr(xs), Arr(ys)) && Fit(chunks, |xs|) && |ys| == |xs|
    ensures SameEach(Removals(Arr(xs), chunks), Removals(Arr(ys), chunks))
  {
    hide SameJson, Removals;
    forall k | 0 <= k < |chunks|
      ensures SameJson(Without(Arr(xs), chunks[k].0, chunks[k].1), Without(Arr(ys), chunks[k].0, chunks[k].1))
    {
      ArrBlocksAreSame(xs, ys, chunks[k].0, chunks[k].1);
    }
  }

  lemma KeyRemovalsAreSame(v: Value, w: Value, ps: seq<nat>, qs: seq<nat>)
    requires WellFormed(v) && WellFormed(w) && SameJson(v, w) && v.Obj? && w.Obj? && PairedEach(v, w, ps, qs)
    requires Within(ps, |Children(v)|) && Within(qs, |Children(w)|)
    ensures Fit(Singles(ps), |Children(v)|) && Fit(Singles(qs), |Children(w)|)
    ensures SameEach(Removals(v, Singles(ps)), Removals(w, Singles(qs)))
  {
    hide SameJson, WellFormed, Removals, Paired, Singles, Without;
    forall k | 0 <= k < |ps|
      ensures SameJson(Removals(v, Singles(ps))[k], Removals(w, Singles(qs))[k])
    {
      assert Singles(ps)[k] == (ps[k], 1) && Singles(qs)[k] == (qs[k], 1);
      PairedIsWithin(v, w, ps[k], qs[k]);
      DeletionsAreSame(v, w, ps[k], qs[k]);
    }
  }

  lemma PairedIsWithin(v: Value, w: Value, p: nat, q: nat)
    requires Paired(v, w, p, q)
    ensures p < |Children(v)| && q < |Children(w)|
  {
    hide SameJson;
  }

  lemma ChildWellFormed(v: Value, p: nat)
    requires WellFormed(v) && p < |Children(v)|
    ensures WellFormed(Children(v)[p])
  {
  }

  /** Inputs that are the same JSON have, one after another, candidates that are the same JSON. */
  lemma {:induction false} CandidatesAreSame(v: Value, w: Value, maxDepth: nat)
    requires WellFormed(v) && WellFormed(w) && SameJson(v, w)
    ensures SameEach(Candidates(v, maxDepth), Candidates(w, maxDepth))
    decreases v, |Children(v)| + 1
  {
    hide Deletions, Positions, Candidates, Edits, SameJson, WellFormed, SameEach, PairedEach;
    if IsContainer(v) {
      RemovalsAreSame(v, w);
      PositionsArePaired(v, w);
      ContainerCandidates(v, maxDepth);
      ContainerCandidates(w, maxDepth);
      if maxDepth > 0 {
        EditsAreSameInTurn(v, w, Positions(v), Positions(w), maxDepth - 1);
        SameConcat(Deletions(v), Deletions(w), Edits(v, Positions(v), maxDepth - 1), Edits(w, Positions(w), maxDepth - 1));
      } else {
        assert Deletions(v) + [] == Deletions(v) && Deletions(w) + [] == Deletions(w);
      }
    } else {
      ScalarsAreEqual(v, w);
      ScalarCandidatesAreSame(v, maxDepth);
    }
  }

  lemma ScalarsAreEqual(v: Value, w: Value)
    requires SameJson(v, w) && !IsContainer(v)
    ensures v == w
  {
  }

  lemma ScalarCandidatesAreSame(v: Value, maxDepth: nat)
    requires !IsContainer(v)
    ensures SameEach(Candidates(v, maxDepth), Candidates(v, maxDepth))
  {
  }

  lemma {:induction false} EditsAreSameInTurn(v: Value, w: Value, ps: seq<nat>, qs: seq<nat>, maxDepth: nat)
    requires WellFormed(v) && WellFormed(w) && SameJson(v, w) && IsContainer(v) && IsContainer(w) && PairedEach(v, w, ps, qs)
    requires |ps| <= |Children(v)| && Within(ps, |Children(v)|) && |qs| <= |Children(w)| && Within(qs, |Children(w)|)
    ensures SameEach(Edits(v, ps, maxDepth), Edits(w, qs, maxDepth))
    decreases v, |ps|
  {
    hide SameJson, WellFormed, Candidates, Children, Edits;
    FirstEdits(v, ps, maxDepth);
    FirstEdits(w, qs, maxDepth);
    if ps != [] {
      var p, q := ps[0], qs[0];
      var cs, ds := Candidates(Children(v)[p], maxDepth), Candidates(Children(w)[q], maxDepth);
      assert Paired(v, w, p, q);
      ChildWellFormed(v, p);
      ChildWellFormed(w, q);
      CandidatesAreSame(Children(v)[p], Children(w)[q], maxDepth);
      EditsOfChildAreSame(v, w, p, q, cs, ds);
      EditsAreSameInTurn(v, w, ps[1..], qs[1..], maxDepth);
      SameConcat(EditsOfChild(v, p, cs), EditsOfChild(w, q, ds), Edits(v, ps[1..], maxDepth), Edits(w, qs[1..], maxDepth));
    }
  }

  lemma EditsOfChildAreSame(v: Value, w: Value, p: nat, q: nat, cs: seq<Value>, ds: seq<Value>)
    requires WellFormed(v) && WellFormed(w) && SameJson(v, w) && IsContainer(v) && IsContainer(w) && Paired(v, w, p, q) && SameEach(cs, ds)
    requires p < |Children(v)| && q < |Children(w)|
    ensures SameEach(EditsOfChild(v, p, cs), EditsOfChild(w, q, ds))
  {
    hide SameJson, WellFormed, Paired, EditsOfChild;
    forall k | 0 <= k < |cs|
      ensures SameJson(WithChild(v, p, cs[k]), WithChild(w, q, ds[k]))
    {
      EditsAreSame(v, w, p, q, cs[k], ds[k]);
    }
  }

  // ---------------------------------------------------------------------------------------
  // Candidates have unique keys and the same depth
  // ---------------------------------------------------------------------------------------

  lemma WithoutWellFormed(v: Value, start: nat, n: nat)
    requires WellFormed(v) && IsContainer(v) && start + n <= |Children(v)|
    ensures WellFormed(Without(v, start, n))
  {
    if v.Obj? {
      var r := v.entries[..start] + v.entries[start + n..];
      forall i | 0 <= i < |r|
        ensures r[i] == v.entries[if i < start then i else i + n]
      {
      }
      hide WellFormed;
      BlockWellFormed(v.entries, r, start, n);
    } else {
      ItemBlockWellFormed(v.items, start, n);
    }
  }

  lemma ItemBlockWellFormed(items: seq<Value>, start: nat, n: nat)
    requires WellFormed(Arr(items)) && start + n <= |items|
    ensures WellFormed(Arr(items[..start] + items[start + n..]))
  {
  }

  lemma BlockWellFormed(es: seq<Entry<Value>>, r: seq<Entry<Value>>, start: nat, n: nat)
    requires WellFormed(Obj(es)) && start + n <= |es| && |r| == |es| - n
    requires forall i :: 0 <= i < |r| ==> r[i] == es[if i < start then i else i + n]
    ensures WellFormed(Obj(r))
  {
  }

  lemma WithChildWellFormed(v: Value, p: nat, c: Value)
    requires WellFormed(v) && IsContainer(v) && p < |Children(v)| && WellFormed(c)
    ensures WellFormed(WithChild(v, p, c))
  {
  }

  lemma {:induction false} CandidateWellFormed(v: Value, maxDepth: nat, c: Value)
    requires WellFormed(v) && c in Candidates(v, maxDepth)
    ensures WellFormed(c)
    decreases v, |Children(v)| + 1
  {
    hide Deletions, Positions, Candidates, Edits, WellFormed, WithChild;
    if IsContainer(v) {
      ContainerCandidates(v, maxDepth);
      if c in Deletions(v) {
        DeletionWellFormed(v, c);
      } else {
        EditsHold(v, Positions(v), maxDepth - 1, c);
        var k, d :| 0 <= k < |Positions(v)| && Positions(v)[k] < |Children(v)| && d in Candidates(Children(v)[Positions(v)[k]], maxDepth - 1) && c == WithChild(v, Positions(v)[k], d);
        ChildWellFormed(v, Positions(v)[k]);
        CandidateWellFormed(Children(v)[Positions(v)[k]], maxDepth - 1, d);
        WithChildWellFormed(v, Positions(v)[k], d);
      }
    } else {
      ScalarCandidateWellFormed(v, maxDepth, c);
    }
  }

  lemma ScalarCandidateWellFormed(v: Value, maxDepth: nat, c: Value)
    requires !IsContainer(v) && c in Candidates(v, maxDepth)
    ensures WellFormed(c)
  {
  }

  lemma RemovalWellFormed(v: Value, chunks: seq<(nat, nat)>, c: Value)
    requires WellFormed(v) && IsContainer(v) && Fit(chunks, |Children(v)|) && c in Removals(v, chunks)
    ensures WellFormed(c)
  {
    hide WellFormed, Without;
    var k :| 0 <= k < |chunks| && Removals(v, chunks)[k] == c;
    WithoutWellFormed(v, chunks[k].0, chunks[k].1);
  }

  lemma DeletionWellFormed(v: Value, c: Value)
    requires WellFormed(v) && IsContainer(v) && c in Deletions(v)
    ensures WellFormed(c)
  {
    hide WellFormed, Removals, ChunksFrom, Positions;
    match v
    case Arr(items) =>
      AllChunksFit(|items|, |items|);
      RemovalWellFormed(v, ChunksFrom(|items|, |items|), c);
    case Obj(entries) =>
      RemovalWellFormed(v, Singles(Positions(v)), c);
  }

  lemma {:induction false} DepthWithin(vs: seq<Value>, d: nat)
    requires forall i :: 0 <= i < |vs| ==> Depth(vs[i]) <= d
    ensures MaxDepth(vs) <= d
  {
    hide Depth;
    if vs != [] {
      DepthWithin(vs[1..], d);
    }
  }

  /** Values that are the same JSON are nested equally deep. */
  lemma {:induction false} SameDepth(v: Value, w: Value)
    requires WellFormed(v) && WellFormed(w) && SameJson(v, w)
    ensures Depth(v) == Depth(w)
    decreases v
  {
    hide SameJson, WellFormed, Depth, Positions, Paired, PairedEach, MaxDepth;
    SameKind(v, w);
    if IsContainer(v) {
      PositionsArePaired(v, w);
      ContainerMeasures(v);
      ContainerMeasures(w);
      var cs, ds := Children(v), Children(w);
      forall k: nat | k < |cs|
        ensures Positions(v)[k] < |cs| && Positions(w)[k] < |ds| && Depth(cs[Positions(v)[k]]) == Depth(ds[Positions(w)[k]])
      {
        PairedAt(v, w, Positions(v), Positions(w), k);
        ChildWellFormed(v, Positions(v)[k]);
        ChildWellFormed(w, Positions(w)[k]);
        SameDepth(cs[Positions(v)[k]], ds[Positions(w)[k]]);
      }
      forall i: nat | i < |cs|
        ensures Depth(cs[i]) <= MaxDepth(ds) && Depth(ds[i]) <= MaxDepth(cs)
      {
        assert i in Positions(v) && i in Positions(w);
        var a, b :| 0 <= a < |cs| && Positions(v)[a] == i && 0 <= b < |cs| && Positions(w)[b] == i;
        ChildDepth(ds, Positions(w)[a]);
        ChildDepth(cs, Positions(v)[b]);
      }
      DepthWithin(cs, MaxDepth(ds));
      DepthWithin(ds, MaxDepth(cs));
    } else {
      ScalarsAreEqual(v, w);
    }
  }

  lemma PairedAt(v: Value, w: Value, ps: seq<nat>, qs: seq<nat>, k: nat)
    requires PairedEach(v, w, ps, qs) && k < |ps|
    ensures ps[k] < |Children(v)| && qs[k] < |Children(w)| && SameJson(Children(v)[ps[k]], Children(w)[qs[k]])
  {
    hide SameJson;
    assert Paired(v, w, ps[k], qs[k]);
  }

  // ---------------------------------------------------------------------------------------
  // Whole runs
  // ---------------------------------------------------------------------------------------

  /** The predicate and the size do not see the order of keys. */
  ghost predicate Blind(host: Host) {
    forall a, b :: WellFormed(a) && WellFormed(b) && SameJson(a, b) ==> host.fails(a) == host.fails(b) && host.byteLength(a) == host.byteLength(b)
  }

  lemma {:induction false} SameStop(cs: seq<Value>, ds: seq<Value>, host: Host, maxBytes: nat, i: nat)
    requires Blind(host) && SameEach(cs, ds) && i <= |cs|
    requires (forall c :: c in cs ==> WellFormed(c)) && forall d :: d in ds ==> WellFormed(d)
    ensures FirstStop(cs, host, maxBytes, i) == FirstStop(ds, host, maxBytes, i)
    decreases |cs| - i
  {
    hide SameJson, WellFormed;
    if i < |cs| {
      assert WellFormed(cs[i]) && WellFormed(ds[i]) && SameJson(cs[i], ds[i]);
      SameStop(cs, ds, host, maxBytes, i + 1);
    }
  }

  /** The two results are the same JSON, reached with the same effort, or the same error. */
  ghost predicate SameResult(r: Result<ShrinkResult, ShrinkError>, q: Result<ShrinkResult, ShrinkError>) {
    if r.Err? then r == q
    else q.Ok? && SameJson(r.value.value, q.value.value) && q.value == r.value.(value := q.value.value)
  }

  lemma SamePass(cs: seq<Value>, ds: seq<Value>, host: Host, limits: Limits, attempts: nat)
    requires Blind(host) && SameEach(cs, ds)
    requires (forall c :: c in cs ==> WellFormed(c)) && forall d :: d in ds ==> WellFormed(d)
    ensures var a, b := PassOver(cs, host, limits, attempts), PassOver(ds, host, limits, attempts);
      if a.Accepted? then b.Accepted? && SameJson(a.value, b.value) && WellFormed(a.value) && WellFormed(b.value) && a.attempts == b.attempts else a == b
  {
    hide SameJson, WellFormed;
    SameStop(cs, ds, host, limits.maxBytes, 0);
    var k := FirstStop(cs, host, limits.maxBytes, 0);
    if k < |cs| {
      assert WellFormed(cs[k]) && WellFormed(ds[k]) && SameJson(cs[k], ds[k]);
    }
  }

  lemma {:induction false} SameRuns(v: Value, w: Value, host: Host, limits: Limits, attempts: nat, reductions: nat)
    requires WellFormed(v) && WellFormed(w) && SameJson(v, w) && Blind(host)
    ensures SameResult(ShrinkFrom(v, host, limits, attempts, reductions), ShrinkFrom(w, host, limits, attempts, reductions))
    decreases Size(v)
  {
    hide SameJson, WellFormed, Blind, Candidates, PassOver, Size, SameEach;
    if attempts < limits.maxAttempts && reductions < limits.maxReductions {
      var cs, ds := Candidates(v, limits.maxDepth), Candidates(w, limits.maxDepth);
      CandidatesAreSame(v, w, limits.maxDepth);
      forall c | c in cs
        ensures WellFormed(c)
      {
        CandidateWellFormed(v, limits.maxDepth, c);
      }
      forall d | d in ds
        ensures WellFormed(d)
      {
        CandidateWellFormed(w, limits.maxDepth, d);
      }
      SamePass(cs, ds, host, limits, attempts);
      var pass, other := PassOver(cs, host, limits, attempts), PassOver(ds, host, limits, attempts);
      if pass.Accepted? {
        CandidatesShrink(v, limits.maxDepth, pass.value);
        SameRuns(pass.value, other.value, host, limits, pass.attempts, reductions + 1);
      }
    }
  }

  /**
   Two inputs that are the same JSON shrink, under any options, to values that are the same JSON
   with the same attempts and reductions, if neither predicate nor size sees the order of keys.
   */
  lemma KeyOrderDoesNotMatter(v: Value, w: Value, host: Host, options: Options)
    requires WellFormed(v) && WellFormed(w) && SameJson(v, w) && Blind(host)
    ensures SameResult(ShrinkSpec(v, host, options), ShrinkSpec(w, host, options))
  {
    hide WellFormed, SameJson, ShrinkFrom, Depth;
    SameDepth(v, w);
    assert host.byteLength(v) == host.byteLength(w);
    if NormalizeLimits(options).Ok? {
      SameRuns(v, w, host, NormalizeLimits(options).value, 0, 0);
    }
  }

  // ---------------------------------------------------------------------------------------
  // The printed size does not see the order of keys
  // ---------------------------------------------------------------------------------------

  /** Entries under one key have values of one size. */
  ghost predicate SizesAgree(es: seq<Entry<Value>>, fs: seq<Entry<Value>>, leaf: Value -> nat) {
    forall e, f :: e in es && f in fs && e.key == f.key ==> Bytes(e.value, leaf) == Bytes(f.value, leaf)
  }

  function EntryBytes(es: seq<Entry<Value>>, leaf: Value -> nat): nat {
    KeyBytes(es) + Sum(Values(es), leaf)
  }

  lemma ValuesOfConcat(a: seq<Entry<Value>>, b: seq<Entry<Value>>)
    ensures Values(a + b) == Values(a) + Values(b)
  {
    hide Values;
  }

  /** Taking one entry out takes its bytes. */
  lemma EntryBytesWithout(es: seq<Entry<Value>>, p: nat, leaf: Value -> nat)
    requires p < |es|
    ensures EntryBytes(es, leaf) == EntryBytes(es[..p] + es[p + 1..], leaf) + TextBytes(Quote(es[p].key)) + 1 + Bytes(es[p].value, leaf)
  {
    hide Bytes, TextBytes, Quote, Sum, KeyBytes, Values;
    var a, m, b := es[..p], [es[p]], es[p + 1..];
    assert es == a + (m + b);
    KeysOfConcat(a, m + b);
    KeysOfConcat(m, b);
    KeysOfConcat(a, b);
    ValuesOfConcat(a, m + b);
    ValuesOfConcat(m, b);
    ValuesOfConcat(a, b);
    SumOfConcat(Values(a), Values(m) + Values(b), leaf);
    SumOfConcat(Values(m), Values(b), leaf);
    SumOfConcat(Values(a), Values(b), leaf);
    OneEntry(es[p], leaf);
  }

  lemma OneEntry(e: Entry<Value>, leaf: Value -> nat)
    ensures KeyBytes([e]) == TextBytes(Quote(e.key)) + 1 && Sum(Values([e]), leaf) == Bytes(e.value, leaf)
  {
    hide Bytes, TextBytes, Quote;
    assert [e][1..] == [] && Values([e]) == [e.value] && [e.value][1..] == [];
  }

  lemma {:induction false} SameEntryBytes(es: seq<Entry<Value>>, fs: seq<Entry<Value>>, leaf: Value -> nat)
    requires UniqueKeys(es) && UniqueKeys(fs) && SizesAgree(es, fs, leaf) && forall key :: HasKey(es, key) <==> HasKey(fs, key)
    ensures |es| == |fs| && EntryBytes(es, leaf) == EntryBytes(fs, leaf)
    decreases |es|
  {
    hide EntryBytes, TextBytes, Quote, Bytes, UniqueKeys;
    if es == [] {
      if fs != [] {
        KeyIn(fs, fs[0]);
        var e := HasKeyIn(es, fs[0].key);
      }
    } else {
      KeyIn(es, es[0]);
      var f := HasKeyIn(fs, es[0].key);
      var q :| 0 <= q < |fs| && fs[q] == f;
      EntryBytesWithout(es, 0, leaf);
      EntryBytesWithout(fs, q, leaf);
      Remaining(es, 0);
      Remaining(fs, q);
      RemainingPlaces(fs, q);
      var restE, restF := es[..0] + es[1..], fs[..q] + fs[q + 1..];
      hide HasKey;
      forall key
        ensures HasKey(restE, key) <==> HasKey(restF, key)
      {
        KeyLeft(es, 0, key);
        KeyLeft(fs, q, key);
      }
      SameEntryBytes(restE, restF, leaf);
    }
  }

  lemma KeyLeft(es: seq<Entry<Value>>, p: nat, key: Text)
    requires UniqueKeys(es) && p < |es|
    ensures HasKey(es[..p] + es[p + 1..], key) <==> HasKey(es, key) && key != es[p].key
  {
    hide HasKey, UniqueKeys;
    Remaining(es, p);
    var r := es[..p] + es[p + 1..];
    if HasKey(es, key) && key != es[p].key {
      var e := HasKeyIn(es, key);
      KeyIn(r, e);
    }
    if HasKey(r, key) {
      var e := HasKeyIn(r, key);
      KeyIn(es, e);
    }
  }

  lemma ObjBytes(es: seq<Entry<Value>>, leaf: Value -> nat)
    ensures Bytes(Obj(es), leaf) == 2 + Commas(|es|) + EntryBytes(es, leaf)
  {
    hide Bytes, KeyBytes, Sum;
    ContainerBytes(Obj(es), leaf);
  }

  lemma {:induction false} SameBytes(v: Value, w: Value, leaf: Value -> nat)
    requires WellFormed(v) && WellFormed(w) && SameJson(v, w)
    ensures Bytes(v, leaf) == Bytes(w, leaf)
    decreases v
  {
    hide SameJson, WellFormed, Bytes, EntryBytes, HasKey, UniqueKeys, SameEntries, SizesAgree;
    SameKind(v, w);
    match v
    case Arr(items) => SameItemBytes(items, w.items, leaf);
    case Obj(entries) =>
      SameEntriesIff(entries, w.entries);
      KeysDiffer(v);
      KeysDiffer(w);
      SameHaveSameKeys(entries, w.entries);
      SameSizes(entries, w.entries, leaf);
      SameEntryBytes(entries, w.entries, leaf);
      ObjBytes(entries, leaf);
      ObjBytes(w.entries, leaf);
    case _ => ScalarsAreEqual(v, w);
  }

  lemma {:induction false} SameSizes(es: seq<Entry<Value>>, fs: seq<Entry<Value>>, leaf: Value -> nat)
    requires WellFormed(Obj(es)) && WellFormed(Obj(fs)) && SameEntries(es, fs)
    ensures SizesAgree(es, fs, leaf)
    decreases es, 0
  {
    hide SameJson, Bytes, WellFormed;
    KeysDiffer(Obj(fs));
    forall e, f | e in es && f in fs && e.key == f.key
      ensures Bytes(e.value, leaf) == Bytes(f.value, leaf)
    {
      assert Holds(fs, e);
      var g :| g in fs && e.key == g.key && SameJson(e.value, g.value);
      var i :| 0 <= i < |es| && es[i] == e;
      var j :| 0 <= j < |fs| && fs[j] == f;
      var k :| 0 <= k < |fs| && fs[k] == g;
      assert j == k;
      EntryWellFormed(es, i);
      EntryWellFormed(fs, j);
      SameBytes(es[i].value, f.value, leaf);
    }
  }

  lemma EntryWellFormed(es: seq<Entry<Value>>, i: nat)
    requires WellFormed(Obj(es)) && i < |es|
    ensures WellFormed(es[i].value)
  {
  }

  lemma {:induction false} SameItemBytes(xs: seq<Value>, ys: seq<Value>, leaf: Value -> nat)
    requires WellFormed(Arr(xs)) && WellFormed(Arr(ys)) && SameJson(Arr(xs), Arr(ys))
    ensures Bytes(Arr(xs), leaf) == Bytes(Arr(ys), leaf)
    decreases xs, 0
  {
    forall i | 0 <= i < |xs|
      ensures Bytes(xs[i], leaf) == Bytes(ys[i], leaf)
    {
      SameItem(xs, ys, i);
      hide SameJson, WellFormed, Bytes;
      SameBytes(xs[i], ys[i], leaf);
    }
    SameItem(xs, ys, |xs|);
    hide SameJson, WellFormed, Bytes, Sum;
    SameSum(xs, ys, leaf);
    ContainerBytes(Arr(xs), leaf);
    ContainerBytes(Arr(ys), leaf);
  }

  lemma SameItem(xs: seq<Value>, ys: seq<Value>, i: nat)
    requires WellFormed(Arr(xs)) && WellFormed(Arr(ys)) && SameJson(Arr(xs), Arr(ys))
    ensures |xs| == |ys| && (i < |xs| ==> WellFormed(xs[i]) && WellFormed(ys[i]) && SameJson(xs[i], ys[i]))
  {
  }

  lemma {:induction false} SameSum(xs: seq<Value>, ys: seq<Value>, leaf: Value -> nat)
    requires |xs| == |ys| && forall i :: 0 <= i < |xs| ==> Bytes(xs[i], leaf) == Bytes(ys[i], leaf)
    ensures Sum(xs, leaf) == Sum(ys, leaf)
  {
    hide Bytes;
    if xs != [] {
      SameSum(xs[1..], ys[1..], leaf);
    }
  }

  /** With printed sizes it is enough that the predicate does not see the order of keys. */
  lemma PrintingIsBlind(fails: Value -> bool, numeral: real -> Numeral)
    requires forall a, b :: WellFormed(a) && WellFormed(b) && SameJson(a, b) ==> fails(a) == fails(b)
    ensures Blind(Printing(fails, numeral))
  {
    hide WellFormed, SameJson, PrintedBytes, Bytes;
    var host := Printing(fails, numeral);
    forall a, b | WellFormed(a) && WellFormed(b) && SameJson(a, b)
      ensures host.fails(a) == host.fails(b) && host.byteLength(a) == host.byteLength(b)
    {
      PrintedIsLength(a, numeral);
      PrintedIsLength(b, numeral);
      SameBytes(a, b, x => ScalarLength(x, numeral));
    }
  }
}
