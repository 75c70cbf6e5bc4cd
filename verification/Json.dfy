/**
 JSON values as JavaScript holds them.  Strings are sequences of UTF-16 code units and objects
 keep their entries in property order.  The type of numbers is a parameter: the shrinker
 computes with them, the printer only needs their text.
 */
module Json {
  type CodeUnit = u: int | 0 <= u < 0x1_0000

  type Text = seq<CodeUnit>

  datatype Json<+N> =
    | Null
    | Bool(b: bool)
    | Num(n: N)
    | Str(s: Text)
    | Arr(items: seq<Json<N>>)
    | Obj(entries: seq<Entry<Json<N>>>)

  /** A property of an object; the value type is open so that rendered properties are entries too. */
  datatype Entry<+V> = Entry(key: Text, value: V)

  predicate IsContainer<N>(v: Json<N>) {
    v.Arr? || v.Obj?
  }

  function Values<N>(entries: seq<Entry<Json<N>>>): (r: seq<Json<N>>)
    ensures |r| == |entries| && forall i :: 0 <= i < |r| ==> r[i] == entries[i].value
  {
    if entries == [] then [] else [entries[0].value] + Values(entries[1..])
  }

  /** The direct children; arrays and objects are treated alike where only those matter. */
  function Children<N>(v: Json<N>): (r: seq<Json<N>>)
    ensures forall i :: 0 <= i < |r| ==> r[i] < v
  {
    match v
    case Arr(items) => items
    case Obj(entries) =>
      assert forall i :: 0 <= i < |entries| ==> entries[i] < v;
      Values(entries)
    case _ => []
  }

  /** JavaScript's order on strings: lexicographic by code unit. */
  predicate TextLeq(a: Text, b: Text) {
    a == [] || (b != [] && (a[0] < b[0] || (a[0] == b[0] && TextLeq(a[1..], b[1..]))))
  }

  ghost predicate SmallerAt(a: Text, b: Text, i: nat) {
    i < |a| && i < |b| && a[..i] == b[..i] && a[i] < b[i]
  }

  lemma SmallerInRest(a: Text, b: Text, i: nat)
    requires a != [] && b != [] && a[0] == b[0]
    ensures SmallerAt(a[1..], b[1..], i) <==> SmallerAt(a, b, i + 1)
  {
    if i < |a[1..]| && i < |b[1..]| {
      assert a[..i + 1] == [a[0]] + a[1..][..i] && b[..i + 1] == [b[0]] + b[1..][..i];
    }
  }

  /** a is a front part of b, or smaller at the first place where they differ. */
  lemma {:induction false} TextLeqIff(a: Text, b: Text)
    ensures TextLeq(a, b) <==> a <= b || exists i: nat :: SmallerAt(a, b, i)
  {
    if a != [] && b != [] && a[0] == b[0] {
      TextLeqIff(a[1..], b[1..]);
      assert a == [a[0]] + a[1..] && b == [b[0]] + b[1..];
      if i: nat :| SmallerAt(a[1..], b[1..], i) {
        SmallerInRest(a, b, i);
      }
      if i: nat :| SmallerAt(a, b, i) {
        assert i > 0;
        SmallerInRest(a, b, i - 1);
      }
    } else if a != [] && b != [] && a[0] < b[0] {
      assert SmallerAt(a, b, 0);
    }
  }

  /** The code units are the characters of the word. */
  predicate Spells(t: Text, word: string) {
    |t| == |word| && forall i :: 0 <= i < |t| ==> t[i] == word[i] as int
  }

  lemma {:induction false} TextLeqTotal(a: Text, b: Text)
    ensures TextLeq(a, b) || TextLeq(b, a)
  {
    if a != [] && b != [] && a[0] == b[0] {
      TextLeqTotal(a[1..], b[1..]);
    }
  }

  lemma {:induction false} TextLeqTransitive(a: Text, b: Text, c: Text)
    requires TextLeq(a, b) && TextLeq(b, c)
    ensures TextLeq(a, c)
  {
    if a != [] && a[0] == b[0] && b[0] == c[0] {
      TextLeqTransitive(a[1..], b[1..], c[1..]);
    }
  }

  lemma {:induction false} TextLeqAntisymmetric(a: Text, b: Text)
    requires TextLeq(a, b) && TextLeq(b, a)
    ensures a == b
  {
    if a != [] {
      TextLeqAntisymmetric(a[1..], b[1..]);
      assert a == [a[0]] + a[1..] && b == [b[0]] + b[1..];
    }
  }

  // ---------------------------------------------------------------------------------------
  // Entries in key order
  // ---------------------------------------------------------------------------------------

  ghost predicate UniqueKeys<V>(es: seq<Entry<V>>) {
    forall i, j :: 0 <= i < j < |es| ==> es[i].key != es[j].key
  }

  /** Keys strictly increase along the list. */
  ghost predicate StrictlySorted<V>(es: seq<Entry<V>>) {
    forall i, j :: 0 <= i < j < |es| ==> TextLeq(es[i].key, es[j].key) && es[i].key != es[j].key
  }

  function InsertEntry<V>(e: Entry<V>, es: seq<Entry<V>>): (r: seq<Entry<V>>)
    ensures multiset(r) == multiset{e} + multiset(es)
    ensures |r| == |es| + 1
  {
    if es == [] || TextLeq(e.key, es[0].key) then [e] + es
    else
      assert es == [es[0]] + es[1..];
      [es[0]] + InsertEntry(e, es[1..])
  }

  function SortByKey<V>(es: seq<Entry<V>>): (r: seq<Entry<V>>)
    ensures multiset(r) == multiset(es)
    ensures |r| == |es|
  {
    if es == [] then []
    else
      assert es == [es[0]] + es[1..];
      InsertEntry(es[0], SortByKey(es[1..]))
  }

  lemma {:induction false} InsertedStaysSorted<V>(e: Entry<V>, es: seq<Entry<V>>)
    requires StrictlySorted(es) && forall x :: x in es ==> x.key != e.key
    ensures StrictlySorted(InsertEntry(e, es))
  {
    if es == [] {
    } else if TextLeq(e.key, es[0].key) {
      forall j | 0 <= j < |es|
        ensures TextLeq(e.key, es[j].key) && es[j].key != e.key
      {
        assert es[j] in es;
        if j > 0 {
          TextLeqTransitive(e.key, es[0].key, es[j].key);
        }
      }
    } else {
      TextLeqTotal(e.key, es[0].key);
      var rest := InsertEntry(e, es[1..]);
      assert forall x :: x in es[1..] ==> x in es;
      InsertedStaysSorted(e, es[1..]);
      assert es[0] in es;
      forall j | 0 <= j < |rest|
        ensures TextLeq(es[0].key, rest[j].key) && es[0].key != rest[j].key
      {
        assert rest[j] in multiset(rest);
        if rest[j] != e {
          assert rest[j] in es[1..];
          var k :| 0 <= k < |es[1..]| && es[1..][k] == rest[j];
          assert es[k + 1] == rest[j];
        }
      }
    }
  }

  lemma {:induction false} SortByKeySorts<V>(es: seq<Entry<V>>)
    requires UniqueKeys(es)
    ensures StrictlySorted(SortByKey(es))
  {
    if es != [] {
      var rest := es[1..];
      SortByKeySorts(rest);
      forall x | x in SortByKey(rest)
        ensures x.key != es[0].key
      {
        assert x in multiset(SortByKey(rest));
        assert x in multiset(rest);
        var k :| 0 <= k < |rest| && rest[k] == x;
        assert es[k + 1] == x;
      }
      InsertedStaysSorted(es[0], SortByKey(rest));
    }
  }

  /** Two strictly sorted lists with the same entries are the same list. */
  lemma {:induction false} SortedListsAgree<V>(xs: seq<Entry<V>>, ys: seq<Entry<V>>)
    requires StrictlySorted(xs) && StrictlySorted(ys)
    requires forall x :: x in xs <==> x in ys
    ensures xs == ys
  {
    assert |xs| > 0 ==> xs[0] in xs;
    assert |ys| > 0 ==> ys[0] in ys;
    if xs != [] {
      SmallestIsFirst(xs, ys);
      forall x
        ensures x in xs[1..] <==> x in ys[1..]
      {
        InTail(xs, x);
        InTail(ys, x);
      }
      SortedListsAgree(xs[1..], ys[1..]);
      assert xs == [xs[0]] + xs[1..] && ys == [ys[0]] + ys[1..];
    }
  }

  lemma InTail<V>(xs: seq<Entry<V>>, x: Entry<V>)
    requires StrictlySorted(xs) && xs != []
    ensures x in xs[1..] <==> x in xs && x != xs[0]
  {
    hide TextLeq;
    if x in xs[1..] {
      var i :| 0 <= i < |xs[1..]| && xs[1..][i] == x;
      assert xs[i + 1] == x;
    }
    if x in xs && x != xs[0] {
      var i :| 0 <= i < |xs| && xs[i] == x;
      assert xs[1..][i - 1] == x;
    }
  }

  lemma SmallestIsFirst<V>(xs: seq<Entry<V>>, ys: seq<Entry<V>>)
    requires StrictlySorted(xs) && StrictlySorted(ys) && xs != [] && ys != []
    requires xs[0] in ys && ys[0] in xs
    ensures xs[0] == ys[0]
  {
    hide TextLeq;
    var j :| 0 <= j < |ys| && ys[j] == xs[0];
    var k :| 0 <= k < |xs| && xs[k] == ys[0];
    if j != 0 && k != 0 {
      TextLeqAntisymmetric(xs[0].key, ys[0].key);
    }
  }

  /** If xs is included in ys, which has unique keys, and has all its keys, the two hold the same entries. */
  lemma InclusionSuffices<V>(xs: seq<Entry<V>>, ys: seq<Entry<V>>)
    requires UniqueKeys(ys)
    requires forall i :: 0 <= i < |xs| ==> xs[i] in ys
    requires forall j :: 0 <= j < |ys| ==> exists i :: 0 <= i < |xs| && xs[i].key == ys[j].key
    ensures forall x :: x in xs <==> x in ys
  {
    forall j | 0 <= j < |ys|
      ensures ys[j] in xs
    {
      var i :| 0 <= i < |xs| && xs[i].key == ys[j].key;
      var k :| 0 <= k < |ys| && ys[k] == xs[i];
    }
  }

  // ---------------------------------------------------------------------------------------
  // Equality up to key order
  // ---------------------------------------------------------------------------------------

  /** No object inside v has a key twice, as in every JavaScript object. */
  ghost predicate WellFormed<N>(v: Json<N>) {
    match v
    case Arr(items) => forall i :: 0 <= i < |items| ==> WellFormed(items[i])
    case Obj(entries) => UniqueKeys(entries) && forall i :: 0 <= i < |entries| ==> WellFormed(entries[i].value)
    case _ => true
  }

  ghost predicate HasKey<V>(es: seq<Entry<V>>, key: Text) {
    exists i :: 0 <= i < |es| && es[i].key == key
  }

  /** The same JSON value, not counting the order of keys at any level. */
  ghost predicate SameJson<N>(v: Json<N>, w: Json<N>)
    decreases v
  {
    match (v, w)
    case (Arr(xs), Arr(ys)) => |xs| == |ys| && forall i :: 0 <= i < |xs| ==> SameJson(xs[i], ys[i])
    case (Obj(es), Obj(fs)) =>
      && (forall i :: 0 <= i < |es| ==> HoldsSame(fs, es[i]))
      && (forall j :: 0 <= j < |fs| ==> HasKey(es, fs[j].key))
    case _ => v == w
  }

  /** fs has an entry with the same key and the same value as e. */
  ghost predicate HoldsSame<N>(fs: seq<Entry<Json<N>>>, e: Entry<Json<N>>)
    decreases e
  {
    exists j :: 0 <= j < |fs| && e.key == fs[j].key && SameJson(e.value, fs[j].value)
  }
}
