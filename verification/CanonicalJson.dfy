/**
 The two canonical JSON printers of the audit log: the verifier's, which sorts keys while it
 prints, and the writer's, which rebuilds every object with its keys inserted in sorted order
 and then prints that.  Both are related to one plain printer, which is proved injective.
 */
module CanonicalJson {
  import opened Results
  import opened Json
  import opened JsonPrinter
  import opened JsonReader
  import opened Sorting

  // ---------------------------------------------------------------------------------------
  // The verifier's canonical form
  // ---------------------------------------------------------------------------------------

  /** canonicalStringify: properties are rendered and put in the order of their keys. */
  function CanonicalStringify(v: Document): Text
    decreases v, 1
  {
    match v
    case Arr(items) => [OPEN_BRACKET] + Join(CanonicalItems(items), false) + [CLOSE_BRACKET]
    case Obj(entries) => [OPEN_BRACE] + Join(Properties(SortByKey(CanonicalEntries(entries))), false) + [CLOSE_BRACE]
    case _ => Print(v)
  }

  function CanonicalItems(items: seq<Document>): seq<Text>
    decreases items, 0
  {
    if items == [] then [] else [CanonicalStringify(items[0])] + CanonicalItems(items[1..])
  }

  /** Each key with the canonical text of its value. */
  function CanonicalEntries(entries: seq<Entry<Document>>): seq<Entry<Text>>
    decreases entries, 0
  {
    if entries == [] then [] else [Entry(entries[0].key, CanonicalStringify(entries[0].value))] + CanonicalEntries(entries[1..])
  }

  function Properties(rendered: seq<Entry<Text>>): seq<Text> {
    if rendered == [] then [] else [Quote(rendered[0].key) + [COLON] + rendered[0].value] + Properties(rendered[1..])
  }

  /** Array.prototype.join(','); started says that something already stands in front. */
  function Join(parts: seq<Text>, started: bool): Text {
    if parts == [] then [] else (if started then [COMMA] else []) + parts[0] + Join(parts[1..], true)
  }

  /** The document with the entries of every object in key order. */
  function SortKeys(v: Document): Document
    decreases v, 1
  {
    match v
    case Arr(items) => Arr(SortItems(items))
    case Obj(entries) => Obj(SortByKey(SortValues(entries)))
    case _ => v
  }

  function SortItems(items: seq<Document>): (r: seq<Document>)
    ensures |r| == |items| && forall i :: 0 <= i < |r| ==> r[i] == SortKeys(items[i])
    decreases items, 0
  {
    if items == [] then [] else [SortKeys(items[0])] + SortItems(items[1..])
  }

  function SortValues(entries: seq<Entry<Document>>): (r: seq<Entry<Document>>)
    ensures |r| == |entries| && forall i :: 0 <= i < |r| ==> r[i] == Entry(entries[i].key, SortKeys(entries[i].value))
    decreases entries, 0
  {
    if entries == [] then [] else [Entry(entries[0].key, SortKeys(entries[0].value))] + SortValues(entries[1..])
  }

  function PrintEach(entries: seq<Entry<Document>>): seq<Entry<Text>> {
    if entries == [] then [] else [Entry(entries[0].key, Print(entries[0].value))] + PrintEach(entries[1..])
  }

  lemma {:induction false} PrintEachInsert(e: Entry<Document>, es: seq<Entry<Document>>)
    ensures PrintEach(InsertEntry(e, es)) == InsertEntry(Entry(e.key, Print(e.value)), PrintEach(es))
  {
    hide Print, TextLeq;
    if es == [] || TextLeq(e.key, es[0].key) {
      assert ([e] + es)[1..] == es;
    } else {
      PrintEachInsert(e, es[1..]);
    }
  }

  /** Rendering the values of entries and sorting the entries commute. */
  lemma {:induction false} PrintEachSort(es: seq<Entry<Document>>)
    ensures PrintEach(SortByKey(es)) == SortByKey(PrintEach(es))
  {
    hide Print, TextLeq, InsertEntry;
    if es != [] {
      PrintEachSort(es[1..]);
      PrintEachInsert(es[0], SortByKey(es[1..]));
    }
  }

  lemma FirstIsJoined(es: seq<Entry<Document>>, started: bool)
    requires es != []
    ensures Join(Properties(PrintEach(es)), started) ==
      (if started then [COMMA] else []) + (Quote(es[0].key) + [COLON] + Print(es[0].value)) + Join(Properties(PrintEach(es[1..])), true)
  {
    hide Print, Quote;
    var first := Entry(es[0].key, Print(es[0].value));
    assert PrintEach(es) == [first] + PrintEach(es[1..]) && ([first] + PrintEach(es[1..]))[1..] == PrintEach(es[1..]);
    var property := Quote(first.key) + [COLON] + first.value;
    assert Properties(PrintEach(es)) == [property] + Properties(PrintEach(es[1..]));
    assert ([property] + Properties(PrintEach(es[1..])))[1..] == Properties(PrintEach(es[1..]));
  }

  lemma FirstIsPrinted(es: seq<Entry<Document>>, started: bool)
    requires es != []
    ensures PrintEntries(es, started) ==
      (if started then [COMMA] else []) + (Quote(es[0].key) + [COLON] + Print(es[0].value)) + PrintEntries(es[1..], true)
  {
    hide Print, Quote;
    var comma, key, value := if started then [COMMA] else [], Quote(es[0].key), Print(es[0].value);
    assert comma + key + [COLON] + value == comma + (key + [COLON] + value);
  }

  lemma {:induction false} EntriesAreJoined(es: seq<Entry<Document>>, started: bool)
    ensures PrintEntries(es, started) == Join(Properties(PrintEach(es)), started) + [CLOSE_BRACE]
  {
    if es != [] {
      EntriesAreJoined(es[1..], true);
      FirstIsJoined(es, started);
      FirstIsPrinted(es, started);
      hide *;
    }
  }

  /** canonicalStringify prints the key-sorted document. */
  lemma {:induction false} CanonicalPrintsSorted(v: Document)
    ensures CanonicalStringify(v) == Print(SortKeys(v))
    decreases v, 1
  {
    hide Quote, SortByKey, PrintEach, Properties, Join;
    match v
    case Arr(items) =>
      CanonicalItemsPrintSorted(items, false);
    case Obj(entries) =>
      CanonicalEntriesPrintSorted(entries);
      PrintEachSort(SortValues(entries));
      EntriesAreJoined(SortByKey(SortValues(entries)), false);
    case _ =>
  }

  lemma {:induction false} CanonicalItemsPrintSorted(items: seq<Document>, started: bool)
    ensures PrintItems(SortItems(items), started) == Join(CanonicalItems(items), started) + [CLOSE_BRACKET]
    decreases items, 0
  {
    hide Print, CanonicalStringify, SortKeys;
    if items != [] {
      CanonicalPrintsSorted(items[0]);
      CanonicalItemsPrintSorted(items[1..], true);
    }
  }

  lemma {:induction false} CanonicalEntriesPrintSorted(entries: seq<Entry<Document>>)
    ensures CanonicalEntries(entries) == PrintEach(SortValues(entries))
    decreases entries, 0
  {
    hide Print, CanonicalStringify, SortKeys;
    if entries != [] {
      CanonicalPrintsSorted(entries[0].value);
      CanonicalEntriesPrintSorted(entries[1..]);
    }
  }

  // ---------------------------------------------------------------------------------------
  // Injectivity of the canonical form
  // ---------------------------------------------------------------------------------------

  lemma {:induction false} SortedIffSame(v: Document, w: Document)
    requires WellFormed(v) && WellFormed(w)
    ensures SortKeys(v) == SortKeys(w) <==> SameJson(v, w)
    decreases v
  {
    hide SortByKey, HoldsSame;
    match (v, w)
    case (Arr(xs), Arr(ys)) =>
      if |xs| == |ys| {
        forall i | 0 <= i < |xs|
          ensures SortKeys(xs[i]) == SortKeys(ys[i]) <==> SameJson(xs[i], ys[i])
        {
          SortedIffSame(xs[i], ys[i]);
        }
        assert SortItems(xs) == SortItems(ys) <==> forall i :: 0 <= i < |xs| ==> SortItems(xs)[i] == SortItems(ys)[i];
      }
    case (Obj(es), Obj(fs)) =>
      forall i | 0 <= i < |es|
        ensures SortValues(es)[i] in SortValues(fs) <==> HoldsSame(fs, es[i])
      {
        SortedEntryIffHeld(es[i], fs);
      }
      SortedEntriesIffSame(es, fs);
    case _ =>
  }

  lemma {:induction false} SortedEntryIffHeld(e: Entry<Document>, fs: seq<Entry<Document>>)
    requires WellFormed(e.value) && forall j :: 0 <= j < |fs| ==> WellFormed(fs[j].value)
    ensures Entry(e.key, SortKeys(e.value)) in SortValues(fs) <==> HoldsSame(fs, e)
    decreases e
  {
    hide SortKeys, SameJson, WellFormed;
    forall j | 0 <= j < |fs|
      ensures SortKeys(e.value) == SortKeys(fs[j].value) <==> SameJson(e.value, fs[j].value)
    {
      SortedIffSame(e.value, fs[j].value);
    }
    var x, ys := Entry(e.key, SortKeys(e.value)), SortValues(fs);
    if x in ys {
      var j :| 0 <= j < |ys| && ys[j] == x;
      assert e.key == fs[j].key && SameJson(e.value, fs[j].value);
    }
    if HoldsSame(fs, e) {
      var j :| 0 <= j < |fs| && e.key == fs[j].key && SameJson(e.value, fs[j].value);
      assert ys[j] == x;
    }
  }

  lemma SameKeysSorted(es: seq<Entry<Document>>)
    requires UniqueKeys(es)
    ensures StrictlySorted(SortByKey(SortValues(es)))
    ensures forall x: Entry<Document> :: x in SortByKey(SortValues(es)) <==> x in SortValues(es)
  {
    hide SortKeys, SortByKey, SortValues;
    SortByKeySorts(SortValues(es));
    forall x: Entry<Document>
      ensures x in SortByKey(SortValues(es)) <==> x in SortValues(es)
    {
      assert x in SortByKey(SortValues(es)) <==> x in multiset(SortByKey(SortValues(es)));
      assert x in SortValues(es) <==> x in multiset(SortValues(es));
    }
  }

  lemma SameGivesSorted(es: seq<Entry<Document>>, fs: seq<Entry<Document>>)
    requires UniqueKeys(es) && UniqueKeys(fs)
    requires forall i :: 0 <= i < |es| ==> SortValues(es)[i] in SortValues(fs)
    requires forall j :: 0 <= j < |fs| ==> HasKey(es, fs[j].key)
    ensures SortByKey(SortValues(es)) == SortByKey(SortValues(fs))
  {
    hide SortKeys, SortByKey, SortValues, TextLeq;
    var xs, ys := SortValues(es), SortValues(fs);
    SameKeysSorted(es);
    SameKeysSorted(fs);
    forall j | 0 <= j < |ys|
      ensures exists i :: 0 <= i < |xs| && xs[i].key == ys[j].key
    {
      var i :| 0 <= i < |es| && es[i].key == fs[j].key;
      assert xs[i].key == ys[j].key;
    }
    InclusionSuffices(xs, ys);
    SortedListsAgree(SortByKey(xs), SortByKey(ys));
  }

  lemma SortedGivesSame(es: seq<Entry<Document>>, fs: seq<Entry<Document>>)
    requires UniqueKeys(es) && UniqueKeys(fs)
    requires SortByKey(SortValues(es)) == SortByKey(SortValues(fs))
    ensures forall i :: 0 <= i < |es| ==> SortValues(es)[i] in SortValues(fs)
    ensures forall j :: 0 <= j < |fs| ==> HasKey(es, fs[j].key)
  {
    hide SortKeys, SortByKey, SortValues, TextLeq;
    var xs, ys := SortValues(es), SortValues(fs);
    SameKeysSorted(es);
    SameKeysSorted(fs);
    forall i | 0 <= i < |es|
      ensures xs[i] in ys
    {
      assert xs[i] in SortByKey(xs);
    }
    forall j | 0 <= j < |fs|
      ensures HasKey(es, fs[j].key)
    {
      assert ys[j] in SortByKey(ys);
      var i :| 0 <= i < |xs| && xs[i] == ys[j];
      assert es[i].key == fs[j].key;
    }
  }

  lemma SortedEntriesIffSame(es: seq<Entry<Document>>, fs: seq<Entry<Document>>)
    requires UniqueKeys(es) && UniqueKeys(fs)
    requires forall i :: 0 <= i < |es| ==> (SortValues(es)[i] in SortValues(fs) <==> HoldsSame(fs, es[i]))
    ensures SortByKey(SortValues(es)) == SortByKey(SortValues(fs)) <==> SameJson(Obj(es), Obj(fs))
  {
    hide SortKeys, SortByKey, HoldsSame, SortValues, HasKey;
    if SameJson(Obj(es), Obj(fs)) {
      SameGivesSorted(es, fs);
    }
    if SortByKey(SortValues(es)) == SortByKey(SortValues(fs)) {
      SortedGivesSame(es, fs);
    }
  }

  /** canonicalStringify identifies two values exactly when they are the same up to key order. */
  lemma CanonicalIsInjective(v: Document, w: Document)
    requires WellFormed(v) && WellFormed(w)
    ensures CanonicalStringify(v) == CanonicalStringify(w) <==> SameJson(v, w)
  {
    hide CanonicalStringify, Print, SortKeys, SameJson;
    CanonicalPrintsSorted(v);
    CanonicalPrintsSorted(w);
    if CanonicalStringify(v) == CanonicalStringify(w) {
      PrintInjective(SortKeys(v), SortKeys(w));
    }
    SortedIffSame(v, w);
  }

  lemma SortedHolds(es: seq<Entry<Document>>, x: Entry<Document>)
    ensures x in SortByKey(es) <==> x in es
  {
    hide SortByKey;
    assert x in SortByKey(es) <==> x in multiset(SortByKey(es));
    assert x in es <==> x in multiset(es);
  }

  /** The keys of every object, at every level, strictly increase. */
  ghost predicate KeysSorted(v: Document) {
    match v
    case Arr(items) => forall i :: 0 <= i < |items| ==> KeysSorted(items[i])
    case Obj(entries) => StrictlySorted(entries) && forall i :: 0 <= i < |entries| ==> KeysSorted(entries[i].value)
    case _ => true
  }

  /** Sorting at every level leaves the same JSON, with its keys in order. */
  lemma {:induction false} SortKeysSorts(v: Document)
    requires WellFormed(v)
    ensures KeysSorted(SortKeys(v)) && WellFormed(SortKeys(v)) && SortKeys(SortKeys(v)) == SortKeys(v)
    decreases v
  {
    match v
    case Arr(items) =>
      forall i | 0 <= i < |items|
        ensures KeysSorted(SortItems(items)[i]) && WellFormed(SortItems(items)[i]) && SortKeys(SortItems(items)[i]) == SortItems(items)[i]
      {
        SortKeysSorts(items[i]);
      }
      hide SortKeys;
      assert SortItems(SortItems(items)) == SortItems(items);
    case Obj(entries) =>
      var values := SortValues(entries);
      forall i | 0 <= i < |values|
        ensures KeysSorted(values[i].value) && WellFormed(values[i].value) && SortKeys(values[i].value) == values[i].value
      {
        SortKeysSorts(entries[i].value);
      }
      SortedValuesStaySorted(entries);
    case _ =>
  }

  lemma SortedValuesStaySorted(entries: seq<Entry<Document>>)
    requires UniqueKeys(entries)
    requires forall i :: 0 <= i < |entries| ==> var w := SortKeys(entries[i].value); KeysSorted(w) && WellFormed(w) && SortKeys(w) == w
    ensures var sorted := SortByKey(SortValues(entries));
      && StrictlySorted(sorted) && SortByKey(SortValues(sorted)) == sorted
      && forall i :: 0 <= i < |sorted| ==> KeysSorted(sorted[i].value) && WellFormed(sorted[i].value)
    ensures UniqueKeys(SortByKey(SortValues(entries)))
  {
    hide SortKeys, SortByKey, KeysSorted, WellFormed, TextLeq;
    var values := SortValues(entries);
    var sorted := SortByKey(values);
    assert UniqueKeys(values);
    SortByKeySorts(values);
    forall i | 0 <= i < |sorted|
      ensures KeysSorted(sorted[i].value) && WellFormed(sorted[i].value) && SortKeys(sorted[i].value) == sorted[i].value
    {
      SortedHolds(values, sorted[i]);
      var j :| 0 <= j < |values| && values[j] == sorted[i];
      assert values[j].value == SortKeys(entries[j].value);
    }
    assert SortValues(sorted) == sorted;
    SortByKeySorts(sorted);
    forall x
      ensures x in SortByKey(sorted) <==> x in sorted
    {
      SortedHolds(sorted, x);
    }
    SortedListsAgree(SortByKey(sorted), sorted);
  }

  /** The canonical text is JSON, of the same value, with the keys of every object in order. */
  lemma CanonicalParses(v: Document)
    requires WellFormed(v)
    ensures Parse(CanonicalStringify(v)) == Some(SortKeys(v)) && SameJson(SortKeys(v), v) && KeysSorted(SortKeys(v))
  {
    hide CanonicalStringify, Print, SortKeys, SameJson, KeysSorted, Parse, WellFormed;
    CanonicalPrintsSorted(v);
    PrintParses(SortKeys(v));
    SortKeysSorts(v);
    SortedIffSame(SortKeys(v), v);
  }

  // ---------------------------------------------------------------------------------------
  // The writer's canonical form
  // ---------------------------------------------------------------------------------------

  /** "__proto__": assigning this key to a fresh object creates no property. */
  const PROTO: Text := [95, 95, 112, 114, 111, 116, 111, 95, 95]

  function DecimalValue(digits: Text): int {
    if digits == [] then 0 else 10 * DecimalValue(digits[..|digits| - 1]) + digits[|digits| - 1] - 48
  }

  /** Array-index keys: canonical decimals up to 2^32 - 2.  JavaScript lists them first, by number. */
  predicate IsArrayIndex(key: Text) {
    && key != []
    && (forall i :: 0 <= i < |key| ==> 48 <= key[i] <= 57)
    && (|key| == 1 || key[0] != 48)
    && DecimalValue(key) <= 4294967294
  }

  function IndexEntries(es: seq<Entry<Document>>): (r: seq<Entry<Document>>)
    ensures forall k :: 0 <= k < |r| ==> IsArrayIndex(r[k].key) && r[k] in es
  {
    if es == [] then [] else (if IsArrayIndex(es[0].key) then [es[0]] else []) + IndexEntries(es[1..])
  }

  function OtherEntries(es: seq<Entry<Document>>): (r: seq<Entry<Document>>)
    ensures forall k :: 0 <= k < |r| ==> !IsArrayIndex(r[k].key)
  {
    if es == [] then [] else (if IsArrayIndex(es[0].key) then [] else [es[0]]) + OtherEntries(es[1..])
  }

  function InsertByIndex(e: Entry<Document>, es: seq<Entry<Document>>): (r: seq<Entry<Document>>)
    ensures multiset(r) == multiset{e} + multiset(es)
  {
    if es == [] || DecimalValue(e.key) <= DecimalValue(es[0].key) then [e] + es
    else
      assert es == [es[0]] + es[1..];
      [es[0]] + InsertByIndex(e, es[1..])
  }

  function SortByIndex(es: seq<Entry<Document>>): (r: seq<Entry<Document>>)
    ensures multiset(r) == multiset(es)
  {
    if es == [] then []
    else
      assert es == [es[0]] + es[1..];
      InsertByIndex(es[0], SortByIndex(es[1..]))
  }

  /** JavaScript's property order for keys assigned in the order of es. */
  function PropertyOrder(es: seq<Entry<Document>>): seq<Entry<Document>> {
    SortByIndex(IndexEntries(es)) + OtherEntries(es)
  }

  function DropProto(es: seq<Entry<Document>>): (r: seq<Entry<Document>>)
    ensures |r| <= |es|
    ensures |r| == |es| <==> NoProto(es)
    ensures |r| == |es| ==> r == es
  {
    if es == [] then [] else (if es[0].key == PROTO then [] else [es[0]]) + DropProto(es[1..])
  }

  /** The replacer applied throughout: each object is rebuilt by assigning its keys in sorted order. */
  function Rebuild(v: Document): Document
    decreases v, 1
  {
    match v
    case Arr(items) => Arr(RebuildItems(items))
    case Obj(entries) => Obj(PropertyOrder(DropProto(SortByKey(RebuildValues(entries)))))
    case _ => v
  }

  function RebuildItems(items: seq<Document>): (r: seq<Document>)
    ensures |r| == |items| && forall i :: 0 <= i < |r| ==> r[i] == Rebuild(items[i])
    decreases items, 0
  {
    if items == [] then [] else [Rebuild(items[0])] + RebuildItems(items[1..])
  }

  function RebuildValues(entries: seq<Entry<Document>>): (r: seq<Entry<Document>>)
    ensures |r| == |entries| && forall i :: 0 <= i < |r| ==> r[i] == Entry(entries[i].key, Rebuild(entries[i].value))
    decreases entries, 0
  {
    if entries == [] then [] else [Entry(entries[0].key, Rebuild(entries[0].value))] + RebuildValues(entries[1..])
  }

  function Canonicalise(v: Document): Text {
    Print(Rebuild(v))
  }

  lemma {:induction false} DropProtoHolds(es: seq<Entry<Document>>, x: Entry<Document>)
    ensures x in DropProto(es) <==> x in es && x.key != PROTO
  {
    if es != [] {
      DropProtoHolds(es[1..], x);
      assert es == [es[0]] + es[1..];
    }
  }

  /** Every entry that is left has its place in the list. */
  lemma {:induction false} DropProtoKeepsPlaces(es: seq<Entry<Document>>, i: nat, j: nat) returns (p: nat, q: nat)
    requires i < j < |DropProto(es)|
    ensures p < q < |es| && es[p] == DropProto(es)[i] && es[q] == DropProto(es)[j]
  {
    var rest := DropProto(es[1..]);
    if es[0].key == PROTO {
      p, q := DropProtoKeepsPlaces(es[1..], i, j);
      p, q := p + 1, q + 1;
    } else if i == 0 {
      assert rest[j - 1] in DropProto(es[1..]);
      DropProtoHolds(es[1..], rest[j - 1]);
      var k :| 0 <= k < |es[1..]| && es[1..][k] == rest[j - 1];
      p, q := 0, k + 1;
    } else {
      p, q := DropProtoKeepsPlaces(es[1..], i - 1, j - 1);
      p, q := p + 1, q + 1;
    }
  }

  lemma DropProtoKeepsUnique(es: seq<Entry<Document>>)
    ensures NoProto(DropProto(es))
    ensures UniqueKeys(es) ==> UniqueKeys(DropProto(es))
    ensures StrictlySorted(es) ==> StrictlySorted(DropProto(es))
  {
    hide TextLeq, DropProto;
    var r := DropProto(es);
    forall i | 0 <= i < |r|
      ensures r[i].key != PROTO
    {
      DropProtoHolds(es, r[i]);
    }
    forall i, j | 0 <= i < j < |r|
      ensures exists p, q :: 0 <= p < q < |es| && es[p] == r[i] && es[q] == r[j]
    {
      var p, q := DropProtoKeepsPlaces(es, i, j);
    }
  }

  lemma {:induction false} DropProtoOfRebuilt(es: seq<Entry<Document>>)
    ensures RebuildValues(DropProto(es)) == DropProto(RebuildValues(es))
  {
    hide Rebuild;
    if es != [] {
      DropProtoOfRebuilt(es[1..]);
    }
  }

  lemma DropProtoOfSorted(es: seq<Entry<Document>>)
    requires UniqueKeys(es)
    ensures DropProto(SortByKey(es)) == SortByKey(DropProto(es))
  {
    hide SortByKey, DropProto, UniqueKeys, StrictlySorted;
    DropProtoKeepsUnique(es);
    SortByKeySorts(es);
    SortByKeySorts(DropProto(es));
    DropProtoKeepsUnique(SortByKey(es));
    forall x
      ensures x in DropProto(SortByKey(es)) <==> x in SortByKey(DropProto(es))
    {
      DropProtoHolds(SortByKey(es), x);
      DropProtoHolds(es, x);
      SortedHolds(es, x);
      SortedHolds(DropProto(es), x);
    }
    SortedListsAgree(DropProto(SortByKey(es)), SortByKey(DropProto(es)));
  }

  /** A key "__proto__" of the object itself makes no difference to the writer's form. */
  lemma ProtoIsNotWritten(es: seq<Entry<Document>>)
    requires UniqueKeys(es)
    ensures Rebuild(Obj(DropProto(es))) == Rebuild(Obj(es))
  {
    hide SortByKey, PropertyOrder, DropProto, NoProto;
    var rebuilt := RebuildValues(es);
    DropProtoOfRebuilt(es);
    assert UniqueKeys(rebuilt);
    hide RebuildValues, UniqueKeys;
    DropProtoKeepsUnique(rebuilt);
    DropProtoOfSorted(rebuilt);
    DropProtoOfSorted(DropProto(rebuilt));
    assert DropProto(DropProto(rebuilt)) == DropProto(rebuilt);
  }

  // ---------------------------------------------------------------------------------------
  // When the two canonical forms agree
  // ---------------------------------------------------------------------------------------

  /** a may stand in front of b: an array index comes after smaller array indices only. */
  predicate MayPrecede(a: Text, b: Text) {
    IsArrayIndex(b) ==> IsArrayIndex(a) && DecimalValue(a) <= DecimalValue(b)
  }

  /** No key is "__proto__", and lexical order never puts a key in front of an array index that belongs before it. */
  ghost predicate OrderlyKeys(es: seq<Entry<Document>>) {
    NoProto(es) && forall i, j :: 0 <= i < |es| && 0 <= j < |es| && i != j ==> PairInOrder(es[i].key, es[j].key)
  }

  predicate PairInOrder(a: Text, b: Text) {
    TextLeq(a, b) ==> MayPrecede(a, b)
  }

  ghost predicate NoProto(es: seq<Entry<Document>>) {
    forall i :: 0 <= i < |es| ==> es[i].key != PROTO
  }

  /** Every object inside v has orderly keys. */
  ghost predicate Orderly(v: Document) {
    match v
    case Arr(items) => forall i :: 0 <= i < |items| ==> Orderly(items[i])
    case Obj(entries) => OrderlyKeys(entries) && forall i :: 0 <= i < |entries| ==> Orderly(entries[i].value)
    case _ => true
  }

  ghost predicate InPropertyOrder(es: seq<Entry<Document>>) {
    forall p, q :: 0 <= p < q < |es| ==> MayPrecede(es[p].key, es[q].key)
  }

  lemma {:induction false} OrderedListIsKept(es: seq<Entry<Document>>)
    requires InPropertyOrder(es)
    ensures PropertyOrder(es) == es
  {
    hide DecimalValue, IsArrayIndex, PropertyOrder;
    if es == [] {
      NoIndexEntries(es);
    } else {
      var rest := es[1..];
      assert InPropertyOrder(rest) by {
        forall p, q | 0 <= p < q < |rest|
          ensures MayPrecede(rest[p].key, rest[q].key)
        {
          assert MayPrecede(es[p + 1].key, es[q + 1].key);
        }
      }
      OrderedListIsKept(rest);
      if IsArrayIndex(es[0].key) {
        forall q | 0 <= q < |rest|
          ensures MayPrecede(es[0].key, rest[q].key)
        {
          assert MayPrecede(es[0].key, es[q + 1].key);
        }
        IndexInFront(es[0], rest);
        assert es == [es[0]] + rest;
      } else {
        forall i | 0 <= i < |es|
          ensures !IsArrayIndex(es[i].key)
        {
          assert i > 0 ==> MayPrecede(es[0].key, es[i].key);
        }
        NoIndexEntries(es);
      }
    }
  }

  lemma IndexInFront(e: Entry<Document>, rest: seq<Entry<Document>>)
    requires IsArrayIndex(e.key) && PropertyOrder(rest) == rest
    requires forall q :: 0 <= q < |rest| ==> MayPrecede(e.key, rest[q].key)
    ensures PropertyOrder([e] + rest) == [e] + rest
  {
    hide DecimalValue, IsArrayIndex, SortByIndex, IndexEntries, OtherEntries;
    var sorted := SortByIndex(IndexEntries(rest));
    IndexEntriesInFront(e, rest);
    SortedIndicesAreIndices(rest);
    assert sorted != [] ==> sorted[0] == rest[0] && MayPrecede(e.key, rest[0].key);
    InsertedInFront(e, IndexEntries(rest));
  }

  lemma IndexEntriesInFront(e: Entry<Document>, rest: seq<Entry<Document>>)
    requires IsArrayIndex(e.key)
    ensures IndexEntries([e] + rest) == [e] + IndexEntries(rest) && OtherEntries([e] + rest) == OtherEntries(rest)
  {
    hide IsArrayIndex;
    assert ([e] + rest)[1..] == rest;
  }

  lemma SortedIndicesAreIndices(es: seq<Entry<Document>>)
    ensures forall k :: 0 <= k < |SortByIndex(IndexEntries(es))| ==> IsArrayIndex(SortByIndex(IndexEntries(es))[k].key)
  {
    hide IsArrayIndex, SortByIndex;
    var front := SortByIndex(IndexEntries(es));
    forall k | 0 <= k < |front|
      ensures IsArrayIndex(front[k].key)
    {
      var j := PositionInOther(front, IndexEntries(es), k);
    }
  }

  lemma InsertedInFront(e: Entry<Document>, es: seq<Entry<Document>>)
    requires SortByIndex(es) == [] || DecimalValue(e.key) <= DecimalValue(SortByIndex(es)[0].key)
    ensures SortByIndex([e] + es) == [e] + SortByIndex(es)
  {
    hide DecimalValue;
    assert ([e] + es)[1..] == es;
  }

  lemma {:induction false} NoIndexEntries(es: seq<Entry<Document>>)
    requires forall i :: 0 <= i < |es| ==> !IsArrayIndex(es[i].key)
    ensures PropertyOrder(es) == es
  {
    hide IsArrayIndex;
    if es != [] {
      NoIndexEntries(es[1..]);
    }
  }

  ghost predicate ByIndex(es: seq<Entry<Document>>) {
    forall p, q :: 0 <= p < q < |es| ==> DecimalValue(es[p].key) <= DecimalValue(es[q].key)
  }

  lemma {:induction false} InsertByIndexSorts(e: Entry<Document>, es: seq<Entry<Document>>)
    requires ByIndex(es)
    ensures ByIndex(InsertByIndex(e, es))
  {
    hide DecimalValue;
    if es == [] || DecimalValue(e.key) <= DecimalValue(es[0].key) {
    } else {
      InsertByIndexSorts(e, es[1..]);
      var rest := InsertByIndex(e, es[1..]);
      forall q | 0 <= q < |rest|
        ensures DecimalValue(es[0].key) <= DecimalValue(rest[q].key)
      {
        assert rest[q] in multiset(rest);
        assert rest[q] == e || rest[q] in es[1..];
      }
    }
  }

  lemma {:induction false} SortByIndexSorts(es: seq<Entry<Document>>)
    ensures ByIndex(SortByIndex(es))
  {
    hide DecimalValue, InsertByIndex;
    if es != [] {
      SortByIndexSorts(es[1..]);
      InsertByIndexSorts(es[0], SortByIndex(es[1..]));
    }
  }

  lemma KeptListIsOrdered(es: seq<Entry<Document>>)
    requires PropertyOrder(es) == es
    ensures InPropertyOrder(es)
  {
    hide DecimalValue, IsArrayIndex, SortByIndex, IndexEntries, OtherEntries;
    var front := SortByIndex(IndexEntries(es));
    SortByIndexSorts(IndexEntries(es));
    SortedIndicesAreIndices(es);
  }

  lemma SortedPairInOrder(es: seq<Entry<Document>>, sorted: seq<Entry<Document>>, p: nat, q: nat)
    requires OrderlyKeys(es) && StrictlySorted(sorted) && multiset(sorted) == multiset(es) && p < q < |sorted|
    ensures MayPrecede(sorted[p].key, sorted[q].key)
  {
    hide MayPrecede, TextLeq;
    var i := PositionInOther(sorted, es, p);
    var j := PositionInOther(sorted, es, q);
    assert PairInOrder(es[i].key, es[j].key);
  }

  lemma PairInOrderFromSorted(es: seq<Entry<Document>>, sorted: seq<Entry<Document>>, i: nat, j: nat)
    requires InPropertyOrder(sorted) && StrictlySorted(sorted) && multiset(sorted) == multiset(es)
    requires i < |es| && j < |es| && es[i].key != es[j].key
    ensures PairInOrder(es[i].key, es[j].key)
  {
    hide MayPrecede, TextLeq;
    var p := PositionInOther(es, sorted, i);
    var q := PositionInOther(es, sorted, j);
    if TextLeq(es[i].key, es[j].key) && q < p {
      TextLeqAntisymmetric(es[i].key, es[j].key);
    }
  }

  /** Orderly keys are exactly those whose sorted list is already in property order. */
  lemma OrderlyIffSortedInOrder(es: seq<Entry<Document>>)
    requires UniqueKeys(es) && NoProto(es)
    ensures OrderlyKeys(es) <==> InPropertyOrder(SortByKey(es))
  {
    hide MayPrecede, TextLeq, SortByKey, StrictlySorted, PairInOrder, NoProto;
    var sorted := SortByKey(es);
    SortByKeySorts(es);
    if OrderlyKeys(es) {
      forall p, q | 0 <= p < q < |sorted|
        ensures MayPrecede(sorted[p].key, sorted[q].key)
      {
        SortedPairInOrder(es, sorted, p, q);
      }
    }
    if InPropertyOrder(sorted) {
      forall i, j | 0 <= i < |es| && 0 <= j < |es| && i != j
        ensures PairInOrder(es[i].key, es[j].key)
      {
        PairInOrderFromSorted(es, sorted, i, j);
      }
    }
  }

  lemma PositionInOther(xs: seq<Entry<Document>>, ys: seq<Entry<Document>>, i: nat) returns (j: nat)
    requires i < |xs| && multiset(xs) == multiset(ys)
    ensures j < |ys| && ys[j] == xs[i]
  {
    assert xs[i] in multiset(xs);
    assert xs[i] in multiset(ys);
    j :| 0 <= j < |ys| && ys[j] == xs[i];
  }

  lemma {:induction false} RebuiltIffSorted(v: Document)
    requires WellFormed(v)
    ensures Rebuild(v) == SortKeys(v) <==> Orderly(v)
    decreases v, 1
  {
    hide PropertyOrder, SortByKey, OrderlyKeys, DropProto;
    match v
    case Arr(items) =>
      forall i | 0 <= i < |items|
        ensures Rebuild(items[i]) == SortKeys(items[i]) <==> Orderly(items[i])
      {
        RebuiltIffSorted(items[i]);
      }
      assert RebuildItems(items) == SortItems(items) <==> forall i :: 0 <= i < |items| ==> RebuildItems(items)[i] == SortItems(items)[i];
    case Obj(entries) =>
      forall i | 0 <= i < |entries|
        ensures Rebuild(entries[i].value) == SortKeys(entries[i].value) <==> Orderly(entries[i].value)
      {
        RebuiltIffSorted(entries[i].value);
      }
      RebuiltEntriesIffSorted(entries);
    case _ =>
  }

  lemma {:induction false} PropertyOrderPermutes(es: seq<Entry<Document>>)
    ensures multiset(PropertyOrder(es)) == multiset(es) && |PropertyOrder(es)| == |es|
  {
    hide IsArrayIndex, SortByIndex;
    if es != [] {
      PropertyOrderPermutes(es[1..]);
      assert es == [es[0]] + es[1..];
    }
    assert |multiset(PropertyOrder(es))| == |PropertyOrder(es)| && |multiset(es)| == |es|;
  }

  lemma NoProtoInPermutation(es: seq<Entry<Document>>, fs: seq<Entry<Document>>)
    requires NoProto(es) && multiset(fs) == multiset(es)
    ensures NoProto(fs)
  {
    forall i | 0 <= i < |fs|
      ensures fs[i].key != PROTO
    {
      var j := PositionInOther(fs, es, i);
    }
  }

  lemma OrderlySortedIsKept(es: seq<Entry<Document>>)
    requires UniqueKeys(es) && OrderlyKeys(es)
    ensures PropertyOrder(DropProto(SortByKey(es))) == SortByKey(es)
  {
    hide PropertyOrder, SortByKey, PairInOrder, NoProto, DropProto, InPropertyOrder, UniqueKeys;
    NoProtoInPermutation(es, SortByKey(es));
    OrderlyIffSortedInOrder(es);
    OrderedListIsKept(SortByKey(es));
  }

  lemma SameKeysSameList(xs: seq<Entry<Document>>, ys: seq<Entry<Document>>)
    requires UniqueKeys(ys) && |xs| == |ys| && forall i :: 0 <= i < |ys| ==> xs[i].key == ys[i].key
    requires multiset(xs) == multiset(ys)
    ensures xs == ys
  {
    forall i | 0 <= i < |ys|
      ensures xs[i] == ys[i]
    {
      var j := PositionInOther(xs, ys, i);
    }
  }

  /** If rebuilding one list gives the sorted form of another with the same keys, they are the same list and orderly. */
  lemma KeptIsOrderly(rebuilt: seq<Entry<Document>>, es: seq<Entry<Document>>)
    requires UniqueKeys(es) && |rebuilt| == |es| && forall i :: 0 <= i < |es| ==> rebuilt[i].key == es[i].key
    requires PropertyOrder(DropProto(SortByKey(rebuilt))) == SortByKey(es)
    ensures rebuilt == es && OrderlyKeys(es)
  {
    hide PropertyOrder, SortByKey, PairInOrder, NoProto, DropProto, InPropertyOrder, UniqueKeys;
    PropertyOrderPermutes(DropProto(SortByKey(rebuilt)));
    SameKeysSameList(rebuilt, es);
    NoProtoInPermutation(SortByKey(es), es);
    KeptListIsOrdered(SortByKey(es));
    OrderlyIffSortedInOrder(es);
  }

  lemma OrderlyByKeys(es: seq<Entry<Document>>, fs: seq<Entry<Document>>)
    requires |es| == |fs| && forall i :: 0 <= i < |es| ==> es[i].key == fs[i].key
    ensures OrderlyKeys(es) <==> OrderlyKeys(fs)
    ensures UniqueKeys(es) <==> UniqueKeys(fs)
  {
    hide MayPrecede, TextLeq;
  }

  lemma RebuiltEntriesIffSorted(es: seq<Entry<Document>>)
    requires UniqueKeys(es)
    ensures PropertyOrder(DropProto(SortByKey(RebuildValues(es)))) == SortByKey(SortValues(es)) <==>
      OrderlyKeys(es) && forall i :: 0 <= i < |es| ==> Rebuild(es[i].value) == SortKeys(es[i].value)
  {
    hide PropertyOrder, SortByKey, OrderlyKeys, Rebuild, SortKeys, RebuildValues, SortValues;
    var rebuilt, sorted := RebuildValues(es), SortValues(es);
    OrderlyByKeys(es, sorted);
    if PropertyOrder(DropProto(SortByKey(rebuilt))) == SortByKey(sorted) {
      KeptIsOrderly(rebuilt, sorted);
    }
    if OrderlyKeys(es) && forall i :: 0 <= i < |es| ==> Rebuild(es[i].value) == SortKeys(es[i].value) {
      assert rebuilt == sorted;
      OrderlySortedIsKept(sorted);
    }
  }

  /** The writer's and the verifier's texts agree exactly on the documents whose keys are orderly. */
  lemma WriterAgreesWithVerifier(v: Document)
    requires WellFormed(v)
    ensures Canonicalise(v) == CanonicalStringify(v) <==> Orderly(v)
  {
    hide Print, Rebuild, SortKeys, CanonicalStringify, Orderly;
    CanonicalPrintsSorted(v);
    RebuiltIffSorted(v);
    if Canonicalise(v) == CanonicalStringify(v) {
      PrintInjective(Rebuild(v), SortKeys(v));
    }
  }
}
