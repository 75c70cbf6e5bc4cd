/**
 The byte limit of the shrinker.  A candidate can print longer than the value it comes from, so a
 call on an accepted input can still end with an error.  The longest print that candidate steps
 can reach, computed before the call from the input alone, tells exactly when that can happen.
 */
module ShrinkingBytes {
  import opened Results
  import opened Json
  import opened JsonPrinter
  import opened Shrinking

  // ---------------------------------------------------------------------------------------
  // The printed text in UTF-8
  // ---------------------------------------------------------------------------------------

  /** Half of a surrogate pair stands for two of its four bytes; printed text holds pairs only. */
  function UnitBytes(u: CodeUnit): nat {
    if u < 0x80 then 1 else if u < 0x800 || IsLead(u) || IsTrail(u) then 2 else 3
  }

  function TextBytes(t: Text): nat {
    if t == [] then 0 else UnitBytes(t[0]) + TextBytes(t[1..])
  }

  /** The value with its numbers replaced by the text that is printed for them. */
  function WithNumerals(v: Value, numeral: real -> Numeral): Document
    decreases v, 1
  {
    match v
    case Null => Null
    case Bool(b) => Bool(b)
    case Num(n) => Num(numeral(n))
    case Str(s) => Str(s)
    case Arr(items) => Arr(ItemsWithNumerals(items, numeral))
    case Obj(entries) => Obj(EntriesWithNumerals(entries, numeral))
  }

  function ItemsWithNumerals(items: seq<Value>, numeral: real -> Numeral): seq<Document>
    decreases items, 0
  {
    if items == [] then [] else [WithNumerals(items[0], numeral)] + ItemsWithNumerals(items[1..], numeral)
  }

  function EntriesWithNumerals(entries: seq<Entry<Value>>, numeral: real -> Numeral): seq<Entry<Document>>
    decreases entries, 0
  {
    if entries == [] then []
    else [Entry(entries[0].key, WithNumerals(entries[0].value, numeral))] + EntriesWithNumerals(entries[1..], numeral)
  }

  function PrintedBytes(v: Value, numeral: real -> Numeral): nat {
    TextBytes(Print(WithNumerals(v, numeral)))
  }

  /** The host whose sizes are those of the printed text. */
  function Printing(fails: Value -> bool, numeral: real -> Numeral): Host {
    Host(fails, v => PrintedBytes(v, numeral))
  }

  // ---------------------------------------------------------------------------------------
  // Sizes by structure, for any size of the scalars
  // ---------------------------------------------------------------------------------------

  function Commas(n: nat): nat {
    if n == 0 then 0 else n - 1
  }

  /** The quoted keys and their colons. */
  function KeyBytes(entries: seq<Entry<Value>>): nat {
    if entries == [] then 0 else TextBytes(Quote(entries[0].key)) + 1 + KeyBytes(entries[1..])
  }

  /** What a container prints around its children. */
  function Frame(v: Value): nat {
    2 + Commas(|Children(v)|) + if v.Obj? then KeyBytes(v.entries) else 0
  }

  function Bytes(v: Value, leaf: Value -> nat): nat
    decreases v, |Children(v)| + 1
  {
    if IsContainer(v) then Frame(v) + BytesFrom(v, leaf, 0) else leaf(v)
  }

  function BytesFrom(v: Value, leaf: Value -> nat, i: nat): nat
    requires i <= |Children(v)|
    decreases v, |Children(v)| - i
  {
    if i == |Children(v)| then 0
    else
      Bytes(Children(v)[i], leaf) + BytesFrom(v, leaf, i + 1)
  }

  function Sum(vs: seq<Value>, leaf: Value -> nat): nat {
    if vs == [] then 0 else Bytes(vs[0], leaf) + Sum(vs[1..], leaf)
  }

  lemma {:induction false} FromIsSum(v: Value, leaf: Value -> nat, i: nat)
    requires i <= |Children(v)|
    ensures BytesFrom(v, leaf, i) == Sum(Children(v)[i..], leaf)
    decreases |Children(v)| - i
  {
    hide Children;
    if i < |Children(v)| {
      FromIsSum(v, leaf, i + 1);
      assert Children(v)[i..][1..] == Children(v)[i + 1..];
    }
  }

  lemma ContainerBytes(v: Value, leaf: Value -> nat)
    requires IsContainer(v)
    ensures Bytes(v, leaf) == Frame(v) + Sum(Children(v), leaf)
  {
    hide Children, Frame;
    FromIsSum(v, leaf, 0);
    assert Children(v)[0..] == Children(v);
  }

  lemma {:induction false} SumOfConcat(a: seq<Value>, b: seq<Value>, leaf: Value -> nat)
    ensures Sum(a + b, leaf) == Sum(a, leaf) + Sum(b, leaf)
  {
    hide Bytes;
    if a == [] {
      assert a + b == b;
    } else {
      SumOfConcat(a[1..], b, leaf);
      assert (a + b)[1..] == a[1..] + b;
    }
  }

  lemma {:induction false} KeysOfConcat(a: seq<Entry<Value>>, b: seq<Entry<Value>>)
    ensures KeyBytes(a + b) == KeyBytes(a) + KeyBytes(b)
  {
    hide TextBytes;
    if a == [] {
      assert a + b == b;
    } else {
      KeysOfConcat(a[1..], b);
      assert (a + b)[1..] == a[1..] + b;
    }
  }

  /** Deleting children shortens what is printed around the others. */
  lemma WithoutFrame(v: Value, start: nat, n: nat)
    requires IsContainer(v) && start + n <= |Children(v)|
    ensures Frame(Without(v, start, n)) <= Frame(v)
  {
    hide KeyBytes;
    if v.Obj? {
      var es := v.entries;
      assert es == es[..start] + (es[start..start + n] + es[start + n..]);
      KeysOfConcat(es[..start], es[start..start + n] + es[start + n..]);
      KeysOfConcat(es[start..start + n], es[start + n..]);
      KeysOfConcat(es[..start], es[start + n..]);
    }
  }

  lemma WithoutBytes(v: Value, start: nat, n: nat, leaf: Value -> nat)
    requires IsContainer(v) && start + n <= |Children(v)|
    ensures Bytes(Without(v, start, n), leaf) <= Bytes(v, leaf)
  {
    hide Bytes, Frame, Without, Sum;
    var cs := Children(v);
    ContainerBytes(v, leaf);
    ContainerBytes(Without(v, start, n), leaf);
    WithoutFrame(v, start, n);
    assert cs == cs[..start] + (cs[start..start + n] + cs[start + n..]);
    SumOfConcat(cs[..start], cs[start..start + n] + cs[start + n..], leaf);
    SumOfConcat(cs[start..start + n], cs[start + n..], leaf);
    SumOfConcat(cs[..start], cs[start + n..], leaf);
  }

  lemma WithChildFrame(v: Value, i: nat, child: Value)
    requires IsContainer(v) && i < |Children(v)|
    ensures Frame(WithChild(v, i, child)) == Frame(v)
  {
    hide KeyBytes;
    if v.Obj? {
      SameKeys(v.entries, i, child);
    }
  }

  lemma SameKeys(es: seq<Entry<Value>>, i: nat, child: Value)
    requires i < |es|
    ensures KeyBytes(es[i := Entry(es[i].key, child)]) == KeyBytes(es)
  {
    var e := Entry(es[i].key, child);
    assert es == es[..i] + ([es[i]] + es[i + 1..]) && es[i := e] == es[..i] + ([e] + es[i + 1..]);
    KeysOfConcat(es[..i], [es[i]] + es[i + 1..]);
    KeysOfConcat(es[..i], [e] + es[i + 1..]);
    assert ([es[i]] + es[i + 1..])[1..] == es[i + 1..] == ([e] + es[i + 1..])[1..];
  }

  lemma {:induction false} SumOfUpdate(vs: seq<Value>, i: nat, child: Value, leaf: Value -> nat)
    requires i < |vs|
    ensures Sum(vs[i := child], leaf) == Sum(vs, leaf) - Bytes(vs[i], leaf) + Bytes(child, leaf)
  {
    hide Bytes;
    if i == 0 {
      assert vs[i := child] == [child] + vs[1..];
    } else {
      SumOfUpdate(vs[1..], i - 1, child, leaf);
      assert vs[i := child][1..] == vs[1..][i - 1 := child];
    }
  }

  /** Editing a child changes the size by what the child's size changes. */
  lemma WithChildBytes(v: Value, i: nat, child: Value, leaf: Value -> nat)
    requires IsContainer(v) && i < |Children(v)|
    ensures Bytes(WithChild(v, i, child), leaf) == Bytes(v, leaf) - Bytes(Children(v)[i], leaf) + Bytes(child, leaf)
  {
    hide Bytes, Frame, WithChild, Sum;
    ContainerBytes(v, leaf);
    ContainerBytes(WithChild(v, i, child), leaf);
    WithChildFrame(v, i, child);
    SumOfUpdate(Children(v), i, child, leaf);
  }

  // ---------------------------------------------------------------------------------------
  // Length and longest reachable length
  // ---------------------------------------------------------------------------------------

  function ScalarLength(v: Value, numeral: real -> Numeral): nat {
    match v
    case Null => 4
    case Bool(b) => if b then 4 else 5
    case Num(n) => |numeral(n).text|
    case Str(s) => TextBytes(Quote(s))
    case _ => 0
  }

  /** The longest of the numbers on the way from n to zero by halving. */
  function NumberPeak(n: real, numeral: real -> Numeral): (r: nat)
    ensures r >= |numeral(0.0).text|
    decreases Magnitude(n)
  {
    if n == 0.0 then |numeral(n).text| else Max(|numeral(n).text|, NumberPeak(Trunc(n / 2.0) as real, numeral))
  }

  /** The longest of the texts on the way from s to one unit by halving. */
  function TextPeak(s: Text): (r: nat)
    ensures r >= 2
  {
    QuotesCount(s);
    if |s| <= 1 then TextBytes(Quote(s)) else Max(TextBytes(Quote(s)), TextPeak(s[..(|s| + 1) / 2]))
  }

  function ScalarPeak(v: Value, numeral: real -> Numeral): nat {
    match v
    case Null => 4
    case Bool(b) => 5
    case Num(n) => NumberPeak(n, numeral)
    case Str(s) => TextPeak(s)
    case _ => 0
  }

  function Length(v: Value, numeral: real -> Numeral): nat {
    Bytes(v, x => ScalarLength(x, numeral))
  }

  /** The longest print over all values that candidate steps can reach. */
  function Peak(v: Value, numeral: real -> Numeral): nat {
    Bytes(v, x => ScalarPeak(x, numeral))
  }

  lemma {:induction false} TextBytesOfConcat(a: Text, b: Text)
    ensures TextBytes(a + b) == TextBytes(a) + TextBytes(b)
  {
    if a == [] {
      assert a + b == b;
    } else {
      TextBytesOfConcat(a[1..], b);
      assert (a + b)[1..] == a[1..] + b;
    }
  }

  lemma QuotesCount(s: Text)
    ensures TextBytes(Quote(s)) == 2 + TextBytes(EscapeText(s))
  {
    hide EscapeText;
    assert TextBytes([QUOTE]) == 1 by { assert [QUOTE][1..] == []; }
    TextBytesOfConcat([QUOTE] + EscapeText(s), [QUOTE]);
    TextBytesOfConcat([QUOTE], EscapeText(s));
  }

  // ---------------------------------------------------------------------------------------
  // The structural length is the length of the printed text
  // ---------------------------------------------------------------------------------------

  lemma {:induction false} NumeralBytes(t: Text)
    requires forall i :: 0 <= i < |t| ==> NumeralUnit(t[i])
    ensures TextBytes(t) == |t|
  {
    if t != [] {
      NumeralBytes(t[1..]);
    }
  }

  lemma WordBytes()
    ensures TextBytes(NULL_TEXT) == 4 && TextBytes(TRUE_TEXT) == 4 && TextBytes(FALSE_TEXT) == 5
    ensures TextBytes([COMMA]) == TextBytes([COLON]) == TextBytes([OPEN_BRACKET]) == TextBytes([OPEN_BRACE]) == 1
    ensures TextBytes([CLOSE_BRACKET]) == TextBytes([CLOSE_BRACE]) == 1 && TextBytes([]) == 0
  {
    AsciiBytes(NULL_TEXT);
    AsciiBytes(TRUE_TEXT);
    AsciiBytes(FALSE_TEXT);
    AsciiBytes([COMMA]);
    AsciiBytes([COLON]);
    AsciiBytes([OPEN_BRACKET]);
    AsciiBytes([OPEN_BRACE]);
    AsciiBytes([CLOSE_BRACKET]);
    AsciiBytes([CLOSE_BRACE]);
  }

  lemma {:induction false} AsciiBytes(t: Text)
    requires forall i :: 0 <= i < |t| ==> t[i] < 0x80
    ensures TextBytes(t) == |t|
  {
    if t != [] {
      AsciiBytes(t[1..]);
    }
  }

  function Separators(n: nat, started: bool): nat {
    if started then n else Commas(n)
  }

  lemma {:induction false} PrintedIsLength(v: Value, numeral: real -> Numeral)
    ensures PrintedBytes(v, numeral) == Length(v, numeral)
    decreases v, 1
  {
    hide TextBytes, PrintItems, PrintEntries, Bytes, Quote;
    WordBytes();
    var leaf := x => ScalarLength(x, numeral);
    match v
    case Arr(items) =>
      ContainerBytes(v, leaf);
      PrintedItems(items, numeral, false);
      TextBytesOfConcat([OPEN_BRACKET], PrintItems(ItemsWithNumerals(items, numeral), false));
    case Obj(entries) =>
      ContainerBytes(v, leaf);
      PrintedEntries(entries, numeral, false);
      TextBytesOfConcat([OPEN_BRACE], PrintEntries(EntriesWithNumerals(entries, numeral), false));
    case Num(n) =>
      NumeralBytes(numeral(n).text);
      ScalarBytes(v, leaf);
    case _ =>
      ScalarBytes(v, leaf);
  }

  lemma ScalarBytes(v: Value, leaf: Value -> nat)
    requires !IsContainer(v)
    ensures Bytes(v, leaf) == leaf(v)
  {
  }

  lemma {:induction false} PrintedItems(items: seq<Value>, numeral: real -> Numeral, started: bool)
    ensures TextBytes(PrintItems(ItemsWithNumerals(items, numeral), started)) ==
      1 + Separators(|items|, started) + Sum(items, x => ScalarLength(x, numeral))
    decreases items, 0
  {
    hide TextBytes, Bytes, ScalarLength, Print, WithNumerals;
    WordBytes();
    if items != [] {
      var first, rest := Print(WithNumerals(items[0], numeral)), PrintItems(ItemsWithNumerals(items[1..], numeral), true);
      var comma := if started then [COMMA] else [];
      PrintedIsLength(items[0], numeral);
      PrintedItems(items[1..], numeral, true);
      TextBytesOfConcat(comma + first, rest);
      TextBytesOfConcat(comma, first);
    }
  }

  lemma {:induction false} PrintedEntries(entries: seq<Entry<Value>>, numeral: real -> Numeral, started: bool)
    ensures TextBytes(PrintEntries(EntriesWithNumerals(entries, numeral), started)) ==
      1 + Separators(|entries|, started) + KeyBytes(entries) + Sum(Values(entries), x => ScalarLength(x, numeral))
    decreases entries, 0
  {
    hide TextBytes, Bytes, ScalarLength, Print, WithNumerals, Quote;
    WordBytes();
    if entries != [] {
      var e := entries[0];
      var value, rest := Print(WithNumerals(e.value, numeral)), PrintEntries(EntriesWithNumerals(entries[1..], numeral), true);
      var comma := if started then [COMMA] else [];
      PrintedIsLength(e.value, numeral);
      PrintedEntries(entries[1..], numeral, true);
      TextBytesOfConcat(comma + Quote(e.key) + [COLON] + value, rest);
      TextBytesOfConcat(comma + Quote(e.key) + [COLON], value);
      TextBytesOfConcat(comma + Quote(e.key), [COLON]);
      TextBytesOfConcat(comma, Quote(e.key));
    }
  }

  // ---------------------------------------------------------------------------------------
  // No candidate can reach more, and some candidate still reaches as much
  // ---------------------------------------------------------------------------------------

  lemma {:induction false} LengthAtMostPeak(v: Value, numeral: real -> Numeral)
    ensures Length(v, numeral) <= Peak(v, numeral)
    decreases v, |Children(v)| + 1
  {
    hide Bytes, ScalarLength, ScalarPeak, Frame;
    var length, peak := x => ScalarLength(x, numeral), x => ScalarPeak(x, numeral);
    if IsContainer(v) {
      ContainerBytes(v, length);
      ContainerBytes(v, peak);
      SumAtMostPeak(v, numeral, 0);
      assert Children(v)[0..] == Children(v);
    } else {
      ScalarBytes(v, length);
      ScalarBytes(v, peak);
      ScalarAtMostPeak(v, numeral);
    }
  }

  lemma ScalarAtMostPeak(v: Value, numeral: real -> Numeral)
    ensures ScalarLength(v, numeral) <= ScalarPeak(v, numeral)
  {
  }

  lemma {:induction false} SumAtMostPeak(v: Value, numeral: real -> Numeral, i: nat)
    requires i <= |Children(v)|
    ensures Sum(Children(v)[i..], x => ScalarLength(x, numeral)) <= Sum(Children(v)[i..], x => ScalarPeak(x, numeral))
    decreases v, |Children(v)| - i
  {
    hide Bytes, ScalarLength, ScalarPeak, Frame, Children;
    if i < |Children(v)| {
      LengthAtMostPeak(Children(v)[i], numeral);
      SumAtMostPeak(v, numeral, i + 1);
      assert Children(v)[i..][1..] == Children(v)[i + 1..];
    }
  }

  lemma ScalarPeakFalls(v: Value, maxDepth: nat, c: Value, numeral: real -> Numeral)
    requires !IsContainer(v) && c in Candidates(v, maxDepth)
    ensures !IsContainer(c) && ScalarPeak(c, numeral) <= ScalarPeak(v, numeral)
  {
    hide Trunc, Magnitude;
    if v.Str? {
      assert TextPeak([]) == 2 by { WordBytes(); QuotesCount([]); }
    }
  }

  /** No candidate can reach a longer print than its origin. */
  lemma {:induction false} PeakFalls(v: Value, maxDepth: nat, c: Value, numeral: real -> Numeral)
    requires c in Candidates(v, maxDepth)
    ensures Peak(c, numeral) <= Peak(v, numeral)
    decreases v, |Children(v)| + 1
  {
    hide Deletions, Positions, Candidates, Edits, Bytes, ScalarPeak;
    var peak := x => ScalarPeak(x, numeral);
    if IsContainer(v) {
      ContainerCandidates(v, maxDepth);
      if c in Deletions(v) {
        DeletionPeakFalls(v, c, peak);
      } else {
        EditsHold(v, Positions(v), maxDepth - 1, c);
        EditPeakFalls(v, Positions(v), maxDepth - 1, c, numeral);
      }
    } else {
      ScalarPeakFalls(v, maxDepth, c, numeral);
      ScalarBytes(v, peak);
      ScalarBytes(c, peak);
    }
  }

  lemma {:induction false} EditPeakFalls(v: Value, positions: seq<nat>, maxDepth: nat, c: Value, numeral: real -> Numeral)
    requires IsContainer(v) && IsEdit(v, positions, maxDepth, c)
    ensures Peak(c, numeral) <= Peak(v, numeral)
    decreases v, 0
  {
    hide Candidates, Bytes, ScalarPeak, WithChild;
    var k, d :| 0 <= k < |positions| && positions[k] < |Children(v)| && d in Candidates(Children(v)[positions[k]], maxDepth) && c == WithChild(v, positions[k], d);
    PeakFalls(Children(v)[positions[k]], maxDepth, d, numeral);
    WithChildBytes(v, positions[k], d, x => ScalarPeak(x, numeral));
  }

  lemma RemovalFalls(v: Value, chunks: seq<(nat, nat)>, c: Value, leaf: Value -> nat)
    requires IsContainer(v) && Fit(chunks, |Children(v)|) && c in Removals(v, chunks)
    ensures Bytes(c, leaf) <= Bytes(v, leaf)
  {
    hide Bytes, Without;
    var k :| 0 <= k < |chunks| && Removals(v, chunks)[k] == c;
    WithoutBytes(v, chunks[k].0, chunks[k].1, leaf);
  }

  lemma DeletionPeakFalls(v: Value, c: Value, leaf: Value -> nat)
    requires IsContainer(v) && c in Deletions(v)
    ensures Bytes(c, leaf) <= Bytes(v, leaf)
  {
    hide Bytes, ChunksFrom, Positions, Singles, Removals;
    match v
    case Arr(items) =>
      AllChunksFit(|items|, |items|);
      RemovalFalls(v, ChunksFrom(|items|, |items|), c, leaf);
    case Obj(entries) =>
      RemovalFalls(v, Singles(Positions(v)), c, leaf);
  }

  /** A child that prints shorter than it can. */
  lemma {:induction false} ChildBelowPeak(vs: seq<Value>, numeral: real -> Numeral) returns (i: nat)
    requires Sum(vs, x => ScalarLength(x, numeral)) < Sum(vs, x => ScalarPeak(x, numeral))
    ensures i < |vs| && Length(vs[i], numeral) < Peak(vs[i], numeral)
  {
    hide Bytes, ScalarLength, ScalarPeak;
    if Length(vs[0], numeral) < Peak(vs[0], numeral) {
      i := 0;
    } else {
      var j := ChildBelowPeak(vs[1..], numeral);
      i := j + 1;
    }
  }

  lemma ScalarKeepsPeak(v: Value, maxDepth: nat, numeral: real -> Numeral) returns (c: Value)
    requires !IsContainer(v) && ScalarLength(v, numeral) < ScalarPeak(v, numeral)
    ensures c in Candidates(v, maxDepth) && !IsContainer(c) && ScalarPeak(c, numeral) == ScalarPeak(v, numeral)
  {
    hide Trunc, Magnitude;
    c := match v
      case Num(n) => Num(Trunc(n / 2.0) as real)
      case Str(s) => Str(s[..(|s| + 1) / 2])
      case _ => Bool(false);
  }

  /** A value that prints shorter than it can has a candidate that can print as long. */
  lemma {:induction false} SomeCandidateKeepsPeak(v: Value, maxDepth: nat, numeral: real -> Numeral) returns (c: Value)
    requires Depth(v) <= maxDepth && Length(v, numeral) < Peak(v, numeral)
    ensures c in Candidates(v, maxDepth) && Peak(c, numeral) == Peak(v, numeral)
    decreases v
  {
    hide Candidates, Bytes, ScalarPeak, ScalarLength, WithChild, Depth, Frame;
    var length, peak := x => ScalarLength(x, numeral), x => ScalarPeak(x, numeral);
    if IsContainer(v) {
      ContainerBytes(v, length);
      ContainerBytes(v, peak);
      ContainerMeasures(v);
      var i := ChildBelowPeak(Children(v), numeral);
      ChildDepth(Children(v), i);
      var d := SomeCandidateKeepsPeak(Children(v)[i], maxDepth - 1, numeral);
      EditIsCandidate(v, maxDepth, i, d);
      WithChildBytes(v, i, d, peak);
      c := WithChild(v, i, d);
    } else {
      ScalarBytes(v, length);
      ScalarBytes(v, peak);
      c := ScalarKeepsPeak(v, maxDepth, numeral);
      ScalarBytes(c, peak);
    }
  }

  // ---------------------------------------------------------------------------------------
  // Exactly when an accepted input can end in an error
  // ---------------------------------------------------------------------------------------

  /** The predicate that keeps every value from which the byte limit can still be exceeded. */
  function KeepsLong(maxBytes: nat, numeral: real -> Numeral): Value -> bool {
    v => Peak(v, numeral) > maxBytes
  }

  lemma {:induction false} ShortNeverFails(v: Value, fails: Value -> bool, numeral: real -> Numeral, limits: Limits, attempts: nat, reductions: nat)
    requires Peak(v, numeral) <= limits.maxBytes
    ensures ShrinkFrom(v, Printing(fails, numeral), limits, attempts, reductions).Ok?
    decreases Size(v)
  {
    hide Candidates, Peak, PrintedBytes, PassOver, Size;
    var host := Printing(fails, numeral);
    var cs := Candidates(v, limits.maxDepth);
    forall c | c in cs
      ensures Peak(c, numeral) <= limits.maxBytes && host.byteLength(c) <= limits.maxBytes
    {
      PeakFalls(v, limits.maxDepth, c, numeral);
      PrintedIsLength(c, numeral);
      LengthAtMostPeak(c, numeral);
    }
    ShortPass(cs, host, limits, attempts);
    var pass := PassOver(cs, host, limits, attempts);
    if attempts < limits.maxAttempts && reductions < limits.maxReductions && pass.Accepted? {
      CandidatesShrink(v, limits.maxDepth, pass.value);
      ShortNeverFails(pass.value, fails, numeral, limits, pass.attempts, reductions + 1);
    }
  }

  lemma ShortPass(cs: seq<Value>, host: Host, limits: Limits, attempts: nat)
    requires forall c :: c in cs ==> host.byteLength(c) <= limits.maxBytes
    ensures !PassOver(cs, host, limits, attempts).Oversized?
  {
  }

  /** The attempts after which a run under this predicate has failed. */
  ghost function AttemptsToFail(v: Value, host: Host, maxDepth: nat, maxBytes: nat): nat
    decreases Size(v)
  {
    var cs := Candidates(v, maxDepth);
    var k := FirstStop(cs, host, maxBytes, 0);
    k + 1 +
    if k < |cs| then
      CandidatesShrink(v, maxDepth, cs[k]);
      AttemptsToFail(cs[k], host, maxDepth, maxBytes)
    else 0
  }

  lemma {:induction false} LongFails(v: Value, numeral: real -> Numeral, limits: Limits, attempts: nat, reductions: nat)
    requires Depth(v) <= limits.maxDepth && PrintedBytes(v, numeral) <= limits.maxBytes < Peak(v, numeral)
    requires var host := Printing(KeepsLong(limits.maxBytes, numeral), numeral);
      attempts + AttemptsToFail(v, host, limits.maxDepth, limits.maxBytes) <= limits.maxAttempts
    requires reductions + Size(v) <= limits.maxReductions
    ensures ShrinkFrom(v, Printing(KeepsLong(limits.maxBytes, numeral), numeral), limits, attempts, reductions) == Err(ExceedsBytes)
    decreases Size(v)
  {
    hide Candidates, Peak, PrintedBytes, Size, Depth, Length;
    var host := Printing(KeepsLong(limits.maxBytes, numeral), numeral);
    var cs := Candidates(v, limits.maxDepth);
    PrintedIsLength(v, numeral);
    var c := SomeCandidateKeepsPeak(v, limits.maxDepth, numeral);
    var k := FirstStop(cs, host, limits.maxBytes, 0);
    assert host.fails(c);
    assert k < |cs|;
    CandidatesShrink(v, limits.maxDepth, cs[k]);
    if host.byteLength(cs[k]) <= limits.maxBytes {
      LongFails(cs[k], numeral, limits, attempts + k + 1, reductions + 1);
    }
  }

  /** Whatever the predicate and the other options, a run whose longest reachable print fits never fails on the bytes. */
  lemma ShortPeakNeverFails(input: Value, fails: Value -> bool, numeral: real -> Numeral, options: Options)
    requires NormalizeLimits(options).Ok? && Peak(input, numeral) <= NormalizeLimits(options).value.maxBytes
    ensures ShrinkSpec(input, Printing(fails, numeral), options) != Err(ExceedsBytes)
  {
    hide Peak, PrintedBytes, Length;
    PrintedIsLength(input, numeral);
    LengthAtMostPeak(input, numeral);
    ShortNeverFails(input, fails, numeral, NormalizeLimits(options).value, 0, 0);
  }

  /** No predicate and no budgets make the call fail on the bytes. */
  ghost predicate NeverExceedsBytes(input: Value, numeral: real -> Numeral, maxDepth: nat, maxBytes: nat) {
    forall fails: Value -> bool, attempts: nat, reductions: nat ::
      ShrinkWithin(input, Printing(fails, numeral), Limits(attempts, reductions, maxDepth, maxBytes)) != Err(ExceedsBytes)
  }

  /** Under this predicate the call fails whenever both budgets are large enough. */
  ghost predicate FailsFromBudgets(input: Value, fails: Value -> bool, numeral: real -> Numeral, maxDepth: nat, maxBytes: nat, budget: nat) {
    forall attempts: nat, reductions: nat :: attempts >= budget && reductions >= budget ==>
      ShrinkWithin(input, Printing(fails, numeral), Limits(attempts, reductions, maxDepth, maxBytes)) == Err(ExceedsBytes)
  }

  lemma LongPeakFails(input: Value, numeral: real -> Numeral, maxDepth: nat, maxBytes: nat) returns (budget: nat)
    requires Depth(input) <= maxDepth && Peak(input, numeral) > maxBytes
    ensures FailsFromBudgets(input, KeepsLong(maxBytes, numeral), numeral, maxDepth, maxBytes, budget)
  {
    hide Peak, PrintedBytes, Length, ShrinkFrom, AttemptsToFail, Size, Depth;
    var host := Printing(KeepsLong(maxBytes, numeral), numeral);
    budget := AttemptsToFail(input, host, maxDepth, maxBytes) + Size(input);
    forall attempts: nat, reductions: nat | attempts >= budget && reductions >= budget
      ensures ShrinkWithin(input, host, Limits(attempts, reductions, maxDepth, maxBytes)) == Err(ExceedsBytes)
    {
      if PrintedBytes(input, numeral) <= maxBytes {
        LongFails(input, numeral, Limits(attempts, reductions, maxDepth, maxBytes), 0, 0);
      }
    }
  }

  /** What has to fit: the longest reachable print, or the print alone of an input that is refused for its depth. */
  function LongestPrint(input: Value, numeral: real -> Numeral, maxDepth: nat): nat {
    if Depth(input) <= maxDepth then Peak(input, numeral) else PrintedBytes(input, numeral)
  }

  /** The call can never fail on the bytes exactly when its longest print fits. */
  lemma NeverExceedsBytesIff(input: Value, numeral: real -> Numeral, maxDepth: nat, maxBytes: nat)
    ensures NeverExceedsBytes(input, numeral, maxDepth, maxBytes) <==> LongestPrint(input, numeral, maxDepth) <= maxBytes
  {
    hide Peak, PrintedBytes, Length, ShrinkFrom, Depth;
    PrintedIsLength(input, numeral);
    LengthAtMostPeak(input, numeral);
    if LongestPrint(input, numeral, maxDepth) <= maxBytes {
      forall fails: Value -> bool, attempts: nat, reductions: nat
        ensures ShrinkWithin(input, Printing(fails, numeral), Limits(attempts, reductions, maxDepth, maxBytes)) != Err(ExceedsBytes)
      {
        if Depth(input) <= maxDepth {
          ShortNeverFails(input, fails, numeral, Limits(attempts, reductions, maxDepth, maxBytes), 0, 0);
        }
      }
    } else {
      var budget := 0;
      if Depth(input) <= maxDepth {
        budget := LongPeakFails(input, numeral, maxDepth, maxBytes);
      }
      assert ShrinkWithin(input, Printing(KeepsLong(maxBytes, numeral), numeral), Limits(budget, budget, maxDepth, maxBytes)) == Err(ExceedsBytes);
    }
  }

  // ---------------------------------------------------------------------------------------
  // Instances
  // ---------------------------------------------------------------------------------------

  lemma TrueGrows(numeral: real -> Numeral)
    ensures PrintedBytes(Bool(true), numeral) == 4 && Peak(Bool(true), numeral) == 5
  {
    WordBytes();
  }

  /** Half of a surrogate pair is escaped, so the shortened text prints longer. */
  lemma SurrogatePairGrows(numeral: real -> Numeral)
    ensures PrintedBytes(Str([0xD83D, 0xDE00]), numeral) == 6 && Peak(Str([0xD83D, 0xDE00]), numeral) == 8
  {
    hide TextBytes;
    var pair, half := [0xD83D, 0xDE00], [0xD83D];
    QuotesCount(pair);
    QuotesCount(half);
    assert pair[..1] == half;
    assert EscapeText(pair) == pair && EscapeText(half) == UnicodeEscape(0xD83D);
    assert TextBytes(pair) == 4 by { TwoUnits(0xD83D, 0xDE00); }
    AsciiBytes(UnicodeEscape(0xD83D));
  }

  lemma TwoUnits(a: CodeUnit, b: CodeUnit)
    ensures TextBytes([a, b]) == UnitBytes(a) + UnitBytes(b)
  {
    assert TextBytes([b]) == UnitBytes(b) by { assert [b][1..] == []; }
    assert [a, b][1..] == [b];
  }
}
