/**
 A reader for JSON texts without white space, by the grammar of RFC 8259 and not by what the printer
 does.  Every printed value reads back as itself, so the printed text is JSON, and no two values
 share one.
 */
module JsonReader {
  import opened Results
  import opened Json
  import opened JsonPrinter

  // ---------------------------------------------------------------------------------------
  // Strings, by section 7
  // ---------------------------------------------------------------------------------------

  /** What the character after a backslash stands for. */
  function Unescaped(c: CodeUnit): Option<CodeUnit> {
    match c
    case 34 => Some(34)
    case 92 => Some(92)
    case 47 => Some(47)
    case 98 => Some(8)
    case 102 => Some(12)
    case 110 => Some(10)
    case 114 => Some(13)
    case 116 => Some(9)
    case _ => None
  }

  predicate IsHex(c: CodeUnit) {
    48 <= c <= 57 || 65 <= c <= 70 || 97 <= c <= 102
  }

  function HexValue(c: CodeUnit): (d: int)
    requires IsHex(c)
    ensures 0 <= d < 16
  {
    if c <= 57 then c - 48 else if c <= 70 then c - 65 + 10 else c - 97 + 10
  }

  /** One code unit of a string, literal or escaped, and the text after it. */
  function ReadUnit(t: Text): (r: Option<(CodeUnit, Text)>)
    ensures r.Some? ==> |r.value.1| < |t|
  {
    if t == [] || t[0] < 0x20 || t[0] == QUOTE then None
    else if t[0] != BACKSLASH then Some((t[0], t[1..]))
    else if |t| >= 6 && t[1] == 117 && forall k :: 2 <= k < 6 ==> IsHex(t[k]) then
      Some((4096 * HexValue(t[2]) + 256 * HexValue(t[3]) + 16 * HexValue(t[4]) + HexValue(t[5]), t[6..]))
    else if |t| >= 2 && Unescaped(t[1]).Some? then Some((Unescaped(t[1]).value, t[2..]))
    else None
  }

  /** The rest of a string after its opening quote. */
  function ReadString(t: Text): (r: Option<(Text, Text)>)
    ensures r.Some? ==> |r.value.1| < |t|
    decreases |t|
  {
    if t != [] && t[0] == QUOTE then Some(([], t[1..]))
    else
      var unit := ReadUnit(t);
      if unit.None? then None
      else
        var rest := ReadString(unit.value.1);
        if rest.None? then None else Some(([unit.value.0] + rest.value.0, rest.value.1))
  }

  function ReadQuoted(t: Text): (r: Option<(Text, Text)>)
    ensures r.Some? ==> |r.value.1| < |t|
  {
    if t == [] || t[0] != QUOTE then None else ReadString(t[1..])
  }

  // ---------------------------------------------------------------------------------------
  // Values, by sections 3 to 6; a number is the longest text that can be one
  // ---------------------------------------------------------------------------------------

  /** The number of leading units that can belong to a number. */
  function NumeralPrefix(t: Text): (n: nat)
    ensures n <= |t| && forall i :: 0 <= i < n ==> NumeralUnit(t[i])
  {
    if t == [] || !NumeralUnit(t[0]) then 0 else 1 + NumeralPrefix(t[1..])
  }

  function ReadValue(t: Text): (r: Option<(Document, Text)>)
    ensures r.Some? ==> |r.value.1| < |t|
    decreases |t|, 0
  {
    if NULL_TEXT <= t then Some((Null, t[4..]))
    else if TRUE_TEXT <= t then Some((Bool(true), t[4..]))
    else if FALSE_TEXT <= t then Some((Bool(false), t[5..]))
    else if NumeralPrefix(t) > 0 then Some((Num(Numeral(t[..NumeralPrefix(t)])), t[NumeralPrefix(t)..]))
    else if t == [] then None
    else if t[0] == QUOTE then
      var s := ReadQuoted(t);
      if s.None? then None else Some((Str(s.value.0), s.value.1))
    else if t[0] == OPEN_BRACKET then
      if |t| > 1 && t[1] == CLOSE_BRACKET then Some((Arr([]), t[2..]))
      else
        var items := ReadItems(t[1..]);
        if items.None? then None else Some((Arr(items.value.0), items.value.1))
    else if t[0] == OPEN_BRACE then
      if |t| > 1 && t[1] == CLOSE_BRACE then Some((Obj([]), t[2..]))
      else
        var entries := ReadEntries(t[1..]);
        if entries.None? then None else Some((Obj(entries.value.0), entries.value.1))
    else None
  }

  /** One or more values with commas between them, and the bracket. */
  function ReadItems(t: Text): (r: Option<(seq<Document>, Text)>)
    ensures r.Some? ==> |r.value.1| < |t|
    decreases |t|, 1
  {
    var first := ReadValue(t);
    if first.None? || first.value.1 == [] then None
    else
      var rest := first.value.1;
      if rest[0] == CLOSE_BRACKET then Some(([first.value.0], rest[1..]))
      else if rest[0] == COMMA then
        var more := ReadItems(rest[1..]);
        if more.None? then None else Some(([first.value.0] + more.value.0, more.value.1))
      else None
  }

  /** A quoted key, a colon and a value. */
  function ReadEntry(t: Text): (r: Option<(Entry<Document>, Text)>)
    ensures r.Some? ==> |r.value.1| < |t|
    decreases |t|, 1
  {
    var key := ReadQuoted(t);
    if key.None? || key.value.1 == [] || key.value.1[0] != COLON then None
    else
      var value := ReadValue(key.value.1[1..]);
      if value.None? then None else Some((Entry(key.value.0, value.value.0), value.value.1))
  }

  /** One or more entries with commas between them, and the brace. */
  function ReadEntries(t: Text): (r: Option<(seq<Entry<Document>>, Text)>)
    ensures r.Some? ==> |r.value.1| < |t|
    decreases |t|, 2
  {
    var first := ReadEntry(t);
    if first.None? || first.value.1 == [] then None
    else
      var rest := first.value.1;
      if rest[0] == CLOSE_BRACE then Some(([first.value.0], rest[1..]))
      else if rest[0] == COMMA then
        var more := ReadEntries(rest[1..]);
        if more.None? then None else Some(([first.value.0] + more.value.0, more.value.1))
      else None
  }

  /** The value of a whole text. */
  function Parse(t: Text): Option<Document> {
    var r := ReadValue(t);
    if r.Some? && r.value.1 == [] then Some(r.value.0) else None
  }

  // ---------------------------------------------------------------------------------------
  // Strings read back
  // ---------------------------------------------------------------------------------------

  lemma HexReadsBack(d: int)
    requires 0 <= d < 16
    ensures IsHex(HexDigit(d)) && HexValue(HexDigit(d)) == d
  {
  }

  lemma UnicodeReadsBack(u: CodeUnit, r: Text)
    ensures ReadUnit(UnicodeEscape(u) + r) == Some((u, r))
  {
    var t := UnicodeEscape(u) + r;
    HexReadsBack(u / 16 / 16 / 16);
    HexReadsBack(u / 16 / 16 % 16);
    HexReadsBack(u / 16 % 16);
    HexReadsBack(u % 16);
    hide HexDigit, HexValue;
    assert t[6..] == r;
  }

  lemma UnitReadsBack(u: CodeUnit, r: Text)
    ensures ReadUnit(EscapeUnit(u) + r) == Some((u, r))
  {
    hide UnicodeEscape, HexDigit, HexValue, IsHex;
    UnicodeReadsBack(u, r);
    var t := EscapeUnit(u) + r;
    if EscapeUnit(u) == [u] {
      assert t[1..] == r;
    } else if EscapeUnit(u) != UnicodeEscape(u) {
      assert t[2..] == r && t[1] == EscapeUnit(u)[1] != 117;
    }
  }

  lemma {:induction false} StringReadsBack(s: Text, r: Text)
    ensures ReadString(EscapeText(s) + ([QUOTE] + r)) == Some((s, r))
  {
    hide ReadUnit, EscapeUnit, IsLead, IsTrail;
    var t := EscapeText(s) + ([QUOTE] + r);
    if s == [] {
      assert t == [QUOTE] + r;
    } else if StartsWithPair(s) {
      var rest := EscapeText(s[2..]) + ([QUOTE] + r);
      StringReadsBack(s[2..], r);
      assert t == [s[0]] + ([s[1]] + rest);
      HalfReadsBack(s[0], [s[1]] + rest);
      HalfReadsBack(s[1], rest);
      assert s == [s[0]] + ([s[1]] + s[2..]);
    } else {
      var rest := EscapeText(s[1..]) + ([QUOTE] + r);
      StringReadsBack(s[1..], r);
      assert t == EscapeUnit(s[0]) + rest;
      UnitReadsBack(s[0], rest);
      EscapeIsNoQuote(s[0], rest);
      assert s == [s[0]] + s[1..];
    }
  }

  lemma HalfReadsBack(u: CodeUnit, r: Text)
    requires IsLead(u) || IsTrail(u)
    ensures ReadUnit([u] + r) == Some((u, r)) && ([u] + r)[0] != QUOTE
  {
  }

  lemma EscapeIsNoQuote(u: CodeUnit, r: Text)
    ensures EscapeUnit(u) != [] && (EscapeUnit(u) + r)[0] != QUOTE
  {
  }

  /** A printed string reads back as itself, whatever follows. */
  lemma QuoteReadsBack(s: Text, r: Text)
    ensures ReadQuoted(Quote(s) + r) == Some((s, r))
  {
    hide EscapeText, ReadString;
    StringReadsBack(s, r);
    assert (Quote(s) + r)[1..] == EscapeText(s) + ([QUOTE] + r);
  }

  /** An escape that is not spelled as JavaScript never does: no half of a surrogate pair as it is, no upper-case hexadecimal digit. */
  predicate Plain(t: Text) {
    if |t| == 1 then !IsLead(t[0]) && !IsTrail(t[0]) else forall i :: 0 <= i < |t| ==> !(65 <= t[i] <= 70)
  }

  /** Of all plain texts that read as the code unit, the printer takes the shortest. */
  lemma EscapeIsShortest(u: CodeUnit, t: Text)
    requires ReadUnit(t) == Some((u, [])) && Plain(t)
    ensures Plain(EscapeUnit(u)) && (t == EscapeUnit(u) || |t| > |EscapeUnit(u)|)
  {
    if |t| == 6 {
      HexReadsAs(t, u);
    }
  }

  lemma HexReadsAs(t: Text, u: CodeUnit)
    requires |t| == 6 && t[0] == BACKSLASH && t[1] == 117 && forall k :: 2 <= k < 6 ==> IsHex(t[k]) && !(65 <= t[k] <= 70)
    requires u == 4096 * HexValue(t[2]) + 256 * HexValue(t[3]) + 16 * HexValue(t[4]) + HexValue(t[5])
    ensures t == UnicodeEscape(u)
  {
    var a, b, c, d := HexValue(t[2]), HexValue(t[3]), HexValue(t[4]), HexValue(t[5]);
    assert u / 16 == 256 * a + 16 * b + c && u % 16 == d;
    assert u / 16 / 16 == 16 * a + b && u / 16 % 16 == c;
    assert u / 16 / 16 / 16 == a && u / 16 / 16 % 16 == b;
  }

  // ---------------------------------------------------------------------------------------
  // Values read back
  // ---------------------------------------------------------------------------------------

  /** Text that cannot continue a number. */
  predicate Stops(r: Text) {
    r == [] || !NumeralUnit(r[0])
  }

  lemma {:induction false} NumeralPrefixOf(a: Text, r: Text)
    requires (forall i :: 0 <= i < |a| ==> NumeralUnit(a[i])) && Stops(r)
    ensures NumeralPrefix(a + r) == |a|
  {
    if a == [] {
      assert a + r == r;
    } else {
      NumeralPrefixOf(a[1..], r);
      assert (a + r)[1..] == a[1..] + r;
    }
  }

  lemma NumeralReadsBack(n: Numeral, r: Text)
    requires Stops(r)
    ensures ReadValue(n.text + r) == Some((Num(n), r))
  {
    NumeralPrefixOf(n.text, r);
    var t := n.text + r;
    assert t[0] == n.text[0] && t[..|n.text|] == n.text && t[|n.text|..] == r;
    hide NumeralPrefix, ReadQuoted, ReadItems, ReadEntries;
  }

  lemma WordsReadBack(r: Text)
    ensures ReadValue(NULL_TEXT + r) == Some((Null, r))
    ensures ReadValue(TRUE_TEXT + r) == Some((Bool(true), r))
    ensures ReadValue(FALSE_TEXT + r) == Some((Bool(false), r))
  {
    hide NumeralPrefix, ReadQuoted, ReadItems, ReadEntries;
    assert (NULL_TEXT + r)[4..] == r && (TRUE_TEXT + r)[4..] == r && (FALSE_TEXT + r)[5..] == r;
    assert (TRUE_TEXT + r)[0] == 116 && (FALSE_TEXT + r)[0] == 102;
  }

  /** Which way the reader goes when a string, an array or an object starts. */
  lemma ReadByFirst(u: CodeUnit, r: Text)
    requires u == QUOTE || u == OPEN_BRACKET || u == OPEN_BRACE
    ensures !(NULL_TEXT <= [u] + r) && !(TRUE_TEXT <= [u] + r) && !(FALSE_TEXT <= [u] + r) && NumeralPrefix([u] + r) == 0
    ensures ([u] + r)[1..] == r
  {
    assert ([u] + r)[0] == u;
  }

  lemma StrReadsBack(s: Text, r: Text)
    ensures ReadValue(Quote(s) + r) == Some((Str(s), r))
  {
    hide NumeralPrefix, ReadQuoted, ReadItems, ReadEntries, EscapeText;
    assert Quote(s) + r == [QUOTE] + (EscapeText(s) + [QUOTE] + r);
    ReadByFirst(QUOTE, EscapeText(s) + [QUOTE] + r);
    QuoteReadsBack(s, r);
  }

  /** What a printed value starts with: never with a closing bracket. */
  lemma PrintStarts(v: Document)
    ensures Print(v) != [] && Print(v)[0] != CLOSE_BRACKET
  {
  }

  lemma {:induction false} ValueReadsBack(v: Document, r: Text)
    requires Stops(r)
    ensures ReadValue(Print(v) + r) == Some((v, r))
    decreases v, 1
  {
    hide NumeralPrefix, ReadQuoted, ReadItems, ReadEntries, ReadValue, NumeralUnit;
    match v
    case Null => WordsReadBack(r);
    case Bool(b) => WordsReadBack(r);
    case Num(n) => NumeralReadsBack(n, r);
    case Str(s) => StrReadsBack(s, r);
    case Arr(items) => ArrReadsBack(items, r);
    case Obj(entries) => ObjReadsBack(entries, r);
  }

  lemma {:induction false} ArrReadsBack(items: seq<Document>, r: Text)
    ensures ReadValue(Print(Arr(items)) + r) == Some((Arr(items), r))
    decreases items, 1
  {
    var rest := PrintItems(items, false) + r;
    assert Print(Arr(items)) + r == [OPEN_BRACKET] + rest;
    ReadByFirst(OPEN_BRACKET, rest);
    hide NumeralPrefix, ReadQuoted, ReadItems, ReadEntries, Print;
    if items == [] {
      assert rest == [CLOSE_BRACKET] + r;
      assert ([OPEN_BRACKET] + rest)[2..] == r;
    } else {
      ItemsStart(items);
      assert rest[0] == PrintItems(items, false)[0];
      hide PrintItems;
      ItemsReadBack(items, r);
    }
  }

  lemma ItemsStart(items: seq<Document>)
    requires items != []
    ensures PrintItems(items, false) != [] && PrintItems(items, false)[0] != CLOSE_BRACKET
  {
    hide Print;
    PrintStarts(items[0]);
  }

  lemma {:induction false} ItemsReadBack(items: seq<Document>, r: Text)
    requires items != []
    ensures ReadItems(PrintItems(items, false) + r) == Some((items, r))
    decreases items, 0
  {
    hide Print, ReadValue, NumeralUnit;
    var rest := PrintItems(items[1..], true) + r;
    assert PrintItems(items, false) + r == Print(items[0]) + rest;
    if |items| == 1 {
      assert items[1..] == [];
      assert rest == [CLOSE_BRACKET] + r;
      CloserStops(r);
      ValueReadsBack(items[0], rest);
      assert items == [items[0]];
    } else {
      assert rest == [COMMA] + (PrintItems(items[1..], false) + r) by { CommaItems(items[1..]); }
      CloserStops(PrintItems(items[1..], false) + r);
      ValueReadsBack(items[0], rest);
      ItemsReadBack(items[1..], r);
      assert items == [items[0]] + items[1..];
    }
  }

  lemma CommaItems(items: seq<Document>)
    requires items != []
    ensures PrintItems(items, true) == [COMMA] + PrintItems(items, false)
  {
    hide Print;
  }

  lemma CloserStops(r: Text)
    ensures Stops([CLOSE_BRACKET] + r) && Stops([CLOSE_BRACE] + r) && Stops([COMMA] + r)
  {
  }

  lemma {:induction false} ObjReadsBack(entries: seq<Entry<Document>>, r: Text)
    ensures ReadValue(Print(Obj(entries)) + r) == Some((Obj(entries), r))
    decreases entries, 1
  {
    var rest := PrintEntries(entries, false) + r;
    assert Print(Obj(entries)) + r == [OPEN_BRACE] + rest;
    ReadByFirst(OPEN_BRACE, rest);
    hide NumeralPrefix, ReadQuoted, ReadItems, ReadEntries, Print;
    if entries == [] {
      assert rest == [CLOSE_BRACE] + r;
      assert ([OPEN_BRACE] + rest)[2..] == r;
    } else {
      EntriesReadBack(entries, r);
      assert rest[0] == QUOTE;
    }
  }

  lemma {:induction false} EntriesReadBack(entries: seq<Entry<Document>>, r: Text)
    requires entries != []
    ensures ReadEntries(PrintEntries(entries, false) + r) == Some((entries, r))
    decreases entries, 0
  {
    hide Print, ReadEntry, Quote;
    var e, rest := entries[0], PrintEntries(entries[1..], true) + r;
    assert PrintEntries(entries, false) + r == Quote(e.key) + ([COLON] + (Print(e.value) + rest));
    if |entries| == 1 {
      assert entries[1..] == [];
      assert rest == [CLOSE_BRACE] + r;
      CloserStops(r);
      ValueReadsBack(e.value, rest);
      EntryReadsBack(e, rest);
      assert entries == [e];
    } else {
      assert rest == [COMMA] + (PrintEntries(entries[1..], false) + r) by { CommaEntries(entries[1..]); }
      CloserStops(PrintEntries(entries[1..], false) + r);
      ValueReadsBack(e.value, rest);
      EntryReadsBack(e, rest);
      EntriesReadBack(entries[1..], r);
      assert entries == [e] + entries[1..];
    }
  }

  lemma EntryReadsBack(e: Entry<Document>, r: Text)
    requires ReadValue(Print(e.value) + r) == Some((e.value, r))
    ensures ReadEntry(Quote(e.key) + ([COLON] + (Print(e.value) + r))) == Some((e, r))
  {
    hide Print, ReadQuoted, Quote, ReadValue;
    QuoteReadsBack(e.key, [COLON] + (Print(e.value) + r));
    assert ([COLON] + (Print(e.value) + r))[1..] == Print(e.value) + r;
  }

  lemma CommaEntries(entries: seq<Entry<Document>>)
    requires entries != []
    ensures PrintEntries(entries, true) == [COMMA] + PrintEntries(entries, false)
  {
    hide Print, Quote;
  }

  /** The printed text is the JSON text of the value. */
  lemma PrintParses(v: Document)
    ensures Parse(Print(v)) == Some(v)
  {
    hide Print, ReadValue;
    ValueReadsBack(v, []);
    assert Print(v) + [] == Print(v);
  }

  /** JSON.stringify, keeping property order, is injective. */
  lemma PrintInjective(v: Document, w: Document)
    requires Print(v) == Print(w)
    ensures v == w
  {
    PrintParses(v);
    PrintParses(w);
  }
}
