/** JSON.stringify: the text that JavaScript prints for a JSON value, in property order and without white space. */
module JsonPrinter {
  import opened Json

  /** The characters a printed finite number consists of: digits, + - . e E. */
  predicate NumeralUnit(u: CodeUnit) {
    48 <= u <= 57 || u == 43 || u == 45 || u == 46 || u == 69 || u == 101
  }

  /** A finite number, represented by the decimal text that JSON.stringify prints for it. */
  datatype Numeral = Numeral(text: NumeralText)

  type NumeralText = t: Text | t != [] && forall i :: 0 <= i < |t| ==> NumeralUnit(t[i]) witness [48]

  type Document = Json<Numeral>

  const QUOTE: CodeUnit := 34
  const BACKSLASH: CodeUnit := 92
  const COMMA: CodeUnit := 44
  const COLON: CodeUnit := 58
  const OPEN_BRACKET: CodeUnit := 91
  const CLOSE_BRACKET: CodeUnit := 93
  const OPEN_BRACE: CodeUnit := 123
  const CLOSE_BRACE: CodeUnit := 125
  const NULL_TEXT: Text := [110, 117, 108, 108]
  const TRUE_TEXT: Text := [116, 114, 117, 101]
  const FALSE_TEXT: Text := [102, 97, 108, 115, 101]

  predicate IsLead(u: CodeUnit) {
    0xD800 <= u < 0xDC00
  }

  predicate IsTrail(u: CodeUnit) {
    0xDC00 <= u < 0xE000
  }

  function HexDigit(d: int): CodeUnit
    requires 0 <= d < 16
  {
    if d < 10 then 48 + d else 87 + d
  }

  function UnicodeEscape(u: CodeUnit): Text {
    [BACKSLASH, 117, HexDigit(u / 16 / 16 / 16), HexDigit(u / 16 / 16 % 16), HexDigit(u / 16 % 16), HexDigit(u % 16)]
  }

  /** One code unit of a string that is not half of a surrogate pair. */
  function EscapeUnit(u: CodeUnit): Text {
    if u == QUOTE || u == BACKSLASH then [BACKSLASH, u]
    else if u == 8 then [BACKSLASH, 98]
    else if u == 9 then [BACKSLASH, 116]
    else if u == 10 then [BACKSLASH, 110]
    else if u == 12 then [BACKSLASH, 102]
    else if u == 13 then [BACKSLASH, 114]
    else if u < 32 || IsLead(u) || IsTrail(u) then UnicodeEscape(u)
    else [u]
  }

  predicate StartsWithPair(s: Text) {
    |s| > 1 && IsLead(s[0]) && IsTrail(s[1])
  }

  /** Surrogate pairs are kept; lone surrogates and control characters are escaped. */
  function EscapeText(s: Text): Text {
    if s == [] then []
    else if StartsWithPair(s) then [s[0], s[1]] + EscapeText(s[2..])
    else EscapeUnit(s[0]) + EscapeText(s[1..])
  }

  function Quote(s: Text): Text {
    [QUOTE] + EscapeText(s) + [QUOTE]
  }

  function Print(v: Document): Text
    decreases v, 1
  {
    match v
    case Null => NULL_TEXT
    case Bool(b) => if b then TRUE_TEXT else FALSE_TEXT
    case Num(n) => n.text
    case Str(s) => Quote(s)
    case Arr(items) => [OPEN_BRACKET] + PrintItems(items, false)
    case Obj(entries) => [OPEN_BRACE] + PrintEntries(entries, false)
  }

  /** The remaining items of an array, with a comma in front of each but the first, and the bracket. */
  function PrintItems(items: seq<Document>, started: bool): Text
    decreases items, 0
  {
    if items == [] then [CLOSE_BRACKET]
    else (if started then [COMMA] else []) + Print(items[0]) + PrintItems(items[1..], true)
  }

  function PrintEntries(entries: seq<Entry<Document>>, started: bool): Text
    decreases entries, 0
  {
    if entries == [] then [CLOSE_BRACE]
    else (if started then [COMMA] else []) + Quote(entries[0].key) + [COLON] + Print(entries[0].value) + PrintEntries(entries[1..], true)
  }
}
