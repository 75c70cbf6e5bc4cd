/**
 The quoting of replay commands: the curl line for a request, read back by the quoting rules of
 the POSIX Shell Command Language, and string literals of replayed SQL, read back by SQL's rule.
 */
module ShellReplay {
  import opened Results

  const NUL: char := '\0'

  // ---------------------------------------------------------------------------------------
  // What the reporter writes
  // ---------------------------------------------------------------------------------------

  /** The value with every single quote written as quote, backslash, quote, quote. */
  function Escaped(value: string): string {
    if value == "" then "" else (if value[0] == '\'' then "'\\''" else [value[0]]) + Escaped(value[1..])
  }

  function ShellQuote(value: string): string {
    "'" + Escaped(value) + "'"
  }

  function Join(parts: seq<string>): string {
    if parts == [] then "" else if |parts| == 1 then parts[0] else Join(parts[..|parts| - 1]) + " " + parts[|parts| - 1]
  }

  datatype Header = Header(name: string, value: string)

  /** The arguments that a request is meant to pass to curl. */
  function CurlArgs(httpMethod: string, url: string, headers: seq<Header>, body: Option<string>): seq<string> {
    ["curl", "-sS", "-X", httpMethod, url] + HeaderArgs(headers) + if body.Some? then ["--data-raw", body.value] else []
  }

  function HeaderArgs(headers: seq<Header>): seq<string> {
    if headers == [] then []
    else HeaderArgs(headers[..|headers| - 1]) + ["-H", headers[|headers| - 1].name + ": " + headers[|headers| - 1].value]
  }

  /** The words of the line: options as they are, values quoted. */
  function CurlWords(httpMethod: string, url: string, headers: seq<Header>, body: Option<string>): seq<string> {
    ["curl", "-sS", "-X", ShellQuote(httpMethod), ShellQuote(url)] + HeaderWords(headers) + if body.Some? then ["--data-raw", ShellQuote(body.value)] else []
  }

  function HeaderWords(headers: seq<Header>): seq<string> {
    if headers == [] then []
    else HeaderWords(headers[..|headers| - 1]) + ["-H", ShellQuote(headers[|headers| - 1].name + ": " + headers[|headers| - 1].value)]
  }

  /** The method is upper-cased, the url resolved and the body serialised by the caller. */
  method CurlFor(httpMethod: string, url: string, headers: seq<Header>, body: Option<string>) returns (line: string)
    ensures line == Join(CurlWords(httpMethod, url, headers, body))
    ensures Tokenise(line) ==
      if AllNulFree(CurlArgs(httpMethod, url, headers, body)) then Some(CurlArgs(httpMethod, url, headers, body)) else None
  {
    hide Join, Tokenise, AllNulFree, ShellQuote;
    var safeArgs := ["curl", "-sS", "-X", ShellQuote(httpMethod), ShellQuote(url)];
    for i := 0 to |headers|
      invariant safeArgs == ["curl", "-sS", "-X", ShellQuote(httpMethod), ShellQuote(url)] + HeaderWords(headers[..i])
    {
      assert headers[..i + 1][..i] == headers[..i];
      safeArgs := safeArgs + ["-H", ShellQuote(headers[i].name + ": " + headers[i].value)];
    }
    assert headers[..|headers|] == headers;
    if body.Some? {
      safeArgs := safeArgs + ["--data-raw", ShellQuote(body.value)];
    }
    assert safeArgs == CurlWords(httpMethod, url, headers, body);
    line := Join(safeArgs);
    LineGivesArgs(httpMethod, url, headers, body);
  }

  /** The arguments name the method and the url, then each header under its own option in order, then the body if there is one. */
  lemma RequestIsCarried(httpMethod: string, url: string, headers: seq<Header>, body: Option<string>, i: nat)
    ensures var args, n := CurlArgs(httpMethod, url, headers, body), 5 + 2 * |headers|;
      && |args| == n + (if body.Some? then 2 else 0) && args[2] == "-X" && args[3] == httpMethod && args[4] == url
      && (i < |headers| ==> args[5 + 2 * i] == "-H" && args[6 + 2 * i] == headers[i].name + ": " + headers[i].value)
      && (body.Some? ==> args[n] == "--data-raw" && args[n + 1] == body.value)
  {
    HeaderIsCarried(headers, i);
  }

  lemma {:induction false} HeaderIsCarried(headers: seq<Header>, i: nat)
    ensures |HeaderArgs(headers)| == 2 * |headers|
    ensures i < |headers| ==> HeaderArgs(headers)[2 * i] == "-H" && HeaderArgs(headers)[2 * i + 1] == headers[i].name + ": " + headers[i].value
  {
    if headers != [] {
      HeaderIsCarried(headers[..|headers| - 1], i);
    }
  }

  // ---------------------------------------------------------------------------------------
  // What a shell reads
  // ---------------------------------------------------------------------------------------

  /** Between words, inside a word, or inside single quotes. */
  datatype Mode = Between | InWord | Quoted

  /** Characters that stand for themselves outside quotes wherever they appear in a word. */
  predicate Plain(c: char) {
    'a' <= c <= 'z' || 'A' <= c <= 'Z' || '0' <= c <= '9' || c in "-_./:,@+"
  }

  /**
   Token recognition with the backslash of section 2.2.1 and the single quotes of section 2.2.2.
   A NUL, an unterminated quote, and any other character that could start an operator, an
   expansion, a comment or a new command give no words at all.
   */
  function Lex(s: string, mode: Mode, word: string, words: seq<string>): Option<seq<string>>
    decreases |s|
  {
    if s == "" then (match mode case Between => Some(words) case InWord => Some(words + [word]) case Quoted => None)
    else if s[0] == NUL then None
    else if mode == Quoted then
      if s[0] == '\'' then Lex(s[1..], InWord, word, words) else Lex(s[1..], Quoted, word + [s[0]], words)
    else if s[0] == ' ' || s[0] == '\t' then Lex(s[1..], Between, "", if mode == InWord then words + [word] else words)
    else if s[0] == '\'' then Lex(s[1..], Quoted, word, words)
    else if s[0] == '\\' then
      if |s| == 1 || s[1] == NUL then None
      else if s[1] == '\n' then Lex(s[2..], mode, word, words)
      else Lex(s[2..], InWord, word + [s[1]], words)
    else if Plain(s[0]) then Lex(s[1..], InWord, word + [s[0]], words)
    else None
  }

  function Tokenise(line: string): Option<seq<string>> {
    Lex(line, Between, "", [])
  }

  predicate NulFree(s: string) {
    forall i :: 0 <= i < |s| ==> s[i] != NUL
  }

  predicate AllNulFree(args: seq<string>) {
    forall i :: 0 <= i < |args| ==> NulFree(args[i])
  }

  // ---------------------------------------------------------------------------------------
  // Quoting is undone by reading
  // ---------------------------------------------------------------------------------------

  /** Inside the quotes: an escaped value and the closing quote add the value to the word, or fail on its NUL. */
  lemma {:induction false} EscapedReads(value: string, rest: string, word: string, words: seq<string>)
    ensures Lex(Escaped(value) + "'" + rest, Quoted, word, words) == if NulFree(value) then Lex(rest, InWord, word + value, words) else None
    decreases |value|
  {
    var s := Escaped(value) + "'" + rest;
    if value == "" {
      assert s == "'" + rest;
      assert s[0] == '\'' && s[1..] == rest && word + value == word;
    } else {
      var c, tail := value[0], value[1..];
      var after := Escaped(tail) + "'" + rest;
      EscapedReads(tail, rest, word + [c], words);
      assert NulFree(value) <==> c != NUL && NulFree(tail) by {
        assert forall i :: 1 <= i < |value| ==> value[i] == tail[i - 1];
      }
      assert word + value == (word + [c]) + tail;
      if c == '\'' {
        assert s == "'\\''" + after;
        QuoteCharReads(after, word, words);
      } else {
        assert s == [c] + after;
        assert s[0] == c && s[1..] == after;
      }
    }
  }

  /** Quote, backslash, quote, quote inside quotes adds one quote character and stays inside quotes. */
  lemma QuoteCharReads(after: string, word: string, words: seq<string>)
    ensures Lex("'\\''" + after, Quoted, word, words) == Lex(after, Quoted, word + ['\''], words)
  {
    var s := "'\\''" + after;
    assert s[0] == '\'' && s[1..] == "\\''" + after;
    var s1 := s[1..];
    assert s1[0] == '\\' && s1[1] == '\'' && s1[2..] == "'" + after;
    var s3 := s1[2..];
    assert s3[0] == '\'' && s3[1..] == after;
    assert Lex(s, Quoted, word, words) == Lex(s1, InWord, word, words);
    assert Lex(s1, InWord, word, words) == Lex(s3, InWord, word + ['\''], words);
  }

  lemma QuotedReads(value: string, rest: string, word: string, words: seq<string>)
    ensures Lex(ShellQuote(value) + rest, Between, word, words) == if NulFree(value) then Lex(rest, InWord, word + value, words) else None
  {
    hide NulFree;
    var s := ShellQuote(value) + rest;
    assert s == "'" + (Escaped(value) + "'" + rest);
    assert s[0] == '\'' && s[1..] == Escaped(value) + "'" + rest;
    EscapedReads(value, rest, word, words);
  }

  predicate PlainWord(s: string) {
    s != "" && forall i :: 0 <= i < |s| ==> Plain(s[i])
  }

  lemma {:induction false} PlainReads(s: string, rest: string, mode: Mode, word: string, words: seq<string>)
    requires (forall i :: 0 <= i < |s| ==> Plain(s[i])) && mode != Quoted && (s != "" || mode == InWord)
    ensures Lex(s + rest, mode, word, words) == Lex(rest, InWord, word + s, words)
    decreases |s|
  {
    if s == "" {
      assert s + rest == rest && word + s == word;
    } else {
      assert (s + rest)[0] == s[0] && (s + rest)[1..] == s[1..] + rest;
      assert word + s == (word + [s[0]]) + s[1..];
      PlainReads(s[1..], rest, InWord, word + [s[0]], words);
    }
  }

  /** How a word of the line is meant: it is the argument itself, in plain characters, or the argument quoted. */
  predicate Writes(word: string, arg: string) {
    (word == arg && PlainWord(arg)) || word == ShellQuote(arg)
  }

  lemma WordReads(word: string, arg: string, rest: string, words: seq<string>)
    requires Writes(word, arg)
    ensures Lex(word + rest, Between, "", words) == if NulFree(arg) then Lex(rest, InWord, arg, words) else None
  {
    hide Lex;
    assert "" + arg == arg;
    if word == ShellQuote(arg) {
      QuotedReads(arg, rest, "", words);
    } else {
      PlainReads(arg, rest, Between, "", words);
    }
  }

  predicate WritesAll(words: seq<string>, args: seq<string>) {
    |words| == |args| && forall i :: 0 <= i < |args| ==> Writes(words[i], args[i])
  }

  /** Reading the joined words, and whatever follows them, goes on in the last word with all others collected. */
  lemma {:induction false} JoinReads(parts: seq<string>, args: seq<string>, rest: string)
    requires WritesAll(parts, args) && parts != []
    ensures Lex(Join(parts) + rest, Between, "", []) ==
      if AllNulFree(args) then Lex(rest, InWord, args[|args| - 1], args[..|args| - 1]) else None
    decreases |parts|
  {
    hide Lex, Writes, NulFree;
    var n := |parts| - 1;
    if n == 0 {
      WordReads(parts[0], args[0], rest, []);
    } else {
      var after := " " + (parts[n] + rest);
      assert Join(parts) + rest == Join(parts[..n]) + after;
      JoinReads(parts[..n], args[..n], after);
      BlankReads(parts[n] + rest, args[n - 1], args[..n - 1]);
      assert args[..n][..n - 1] == args[..n - 1] && args[..n - 1] + [args[n - 1]] == args[..n];
      assert Lex(after, InWord, args[n - 1], args[..n - 1]) == Lex(parts[n] + rest, Between, "", args[..n]);
      WordReads(parts[n], args[n], rest, args[..n]);
      assert AllNulFree(args) <==> AllNulFree(args[..n]) && NulFree(args[n]);
    }
  }

  lemma BlankReads(rest: string, word: string, words: seq<string>)
    ensures Lex(" " + rest, InWord, word, words) == Lex(rest, Between, "", words + [word])
  {
    assert (" " + rest)[1..] == rest;
  }

  lemma CurlWordsWrite(httpMethod: string, url: string, headers: seq<Header>, body: Option<string>)
    ensures WritesAll(CurlWords(httpMethod, url, headers, body), CurlArgs(httpMethod, url, headers, body))
  {
    HeaderWordsWrite(headers);
    hide HeaderWords, HeaderArgs, ShellQuote;
    assert PlainWord("curl") && PlainWord("-sS") && PlainWord("-X") && PlainWord("--data-raw");
  }

  lemma {:induction false} HeaderWordsWrite(headers: seq<Header>)
    ensures WritesAll(HeaderWords(headers), HeaderArgs(headers))
  {
    hide ShellQuote;
    assert PlainWord("-H");
    if headers != [] {
      HeaderWordsWrite(headers[..|headers| - 1]);
    }
  }

  /** A shell reads from the line exactly the intended arguments when no value contains a NUL, and nothing otherwise. */
  lemma LineGivesArgs(httpMethod: string, url: string, headers: seq<Header>, body: Option<string>)
    ensures Tokenise(Join(CurlWords(httpMethod, url, headers, body))) ==
      if AllNulFree(CurlArgs(httpMethod, url, headers, body)) then Some(CurlArgs(httpMethod, url, headers, body)) else None
  {
    var words, args := CurlWords(httpMethod, url, headers, body), CurlArgs(httpMethod, url, headers, body);
    CurlWordsWrite(httpMethod, url, headers, body);
    JoinReads(words, args, "");
    assert Join(words) + "" == Join(words);
    assert args[..|args| - 1] + [args[|args| - 1]] == args;
    hide Join, CurlWords, CurlArgs, AllNulFree, WritesAll;
  }

  // ---------------------------------------------------------------------------------------
  // SQL string literals
  // ---------------------------------------------------------------------------------------

  function Doubled(value: string): string {
    if value == "" then "" else (if value[0] == '\'' then "''" else [value[0]]) + Doubled(value[1..])
  }

  /** sqlLiteral of a string. */
  function SqlLiteral(value: string): string {
    "'" + Doubled(value) + "'"
  }

  /** The inside of a literal up to the quote that is not doubled, and what follows it. */
  function ReadInside(s: string, value: string): Option<(string, string)>
    decreases |s|
  {
    if s == "" then None
    else if s[0] != '\'' then ReadInside(s[1..], value + [s[0]])
    else if |s| > 1 && s[1] == '\'' then ReadInside(s[2..], value + ['\''])
    else Some((value, s[1..]))
  }

  function ReadLiteral(s: string): Option<(string, string)> {
    if s != "" && s[0] == '\'' then ReadInside(s[1..], "") else None
  }

  lemma {:induction false} ReadsForward(s: string, value: string)
    ensures ReadInside(s, value).Some? ==> |ReadInside(s, value).value.1| < |s|
    decreases |s|
  {
    if s == "" {
    } else if s[0] != '\'' {
      ReadsForward(s[1..], value + [s[0]]);
    } else if |s| > 1 && s[1] == '\'' {
      ReadsForward(s[2..], value + ['\'']);
    }
  }

  /** After the inside of a literal, its closing quote ends it unless another quote follows. */
  lemma {:induction false} DoubledReads(value: string, rest: string, before: string)
    ensures rest == "" || rest[0] != '\'' ==> ReadInside(Doubled(value) + "'" + rest, before) == Some((before + value, rest))
    ensures rest != "" && rest[0] == '\'' ==> ReadInside(Doubled(value) + "'" + rest, before) == ReadInside(rest[1..], before + value + ['\''])
    decreases |value|
  {
    var s := Doubled(value) + "'" + rest;
    if value == "" {
      assert s == "'" + rest && s[1..] == rest && before + value == before;
      assert |s| > 1 ==> s[1] == rest[0] && s[2..] == rest[1..];
    } else {
      var after := Doubled(value[1..]) + "'" + rest;
      DoubledReads(value[1..], rest, before + [value[0]]);
      assert before + value == (before + [value[0]]) + value[1..];
      if value[0] == '\'' {
        assert s == "''" + after;
        assert s[0] == '\'' && s[1] == '\'' && s[2..] == after;
      } else {
        assert s == [value[0]] + after;
        assert s[0] == value[0] && s[1..] == after;
      }
    }
  }

  /** A literal reads back as its value, whatever the value, exactly when no quote follows it directly. */
  lemma SqlLiteralReads(value: string, rest: string)
    ensures ReadLiteral(SqlLiteral(value) + rest) == Some((value, rest)) <==> rest == "" || rest[0] != '\''
  {
    var s := SqlLiteral(value) + rest;
    assert s == "'" + (Doubled(value) + "'" + rest);
    assert s[1..] == Doubled(value) + "'" + rest;
    assert "" + value == value;
    DoubledReads(value, rest, "");
    if rest != "" && rest[0] == '\'' {
      ReadsForward(rest[1..], value + ['\'']);
    }
    hide ReadInside, Doubled;
  }
}
