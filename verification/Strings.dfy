/** White space as JavaScript's trim and \s see it. */
module Strings {
  predicate IsSpace(c: char) {
    var u := c as int;
    9 <= u <= 13 || u in {0x20, 0xA0, 0x1680, 0x2028, 0x2029, 0x202F, 0x205F, 0x3000, 0xFEFF} || 0x2000 <= u <= 0x200A
  }

  /** s.trim() is empty. */
  predicate Blank(s: string) {
    forall i :: 0 <= i < |s| ==> IsSpace(s[i])
  }

  /** s.trim(): no white space at either end is left, and nothing is when all was white space. */
  function Trim(s: string): (r: string)
    ensures r == "" <==> Blank(s)
    ensures r != "" ==> !IsSpace(r[0]) && !IsSpace(r[|r| - 1])
  {
    if s == "" then ""
    else if IsSpace(s[0]) then
      assert forall i :: 1 <= i < |s| ==> s[i] == s[1..][i - 1];
      Trim(s[1..])
    else if IsSpace(s[|s| - 1]) then Trim(s[..|s| - 1])
    else s
  }

  /** r is s without white space in front of i and from j on. */
  predicate Cuts(s: string, r: string, i: nat, j: nat) {
    i <= j <= |s| && r == s[i..j] && Blank(s[..i]) && Blank(s[j..])
  }

  lemma CutsMoreInFront(s: string, r: string, i: nat, j: nat)
    requires s != "" && IsSpace(s[0]) && Cuts(s[1..], r, i, j)
    ensures Cuts(s, r, i + 1, j + 1)
  {
    hide IsSpace;
    assert s[1..][i..j] == s[i + 1..j + 1] && s[1..][j..] == s[j + 1..];
    assert s[..i + 1] == [s[0]] + s[1..][..i];
  }

  lemma CutsMoreBehind(s: string, r: string, i: nat, j: nat)
    requires s != "" && IsSpace(s[|s| - 1]) && Cuts(s[..|s| - 1], r, i, j)
    ensures Cuts(s, r, i, j)
  {
    hide IsSpace;
    var n := |s| - 1;
    assert s[..n][i..j] == s[i..j] && s[..n][..i] == s[..i];
    assert s[j..] == s[..n][j..] + [s[n]];
  }

  /** Trimming cuts off white space at both ends and nothing else. */
  lemma {:induction false} TrimCuts(s: string) returns (i: nat, j: nat)
    ensures Cuts(s, Trim(s), i, j)
  {
    hide IsSpace, Cuts, Blank;
    if s == "" {
      i, j := 0, 0;
      NothingIsCut(s);
    } else if IsSpace(s[0]) {
      i, j := TrimCuts(s[1..]);
      CutsMoreInFront(s, Trim(s[1..]), i, j);
      i, j := i + 1, j + 1;
    } else if IsSpace(s[|s| - 1]) {
      i, j := TrimCuts(s[..|s| - 1]);
      CutsMoreBehind(s, Trim(s[..|s| - 1]), i, j);
    } else {
      i, j := 0, |s|;
      NothingIsCut(s);
    }
  }

  lemma NothingIsCut(s: string)
    ensures Cuts(s, s, 0, |s|)
  {
  }

  function Truncate(s: string, n: nat): string {
    if |s| <= n then s else s[..n]
  }
}
