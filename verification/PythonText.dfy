// The string operations of the standard library that the repository relies on.

module PythonText {

  predicate IsAscii(s: string) {
    forall i :: 0 <= i < |s| ==> s[i] < 128 as char
  }

  function LowerChar(c: char): char {
    if 'A' <= c <= 'Z' then (c as int + 32) as char else c
  }

  function Lower(s: string): (r: string)
    ensures |r| == |s|
    ensures forall i :: 0 <= i < |s| ==> r[i] == LowerChar(s[i])
  {
    seq(|s|, i requires 0 <= i < |s| => LowerChar(s[i]))
  }

  // What the validation library trims from a `str` field.
  predicate TrimmedChar(c: char) {
    var n := c as int;
    || 0x09 <= n <= 0x0d || n == 0x20 || n == 0x85 || n == 0xa0 || n == 0x1680 || 0x2000 <= n <= 0x200a
    || n == 0x2028 || n == 0x2029 || n == 0x202f || n == 0x205f || n == 0x3000
  }

  // Python's str.isspace, and what str.strip removes.
  predicate SpaceChar(c: char) {
    TrimmedChar(c) || 0x1c <= c as int <= 0x1f
  }

  function StripWhere(space: char -> bool, s: string): (r: string)
    ensures |r| <= |s|
    ensures r != [] ==> !space(r[0]) && !space(r[|r| - 1])
    decreases |s|
  {
    if s == [] then s
    else if space(s[0]) then StripWhere(space, s[1..])
    else if space(s[|s| - 1]) then StripWhere(space, s[..|s| - 1])
    else s
  }

  function Trim(s: string): string {
    StripWhere(TrimmedChar, s)
  }

  function Strip(s: string): string {
    StripWhere(SpaceChar, s)
  }

  // `r` is `s` without its first `i` characters and without those from `j` on, all of them spaces,
  // and no space is left at either end.
  ghost predicate CutsTo(space: char -> bool, s: string, i: int, j: int, r: string) {
    && 0 <= i <= j <= |s| && r == s[i..j]
    && (forall k :: 0 <= k < i ==> space(s[k]))
    && (forall k :: j <= k < |s| ==> space(s[k]))
    && (r != [] ==> !space(r[0]) && !space(r[|r| - 1]))
  }

  // Nothing but spaces goes, and only from the ends.
  lemma {:induction false} StrippedEnds(space: char -> bool, s: string) returns (i: int, j: int)
    ensures CutsTo(space, s, i, j, StripWhere(space, s))
    decreases |s|
  {
    if s == [] {
      i, j := 0, 0;
    } else if space(s[0]) {
      i, j := StrippedEnds(space, s[1..]);
      i, j := i + 1, j + 1;
      assert s[1..][i - 1..j - 1] == s[i..j];
      assert forall k :: 0 < k < |s| ==> s[k] == s[1..][k - 1];
    } else if space(s[|s| - 1]) {
      i, j := StrippedEnds(space, s[..|s| - 1]);
    } else {
      i, j := 0, |s|;
    }
  }

  // ---------- Unary numerals ----------
  //
  // Printing that can be read back, to show that what is assumed of library printers and parsers
  // can be met.

  function Repeat(c: char, n: nat): string {
    seq(n, _ => c)
  }

  function Natural(n: int): nat {
    if n >= 0 then 2 * n else -2 * n - 1
  }

  function Unary(x: int, y: int): string {
    Repeat('a', Natural(x)) + Repeat('b', Natural(y))
  }

  lemma UnaryIsInjective(x: int, y: int, x': int, y': int)
    ensures Unary(x, y) == Unary(x', y') ==> x == x' && y == y'
  {
    var n, n' := Natural(x), Natural(x');
    var s, s' := Unary(x, y), Unary(x', y');
    assert |s| == n + Natural(y) && |s'| == n' + Natural(y');
    var k := if n < n' then n else n';
    if n != n' && |s| == |s'| {
      assert s[k] != s'[k];
    }
  }
}
