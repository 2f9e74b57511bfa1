/** Text primitives used across the client and the server: ASCII case
    mapping, the two whitespace-trimming rules (JavaScript `String.trim`
    and Python `str.strip`), substring search and decimal formatting of
    integers. */
module Strings {

  // ---------------------------------------------------------------------
  // Case mapping (ASCII letters only)
  // ---------------------------------------------------------------------

  predicate IsUpper(c: char) { 'A' <= c <= 'Z' }
  predicate IsLower(c: char) { 'a' <= c <= 'z' }
  predicate IsDigit(c: char) { '0' <= c <= '9' }

  /** A character of the regular-expression class `\w`. */
  predicate IsWordChar(c: char) { IsUpper(c) || IsLower(c) || IsDigit(c) || c == '_' }

  function LowerChar(c: char): (r: char)
    ensures !IsUpper(r)
    ensures IsUpper(c) ==> IsLower(r)
    ensures !IsUpper(c) ==> r == c
  {
    if IsUpper(c) then (c as int + 32) as char else c
  }

  function UpperChar(c: char): (r: char)
    ensures !IsLower(r)
    ensures IsLower(c) ==> IsUpper(r)
    ensures !IsLower(c) ==> r == c
  {
    if IsLower(c) then (c as int - 32) as char else c
  }

  /** `toLowerCase()` / `lower()`, restricted to ASCII letters. */
  function ToLower(s: string): (r: string)
    ensures |r| == |s|
    ensures forall i :: 0 <= i < |s| ==> r[i] == LowerChar(s[i])
  {
    seq(|s|, i requires 0 <= i < |s| => LowerChar(s[i]))
  }

  lemma ToLowerIdempotent(s: string)
    ensures ToLower(ToLower(s)) == ToLower(s)
  {
  }

  lemma ToLowerConcat(a: string, b: string)
    ensures ToLower(a + b) == ToLower(a) + ToLower(b)
  {
  }

  // ---------------------------------------------------------------------
  // Whitespace and trimming
  // ---------------------------------------------------------------------

  /** The characters JavaScript's `String.prototype.trim` removes. */
  predicate IsJsSpace(c: char) {
    c == ' ' || c == '\t' || c == '\n' || c == '\r' || c == '\U{000B}' || c == '\U{000C}'
    || c == '\U{00A0}' || c == '\U{1680}' || ('\U{2000}' <= c <= '\U{200A}')
    || c == '\U{2028}' || c == '\U{2029}' || c == '\U{202F}' || c == '\U{205F}'
    || c == '\U{3000}' || c == '\U{FEFF}'
  }

  /** The characters Python's `str.strip()` removes (those with `isspace()`). */
  predicate IsPySpace(c: char) {
    ('\t' <= c <= '\r') || ('\U{001C}' <= c <= '\U{001F}') || c == ' '
    || c == '\U{0085}' || c == '\U{00A0}' || c == '\U{1680}' || ('\U{2000}' <= c <= '\U{200A}')
    || c == '\U{2028}' || c == '\U{2029}' || c == '\U{202F}' || c == '\U{205F}' || c == '\U{3000}'
  }

  /** Every character of `s` satisfies `ws`. */
  predicate AllSpace(s: string, ws: char -> bool) {
    forall i :: 0 <= i < |s| ==> ws(s[i])
  }

  /** Remove the leading characters satisfying `ws`. */
  function DropLeading(s: string, ws: char -> bool): string {
    if |s| > 0 && ws(s[0]) then DropLeading(s[1..], ws) else s
  }

  /** Remove the trailing characters satisfying `ws`. */
  function DropTrailing(s: string, ws: char -> bool): string {
    if |s| > 0 && ws(s[|s| - 1]) then DropTrailing(s[..|s| - 1], ws) else s
  }

  /** `DropLeading` removes a prefix of trimmed characters and stops at the
      first character that is kept. */
  lemma {:induction false} DropLeadingSpec(s: string, ws: char -> bool)
    ensures var r := DropLeading(s, ws);
      && |r| <= |s| && r == s[|s| - |r|..]
      && (r == [] || !ws(r[0]))
      && AllSpace(s[..|s| - |r|], ws)
  {
    if |s| > 0 && ws(s[0]) {
      DropLeadingSpec(s[1..], ws);
      var r := DropLeading(s[1..], ws);
      assert s[1..][..|s| - 1 - |r|] == s[1..|s| - |r|];
    }
  }

  /** `DropTrailing` removes a suffix of trimmed characters and stops at the
      last character that is kept. */
  lemma {:induction false} DropTrailingSpec(s: string, ws: char -> bool)
    ensures var r := DropTrailing(s, ws);
      && |r| <= |s| && r == s[..|r|]
      && (r == [] || !ws(r[|r| - 1]))
      && AllSpace(s[|r|..], ws)
  {
    if |s| > 0 && ws(s[|s| - 1]) {
      DropTrailingSpec(s[..|s| - 1], ws);
      var r := DropTrailing(s[..|s| - 1], ws);
      assert s[..|s| - 1][|r|..] == s[|r|..|s| - 1];
      assert s[|r|..] == s[|r|..|s| - 1] + [s[|s| - 1]];
    }
  }

  /** Remove leading and trailing characters satisfying `ws`. */
  function TrimBy(s: string, ws: char -> bool): string {
    DropTrailing(DropLeading(s, ws), ws)
  }

  /** Where the trimmed text starts in `s`: the number of leading characters removed. */
  function TrimStart(s: string, ws: char -> bool): nat {
    DropLeadingSpec(s, ws);
    |s| - |DropLeading(s, ws)|
  }

  /** The trimmed text is the piece of the input after the removed leading
      characters; it neither starts nor ends with a trimmed character. */
  lemma {:induction false} TrimBySpec(s: string, ws: char -> bool)
    ensures var r := TrimBy(s, ws);
      var k := TrimStart(s, ws);
      && k + |r| <= |s| && r == s[k..k + |r|]
      && AllSpace(s[..k], ws)
      && (r == [] || (!ws(r[0]) && !ws(r[|r| - 1])))
  {
    var a := DropLeading(s, ws);
    DropLeadingSpec(s, ws);
    DropTrailingSpec(a, ws);
  }

  /** Trimming yields the empty string exactly when every character is trimmed. */
  lemma {:induction false} TrimByEmpty(s: string, ws: char -> bool)
    ensures TrimBy(s, ws) == [] <==> AllSpace(s, ws)
  {
    var a := DropLeading(s, ws);
    var r := TrimBy(s, ws);
    DropLeadingSpec(s, ws);
    DropTrailingSpec(a, ws);
    if r == [] {
      assert AllSpace(a[0..], ws);
      assert a == [];
      assert s[..|s| - |a|] == s;
    } else {
      assert r == a[..|r|];
      assert r[0] == s[|s| - |a|];
    }
  }

  /** JavaScript `s.trim()`. */
  function Trim(s: string): string {
    TrimBy(s, IsJsSpace)
  }

  /** Python `s.strip()`. */
  function Strip(s: string): string {
    TrimBy(s, IsPySpace)
  }

  /** A string that JavaScript's `trim` empties. */
  predicate IsBlank(s: string) {
    AllSpace(s, IsJsSpace)
  }

  lemma {:induction false} TrimBlank(s: string)
    ensures Trim(s) == "" <==> IsBlank(s)
  {
    TrimByEmpty(s, IsJsSpace);
  }

  lemma {:induction false} TrimByIdempotent(s: string, ws: char -> bool)
    ensures TrimBy(TrimBy(s, ws), ws) == TrimBy(s, ws)
  {
    var r := TrimBy(s, ws);
    TrimBySpec(s, ws);
    if r != [] {
      assert DropLeading(r, ws) == r;
      assert DropTrailing(r, ws) == r;
    }
  }

  // ---------------------------------------------------------------------
  // Searching and splitting
  // ---------------------------------------------------------------------

  /** `s.includes(sub)` / `sub in s`. */
  predicate Contains(s: string, sub: string)
    decreases |s|
  {
    |sub| <= |s| && (s[..|sub|] == sub || Contains(s[1..], sub))
  }

  lemma {:induction false} ContainsEmpty(s: string)
    ensures Contains(s, "")
  {
    assert s[..0] == "";
  }

  lemma {:induction false} ContainsSelf(s: string)
    ensures Contains(s, s)
  {
  }

  /** The text before the first occurrence of `sep` (all of `s` when absent):
      `s.split(sep)[0]` in both languages. */
  function BeforeFirst(s: string, sep: char): (r: string)
    ensures |r| <= |s| && r == s[..|r|]
    ensures sep !in r
    ensures |r| < |s| ==> s[|r|] == sep
    ensures sep !in s ==> r == s
  {
    if s == [] then []
    else if s[0] == sep then []
    else [s[0]] + BeforeFirst(s[1..], sep)
  }

  /** `s.split(sep)[0]` of a string whose first piece is `first`. */
  lemma {:induction false} BeforeFirstOfConcat(first: string, sep: char, rest: string)
    requires sep !in first
    ensures BeforeFirst(first + [sep] + rest, sep) == first
  {
    if first != [] {
      assert (first + [sep] + rest)[1..] == first[1..] + [sep] + rest;
      BeforeFirstOfConcat(first[1..], sep, rest);
    }
  }

  /** `parts.join(sep)`. */
  function Join(parts: seq<string>, sep: string): (r: string)
    ensures parts == [] ==> r == ""
    ensures |parts| == 1 ==> r == parts[0]
  {
    if parts == [] then ""
    else if |parts| == 1 then parts[0]
    else parts[0] + sep + Join(parts[1..], sep)
  }

  /** The first `n` elements, or all of them when there are fewer (`xs[:n]`, `xs.slice(0, n)`). */
  function Take<T>(xs: seq<T>, n: nat): (r: seq<T>)
    ensures |r| == if |xs| <= n then |xs| else n
    ensures r == xs[..|r|]
  {
    if |xs| <= n then xs else xs[..n]
  }

  // ---------------------------------------------------------------------
  // Decimal formatting and parsing
  // ---------------------------------------------------------------------

  function DigitChar(d: nat): (c: char)
    requires d < 10
    ensures IsDigit(c)
    ensures c as int - '0' as int == d
  {
    ('0' as int + d) as char
  }

  predicate AllDigits(s: string) {
    forall i :: 0 <= i < |s| ==> IsDigit(s[i])
  }

  /** Decimal notation of a natural number, without leading zeros. */
  function NatToString(n: nat): (r: string)
    ensures |r| >= 1 && AllDigits(r)
    ensures r[0] == '0' ==> n == 0
  {
    if n < 10 then [DigitChar(n)] else NatToString(n / 10) + [DigitChar(n % 10)]
  }

  /** Decimal notation of an integer as Python's `str` and JavaScript's template strings write it. */
  function IntToString(n: int): (r: string)
    ensures |r| >= 1
  {
    if n < 0 then "-" + NatToString(-n) else NatToString(n)
  }

  /** The value of a string of decimal digits. */
  function DigitsValue(s: string): nat
    requires AllDigits(s)
  {
    if s == [] then 0 else DigitsValue(s[..|s| - 1]) * 10 + (s[|s| - 1] as int - '0' as int)
  }

  lemma {:induction false} DigitsValueOfNatToString(n: nat)
    ensures DigitsValue(NatToString(n)) == n
  {
    if n >= 10 {
      var s := NatToString(n);
      assert s[..|s| - 1] == NatToString(n / 10);
      DigitsValueOfNatToString(n / 10);
    }
  }

  /** The number of leading decimal digits of `s`. */
  function LeadingDigits(s: string): (k: nat)
    ensures k <= |s| && AllDigits(s[..k])
    ensures k < |s| ==> !IsDigit(s[k])
  {
    if s != [] && IsDigit(s[0]) then
      var k := 1 + LeadingDigits(s[1..]);
      assert s[..k] == [s[0]] + s[1..][..k - 1];
      k
    else 0
  }

  lemma {:induction false} LeadingDigitsOfConcat(d: string, rest: string)
    requires AllDigits(d)
    requires rest == [] || !IsDigit(rest[0])
    ensures LeadingDigits(d + rest) == |d|
  {
    if d != [] {
      assert (d + rest)[1..] == d[1..] + rest;
      LeadingDigitsOfConcat(d[1..], rest);
    }
  }
}
