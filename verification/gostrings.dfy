/**
 * The parts of Go's `strings`, `strconv` and `unicode` packages that the query
 * pipeline relies on, stated as the contracts of the accepted inputs.
 * Strings are sequences of code points; a Go byte index is a sequence index here.
 */
module GoStrings {
  import opened Common

  /** unicode.IsDigit applied to one byte of a string: only the ASCII digits qualify. */
  predicate IsDigit(c: char) { '0' <= c <= '9' }

  /** unicode.IsSpace, used by strings.Fields and strings.TrimSpace. */
  predicate IsSpace(c: char) {
    || ('\t' <= c <= '\r')
    || c == ' '
    || c == '\U{85}'
    || c == '\U{A0}'
    || c == '\U{1680}'
    || ('\U{2000}' <= c <= '\U{200A}')
    || c == '\U{2028}'
    || c == '\U{2029}'
    || c == '\U{202F}'
    || c == '\U{205F}'
    || c == '\U{3000}'
  }

  /** The regular-expression class `\w` of Go's RE2 syntax: ASCII letters, digits and `_`. */
  predicate IsWordChar(c: char) {
    IsDigit(c) || ('a' <= c <= 'z') || ('A' <= c <= 'Z') || c == '_'
  }

  /** The regular-expression class `\s` of Go's RE2 syntax: tab, newline, form feed, carriage return, space. */
  predicate IsRegexSpace(c: char) {
    c == '\t' || c == '\n' || c == '\U{0C}' || c == '\r' || c == ' '
  }

  predicate AllDigits(s: string) {
    forall i :: 0 <= i < |s| ==> IsDigit(s[i])
  }

  predicate HasPrefix(s: string, p: string) {
    |p| <= |s| && s[..|p|] == p
  }

  predicate HasSuffix(s: string, p: string) {
    |p| <= |s| && s[|s| - |p|..] == p
  }

  /** `sub` occurs in `s` at position `k`. */
  predicate OccursAt(s: string, sub: string, k: int) {
    0 <= k && k + |sub| <= |s| && s[k..k + |sub|] == sub
  }

  /** strings.Index: the first position of `sub` in `s`, or -1. */
  function Index(s: string, sub: string): (r: int)
    ensures -1 <= r && (r >= 0 ==> OccursAt(s, sub, r))
    ensures r >= 0 ==> forall k :: 0 <= k < r ==> !OccursAt(s, sub, k)
    ensures r < 0 ==> forall k :: !OccursAt(s, sub, k)
    decreases |s|
  {
    if HasPrefix(s, sub) then 0
    else if |s| == 0 then -1
    else
      var t := Index(s[1..], sub);
      assert forall k :: 1 <= k ==> OccursAt(s, sub, k) == OccursAt(s[1..], sub, k - 1);
      if t < 0 then -1 else t + 1
  }

  /** strings.Contains. */
  predicate Contains(s: string, sub: string) {
    Index(s, sub) >= 0
  }

  function LowerChar(c: char): char {
    if 'A' <= c <= 'Z' then (c as int + 32) as char else c
  }

  function UpperChar(c: char): char {
    if 'a' <= c <= 'z' then (c as int - 32) as char else c
  }

  /** strings.ToLower, on ASCII letters. */
  function ToLower(s: string): (r: string)
    ensures |r| == |s|
  {
    seq(|s|, i requires 0 <= i < |s| => LowerChar(s[i]))
  }

  /** strings.ToUpper, on ASCII letters. */
  function ToUpper(s: string): (r: string)
    ensures |r| == |s|
  {
    seq(|s|, i requires 0 <= i < |s| => UpperChar(s[i]))
  }

  /** strings.TrimLeft(s, cutset): drops every leading character in `cut`. */
  function TrimLeftSet(s: string, cut: set<char>): (r: string)
    ensures |r| <= |s| && r == s[|s| - |r|..]
    ensures r == [] || r[0] !in cut
    ensures forall k :: 0 <= k < |s| - |r| ==> s[k] in cut
    decreases |s|
  {
    if |s| > 0 && s[0] in cut then TrimLeftSet(s[1..], cut) else s
  }

  /** strings.TrimRight(s, cutset). */
  function TrimRightSet(s: string, cut: set<char>): (r: string)
    ensures |r| <= |s| && r == s[..|r|]
    ensures r == [] || r[|r| - 1] !in cut
    decreases |s|
  {
    if |s| > 0 && s[|s| - 1] in cut then TrimRightSet(s[..|s| - 1], cut) else s
  }

  lemma {:induction false} TrimLeftOne(c: char, t: string, cut: set<char>)
    requires c in cut
    ensures TrimLeftSet([c] + t, cut) == TrimLeftSet(t, cut)
  {
    assert ([c] + t)[1..] == t;
  }

  lemma {:induction false} TrimRightOne(t: string, c: char, cut: set<char>)
    requires c in cut
    ensures TrimRightSet(t + [c], cut) == TrimRightSet(t, cut)
  {
    assert (t + [c])[..|t|] == t;
  }

  /** strings.Trim(s, cutset). */
  function TrimSet(s: string, cut: set<char>): string {
    TrimRightSet(TrimLeftSet(s, cut), cut)
  }

  function TrimLeftSpace(s: string): (r: string)
    ensures |r| <= |s| && r == s[|s| - |r|..]
    ensures r == [] || !IsSpace(r[0])
    ensures forall k :: 0 <= k < |s| - |r| ==> IsSpace(s[k])
    decreases |s|
  {
    if |s| > 0 && IsSpace(s[0]) then TrimLeftSpace(s[1..]) else s
  }

  function TrimRightSpace(s: string): (r: string)
    ensures |r| <= |s| && r == s[..|r|]
    ensures r == [] || !IsSpace(r[|r| - 1])
    decreases |s|
  {
    if |s| > 0 && IsSpace(s[|s| - 1]) then TrimRightSpace(s[..|s| - 1]) else s
  }

  /** strings.TrimSpace. */
  function TrimSpace(s: string): (r: string)
    ensures |r| <= |s|
  {
    TrimRightSpace(TrimLeftSpace(s))
  }

  /** `len(line) - len(strings.TrimLeft(line, " "))`: the number of leading blanks. */
  function LeadingBlanks(s: string): nat {
    |s| - |TrimLeftSet(s, {' '})|
  }

  /** strings.TrimSuffix. */
  function TrimSuffix(s: string, suffix: string): (r: string) {
    if HasSuffix(s, suffix) then s[..|s| - |suffix|] else s
  }

  /** strings.Repeat of a one-character string. */
  function Repeat(c: char, n: nat): (r: string)
    ensures |r| == n
  {
    seq(n, _ => c)
  }

  /** strings.Join. */
  function Join(parts: seq<string>, sep: string): string
    decreases |parts|
  {
    if |parts| == 0 then ""
    else if |parts| == 1 then parts[0]
    else Join(parts[..|parts| - 1], sep) + sep + parts[|parts| - 1]
  }

  /** strings.SplitN(s, sep, 2) when `sep` occurs: the text before and after its first occurrence. */
  function Cut(s: string, sep: string): Option<(string, string)> {
    var k := Index(s, sep);
    if k < 0 then None else Some((s[..k], s[k + |sep|..]))
  }

  /** strings.Split with a non-empty separator. */
  function Split(s: string, sep: string): (r: seq<string>)
    requires |sep| > 0
    ensures |r| >= 1
    decreases |s|
  {
    var k := Index(s, sep);
    if k < 0 then [s] else [s[..k]] + Split(s[k + |sep|..], sep)
  }

  /** The number of leading non-space characters. */
  function WordLength(s: string): (n: nat)
    ensures n <= |s|
    ensures forall k :: 0 <= k < n ==> !IsSpace(s[k])
    ensures n == |s| || IsSpace(s[n])
  {
    if |s| == 0 || IsSpace(s[0]) then 0 else 1 + WordLength(s[1..])
  }

  /** strings.Fields: the maximal runs of non-space characters, in order. */
  function Fields(s: string): (words: seq<string>)
    ensures forall w :: w in words ==> |w| > 0
    decreases |s|
  {
    var t := TrimLeftSpace(s);
    if t == [] then []
    else
      var n := WordLength(t);
      [t[..n]] + Fields(t[n..])
  }

  function DigitValue(c: char): nat {
    if IsDigit(c) then c as int - '0' as int else 0
  }

  /** The value of a run of decimal digits, most significant first. */
  function DecimalValue(s: string): nat
    decreases |s|
  {
    if |s| == 0 then 0 else 10 * DecimalValue(s[..|s| - 1]) + DigitValue(s[|s| - 1])
  }

  /**
   * strconv.Atoi: an optional sign followed by one or more ASCII digits.
   * The clamp to the 64-bit range on overflow is not modelled.
   */
  function Atoi(s: string): Option<int> {
    if |s| > 0 && (s[0] == '+' || s[0] == '-') then
      var d := s[1..];
      if |d| > 0 && AllDigits(d) then
        Some(if s[0] == '-' then -(DecimalValue(d) as int) else DecimalValue(d))
      else None
    else if |s| > 0 && AllDigits(s) then Some(DecimalValue(s))
    else None
  }

  /** strconv.ParseBool: exactly twelve accepted spellings. */
  function ParseBool(s: string): Option<bool> {
    if s == "1" || s == "t" || s == "T" || s == "TRUE" || s == "true" || s == "True" then Some(true)
    else if s == "0" || s == "f" || s == "F" || s == "FALSE" || s == "false" || s == "False" then Some(false)
    else None
  }

  function DigitChar(d: nat): char
    requires d < 10
  {
    ('0' as int + d) as char
  }

  /** The decimal spelling of a natural number, without leading zeros. */
  function NatToString(n: nat): (r: string)
    ensures |r| >= 1 && AllDigits(r)
    ensures DecimalValue(r) == n
    ensures |r| > 1 ==> r[0] != '0'
    decreases n
  {
    if n < 10 then [DigitChar(n)]
    else
      var r := NatToString(n / 10) + [DigitChar(n % 10)];
      assert r[..|r| - 1] == NatToString(n / 10);
      r
  }

  /** `fmt.Sprintf("%v", i)` for an integer. */
  function Itoa(i: int): string {
    if i < 0 then "-" + NatToString(-i) else NatToString(i)
  }

  /** Decimal formatting and strconv.Atoi are inverse: every integer survives printing and parsing. */
  lemma AtoiItoa(i: int)
    ensures Atoi(Itoa(i)) == Some(i)
  {
    if i < 0 {
      assert Itoa(i)[1..] == NatToString(-i);
    }
  }
}
