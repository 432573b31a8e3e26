/** String helpers shared by the frontend and backend models. Strings are
    sequences of Unicode scalar values, not UTF-16 code units, so lengths and
    indexes agree with the program's only inside the Basic Multilingual
    Plane; case mapping is ASCII only. */
module Text {

  predicate StartsWith(s: string, prefix: string) {
    |prefix| <= |s| && s[..|prefix|] == prefix
  }

  predicate EndsWith(s: string, suffix: string) {
    |suffix| <= |s| && s[|s| - |suffix|..] == suffix
  }

  /** `s.startsWith('http://') || s.startsWith('https://')` */
  predicate IsHttpUrl(s: string) {
    StartsWith(s, "http://") || StartsWith(s, "https://")
  }

  /** The characters JavaScript's `String.prototype.trim` removes:
      the WhiteSpace and LineTerminator productions of ECMAScript. */
  predicate IsJsSpace(c: char) {
    c == ' ' || c == '\t' || c == '\n' || c == '\r' || c == '\U{000B}' || c == '\U{000C}'
    || c == '\U{00A0}' || c == '\U{1680}' || ('\U{2000}' <= c <= '\U{200A}')
    || c == '\U{2028}' || c == '\U{2029}' || c == '\U{202F}' || c == '\U{205F}'
    || c == '\U{3000}' || c == '\U{FEFF}'
  }

  /** `s.trim() === ''` in JavaScript. */
  predicate IsJsBlank(s: string) {
    forall i :: 0 <= i < |s| ==> IsJsSpace(s[i])
  }

  /** `s.trim().isEmpty()` in Java, whose `trim` drops every char up to U+0020. */
  predicate IsJavaBlank(s: string) {
    forall i :: 0 <= i < |s| ==> s[i] <= ' '
  }

  function LowerChar(c: char): char {
    if 'A' <= c <= 'Z' then (c as int + 32) as char else c
  }

  function UpperChar(c: char): char {
    if 'a' <= c <= 'z' then (c as int - 32) as char else c
  }

  function Lower(s: string): (r: string)
    ensures |r| == |s|
    ensures forall i :: 0 <= i < |s| ==> r[i] == LowerChar(s[i])
  {
    seq(|s|, i requires 0 <= i < |s| => LowerChar(s[i]))
  }

  function Upper(s: string): (r: string)
    ensures |r| == |s|
    ensures forall i :: 0 <= i < |s| ==> r[i] == UpperChar(s[i])
  {
    seq(|s|, i requires 0 <= i < |s| => UpperChar(s[i]))
  }

  /** `s.contains(sub)` / `s.includes(sub)`. */
  predicate Contains(s: string, sub: string) {
    exists i :: 0 <= i <= |s| - |sub| && OccursAt(s, sub, i)
  }

  predicate OccursAt(s: string, sub: string, i: int) {
    0 <= i <= |s| - |sub| && s[i..i + |sub|] == sub
  }

  /** `s.lastIndexOf(c)`: the last position holding `c`, or -1. */
  function LastIndexOf(s: string, c: char): (k: int)
    ensures -1 <= k < |s|
    ensures k >= 0 ==> s[k] == c && forall j :: k < j < |s| ==> s[j] != c
    ensures k == -1 ==> forall j :: 0 <= j < |s| ==> s[j] != c
  {
    if |s| == 0 then -1
    else if s[|s| - 1] == c then |s| - 1
    else LastIndexOf(s[..|s| - 1], c)
  }

  /** `s.indexOf(c)`: the first position holding `c`, or -1. */
  function IndexOf(s: string, c: char): (k: int)
    ensures -1 <= k < |s|
    ensures k >= 0 ==> s[k] == c && forall j :: 0 <= j < k ==> s[j] != c
    ensures k == -1 ==> forall j :: 0 <= j < |s| ==> s[j] != c
  {
    if |s| == 0 then -1
    else if s[0] == c then 0
    else var k := IndexOf(s[1..], c); if k == -1 then -1 else k + 1
  }

  /** Replaces every occurrence of `from` by `to` (`String.replace(char, char)`). */
  function ReplaceChar(s: string, from: char, to: char): (r: string)
    ensures |r| == |s|
    ensures forall i :: 0 <= i < |s| ==> r[i] == (if s[i] == from then to else s[i])
  {
    if |s| == 0 then [] else [if s[0] == from then to else s[0]] + ReplaceChar(s[1..], from, to)
  }

  /** Drops every character in `drop` (`s.replace(/['"]/g, '')` and the like). */
  function RemoveChars(s: string, drop: set<char>): (r: string)
    ensures forall i :: 0 <= i < |r| ==> r[i] !in drop
    ensures (forall i :: 0 <= i < |s| ==> s[i] !in drop) ==> r == s
  {
    if |s| == 0 then []
    else if s[0] in drop then RemoveChars(s[1..], drop)
    else [s[0]] + RemoveChars(s[1..], drop)
  }

  predicate IsDigit(c: char) {
    '0' <= c <= '9'
  }

  predicate AllDigits(s: string) {
    forall i :: 0 <= i < |s| ==> IsDigit(s[i])
  }

  function DigitChar(d: nat): (c: char)
    requires d < 10
    ensures IsDigit(c)
  {
    ('0' as int + d) as char
  }

  /** Decimal rendering of a natural number (`String(n)` / `n.toString()`). */
  function NatToString(n: nat): (r: string)
    ensures |r| > 0 && AllDigits(r)
  {
    if n < 10 then [DigitChar(n)] else NatToString(n / 10) + [DigitChar(n % 10)]
  }

  /** Decimal rendering of an integer, with a leading minus sign when negative. */
  function IntToString(i: int): string {
    if i < 0 then "-" + NatToString(-i) else NatToString(i)
  }

  /** The value of a string of decimal digits. */
  function DigitsValue(s: string): nat
    requires AllDigits(s)
  {
    if |s| == 0 then 0 else DigitsValue(s[..|s| - 1]) * 10 + (s[|s| - 1] as int - '0' as int)
  }

  lemma {:induction false} DigitsValueOfNatToString(n: nat)
    ensures DigitsValue(NatToString(n)) == n
  {
    var r := NatToString(n);
    if n >= 10 {
      DigitsValueOfNatToString(n / 10);
      assert r[..|r| - 1] == NatToString(n / 10);
    }
  }

  /** Indexing into a concatenation. */
  lemma ConcatAt(r: string, x: string, k: int)
    ensures 0 <= k < |r| ==> (r + x)[k] == r[k]
    ensures |r| <= k < |r| + |x| ==> (r + x)[k] == x[k - |r|]
  {
  }

  /** A rendering is never empty and starts with '-' exactly when negative. */
  lemma IntToStringHead(i: int)
    ensures |IntToString(i)| > 0 && (IntToString(i)[0] == '-' <==> i < 0)
  {
    if i >= 0 {
      assert IsDigit(NatToString(i)[0]);
    }
  }

  /** A rendered number followed by text that does not start with a digit
      reads back: the number and the rest are both determined. */
  lemma NatToStringPrefixUnique(m: nat, n: nat, x: string, y: string)
    requires |x| > 0 ==> !IsDigit(x[0])
    requires |y| > 0 ==> !IsDigit(y[0])
    requires NatToString(m) + x == NatToString(n) + y
    ensures m == n && x == y
  {
    var r, s := NatToString(m), NatToString(n);
    if |r| < |s| {
      ConcatAt(r, x, |r|);
      ConcatAt(s, y, |r|);
      assert false;
    } else if |s| < |r| {
      ConcatAt(r, x, |s|);
      ConcatAt(s, y, |s|);
      assert false;
    } else {
      assert r == (r + x)[..|r|] && s == (s + y)[..|s|];
      assert x == (r + x)[|r|..] && y == (s + y)[|s|..];
      DigitsValueOfNatToString(m);
      DigitsValueOfNatToString(n);
    }
  }

  /** The same for a signed rendering: the minus sign decides the sign. */
  lemma IntToStringPrefixUnique(a: int, b: int, x: string, y: string)
    requires |x| > 0 ==> !IsDigit(x[0])
    requires |y| > 0 ==> !IsDigit(y[0])
    requires IntToString(a) + x == IntToString(b) + y
    ensures a == b && x == y
  {
    IntToStringHead(a);
    IntToStringHead(b);
    ConcatAt(IntToString(a), x, 0);
    ConcatAt(IntToString(b), y, 0);
    if a < 0 && b < 0 {
      var u, v := NatToString(-a) + x, NatToString(-b) + y;
      assert IntToString(a) + x == "-" + u && IntToString(b) + y == "-" + v;
      assert u == ("-" + u)[1..] && v == ("-" + v)[1..];
      NatToStringPrefixUnique(-a, -b, x, y);
    } else if a >= 0 && b >= 0 {
      NatToStringPrefixUnique(a, b, x, y);
    }
  }

  /** `s.padStart(2, '0')`. */
  function PadStart2(s: string): (r: string)
    ensures |r| == if |s| >= 2 then |s| else 2
  {
    if |s| >= 2 then s else if |s| == 1 then "0" + s else "00"
  }
}
