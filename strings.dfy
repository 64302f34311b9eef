/**
 * The JavaScript string operations the application relies on: truthiness and `||`
 * defaults, `trim`, relational comparison of strings, `substring`/`slice` prefixes,
 * decimal rendering of numbers and `padStart`.
 */
module Strings {
  import opened Wrappers

  // ---------------------------------------------------------------------------
  // Truthiness

  /** A request field is truthy when it is present and not the empty string. */
  predicate Truthy(o: Option<string>) {
    o.Some? && o.value != ""
  }

  /** `field || fallback` for an optional string field. */
  function OrElse(o: Option<string>, fallback: string): string {
    if Truthy(o) then o.value else fallback
  }

  /** `s || fallback` for a string that is always present. */
  function Or(s: string, fallback: string): string {
    if s != "" then s else fallback
  }

  /** `a || b` where both operands are optional strings. */
  function OrOption(a: Option<string>, b: Option<string>): Option<string> {
    if Truthy(a) then a else b
  }

  // ---------------------------------------------------------------------------
  // String.prototype.trim

  /** The characters `trim` removes: WhiteSpace and LineTerminator of ECMAScript. */
  predicate IsJsWhitespace(c: char) {
    c == '\t' || c == '\n' || c == '\U{B}' || c == '\U{C}' || c == '\r' || c == ' '
    || c == '\U{A0}' || c == '\U{1680}' || ('\U{2000}' <= c <= '\U{200A}')
    || c == '\U{2028}' || c == '\U{2029}' || c == '\U{202F}' || c == '\U{205F}'
    || c == '\U{3000}' || c == '\U{FEFF}'
  }

  predicate AllWhitespace(s: string) {
    forall i :: 0 <= i < |s| ==> IsJsWhitespace(s[i])
  }

  /** Leading whitespace removed: the longest suffix that does not start with whitespace. */
  function TrimStart(s: string): (r: string)
    ensures |r| <= |s| && r == s[|s| - |r|..]
    ensures r == [] || !IsJsWhitespace(r[0])
    ensures forall i :: 0 <= i < |s| - |r| ==> IsJsWhitespace(s[i])
  {
    if s != [] && IsJsWhitespace(s[0]) then
      var r := TrimStart(s[1..]);
      assert s[1..][|s| - 1 - |r|..] == s[|s| - |r|..];
      assert forall i :: 1 <= i < |s| ==> s[i] == s[1..][i - 1];
      r
    else
      s
  }

  /** Trailing whitespace removed: the longest prefix that does not end with whitespace. */
  function TrimEnd(s: string): (r: string)
    ensures |r| <= |s| && r == s[..|r|]
    ensures r == [] || !IsJsWhitespace(r[|r| - 1])
    ensures forall i :: |r| <= i < |s| ==> IsJsWhitespace(s[i])
  {
    if s != [] && IsJsWhitespace(s[|s| - 1]) then
      var r := TrimEnd(s[..|s| - 1]);
      assert s[..|s| - 1][..|r|] == s[..|r|];
      assert forall i :: 0 <= i < |s| - 1 ==> s[i] == s[..|s| - 1][i];
      r
    else
      s
  }

  /** `s.trim()`: whitespace removed at both ends. */
  function Trim(s: string): (r: string)
    ensures |r| <= |s|
    ensures r == [] || (!IsJsWhitespace(r[0]) && !IsJsWhitespace(r[|r| - 1]))
    ensures r == [] <==> AllWhitespace(s)
  {
    var t := TrimStart(s);
    var r := TrimEnd(t);
    var n := |s| - |t|;
    if r == [] then
      assert t == [];
      r
    else
      assert s[n] == t[0] == r[0];
      r
  }

  /** Trimming a trimmed string changes nothing. */
  lemma TrimIdempotent(s: string)
    ensures Trim(Trim(s)) == Trim(s)
  {
    var r := Trim(s);
    assert TrimStart(r) == r;
    assert TrimEnd(r) == r;
  }

  // ---------------------------------------------------------------------------
  // Relational comparison of strings (`a <= b`): lexicographic by character

  predicate LexLe(a: string, b: string) {
    a == [] || (b != [] && (a[0] < b[0] || (a[0] == b[0] && LexLe(a[1..], b[1..]))))
  }

  lemma {:induction false} LexLeReflexive(a: string)
    ensures LexLe(a, a)
  {
    if a != [] {
      LexLeReflexive(a[1..]);
    }
  }

  lemma {:induction false} LexLeTotal(a: string, b: string)
    ensures LexLe(a, b) || LexLe(b, a)
  {
    if a != [] && b != [] && a[0] == b[0] {
      LexLeTotal(a[1..], b[1..]);
    }
  }

  lemma {:induction false} LexLeTransitive(a: string, b: string, c: string)
    requires LexLe(a, b) && LexLe(b, c)
    ensures LexLe(a, c)
  {
    if a != [] && a[0] == b[0] && b[0] == c[0] {
      LexLeTransitive(a[1..], b[1..], c[1..]);
    }
  }

  lemma {:induction false} LexLeAntisymmetric(a: string, b: string)
    requires LexLe(a, b) && LexLe(b, a)
    ensures a == b
  {
    if a != [] && b != [] {
      LexLeAntisymmetric(a[1..], b[1..]);
      assert a == [a[0]] + a[1..];
      assert b == [b[0]] + b[1..];
    }
  }

  /** No non-empty string compares at or below the empty string. */
  lemma EmptyNotAboveNonEmpty(s: string)
    requires s != []
    ensures !LexLe(s, "")
  {
  }

  // ---------------------------------------------------------------------------
  // Prefixes: `substring(0, n)` on strings and `slice(0, n)` on arrays

  function Prefix<T>(s: seq<T>, n: nat): (r: seq<T>)
    ensures |r| == if |s| <= n then |s| else n
    ensures r == s[..|r|]
  {
    if |s| <= n then s else s[..n]
  }

  // ---------------------------------------------------------------------------
  // Decimal rendering: `String(n)` and `padStart`

  /** The decimal digit for `d`, which reads back as `d`. */
  function DigitChar(d: nat): (c: char)
    requires d < 10
    ensures IsDigit(c) && DigitValue(c) == d
  {
    ('0' as int + d) as char
  }

  predicate IsDigit(c: char) {
    '0' <= c <= '9'
  }

  function DigitValue(c: char): nat
    requires IsDigit(c)
  {
    (c - '0') as nat
  }

  /** The number a string of decimal digits denotes (`parseInt` of it). */
  function DigitsValue(s: string): nat
    requires forall i :: 0 <= i < |s| ==> IsDigit(s[i])
  {
    if s == [] then 0 else DigitsValue(s[..|s| - 1]) * 10 + DigitValue(s[|s| - 1])
  }

  /** `String(n)` for a non-negative integer. */
  function NatToString(n: nat): (r: string)
    ensures |r| >= 1
    ensures forall i :: 0 <= i < |r| ==> IsDigit(r[i])
    ensures n < 10 <==> |r| == 1
  {
    if n < 10 then [DigitChar(n)] else NatToString(n / 10) + [DigitChar(n % 10)]
  }

  /** `String(n)` reads back as `n`. */
  lemma {:induction false} NatToStringRoundTrip(n: nat)
    ensures DigitsValue(NatToString(n)) == n
  {
    var r := NatToString(n);
    if n >= 10 {
      NatToStringRoundTrip(n / 10);
      assert r[..|r| - 1] == NatToString(n / 10);
    }
  }

  /** `String(n)` for any integer. */
  function IntToString(n: int): string {
    if n < 0 then "-" + NatToString(-n) else NatToString(n)
  }

  /** `n` copies of `c`. */
  function Repeat(c: char, n: nat): (r: string)
    ensures |r| == n
    ensures forall i :: 0 <= i < n ==> r[i] == c
  {
    if n == 0 then [] else [c] + Repeat(c, n - 1)
  }

  /** `s.padStart(width, c)` with a one-character pad. */
  function PadStart(s: string, width: nat, c: char): (r: string)
    ensures |r| == if |s| >= width then |s| else width
    ensures r[|r| - |s|..] == s
    ensures forall i :: 0 <= i < |r| - |s| ==> r[i] == c
  {
    var fill := Repeat(c, if |s| >= width then 0 else width - |s|);
    assert (fill + s)[|fill|..] == s;
    fill + s
  }

  /** `String(n).padStart(2, '0')`. */
  function Pad2(n: nat): string {
    PadStart(NatToString(n), 2, '0')
  }

  /** The characters of the two-digit form of 0..99: a leading zero below ten. */
  lemma Pad2Chars(n: nat)
    requires n < 100
    ensures Pad2(n) == if n < 10 then ['0', DigitChar(n)] else [DigitChar(n / 10), DigitChar(n % 10)]
  {
    if n < 10 {
      var d := [DigitChar(n)];
      assert NatToString(n) == d;
      assert ['0'] + d == ['0', DigitChar(n)];
      assert PadStart(d, 2, '0') == PadStart(['0', DigitChar(n)], 2, '0');
    } else {
      var hi := NatToString(n / 10);
      assert hi == [DigitChar(n / 10)];
      assert NatToString(n) == hi + [DigitChar(n % 10)];
      assert hi + [DigitChar(n % 10)] == [DigitChar(n / 10), DigitChar(n % 10)];
    }
  }

  /** For 0..99 the two-digit form has exactly two digits and reads back as `n`. */
  lemma Pad2RoundTrip(n: nat)
    requires n < 100
    ensures |Pad2(n)| == 2 && IsDigit(Pad2(n)[0]) && IsDigit(Pad2(n)[1])
    ensures DigitValue(Pad2(n)[0]) * 10 + DigitValue(Pad2(n)[1]) == n
  {
    Pad2Chars(n);
    if n >= 10 {
      assert n == n / 10 * 10 + n % 10;
    }
  }
}
