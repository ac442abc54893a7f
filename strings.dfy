/** Python string primitives the core relies on, restricted to ASCII:
    `str.isalnum`, the regex class `\w`, `str.isspace`, `str.lower`,
    `str.strip`, `str.join`, a character filter, `str(int)` and the code-point order that
    `sorted` uses on strings. */
module Strings {

  /** `c.isalnum()` on ASCII: a letter or a decimal digit. */
  predicate IsAlnum(c: char) {
    ('a' <= c <= 'z') || ('A' <= c <= 'Z') || ('0' <= c <= '9')
  }

  /** The regex class `\w` on ASCII: `[A-Za-z0-9_]`. */
  predicate IsWordChar(c: char) {
    IsAlnum(c) || c == '_'
  }

  /** `c.isspace()` on ASCII: space, tab, line feed, vertical tab, form feed,
      carriage return and the four separators 0x1C-0x1F. */
  predicate IsSpace(c: char) {
    c == ' ' || ('\t' <= c <= '\r') || ('\U{1C}' <= c <= '\U{1F}')
  }

  predicate IsUpper(c: char) { 'A' <= c <= 'Z' }

  predicate IsLowerLetter(c: char) { 'a' <= c <= 'z' }

  /** `c.lower()` on ASCII. */
  function LowerChar(c: char): char {
    if IsUpper(c) then (c as int + 32) as char else c
  }

  /** `s.lower()` on ASCII. */
  function Lower(s: string): string {
    seq(|s|, i requires 0 <= i < |s| => LowerChar(s[i]))
  }

  /** Every character of `s` is white space (so `not s.strip()` holds). */
  predicate IsBlank(s: string) {
    forall i :: 0 <= i < |s| ==> IsSpace(s[i])
  }

  /** The characters of `s` that satisfy `keep`, in order. */
  function Filter(s: string, keep: char -> bool): (r: string)
    ensures |r| <= |s|
  {
    if s == [] then [] else (if keep(s[0]) then [s[0]] else []) + Filter(s[1..], keep)
  }

  lemma {:induction false} FilterConcat(a: string, b: string, keep: char -> bool)
    ensures Filter(a + b, keep) == Filter(a, keep) + Filter(b, keep)
  {
    if a == [] {
      assert a + b == b;
    } else {
      var h := if keep(a[0]) then [a[0]] else [];
      assert (a + b)[0] == a[0];
      assert (a + b)[1..] == a[1..] + b;
      assert Filter(a + b, keep) == h + Filter(a[1..] + b, keep);
      assert Filter(a, keep) == h + Filter(a[1..], keep);
      FilterConcat(a[1..], b, keep);
    }
  }

  lemma {:induction false} FilterAll(s: string, keep: char -> bool)
    requires forall i :: 0 <= i < |s| ==> keep(s[i])
    ensures Filter(s, keep) == s
  {
    if s != [] {
      FilterAll(s[1..], keep);
    }
  }

  lemma {:induction false} FilterNone(s: string, keep: char -> bool)
    requires forall i :: 0 <= i < |s| ==> !keep(s[i])
    ensures Filter(s, keep) == []
  {
    if s != [] {
      FilterNone(s[1..], keep);
    }
  }

  /** Number of leading white-space characters of `s`. */
  function StripStart(s: string): (k: nat)
    ensures k <= |s|
    ensures forall i :: 0 <= i < k ==> IsSpace(s[i])
    ensures k == |s| || !IsSpace(s[k])
  {
    if s != [] && IsSpace(s[0]) then 1 + StripStart(s[1..]) else 0
  }

  /** End of `s` once trailing white space is dropped, never below `lo`. */
  function StripEnd(s: string, lo: nat): (k: nat)
    requires lo <= |s|
    ensures lo <= k <= |s|
    ensures forall i :: k <= i < |s| ==> IsSpace(s[i])
    ensures k == lo || !IsSpace(s[k - 1])
    decreases |s|
  {
    if |s| > lo && IsSpace(s[|s| - 1]) then StripEnd(s[..|s| - 1], lo) else |s|
  }

  /** `s.strip()`: `s` without its leading and trailing white space. */
  function Strip(s: string): string {
    var i := StripStart(s);
    s[i..StripEnd(s, i)]
  }

  /** `s.strip()` is the slice of `s` between its outer white space, it
      neither starts nor ends with white space, and it is empty exactly when
      `s` is all white space. */
  lemma StripSpec(s: string)
    ensures StripStart(s) <= StripEnd(s, StripStart(s)) <= |s|
    ensures Strip(s) == s[StripStart(s)..StripEnd(s, StripStart(s))]
    ensures Strip(s) != [] ==> !IsSpace(Strip(s)[0]) && !IsSpace(Strip(s)[|Strip(s)| - 1])
    ensures Strip(s) == [] <==> IsBlank(s)
  {
    var i := StripStart(s);
    var j := StripEnd(s, i);
    if Strip(s) == [] {
      assert i == j;
      assert i == |s|;
    } else {
      assert s[i] == Strip(s)[0];
    }
  }

  /** `a <= b` in the code-point order Python uses to compare strings. */
  predicate StrLe(a: string, b: string) {
    a == [] || (b != [] && (a[0] < b[0] || (a[0] == b[0] && StrLe(a[1..], b[1..]))))
  }

  lemma {:induction false} StrLeTotal(a: string, b: string)
    ensures StrLe(a, b) || StrLe(b, a)
  {
    if a != [] && b != [] && a[0] == b[0] {
      StrLeTotal(a[1..], b[1..]);
    }
  }

  lemma {:induction false} StrLeTransitive(a: string, b: string, c: string)
    requires StrLe(a, b) && StrLe(b, c)
    ensures StrLe(a, c)
  {
    if a != [] && a[0] == b[0] && b[0] == c[0] {
      StrLeTransitive(a[1..], b[1..], c[1..]);
    }
  }

  lemma {:induction false} StrLeAntisymmetric(a: string, b: string)
    requires StrLe(a, b) && StrLe(b, a)
    ensures a == b
  {
    if a != [] {
      StrLeAntisymmetric(a[1..], b[1..]);
    }
  }

  function DigitChar(d: nat): char
    requires d < 10
  {
    "0123456789"[d]
  }

  /** `str(n)` for a natural number: its decimal digits. */
  function NatToString(n: nat): (r: string)
    ensures |r| >= 1
    ensures forall i :: 0 <= i < |r| ==> '0' <= r[i] <= '9'
  {
    if n < 10 then [DigitChar(n)] else NatToString(n / 10) + [DigitChar(n % 10)]
  }

  /** `str(n)` for an integer. */
  function IntToString(n: int): string {
    if n < 0 then "-" + NatToString(-n) else NatToString(n)
  }

  /** `sep.join(parts)`. */
  function Join(parts: seq<string>, sep: string): string {
    if |parts| == 0 then ""
    else if |parts| == 1 then parts[0]
    else parts[0] + sep + Join(parts[1..], sep)
  }
}
