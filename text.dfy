/**
 * String helpers used by the normalisers, the classifier, the label managers
 * and the airport search.  Strings are `seq<char>`; case mapping covers ASCII
 * letters only.
 */
module Text {

  /**
   * `.whitespaces` is the Unicode space separators (category Zs) plus tab;
   * the model keeps the two ASCII ones, space and horizontal tab.
   */
  predicate IsBlank(c: char) { c == ' ' || c == '\t' }

  function DropLeading(s: string): (r: string)
    ensures |r| <= |s| && r == s[|s| - |r|..]
    ensures r == [] || !IsBlank(r[0])
    ensures forall i :: 0 <= i < |s| - |r| ==> IsBlank(s[i])
  {
    if s != [] && IsBlank(s[0]) then DropLeading(s[1..]) else s
  }

  function DropTrailing(s: string): (r: string)
    ensures |r| <= |s| && r == s[..|r|]
    ensures r == [] || !IsBlank(r[|r| - 1])
    ensures forall i :: |r| <= i < |s| ==> IsBlank(s[i])
  {
    if s != [] && IsBlank(s[|s| - 1]) then DropTrailing(s[..|s| - 1]) else s
  }

  /** `trimmingCharacters(in: .whitespaces)`. */
  function Trim(s: string): (r: string)
    ensures exists i, j :: 0 <= i <= j <= |s| && r == s[i..j] && TrimmedAt(s, i, j)
    ensures r == [] || (!IsBlank(r[0]) && !IsBlank(r[|r| - 1]))
    ensures r == [] <==> forall k :: 0 <= k < |s| ==> IsBlank(s[k])
  {
    var d := DropLeading(s);
    var t := DropTrailing(d);
    TrimSlice(s, d, t);
    t
  }

  /** Dropping leading then trailing blanks leaves the slice between the blanks. */
  lemma TrimSlice(s: string, d: string, t: string)
    requires |d| <= |s| && d == s[|s| - |d|..] && (forall k :: 0 <= k < |s| - |d| ==> IsBlank(s[k]))
    requires |t| <= |d| && t == d[..|t|] && (forall k :: |t| <= k < |d| ==> IsBlank(d[k]))
    ensures t == s[|s| - |d|..|s| - |d| + |t|]
    ensures TrimmedAt(s, |s| - |d|, |s| - |d| + |t|)
  {
    var i, j := |s| - |d|, |s| - |d| + |t|;
    forall k | 0 <= k < |t| ensures t[k] == s[i + k] {
      assert t[k] == d[k];
    }
    forall k | j <= k < |s| ensures IsBlank(s[k]) {
      assert s[k] == d[k - i];
    }
  }

  /** Everything of `s` before `i` and from `j` on is blank. */
  predicate TrimmedAt(s: string, i: nat, j: nat)
    requires i <= j <= |s|
  {
    (forall k :: 0 <= k < i ==> IsBlank(s[k])) && (forall k :: j <= k < |s| ==> IsBlank(s[k]))
  }

  predicate HasPrefix(s: string, p: string) { |p| <= |s| && s[..|p|] == p }

  /** Strings that differ in their first character are not prefixes of each other. */
  lemma FirstCharMismatch(s: string, p: string)
    requires |s| > 0 && |p| > 0 && s[0] != p[0]
    ensures !HasPrefix(s, p)
  {
    if |p| <= |s| {
      assert s[..|p|][0] != p[0];
    }
  }

  /** q occurs in s starting at position i. */
  predicate OccursAt(s: string, q: string, i: int)
  {
    0 <= i <= |s| - |q| && s[i..i + |q|] == q
  }

  /** `s.contains(q)`: q occurs in s as a contiguous substring. */
  predicate Contains(s: string, q: string)
  {
    exists i :: 0 <= i <= |s| - |q| && OccursAt(s, q, i)
  }

  function UpperChar(c: char): char
  {
    if 'a' <= c <= 'z' then (c as int - 'a' as int + 'A' as int) as char else c
  }

  function LowerChar(c: char): char
  {
    if 'A' <= c <= 'Z' then (c as int - 'A' as int + 'a' as int) as char else c
  }

  /** `uppercased()` on ASCII text. */
  function Upper(s: string): (r: string)
    ensures |r| == |s| && forall i :: 0 <= i < |s| ==> r[i] == UpperChar(s[i])
  {
    if s == [] then [] else [UpperChar(s[0])] + Upper(s[1..])
  }

  /** `lowercased()` on ASCII text. */
  function Lower(s: string): (r: string)
    ensures |r| == |s| && forall i :: 0 <= i < |s| ==> r[i] == LowerChar(s[i])
  {
    if s == [] then [] else [LowerChar(s[0])] + Lower(s[1..])
  }

  predicate IsDigit(c: char) { '0' <= c <= '9' }

  function DigitChar(d: nat): char
    requires d < 10
  {
    ('0' as int + d) as char
  }

  /** The number a string of decimal digits denotes, read by Horner's rule. */
  function DecimalValue(s: string): int
  {
    if s == [] then 0 else DecimalValue(s[..|s| - 1]) * 10 + (s[|s| - 1] as int - '0' as int)
  }

  /** The number an optionally signed decimal string denotes. */
  function SignedValue(s: string): int
  {
    if s != [] && s[0] == '-' then -DecimalValue(s[1..]) else DecimalValue(s)
  }

  /** Decimal digits of a natural number: no leading zero, and they read back as the number. */
  function NatToString(n: nat): (r: string)
    ensures |r| >= 1 && forall i :: 0 <= i < |r| ==> IsDigit(r[i])
    ensures r[0] == '0' ==> r == "0"
    ensures DecimalValue(r) == n
  {
    if n < 10 then [DigitChar(n)]
    else
      var p := NatToString(n / 10);
      var r := p + [DigitChar(n % 10)];
      assert r[..|r| - 1] == p;
      r
  }

  /** Decimal text of an integer, as Swift's string interpolation writes it: a minus sign exactly for negatives, then the digits of the magnitude. */
  function IntToString(n: int): (r: string)
    ensures |r| >= 1
    ensures n >= 0 <==> IsDigit(r[0])
    ensures r[0] == '-' <==> n < 0
    ensures forall i :: 0 < i < |r| ==> IsDigit(r[i])
    ensures SignedValue(r) == n
  {
    if n >= 0 then NatToString(n)
    else
      var m := NatToString(-n);
      assert ("-" + m)[1..] == m;
      "-" + m
  }
}
