/**
 * Decimal digits, Python-style integer formatting, prefix/suffix/substring tests and
 * code-point lexicographic order on strings.  Everything the model does with text is
 * built from these.
 */
module Text {

  predicate IsDigit(c: char) { '0' <= c <= '9' }

  predicate AllDigits(s: string) { forall i :: 0 <= i < |s| ==> IsDigit(s[i]) }

  function DigitChar(d: nat): (c: char)
    requires d < 10
    ensures IsDigit(c)
  {
    (48 + d) as char
  }

  function DigitValue(c: char): (d: nat)
    requires IsDigit(c)
    ensures d < 10
  {
    (c as int) - 48
  }

  /** Decimal rendering of a natural number, no leading zeros (Python `str(n)`). */
  function NatToString(n: nat): (s: string)
    ensures |s| > 0 && AllDigits(s)
    ensures s[0] == '0' ==> n == 0
  {
    if n < 10 then [DigitChar(n)] else NatToString(n / 10) + [DigitChar(n % 10)]
  }

  /** The number a string of digits denotes (Python `int(s)`; leading zeros allowed). */
  function Value(s: string): nat
    requires AllDigits(s)
  {
    if s == [] then 0 else 10 * Value(s[..|s| - 1]) + DigitValue(s[|s| - 1])
  }

  lemma {:induction false} ValueOfNatToString(n: nat)
    ensures Value(NatToString(n)) == n
  {
    if n >= 10 {
      var x := NatToString(n / 10);
      var s := x + [DigitChar(n % 10)];
      assert s[..|s| - 1] == x;
      ValueOfNatToString(n / 10);
    }
  }

  lemma NatToStringInjective(a: nat, b: nat)
    requires NatToString(a) == NatToString(b)
    ensures a == b
  {
    ValueOfNatToString(a);
    ValueOfNatToString(b);
  }

  /** Decimal rendering of an integer (Python `str(n)` / `f"{n}"`). */
  function IntToString(n: int): (s: string)
    ensures |s| > 0
  {
    if n < 0 then "-" + NatToString(-n) else NatToString(n)
  }

  /** Length of the longest run of digits at the start of `s` (a greedy `\d*`). */
  function LeadingDigits(s: string): (k: nat)
    ensures k <= |s|
    ensures AllDigits(s[..k])
    ensures k < |s| ==> !IsDigit(s[k])
  {
    if s == [] || !IsDigit(s[0]) then 0 else 1 + LeadingDigits(s[1..])
  }

  lemma {:induction false} LeadingDigitsOfDigits(s: string, rest: string)
    requires AllDigits(s)
    requires rest == [] || !IsDigit(rest[0])
    ensures LeadingDigits(s + rest) == |s|
  {
    if s != [] {
      assert (s + rest)[1..] == s[1..] + rest;
      LeadingDigitsOfDigits(s[1..], rest);
    } else {
      assert s + rest == rest;
    }
  }

  predicate StartsWith(s: string, p: string) { |p| <= |s| && s[..|p|] == p }

  predicate EndsWith(s: string, p: string) { |p| <= |s| && s[|s| - |p|..] == p }

  /** Python `sub in s` for strings. */
  predicate Contains(s: string, sub: string)
  {
    StartsWith(s, sub) || (s != [] && Contains(s[1..], sub))
  }

  function Zeros(n: nat): (z: string)
    ensures |z| == n && AllDigits(z)
    ensures forall i :: 0 <= i < n ==> z[i] == '0'
  {
    if n == 0 then [] else Zeros(n - 1) + ['0']
  }

  /** Left-pad with '0' up to width `w`; never truncates. */
  function PadZeros(s: string, w: nat): (r: string)
    ensures |r| == if |s| >= w then |s| else w
  {
    if |s| >= w then s else Zeros(w - |s|) + s
  }

  /** Python `format(n, "09d")`: the sign first, then zero fill to a total width of 9. */
  function Format09d(n: int): string
  {
    if n >= 0 then PadZeros(NatToString(n), 9) else "-" + PadZeros(NatToString(-n), 8)
  }

  /** Python's `<` on `str`: code-point lexicographic order. */
  predicate LexLess(a: string, b: string)
  {
    if a == [] then b != []
    else b != [] && (a[0] < b[0] || (a[0] == b[0] && LexLess(a[1..], b[1..])))
  }

  lemma {:induction false} ValueOfLeadingZeros(k: nat, s: string)
    requires AllDigits(s)
    ensures AllDigits(Zeros(k) + s) && Value(Zeros(k) + s) == Value(s)
  {
    if s == [] {
      assert Zeros(k) + s == Zeros(k);
      ZerosValue(k);
    } else {
      var t := Zeros(k) + s;
      assert t[..|t| - 1] == Zeros(k) + s[..|s| - 1];
      ValueOfLeadingZeros(k, s[..|s| - 1]);
    }
  }

  lemma {:induction false} ZerosValue(k: nat)
    ensures Value(Zeros(k)) == 0
  {
    if k > 0 {
      assert Zeros(k)[..k - 1] == Zeros(k - 1);
      ZerosValue(k - 1);
    }
  }

  /** Removing the last character of two strings of equal length. */
  lemma {:induction false} LexLessSnoc(s: string, t: string)
    requires |s| == |t| > 0
    ensures LexLess(s, t) <==>
            LexLess(s[..|s| - 1], t[..|t| - 1]) ||
            (s[..|s| - 1] == t[..|t| - 1] && s[|s| - 1] < t[|t| - 1])
  {
    if |s| > 1 {
      assert s[1..][..|s| - 2] == s[..|s| - 1][1..];
      assert t[1..][..|t| - 2] == t[..|t| - 1][1..];
      LexLessSnoc(s[1..], t[1..]);
      var s', t' := s[..|s| - 1], t[..|t| - 1];
      assert s'[0] == s[0] && t'[0] == t[0];
      assert s' == t' <==> s[0] == t[0] && s'[1..] == t'[1..];
    }
  }

  /** For digit strings of one length, string order is numeric order. */
  lemma {:induction false} LexLessIsNumericOrder(s: string, t: string)
    requires |s| == |t| && AllDigits(s) && AllDigits(t)
    ensures LexLess(s, t) <==> Value(s) < Value(t)
    ensures s == t <==> Value(s) == Value(t)
  {
    if |s| > 0 {
      var s', t' := s[..|s| - 1], t[..|t| - 1];
      LexLessIsNumericOrder(s', t');
      LexLessSnoc(s, t);
      assert s == s' + [s[|s| - 1]] && t == t' + [t[|t| - 1]];
    }
  }

  /** A shared prefix and an earlier middle part of equal length decide the order. */
  lemma {:induction false} LexLessAfterPrefix(p: string, x: string, y: string, s: string, t: string)
    requires |x| == |y| && LexLess(x, y)
    ensures LexLess(p + x + s, p + y + t)
  {
    if p != [] {
      assert (p + x + s)[1..] == p[1..] + x + s;
      assert (p + y + t)[1..] == p[1..] + y + t;
      LexLessAfterPrefix(p[1..], x, y, s, t);
    } else {
      assert p + x + s == x + s && p + y + t == y + t;
      if x[0] == y[0] {
        assert (x + s)[1..] == x[1..] + s;
        assert (y + t)[1..] == y[1..] + t;
        LexLessAfterPrefix([], x[1..], y[1..], s, t);
        assert [] + x[1..] + s == x[1..] + s;
        assert [] + y[1..] + t == y[1..] + t;
      }
    }
  }

  /** `format(n, "09d")` for 0 <= n < 10^9: nine digits whose value is n. */
  lemma Format09dDigits(n: int)
    requires 0 <= n < 1_000_000_000
    ensures |Format09d(n)| == 9 && AllDigits(Format09d(n)) && Value(Format09d(n)) == n
  {
    NatToStringBound(n, 9);
    ValueOfNatToString(n);
    var s := NatToString(n);
    if |s| < 9 {
      ValueOfLeadingZeros(9 - |s|, s);
    }
  }

  function Pow10(k: nat): (p: nat)
    ensures p >= 1
  {
    if k == 0 then 1 else 10 * Pow10(k - 1)
  }

  lemma {:induction false} NatToStringBound(n: nat, k: nat)
    requires n < Pow10(k)
    ensures |NatToString(n)| <= if k == 0 then 1 else k
  {
    if n >= 10 {
      NatToStringBound(n / 10, k - 1);
    }
  }
}
