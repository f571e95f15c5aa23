/// Decimal numerals, as the scripts' string concatenation writes integers.

module Decimal {

  const DIGITS: string := "0123456789"

  predicate AllDigits(s: string) {
    forall k :: 0 <= k < |s| ==> s[k] in DIGITS
  }

  function Digits(n: nat): (s: string)
    ensures s != "" && AllDigits(s)
  {
    if n < 10 then [DIGITS[n]] else Digits(n / 10) + [DIGITS[n % 10]]
  }

  function Numeral(n: int): string {
    if n < 0 then ['-'] + Digits(-n) else Digits(n)
  }

  function DigitValue(c: char): nat
    requires c in DIGITS
  {
    c as int - '0' as int
  }

  /** The number a string of digits stands for. */
  function Value(s: string): nat
    requires AllDigits(s)
  {
    if s == "" then 0 else 10 * Value(s[..|s| - 1]) + DigitValue(s[|s| - 1])
  }

  lemma {:induction false} ValueOfDigits(n: nat)
    ensures Value(Digits(n)) == n
  {
    assert forall d :: 0 <= d < 10 ==> DIGITS[d] as int - '0' as int == d;
    if n >= 10 {
      ValueOfDigits(n / 10);
      assert Digits(n)[..|Digits(n)| - 1] == Digits(n / 10);
    } else {
      assert Digits(n)[..0] == "";
    }
  }

  /** A numeral is digits, after a sign if it is negative. */
  lemma NumeralIs(n: int)
    ensures Numeral(n) != "" && Numeral(n)[|Numeral(n)| - 1] in DIGITS
    ensures forall k :: 0 <= k < |Numeral(n)| ==> Numeral(n)[k] in DIGITS || (k == 0 && Numeral(n)[k] == '-')
  {
    var digits := Digits(if n < 0 then -n else n);
    assert AllDigits(digits) && digits[|digits| - 1] in DIGITS;
  }

  lemma SameNumeral(m: int, n: int)
    requires Numeral(m) == Numeral(n)
    ensures m == n
  {
    ValueOfDigits(if m < 0 then -m else m);
    ValueOfDigits(if n < 0 then -n else n);
    assert m < 0 ==> Numeral(m)[1..] == Digits(-m) && Numeral(m)[0] == '-';
    assert n < 0 ==> Numeral(n)[1..] == Digits(-n) && Numeral(n)[0] == '-';
  }

  lemma Beside(p: string, q: string, a: string, b: string)
    requires p + a == q + b && |p| < |q| && a != ""
    ensures a[0] == q[|p|]
  {
    assert (p + a)[|p|] == a[0] && (q + b)[|p|] == q[|p|];
  }

  /** What stands before a character that is no digit is as long as what it is
      digits after. */
  lemma NotShorter(p: string, q: string, a: string, b: string)
    requires p + a == q + b && p != "" && a != "" && a[0] !in DIGITS && forall k :: 0 < k < |q| ==> q[k] in DIGITS
    ensures |p| >= |q|
  {
    if |p| < |q| {
      Beside(p, q, a, b);
    }
  }

  lemma SplitAt(p: string, q: string, a: string, b: string)
    requires p + a == q + b && |p| == |q|
    ensures p == q && a == b
  {
    assert p == (p + a)[..|p|] && q == (q + b)[..|q|];
    assert a == (p + a)[|p|..] && b == (q + b)[|q|..];
  }

  /** Digits, after what may be a sign. */
  predicate Signed(s: string) {
    s != "" && forall k :: 0 < k < |s| ==> s[k] in DIGITS
  }

  predicate Breaks(s: string) {
    s != "" && s[0] !in DIGITS
  }

  /** Two runs of digits that stand before the same text, each ended by a
      character that is no digit, are the same. */
  lemma SignedPrefix(p: string, q: string, a: string, b: string)
    requires p + a == q + b && Signed(p) && Signed(q) && Breaks(a) && Breaks(b)
    ensures p == q && a == b
  {
    NotShorter(p, q, a, b);
    NotShorter(q, p, b, a);
    SplitAt(p, q, a, b);
  }

  /** So are two numerals, and their numbers. */
  lemma NumeralPrefix(m: int, n: int, a: string, b: string)
    requires Numeral(m) + a == Numeral(n) + b && Breaks(a) && Breaks(b)
    ensures m == n && a == b
  {
    NumeralIs(m);
    NumeralIs(n);
    SignedPrefix(Numeral(m), Numeral(n), a, b);
    SameNumeral(m, n);
  }
}
