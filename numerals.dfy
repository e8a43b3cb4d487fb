/** Positional numerals in a base from 2 to 10: the digit strings that Python's
    `bin(n)[2:]` and `str(n)` produce, and their values. */
module Numerals {

  function Pow(b: nat, k: nat): (r: nat)
    ensures b > 0 ==> r > 0
  {
    if k == 0 then 1 else b * Pow(b, k - 1)
  }

  lemma {:induction false} PowMonotone(b: nat, i: nat, j: nat)
    requires b >= 1 && i <= j
    ensures Pow(b, i) <= Pow(b, j)
  {
    if i < j {
      PowMonotone(b, i, j - 1);
      MulMonotone(b, 1, Pow(b, j - 1));
    }
  }

  lemma MulMonotone(a: nat, x: nat, y: nat)
    requires x <= y
    ensures a * x <= a * y
  {
  }

  /** Quotient and remainder are determined by the defining equation. */
  lemma DivUnique(a: int, d: int, q: int, r: int)
    requires d > 0 && 0 <= r < d && a == d * q + r
    ensures a / d == q && a % d == r
  {
    var q', r' := a / d, a % d;
    assert d * (q - q') == r' - r;
    if q > q' {
      MulMonotone(d, 1, q - q');
      assert false;
    } else if q < q' {
      MulMonotone(d, 1, q' - q);
      assert false;
    }
  }

  lemma DivDiv(n: nat, b: nat, p: nat)
    requires b > 0 && p > 0
    ensures n / b / p == n / (b * p)
  {
    var q, r := n / b / p, (n / b) % p;
    assert n == b * (p * q + r) + n % b;
    assert n == (b * p) * q + (b * r + n % b);
    MulMonotone(b, r, p - 1);
    DivUnique(n, b * p, q, b * r + n % b);
  }

  lemma ModStep(v: nat, c: nat, b: nat, p: nat)
    requires b > 0 && p > 0 && c < b
    ensures (b * v + c) % (b * p) == b * (v % p) + c
  {
    var q, r := v / p, v % p;
    assert b * v + c == (b * p) * q + (b * r + c);
    MulMonotone(b, r, p - 1);
    DivUnique(b * v + c, b * p, q, b * r + c);
  }

  lemma DivModFacts(n: nat, base: nat)
    requires 2 <= base <= n
    ensures base * (n / base) + n % base == n
    ensures 0 < n / base < n && n % base < base
  {
  }

  predicate IsDigit(c: char, base: nat) {
    '0' <= c && (c as int) - ('0' as int) < base
  }

  predicate AllDigits(s: string, base: nat) {
    forall i :: 0 <= i < |s| ==> IsDigit(s[i], base)
  }

  function DigitChar(d: nat): (c: char)
    requires d < 10
    ensures IsDigit(c, d + 1) && (c as int) - ('0' as int) == d
  {
    (('0' as int) + d) as char
  }

  function DigitValue(c: char): nat
    requires '0' <= c
  {
    (c as int) - ('0' as int)
  }

  /** The digits of n, most significant first, without leading zeros
      (a single "0" for zero). */
  function ToDigits(n: nat, base: nat): (r: string)
    requires 2 <= base <= 10
    ensures |r| >= 1 && AllDigits(r, base)
    ensures n > 0 ==> r[0] != '0'
    decreases n
  {
    if n < base then [DigitChar(n)]
    else
      DivModFacts(n, base);
      var high := ToDigits(n / base, base);
      var r := high + [DigitChar(n % base)];
      assert r[0] == high[0];
      assert forall i :: 0 <= i < |high| ==> r[i] == high[i];
      r
  }

  /** The value of a digit string, read most significant digit first. */
  function FromDigits(s: string, base: nat): nat
    requires AllDigits(s, base)
  {
    if s == [] then 0
    else base * FromDigits(s[..|s| - 1], base) + DigitValue(s[|s| - 1])
  }

  lemma {:induction false} FromToDigits(n: nat, base: nat)
    requires 2 <= base <= 10
    ensures FromDigits(ToDigits(n, base), base) == n
    decreases n
  {
    var s := ToDigits(n, base);
    if n >= base {
      var m, d := n / base, n % base;
      DivModFacts(n, base);
      assert s == ToDigits(m, base) + [DigitChar(d)];
      assert s[..|s| - 1] == ToDigits(m, base);
      FromToDigits(m, base);
      assert DigitValue(s[|s| - 1]) == d;
      assert FromDigits(s, base) == base * FromDigits(s[..|s| - 1], base) + d;
    } else {
      assert s == [DigitChar(n)];
      assert s[..|s| - 1] == [];
      assert FromDigits(s, base) == base * 0 + n;
    }
  }

  /** One more digit for every factor of the base. */
  lemma ToDigitsStep(n: nat, base: nat)
    requires 2 <= base <= n && base <= 10
    ensures ToDigits(n, base) == ToDigits(n / base, base) + [DigitChar(n % base)]
    ensures |ToDigits(n, base)| == |ToDigits(n / base, base)| + 1
  {
    DivModFacts(n, base);
  }

  /** If m has k digits, base * m + d has k + 1. */
  lemma PowBounds(n: nat, base: nat, k: nat)
    requires 2 <= base <= n && k >= 1
    requires n / base < Pow(base, k) && Pow(base, k - 1) <= n / base
    ensures n < Pow(base, k + 1) && Pow(base, k) <= n
  {
    var m := n / base;
    DivModFacts(n, base);
    assert n < base * (m + 1);
    MulMonotone(base, m + 1, Pow(base, k));
    MulMonotone(base, Pow(base, k - 1), m);
    assert Pow(base, k + 1) == base * Pow(base, k);
    assert Pow(base, k) == base * Pow(base, k - 1);
  }

  /** A number has exactly as many digits as its magnitude requires. */
  lemma {:induction false} DigitsLength(n: nat, base: nat)
    requires 2 <= base <= 10
    ensures n < Pow(base, |ToDigits(n, base)|)
    ensures n > 0 ==> Pow(base, |ToDigits(n, base)| - 1) <= n
    decreases n
  {
    if n >= base {
      DivModFacts(n, base);
      ToDigitsStep(n, base);
      DigitsLength(n / base, base);
      PowBounds(n, base, |ToDigits(n / base, base)|);
    }
  }
}
