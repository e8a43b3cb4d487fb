/** The bit helpers of CheckInfortrend: the unpadded binary string of a status
    word, Python's negative indexing and slicing on it, and the conversion of a
    binary slice back to an integer. */
module Bits {
  import opened Wrappers
  import opened Numerals

  /** `_convertIntegerToBinaryAndFormat`: `bin(n)[2:]`, most significant bit
      first, no padding ("0" for zero). */
  function Binary(n: nat): (r: string)
    ensures |r| >= 1 && AllDigits(r, 2)
    ensures n > 0 ==> r[0] == '1'
  {
    ToDigits(n, 2)
  }

  /** `_convertBinarytoInteger`: `int('0b' + s, 2)` on strings without
      whitespace (the only kind a slice of `bin(n)[2:]` can be), which raises
      ValueError unless s is a non-empty string of binary digits. */
  function ParseBinary(s: string): (r: Result<nat, PyError>)
    ensures r.Failure? <==> s == [] || !AllDigits(s, 2)
    ensures r.Failure? ==> r.error == ValueError
  {
    if s != [] && AllDigits(s, 2) then Success(FromDigits(s, 2)) else Failure(ValueError)
  }

  /** `s[-k]`: None stands for the IndexError Python raises (note `s[-0]` is `s[0]`). */
  function IndexFromEnd(s: string, k: nat): Option<char>
  {
    if k == 0 then (if |s| > 0 then Some(s[0]) else None)
    else if k <= |s| then Some(s[|s| - k])
    else None
  }

  /** Where Python's slice bound `-k` lands in a string of length len
      (`-0` is `0`; bounds before the start are clamped to it). */
  function NegativeBound(len: nat, k: nat): (i: nat)
    ensures i <= len
  {
    if k == 0 || k >= len then 0 else len - k
  }

  /** `s[-high:-low]`: never raises; empty when the bounds cross. */
  function SliceFromEnd(s: string, high: nat, low: nat): (r: string)
    ensures |r| <= |s|
  {
    var a, b := NegativeBound(|s|, high), NegativeBound(|s|, low);
    if a < b then s[a..b] else []
  }

  /** Bit k of n, counted from 1 at the least significant end. */
  predicate BitSet(n: nat, k: nat)
    requires k >= 1
  {
    (n / Pow(2, k - 1)) % 2 == 1
  }

  /** The width-bit field of n that starts at bit low + 1. */
  function Field(n: nat, low: nat, width: nat): nat
  {
    (n / Pow(2, low)) % Pow(2, width)
  }

  /** `_convertBinarytoInteger` inverts `_convertIntegerToBinaryAndFormat`. */
  lemma BinaryRoundTrip(n: nat)
    ensures ParseBinary(Binary(n)) == Success(n)
  {
    FromToDigits(n, 2);
  }

  lemma BinaryLength(n: nat)
    requires n > 0
    ensures Pow(2, |Binary(n)| - 1) <= n < Pow(2, |Binary(n)|)
  {
    DigitsLength(n, 2);
  }

  /** The string is at least k + 1 characters long exactly when n >= 2^k. */
  lemma LongerThan(n: nat, k: nat)
    requires n > 0
    ensures |Binary(n)| > k <==> n >= Pow(2, k)
  {
    BinaryLength(n);
    var len := |Binary(n)|;
    if len > k {
      PowMonotone(2, k, len - 1);
    } else {
      PowMonotone(2, len, k);
    }
  }

  lemma LastDigit(n: nat)
    ensures Binary(n)[|Binary(n)| - 1] == DigitChar(n % 2)
  {
  }

  /** Dropping the last l characters of the string shifts n right by l bits. */
  lemma {:induction false} PrefixIsShift(n: nat, l: nat)
    requires l < |Binary(n)|
    ensures Binary(n)[..|Binary(n)| - l] == Binary(n / Pow(2, l))
    decreases l
  {
    var s := Binary(n);
    if l > 0 {
      assert n >= 2;
      DivModFacts(n, 2);
      assert s == Binary(n / 2) + [DigitChar(n % 2)];
      assert s[..|s| - l] == Binary(n / 2)[..|Binary(n / 2)| - (l - 1)];
      PrefixIsShift(n / 2, l - 1);
      DivDiv(n, 2, Pow(2, l - 1));
    }
  }

  /** The last m characters of a binary string hold its value modulo 2^m. */
  lemma {:induction false} SuffixIsModulus(t: string, m: nat)
    requires AllDigits(t, 2) && m >= 1
    ensures AllDigits(t[NegativeBound(|t|, m)..], 2)
    ensures FromDigits(t[NegativeBound(|t|, m)..], 2) == FromDigits(t, 2) % Pow(2, m)
    decreases |t|
  {
    var a := NegativeBound(|t|, m);
    if m >= |t| {
      assert t[a..] == t;
      BinaryBelow(t);
      PowMonotone(2, |t|, m);
      DivUnique(FromDigits(t, 2), Pow(2, m), 0, FromDigits(t, 2));
    } else if m == 1 {
      LastDigitAlone(t);
      LastDigitParity(t);
    } else {
      var u, c := t[..|t| - 1], t[|t| - 1];
      assert NegativeBound(|u|, m - 1) == a;
      assert t[a..] == u[a..] + [c];
      assert t[a..][..|t[a..]| - 1] == u[a..];
      SuffixIsModulus(u, m - 1);
      ModStep(FromDigits(u, 2), DigitValue(c), 2, Pow(2, m - 1));
    }
  }

  /** The last character of a binary string read on its own... */
  lemma LastDigitAlone(t: string)
    requires AllDigits(t, 2) && |t| >= 1
    ensures FromDigits(t[|t| - 1..], 2) == DigitValue(t[|t| - 1])
  {
    SingleDigit(t[|t| - 1]);
    assert t[|t| - 1..] == [t[|t| - 1]];
  }

  /** ...is the parity of the whole string. */
  lemma LastDigitParity(t: string)
    requires AllDigits(t, 2) && |t| >= 1
    ensures FromDigits(t, 2) % 2 == DigitValue(t[|t| - 1])
  {
    SingleDigit(t[|t| - 1]);
    FromDigitsLast(t);
    DivUnique(FromDigits(t, 2), 2, FromDigits(t[..|t| - 1], 2), DigitValue(t[|t| - 1]));
  }

  lemma FromDigitsLast(t: string)
    requires AllDigits(t, 2) && |t| >= 1
    ensures FromDigits(t, 2) == 2 * FromDigits(t[..|t| - 1], 2) + DigitValue(t[|t| - 1])
  {
  }

  lemma SingleDigit(c: char)
    requires IsDigit(c, 2)
    ensures DigitValue(c) < 2
    ensures FromDigits([c], 2) == DigitValue(c)
  {
    assert [c][..0] == [];
  }

  /** A binary string of length L is worth less than 2^L. */
  lemma {:induction false} BinaryBelow(t: string)
    requires AllDigits(t, 2)
    ensures FromDigits(t, 2) < Pow(2, |t|)
    decreases |t|
  {
    if t != [] {
      BinaryBelow(t[..|t| - 1]);
    }
  }

  /** `binary[-k] == '1'` exactly when bit k of n is set; the IndexError case
      happens exactly when bit k lies above the most significant one, where
      the bit is clear, so swallowing it means "not set". */
  lemma BitFromEnd(n: nat, k: nat)
    requires n > 0 && k >= 1
    ensures IndexFromEnd(Binary(n), k) == Some('1') <==> BitSet(n, k)
    ensures IndexFromEnd(Binary(n), k).None? <==> n < Pow(2, k - 1)
    ensures IndexFromEnd(Binary(n), k).None? ==> !BitSet(n, k)
  {
    var s := Binary(n);
    LongerThan(n, k - 1);
    if k <= |s| {
      PrefixIsShift(n, k - 1);
      var x := n / Pow(2, k - 1);
      assert s[..|s| - (k - 1)] == Binary(x);
      LastDigit(x);
      assert s[|s| - k] == Binary(x)[|Binary(x)| - 1];
    } else {
      DivUnique(n, Pow(2, k - 1), 0, n);
    }
  }

  /** `int('0b' + binary[-high:-low], 2)`: the slice is empty, and the
      conversion raises ValueError, exactly when n < 2^low; otherwise it yields
      the field of n between bits low + 1 and high. */
  lemma SliceField(n: nat, high: nat, low: nat)
    requires n > 0 && high > low >= 1
    ensures ParseBinary(SliceFromEnd(Binary(n), high, low)).Failure? <==> n < Pow(2, low)
    ensures n >= Pow(2, low) ==>
      ParseBinary(SliceFromEnd(Binary(n), high, low)) == Success(Field(n, low, high - low))
  {
    LongerThan(n, low);
    if n >= Pow(2, low) {
      SliceValue(n, high, low);
    } else {
      assert SliceFromEnd(Binary(n), high, low) == [];
    }
  }

  /** Once the string is longer than low, the slice holds the field. */
  lemma SliceValue(n: nat, high: nat, low: nat)
    requires high > low >= 1 && |Binary(n)| > low
    ensures var r := SliceFromEnd(Binary(n), high, low);
      r != [] && AllDigits(r, 2) && FromDigits(r, 2) == Field(n, low, high - low)
  {
    var s := Binary(n);
    var len := |s|;
    var t := s[..len - low];
    PrefixIsShift(n, low);
    var a := NegativeBound(len, high);
    assert NegativeBound(len, low) == len - low;
    assert a == NegativeBound(|t|, high - low);
    assert SliceFromEnd(s, high, low) == t[a..];
    SuffixIsModulus(t, high - low);
    FromToDigits(n / Pow(2, low), 2);
  }
}
