/**
 * Decimal text of non-negative integers, as Python renders it:
 * `str(n)` (and `f"{n}"`) with no padding, and the fixed-width
 * zero-padded fields that `strftime` writes for `%Y`, `%m`, `%f`, ...
 * A reading function, `ValueOf`, is the inverse of both renderings.
 */
module Digits {

  predicate IsDigit(c: char) {
    '0' <= c <= '9'
  }

  predicate AllDigits(s: string) {
    forall i :: 0 <= i < |s| ==> IsDigit(s[i])
  }

  function DigitChar(d: nat): (c: char)
    requires d < 10
    ensures IsDigit(c) && DigitValue(c) == d
  {
    ('0' as int + d) as char
  }

  function DigitValue(c: char): (d: nat)
    requires IsDigit(c)
    ensures d < 10
  {
    c as int - '0' as int
  }

  function Pow10(n: nat): (p: nat)
    ensures p >= 1
  {
    if n == 0 then 1 else 10 * Pow10(n - 1)
  }

  /** The number a string of decimal digits denotes (leading zeros allowed). */
  function ValueOf(s: string): nat
    requires AllDigits(s)
  {
    if s == [] then 0 else ValueOf(s[..|s| - 1]) * 10 + DigitValue(s[|s| - 1])
  }

  /** A digit string in the form `str` writes: at least one digit, and no leading zero unless it is "0". */
  predicate IsCanonical(s: string) {
    |s| >= 1 && AllDigits(s) && (s[0] == '0' ==> |s| == 1)
  }

  /** `str(n)` for a non-negative int: shortest decimal form, no sign. */
  function Decimal(n: nat): (s: string)
    ensures |s| >= 1 && AllDigits(s)
    ensures s[0] == '0' ==> n == 0 && |s| == 1
  {
    if n < 10 then [DigitChar(n)] else Decimal(n / 10) + [DigitChar(n % 10)]
  }

  /** The `width`-digit zero-padded form of `n`, as `%0<width>d` writes it. */
  function Padded(n: nat, width: nat): (s: string)
    requires n < Pow10(width)
    ensures |s| == width && AllDigits(s)
  {
    if width == 0 then [] else Padded(n / 10, width - 1) + [DigitChar(n % 10)]
  }

  /** Reading `str(n)` back gives `n`. */
  lemma {:induction false} DecimalRoundTrip(n: nat)
    ensures ValueOf(Decimal(n)) == n
  {
    if n >= 10 {
      var s := Decimal(n);
      assert s[..|s| - 1] == Decimal(n / 10);
      DecimalRoundTrip(n / 10);
    }
  }

  /** Reading a zero-padded field back gives the number it was padded from. */
  lemma {:induction false} PaddedRoundTrip(n: nat, width: nat)
    requires n < Pow10(width)
    ensures ValueOf(Padded(n, width)) == n
  {
    if width > 0 {
      var s := Padded(n, width);
      assert s[..|s| - 1] == Padded(n / 10, width - 1);
      PaddedRoundTrip(n / 10, width - 1);
    }
  }

  /** Different numbers have different `str` forms. */
  lemma DecimalInjective(m: nat, n: nat)
    ensures Decimal(m) == Decimal(n) <==> m == n
  {
    DecimalRoundTrip(m);
    DecimalRoundTrip(n);
  }

  /** Euclidean division has one quotient: any `q` with remainder in range is `n / d`. */
  lemma DivUnique(n: int, d: int, q: int, r: int)
    requires d > 0 && 0 <= r < d && n == d * q + r
    ensures n / d == q
  {
    var q', r' := n / d, n % d;
    assert d * (q - q') == r' - r;
    MulAwayFromZero(d, q - q');
  }

  lemma MulAwayFromZero(d: int, k: int)
    requires d > 0
    ensures k >= 1 ==> d * k >= d
    ensures k <= -1 ==> d * k <= -d
  {
  }

  /** Dropping the last digit of a zero-padded field divides by ten. */
  lemma PaddedDropLast(n: nat, width: nat)
    requires n < Pow10(width + 1)
    ensures n / 10 < Pow10(width)
    ensures Padded(n, width + 1)[..width] == Padded(n / 10, width)
  {
  }

  /**
   * The first three digits of a six-digit field are the number divided by
   * 1000, truncated: cutting `%f` to milliseconds never rounds.
   */
  lemma {:induction false} SixDigitPrefix(n: nat)
    requires n < 1000000
    ensures Padded(n, 6)[..3] == Padded(n / 1000, 3)
  {
    PaddedDropLast(n, 5);
    PaddedDropLast(n / 10, 4);
    PaddedDropLast(n / 100, 3);
    assert n / 10 / 10 == n / 100 && n / 100 / 10 == n / 1000;
    calc {
      Padded(n, 6)[..3];
      Padded(n, 6)[..5][..3];
      Padded(n / 10, 5)[..4][..3];
      Padded(n / 100, 4)[..3];
      Padded(n / 1000, 3);
    }
  }

  /** A non-empty digit string that does not start with '0' denotes at least one. */
  lemma {:induction false} LeadingDigitPositive(s: string)
    requires |s| >= 1 && AllDigits(s) && s[0] != '0'
    ensures ValueOf(s) >= 1
  {
    if |s| > 1 {
      LeadingDigitPositive(s[..|s| - 1]);
    }
  }

  /** Every canonical digit string is `str` of its value: `str` is the only way to write a number so. */
  lemma {:induction false} CanonicalIsDecimal(s: string)
    requires IsCanonical(s)
    ensures Decimal(ValueOf(s)) == s
  {
    if |s| > 1 {
      var p := s[..|s| - 1];
      LeadingDigitPositive(p);
      CanonicalIsDecimal(p);
      var n := ValueOf(s);
      assert n / 10 == ValueOf(p) && n % 10 == DigitValue(s[|s| - 1]);
      assert DigitChar(n % 10) == s[|s| - 1];
      assert s == p + [s[|s| - 1]];
    }
  }
}
