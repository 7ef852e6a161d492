/** Positional numerals of a fixed width, as `toString(base).padStart(width, '0')` prints them. */
module Numerals {
  import opened JsStrings

  type Base = b: nat | 2 <= b <= 16 witness 10

  const DIGITS := "0123456789abcdef"

  function DigitValue(c: char): nat
  {
    if '0' <= c <= '9' then c as nat - '0' as nat
    else if 'a' <= c <= 'f' then c as nat - 'a' as nat + 10
    else 0
  }

  predicate IsDigitOf(c: char, b: Base)
  {
    ('0' <= c <= '9' || 'a' <= c <= 'f') && DigitValue(c) < b
  }

  predicate IsNumeral(s: string, b: Base)
  {
    forall i :: 0 <= i < |s| ==> IsDigitOf(s[i], b)
  }

  lemma DigitRoundTrip(d: nat, b: Base)
    requires d < b
    ensures IsDigitOf(DIGITS[d], b) && DigitValue(DIGITS[d]) == d
  {
  }

  lemma DigitOfValue(c: char, b: Base)
    requires IsDigitOf(c, b)
    ensures DIGITS[DigitValue(c)] == c
  {
  }

  function Power(b: Base, n: nat): (p: nat)
    ensures p >= 1
  {
    if n == 0 then 1 else b * Power(b, n - 1)
  }

  /** The shortest numeral of `n`. */
  function Numeral(n: nat, b: Base): string
  {
    if n < b then [DIGITS[n]] else Numeral(n / b, b) + [DIGITS[n % b]]
  }

  /** The number a numeral denotes. */
  function Parse(s: string, b: Base): nat
  {
    if s == [] then 0 else Parse(s[..|s| - 1], b) * b + DigitValue(s[|s| - 1])
  }

  /** The last `width` digits of `n`. */
  function Fixed(n: nat, b: Base, width: nat): (s: string)
    ensures |s| == width
    decreases width
  {
    if width == 0 then [] else Fixed(n / b, b, width - 1) + [DIGITS[n % b]]
  }

  lemma {:induction false} FixedZero(b: Base, width: nat)
    ensures Fixed(0, b, width) == seq(width, _ => '0')
  {
    if width > 0 {
      FixedZero(b, width - 1);
      assert seq(width, _ => '0') == seq(width - 1, _ => '0') + ['0'];
    }
  }

  lemma Quotient(n: nat, b: Base)
    ensures n == n / b * b + n % b && 0 <= n % b < b
    ensures n < b ==> n / b == 0 && n % b == n
    ensures n >= b ==> 1 <= n / b
  {
  }

  lemma QuotientBound(n: nat, b: Base, width: nat)
    requires width > 0 && n < Power(b, width)
    ensures n / b < Power(b, width - 1)
  {
    if n / b >= Power(b, width - 1) {
      MulMonotone(b, Power(b, width - 1), n / b);
      Quotient(n, b);
    }
  }

  lemma MulMonotone(b: nat, x: nat, y: nat)
    requires x <= y
    ensures b * x <= b * y
  {
  }

  lemma FixedSnoc(n: nat, b: Base, width: nat)
    requires width > 0
    ensures Fixed(n, b, width) == Fixed(n / b, b, width - 1) + [DIGITS[n % b]]
  {
  }

  lemma PadSnoc(s: string, c: char, width: nat)
    requires width > 0
    ensures PadStart(s + [c], width) == PadStart(s, width - 1) + [c]
  {
  }

  lemma {:induction false} NumeralCases(n: nat, b: Base, width: nat)
    requires width > 0 && n < Power(b, width)
    ensures n < b ==> Numeral(n, b) == [DIGITS[n]]
    ensures n >= b ==> width > 1 && Numeral(n, b) == Numeral(n / b, b) + [DIGITS[n % b]]
  {
    assert Power(b, 1) == b * Power(b, 0) == b;
  }

  /** Padding the shortest numeral gives the fixed-width one. */
  lemma {:induction false} PaddedIsFixed(n: nat, b: Base, width: nat)
    requires width > 0 && n < Power(b, width)
    ensures PadStart(Numeral(n, b), width) == Fixed(n, b, width)
    decreases width
  {
    NumeralCases(n, b, width);
    FixedSnoc(n, b, width);
    var q, d := n / b, n % b;
    assert (n < b ==> q == 0 && d == n) && 0 <= d < b by { Quotient(n, b); }
    if n < b {
      FixedZero(b, width - 1);
    } else {
      QuotientBound(n, b, width);
      PaddedIsFixed(q, b, width - 1);
      PadSnoc(Numeral(q, b), DIGITS[d], width);
    }
  }

  lemma {:induction false} ParseSnoc(s: string, c: char, b: Base)
    ensures Parse(s + [c], b) == Parse(s, b) * b + DigitValue(c)
  {
    assert (s + [c])[..|s|] == s;
  }

  lemma {:induction false} ParseDigit(s: string, d: nat, b: Base)
    requires d < b
    ensures Parse(s + [DIGITS[d]], b) == Parse(s, b) * b + d
  {
    DigitRoundTrip(d, b);
    ParseSnoc(s, DIGITS[d], b);
  }

  lemma {:induction false} FixedIsNumeral(n: nat, b: Base, width: nat)
    ensures IsNumeral(Fixed(n, b, width), b)
    decreases width
  {
    if width > 0 {
      FixedIsNumeral(n / b, b, width - 1);
      DigitRoundTrip(n % b, b);
    }
  }

  lemma ParseFixedStep(n: nat, b: Base, width: nat)
    requires width > 0 && Parse(Fixed(n / b, b, width - 1), b) == n / b
    ensures Parse(Fixed(n, b, width), b) == n
  {
    var f := Fixed(n / b, b, width - 1);
    Quotient(n, b);
    assert Fixed(n, b, width) == f + [DIGITS[n % b]];
    ParseDigit(f, n % b, b);
  }

  lemma {:induction false} ParseFixedValue(n: nat, b: Base, width: nat)
    requires n < Power(b, width)
    ensures Parse(Fixed(n, b, width), b) == n
    decreases width
  {
    if width > 0 {
      QuotientBound(n, b, width);
      ParseFixedValue(n / b, b, width - 1);
      ParseFixedStep(n, b, width);
    }
  }

  lemma {:induction false} ParseFixed(n: nat, b: Base, width: nat)
    requires n < Power(b, width)
    ensures Parse(Fixed(n, b, width), b) == n && IsNumeral(Fixed(n, b, width), b)
  {
    ParseFixedValue(n, b, width);
    FixedIsNumeral(n, b, width);
  }

  lemma {:induction false} FixedParse(s: string, b: Base)
    requires IsNumeral(s, b)
    ensures Fixed(Parse(s, b), b, |s|) == s && Parse(s, b) < Power(b, |s|)
  {
    if s != [] {
      var front, last := s[..|s| - 1], s[|s| - 1];
      FixedParse(front, b);
      DigitOfValue(last, b);
      var q, d := Parse(front, b), DigitValue(last);
      assert Parse(s, b) == q * b + d;
      DivMod(q, b, d);
      FixedSnoc(Parse(s, b), b, |s|);
      assert s == front + [last];
      BoundSnoc(q, b, d, |front|);
    }
  }

  lemma BoundSnoc(q: nat, b: Base, d: nat, width: nat)
    requires q < Power(b, width) && d < b
    ensures q * b + d < Power(b, width + 1)
  {
    MulMonotone(b, q + 1, Power(b, width));
  }

  lemma DivMod(q: nat, b: Base, d: nat)
    requires d < b
    ensures (q * b + d) / b == q && (q * b + d) % b == d
  {
    var x := q * b + d;
    Quotient(x, b);
    if q < x / b {
      MulMonotone(b, q + 1, x / b);
    } else if x / b < q {
      MulMonotone(b, x / b + 1, q);
    }
  }

  lemma MulAssociates(x: nat, y: nat, z: nat)
    ensures x * (y * z) == x * y * z
  {
  }

  lemma {:induction false} PowerSplit(b: Base, m: nat, n: nat)
    ensures Power(b, m + n) == Power(b, m) * Power(b, n)
    decreases m
  {
    if m > 0 {
      PowerSplit(b, m - 1, n);
      MulAssociates(b, Power(b, m - 1), Power(b, n));
    }
  }
}
