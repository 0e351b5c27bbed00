/** Decimal rendering of integers as .NET's standard "D" format specifier
    produces it (`string.Format("{0:D10}", n)`): the decimal digits of |n|,
    left-padded with '0' to at least the requested width, preceded by '-'
    when n is negative.  Also the inverse (the value of a digit string) and
    the ordinal, character-by-character string order that table keys are
    sorted by. */
module Decimal {

  function Pow10(k: nat): (p: nat)
    ensures p >= 1
  {
    if k == 0 then 1 else 10 * Pow10(k - 1)
  }

  lemma {:induction false} Pow10Monotonic(j: nat, k: nat)
    requires j <= k
    ensures Pow10(j) <= Pow10(k)
  {
    if j < k {
      Pow10Monotonic(j, k - 1);
    }
  }

  predicate IsDigit(c: char) {
    '0' <= c <= '9'
  }

  predicate AllDigits(s: string) {
    forall i :: 0 <= i < |s| ==> IsDigit(s[i])
  }

  function DigitValue(c: char): (d: nat)
    requires IsDigit(c)
    ensures d < 10
  {
    c as int - '0' as int
  }

  function DigitChar(d: nat): (c: char)
    requires d < 10
    ensures IsDigit(c) && DigitValue(c) == d
  {
    ('0' as int + d) as char
  }

  /** Number of decimal digits of `n` without leading zeros (1 for 0). */
  function NumDigits(n: nat): (k: nat)
    ensures 1 <= k
    ensures n < Pow10(k)
    ensures 1 < k ==> Pow10(k - 1) <= n
  {
    if n < 10 then 1 else 1 + NumDigits(n / 10)
  }

  lemma {:induction false} NumDigitsAtMost(n: nat, w: nat)
    requires 1 <= w && n < Pow10(w)
    ensures NumDigits(n) <= w
  {
    if 10 <= n {
      NumDigitsAtMost(n / 10, w - 1);
    }
  }

  /** Exactly `w` decimal digits of `n`, most significant first. */
  function Fixed(n: nat, w: nat): (s: string)
    requires n < Pow10(w)
    ensures |s| == w
    ensures AllDigits(s)
  {
    if w == 0 then [] else Fixed(n / 10, w - 1) + [DigitChar(n % 10)]
  }

  function Max(a: nat, b: nat): nat {
    if a < b then b else a
  }

  /** "D<width>" rendering of a non-negative number. */
  function Padded(n: nat, width: nat): (s: string)
    ensures |s| == Max(width, NumDigits(n))
    ensures AllDigits(s)
  {
    var w := Max(width, NumDigits(n));
    Pow10Monotonic(NumDigits(n), w);
    Fixed(n, w)
  }

  /** "D<width>" rendering of any integer (`{0}` on an int is width 0). */
  function Format(x: int, width: nat): (s: string)
    ensures 0 <= x ==> AllDigits(s)
    ensures x < 0 ==> |s| > 1 && s[0] == '-' && AllDigits(s[1..])
  {
    if x < 0 then "-" + Padded(-x, width) else Padded(x, width)
  }

  /** Value of a string of decimal digits, as `long.Parse` reads it. */
  function Value(s: string): nat
    requires AllDigits(s)
  {
    if s == [] then 0 else 10 * Value(s[..|s| - 1]) + DigitValue(s[|s| - 1])
  }

  lemma {:induction false} ValueOfFixed(n: nat, w: nat)
    requires n < Pow10(w)
    ensures Value(Fixed(n, w)) == n
  {
    if w > 0 {
      var s := Fixed(n, w);
      assert s[..w - 1] == Fixed(n / 10, w - 1);
      ValueOfFixed(n / 10, w - 1);
    }
  }

  /** A padded rendering parses back to the number it renders. */
  lemma PaddedRoundTrip(n: nat, width: nat)
    ensures Value(Padded(n, width)) == n
  {
    var w := Max(width, NumDigits(n));
    Pow10Monotonic(NumDigits(n), w);
    ValueOfFixed(n, w);
  }

  /** A number below 10^width renders as exactly `width` digits. */
  lemma {:induction false} PaddedExactWidth(n: nat, width: nat)
    requires 1 <= width && n < Pow10(width)
    ensures Padded(n, width) == Fixed(n, width)
    ensures |Padded(n, width)| == width
  {
    NumDigitsAtMost(n, width);
  }

  /** Ordinal (code-unit by code-unit) strict string order. */
  predicate LexLess(a: string, b: string) {
    if a == [] then b != []
    else b != [] && (a[0] < b[0] || (a[0] == b[0] && LexLess(a[1..], b[1..])))
  }

  /** Two equal-length strings extended by one character each compare by
      their prefixes first and by the added characters only on a tie. */
  lemma {:induction false} LexLessSnoc(a: string, x: char, b: string, y: char)
    requires |a| == |b|
    ensures LexLess(a + [x], b + [y]) <==> LexLess(a, b) || (a == b && x < y)
  {
    if a != [] {
      assert (a + [x])[1..] == a[1..] + [x];
      assert (b + [y])[1..] == b[1..] + [y];
      LexLessSnoc(a[1..], x, b[1..], y);
      if a[0] == b[0] && a[1..] == b[1..] {
        assert a == [a[0]] + a[1..] && b == [b[0]] + b[1..];
      }
    }
  }

  /** Equal-width renderings sort as the numbers they render. */
  lemma {:induction false} FixedOrder(n: nat, m: nat, w: nat)
    requires n < Pow10(w) && m < Pow10(w)
    ensures LexLess(Fixed(n, w), Fixed(m, w)) <==> n < m
  {
    if w > 0 {
      var a, b := Fixed(n / 10, w - 1), Fixed(m / 10, w - 1);
      FixedOrder(n / 10, m / 10, w - 1);
      LexLessSnoc(a, DigitChar(n % 10), b, DigitChar(m % 10));
      if a == b {
        ValueOfFixed(n / 10, w - 1);
        ValueOfFixed(m / 10, w - 1);
      }
      LastDigitOrder(n, m);
    }
  }

  /** Numbers compare by all but their last digit first, then by it. */
  lemma LastDigitOrder(n: nat, m: nat)
    ensures n < m <==> n / 10 < m / 10 || (n / 10 == m / 10 && n % 10 < m % 10)
  {
  }
}
