/**
 * Decimal text of natural numbers, as Rust's `format!` writes it plain and zero-padded to a width,
 * together with the inverse reading of a digit string. That the string order on digit strings
 * of one length is the numeric order is `Chart.LexLeDigits`.
 */
module Decimal {

  predicate IsDigit(c: char) {
    '0' <= c <= '9'
  }

  predicate AllDigits(s: string) {
    forall i | 0 <= i < |s| :: IsDigit(s[i])
  }

  function DigitChar(d: nat): (c: char)
    requires d < 10
    ensures IsDigit(c)
  {
    '0' + d as char
  }

  function DigitValue(c: char): (d: nat)
    requires IsDigit(c)
    ensures d < 10
  {
    (c - '0') as nat
  }

  function Pow10(n: nat): (p: nat)
    ensures p >= 1
  {
    if n == 0 then 1 else 10 * Pow10(n - 1)
  }

  /** `format!("{}", n)`: the shortest decimal text of `n`. */
  function DecimalText(n: nat): (s: string)
    ensures |s| >= 1 && AllDigits(s)
    ensures |s| > 1 ==> s[0] != '0'
    decreases n
  {
    if n < 10 then [DigitChar(n)] else DecimalText(n / 10) + [DigitChar(n % 10)]
  }

  /** The number a digit string denotes (leading zeros allowed). */
  function ParseDecimal(s: string): nat
    requires AllDigits(s)
    decreases |s|
  {
    if |s| == 0 then 0 else ParseDecimal(s[..|s| - 1]) * 10 + DigitValue(s[|s| - 1])
  }

  function Zeros(n: nat): (s: string)
    ensures |s| == n && AllDigits(s)
    ensures forall i | 0 <= i < n :: s[i] == '0'
  {
    seq(n, _ => '0')
  }

  /** Zero-padded formatting: the decimal text of `n`, padded with zeros on the left to width `w`. */
  function ZeroPad(n: nat, width: nat): (s: string)
    ensures AllDigits(s)
  {
    var t := DecimalText(n);
    if |t| < width then Zeros(width - |t|) + t else t
  }

  // ---------------------------------------------------------------------------
  // Lemmas

  /** Reading back the decimal text of `n` gives `n`. */
  lemma {:induction false} ParseDecimalText(n: nat)
    ensures ParseDecimal(DecimalText(n)) == n
    decreases n
  {
    if n >= 10 {
      var s := DecimalText(n);
      ParseDecimalText(n / 10);
      assert s[..|s| - 1] == DecimalText(n / 10);
    }
  }

  /** Distinct numbers have distinct decimal texts. */
  lemma DecimalTextInjective(m: nat, n: nat)
    requires DecimalText(m) == DecimalText(n)
    ensures m == n
  {
    ParseDecimalText(m);
    ParseDecimalText(n);
  }

  /** A number below 10^k has at most k digits. */
  lemma {:induction false} DecimalTextLength(n: nat, k: nat)
    requires n < Pow10(k)
    ensures |DecimalText(n)| <= k || (n == 0 && k == 0)
    decreases n
  {
    if n >= 10 {
      assert k >= 1;
      assert n / 10 < Pow10(k - 1);
      DecimalTextLength(n / 10, k - 1);
    }
  }

  /** Reading splits at any point: the left part is shifted by the length of the right part. */
  lemma {:induction false} ParseAppend(a: string, b: string)
    requires AllDigits(a) && AllDigits(b)
    ensures AllDigits(a + b)
    ensures ParseDecimal(a + b) == ParseDecimal(a) * Pow10(|b|) + ParseDecimal(b)
    decreases |b|
  {
    var ab := a + b;
    assert AllDigits(ab);
    if |b| > 0 {
      var b' := b[..|b| - 1];
      assert ab[..|ab| - 1] == a + b';
      ParseAppend(a, b');
      assert ParseDecimal(ab) == (ParseDecimal(a) * Pow10(|b'|) + ParseDecimal(b')) * 10 + DigitValue(b[|b| - 1]);
      assert ParseDecimal(a) * Pow10(|b'|) * 10 == ParseDecimal(a) * Pow10(|b|);
    } else {
      assert ab == a;
    }
  }

  lemma {:induction false} ParseZeros(n: nat)
    ensures ParseDecimal(Zeros(n)) == 0
    decreases n
  {
    if n > 0 {
      assert Zeros(n)[..n - 1] == Zeros(n - 1);
      ParseZeros(n - 1);
    }
  }

  /** Zero padding does not change the value read back. */
  lemma ZeroPadRoundTrip(n: nat, width: nat)
    ensures ParseDecimal(ZeroPad(n, width)) == n
  {
    var t := DecimalText(n);
    ParseDecimalText(n);
    if |t| < width {
      var z := Zeros(width - |t|);
      ParseAppend(z, t);
      ParseZeros(width - |t|);
      assert ParseDecimal(z + t) == 0 * Pow10(|t|) + n;
    }
  }

  /** A number below 10^w is padded to exactly `w` characters. */
  lemma ZeroPadWidth(n: nat, width: nat)
    requires 0 < width && n < Pow10(width)
    ensures |ZeroPad(n, width)| == width
  {
    DecimalTextLength(n, width);
  }

  /** A digit string of length `k` denotes a number below 10^k. */
  lemma {:induction false} ParseBound(s: string)
    requires AllDigits(s)
    ensures ParseDecimal(s) < Pow10(|s|)
    decreases |s|
  {
    if |s| > 0 {
      ParseBound(s[..|s| - 1]);
    }
  }
}
