/** Decimal digit strings: printing, reading, zero-padding and trailing-zero trimming. */
module Decimals {

  const DIGITS: string := "0123456789"

  predicate IsDigit(c: char) { '0' <= c <= '9' }

  predicate AllDigits(s: string) { forall i :: 0 <= i < |s| ==> IsDigit(s[i]) }

  function DigitValue(c: char): (d: nat)
    requires IsDigit(c)
    ensures d < 10
  {
    c as int - '0' as int
  }

  function Digit(d: nat): (c: char)
    requires d < 10
    ensures IsDigit(c) && DigitValue(c) == d
  {
    DIGITS[d]
  }

  function Value(s: string): nat
    requires AllDigits(s)
  {
    if s == "" then 0 else 10 * Value(s[..|s| - 1]) + DigitValue(s[|s| - 1])
  }

  /** Decimal rendering without leading zeros. */
  function Print(n: nat): (s: string)
    ensures AllDigits(s) && s != "" && Value(s) == n
    ensures |s| > 1 ==> s[0] != '0'
  {
    if n < 10 then [Digit(n)]
    else
      var head := Print(n / 10);
      var s := head + [Digit(n % 10)];
      assert s[..|s| - 1] == head;
      assert s[0] == head[0];
      assert head == "0" ==> Value(head[..0]) == 0;
      s
  }

  function Pow10(k: nat): (p: nat)
    ensures p > 0
  {
    if k == 0 then 1 else 10 * Pow10(k - 1)
  }

  function Zeros(k: nat): (s: string)
    ensures |s| == k && AllDigits(s) && forall i :: 0 <= i < k ==> s[i] == '0'
  {
    seq(k, _ => '0')
  }

  lemma ShiftDigit(a: nat, p: nat, b: nat, d: nat)
    ensures 10 * (a * p + b) + d == a * (10 * p) + (10 * b + d)
  {
  }

  lemma {:induction false} ValueConcat(a: string, b: string)
    requires AllDigits(a) && AllDigits(b)
    ensures AllDigits(a + b) && Value(a + b) == Value(a) * Pow10(|b|) + Value(b)
  {
    if b == "" {
      assert a + b == a;
      return;
    }
    var b0, d := b[..|b| - 1], DigitValue(b[|b| - 1]);
    assert (a + b)[..|a + b| - 1] == a + b0;
    assert Value(a + b) == 10 * Value(a + b0) + d;
    assert Value(b) == 10 * Value(b0) + d && Pow10(|b|) == 10 * Pow10(|b0|);
    hide Value, Pow10;
    ValueConcat(a, b0);
    ShiftDigit(Value(a), Pow10(|b0|), Value(b0), d);
  }

  lemma {:induction false} ValueZeros(k: nat)
    ensures Value(Zeros(k)) == 0
  {
    if k > 0 {
      assert Zeros(k)[..k - 1] == Zeros(k - 1);
      ValueZeros(k - 1);
    }
  }

  lemma {:induction false} ValueBound(s: string)
    requires AllDigits(s)
    ensures Value(s) < Pow10(|s|)
  {
    if s != "" {
      ValueBound(s[..|s| - 1]);
    }
  }

  /** Left-pad with zeros to at least `width` digits. */
  function PadStart(s: string, width: nat): string {
    if |s| >= width then s else Zeros(width - |s|) + s
  }

  lemma PadStartValue(n: nat, width: nat)
    requires n < Pow10(width)
    ensures var s := PadStart(Print(n), width); |s| >= 1 && AllDigits(s) && Value(s) == n
    ensures width >= 1 ==> |PadStart(Print(n), width)| == width
  {
    hide Value, Pow10, Print, Zeros;
    var d := Print(n);
    if |d| < width {
      ValueConcat(Zeros(width - |d|), d);
      ValueZeros(width - |d|);
      assert 0 * Pow10(|d|) + n == n;
    }
    if width >= 1 && |d| > width {
      PrintLong(n, width);
    }
  }

  lemma {:induction false} LeadingDigit(s: string)
    requires AllDigits(s) && s != "" && s[0] != '0'
    ensures Value(s) >= Pow10(|s| - 1)
  {
    if |s| == 1 {
      assert Value(s[..0]) == 0;
    } else {
      LeadingDigit(s[..|s| - 1]);
    }
  }

  lemma {:induction false} PowMonotone(a: nat, b: nat)
    requires a <= b
    ensures Pow10(a) <= Pow10(b)
    decreases b - a
  {
    if a < b { PowMonotone(a + 1, b); }
  }

  lemma PrintLong(n: nat, width: nat)
    requires |Print(n)| > width && width >= 1
    ensures n >= Pow10(width)
  {
    LeadingDigit(Print(n));
    PowMonotone(width, |Print(n)| - 1);
  }

  /** Drop trailing zeros, keeping at least `keep` characters. */
  function TrimZeros(s: string, keep: nat): (t: string)
    ensures |t| <= |s| && t == s[..|t|] && s == t + Zeros(|s| - |t|)
    ensures |s| >= keep ==> |t| >= keep
    ensures |t| > keep ==> t[|t| - 1] != '0'
  {
    if |s| > keep && s[|s| - 1] == '0' then
      var t := TrimZeros(s[..|s| - 1], keep);
      assert Zeros(|s| - |t|) == Zeros(|s| - 1 - |t|) + ['0'];
      assert s == s[..|s| - 1] + ['0'];
      t
    else s
  }
}
