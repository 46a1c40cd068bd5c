/** Micro-unit money strings (packages/types/src/money.ts). */
module Money {
  import opened Strings
  import opened Decimals

  const MICRO_PER_UNIT: nat := 1000000

  datatype Parsed = Micro(value: int) | InvalidDecimal(text: string)

  /** `\d+(\.\d+)?` */
  predicate IsUnsigned(s: string) {
    var dot := IndexOf(s, '.');
    && dot > 0 && AllDigits(s[..dot])
    && (dot < |s| ==> dot + 1 < |s| && AllDigits(s[dot + 1..]))
  }

  predicate IsNegative(s: string) { s != "" && s[0] == '-' }

  function Unsigned(s: string): string { if IsNegative(s) then s[1..] else s }

  /** A decimal string to micro units: digits past the sixth decimal are dropped. */
  function ToMicro(s: string): Parsed {
    var u := Unsigned(s);
    if !IsUnsigned(u) then InvalidDecimal(s)
    else
      var dot := IndexOf(u, '.');
      var frac := if dot < |u| then u[dot + 1..] else "";
      var padded := (frac + "000000")[..6];
      var combined := Value(u[..dot]) * MICRO_PER_UNIT + Value(padded);
      Micro(if IsNegative(s) then -combined else combined)
  }

  function Body(abs: nat): string {
    var fracStr := TrimZeros(PadStart(Print(abs % MICRO_PER_UNIT), 6), 0);
    if |fracStr| > 0 then Print(abs / MICRO_PER_UNIT) + ['.'] + fracStr else Print(abs / MICRO_PER_UNIT)
  }

  function FromMicro(m: int): string {
    if m < 0 then ['-'] + Body(-m) else Body(m)
  }

  lemma NoDot(s: string)
    requires AllDigits(s)
    ensures '.' !in s && !IsNegative(s)
  {
  }

  lemma SixDigits(n: nat)
    requires n < MICRO_PER_UNIT
    ensures var s := PadStart(Print(n), 6); |s| == 6 && AllDigits(s) && Value(s) == n
  {
    assert Pow10(2) == 100 && Pow10(4) == 100 * Pow10(2) && Pow10(6) == 100 * Pow10(4);
    PadStartValue(n, 6);
  }

  lemma ReadWithFraction(whole: string, frac: string)
    requires whole != "" && AllDigits(whole) && frac != "" && AllDigits(frac)
    ensures var s := whole + ['.'] + frac;
            && IsUnsigned(s) && !IsNegative(s)
            && ToMicro(s) == Micro(Value(whole) * MICRO_PER_UNIT + Value((frac + "000000")[..6]))
  {
    hide Value;
    var s := whole + ['.'] + frac;
    NoDot(whole);
    IndexOfConcat(whole, '.', frac);
    assert s[..|whole|] == whole && s[|whole| + 1..] == frac;
    assert s[0] == whole[0];
  }

  lemma ReadWhole(whole: string)
    requires whole != "" && AllDigits(whole)
    ensures IsUnsigned(whole) && !IsNegative(whole)
    ensures ToMicro(whole) == Micro(Value(whole) * MICRO_PER_UNIT + Value("000000"))
  {
    hide Value;
    NoDot(whole);
    IndexOfNone(whole, '.');
    assert whole[..|whole|] == whole;
    assert ("" + "000000")[..6] == "000000";
  }

  lemma BodyParses(abs: nat)
    ensures ToMicro(Body(abs)) == Micro(abs)
    ensures !IsNegative(Body(abs)) && IsUnsigned(Body(abs))
  {
    hide Value, ToMicro, IsUnsigned;
    var whole, n := Print(abs / MICRO_PER_UNIT), abs % MICRO_PER_UNIT;
    var padded := PadStart(Print(n), 6);
    SixDigits(n);
    var frac := TrimZeros(padded, 0);
    assert "000000" == Zeros(6);
    assert frac + "000000" == padded + Zeros(|frac|);
    assert (frac + "000000")[..6] == padded;
    if |frac| > 0 {
      ReadWithFraction(whole, frac);
    } else {
      ReadWhole(whole);
      assert padded == Zeros(6);
    }
  }

  lemma Negated(s: string, v: int)
    requires ToMicro(s) == Micro(v) && !IsNegative(s)
    ensures ToMicro(['-'] + s) == Micro(-v)
  {
    assert (['-'] + s)[1..] == s;
  }

  /** Printing an amount and reading it back gives the amount, for every integer. */
  lemma RoundTrip(m: int)
    ensures ToMicro(FromMicro(m)) == Micro(m)
  {
    hide ToMicro, Body;
    if m < 0 {
      BodyParses(-m);
      Negated(Body(-m), -m);
    } else {
      BodyParses(m);
    }
  }

  /** Digits, or digits, a point and digits. */
  ghost predicate Decimal(u: string, whole: string, frac: string) {
    && whole != "" && AllDigits(whole) && AllDigits(frac)
    && u == if frac == "" then whole else whole + ['.'] + frac
  }

  lemma UnsignedIff(u: string)
    ensures IsUnsigned(u) <==> exists whole, frac :: Decimal(u, whole, frac)
  {
    if IsUnsigned(u) {
      var dot := IndexOf(u, '.');
      var frac := if dot < |u| then u[dot + 1..] else "";
      assert dot < |u| ==> u == u[..dot] + ['.'] + u[dot + 1..];
      assert dot == |u| ==> u == u[..dot];
      assert Decimal(u, u[..dot], frac);
    }
    if whole, frac :| Decimal(u, whole, frac) {
      if frac == "" { ReadWhole(whole); } else { ReadWithFraction(whole, frac); }
    }
  }

  /** Exactly these texts are read: an optional minus, digits, and optionally a point with digits. */
  lemma ReadIff(s: string)
    ensures ToMicro(s).Micro? <==>
            exists whole, frac :: Decimal(s, whole, frac) || (s != "" && s[0] == '-' && Decimal(s[1..], whole, frac))
  {
    hide IsUnsigned;
    UnsignedIff(Unsigned(s));
    if !IsNegative(s) { assert s != "" ==> s[0] != '-'; }
    forall whole, frac | Decimal(s, whole, frac) ensures !IsNegative(s) { NoDot(whole); }
  }

  /** From here up the runtime writes numbers with an exponent. */
  const EXPONENT_FROM: int := 1000000000000000000000

  /** The text the runtime gives a whole number below that. */
  function NumberText(n: int): string
    requires -EXPONENT_FROM < n < EXPONENT_FROM
  {
    if n < 0 then ['-'] + Print(-n) else Print(n)
  }

  /** A whole number of units, passed as a number, is read exactly as long as its text has no exponent. */
  lemma WholeNumber(n: int)
    requires -EXPONENT_FROM < n < EXPONENT_FROM
    ensures ToMicro(NumberText(n)) == Micro(n * MICRO_PER_UNIT)
  {
    var abs := if n < 0 then -n else n;
    ReadWhole(Print(abs));
    ValueZeros(6);
    assert "000000" == Zeros(6);
    if n < 0 { Negated(Print(abs), abs * MICRO_PER_UNIT); }
  }

  /** A text with an exponent, as larger and very small numbers have, is refused. */
  lemma ExponentRefused(text: string)
    requires 'e' in text
    ensures ToMicro(text) == InvalidDecimal(text)
  {
    var u := Unsigned(text);
    assert 'e' in u by {
      var i :| 0 <= i < |text| && text[i] == 'e';
      if IsNegative(text) { assert u[i - 1] == 'e'; }
    }
    var i :| 0 <= i < |u| && u[i] == 'e';
    var dot := IndexOf(u, '.');
    if i < dot { assert !IsDigit(u[..dot][i]); }
    if i > dot { assert !IsDigit(u[dot + 1..][i - dot - 1]); }
  }

  /** A decimal is read to the micro unit, further digits dropped: with `n` digits after the point, the
      amount is the largest that a millionth-grid number below it allows. */
  lemma ReadsDecimal(whole: string, frac: string)
    requires whole != "" && AllDigits(whole) && frac != "" && AllDigits(frac)
    ensures var r := ToMicro(whole + ['.'] + frac); var scale := Pow10(|frac|);
            && r.Micro? && r.value >= 0
            && r.value * scale <= 1000000 * (Value(whole) * scale + Value(frac)) < (r.value + 1) * scale
  {
    hide Value, Pow10, ToMicro;
    ReadWithFraction(whole, frac);
    var v, p := Value((frac + "000000")[..6]), Pow10(|frac|);
    SixKept(frac);
    Grouped(Value(whole), v, Value(frac), p);
  }

  lemma Grouped(w: nat, v: nat, f: nat, p: nat)
    requires v * p <= 1000000 * f < (v + 1) * p
    ensures (w * 1000000 + v) * p <= 1000000 * (w * p + f) < (w * 1000000 + v + 1) * p
  {
    assert (w * 1000000 + v) * p == 1000000 * (w * p) + v * p;
    assert (w * 1000000 + v + 1) * p == 1000000 * (w * p) + (v + 1) * p;
  }

  lemma {:induction false} PowAdds(a: nat, b: nat)
    ensures Pow10(a + b) == Pow10(a) * Pow10(b)
  {
    PowNext(a);
    PowNext(a + b);
    hide Pow10;
    if a > 0 {
      PowAdds(a - 1, b);
      Tenfold(Pow10(a - 1), Pow10(b));
    }
  }

  lemma PowNext(k: nat)
    ensures Pow10(k) == if k == 0 then 1 else 10 * Pow10(k - 1)
  {
  }

  lemma Tenfold(x: nat, y: nat)
    ensures 10 * (x * y) == (10 * x) * y
  {
  }

  lemma SixKept(frac: string)
    requires frac != "" && AllDigits(frac)
    ensures AllDigits((frac + "000000")[..6])
    ensures var v, p := Value((frac + "000000")[..6]), Pow10(|frac|); v * p <= 1000000 * Value(frac) < (v + 1) * p
  {
    hide Value, Pow10;
    if |frac| >= 6 { LongFraction(frac); } else { ShortFraction(frac); }
  }

  lemma SixZeros()
    ensures Pow10(6) == 1000000
  {
    assert Pow10(2) == 100 && Pow10(4) == 100 * Pow10(2) && Pow10(6) == 100 * Pow10(4);
  }

  lemma LongFraction(frac: string)
    requires |frac| >= 6 && AllDigits(frac)
    ensures AllDigits((frac + "000000")[..6])
    ensures var v, p := Value((frac + "000000")[..6]), Pow10(|frac|); v * p <= 1000000 * Value(frac) < (v + 1) * p
  {
    hide Value, Pow10;
    var n, head, tail := |frac|, frac[..6], frac[6..];
    assert frac == head + tail && (frac + "000000")[..6] == head;
    ValueConcat(head, tail);
    ValueBound(tail);
    SixZeros();
    PowAdds(6, n - 6);
    Truncated(Value(head), Pow10(n - 6), Value(tail), Pow10(n));
  }

  lemma ShortFraction(frac: string)
    requires frac != "" && |frac| < 6 && AllDigits(frac)
    ensures AllDigits((frac + "000000")[..6])
    ensures var v, p := Value((frac + "000000")[..6]), Pow10(|frac|); v * p <= 1000000 * Value(frac) < (v + 1) * p
  {
    hide Value, Pow10;
    var n, pad := |frac|, Zeros(6 - |frac|);
    assert (frac + "000000")[..6] == frac + pad;
    ValueConcat(frac, pad);
    ValueZeros(6 - n);
    SixZeros();
    PowAdds(6 - n, n);
    Padded(Value(frac), Pow10(6 - n), Pow10(n));
  }

  lemma Truncated(h: nat, q: nat, t: nat, p: nat)
    requires t < q && p == 1000000 * q
    ensures h * p <= 1000000 * (h * q + t) < (h + 1) * p
  {
    assert h * p == 1000000 * (h * q) && (h + 1) * p == 1000000 * (h * q) + 1000000 * q;
  }

  lemma Padded(f: nat, q: nat, p: nat)
    requires p > 0 && q * p == 1000000
    ensures (f * q + 0) * p <= 1000000 * f < (f * q + 0 + 1) * p
  {
    assert (f * q) * p == f * (q * p);
  }

  /** Hence no two amounts print alike. */
  lemma FromMicroInjective(m: int, n: int)
    requires FromMicro(m) == FromMicro(n)
    ensures m == n
  {
    hide ToMicro, FromMicro;
    RoundTrip(m);
    RoundTrip(n);
  }
}
