/** Rendering a price on the 4-decimal grid (packages/types/src/odds.ts). */
module OddsText {
  import opened Strings
  import opened Decimals
  import opened Ladder

  const UNITS: nat := 10000

  /** `units` ten-thousandths as text: four decimals, trailing zeros trimmed to a minimum of two. */
  function FormatUnits(units: nat): string {
    Print(units / UNITS) + ['.'] + TrimZeros(PadStart(Print(units % UNITS), 4), 2)
  }

  /** The number of ten-thousandths a decimal text with a point stands for. */
  function ReadUnits(s: string): int {
    var dot := IndexOf(s, '.');
    if dot == |s| || !AllDigits(s[..dot]) || !AllDigits(s[dot + 1..]) then -1
    else Value(s[..dot]) * UNITS + Value((s[dot + 1..] + "0000")[..4])
  }

  lemma FourDigits(n: nat)
    requires n < UNITS
    ensures var s := PadStart(Print(n), 4); |s| == 4 && AllDigits(s) && Value(s) == n
  {
    assert Pow10(2) == 100 && Pow10(4) == 100 * Pow10(2);
    PadStartValue(n, 4);
  }

  /** Rendering loses nothing: the text reads back as the same price, with two to four decimals. */
  lemma FormatRoundTrip(units: nat)
    ensures ReadUnits(FormatUnits(units)) == units
    ensures var s := FormatUnits(units); var dot := IndexOf(s, '.'); 2 <= |s| - dot - 1 <= 4
  {
    hide Value;
    var whole, padded := Print(units / UNITS), PadStart(Print(units % UNITS), 4);
    FourDigits(units % UNITS);
    var frac := TrimZeros(padded, 2);
    var s := FormatUnits(units);
    assert '.' !in whole;
    IndexOfConcat(whole, '.', frac);
    assert s[..|whole|] == whole && s[|whole| + 1..] == frac;
    assert "0000" == Zeros(4);
    assert frac + "0000" == padded + Zeros(|frac|);
    assert (frac + "0000")[..4] == padded;
  }

  /** Two prices render alike only if they are the same price. */
  lemma FormatInjective(a: nat, b: nat)
    requires FormatUnits(a) == FormatUnits(b)
    ensures a == b
  {
    hide FormatUnits, ReadUnits;
    FormatRoundTrip(a);
    FormatRoundTrip(b);
  }

  /** The number of ten-thousandths in a quoted price. */
  function UnitsOf(quoted: real): int { (quoted * ODDS_SCALE + GRID_DUST).Floor }

  lemma UnitsOfQuote(n: real)
    requires n > 0.0
    ensures UnitsOf(QuoteOnLadder(n)) >= 0 && QuoteOnLadder(n) == Price(UnitsOf(QuoteOnLadder(n)))
  {
    hide QuoteOnLadder, CustomQuoteOnLadder, QuoteUnits;
    if n < LADDER_FLOOR {
      BelowFloor(n);
      UnitsOfPrice((n * ODDS_SCALE + GRID_DUST).Floor);
    } else {
      QuoteIs(n);
      UnitsInBand(n);
      UnitsOfPrice(QuoteUnits(n));
    }
  }

  lemma UnitsOfPrice(u: int)
    ensures UnitsOf(Price(u)) == u
  {
    FloorUnique(Price(u) * ODDS_SCALE + GRID_DUST, u);
  }

  /** Em dash: what is shown when there is no usable price. */
  const ODDS_PLACEHOLDER: string := "\U{2014}"

  /** A price as shown to a bettor. */
  function FormatOddsDisplay(n: real): string {
    if n < 0.0 then ODDS_PLACEHOLDER
    else if n == 0.0 then FormatUnits(0)
    else UnitsOfQuote(n); FormatUnits(UnitsOf(QuoteOnLadder(n)))
  }

  /** What is shown reads back as exactly the ladder's quote, and showing it again changes nothing. */
  lemma DisplayShowsQuote(n: real)
    requires n > 0.0
    ensures ReadUnits(FormatOddsDisplay(n)) == UnitsOf(QuoteOnLadder(n)) >= 0
    ensures Price(ReadUnits(FormatOddsDisplay(n))) == QuoteOnLadder(n)
    ensures QuoteOnLadder(n) > 0.0 ==> FormatOddsDisplay(QuoteOnLadder(n)) == FormatOddsDisplay(n)
  {
    hide QuoteOnLadder, FormatUnits, ReadUnits;
    UnitsOfQuote(n);
    FormatRoundTrip(UnitsOf(QuoteOnLadder(n)));
    QuoteIdempotent(n);
  }

  /** No price shows a dash, a zero price two zeros. */
  lemma DisplayOfNone(n: real)
    ensures n < 0.0 ==> FormatOddsDisplay(n) == "\U{2014}"
    ensures FormatOddsDisplay(0.0) == "0.00"
  {
    assert Print(0) == "0";
    assert PadStart(Print(0), 4) == "0000" by { assert Zeros(3) == "000"; }
    assert TrimZeros("0000", 2) == TrimZeros("0000"[..3], 2) == TrimZeros("000"[..2], 2) == "00" by {
      assert "0000"[..3] == "000" && "000"[..2] == "00";
    }
  }
}
