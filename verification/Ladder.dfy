/** The quote ladder (packages/types/src/odds.ts) and its second copy
    (packages/types/src/custom-events.ts). Prices are exact reals; both of the source's
    rounding epsilons are kept. */
module Ladder {

  datatype Band = Band(below: real, step: real)

  /** The bounded bands; above the last one the step is `TAIL_STEP`. */
  const LADDER_BANDS: seq<Band> :=
    [Band(10.0, 0.01), Band(20.0, 0.1), Band(50.0, 0.5), Band(100.0, 1.0)]
  const TAIL_STEP: real := 5.0
  const LADDER_FLOOR: real := 1.01
  const ODDS_SCALE: real := 10000.0
  const RUNG_DUST: real := 0.000000001
  const GRID_DUST: real := 0.000001

  /** First matching band, in table order. */
  function StepIn(bands: seq<Band>, odds: real): real {
    if bands == [] then TAIL_STEP
    else if odds < bands[0].below then bands[0].step
    else StepIn(bands[1..], odds)
  }

  function LadderStep(odds: real): (step: real)
    ensures step == if odds < 10.0 then 0.01 else if odds < 20.0 then 0.1
                    else if odds < 50.0 then 0.5 else if odds < 100.0 then 1.0 else 5.0
  {
    var b := LADDER_BANDS;
    assert b[1..][1..] == b[2..] && b[2..][1..] == b[3..] && b[3..][1..] == [];
    assert StepIn(b[3..], odds) == if odds < 100.0 then 1.0 else StepIn([], odds);
    assert StepIn(b[2..], odds) == if odds < 50.0 then 0.5 else StepIn(b[3..], odds);
    assert StepIn(b[1..], odds) == if odds < 20.0 then 0.1 else StepIn(b[2..], odds);
    StepIn(b, odds)
  }

  /** odds.ts: floor onto the 4-decimal grid, with the scaled epsilon. */
  function FloorToOddsDp(value: real): real {
    (value * ODDS_SCALE + GRID_DUST).Floor as real / ODDS_SCALE
  }

  /** custom-events.ts: the same floor without the epsilon. */
  function RoundDown(value: real): real {
    (value * ODDS_SCALE).Floor as real / ODDS_SCALE
  }

  function Rungs(n: real): int { (n / LadderStep(n) + RUNG_DUST).Floor }

  /** odds.ts `quoteOnLadder`. */
  function QuoteOnLadder(n: real): real {
    if n <= 0.0 then 0.0
    else if n < LADDER_FLOOR then FloorToOddsDp(n)
    else FloorToOddsDp(Rungs(n) as real * LadderStep(n))
  }

  /** custom-events.ts `quoteOnLadder`. */
  function CustomQuoteOnLadder(n: real): real {
    if n <= 0.0 then 0.0
    else if n < LADDER_FLOOR then RoundDown(n)
    else RoundDown(Rungs(n) as real * LadderStep(n))
  }

  /** A price of `u` ten-thousandths, the resolution prices are stored at. */
  function Price(u: int): real { u as real / ODDS_SCALE }

  /** How many steps make up one unit of odds. */
  ghost function PerUnit(odds: real): (k: real)
    ensures k * LadderStep(odds) == 1.0
  {
    if odds < 10.0 then 100.0 else if odds < 20.0 then 10.0
    else if odds < 50.0 then 2.0 else if odds < 100.0 then 1.0 else 0.2
  }

  /** `n` is not one of the values a rounding epsilon would lift onto the next rung. */
  ghost predicate DustFree(n: real)
    requires n > 0.0
  {
    if n < LADDER_FLOOR then n * ODDS_SCALE + GRID_DUST < (n * ODDS_SCALE).Floor as real + 1.0
    else n * PerUnit(n) + RUNG_DUST < (n * PerUnit(n)).Floor as real + 1.0
  }

  /** The number of ten-thousandths in the quote of `n`, band by band. */
  ghost function QuoteUnits(n: real): int
    requires n >= LADDER_FLOOR
  {
    if n < 10.0 then 100 * (n * 100.0 + RUNG_DUST).Floor
    else if n < 20.0 then 1000 * (n * 10.0 + RUNG_DUST).Floor
    else if n < 50.0 then 5000 * (n * 2.0 + RUNG_DUST).Floor
    else if n < 100.0 then 10000 * (n * 1.0 + RUNG_DUST).Floor
    else 50000 * (n * 0.2 + RUNG_DUST).Floor
  }

  lemma FloorOfInteger(v: real, k: int)
    requires v * ODDS_SCALE == k as real
    ensures FloorToOddsDp(v) == v && RoundDown(v) == v
  {
    assert (v * ODDS_SCALE + GRID_DUST).Floor == k;
    assert (v * ODDS_SCALE).Floor == k;
  }

  lemma RungsIs(n: real)
    ensures Rungs(n) == (n * PerUnit(n) + RUNG_DUST).Floor
  {
    var s, k := LadderStep(n), PerUnit(n);
    assert (n * k) * s == n * (k * s);
    assert (n * k) * s / s == n * k;
  }

  /** Above the floor both copies land on the rung itself. */
  lemma QuoteIs(n: real)
    requires n >= LADDER_FLOOR
    ensures QuoteOnLadder(n) == CustomQuoteOnLadder(n) == Price(QuoteUnits(n))
  {
    RungsIs(n);
    FloorOfInteger(Rungs(n) as real * LadderStep(n), QuoteUnits(n));
  }

  lemma BelowFloor(n: real)
    requires 0.0 < n < LADDER_FLOOR
    ensures QuoteOnLadder(n) == Price((n * ODDS_SCALE + GRID_DUST).Floor)
    ensures CustomQuoteOnLadder(n) == Price((n * ODDS_SCALE).Floor)
    ensures (n * ODDS_SCALE + GRID_DUST).Floor == (n * ODDS_SCALE).Floor + (if DustFree(n) then 0 else 1)
  {
  }

  /** A quote gains at most the epsilon and never loses a whole step. */
  lemma QuoteBounds(n: real)
    requires n > 0.0
    ensures n - LadderStep(n) < QuoteOnLadder(n)
    ensures QuoteOnLadder(n) <= n + (if n < LADDER_FLOOR then 0.0000000001 else RUNG_DUST * LadderStep(n))
    ensures n >= LADDER_FLOOR ==> QuoteOnLadder(n) >= LADDER_FLOOR
  {
    hide QuoteOnLadder, CustomQuoteOnLadder;
    if n < LADDER_FLOOR { BelowFloor(n); } else { QuoteIs(n); }
  }

  /** A quote stays in the band of its price, or sits on the band's upper edge. */
  lemma UnitsInBand(n: real)
    requires n >= LADDER_FLOOR
    ensures n < 10.0 ==> 10100 <= QuoteUnits(n) <= 100000
    ensures 10.0 <= n < 20.0 ==> 100000 <= QuoteUnits(n) <= 200000
    ensures 20.0 <= n < 50.0 ==> 200000 <= QuoteUnits(n) <= 500000
    ensures 50.0 <= n < 100.0 ==> 500000 <= QuoteUnits(n) <= 1000000
    ensures 100.0 <= n ==> 1000000 <= QuoteUnits(n)
  {
    if n < 10.0 { assert 101 <= (n * 100.0 + RUNG_DUST).Floor <= 1000; }
    else if n < 20.0 { assert 100 <= (n * 10.0 + RUNG_DUST).Floor <= 200; }
    else if n < 50.0 { assert 40 <= (n * 2.0 + RUNG_DUST).Floor <= 100; }
    else if n < 100.0 { assert 50 <= (n * 1.0 + RUNG_DUST).Floor <= 100; }
    else { assert 20 <= (n * 0.2 + RUNG_DUST).Floor; }
  }

  lemma UnitsMonotone(n: real, m: real)
    requires LADDER_FLOOR <= n <= m
    ensures QuoteUnits(n) <= QuoteUnits(m)
  {
    if LadderStep(n) == LadderStep(m) {
      if m < 10.0 { assert (n * 100.0 + RUNG_DUST).Floor <= (m * 100.0 + RUNG_DUST).Floor; }
      else if m < 20.0 { assert (n * 10.0 + RUNG_DUST).Floor <= (m * 10.0 + RUNG_DUST).Floor; }
      else if m < 50.0 { assert (n * 2.0 + RUNG_DUST).Floor <= (m * 2.0 + RUNG_DUST).Floor; }
      else if m < 100.0 { assert (n * 1.0 + RUNG_DUST).Floor <= (m * 1.0 + RUNG_DUST).Floor; }
      else { assert (n * 0.2 + RUNG_DUST).Floor <= (m * 0.2 + RUNG_DUST).Floor; }
      return;
    }
    hide QuoteUnits;
    UnitsInBand(n);
    UnitsInBand(m);
  }

  /** The ladder is monotone, across every band boundary. */
  lemma QuoteMonotone(n: real, m: real)
    requires n <= m
    ensures QuoteOnLadder(n) <= QuoteOnLadder(m)
  {
    if n <= 0.0 {
      assert QuoteOnLadder(n) == 0.0;
      if m > 0.0 { hide QuoteUnits; QuoteNonNegative(m); }
      return;
    }
    if m < LADDER_FLOOR {
      assert (n * ODDS_SCALE + GRID_DUST).Floor <= (m * ODDS_SCALE + GRID_DUST).Floor;
      return;
    }
    hide QuoteUnits, QuoteOnLadder, CustomQuoteOnLadder;
    QuoteIs(m);
    UnitsInBand(m);
    if n < LADDER_FLOOR {
      BelowFloor(n);
      assert (n * ODDS_SCALE + GRID_DUST).Floor <= 10100;
    } else {
      QuoteIs(n);
      UnitsMonotone(n, m);
    }
  }

  lemma QuoteNonNegative(m: real)
    requires m > 0.0
    ensures QuoteOnLadder(m) >= 0.0
  {
    hide QuoteUnits, QuoteOnLadder, CustomQuoteOnLadder;
    if m < LADDER_FLOOR { BelowFloor(m); } else { QuoteIs(m); UnitsInBand(m); }
  }

  /** `u` is a whole number of the steps that apply at the price `u` itself stands for. */
  ghost predicate IsRung(u: int) {
    if u < 100000 then u >= 10100 && u % 100 == 0
    else if u < 200000 then u % 1000 == 0
    else if u < 500000 then u % 5000 == 0
    else if u < 1000000 then u % 10000 == 0
    else u % 50000 == 0
  }

  lemma QuoteIsRung(n: real)
    requires n >= LADDER_FLOOR
    ensures IsRung(QuoteUnits(n))
  {
    UnitsInBand(n);
  }

  lemma RungFixed(u: int)
    requires IsRung(u)
    ensures Price(u) >= LADDER_FLOOR && QuoteUnits(Price(u)) == u
  {
    var q := Price(u);
    if q < 10.0 { FloorUnique(q * 100.0 + RUNG_DUST, u / 100); }
    else if q < 20.0 { FloorUnique(q * 10.0 + RUNG_DUST, u / 1000); }
    else if q < 50.0 { FloorUnique(q * 2.0 + RUNG_DUST, u / 5000); }
    else if q < 100.0 { FloorUnique(q * 1.0 + RUNG_DUST, u / 10000); }
    else { FloorUnique(q * 0.2 + RUNG_DUST, u / 50000); }
  }

  /** Quoting a quoted price changes nothing. */
  lemma QuoteIdempotent(n: real)
    ensures QuoteOnLadder(QuoteOnLadder(n)) == QuoteOnLadder(n)
  {
    if n <= 0.0 {
      return;
    }
    if n >= LADDER_FLOOR {
      hide QuoteUnits, QuoteOnLadder, CustomQuoteOnLadder;
      QuoteIs(n);
      QuoteIsRung(n);
      RungFixed(QuoteUnits(n));
      QuoteIs(QuoteOnLadder(n));
      return;
    }
    BelowFloor(n);
    var u := (n * ODDS_SCALE + GRID_DUST).Floor;
    assert QuoteOnLadder(n) == Price(u) && 0 <= u <= 10100;
    if u == 0 {
      return;
    }
    hide QuoteOnLadder, CustomQuoteOnLadder;
    if u == 10100 { QuoteIs(Price(u)); } else { BelowFloor(Price(u)); }
  }

  lemma UnitsVersusPrice(n: real)
    requires n >= LADDER_FLOOR
    ensures Price(QuoteUnits(n)) <= n <==> DustFree(n)
  {
    if n < 10.0 { FloorWithDust(n * 100.0); }
    else if n < 20.0 { FloorWithDust(n * 10.0); }
    else if n < 50.0 { FloorWithDust(n * 2.0); }
    else if n < 100.0 { FloorWithDust(n * 1.0); }
    else { FloorWithDust(n * 0.2); }
  }

  lemma FloorWithDust(x: real)
    ensures (x + RUNG_DUST).Floor as real <= x <==> x + RUNG_DUST < x.Floor as real + 1.0
  {
    var f := x.Floor;
    if x + RUNG_DUST < f as real + 1.0 {
      FloorUnique(x + RUNG_DUST, f);
    } else {
      FloorUnique(x + RUNG_DUST, f + 1);
    }
  }

  lemma FloorUnique(y: real, k: int)
    requires k as real <= y < k as real + 1.0
    ensures y.Floor == k
  {
    var f := y.Floor;
    assert f as real <= y < f as real + 1.0;
    assert (f - k) as real < 1.0 && (k - f) as real < 1.0;
  }

  /** A quote is at most its price exactly when the price is not within an epsilon below a rung. */
  lemma NeverRaisesIff(n: real)
    requires n > 0.0
    ensures QuoteOnLadder(n) <= n <==> DustFree(n)
  {
    hide QuoteUnits, QuoteOnLadder, CustomQuoteOnLadder;
    if n < LADDER_FLOOR {
      BelowFloor(n);
      return;
    }
    QuoteIs(n);
    UnitsVersusPrice(n);
  }

  /** Every stored price is free of the epsilons, so quoting it never raises it. */
  lemma StoredPriceNeverRaised(u: int)
    requires u > 0
    ensures DustFree(Price(u)) && QuoteOnLadder(Price(u)) <= Price(u)
    ensures Price(u) < LADDER_FLOOR ==> QuoteOnLadder(Price(u)) == Price(u)
  {
    hide QuoteUnits, QuoteOnLadder, CustomQuoteOnLadder;
    var n := Price(u);
    NeverRaisesIff(n);
    if n < LADDER_FLOOR {
      assert n * ODDS_SCALE == u as real;
      BelowFloor(n);
    } else if n < 10.0 {
      assert 100 * (n * 100.0).Floor + 100 >= u + 1;
    } else if n < 20.0 {
      assert 1000 * (n * 10.0).Floor + 1000 >= u + 1;
    } else if n < 50.0 {
      assert 5000 * (n * 2.0).Floor + 5000 >= u + 1;
    } else if n < 100.0 {
      assert 10000 * (n * 1.0).Floor + 10000 >= u + 1;
    } else {
      assert 50000 * (n * 0.2).Floor + 50000 >= u + 1;
    }
  }

  /** The two copies agree on a price exactly when it is not a sub-1.01 value that only the
      epsilon of odds.ts lifts to the next ten-thousandth. */
  lemma CopiesAgreeIff(n: real)
    ensures QuoteOnLadder(n) == CustomQuoteOnLadder(n)
            <==> n <= 0.0 || n >= LADDER_FLOOR || DustFree(n)
  {
    if n >= LADDER_FLOOR { QuoteIs(n); } else if n > 0.0 { BelowFloor(n); }
  }

  /** 1.00299999995 is quoted at 1.003 by one copy and 1.0029 by the other. */
  lemma CopiesDisagree()
    ensures QuoteOnLadder(1.00299999995) == 1.003
    ensures CustomQuoteOnLadder(1.00299999995) == 1.0029
  {
    assert (1.00299999995 * ODDS_SCALE + GRID_DUST).Floor == 10030;
    assert (1.00299999995 * ODDS_SCALE).Floor == 10029;
  }

  /** The second copy never exceeds its price by more than the rung epsilon, and stays at or
      above 1 for any price above 1. */
  lemma CustomQuoteBounds(n: real)
    requires n > 1.0
    ensures 1.0 <= CustomQuoteOnLadder(n) <= n + RUNG_DUST * LadderStep(n)
  {
    hide QuoteOnLadder, CustomQuoteOnLadder;
    if n < LADDER_FLOOR { BelowFloor(n); } else { QuoteIs(n); }
  }
}
