/** Per-bettor price adjustment (services/ws-gateway/src/bettor-adjustment.ts). */
module BettorAdjustment {
  import opened Options
  import opened RealArith
  import opened Ladder
  import opened OddsText

  datatype Cascade = Cascade(
    globalBp: Option<int>,
    bySport: map<int, int>,
    byTournament: map<int, int>,
    byMatch: map<string, int>,
    empty: bool)

  /** One stored rule; the ids a scope does not use are null. */
  datatype Row = Row(scope: string, sportId: Option<int>, tournamentId: Option<int>, matchId: Option<string>, bp: int)

  /** What a rule can be about. */
  datatype Scope = Everything | Sport(sport: int) | Tournament(tournament: int) | Match(match_: string)

  predicate Concerns(r: Row, s: Scope) {
    match s
    case Everything => r.scope == "global"
    case Sport(id) => r.scope == "sport" && r.sportId == Some(id)
    case Tournament(id) => r.scope == "tournament" && r.tournamentId == Some(id)
    case Match(id) => r.scope == "match" && r.matchId == Some(id)
  }

  /** The last stored rule about `s`. */
  function LastRule(rows: seq<Row>, s: Scope): Option<int> {
    if rows == [] then None
    else if Concerns(rows[|rows| - 1], s) then Some(rows[|rows| - 1].bp)
    else LastRule(rows[..|rows| - 1], s)
  }

  /** Most specific scope first: match, tournament, sport, everything, else no adjustment. */
  function RuleFor(rows: seq<Row>, matchId: string, tournament: int, sport: int): int {
    var m, t, s, g := LastRule(rows, Match(matchId)), LastRule(rows, Tournament(tournament)),
                      LastRule(rows, Sport(sport)), LastRule(rows, Everything);
    if m.Some? then m.value else if t.Some? then t.value else if s.Some? then s.value
    else if g.Some? then g.value else 0
  }

  function Lookup<K, V>(m: map<K, V>, k: K): Option<V> { if k in m then Some(m[k]) else None }

  function ResolveBp(c: Cascade, matchId: string, tournament: int, sport: int): int {
    if c.empty then 0
    else if matchId in c.byMatch then c.byMatch[matchId]
    else if tournament in c.byTournament then c.byTournament[tournament]
    else if sport in c.bySport then c.bySport[sport]
    else if c.globalBp.Some? then c.globalBp.value else 0
  }

  /** Fill the lookup maps from the stored rows. Resolving against them gives, for every event,
      the rule of the most specific scope that has one. */
  method LoadCascade(rows: seq<Row>) returns (c: Cascade)
    ensures c.empty <==> rows == []
    ensures forall m, t, s :: ResolveBp(c, m, t, s) == RuleFor(rows, m, t, s)
  {
    if rows == [] { return Cascade(None, map[], map[], map[], true); }
    c := Cascade(None, map[], map[], map[], false);
    for i := 0 to |rows|
      invariant !c.empty && c.globalBp == LastRule(rows[..i], Everything)
      invariant forall k :: Lookup(c.bySport, k) == LastRule(rows[..i], Sport(k))
      invariant forall k :: Lookup(c.byTournament, k) == LastRule(rows[..i], Tournament(k))
      invariant forall k :: Lookup(c.byMatch, k) == LastRule(rows[..i], Match(k))
    {
      var r := rows[i];
      assert rows[..i + 1][..i] == rows[..i];
      if r.scope == "global" {
        c := c.(globalBp := Some(r.bp));
      } else if r.scope == "sport" {
        if r.sportId.Some? { c := c.(bySport := c.bySport[r.sportId.value := r.bp]); }
      } else if r.scope == "tournament" {
        if r.tournamentId.Some? { c := c.(byTournament := c.byTournament[r.tournamentId.value := r.bp]); }
      } else if r.scope == "match" {
        if r.matchId.Some? { c := c.(byMatch := c.byMatch[r.matchId.value := r.bp]); }
      }
    }
    assert rows[..|rows|] == rows;
    forall m, t, s ensures ResolveBp(c, m, t, s) == RuleFor(rows, m, t, s) {
      assert Lookup(c.byMatch, m) == LastRule(rows, Match(m));
      assert Lookup(c.byTournament, t) == LastRule(rows, Tournament(t));
      assert Lookup(c.bySport, s) == LastRule(rows, Sport(s));
    }
  }

  // ----- the adjusted price -----

  const ADJUSTED_ODDS_FLOOR: real := 1.001

  /** The published probability counts only when it lies strictly between 0 and 1. */
  function FairCeiling(p: Option<real>): Option<real> {
    if p.Some? && 0.0 < p.value < 1.0 then Some(1.0 / p.value) else None
  }

  function Scaled(raw: real, bp: int): real { raw * (1.0 + bp as real / 10000.0) }

  /** Multiply, then clamp to the fair price, then lift to the floor. */
  function Clamped(raw: real, fair: Option<real>, bp: int): (adjusted: real)
    ensures adjusted >= ADJUSTED_ODDS_FLOOR
  {
    var scaled := Scaled(raw, bp);
    var capped := if fair.Some? && scaled > fair.value then fair.value else scaled;
    if capped < ADJUSTED_ODDS_FLOOR then ADJUSTED_ODDS_FLOOR else capped
  }

  function AdjustedUnits(raw: real, fair: Option<real>, bp: int): (units: int)
    ensures units >= 0
  {
    var adjusted := Clamped(raw, fair, bp);
    UnitsOfQuote(adjusted);
    UnitsOf(QuoteOnLadder(adjusted))
  }

  /** `read` stands for the runtime's float parser; `None` is what it cannot read as finite. */
  function ApplyAdjustment(rawOdds: string, probability: Option<string>, bp: int, read: string -> Option<real>): string {
    if bp == 0 then rawOdds
    else if read(rawOdds).None? || read(rawOdds).value <= 0.0 then rawOdds
    else
      var p := if probability.Some? && probability.value != "" then read(probability.value) else None;
      FormatUnits(AdjustedUnits(read(rawOdds).value, FairCeiling(p), bp))
  }

  lemma QuotedPrice(raw: real, fair: Option<real>, bp: int)
    ensures Price(AdjustedUnits(raw, fair, bp)) == QuoteOnLadder(Clamped(raw, fair, bp))
  {
    UnitsOfQuote(Clamped(raw, fair, bp));
  }

  lemma FloorIsStored()
    ensures QuoteOnLadder(ADJUSTED_ODDS_FLOOR) == ADJUSTED_ODDS_FLOOR
  {
    hide QuoteOnLadder;
    assert ADJUSTED_ODDS_FLOOR == Price(10010);
    StoredPriceNeverRaised(10010);
  }

  /** An adjusted price is never below 1.001. */
  lemma AdjustedAtLeastFloor(raw: real, fair: Option<real>, bp: int)
    ensures AdjustedUnits(raw, fair, bp) >= 10010
  {
    hide QuoteOnLadder, UnitsOf, AdjustedUnits;
    QuotedPrice(raw, fair, bp);
    FloorIsStored();
    QuoteMonotone(ADJUSTED_ODDS_FLOOR, Clamped(raw, fair, bp));
  }

  lemma ClampedMonotone(raw: real, fair: Option<real>, bp: int, bp': int)
    requires raw > 0.0 && bp <= bp'
    ensures Clamped(raw, fair, bp) <= Clamped(raw, fair, bp')
  {
    var x, y := 1.0 + bp as real / 10000.0, 1.0 + bp' as real / 10000.0;
    ProductNonNegative(raw, y - x);
    assert raw * (y - x) == raw * y - raw * x;
  }

  /** A more generous rule never gives a shorter price. */
  lemma AdjustedMonotone(raw: real, fair: Option<real>, bp: int, bp': int)
    requires raw > 0.0 && bp <= bp'
    ensures AdjustedUnits(raw, fair, bp) <= AdjustedUnits(raw, fair, bp')
  {
    hide QuoteOnLadder, UnitsOf, AdjustedUnits, Clamped;
    QuotedPrice(raw, fair, bp);
    QuotedPrice(raw, fair, bp');
    ClampedMonotone(raw, fair, bp, bp');
    QuoteMonotone(Clamped(raw, fair, bp), Clamped(raw, fair, bp'));
  }

  /** No rule can take a price past fair odds, up to the ladder's rung epsilon; without the
      epsilon when fair odds are free of it. A fair price under the floor is the one exception:
      there the floor wins. */
  lemma NeverPastFairOdds(raw: real, fair: real, bp: int)
    requires fair > 0.0
    ensures fair >= ADJUSTED_ODDS_FLOOR ==>
              Price(AdjustedUnits(raw, Some(fair), bp)) <= fair + RUNG_DUST * LadderStep(fair) + 0.0000000001
    ensures DustFree(fair) ==> (Price(AdjustedUnits(raw, Some(fair), bp)) <= fair <==> fair >= ADJUSTED_ODDS_FLOOR)
  {
    hide QuoteOnLadder, UnitsOf, AdjustedUnits, DustFree;
    QuotedPrice(raw, Some(fair), bp);
    FloorIsStored();
    if fair >= ADJUSTED_ODDS_FLOOR {
      assert Clamped(raw, Some(fair), bp) <= fair;
      QuoteMonotone(Clamped(raw, Some(fair), bp), fair);
      QuoteBounds(fair);
      NeverRaisesIff(fair);
    } else {
      assert Clamped(raw, Some(fair), bp) == ADJUSTED_ODDS_FLOOR;
    }
  }

  /** Whatever the raw price and the rule, the adjusted price stays at or below fair odds: exactly
      when fair odds are at least 1.001 and not within an epsilon below a rung. */
  lemma NeverPastFairIff(fair: real)
    requires fair > 0.0
    ensures (forall raw: real, bp: int :: Price(AdjustedUnits(raw, Some(fair), bp)) <= fair) <==>
            fair >= ADJUSTED_ODDS_FLOOR && DustFree(fair)
  {
    hide QuoteOnLadder, UnitsOf, AdjustedUnits, DustFree;
    if fair >= ADJUSTED_ODDS_FLOOR && DustFree(fair) {
      forall raw: real, bp: int ensures Price(AdjustedUnits(raw, Some(fair), bp)) <= fair {
        NeverPastFairOdds(raw, fair, bp);
      }
    }
    if forall raw: real, bp: int :: Price(AdjustedUnits(raw, Some(fair), bp)) <= fair {
      assert Price(AdjustedUnits(fair, Some(fair), 1)) <= fair;
      QuotedPrice(fair, Some(fair), 1);
      AtCeiling(fair);
      FloorIsStored();
      NeverRaisesIff(fair);
    }
  }

  lemma AtCeiling(fair: real)
    requires fair > 0.0
    ensures Clamped(fair, Some(fair), 1) == if fair < ADJUSTED_ODDS_FLOOR then ADJUSTED_ODDS_FLOOR else fair
  {
    assert fair * (1.0 + 1.0 / 10000.0) > fair;
  }

  /** The text a bettor is sent reads back as the adjusted price. */
  lemma AdjustmentReadsBack(rawOdds: string, probability: Option<string>, bp: int, read: string -> Option<real>)
    requires bp != 0 && read(rawOdds).Some? && read(rawOdds).value > 0.0
    ensures var p := if probability.Some? && probability.value != "" then read(probability.value) else None;
            ReadUnits(ApplyAdjustment(rawOdds, probability, bp, read))
            == AdjustedUnits(read(rawOdds).value, FairCeiling(p), bp) >= 10010
  {
    hide AdjustedUnits, FormatUnits, ReadUnits;
    var p := if probability.Some? && probability.value != "" then read(probability.value) else None;
    AdjustedAtLeastFloor(read(rawOdds).value, FairCeiling(p), bp);
    FormatRoundTrip(AdjustedUnits(read(rawOdds).value, FairCeiling(p), bp));
  }

  /** The rule is in basis points: away from the ceiling and the floor, the price sent is the raw price
      times (10000 + bp) / 10000, put on its rung, so less than one step below that product and above
      it by no more than the ladder's epsilon. */
  lemma ScaledByBasisPoints(rawOdds: string, probability: Option<string>, bp: int, read: string -> Option<real>)
    requires bp != 0 && read(rawOdds).Some? && read(rawOdds).value > 0.0
    requires var x := read(rawOdds).value * (10000.0 + bp as real) / 10000.0;
             x >= 1.001 && (probability.Some? && read(probability.value).Some? && 0.0 < read(probability.value).value < 1.0 ==>
                              x * read(probability.value).value <= 1.0)
    ensures var x, sent := read(rawOdds).value * (10000.0 + bp as real) / 10000.0,
                           ReadUnits(ApplyAdjustment(rawOdds, probability, bp, read)) as real / 10000.0;
            x - LadderStep(x) < sent <= x + 0.000000001 * LadderStep(x) + 0.0000000001
  {
    hide QuoteOnLadder, AdjustedUnits, FormatUnits, ReadUnits, LadderStep, Clamped, FairCeiling;
    var raw, p := read(rawOdds).value, if probability.Some? && probability.value != "" then read(probability.value) else None;
    var x := raw * (10000.0 + bp as real) / 10000.0;
    UnderCeiling(x, p);
    ClampedIs(raw, FairCeiling(p), bp, x);
    AdjustmentReadsBack(rawOdds, probability, bp, read);
    QuotedPrice(raw, FairCeiling(p), bp);
    NearQuote(AdjustedUnits(raw, FairCeiling(p), bp), x);
  }

  lemma ClampedIs(raw: real, fair: Option<real>, bp: int, x: real)
    requires x == raw * (10000.0 + bp as real) / 10000.0 && x >= 1.001 && (fair.Some? ==> x <= fair.value)
    ensures Clamped(raw, fair, bp) == x
  {
    hide Scaled;
    ScaledIs(raw, bp);
  }

  lemma ScaledIs(raw: real, bp: int)
    ensures Scaled(raw, bp) == raw * (10000.0 + bp as real) / 10000.0
  {
    BasisPoints(raw, bp as real);
  }

  lemma NearQuote(units: int, x: real)
    requires x >= 1.001 && Price(units) == QuoteOnLadder(x)
    ensures x - LadderStep(x) < units as real / 10000.0 <= x + 0.000000001 * LadderStep(x) + 0.0000000001
  {
    hide QuoteOnLadder;
    QuoteBounds(x);
  }

  lemma BasisPoints(raw: real, bp: real)
    ensures raw * (1.0 + bp / 10000.0) == raw * (10000.0 + bp) / 10000.0
  {
    var m := 10000.0 + bp;
    assert 1.0 + bp / 10000.0 == m / 10000.0;
    assert raw * (m / 10000.0) == raw * m / 10000.0;
  }

  lemma UnderCeiling(x: real, p: Option<real>)
    requires p.Some? && 0.0 < p.value < 1.0 ==> x * p.value <= 1.0
    ensures FairCeiling(p).Some? ==> x <= FairCeiling(p).value
  {
    if FairCeiling(p).Some? {
      var q := 1.0 / p.value;
      assert q * p.value == 1.0;
      CancelFrom(x, q, p.value, x * p.value, 1.0);
    }
  }

  /** At the ceiling the price sent is the quote of one over the published probability, and without a
      usable rule or price the text is left alone. */
  lemma CeilingAndPassThrough(rawOdds: string, probability: string, bp: int, read: string -> Option<real>)
    ensures bp == 0 || read(rawOdds) == None || read(rawOdds).value <= 0.0 ==> ApplyAdjustment(rawOdds, Some(probability), bp, read) == rawOdds
    ensures
      && bp != 0 && read(rawOdds).Some? && read(rawOdds).value > 0.0 && probability != "" && read(probability).Some?
      && 0.0 < read(probability).value < 1.0
      && read(rawOdds).value * (10000.0 + bp as real) / 10000.0 > 1.0 / read(probability).value >= 1.001 ==>
        ReadUnits(ApplyAdjustment(rawOdds, Some(probability), bp, read)) as real / 10000.0 == QuoteOnLadder(1.0 / read(probability).value)
  {
    hide QuoteOnLadder, AdjustedUnits, FormatUnits, ReadUnits, Scaled;
    if bp != 0 && read(rawOdds).Some? && read(rawOdds).value > 0.0 && probability != "" {
      ScaledIs(read(rawOdds).value, bp);
      AdjustmentReadsBack(rawOdds, Some(probability), bp, read);
      QuotedPrice(read(rawOdds).value, FairCeiling(read(probability)), bp);
    }
  }
}
