/** ComboZilla's promises in the product's own numbers (apps/web/src/lib/three-fold-builder.ts): leg and
    combined price bands, the nearest combination, and which pass a card may fall back to. */
module ComboPromises {
  import opened Numbers
  import opened Options
  import opened StableSort
  import opened ComboSearch
  import opened ComboCarousel
  import opened ComboCards

  // ----- the table of tiers -----

  /** What a tier asks of one leg's price. */
  ghost predicate LegFits(tier: Tier, boostMin: real, o: real) {
    match tier
    case Safe => boostMin <= o < 2.0
    case Challenging => boostMin <= o
    case Risky => boostMin < o && 1.8 < o
    case Ultimate => boostMin < o && 2.0 < o
  }

  /** What it asks of the combined price. */
  ghost predicate InBand(tier: Tier, boostMin: real, p: real) {
    match tier
    case Safe => 3.0 <= p && boostMin * boostMin * boostMin <= p && p < 5.0
    case Challenging => 5.0 <= p < 10.0
    case Risky => 10.0 <= p < 20.0
    case Ultimate => 20.0 <= p < 100.0
  }

  /** The combined price it would like best. */
  ghost function Wish(tier: Tier): real {
    match tier case Safe => 4.0 case Challenging => 7.0 case Risky => 14.0 case Ultimate => 30.0
  }

  lemma TableIsBands(tier: Tier, boostMin: real, o: real, p: real)
    ensures LegAllowed(tier, boostMin)(o) <==> LegFits(tier, boostMin, o)
    ensures var band := BandOf(tier, boostMin); (band.lo <= p < band.hi <==> InBand(tier, boostMin, p)) && band.target == Wish(tier)
  {
  }

  ghost function Combined(t: Triple): real { t.a.oddsNum * t.b.oddsNum * t.c.oddsNum }

  lemma CombinedIsProduct(t: Triple)
    ensures Product(t) == Combined(t)
  {
  }

  // ----- nearest in band -----

  lemma PickNearest(ms: seq<MatchInput>, tier: Tier, rules: Rules, t: Triple, other: Triple)
    requires DistinctIds(ms)
    requires Pick(ms, BandOf(tier, rules.boostMin), LegAllowed(tier, rules.boostMin), false, rules.lib) == Some(t)
    ensures forall s :: s in [t.a, t.b, t.c] ==>
              rules.lib.read(s.selection.odds) == Some(s.oddsNum) && LegFits(tier, rules.boostMin, s.oddsNum)
    ensures InBand(tier, rules.boostMin, Combined(t))
    ensures Drawn(other, Pool(ms, BandOf(tier, rules.boostMin), LegAllowed(tier, rules.boostMin), rules.lib))
            && InBand(tier, rules.boostMin, Combined(other)) ==>
              Abs(Combined(t) - Wish(tier)) <= Abs(Combined(other) - Wish(tier))
  {
    hide Pick, Pool, Drawn, Product, Combined, BandOf, LegAllowed, LegFits, InBand, BuildLeg;
    var band, allowed := BandOf(tier, rules.boostMin), LegAllowed(tier, rules.boostMin);
    PickIsNearest(ms, band, allowed, false, rules.lib);
    var x, y, z := PickedFrom(ms, band, allowed, false, rules.lib);
    CombinedIsProduct(t);
    CombinedIsProduct(other);
    TableIsBands(tier, rules.boostMin, t.a.oddsNum, Combined(t));
    TableIsBands(tier, rules.boostMin, t.b.oddsNum, Combined(other));
    TableIsBands(tier, rules.boostMin, t.c.oddsNum, Combined(t));
  }

  /** The thirty matches, or fewer, whose admitted sides come closest to the cube root of the wish. */
  ghost function Shortlist(ms: seq<MatchInput>, tier: Tier, rules: Rules): seq<QualMatch> {
    Capped(Ranked(Qualify(ms, LegAllowed(tier, rules.boostMin), rules.lib), rules.lib.cbrt(Wish(tier)), rules.lib))
  }

  /** The pick of a strict pass, on the prices its own leg texts read as: every leg fits the tier, the product
      is in the tier's band, and no combination of the shortlist in the band comes nearer to the tier's wish. */
  lemma StrictNearest(c: Carousel, tier: Tier, pass: Pass, sport: SportBucket, rules: Rules, t: Triple, other: Triple)
    returns (x: real, y: real, z: real)
    requires DistinctIds(sport.matches) && !pass.ignoreBand && !pass.floorOnly
    requires PickIn(c, tier, pass, sport, rules) == Some(t)
    ensures rules.lib.read(t.a.selection.odds) == Some(x) && LegFits(tier, rules.boostMin, x)
    ensures rules.lib.read(t.b.selection.odds) == Some(y) && LegFits(tier, rules.boostMin, y)
    ensures rules.lib.read(t.c.selection.odds) == Some(z) && LegFits(tier, rules.boostMin, z)
    ensures InBand(tier, rules.boostMin, x * y * z)
    ensures var p := other.a.oddsNum * other.b.oddsNum * other.c.oddsNum;
            Drawn(other, Shortlist(Usable(sport, pass, c.used), tier, rules)) && InBand(tier, rules.boostMin, p) ==>
              Abs(x * y * z - Wish(tier)) <= Abs(p - Wish(tier))
  {
    hide Pick, Drawn, LegAllowed, LegFits, InBand, BuildLeg, Pool, Shortlist, BandOf, Unused;
    var ms := Usable(sport, pass, c.used);
    UnusedFacts(sport.matches, c.used);
    ShortlistIsPool(ms, tier, rules);
    PickNearest(ms, tier, rules, t, other);
    x, y, z := t.a.oddsNum, t.b.oddsNum, t.c.oddsNum;
    assert t.a in [t.a, t.b, t.c] && t.b in [t.a, t.b, t.c] && t.c in [t.a, t.b, t.c];
    SamePrice(tier, rules.boostMin, Combined(t), x * y * z);
    SamePrice(tier, rules.boostMin, Combined(other), other.a.oddsNum * other.b.oddsNum * other.c.oddsNum);
  }

  lemma SamePrice(tier: Tier, boostMin: real, p: real, q: real)
    requires p == q
    ensures InBand(tier, boostMin, p) <==> InBand(tier, boostMin, q)
    ensures Abs(p - Wish(tier)) == Abs(q - Wish(tier))
  {
  }

  lemma ShortlistIsPool(ms: seq<MatchInput>, tier: Tier, rules: Rules)
    ensures Pool(ms, BandOf(tier, rules.boostMin), LegAllowed(tier, rules.boostMin), rules.lib) == Shortlist(ms, tier, rules)
  {
    TableIsBands(tier, rules.boostMin, 0.0, 0.0);
  }

  /** A side of `m` at price `s.oddsNum` that the tier admits. */
  ghost predicate FittingSide(m: MatchInput, s: QualSide, tier: Tier, rules: Rules) {
    LegFrom(s.selection, m, rules) && rules.lib.read(s.selection.odds) == Some(s.oddsNum) && LegFits(tier, rules.boostMin, s.oddsNum)
  }

  lemma FittingIsOffered(m: MatchInput, s: QualSide, tier: Tier, rules: Rules)
    requires FittingSide(m, s, tier, rules) && s.selection.odds != ""
    ensures s in SidesOf(m, LegAllowed(tier, rules.boostMin), rules.lib)
  {
    hide SidesOf, LegAllowed, LegFits;
    TableIsBands(tier, rules.boostMin, s.oddsNum, 0.0);
    SidesOffered(m, LegAllowed(tier, rules.boostMin), rules.lib, s);
  }

  lemma PoolHas(ms: seq<MatchInput>, band: TierBand, allowed: real -> bool, lib: Library, m: MatchInput) returns (i: nat)
    requires DistinctIds(ms) && |Qualify(ms, allowed, lib)| <= 30 && m in ms && SidesOf(m, allowed, lib) != []
    ensures i < |Pool(ms, band, allowed, lib)|
    ensures var q := Pool(ms, band, allowed, lib)[i]; q.matchId == m.id && q.sides == SidesOf(m, allowed, lib)
  {
    hide Qualify, Sort, SidesOf;
    var q := QualMatch(m.id, SidesOf(m, allowed, lib));
    QualifyMembers(ms, allowed, lib, q);
    SortMembers(Qualify(ms, allowed, lib), Closer(lib.cbrt(band.target), lib));
    var pool := Pool(ms, band, allowed, lib);
    assert q in pool;
    i :| 0 <= i < |pool| && pool[i] == q;
  }

  /** Any three entries of the pool, in whatever order, are a combination the search sees. */
  lemma SomeOrder(pool: seq<QualMatch>, i: nat, j: nat, k: nat, x: QualSide, y: QualSide, z: QualSide) returns (t: Triple)
    requires i < |pool| && j < |pool| && k < |pool| && i != j && j != k && i != k
    requires x in pool[i].sides && y in pool[j].sides && z in pool[k].sides
    ensures Drawn(t, pool) && Combined(t) == x.oddsNum * y.oddsNum * z.oddsNum
  {
    if i < j < k { t := Triple(x, y, z); assert DrawnAt(t, pool, i, j, k); }
    else if i < k < j { t := Triple(x, z, y); assert DrawnAt(t, pool, i, k, j); }
    else if j < i < k { t := Triple(y, x, z); assert DrawnAt(t, pool, j, i, k); }
    else if j < k < i { t := Triple(y, z, x); assert DrawnAt(t, pool, j, k, i); }
    else if k < i < j { t := Triple(z, x, y); assert DrawnAt(t, pool, k, i, j); }
    else { t := Triple(z, y, x); assert DrawnAt(t, pool, k, j, i); }
    Commutes(x.oddsNum, y.oddsNum, z.oddsNum);
  }

  lemma Commutes(x: real, y: real, z: real)
    ensures x * y * z == x * z * y == y * x * z == y * z * x == z * x * y == z * y * x
  {
    var xy, xz, yz := x * y, x * z, y * z;
    assert xy * z == xz * y == yz * x;
  }

  /** With at most thirty qualifying matches the cap plays no part: the strict pick is as near as any three
      fitting sides of three different matches whose combined price is in the band, and there is a pick
      whenever there are three such sides. */
  lemma NearestOfAll(ms: seq<MatchInput>, tier: Tier, rules: Rules,
                     a: MatchInput, b: MatchInput, c: MatchInput, x: QualSide, y: QualSide, z: QualSide)
    requires DistinctIds(ms) && |Qualify(ms, LegAllowed(tier, rules.boostMin), rules.lib)| <= 30
    requires a in ms && b in ms && c in ms && a.id != b.id && b.id != c.id && a.id != c.id
    requires FittingSide(a, x, tier, rules) && FittingSide(b, y, tier, rules) && FittingSide(c, z, tier, rules)
    requires x.selection.odds != "" && y.selection.odds != "" && z.selection.odds != ""
    requires InBand(tier, rules.boostMin, x.oddsNum * y.oddsNum * z.oddsNum)
    ensures var best := Pick(ms, BandOf(tier, rules.boostMin), LegAllowed(tier, rules.boostMin), false, rules.lib);
            best.Some? && Abs(Combined(best.value) - Wish(tier)) <= Abs(x.oddsNum * y.oddsNum * z.oddsNum - Wish(tier))
  {
    hide Pick, Pool, Qualify, SidesOf, BandOf, LegAllowed, LegFits, InBand, Drawn, Combined, Product, LegFrom;
    var band, allowed := BandOf(tier, rules.boostMin), LegAllowed(tier, rules.boostMin);
    FittingIsOffered(a, x, tier, rules);
    FittingIsOffered(b, y, tier, rules);
    FittingIsOffered(c, z, tier, rules);
    var i := PoolHas(ms, band, allowed, rules.lib, a);
    var j := PoolHas(ms, band, allowed, rules.lib, b);
    var k := PoolHas(ms, band, allowed, rules.lib, c);
    var pool := Pool(ms, band, allowed, rules.lib);
    var other := SomeOrder(pool, i, j, k, x, y, z);
    PoolFacts(ms, band, allowed, rules.lib);
    CombinedIsProduct(other);
    TableIsBands(tier, rules.boostMin, 0.0, Combined(other));
    PickIsNearest(ms, band, allowed, false, rules.lib);
    var best := Pick(ms, band, allowed, false, rules.lib);
    assert Admissible(other, band, false);
    ThreeQualify(|Qualify(ms, allowed, rules.lib)|, |pool|, i, j, k);
    PickNearest(ms, tier, rules, best.value, other);
  }

  lemma ThreeQualify(q: nat, n: nat, i: nat, j: nat, k: nat)
    requires n == q && i < n && j < n && k < n && i != j && j != k && i != k
    ensures q >= 3
  {
  }

  // ----- which pass -----

  /** If any sport open to cards has an in-band pick among its unused matches, the card shares no match with
      an earlier one; if any has one among all its matches, the card is in the band and its legs fit; and
      if any has three matches with fitting legs, the card's legs fit. */
  lemma StrictestPass(c: Carousel, tier: Tier, sports: seq<SportBucket>, eligible: seq<MatchInput>, rules: Rules, sport: SportBucket)
    requires Cut(sports, eligible) && sport in sports && Open(c, sport.slug, rules)
    ensures var choice := FirstPass(c, tier, 0, sports, rules);
            var band, fits := BandOf(tier, rules.boostMin), LegAllowed(tier, rules.boostMin);
            && (Pick(Unused(sport.matches, c.used), band, fits, false, rules.lib).Some? ==>
                  choice.Some? && LegMatches(Legs(choice.value.triple)) !! c.used)
            && (Pick(Unused(sport.matches, c.used), band, fits, false, rules.lib).Some? || Pick(sport.matches, band, fits, false, rules.lib).Some? ==>
                  choice.Some? && InBand(tier, rules.boostMin, Combined(choice.value.triple)) && LegsFit(choice.value.triple, tier, rules))
            && (Pick(sport.matches, band, fits, true, rules.lib).Some? ==> choice.Some? && LegsFit(choice.value.triple, tier, rules))
  {
    hide Pick, BandOf, LegAllowed, Unused, FirstPass, GoodCard, CardOf, LegFits, InBand, Combined, LegMatches, FirstIn;
    FirstPassFacts(c, tier, 0, sports, rules);
    PassesAre(c, tier, sport, rules);
    var choice := FirstPass(c, tier, 0, sports, rules);
    if choice.Some? {
      var v := choice.value;
      PickInGood(c, tier, v.pass, v.sport, v.triple, eligible, rules);
      PassesAre(c, tier, v.sport, rules);
      PickFits(c, tier, v, eligible, rules);
    }
  }

  ghost predicate LegsFit(t: Triple, tier: Tier, rules: Rules) {
    forall s :: s in [t.a, t.b, t.c] ==> LegFits(tier, rules.boostMin, s.oddsNum)
  }

  /** The four passes written out. */
  lemma PassesAre(c: Carousel, tier: Tier, sport: SportBucket, rules: Rules)
    requires Open(c, sport.slug, rules)
    ensures var band, fits := BandOf(tier, rules.boostMin), LegAllowed(tier, rules.boostMin);
            && |PASSES| == 4 && PASSES[0].unusedOnly
            && PickIn(c, tier, PASSES[0], sport, rules) == Pick(Unused(sport.matches, c.used), band, fits, false, rules.lib)
            && PickIn(c, tier, PASSES[1], sport, rules) == Pick(sport.matches, band, fits, false, rules.lib)
            && PickIn(c, tier, PASSES[2], sport, rules) == Pick(sport.matches, band, fits, true, rules.lib)
            && PickIn(c, tier, PASSES[3], sport, rules) == Pick(sport.matches, band, FloorOnly(rules.boostMin), true, rules.lib)
  {
    hide Pick, BandOf, LegAllowed, Unused;
  }

  lemma PickFits(c: Carousel, tier: Tier, v: Choice, eligible: seq<MatchInput>, rules: Rules)
    requires DistinctIds(eligible) && CutFrom(v.sport, eligible) && Open(c, v.sport.slug, rules)
    requires v.pass < |PASSES| && PickIn(c, tier, PASSES[v.pass], v.sport, rules) == Some(v.triple)
    ensures v.pass <= 2 ==> LegsFit(v.triple, tier, rules)
    ensures v.pass <= 1 ==> InBand(tier, rules.boostMin, Combined(v.triple))
  {
    hide Pick, BandOf, LegAllowed, Unused, LegFits, InBand, Combined, BuildLeg, BySlug;
    PassesAre(c, tier, v.sport, rules);
    BySlugFacts(eligible, v.sport.slug);
    UnusedFacts(v.sport.matches, c.used);
    if v.pass <= 2 {
      var ms := if v.pass == 0 then Unused(v.sport.matches, c.used) else v.sport.matches;
      var x, y, z := PickedFrom(ms, BandOf(tier, rules.boostMin), LegAllowed(tier, rules.boostMin), v.pass == 2, rules.lib);
      TableIsBands(tier, rules.boostMin, v.triple.a.oddsNum, 0.0);
      TableIsBands(tier, rules.boostMin, v.triple.b.oddsNum, 0.0);
      TableIsBands(tier, rules.boostMin, v.triple.c.oddsNum, 0.0);
      if v.pass <= 1 { PickNearest(ms, tier, rules, v.triple, v.triple); }
    }
  }

  // ----- ranking -----

  /** The locale's comparison is a consistent order. */
  ghost predicate Collates(lib: Library) {
    && (forall a, b :: lib.collate(a, b) < 0 ==> !(lib.collate(b, a) < 0))
    && forall a, b, c :: !(lib.collate(b, a) < 0) && !(lib.collate(c, b) < 0) ==> !(lib.collate(c, a) < 0)
  }

  lemma CloserConsistent(perLeg: real, lib: Library)
    requires Collates(lib)
    ensures Consistent(Closer(perLeg, lib))
  {
    hide Distance;
    var before := Closer(perLeg, lib);
    forall x, y, z | !before(y, x) && !before(z, y) ensures !before(z, x) {
      NotAfter(x, y, z, perLeg, lib);
    }
    forall x, y | before(x, y) ensures !before(y, x) {
      NotBoth(x, y, perLeg, lib);
    }
  }

  lemma NotBoth(x: QualMatch, y: QualMatch, perLeg: real, lib: Library)
    requires Collates(lib) && Closer(perLeg, lib)(x, y)
    ensures !Closer(perLeg, lib)(y, x)
  {
    hide Distance;
  }

  lemma NotAfter(x: QualMatch, y: QualMatch, z: QualMatch, perLeg: real, lib: Library)
    requires Collates(lib) && !Closer(perLeg, lib)(y, x) && !Closer(perLeg, lib)(z, y)
    ensures !Closer(perLeg, lib)(z, x)
  {
    hide Distance;
    var dx, dy, dz := Distance(x.sides, perLeg), Distance(y.sides, perLeg), Distance(z.sides, perLeg);
    assert dx <= dy <= dz;
    if dx == dz {
      assert !(lib.collate(y.matchId, x.matchId) < 0) && !(lib.collate(z.matchId, y.matchId) < 0);
    }
  }

  /** The pool is ranked by closeness, and equally close matches by id. */
  lemma RankedOrder(qualifying: seq<QualMatch>, perLeg: real, lib: Library, i: nat, j: nat)
    requires Collates(lib) && i < j < |qualifying|
    ensures var r := Ranked(qualifying, perLeg, lib);
            && |r| == |qualifying|
            && (Distance(r[i].sides, perLeg) < Distance(r[j].sides, perLeg)
                || (Distance(r[i].sides, perLeg) == Distance(r[j].sides, perLeg) && lib.collate(r[j].matchId, r[i].matchId) >= 0))
  {
    hide Sort, Distance;
    CloserConsistent(perLeg, lib);
    SortMembers(qualifying, Closer(perLeg, lib));
    SortInSequence(qualifying, Closer(perLeg, lib));
    var r := Ranked(qualifying, perLeg, lib);
    assert !Closer(perLeg, lib)(r[j], r[i]);
  }

  // ----- supply -----

  /** One of the match's two prices is a number above 1 that clears the boost floor. */
  ghost predicate BoostEligible(m: MatchInput, rules: Rules) {
    exists leg :: LegFrom(leg, m, rules) && leg.odds != ""
  }

  lemma EligibleSide(m: MatchInput, rules: Rules)
    ensures SidesOf(m, FloorOnly(rules.boostMin), rules.lib) != [] <==> BoostEligible(m, rules)
  {
    hide SidesOf;
    var allowed := FloorOnly(rules.boostMin);
    if SidesOf(m, allowed, rules.lib) != [] {
      var s := SidesOf(m, allowed, rules.lib)[0];
      SidesOffered(m, allowed, rules.lib, s);
      OfferedLeg(m, s, allowed, rules);
      assert LegFrom(s.selection, m, rules) && s.selection.odds != "";
    }
    if leg :| LegFrom(leg, m, rules) && leg.odds != "" {
      var s := QualSide(leg, rules.lib.read(leg.odds).value);
      SidesOffered(m, allowed, rules.lib, s);
    }
  }

  ghost predicate ThreeOf(eligible: seq<MatchInput>, slug: string, rules: Rules, a: MatchInput, b: MatchInput, c: MatchInput) {
    && a in eligible && b in eligible && c in eligible && a.id != b.id && b.id != c.id && a.id != c.id
    && a.sportSlug == b.sportSlug == c.sportSlug == slug
    && BoostEligible(a, rules) && BoostEligible(b, rules) && BoostEligible(c, rules)
  }

  /** A sport supplies cards exactly when three of its matches each have a boost-eligible side. */
  lemma SuppliesIff(eligible: seq<MatchInput>, slug: string, rules: Rules)
    requires DistinctIds(eligible)
    ensures Supplies(eligible, slug, rules) <==> exists a, b, c :: ThreeOf(eligible, slug, rules, a, b, c)
  {
    hide Qualify, BySlug, BoostEligible, SidesOf;
    var ms, allowed := BySlug(eligible, slug), FloorOnly(rules.boostMin);
    BySlugFacts(eligible, slug);
    if Supplies(eligible, slug, rules) {
      var q := Qualify(ms, allowed, rules.lib);
      QualifyDistinct(ms, allowed, rules.lib);
      var a := Supplier(ms, rules, q[0]);
      var b := Supplier(ms, rules, q[1]);
      var c := Supplier(ms, rules, q[2]);
      assert ThreeOf(eligible, slug, rules, a, b, c);
    }
    if a, b, c :| ThreeOf(eligible, slug, rules, a, b, c) {
      EligibleSide(a, rules);
      EligibleSide(b, rules);
      EligibleSide(c, rules);
      ThreeSupply(eligible, rules, a, b, c);
    }
  }

  lemma Supplier(ms: seq<MatchInput>, rules: Rules, q: QualMatch) returns (m: MatchInput)
    requires q in Qualify(ms, FloorOnly(rules.boostMin), rules.lib)
    ensures m in ms && m.id == q.matchId && BoostEligible(m, rules)
  {
    hide BoostEligible;
    QualifyMembers(ms, FloorOnly(rules.boostMin), rules.lib, q);
    m :| m in ms && q == QualMatch(m.id, SidesOf(m, FloorOnly(rules.boostMin), rules.lib));
    EligibleSide(m, rules);
  }
}
