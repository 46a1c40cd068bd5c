/** What every ComboZilla carousel guarantees (apps/web/src/lib/three-fold-builder.ts). */
module ComboCards {
  import opened Options
  import opened ComboSearch
  import opened ComboCarousel

  // ----- the choice for one tier -----

  lemma {:induction false} FirstSportFacts(c: Carousel, tier: Tier, p: nat, sports: seq<SportBucket>, rules: Rules)
    requires p < |PASSES|
    ensures var choice := FirstSport(c, tier, p, sports, rules);
            if choice == None then forall s :: s in sports ==> PickIn(c, tier, PASSES[p], s, rules) == None
            else
              && choice.value.pass == p && choice.value.sport in sports
              && PickIn(c, tier, PASSES[p], choice.value.sport, rules) == Some(choice.value.triple)
              && FirstIn(c, tier, p, sports, choice.value.sport, rules)
  {
    hide PickIn;
    if sports != [] {
      assert sports == [sports[0]] + sports[1..];
      FirstSportFacts(c, tier, p, sports[1..], rules);
      var choice := FirstSport(c, tier, p, sports, rules);
      if choice.Some? {
        if PickIn(c, tier, PASSES[p], sports[0], rules) == None {
          var i :| FirstAt(c, tier, p, sports[1..], choice.value.sport, rules, i);
          assert FirstAt(c, tier, p, sports, choice.value.sport, rules, i + 1);
        } else {
          assert FirstAt(c, tier, p, sports, choice.value.sport, rules, 0);
        }
      }
    }
  }

  /** The sport stands at `i`, and no sport before it has a pick in this pass. */
  ghost predicate FirstAt(c: Carousel, tier: Tier, p: nat, sports: seq<SportBucket>, sport: SportBucket, rules: Rules, i: int)
    requires p < |PASSES|
  {
    0 <= i < |sports| && sports[i] == sport && forall j :: 0 <= j < i ==> PickIn(c, tier, PASSES[p], sports[j], rules) == None
  }

  ghost predicate FirstIn(c: Carousel, tier: Tier, p: nat, sports: seq<SportBucket>, sport: SportBucket, rules: Rules)
    requires p < |PASSES|
  {
    exists i :: FirstAt(c, tier, p, sports, sport, rules, i)
  }

  /** The loosest pass that was needed: every stricter pass failed in every sport. */
  ghost predicate Chosen(choice: Option<Choice>, c: Carousel, tier: Tier, from: nat, sports: seq<SportBucket>, rules: Rules) {
    if choice == None then forall p, s :: from <= p < |PASSES| && s in sports ==> PickIn(c, tier, PASSES[p], s, rules) == None
    else
      var v := choice.value;
      && from <= v.pass < |PASSES| && v.sport in sports
      && PickIn(c, tier, PASSES[v.pass], v.sport, rules) == Some(v.triple)
      && FirstIn(c, tier, v.pass, sports, v.sport, rules)
      && forall p, s :: from <= p < v.pass && s in sports ==> PickIn(c, tier, PASSES[p], s, rules) == None
  }

  lemma {:induction false} FirstPassFacts(c: Carousel, tier: Tier, p: nat, sports: seq<SportBucket>, rules: Rules)
    requires p <= |PASSES|
    ensures Chosen(FirstPass(c, tier, p, sports, rules), c, tier, p, sports, rules)
    decreases |PASSES| - p
  {
    hide PickIn, FirstSport, FirstIn;
    if p < |PASSES| {
      FirstSportFacts(c, tier, p, sports, rules);
      FirstPassFacts(c, tier, p + 1, sports, rules);
    }
  }

  lemma FilterAboveFloor(pass: Pass, tier: Tier, boostMin: real)
    ensures forall o :: Filter(pass, tier, boostMin)(o) ==> o >= boostMin
  {
  }

  /** Buckets cut from one list of distinct matches, each named after a match of its own. */
  ghost predicate Cut(sports: seq<SportBucket>, eligible: seq<MatchInput>) {
    DistinctIds(eligible) && forall s :: s in sports ==> CutFrom(s, eligible)
  }

  ghost predicate CutFrom(s: SportBucket, eligible: seq<MatchInput>) {
    s.matches == BySlug(eligible, s.slug) && s.matches != [] && s.name == s.matches[0].sportName
  }

  lemma UsableFacts(sport: SportBucket, pass: Pass, used: set<string>, eligible: seq<MatchInput>)
    requires DistinctIds(eligible) && CutFrom(sport, eligible)
    ensures var ms := Usable(sport, pass, used);
            && DistinctIds(ms)
            && forall m :: m in ms ==> m in eligible && m.sportSlug == sport.slug && (pass.unusedOnly ==> m.id !in used)
  {
    BySlugFacts(eligible, sport.slug);
    UnusedFacts(sport.matches, used);
  }

  // ----- good cards -----

  /** `leg` is what `m` offers on the picked side, field by field, at a price above 1 that clears the
      boost floor. */
  ghost predicate LegFrom(leg: Leg, m: MatchInput, rules: Rules) {
    && leg.matchId == m.id && leg.sportSlug == m.sportSlug
    && m.matchWinner.Some? && leg.marketId == m.matchWinner.value.marketId
    && (leg.pickedSide == Home ==> leg.outcomeId == m.matchWinner.value.home.outcomeId && m.matchWinner.value.home.price == Some(leg.odds))
    && (leg.pickedSide == Away ==> leg.outcomeId == m.matchWinner.value.away.outcomeId && m.matchWinner.value.away.price == Some(leg.odds))
    && rules.lib.read(leg.odds).Some? && rules.lib.read(leg.odds).value > 1.0 && rules.lib.read(leg.odds).value >= rules.boostMin
  }

  /** The card shows the product of its own three leg prices, floored to hundredths. */
  ghost predicate ShowsProduct(card: Card, lib: Library) {
    && |card.legs| == 3 && (forall i :: 0 <= i < 3 ==> lib.read(card.legs[i].odds).Some?)
    && var x, y, z := lib.read(card.legs[0].odds).value, lib.read(card.legs[1].odds).value, lib.read(card.legs[2].odds).value;
       card.combinedHundredths as real <= 100.0 * (x * y * z) < card.combinedHundredths as real + 1.0
  }

  /** Three legs on three distinct eligible matches of the card's sport. */
  ghost predicate GoodCard(card: Card, eligible: seq<MatchInput>, rules: Rules) {
    && |card.legs| == 3 && ShowsProduct(card, rules.lib)
    && exists a, b, c :: OnMatches(card, a, b, c, eligible, rules)
  }

  ghost predicate OnMatches(card: Card, a: MatchInput, b: MatchInput, c: MatchInput, eligible: seq<MatchInput>, rules: Rules) {
    && |card.legs| == 3
    && a in eligible && b in eligible && c in eligible
    && a.id != b.id && b.id != c.id && a.id != c.id
    && a.sportSlug == card.sportSlug && b.sportSlug == card.sportSlug && c.sportSlug == card.sportSlug
    && (exists m :: m in eligible && m.sportSlug == card.sportSlug && m.sportName == card.sportName)
    && LegFrom(card.legs[0], a, rules) && LegFrom(card.legs[1], b, rules) && LegFrom(card.legs[2], c, rules)
  }

  /** A pick in a sport is a good card, and off the used matches when the pass asks for it. */
  lemma PickInGood(c: Carousel, tier: Tier, p: nat, sport: SportBucket, t: Triple, eligible: seq<MatchInput>, rules: Rules)
    requires p < |PASSES| && DistinctIds(eligible) && CutFrom(sport, eligible)
    requires PickIn(c, tier, PASSES[p], sport, rules) == Some(t)
    ensures GoodCard(CardOf(Choice(p, sport, t)), eligible, rules)
    ensures PASSES[p].unusedOnly ==> LegMatches(Legs(t)) !! c.used
    ensures Open(c, sport.slug, rules)
  {
    hide Pick, Usable, Filter, Product, BuildLeg, BySlug, ShowsProduct, BandOf;
    var ms, allowed := Usable(sport, PASSES[p], c.used), Filter(PASSES[p], tier, rules.boostMin);
    UsableFacts(sport, PASSES[p], c.used, eligible);
    FilterAboveFloor(PASSES[p], tier, rules.boostMin);
    var x, y, z := PickedFrom(ms, BandOf(tier, rules.boostMin), allowed, PASSES[p].ignoreBand, rules.lib);
    OfferedLeg(x, t.a, allowed, rules);
    OfferedLeg(y, t.b, allowed, rules);
    OfferedLeg(z, t.c, allowed, rules);
    NamedAfter(sport, eligible);
    CardShowsProduct(Choice(p, sport, t), rules.lib);
    assert OnMatches(CardOf(Choice(p, sport, t)), x, y, z, eligible, rules);
  }

  lemma OfferedLeg(m: MatchInput, s: QualSide, allowed: real -> bool, rules: Rules)
    requires Offers(m, s, allowed, rules.lib) && forall o :: allowed(o) ==> o >= rules.boostMin
    ensures LegFrom(s.selection, m, rules)
  {
  }

  lemma NamedAfter(sport: SportBucket, eligible: seq<MatchInput>)
    requires CutFrom(sport, eligible)
    ensures exists m :: m in eligible && m.sportSlug == sport.slug && m.sportName == sport.name
  {
    hide BySlug;
    BySlugFacts(eligible, sport.slug);
    assert sport.matches[0] in sport.matches;
  }

  lemma CardShowsProduct(v: Choice, lib: Library)
    requires lib.read(v.triple.a.selection.odds) == Some(v.triple.a.oddsNum)
    requires lib.read(v.triple.b.selection.odds) == Some(v.triple.b.oddsNum)
    requires lib.read(v.triple.c.selection.odds) == Some(v.triple.c.oddsNum)
    ensures ShowsProduct(CardOf(v), lib)
  {
    var p := v.triple.a.oddsNum * v.triple.b.oddsNum * v.triple.c.oddsNum;
    assert Product(v.triple) == p;
    assert (p * 100.0).Floor as real <= 100.0 * p < (p * 100.0).Floor as real + 1.0;
  }

  // ----- the invariant of the tier loop -----

  ghost predicate Kept(c: Carousel, eligible: seq<MatchInput>, rules: Rules) {
    && (forall t :: t in c.cards ==> GoodCard(c.cards[t], eligible, rules))
    && (forall t :: t in c.cards ==> LegMatches(c.cards[t].legs) <= c.used)
    && (forall t :: t in c.cards ==> CardsOf(c, c.cards[t].sportSlug) >= 1)
    && (forall t, u :: t in c.cards && u in c.cards && t != u && c.cards[t].sportSlug == c.cards[u].sportSlug ==>
          c.cards[t].sportSlug in rules.multiCardSports)
  }

  lemma FillKeeps(c: Carousel, tier: Tier, sports: seq<SportBucket>, eligible: seq<MatchInput>, rules: Rules)
    requires Kept(c, eligible, rules) && Cut(sports, eligible)
    ensures Kept(FillTier(c, tier, sports, rules), eligible, rules)
  {
    hide FirstPass, PickIn, GoodCard, CardOf;
    FirstPassFacts(c, tier, 0, sports, rules);
    var choice := FirstPass(c, tier, 0, sports, rules);
    if choice.Some? {
      var v := choice.value;
      PickInGood(c, tier, v.pass, v.sport, v.triple, eligible, rules);
      CardSport(v);
      DealKeeps(c, tier, v, eligible, rules);
    }
  }

  lemma CardSport(v: Choice)
    ensures CardOf(v).sportSlug == v.sport.slug && CardOf(v).legs == Legs(v.triple)
  {
  }

  lemma DealKeeps(c: Carousel, tier: Tier, v: Choice, eligible: seq<MatchInput>, rules: Rules)
    requires Kept(c, eligible, rules) && GoodCard(CardOf(v), eligible, rules) && Open(c, v.sport.slug, rules)
    ensures Kept(Deal(c, tier, v), eligible, rules)
  {
    hide GoodCard, CardOf, LegMatches;
    CardSport(v);
  }

  lemma {:induction false} TiersKept(n: nat, sports: seq<SportBucket>, eligible: seq<MatchInput>, rules: Rules)
    requires n <= |TIER_ORDER| && Cut(sports, eligible)
    ensures Kept(FillTiers(n, sports, rules), eligible, rules)
  {
    hide FillTier, GoodCard;
    if n > 0 {
      TiersKept(n - 1, sports, eligible, rules);
      FillKeeps(FillTiers(n - 1, sports, rules), TIER_ORDER[n - 1], sports, eligible, rules);
    }
  }

  lemma SportsCut(matches: seq<MatchInput>)
    ensures Cut(Sports(Eligible(matches)), Eligible(matches))
  {
    hide Sports, Eligible, BySlug;
    EligibleFacts(matches);
    SportsFacts(Eligible(matches));
    SportsNamed(Eligible(matches));
  }

  /** Every card: three legs on three distinct prematch input matches of one sport, each at or above
      the boost minimum; and no sport off the multi-card list holds two cards. */
  lemma EveryCardGood(matches: seq<MatchInput>, rules: Rules)
    ensures var out := Build(matches, rules);
            && (forall t :: t in out ==> GoodCard(out[t], Eligible(matches), rules))
            && (forall m :: m in Eligible(matches) ==> m in matches && IsPrematch(m))
            && forall t, u :: t in out && u in out && t != u && out[t].sportSlug == out[u].sportSlug ==>
                 out[t].sportSlug in rules.multiCardSports
  {
    hide FillTiers, GoodCard, Sports, Eligible;
    EligibleFacts(matches);
    SportsCut(matches);
    TiersKept(4, Sports(Eligible(matches)), Eligible(matches), rules);
  }

  // ----- disjointness -----

  /** Cards of earlier tiers are never replaced, and their matches stay in `used`. */
  lemma EarlierCardsStay(n: nat, sports: seq<SportBucket>, rules: Rules)
    requires n < |TIER_ORDER|
    ensures var c, c' := FillTiers(n, sports, rules), FillTiers(n + 1, sports, rules);
            && (forall t :: t in c'.cards ==> t in TIER_ORDER[..n + 1])
            && (forall t :: t in c.cards ==> t in c'.cards && c'.cards[t] == c.cards[t])
  {
    hide FillTier, CardOf;
    OnlyFilled(n, sports, rules);
    OnlyFilled(n + 1, sports, rules);
    var c := FillTiers(n, sports, rules);
    FillOne(c, TIER_ORDER[n], sports, rules);
    TierFresh(n);
  }

  lemma TierFresh(n: nat)
    requires n < |TIER_ORDER|
    ensures TIER_ORDER[n] !in TIER_ORDER[..n]
  {
  }

  lemma FillOne(c: Carousel, tier: Tier, sports: seq<SportBucket>, rules: Rules)
    ensures var c' := FillTier(c, tier, sports, rules);
            && c'.cards.Keys <= c.cards.Keys + {tier} && c.cards.Keys <= c'.cards.Keys
            && forall t :: t in c.cards && t != tier ==> c'.cards[t] == c.cards[t]
  {
    hide FirstPass, CardOf;
  }

  lemma {:induction false} OnlyFilled(n: nat, sports: seq<SportBucket>, rules: Rules)
    requires n <= |TIER_ORDER|
    ensures forall t :: t in FillTiers(n, sports, rules).cards ==> t in TIER_ORDER[..n]
  {
    hide FillTier;
    if n > 0 {
      OnlyFilled(n - 1, sports, rules);
      FillOne(FillTiers(n - 1, sports, rules), TIER_ORDER[n - 1], sports, rules);
      assert TIER_ORDER[..n] == TIER_ORDER[..n - 1] + [TIER_ORDER[n - 1]];
    }
  }

  /** If any open sport has an in-band triple among its unused matches, the tier's card is cut from
      such a triple and shares no match with any earlier card. */
  lemma FirstPassDisjoint(n: nat, sports: seq<SportBucket>, eligible: seq<MatchInput>, rules: Rules, sport: SportBucket)
    requires n < |TIER_ORDER| && Cut(sports, eligible) && sport in sports
    requires PickIn(FillTiers(n, sports, rules), TIER_ORDER[n], PASSES[0], sport, rules).Some?
    ensures var c, c' := FillTiers(n, sports, rules), FillTiers(n + 1, sports, rules);
            && TIER_ORDER[n] in c'.cards
            && forall t :: t in c.cards ==> LegMatches(c'.cards[TIER_ORDER[n]].legs) !! LegMatches(c.cards[t].legs)
  {
    hide PickIn, FirstPass, GoodCard, CardOf, LegMatches;
    var c, tier := FillTiers(n, sports, rules), TIER_ORDER[n];
    TiersKept(n, sports, eligible, rules);
    FirstPassFacts(c, tier, 0, sports, rules);
    var v := FirstPass(c, tier, 0, sports, rules).value;
    assert v.pass == 0;
    PickInGood(c, tier, 0, v.sport, v.triple, eligible, rules);
    CardSport(v);
  }

  // ----- when a tier is filled -----

  /** Three matches of the sport each have a boost-eligible side. */
  ghost predicate Supplies(eligible: seq<MatchInput>, slug: string, rules: Rules) {
    |Qualify(BySlug(eligible, slug), FloorOnly(rules.boostMin), rules.lib)| >= 3
  }

  lemma PickNeedsThree(c: Carousel, tier: Tier, p: nat, sport: SportBucket, eligible: seq<MatchInput>, rules: Rules)
    requires p < |PASSES| && DistinctIds(eligible) && CutFrom(sport, eligible)
    requires PickIn(c, tier, PASSES[p], sport, rules).Some?
    ensures Open(c, sport.slug, rules) && Supplies(eligible, sport.slug, rules)
  {
    hide Qualify, BySlug, Best, Unused, Filter;
    var ms, tight, loose := Usable(sport, PASSES[p], c.used), Filter(PASSES[p], tier, rules.boostMin), FloorOnly(rules.boostMin);
    FilterAboveFloor(PASSES[p], tier, rules.boostMin);
    QualifyLooser(ms, tight, loose, rules.lib);
    if PASSES[p].unusedOnly { QualifyUnused(sport.matches, c.used, loose, rules.lib); }
  }

  lemma {:induction false} QualifyUnused(matches: seq<MatchInput>, used: set<string>, allowed: real -> bool, lib: Library)
    ensures |Qualify(Unused(matches, used), allowed, lib)| <= |Qualify(matches, allowed, lib)|
  {
    if matches != [] {
      var n := |matches| - 1;
      QualifyUnused(matches[..n], used, allowed, lib);
      var rest := Unused(matches[..n], used);
      if matches[n].id !in used {
        assert Unused(matches, used) == rest + [matches[n]];
        assert (rest + [matches[n]])[..|rest|] == rest;
      } else {
        assert Unused(matches, used) == rest;
      }
    }
  }

  lemma LastPassPicks(c: Carousel, tier: Tier, sport: SportBucket, eligible: seq<MatchInput>, rules: Rules)
    requires DistinctIds(eligible) && CutFrom(sport, eligible)
    requires Open(c, sport.slug, rules) && Supplies(eligible, sport.slug, rules)
    ensures PickIn(c, tier, PASSES[3], sport, rules).Some?
  {
    hide Qualify, Pick, BySlug, Unused, BandOf;
    BySlugFacts(eligible, sport.slug);
    RelaxedPickSucceeds(sport.matches, BandOf(tier, rules.boostMin), FloorOnly(rules.boostMin), rules.lib);
  }

  lemma SuppliesHasBucket(matches: seq<MatchInput>, slug: string, rules: Rules) returns (sport: SportBucket)
    requires Supplies(Eligible(matches), slug, rules)
    ensures sport in Sports(Eligible(matches)) && sport.slug == slug && |Eligible(matches)| >= 3
  {
    hide Sports, Eligible;
    var eligible := Eligible(matches);
    QualifyAtMost(BySlug(eligible, slug), FloorOnly(rules.boostMin), rules.lib);
    BySlugFacts(eligible, slug);
    SportsFacts(eligible);
    var m := BySlug(eligible, slug)[0];
    assert m in BySlug(eligible, slug);
    sport :| sport in Sports(eligible) && sport.slug == m.sportSlug;
  }

  /** A tier gets a card if and only if some sport still open to cards has three matches each with
      a boost-eligible side. */
  lemma FilledIff(c: Carousel, tier: Tier, matches: seq<MatchInput>, rules: Rules)
    ensures FirstPass(c, tier, 0, Sports(Eligible(matches)), rules).Some? <==>
            exists slug :: Open(c, slug, rules) && Supplies(Eligible(matches), slug, rules)
  {
    hide FirstPass, PickIn, Sports, Eligible, Supplies, Open;
    var sports, eligible := Sports(Eligible(matches)), Eligible(matches);
    SportsCut(matches);
    FirstPassFacts(c, tier, 0, sports, rules);
    var choice := FirstPass(c, tier, 0, sports, rules);
    if choice.Some? {
      PickNeedsThree(c, tier, choice.value.pass, choice.value.sport, eligible, rules);
    }
    if slug :| Open(c, slug, rules) && Supplies(eligible, slug, rules) {
      var sport := SuppliesHasBucket(matches, slug, rules);
      LastPassPicks(c, tier, sport, eligible, rules);
    }
  }

  lemma MultiStaysOpen(c: Carousel, slug: string, rules: Rules)
    requires slug in rules.multiCardSports
    ensures Open(c, slug, rules)
  {
  }

  lemma {:induction false} AllSoFar(n: nat, matches: seq<MatchInput>, rules: Rules, slug: string)
    requires n <= |TIER_ORDER| && slug in rules.multiCardSports && Supplies(Eligible(matches), slug, rules)
    ensures forall i :: 0 <= i < n ==> TIER_ORDER[i] in FillTiers(n, Sports(Eligible(matches)), rules).cards
  {
    hide FirstPass, Sports, Eligible, Supplies, Open, CardOf;
    if n > 0 {
      var c := FillTiers(n - 1, Sports(Eligible(matches)), rules);
      AllSoFar(n - 1, matches, rules, slug);
      MultiStaysOpen(c, slug, rules);
      FilledIff(c, TIER_ORDER[n - 1], matches, rules);
    }
  }

  /** One multi-card sport with three boost-eligible matches fills all four tiers. */
  lemma AllTiersFilled(matches: seq<MatchInput>, rules: Rules, slug: string, tier: Tier)
    requires slug in rules.multiCardSports && Supplies(Eligible(matches), slug, rules)
    ensures tier in Build(matches, rules)
  {
    hide Sports, Eligible, Supplies, FillTiers;
    var sport := SuppliesHasBucket(matches, slug, rules);
    AllSoFar(4, matches, rules, slug);
    TierPosition(tier);
  }

  lemma TierPosition(tier: Tier)
    ensures exists i :: 0 <= i < 4 && TIER_ORDER[i] == tier
  {
    assert TIER_ORDER[0] == Safe && TIER_ORDER[1] == Challenging && TIER_ORDER[2] == Risky && TIER_ORDER[3] == Ultimate;
  }

  // ----- how many tiers are filled -----

  /** The sports that supply. */
  ghost function SupplySlugs(eligible: seq<MatchInput>, rules: Rules): set<string> {
    set m | m in eligible && Supplies(eligible, m.sportSlug, rules) :: m.sportSlug
  }

  lemma SupplierListed(eligible: seq<MatchInput>, rules: Rules, slug: string)
    ensures slug in SupplySlugs(eligible, rules) <==> Supplies(eligible, slug, rules)
  {
    hide Qualify;
    if Supplies(eligible, slug, rules) {
      QualifyAtMost(BySlug(eligible, slug), FloorOnly(rules.boostMin), rules.lib);
      BySlugFacts(eligible, slug);
      var m := BySlug(eligible, slug)[0];
      assert m in BySlug(eligible, slug);
    }
  }

  ghost predicate MultiSupplies(eligible: seq<MatchInput>, rules: Rules) {
    exists slug :: slug in rules.multiCardSports && Supplies(eligible, slug, rules)
  }

  ghost function CardSlugs(c: Carousel): set<string> { set t | t in c.cards :: c.cards[t].sportSlug }

  /** The card counts name exactly the sports of the cards dealt, all of which supply. */
  ghost predicate Tracked(c: Carousel, eligible: seq<MatchInput>, rules: Rules) {
    && (forall slug :: CardsOf(c, slug) >= 1 <==> slug in CardSlugs(c))
    && (forall t :: t in c.cards ==> Supplies(eligible, c.cards[t].sportSlug, rules))
  }

  lemma DealTracked(c: Carousel, tier: Tier, v: Choice, eligible: seq<MatchInput>, rules: Rules)
    requires Tracked(c, eligible, rules) && tier !in c.cards && Supplies(eligible, v.sport.slug, rules)
    ensures Tracked(Deal(c, tier, v), eligible, rules)
    ensures CardSlugs(Deal(c, tier, v)) == CardSlugs(c) + {v.sport.slug}
  {
    hide Supplies, CardOf, LegMatches;
    CardSport(v);
    var d := Deal(c, tier, v);
    forall slug ensures slug in CardSlugs(d) <==> slug in CardSlugs(c) || slug == v.sport.slug {
      if slug == v.sport.slug { assert d.cards[tier].sportSlug == slug; }
      if slug in CardSlugs(c) {
        var t :| t in c.cards && c.cards[t].sportSlug == slug;
        assert d.cards[t].sportSlug == slug;
      }
    }
  }

  /** Without a multi-card supplier each card uses up one supplying sport. */
  ghost predicate OneEach(c: Carousel, eligible: seq<MatchInput>, rules: Rules, n: nat) {
    && Tracked(c, eligible, rules)
    && |c.cards| == |CardSlugs(c)| == (if n < |SupplySlugs(eligible, rules)| then n else |SupplySlugs(eligible, rules)|)
  }

  lemma OpenSupplierIff(c: Carousel, eligible: seq<MatchInput>, rules: Rules, n: nat)
    requires OneEach(c, eligible, rules, n) && !MultiSupplies(eligible, rules)
    ensures (exists slug :: Open(c, slug, rules) && Supplies(eligible, slug, rules)) <==> n < |SupplySlugs(eligible, rules)|
  {
    hide Supplies, SupplySlugs;
    var all, used := SupplySlugs(eligible, rules), CardSlugs(c);
    forall slug ensures slug in all <==> Supplies(eligible, slug, rules) { SupplierListed(eligible, rules, slug); }
    assert used <= all;
    assert |all| == |used| + |all - used| by { assert all == used + (all - used); }
    if n < |all| {
      assert all - used != {};
      var slug :| slug in all - used;
      assert Open(c, slug, rules);
    }
    if slug :| Open(c, slug, rules) && Supplies(eligible, slug, rules) {
      assert slug in all - used;
    }
  }

  lemma ChosenSport(c: Carousel, tier: Tier, matches: seq<MatchInput>, rules: Rules)
    ensures var choice := FirstPass(c, tier, 0, Sports(Eligible(matches)), rules);
            choice.Some? ==> Open(c, choice.value.sport.slug, rules) && Supplies(Eligible(matches), choice.value.sport.slug, rules)
  {
    hide FirstPass, PickIn, Sports, Eligible, Supplies, Open;
    SportsCut(matches);
    FirstPassFacts(c, tier, 0, Sports(Eligible(matches)), rules);
    var choice := FirstPass(c, tier, 0, Sports(Eligible(matches)), rules);
    if choice.Some? { PickNeedsThree(c, tier, choice.value.pass, choice.value.sport, Eligible(matches), rules); }
  }

  lemma DealOneEach(c: Carousel, tier: Tier, v: Choice, eligible: seq<MatchInput>, rules: Rules, n: nat)
    requires OneEach(c, eligible, rules, n) && !MultiSupplies(eligible, rules) && tier !in c.cards
    requires Open(c, v.sport.slug, rules) && Supplies(eligible, v.sport.slug, rules) && n < |SupplySlugs(eligible, rules)|
    ensures OneEach(Deal(c, tier, v), eligible, rules, n + 1) && tier in Deal(c, tier, v).cards
  {
    hide Supplies, Open, Deal, Tracked, SupplySlugs, CardSlugs, MultiSupplies;
    UnusedSport(c, v.sport.slug, eligible, rules);
    DealTracked(c, tier, v, eligible, rules);
    DealSize(c, tier, v);
    OneMoreSlug(CardSlugs(c), v.sport.slug);
  }

  lemma DealSize(c: Carousel, tier: Tier, v: Choice)
    requires tier !in c.cards
    ensures tier in Deal(c, tier, v).cards && |Deal(c, tier, v).cards| == |c.cards| + 1
  {
    hide CardOf, LegMatches, CardsOf;
    assert Deal(c, tier, v).cards.Keys == c.cards.Keys + {tier};
    assert |Deal(c, tier, v).cards.Keys| == |c.cards.Keys| + 1;
  }

  lemma OneMoreSlug(slugs: set<string>, slug: string)
    requires slug !in slugs
    ensures |slugs + {slug}| == |slugs| + 1
  {
  }

  lemma StillOneEach(c: Carousel, eligible: seq<MatchInput>, rules: Rules, n: nat)
    requires OneEach(c, eligible, rules, n) && n >= |SupplySlugs(eligible, rules)|
    ensures OneEach(c, eligible, rules, n + 1)
  {
    hide Tracked, SupplySlugs, CardSlugs;
  }

  lemma TierStep(c: Carousel, tier: Tier, matches: seq<MatchInput>, rules: Rules, n: nat)
    requires OneEach(c, Eligible(matches), rules, n) && !MultiSupplies(Eligible(matches), rules) && tier !in c.cards
    ensures var c' := FillTier(c, tier, Sports(Eligible(matches)), rules);
            && OneEach(c', Eligible(matches), rules, n + 1)
            && (tier in c'.cards <==> n < |SupplySlugs(Eligible(matches), rules)|)
  {
    hide FirstPass, Sports, Eligible, Supplies, Open, OneEach, SupplySlugs, MultiSupplies, Deal;
    FilledIff(c, tier, matches, rules);
    OpenSupplierIff(c, Eligible(matches), rules, n);
    ChosenSport(c, tier, matches, rules);
    var choice := FirstPass(c, tier, 0, Sports(Eligible(matches)), rules);
    if choice.Some? {
      DealOneEach(c, tier, choice.value, Eligible(matches), rules, n);
    } else {
      StillOneEach(c, Eligible(matches), rules, n);
    }
  }

  lemma UnusedSport(c: Carousel, slug: string, eligible: seq<MatchInput>, rules: Rules)
    requires Tracked(c, eligible, rules) && Open(c, slug, rules) && Supplies(eligible, slug, rules) && !MultiSupplies(eligible, rules)
    ensures slug !in CardSlugs(c)
  {
    hide Supplies;
  }

  lemma NothingDealt(eligible: seq<MatchInput>, rules: Rules)
    ensures OneEach(Carousel(map[], {}, map[]), eligible, rules, 0)
  {
    hide Supplies, SupplySlugs;
  }

  lemma {:induction false} TiersDealt(n: nat, matches: seq<MatchInput>, rules: Rules)
    requires n <= |TIER_ORDER| && !MultiSupplies(Eligible(matches), rules)
    ensures var c, k := FillTiers(n, Sports(Eligible(matches)), rules), |SupplySlugs(Eligible(matches), rules)|;
            OneEach(c, Eligible(matches), rules, n) && forall i :: 0 <= i < n ==> (TIER_ORDER[i] in c.cards <==> i < k)
  {
    hide FillTier, Sports, Eligible, OneEach, SupplySlugs, MultiSupplies;
    if n == 0 {
      NothingDealt(Eligible(matches), rules);
      return;
    }
    var sports := Sports(Eligible(matches));
    var c, tier := FillTiers(n - 1, sports, rules), TIER_ORDER[n - 1];
    TiersDealt(n - 1, matches, rules);
    OnlyFilled(n - 1, sports, rules);
    TierFresh(n - 1);
    TierStep(c, tier, matches, rules, n - 1);
    FillOne(c, tier, sports, rules);
    TiersApart(n);
  }

  lemma TiersApart(n: nat)
    requires n <= |TIER_ORDER|
    ensures forall i :: 0 <= i < n - 1 ==> TIER_ORDER[i] != TIER_ORDER[n - 1]
  {
  }

  /** Which tiers a pool fills, from the pool alone: all of them if a multi-card sport has three
      matches each with a boost-eligible side, and otherwise the first as many as there are sports
      with three such matches. */
  lemma TiersFilledIff(matches: seq<MatchInput>, rules: Rules, i: nat)
    requires i < |TIER_ORDER|
    ensures TIER_ORDER[i] in Build(matches, rules) <==>
            MultiSupplies(Eligible(matches), rules) || i < |SupplySlugs(Eligible(matches), rules)|
  {
    hide FillTiers, Sports, Eligible, Supplies, SupplySlugs;
    var eligible := Eligible(matches);
    if slug :| slug in rules.multiCardSports && Supplies(eligible, slug, rules) {
      AllTiersFilled(matches, rules, slug, TIER_ORDER[i]);
      return;
    }
    TiersDealt(4, matches, rules);
    if |eligible| < 3 && SupplySlugs(eligible, rules) != {} {
      var slug :| slug in SupplySlugs(eligible, rules);
      SupplierListed(eligible, rules, slug);
      var sport := SuppliesHasBucket(matches, slug, rules);
    }
  }

  /** All four cards, the promise of the builder's comment: exactly when a multi-card sport supplies
      or at least four sports do. */
  lemma AllFourIff(matches: seq<MatchInput>, rules: Rules)
    ensures (forall tier :: tier in Build(matches, rules)) <==>
            MultiSupplies(Eligible(matches), rules) || |SupplySlugs(Eligible(matches), rules)| >= 4
  {
    hide Build, Eligible, MultiSupplies, SupplySlugs;
    forall i | 0 <= i < 4
      ensures TIER_ORDER[i] in Build(matches, rules) <==>
              MultiSupplies(Eligible(matches), rules) || i < |SupplySlugs(Eligible(matches), rules)|
    {
      TiersFilledIff(matches, rules, i);
    }
    if MultiSupplies(Eligible(matches), rules) || |SupplySlugs(Eligible(matches), rules)| >= 4 {
      forall tier ensures tier in Build(matches, rules) { TierPosition(tier); }
    }
    assert TIER_ORDER[3] == Ultimate;
  }

  // ----- a pool of one sport -----

  lemma {:induction false} PrematchWhole(matches: seq<MatchInput>)
    requires forall m :: m in matches ==> IsPrematch(m)
    ensures Prematch(matches) == matches
  {
    hide IsPrematch;
    if matches != [] {
      var n := |matches| - 1;
      assert matches == matches[..n] + [matches[n]];
      PrematchWhole(matches[..n]);
    }
  }

  lemma {:induction false} DedupeWhole(matches: seq<MatchInput>)
    requires DistinctIds(matches)
    ensures Dedupe(matches) == matches
  {
    if matches != [] {
      var n := |matches| - 1;
      assert matches == matches[..n] + [matches[n]];
      DedupeWhole(matches[..n]);
      LastIdNew(matches);
    }
  }

  lemma LastIdNew(matches: seq<MatchInput>)
    requires DistinctIds(matches) && matches != []
    ensures matches[|matches| - 1].id !in Ids(matches[..|matches| - 1])
  {
  }

  /** A pool of one sport off the multi-card list fills the first tier at most, however deep it is. */
  lemma OneSportOneCard(matches: seq<MatchInput>, rules: Rules, slug: string, i: nat)
    requires slug !in rules.multiCardSports && (forall m :: m in matches ==> m.sportSlug == slug)
    requires 0 < i < |TIER_ORDER|
    ensures TIER_ORDER[i] !in Build(matches, rules)
  {
    hide Build, Supplies, Eligible;
    var eligible := Eligible(matches);
    EligibleFacts(matches);
    TiersFilledIff(matches, rules, i);
    forall x | Supplies(eligible, x, rules) ensures x == slug { SupplierListed(eligible, rules, x); }
    assert SupplySlugs(eligible, rules) <= {slug};
    AtMostOne(SupplySlugs(eligible, rules), slug);
  }

  lemma AtMostOne(s: set<string>, x: string)
    requires s <= {x}
    ensures |s| <= 1
  {
    assert s == {} || s == {x};
  }

  lemma OfferQualifies(m: MatchInput, boostMin: real, lib: Library)
    requires m.matchWinner.Some? && m.matchWinner.value.home.price == Some("2") && lib.read("2") == Some(2.0) && boostMin <= 2.0
    ensures SidesOf(m, FloorOnly(boostMin), lib) != []
  {
    assert SideIf(m, Home, FloorOnly(boostMin), lib) != [];
  }

  /** Three boost-eligible matches of one sport off the multi-card list are dealt one card. */
  lemma ThreeDealtOnce(matches: seq<MatchInput>, rules: Rules, slug: string)
    requires |matches| == 3 && DistinctIds(matches) && slug !in rules.multiCardSports
    requires forall m :: m in matches ==> IsPrematch(m) && m.sportSlug == slug && SidesOf(m, FloorOnly(rules.boostMin), rules.lib) != []
    ensures Eligible(matches) == matches && Supplies(matches, slug, rules)
    ensures Safe in Build(matches, rules) && Challenging !in Build(matches, rules)
  {
    hide Build, Supplies, SidesOf, SupplySlugs;
    PrematchWhole(matches);
    DedupeWhole(matches);
    assert matches[0] in matches && matches[1] in matches && matches[2] in matches;
    ThreeSupply(matches, rules, matches[0], matches[1], matches[2]);
    OneSportOneCard(matches, rules, slug, 1);
    TiersFilledIff(matches, rules, 0);
    SupplierListed(matches, rules, slug);
    assert TIER_ORDER[0] == Safe && TIER_ORDER[1] == Challenging;
  }

  /** Such a pool: three matches, and not all four cards. */
  lemma ThreeMatchesOneCard(lib: Library) returns (matches: seq<MatchInput>, rules: Rules)
    requires lib.read("2") == Some(2.0)
    ensures rules.lib == lib && |Eligible(matches)| == 3 && Supplies(Eligible(matches), "s", rules)
    ensures Safe in Build(matches, rules) && Challenging !in Build(matches, rules)
  {
    hide Build, Supplies, SidesOf, Eligible;
    rules := Rules(1.5, {}, lib);
    var winner := Some(MatchWinner("w", Outcome("h", Some("2")), Outcome("a", None)));
    matches := [MatchInput("1", None, winner, "s", "S"), MatchInput("2", None, winner, "s", "S"), MatchInput("3", None, winner, "s", "S")];
    forall m | m in matches ensures SidesOf(m, FloorOnly(1.5), lib) != [] { OfferQualifies(m, 1.5, lib); }
    ThreeDealtOnce(matches, rules, "s");
  }

  /** Three eligible matches with distinct ids and a boost-eligible side each are a supply. */
  lemma ThreeSupply(eligible: seq<MatchInput>, rules: Rules, a: MatchInput, b: MatchInput, c: MatchInput)
    requires a in eligible && b in eligible && c in eligible
    requires a.id != b.id && b.id != c.id && a.id != c.id && a.sportSlug == b.sportSlug == c.sportSlug
    requires forall m :: m in [a, b, c] ==> SidesOf(m, FloorOnly(rules.boostMin), rules.lib) != []
    ensures Supplies(eligible, a.sportSlug, rules)
  {
    hide Qualify, BySlug;
    var ms, allowed := BySlug(eligible, a.sportSlug), FloorOnly(rules.boostMin);
    BySlugFacts(eligible, a.sportSlug);
    var i := QualifiedAt(ms, allowed, rules.lib, a);
    var j := QualifiedAt(ms, allowed, rules.lib, b);
    var k := QualifiedAt(ms, allowed, rules.lib, c);
    var q := Qualify(ms, allowed, rules.lib);
    assert i != j && j != k && i != k;
  }

  lemma QualifiedAt(ms: seq<MatchInput>, allowed: real -> bool, lib: Library, m: MatchInput) returns (i: nat)
    requires m in ms && SidesOf(m, allowed, lib) != []
    ensures i < |Qualify(ms, allowed, lib)| && Qualify(ms, allowed, lib)[i].matchId == m.id
  {
    var q := QualMatch(m.id, SidesOf(m, allowed, lib));
    QualifyMembers(ms, allowed, lib, q);
    i :| 0 <= i < |Qualify(ms, allowed, lib)| && Qualify(ms, allowed, lib)[i] == q;
  }
}
