/** ComboZilla's four-card carousel (apps/web/src/lib/three-fold-builder.ts): tiers, fallback
    passes, sport buckets and the per-sport card cap. */
module ComboCarousel {
  import opened Numbers
  import opened Options
  import opened StableSort
  import opened ComboSearch

  datatype Tier = Safe | Challenging | Risky | Ultimate

  const TIER_ORDER: seq<Tier> := [Safe, Challenging, Risky, Ultimate]

  datatype SportBucket = SportBucket(slug: string, name: string, matches: seq<MatchInput>)

  datatype Card = Card(legs: seq<Leg>, combinedHundredths: int, sportSlug: string, sportName: string)

  datatype Rules = Rules(boostMin: real, multiCardSports: set<string>, lib: Library)

  function BandOf(tier: Tier, boostMin: real): TierBand {
    match tier
    case Safe => TierBand(Max(3.0, boostMin * boostMin * boostMin), 5.0, 4.0)
    case Challenging => TierBand(5.0, 10.0, 7.0)
    case Risky => TierBand(10.0, 20.0, 14.0)
    case Ultimate => TierBand(20.0, 100.0, 30.0)
  }

  function LegAllowed(tier: Tier, boostMin: real): real -> bool {
    match tier
    case Safe => (o: real) => o >= boostMin && o < 2.0
    case Challenging => (o: real) => o >= boostMin
    case Risky => (o: real) => o > Max(boostMin, 1.8)
    case Ultimate => (o: real) => o > Max(boostMin, 2.0)
  }

  function FloorOnly(boostMin: real): real -> bool { (o: real) => o >= boostMin }

  // ----- eligible matches -----

  predicate IsPrematch(m: MatchInput) { m.status == None || m.status == Some("not_started") }

  function Prematch(matches: seq<MatchInput>): seq<MatchInput> {
    if matches == [] then []
    else Prematch(matches[..|matches| - 1]) + if IsPrematch(matches[|matches| - 1]) then [matches[|matches| - 1]] else []
  }

  function Ids(matches: seq<MatchInput>): set<string> { set m | m in matches :: m.id }

  function Dedupe(matches: seq<MatchInput>): seq<MatchInput> {
    if matches == [] then []
    else
      var rest, m := Dedupe(matches[..|matches| - 1]), matches[|matches| - 1];
      if m.id in Ids(rest) then rest else rest + [m]
  }

  method DedupeMatches(matches: seq<MatchInput>) returns (out: seq<MatchInput>)
    ensures out == Dedupe(matches)
  {
    var seen: set<string> := {};
    out := [];
    for i := 0 to |matches|
      invariant out == Dedupe(matches[..i]) && seen == Ids(out)
    {
      assert matches[..i + 1][..i] == matches[..i];
      if matches[i].id !in seen {
        seen := seen + {matches[i].id};
        out := out + [matches[i]];
      }
    }
    assert matches[..|matches|] == matches;
  }

  function Eligible(matches: seq<MatchInput>): seq<MatchInput> { Dedupe(Prematch(matches)) }

  lemma {:induction false} PrematchOnly(matches: seq<MatchInput>, m: MatchInput)
    ensures m in Prematch(matches) <==> m in matches && IsPrematch(m)
  {
    if matches != [] {
      var n := |matches| - 1;
      assert matches == matches[..n] + [matches[n]];
      PrematchOnly(matches[..n], m);
    }
  }

  lemma {:induction false} DedupeFacts(matches: seq<MatchInput>)
    ensures DistinctIds(Dedupe(matches))
    ensures forall m :: m in Dedupe(matches) ==> m in matches
    ensures Ids(Dedupe(matches)) == Ids(matches)
  {
    if matches != [] {
      var n := |matches| - 1;
      assert matches == matches[..n] + [matches[n]];
      DedupeFacts(matches[..n]);
      var rest := Dedupe(matches[..n]);
      forall i | 0 <= i < |rest| ensures rest[i].id in Ids(rest) {
      }
      assert Ids(matches) == Ids(matches[..n]) + {matches[n].id};
      assert Ids(rest + [matches[n]]) == Ids(rest) + {matches[n].id};
    }
  }

  /** The matches the cards draw on: prematch, from the input, each id once. */
  lemma EligibleFacts(matches: seq<MatchInput>)
    ensures DistinctIds(Eligible(matches))
    ensures forall m :: m in Eligible(matches) ==> m in matches && (m.status == None || m.status == Some("not_started"))
  {
    DedupeFacts(Prematch(matches));
    forall m | m in Eligible(matches) ensures m in matches && IsPrematch(m) {
      PrematchOnly(matches, m);
    }
  }

  /** The match stands at `i`, is prematch, and no earlier prematch match has its id. */
  ghost predicate FirstOfId(matches: seq<MatchInput>, i: int) {
    && 0 <= i < |matches| && (matches[i].status == None || matches[i].status == Some("not_started"))
    && forall j :: 0 <= j < i && (matches[j].status == None || matches[j].status == Some("not_started")) ==> matches[j].id != matches[i].id
  }

  /** Exactly the first prematch match of each id is eligible. */
  lemma {:induction false} EligibleExactly(matches: seq<MatchInput>, m: MatchInput)
    ensures m in Eligible(matches) <==> exists i :: FirstOfId(matches, i) && matches[i] == m
  {
    if matches == [] { return; }
    var n := |matches| - 1;
    var rest, x := matches[..n], matches[n];
    EligibleExactly(rest, m);
    EligibleGrows(rest, x);
    assert matches == rest + [x];
    forall i | 0 <= i < n ensures FirstOfId(matches, i) <==> FirstOfId(rest, i) {
    }
    LastFirst(matches);
    if m in Eligible(matches) {
      if m in Eligible(rest) {
        var i :| FirstOfId(rest, i) && rest[i] == m;
        assert FirstOfId(matches, i) && matches[i] == m;
      } else {
        assert FirstOfId(matches, n) && matches[n] == m;
      }
    }
    if i :| FirstOfId(matches, i) && matches[i] == m {
      if i < n { assert FirstOfId(rest, i) && rest[i] == m; }
    }
  }

  lemma EligibleGrows(rest: seq<MatchInput>, x: MatchInput)
    ensures Eligible(rest + [x]) == Eligible(rest) + if IsPrematch(x) && x.id !in Ids(Eligible(rest)) then [x] else []
  {
    assert (rest + [x])[..|rest|] == rest;
    var p := Prematch(rest);
    if IsPrematch(x) {
      assert Prematch(rest + [x]) == p + [x];
      assert (p + [x])[..|p|] == p;
    } else {
      assert Prematch(rest + [x]) == p;
    }
  }

  lemma LastFirst(matches: seq<MatchInput>)
    requires matches != []
    ensures var n := |matches| - 1;
            FirstOfId(matches, n) <==> IsPrematch(matches[n]) && matches[n].id !in Ids(Eligible(matches[..n]))
  {
    var n := |matches| - 1;
    var rest := matches[..n];
    DedupeFacts(Prematch(rest));
    if matches[n].id in Ids(Prematch(rest)) {
      var m :| m in Prematch(rest) && m.id == matches[n].id;
      PrematchOnly(rest, m);
      var j :| 0 <= j < n && rest[j] == m;
      assert matches[j] == m;
    } else {
      forall j | 0 <= j < n && IsPrematch(matches[j]) ensures matches[j].id != matches[n].id {
        assert rest[j] in rest;
        PrematchOnly(rest, rest[j]);
      }
    }
  }

  // ----- sport buckets -----

  function BySlug(matches: seq<MatchInput>, slug: string): seq<MatchInput> {
    if matches == [] then []
    else BySlug(matches[..|matches| - 1], slug)
         + if matches[|matches| - 1].sportSlug == slug then [matches[|matches| - 1]] else []
  }

  lemma {:induction false} BySlugFacts(matches: seq<MatchInput>, slug: string)
    ensures forall m :: m in BySlug(matches, slug) <==> m in matches && m.sportSlug == slug
    ensures DistinctIds(matches) ==> DistinctIds(BySlug(matches, slug))
    ensures |BySlug(matches, slug)| <= |matches|
  {
    if matches != [] {
      var n := |matches| - 1;
      assert matches == matches[..n] + [matches[n]];
      BySlugFacts(matches[..n], slug);
      if DistinctIds(matches) {
        var rest := BySlug(matches[..n], slug);
        forall i | 0 <= i < |rest| ensures rest[i].id != matches[n].id {
          assert rest[i] in rest;
        }
      }
    }
  }

  function FindSlug(buckets: seq<SportBucket>, slug: string): (i: nat)
    ensures i <= |buckets| && (i < |buckets| ==> buckets[i].slug == slug)
    ensures forall j :: 0 <= j < i ==> buckets[j].slug != slug
  {
    if buckets == [] then 0
    else if buckets[0].slug == slug then 0
    else 1 + FindSlug(buckets[1..], slug)
  }

  function AddMatch(buckets: seq<SportBucket>, m: MatchInput): seq<SportBucket> {
    var i := FindSlug(buckets, m.sportSlug);
    if i < |buckets| then buckets[i := buckets[i].(matches := buckets[i].matches + [m])]
    else buckets + [SportBucket(m.sportSlug, m.sportName, [m])]
  }

  function Buckets(matches: seq<MatchInput>): seq<SportBucket> {
    if matches == [] then [] else AddMatch(Buckets(matches[..|matches| - 1]), matches[|matches| - 1])
  }

  ghost predicate Partition(buckets: seq<SportBucket>, matches: seq<MatchInput>) {
    && (forall i, j :: 0 <= i < j < |buckets| ==> buckets[i].slug != buckets[j].slug)
    && (forall i :: 0 <= i < |buckets| ==> buckets[i].matches == BySlug(matches, buckets[i].slug))
    && (forall m :: m in matches ==> FindSlug(buckets, m.sportSlug) < |buckets|)
  }

  lemma {:induction false} BucketsPartition(matches: seq<MatchInput>)
    ensures Partition(Buckets(matches), matches)
  {
    if matches == [] { return; }
    var n := |matches| - 1;
    var rest, m := matches[..n], matches[n];
    assert matches == rest + [m];
    BucketsPartition(rest);
    AddKeepsPartition(Buckets(rest), rest, m);
  }

  lemma BySlugAppend(matches: seq<MatchInput>, m: MatchInput, slug: string)
    ensures BySlug(matches + [m], slug) == BySlug(matches, slug) + if m.sportSlug == slug then [m] else []
  {
    assert (matches + [m])[..|matches|] == matches;
  }

  lemma {:induction false} NoneBySlug(matches: seq<MatchInput>, slug: string)
    requires forall m :: m in matches ==> m.sportSlug != slug
    ensures BySlug(matches, slug) == []
  {
    if matches != [] { NoneBySlug(matches[..|matches| - 1], slug); }
  }

  lemma AddKeepsPartition(buckets: seq<SportBucket>, matches: seq<MatchInput>, m: MatchInput)
    requires Partition(buckets, matches)
    ensures Partition(AddMatch(buckets, m), matches + [m])
  {
    hide BySlug, FindSlug;
    var after, i := AddMatch(buckets, m), FindSlug(buckets, m.sportSlug);
    forall j | 0 <= j < |after| ensures after[j].matches == BySlug(matches + [m], after[j].slug) {
      BySlugAppend(matches, m, after[j].slug);
      if j == |buckets| { NoneBySlug(matches, m.sportSlug); }
    }
    AddKeepsFound(buckets, matches, m);
  }

  lemma AddKeepsFound(buckets: seq<SportBucket>, matches: seq<MatchInput>, m: MatchInput)
    requires forall x :: x in matches ==> FindSlug(buckets, x.sportSlug) < |buckets|
    ensures var after := AddMatch(buckets, m);
            forall x :: x in matches + [m] ==> FindSlug(after, x.sportSlug) < |after|
  {
    hide FindSlug;
    var after := AddMatch(buckets, m);
    forall x | x in matches + [m] ensures FindSlug(after, x.sportSlug) < |after| {
      var at := FindSlug(buckets, x.sportSlug);
      assert after[at].slug == x.sportSlug;
    }
  }

  function Bigger(): (SportBucket, SportBucket) -> bool {
    (a: SportBucket, b: SportBucket) => |b.matches| < |a.matches|
  }

  function Size(): SportBucket -> real { (b: SportBucket) => -(|b.matches| as real) }

  function Sports(matches: seq<MatchInput>): seq<SportBucket> { Sort(Buckets(matches), Bigger()) }

  method GroupBySport(matches: seq<MatchInput>) returns (sports: seq<SportBucket>)
    ensures sports == Sports(matches)
  {
    var buckets: seq<SportBucket> := [];
    for i := 0 to |matches|
      invariant buckets == Buckets(matches[..i])
    {
      assert matches[..i + 1][..i] == matches[..i];
      var m := matches[i];
      var at := FindSlug(buckets, m.sportSlug);
      if at < |buckets| {
        buckets := buckets[at := buckets[at].(matches := buckets[at].matches + [m])];
      } else {
        buckets := buckets + [SportBucket(m.sportSlug, m.sportName, [m])];
      }
    }
    assert matches[..|matches|] == matches;
    sports := Sort(buckets, Bigger());
  }

  /** Each sport's bucket holds exactly its matches, in input order; every match has a bucket;
      larger buckets come first. */
  lemma SportsFacts(matches: seq<MatchInput>)
    ensures forall s :: s in Sports(matches) ==> s.matches == BySlug(matches, s.slug)
    ensures forall m :: m in matches ==> exists s :: s in Sports(matches) && s.slug == m.sportSlug
    ensures forall i, j :: 0 <= i < j < |Sports(matches)| ==> |Sports(matches)[i].matches| >= |Sports(matches)[j].matches|
  {
    hide Buckets, Sort, BySlug;
    BucketsPartition(matches);
    var buckets := Buckets(matches);
    SortMembers(buckets, Bigger());
    assert Follows(Bigger(), Size());
    SortOrdered(buckets, Bigger(), Size());
    var sports := Sports(matches);
    forall i, j | 0 <= i < j < |sports| ensures |sports[i].matches| >= |sports[j].matches| {
      assert Size()(sports[i]) <= Size()(sports[j]);
    }
    forall m | m in matches ensures exists s :: s in Sports(matches) && s.slug == m.sportSlug {
      var s := buckets[FindSlug(buckets, m.sportSlug)];
      assert s in buckets;
      assert s in Sports(matches) && s.slug == m.sportSlug;
    }
  }

  ghost predicate Named(b: SportBucket) { b.matches != [] && b.name == b.matches[0].sportName }

  lemma {:induction false} BucketsNamed(matches: seq<MatchInput>)
    ensures forall i :: 0 <= i < |Buckets(matches)| ==> Named(Buckets(matches)[i])
  {
    if matches != [] {
      var n := |matches| - 1;
      BucketsNamed(matches[..n]);
      AddNamed(Buckets(matches[..n]), matches[n]);
    }
  }

  lemma AddNamed(buckets: seq<SportBucket>, m: MatchInput)
    requires forall i :: 0 <= i < |buckets| ==> Named(buckets[i])
    ensures forall i :: 0 <= i < |AddMatch(buckets, m)| ==> Named(AddMatch(buckets, m)[i])
  {
    hide FindSlug;
  }

  /** A sport is shown under the name its first match gives it. */
  lemma SportsNamed(matches: seq<MatchInput>)
    ensures forall s :: s in Sports(matches) ==> s.matches != [] && s.name == s.matches[0].sportName
  {
    hide Buckets, Sort;
    BucketsNamed(matches);
    SortMembers(Buckets(matches), Bigger());
    forall s | s in Sports(matches) ensures Named(s) {
      var i :| 0 <= i < |Buckets(matches)| && Buckets(matches)[i] == s;
    }
  }

  // ----- one tier -----

  datatype Pass = Pass(unusedOnly: bool, ignoreBand: bool, floorOnly: bool)

  const PASSES: seq<Pass> :=
    [Pass(true, false, false), Pass(false, false, false), Pass(false, true, false), Pass(false, true, true)]

  datatype Carousel = Carousel(cards: map<Tier, Card>, used: set<string>, cardsBySport: map<string, nat>)

  function CardsOf(c: Carousel, slug: string): nat { if slug in c.cardsBySport then c.cardsBySport[slug] else 0 }

  /** The per-sport card cap. */
  predicate Open(c: Carousel, slug: string, rules: Rules) {
    !(CardsOf(c, slug) >= 1 && slug !in rules.multiCardSports)
  }

  function Unused(matches: seq<MatchInput>, used: set<string>): seq<MatchInput> {
    if matches == [] then []
    else Unused(matches[..|matches| - 1], used)
         + if matches[|matches| - 1].id !in used then [matches[|matches| - 1]] else []
  }

  lemma {:induction false} UnusedFacts(matches: seq<MatchInput>, used: set<string>)
    ensures forall m :: m in Unused(matches, used) <==> m in matches && m.id !in used
    ensures DistinctIds(matches) ==> DistinctIds(Unused(matches, used))
  {
    if matches != [] {
      var n := |matches| - 1;
      assert matches == matches[..n] + [matches[n]];
      UnusedFacts(matches[..n], used);
      if DistinctIds(matches) {
        var rest := Unused(matches[..n], used);
        forall i | 0 <= i < |rest| ensures rest[i].id != matches[n].id {
          assert rest[i] in rest;
        }
      }
    }
  }

  function Usable(sport: SportBucket, pass: Pass, used: set<string>): seq<MatchInput> {
    if pass.unusedOnly then Unused(sport.matches, used) else sport.matches
  }

  function Filter(pass: Pass, tier: Tier, boostMin: real): real -> bool {
    if pass.floorOnly then FloorOnly(boostMin) else LegAllowed(tier, boostMin)
  }

  function PickIn(c: Carousel, tier: Tier, pass: Pass, sport: SportBucket, rules: Rules): Option<Triple> {
    if !Open(c, sport.slug, rules) then None
    else
      Pick(Usable(sport, pass, c.used), BandOf(tier, rules.boostMin), Filter(pass, tier, rules.boostMin), pass.ignoreBand, rules.lib)
  }

  datatype Choice = Choice(pass: nat, sport: SportBucket, triple: Triple)

  /** The first sport with a pick. */
  function FirstSport(c: Carousel, tier: Tier, p: nat, sports: seq<SportBucket>, rules: Rules): Option<Choice>
    requires p < |PASSES|
  {
    if sports == [] then None
    else
      var t := PickIn(c, tier, PASSES[p], sports[0], rules);
      if t.Some? then Some(Choice(p, sports[0], t.value)) else FirstSport(c, tier, p, sports[1..], rules)
  }

  /** The first pass, from `p` on, with a pick. */
  function FirstPass(c: Carousel, tier: Tier, p: nat, sports: seq<SportBucket>, rules: Rules): Option<Choice>
    requires p <= |PASSES|
    decreases |PASSES| - p
  {
    if p == |PASSES| then None
    else
      var choice := FirstSport(c, tier, p, sports, rules);
      if choice.Some? then choice else FirstPass(c, tier, p + 1, sports, rules)
  }

  function Legs(t: Triple): seq<Leg> { [t.a.selection, t.b.selection, t.c.selection] }

  function LegMatches(legs: seq<Leg>): set<string> { set l | l in legs :: l.matchId }

  function CardOf(choice: Choice): Card {
    Card(Legs(choice.triple), (Product(choice.triple) * 100.0).Floor, choice.sport.slug, choice.sport.name)
  }

  function Deal(c: Carousel, tier: Tier, choice: Choice): Carousel {
    var slug := choice.sport.slug;
    Carousel(c.cards[tier := CardOf(choice)],
             c.used + LegMatches(Legs(choice.triple)),
             c.cardsBySport[slug := CardsOf(c, slug) + 1])
  }

  function FillTier(c: Carousel, tier: Tier, sports: seq<SportBucket>, rules: Rules): Carousel {
    var choice := FirstPass(c, tier, 0, sports, rules);
    if choice == None then c else Deal(c, tier, choice.value)
  }

  function FillTiers(n: nat, sports: seq<SportBucket>, rules: Rules): Carousel
    requires n <= |TIER_ORDER|
  {
    if n == 0 then Carousel(map[], {}, map[]) else FillTier(FillTiers(n - 1, sports, rules), TIER_ORDER[n - 1], sports, rules)
  }

  function Build(matches: seq<MatchInput>, rules: Rules): map<Tier, Card> {
    var eligible := Eligible(matches);
    if |eligible| < 3 then map[] else FillTiers(4, Sports(eligible), rules).cards
  }

  // ----- the loops -----

  method OverSports(c: Carousel, tier: Tier, p: nat, sports: seq<SportBucket>, rules: Rules) returns (picked: Option<Choice>)
    requires p < |PASSES|
    ensures picked == FirstSport(c, tier, p, sports, rules)
  {
    hide Pick, Unused;
    var pass := PASSES[p];
    for i := 0 to |sports|
      invariant FirstSport(c, tier, p, sports, rules) == FirstSport(c, tier, p, sports[i..], rules)
    {
      var sport := sports[i];
      assert sports[i..][0] == sport && sports[i..][1..] == sports[i + 1..];
      var cardsForSport := CardsOf(c, sport.slug);
      if cardsForSport >= 1 && sport.slug !in rules.multiCardSports { continue; }
      var t := PickForTierInSport(
        Usable(sport, pass, c.used), BandOf(tier, rules.boostMin), Filter(pass, tier, rules.boostMin), pass.ignoreBand, rules.lib);
      if t.Some? { return Some(Choice(p, sport, t.value)); }
    }
    assert sports[|sports|..] == [];
    return None;
  }

  method OverPasses(c: Carousel, tier: Tier, sports: seq<SportBucket>, rules: Rules) returns (picked: Option<Choice>)
    ensures picked == FirstPass(c, tier, 0, sports, rules)
  {
    hide FirstSport;
    for p := 0 to |PASSES|
      invariant FirstPass(c, tier, 0, sports, rules) == FirstPass(c, tier, p, sports, rules)
    {
      picked := OverSports(c, tier, p, sports, rules);
      if picked.Some? { return; }
    }
    return None;
  }

  method BuildThreeFoldSuggestions(matches: seq<MatchInput>, rules: Rules) returns (out: map<Tier, Card>)
    ensures out == Build(matches, rules)
  {
    hide FirstPass, Prematch, Dedupe, Sports;
    var prematch := Prematch(matches);
    var eligible := DedupeMatches(prematch);
    if |eligible| < 3 { return map[]; }
    var sports := GroupBySport(eligible);
    out := map[];
    var used: set<string> := {};
    var cardsBySport: map<string, nat> := map[];
    for i := 0 to |TIER_ORDER|
      invariant Carousel(out, used, cardsBySport) == FillTiers(i, sports, rules)
    {
      var c := Carousel(out, used, cardsBySport);
      var picked := OverPasses(c, TIER_ORDER[i], sports, rules);
      if picked == None { continue; }
      var choice := picked.value;
      out := out[TIER_ORDER[i] := CardOf(choice)];
      cardsBySport := cardsBySport[choice.sport.slug := CardsOf(c, choice.sport.slug) + 1];
      used := used + LegMatches(Legs(choice.triple));
    }
  }
}
