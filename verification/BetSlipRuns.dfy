/** Consent, quotes and persistence over runs of the bet slip (apps/web/src/lib/bet-slip.tsx). */
module BetSlipRuns {
  import opened Options
  import opened BetSlip

  // ----- consent -----

  /** The slip holds this pick at these accepted odds. */
  ghost predicate Holds(slip: Slip, marketId: string, outcomeId: string, odds: string) {
    exists s :: s in slip.selections && Is(s, marketId, outcomeId) && s.odds == odds
  }

  /** The slip shows this pick with `odds` waiting for the bettor. */
  ghost predicate Shows(slip: Slip, marketId: string, outcomeId: string, odds: string) {
    exists s :: s in slip.selections && Is(s, marketId, outcomeId) && s.pendingOdds == Some(odds)
  }

  /** The action by which the bettor agrees to a price. */
  ghost predicate Agrees(slip: Slip, a: Action, marketId: string, outcomeId: string, odds: string) {
    || (a.Add? && Is(a.selection, marketId, outcomeId) && a.selection.odds == odds)
    || (a.AcceptPendingOdds? && Shows(slip, marketId, outcomeId, odds))
  }

  lemma MappedHolds(legs: seq<Selection>, f: Selection -> Selection, s: Selection) returns (was: Selection)
    requires s in Map(legs, f)
    ensures was in legs && f(was) == s
  {
    var i :| 0 <= i < |Map(legs, f)| && Map(legs, f)[i] == s;
    was := legs[i];
  }

  /** A leg's accepted odds after a step are those it had before, or ones the bettor just agreed to. */
  lemma OddsNeedConsent(slip: Slip, a: Action, env: Env, marketId: string, outcomeId: string, odds: string)
    requires Holds(Step(slip, a, env), marketId, outcomeId, odds)
    ensures Holds(slip, marketId, outcomeId, odds) || Agrees(slip, a, marketId, outcomeId, odds)
  {
    hide Map, SameOdds;
    var s :| s in Step(slip, a, env).selections && Is(s, marketId, outcomeId) && s.odds == odds;
    match a
    case UpdateOdds(tick) =>
      var was := MappedHolds(slip.selections, (x: Selection) => Ticked(x, tick, env), s);
    case SetMarketStatus(market, status) =>
      var was := MappedHolds(slip.selections, (x: Selection) => Statused(x, market, status), s);
    case Reload =>
      var was := MappedHolds(slip.selections, (x: Selection) => WithoutPending(x), s);
    case AcceptPendingOdds =>
      if s !in slip.selections {
        var was := MappedHolds(slip.selections, (x: Selection) => AcceptedLeg(x), s);
      }
    case _ =>
  }

  /** The bettor agreed to these odds for this pick at some step of the run, and the pick has been
      held at them ever since. */
  ghost predicate AgreedAndKept(actions: seq<Action>, env: Env, marketId: string, outcomeId: string, odds: string, at: nat) {
    && at < |actions|
    && Agrees(After(actions[..at], env), actions[at], marketId, outcomeId, odds)
    && forall n :: at < n <= |actions| ==> Holds(After(actions[..n], env), marketId, outcomeId, odds)
  }

  /** Over every run: no leg ever carries odds the bettor did not add or accept. */
  lemma {:induction false} EveryPriceAgreed(actions: seq<Action>, env: Env, marketId: string, outcomeId: string, odds: string)
    returns (at: nat)
    requires Holds(After(actions, env), marketId, outcomeId, odds)
    ensures AgreedAndKept(actions, env, marketId, outcomeId, odds, at)
  {
    hide Step, Holds, Agrees;
    if actions == [] {
      NothingHeld(env, marketId, outcomeId, odds);
      return;
    }
    var n := |actions| - 1;
    var rest := actions[..n];
    OddsNeedConsent(After(rest, env), actions[n], env, marketId, outcomeId, odds);
    assert actions[..|actions|] == actions;
    if Agrees(After(rest, env), actions[n], marketId, outcomeId, odds) {
      at := n;
    } else {
      at := EveryPriceAgreed(rest, env, marketId, outcomeId, odds);
      assert rest[..at] == actions[..at];
      forall k | at < k <= |actions| ensures Holds(After(actions[..k], env), marketId, outcomeId, odds) {
        if k <= n { assert rest[..k] == actions[..k]; }
      }
    }
  }

  lemma NothingHeld(env: Env, marketId: string, outcomeId: string, odds: string)
    ensures !Holds(After([], env), marketId, outcomeId, odds)
  {
  }

  // ----- quotes -----

  datatype Priced = Priced(marketId: string, outcomeId: string, odds: string)

  /** What a builder quote prices: the picks and their accepted odds, in order. */
  ghost function PricedLegs(slip: Slip): seq<Priced> {
    seq(|slip.selections|, i requires 0 <= i < |slip.selections| =>
      Priced(slip.selections[i].marketId, slip.selections[i].outcomeId, slip.selections[i].odds))
  }

  lemma MappedPriced(slip: Slip, after: Slip, f: Selection -> Selection)
    requires after.selections == Map(slip.selections, f)
    requires forall s :: Is(f(s), s.marketId, s.outcomeId) && f(s).odds == s.odds
    ensures PricedLegs(after) == PricedLegs(slip)
  {
    forall i | 0 <= i < |slip.selections| ensures PricedLegs(after)[i] == PricedLegs(slip)[i] {
      assert after.selections[i] == f(slip.selections[i]);
    }
  }

  /** An action that changes the priced legs drops the quote, with one exception: adding a leg in
      builder mode entered without a match. */
  lemma QuoteDroppedIff(slip: Slip, a: Action, env: Env, matchOf: string -> string)
    requires Inv(slip, env, matchOf) && PricedLegs(Step(slip, a, env)) != PricedLegs(slip)
    ensures Step(slip, a, env).quote == None <==> !(a.Add? && !Building(slip) && slip.quote.Some?)
  {
    hide Map, Filter, SameOdds;
    match a
    case UpdateOdds(tick) =>
      MappedPriced(slip, Step(slip, a, env), (s: Selection) => Ticked(s, tick, env));
    case SetMarketStatus(market, status) =>
      MappedPriced(slip, Step(slip, a, env), (s: Selection) => Statused(s, market, status));
    case _ =>
  }

  /** The exception is real: the quote then covers legs it never priced. */
  lemma StaleQuoteWithoutMatch(env: Env)
    ensures var leg := Selection("m", "k", "o", "2", None, None, None, None);
            var run := [SetMode(Betbuilder), SetQuote(Some("q")), Add(leg)];
            After(run, env).quote == Some("q") && After(run[..2], env).selections != After(run, env).selections
  {
    var leg := Selection("m", "k", "o", "2", None, None, None, None);
    var run := [SetMode(Betbuilder), SetQuote(Some("q")), Add(leg)];
    var two := run[..2];
    assert run[..2] == two && two[..1] == [SetMode(Betbuilder)] && [SetMode(Betbuilder)][..0] == [];
    var s1 := Step(EMPTY, SetMode(Betbuilder), env);
    var s2 := Step(s1, SetQuote(Some("q")), env);
    assert After(two[..1], env) == s1;
    assert After(two, env) == s2;
    assert s2.selections == [] && s2.quote == Some("q") && s2.builderMatch == None;
    var s3 := Step(s2, Add(leg), env);
    assert s3.selections == Filter([], OffMatch("m")) + [leg];
    assert After(run, env) == s3;
  }

  /** Builder mode is only ever entered through a match with an id. */
  ghost predicate EntersByMatch(a: Action) { a != SetMode(Betbuilder) && a != SetBuilderMatch(Some("")) }

  /** The legs priced by the quote in force, as of the last answer stored. */
  ghost function QuotedLegs(actions: seq<Action>, env: Env): seq<Priced> {
    if actions == [] then []
    else
      var rest, a := actions[..|actions| - 1], actions[|actions| - 1];
      if a.SetQuote? && After(rest, env).mode == Betbuilder then PricedLegs(After(rest, env)) else QuotedLegs(rest, env)
  }

  ghost predicate ModeNeedsMatch(slip: Slip) { slip.mode == Betbuilder ==> Building(slip) }

  lemma ModeNeedsMatchStep(slip: Slip, a: Action, env: Env)
    requires ModeNeedsMatch(slip) && EntersByMatch(a)
    ensures ModeNeedsMatch(Step(slip, a, env))
  {
    hide Map, Filter;
  }

  lemma OnlyQuotesAppear(slip: Slip, a: Action, env: Env)
    requires !(a.SetQuote? && slip.mode == Betbuilder)
    ensures Step(slip, a, env).quote.Some? ==> slip.quote.Some?
  {
    hide Map, Filter;
  }

  lemma QuoteStep(slip: Slip, a: Action, env: Env)
    requires a.SetQuote? && slip.mode == Betbuilder
    ensures PricedLegs(Step(slip, a, env)) == PricedLegs(slip)
  {
  }

  /** Over every run that enters the builder through a match, a cached quote prices exactly the legs
      and accepted odds now in the slip. */
  lemma {:induction false} QuoteAlwaysCurrent(actions: seq<Action>, env: Env, matchOf: string -> string)
    requires forall a :: a in actions ==> Fair(a, matchOf) && EntersByMatch(a)
    ensures ModeNeedsMatch(After(actions, env))
    ensures After(actions, env).quote.Some? ==> QuotedLegs(actions, env) == PricedLegs(After(actions, env))
  {
    hide Step, PricedLegs, Fair, EntersByMatch, ModeNeedsMatch, Inv;
    if actions == [] {
      NoModeAtStart(env);
      return;
    }
    var n := |actions| - 1;
    var rest, a := actions[..n], actions[n];
    assert actions == rest + [a];
    QuoteAlwaysCurrent(rest, env, matchOf);
    RunKeeps(rest, env, matchOf);
    var slip := After(rest, env);
    ModeNeedsMatchStep(slip, a, env);
    if a.SetQuote? && slip.mode == Betbuilder {
      QuoteStep(slip, a, env);
    } else {
      OnlyQuotesAppear(slip, a, env);
      if Step(slip, a, env).quote.Some? {
        QuotedHasMatch(slip, env, matchOf);
        if PricedLegs(Step(slip, a, env)) != PricedLegs(slip) { QuoteDroppedIff(slip, a, env, matchOf); }
      }
    }
  }

  /** An answer is stored at step `at` and none after it. */
  ghost predicate LastQuote(actions: seq<Action>, env: Env, at: nat) {
    && at < |actions| && actions[at].SetQuote? && After(actions[..at], env).mode == Betbuilder
    && forall k :: at < k < |actions| && actions[k].SetQuote? ==> After(actions[..k], env).mode != Betbuilder
  }

  lemma {:induction false} QuotedAtLast(actions: seq<Action>, env: Env, at: nat)
    requires LastQuote(actions, env, at)
    ensures QuotedLegs(actions, env) == PricedLegs(After(actions[..at], env))
  {
    hide After, PricedLegs;
    var n := |actions| - 1;
    if at < n {
      var rest := actions[..n];
      assert forall k :: 0 <= k <= n ==> rest[..k] == actions[..k];
      assert LastQuote(rest, env, at);
      QuotedAtLast(rest, env, at);
    }
  }

  /** Late answers: a quote asked for at step `asked` and stored at a later step `at` prices the legs now
      in the slip if and only if the legs did not change while the answer was under way; nothing that
      happens after it is stored can make it wrong. */
  lemma LateQuoteIff(actions: seq<Action>, env: Env, matchOf: string -> string, asked: nat, at: nat)
    requires (forall a :: a in actions ==> Fair(a, matchOf) && EntersByMatch(a)) && asked <= at && LastQuote(actions, env, at)
    requires After(actions, env).quote.Some?
    ensures PricedLegs(After(actions[..asked], env)) == PricedLegs(After(actions, env)) <==>
            PricedLegs(After(actions[..asked], env)) == PricedLegs(After(actions[..at], env))
  {
    hide After, PricedLegs, QuotedLegs, LastQuote;
    QuoteAlwaysCurrent(actions, env, matchOf);
    QuotedAtLast(actions, env, at);
  }

  /** The store takes an answer that comes too late: asked for with one leg, stored with two. */
  lemma LateQuoteIsStale(env: Env)
    ensures var one, two := Selection("m", "k", "o", "2", None, None, None, None), Selection("m", "l", "o", "2", None, None, None, None);
            var run := [SetBuilderMatch(Some("m")), Add(one), Add(two), SetQuote(Some("q"))];
            After(run, env).quote == Some("q") && |After(run[..2], env).selections| == 1 && |After(run, env).selections| == 2
  {
    hide Step;
    var one, two := Selection("m", "k", "o", "2", None, None, None, None), Selection("m", "l", "o", "2", None, None, None, None);
    var run := [SetBuilderMatch(Some("m")), Add(one), Add(two), SetQuote(Some("q"))];
    TwoLegs(one, two, env);
    var s := After(run[..3], env);
    assert run[..3] == [SetBuilderMatch(Some("m")), Add(one), Add(two)] && run[..3][..2] == run[..2];
    Stored(s, "q", env);
  }

  lemma Stored(s: Slip, q: string, env: Env)
    requires s.mode == Betbuilder
    ensures Step(s, SetQuote(Some(q)), env) == s.(quote := Some(q))
  {
  }

  /** A builder with two legs. */
  lemma TwoLegs(one: Selection, two: Selection, env: Env)
    requires one.matchId == two.matchId == "m" && one.marketId != two.marketId
    requires WithoutPending(one) == one && WithoutPending(two) == two
    ensures var run := [SetBuilderMatch(Some("m")), Add(one), Add(two)];
            && After(run[..2], env).selections == [one]
            && After(run, env).selections == [one, two] && After(run, env).mode == Betbuilder && After(run, env).builderMatch == Some("m")
  {
    var run := [SetBuilderMatch(Some("m")), Add(one), Add(two)];
    assert run[..2][..1] == [SetBuilderMatch(Some("m"))] && run[..2][..1][..0] == [];
    var s1 := Step(EMPTY, SetBuilderMatch(Some("m")), env);
    assert After(run[..2][..1], env) == s1;
    assert s1.selections == [] && Building(s1);
    var s2 := Step(s1, Add(one), env);
    assert After(run[..2], env) == s2;
    assert s2.selections == [one] && Building(s2);
    assert [one][..0] == [];
    assert Filter([one], OffMarket(two.marketId)) == Filter([], OffMarket(two.marketId)) + [one];
  }

  lemma NoModeAtStart(env: Env)
    ensures ModeNeedsMatch(EMPTY)
  {
  }

  lemma QuotedHasMatch(slip: Slip, env: Env, matchOf: string -> string)
    requires Inv(slip, env, matchOf) && ModeNeedsMatch(slip) && slip.quote.Some?
    ensures Building(slip)
  {
  }

  // ----- one pick per match -----

  ghost predicate DistinctMatches(legs: seq<Selection>) {
    forall i, j :: 0 <= i < j < |legs| ==> legs[i].matchId != legs[j].matchId
  }

  /** Outside a builder match, one pick per match. */
  ghost predicate OneEach(slip: Slip) { !Building(slip) ==> DistinctMatches(slip.selections) }

  lemma {:induction false} FilterMatches(legs: seq<Selection>, keep: Selection -> bool)
    requires DistinctMatches(legs)
    ensures DistinctMatches(Filter(legs, keep))
  {
    if legs != [] {
      var n := |legs| - 1;
      var rest := Filter(legs[..n], keep);
      FilterMatches(legs[..n], keep);
      forall i | 0 <= i < |rest| ensures rest[i].matchId != legs[n].matchId {
        assert rest[i] in rest;
      }
    }
  }

  lemma MappedMatches(legs: seq<Selection>, f: Selection -> Selection)
    requires DistinctMatches(legs) && forall s :: f(s).matchId == s.matchId
    ensures DistinctMatches(Map(legs, f))
  {
  }

  /** The one-pick-per-match rule survives every action except leaving a builder of two or more legs
      through the mode switch, which keeps them all. */
  lemma OneEachIff(slip: Slip, a: Action, env: Env, matchOf: string -> string)
    requires Inv(slip, env, matchOf) && Fair(a, matchOf) && OneEach(slip)
    ensures OneEach(Step(slip, a, env)) <==>
            !(a.SetMode? && a.mode != Betbuilder && Building(slip) && |slip.selections| >= 2)
  {
    hide Map, Filter, SameOdds, Ticked, Statused, AcceptedLeg, DistinctMatches;
    match a
    case Add(selection) => AddOneEach(slip, selection, env, matchOf);
    case Remove(marketId, outcomeId) =>
      if !Building(slip) { FilterMatches(slip.selections, NotPick(marketId, outcomeId)); }
      NoLegs();
    case Clear => NoLegs();
    case SetBuilderMatch(matchId) =>
      NoLegs();
      if matchId == Some("") { EmptyBuilder(slip, env, matchOf); }
    case SetMode(mode) =>
      if Building(slip) { LeavingKeepsLegs(slip, env, matchOf); }
    case UpdateOdds(tick) =>
      TickMatches(tick, env);
      if !Building(slip) { MappedMatches(slip.selections, (s: Selection) => Ticked(s, tick, env)); }
    case SetMarketStatus(market, status) =>
      StatusMatches(market, status);
      if !Building(slip) { MappedMatches(slip.selections, (s: Selection) => Statused(s, market, status)); }
    case AcceptPendingOdds =>
      AcceptMatches();
      if !Building(slip) { MappedMatches(slip.selections, (s: Selection) => AcceptedLeg(s)); }
    case Reload =>
      if !Building(slip) { MappedMatches(slip.selections, (s: Selection) => WithoutPending(s)); }
    case _ =>
  }

  /** Opening a builder on the empty id leaves no two legs of one match. */
  lemma EmptyBuilder(slip: Slip, env: Env, matchOf: string -> string)
    requires Inv(slip, env, matchOf) && OneEach(slip)
    ensures DistinctMatches(Filter(slip.selections, OnMatch("")))
  {
    var kept := Filter(slip.selections, OnMatch(""));
    if Building(slip) {
      assert forall s :: s in slip.selections ==> s.matchId != "";
    } else {
      FilterMatches(slip.selections, OnMatch(""));
    }
  }

  lemma TickMatches(t: Tick, env: Env)
    ensures forall s :: Ticked(s, t, env).matchId == s.matchId
  {
  }

  lemma StatusMatches(market: string, status: int)
    ensures forall s :: Statused(s, market, status).matchId == s.matchId
  {
  }

  lemma AcceptMatches()
    ensures forall s :: AcceptedLeg(s).matchId == s.matchId
  {
  }

  lemma NoLegs()
    ensures DistinctMatches([])
  {
  }

  lemma AddOneEach(slip: Slip, selection: Selection, env: Env, matchOf: string -> string)
    requires Inv(slip, env, matchOf) && OneEach(slip)
    ensures OneEach(AddTo(slip, selection))
  {
    var leg := WithoutPending(selection);
    if !Building(slip) {
      FilterMatches(slip.selections, OffMatch(leg.matchId));
      var rest := Filter(slip.selections, OffMatch(leg.matchId));
      forall i | 0 <= i < |rest| ensures rest[i].matchId != leg.matchId {
        assert rest[i] in rest;
      }
    }
  }

  lemma LeavingKeepsLegs(slip: Slip, env: Env, matchOf: string -> string)
    requires Inv(slip, env, matchOf) && Building(slip)
    ensures DistinctMatches(slip.selections) <==> |slip.selections| < 2
  {
    if |slip.selections| >= 2 {
      assert slip.selections[0] in slip.selections && slip.selections[1] in slip.selections;
    }
  }

  /** And that action does break it: two legs built on one match, then the mode switch. */
  lemma LeavingKeepsBoth(env: Env)
    ensures var one, two := Selection("m", "k", "o", "2", None, None, None, None), Selection("m", "l", "o", "2", None, None, None, None);
            var run := [SetBuilderMatch(Some("m")), Add(one), Add(two), SetMode(Combo)];
            OneEach(After(run[..3], env)) && After(run, env).selections == [one, two] && !OneEach(After(run, env))
  {
    hide Step;
    var one, two := Selection("m", "k", "o", "2", None, None, None, None), Selection("m", "l", "o", "2", None, None, None, None);
    var run := [SetBuilderMatch(Some("m")), Add(one), Add(two), SetMode(Combo)];
    TwoLegs(one, two, env);
    assert run[..3] == [SetBuilderMatch(Some("m")), Add(one), Add(two)];
    LeftBuilder(After(run[..3], env), env);
    assert [one, two][0].matchId == [one, two][1].matchId;
  }

  lemma LeftBuilder(s: Slip, env: Env)
    requires s.mode == Betbuilder
    ensures Step(s, SetMode(Combo), env) == LeaveBuilder(s, Combo)
  {
  }

  // ----- persistence -----

  /** A reload gives back legs, mode, currency and builder match, forgetting only drift, the quote
      and the eligibility list; a second reload changes nothing. */
  lemma ReloadRoundTrip(slip: Slip, env: Env)
    requires env.isCurrency(slip.currency)
    ensures var r := Step(slip, Reload, env);
            && PricedLegs(r) == PricedLegs(slip)
            && r.mode == slip.mode && r.currency == slip.currency && r.builderMatch == slip.builderMatch
            && Persist(r) == Persist(slip)
            && Step(r, Reload, env) == r
  {
    var r := Step(slip, Reload, env);
    MappedPriced(slip, r, (s: Selection) => WithoutPending(s));
    assert Persist(r).selections == Persist(slip).selections;
    assert Step(r, Reload, env).selections == r.selections;
  }

  /** The tick leaves the leg's stored form alone. Either the leg already carries an explicit active
      flag at the tick's value, or it has none, counts as active still, and shows this drift already;
      and a price that holds brings no new probability. */
  predicate StoresNothing(s: Selection, t: Tick, env: Env) {
    var next := if t.active == None then Active(s) else t.active.value;
    var incoming := if t.probability == Some("") then None else t.probability;
    var same := SameOdds(t.odds, s.odds, env);
    && (|| s.active == Some(next)
        || (s.active == None && next && s.pendingOdds == (if same then None else Some(t.odds))
            && s.pendingProbability == if same then None else incoming))
    && (same && incoming.Some? ==> s.probability == incoming)
  }

  lemma LegStoredIff(s: Selection, t: Tick, env: Env)
    requires Is(s, t.marketId, t.outcomeId)
    ensures WithoutPending(Ticked(s, t, env)) == WithoutPending(s) <==> StoresNothing(s, t, env)
  {
    hide SameOdds;
  }

  /** A tick leaves the stored slip unchanged, so that nothing is written, if and only if it leaves
      every leg of its outcome alone in that sense. */
  lemma TickStoresNothingIff(slip: Slip, t: Tick, env: Env)
    ensures Persist(Step(slip, UpdateOdds(t), env)) == Persist(slip) <==>
            forall s :: s in slip.selections && Is(s, t.marketId, t.outcomeId) ==> StoresNothing(s, t, env)
  {
    hide Ticked, SameOdds, StoresNothing, WithoutPending;
    var legs, after := slip.selections, Step(slip, UpdateOdds(t), env);
    forall i | 0 <= i < |legs|
      ensures Persist(after).selections[i] == Persist(slip).selections[i] <==>
              (Is(legs[i], t.marketId, t.outcomeId) ==> StoresNothing(legs[i], t, env))
    {
      if Is(legs[i], t.marketId, t.outcomeId) { LegStoredIff(legs[i], t, env); } else { OtherLeg(legs[i], t, env); }
    }
    if forall s :: s in legs && Is(s, t.marketId, t.outcomeId) ==> StoresNothing(s, t, env) {
      forall i | 0 <= i < |legs| ensures Persist(after).selections[i] == Persist(slip).selections[i] {
        assert legs[i] in legs;
      }
      assert Persist(after).selections == Persist(slip).selections;
    }
  }

  lemma OtherLeg(s: Selection, t: Tick, env: Env)
    requires !Is(s, t.marketId, t.outcomeId)
    ensures Ticked(s, t, env) == s
  {
  }

  /** The first drift tick on a leg without an active flag is stored after all. */
  lemma FirstDriftIsStored(env: Env)
    requires !SameOdds("3", "2", env)
    ensures var slip := After([Add(Selection("m", "k", "o", "2", None, None, None, None))], env);
            Persist(Step(slip, UpdateOdds(Tick("k", "o", "3", None, None)), env)) != Persist(slip)
  {
    hide SameOdds;
    var leg, t := Selection("m", "k", "o", "2", None, None, None, None), Tick("k", "o", "3", None, None);
    var run := [Add(leg)];
    assert run[..|run| - 1] == [] && After([], env) == EMPTY;
    var slip := After(run, env);
    assert slip == Step(EMPTY, Add(leg), env);
    assert slip.selections == [leg];
    assert leg in slip.selections && !StoresNothing(leg, t, env);
    TickStoresNothingIff(slip, t, env);
  }

  // ----- the empty match id -----

  /** Every leg is on the builder match, whenever one is set. */
  ghost predicate AllOnMatch(slip: Slip) {
    slip.builderMatch.Some? ==> forall s :: s in slip.selections ==> s.matchId == slip.builderMatch.value
  }

  lemma RewrittenOnMatch(slip: Slip, after: Slip, f: Selection -> Selection)
    requires AllOnMatch(slip) && after.selections == Map(slip.selections, f) && after.builderMatch == slip.builderMatch
    requires forall s :: f(s).matchId == s.matchId
    ensures AllOnMatch(after)
  {
    hide Map;
    forall s | s in after.selections ensures slip.builderMatch.Some? ==> s.matchId == slip.builderMatch.value {
      var was := MappedHolds(slip.selections, f, s);
    }
  }

  /** An action keeps every leg on the set builder match if and only if it does not add a leg of a real
      match to a builder opened on the empty id. */
  lemma AllOnMatchIff(slip: Slip, a: Action, env: Env, matchOf: string -> string)
    requires Inv(slip, env, matchOf) && AllOnMatch(slip)
    ensures AllOnMatch(Step(slip, a, env)) <==>
            !(a.Add? && slip.builderMatch == Some("") && a.selection.matchId != "")
  {
    hide Map, SameOdds, Ticked, Statused, AcceptedLeg, PendingDiffers, DistinctMarkets, Homed;
    match a
    case UpdateOdds(tick) =>
      TickMatches(tick, env);
      RewrittenOnMatch(slip, Step(slip, a, env), (s: Selection) => Ticked(s, tick, env));
    case SetMarketStatus(market, status) =>
      StatusMatches(market, status);
      RewrittenOnMatch(slip, Step(slip, a, env), (s: Selection) => Statused(s, market, status));
    case AcceptPendingOdds =>
      AcceptMatches();
      RewrittenOnMatch(slip, Accepted(slip), (s: Selection) => AcceptedLeg(s));
    case Reload =>
      RewrittenOnMatch(slip, Step(slip, a, env), (s: Selection) => WithoutPending(s));
    case Add(selection) => AddedOnMatch(slip, selection, env, matchOf);
    case _ =>
  }

  lemma AddedOnMatch(slip: Slip, selection: Selection, env: Env, matchOf: string -> string)
    requires Inv(slip, env, matchOf) && AllOnMatch(slip)
    ensures AllOnMatch(AddTo(slip, selection)) <==> !(slip.builderMatch == Some("") && selection.matchId != "")
  {
    hide SameOdds, PendingDiffers, DistinctMarkets, Homed;
    assert WithoutPending(selection) in AddTo(slip, selection).selections;
  }

  /** A builder opened on the empty match id is stored but treated as off, and the next leg breaks
      "every leg is on the builder match". */
  lemma EmptyMatchIdBreaks(env: Env)
    ensures var leg := Selection("m", "k", "o", "2", None, None, None, None);
            var slip := After([SetBuilderMatch(Some("")), Add(leg)], env);
            slip.builderMatch == Some("") && slip.mode == Betbuilder && leg in slip.selections
  {
    var leg := Selection("m", "k", "o", "2", None, None, None, None);
    var run := [SetBuilderMatch(Some("")), Add(leg)];
    assert run[..1] == [SetBuilderMatch(Some(""))] && run[..1][..0] == [];
    var s1 := Step(EMPTY, SetBuilderMatch(Some("")), env);
    assert After(run[..1], env) == s1;
    assert After(run, env) == Step(s1, Add(leg), env);
  }
}
