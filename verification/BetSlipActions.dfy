/** What each action of the bet slip does, leg by leg and field by field
    (apps/web/src/lib/bet-slip.tsx). */
module BetSlipActions {
  import opened Options
  import opened BetSlip

  /** Whatever `after` lists stands in `before` too, in the same order. */
  ghost predicate InOrder(before: seq<Selection>, after: seq<Selection>) {
    && (forall i :: 0 <= i < |after| ==> after[i] in before)
    && forall i, j :: 0 <= i < j < |after| ==> Before(before, after[i], after[j])
  }

  ghost predicate Before(legs: seq<Selection>, x: Selection, y: Selection) {
    exists p, q :: 0 <= p < q < |legs| && legs[p] == x && legs[q] == y
  }

  lemma BeforeLonger(legs: seq<Selection>, z: Selection, x: Selection, y: Selection)
    requires Before(legs, x, y)
    ensures Before(legs + [z], x, y)
  {
    var p, q :| 0 <= p < q < |legs| && legs[p] == x && legs[q] == y;
    assert (legs + [z])[p] == x && (legs + [z])[q] == y;
  }

  lemma BeforeLast(legs: seq<Selection>, z: Selection, x: Selection)
    requires x in legs
    ensures Before(legs + [z], x, z)
  {
    var p :| 0 <= p < |legs| && legs[p] == x;
    assert (legs + [z])[p] == x && (legs + [z])[|legs|] == z;
  }

  lemma OrderLonger(legs: seq<Selection>, kept: seq<Selection>, z: Selection)
    requires InOrder(legs, kept)
    ensures InOrder(legs + [z], kept) && InOrder(legs + [z], kept + [z])
  {
    hide Before;
    forall i, j | 0 <= i < j < |kept| ensures Before(legs + [z], kept[i], kept[j]) { BeforeLonger(legs, z, kept[i], kept[j]); }
    forall i | 0 <= i < |kept| ensures Before(legs + [z], kept[i], z) { BeforeLast(legs, z, kept[i]); }
  }

  lemma {:induction false} FilterInOrder(legs: seq<Selection>, keep: Selection -> bool)
    ensures InOrder(legs, Filter(legs, keep))
  {
    if legs == [] { return; }
    hide InOrder;
    var n := |legs| - 1;
    assert legs == legs[..n] + [legs[n]];
    FilterInOrder(legs[..n], keep);
    OrderLonger(legs[..n], Filter(legs[..n], keep), legs[n]);
    assert Filter(legs[..n], keep) + [] == Filter(legs[..n], keep);
  }

  /** A builder is on: its mode, with a match id. */
  ghost predicate On(slip: Slip) {
    slip.mode == Betbuilder && slip.builderMatch.Some? && slip.builderMatch.value != ""
  }

  /** The added leg, its price as clicked. */
  ghost predicate AsClicked(leg: Selection, x: Selection) {
    && leg.matchId == x.matchId && leg.marketId == x.marketId && leg.outcomeId == x.outcomeId
    && leg.odds == x.odds && leg.probability == x.probability && leg.active == x.active
    && leg.pendingOdds == None && leg.pendingProbability == None
  }

  /** Outside a builder: every leg of another match stays, unchanged and in order, no leg of the same
      match does, and the new one comes last. Nothing else changes but that the slip opens. */
  lemma AddOutsideBuilder(slip: Slip, x: Selection, env: Env)
    requires !On(slip)
    ensures var after := Step(slip, Add(x), env); var n := |after.selections| - 1;
            && n >= 0 && AsClicked(after.selections[n], x)
            && (forall s :: s in after.selections[..n] <==> s in slip.selections && s.matchId != x.matchId)
            && InOrder(slip.selections, after.selections[..n])
            && after == slip.(selections := after.selections, open := true)
  {
    var rest := Filter(slip.selections, OffMatch(x.matchId));
    FilterInOrder(slip.selections, OffMatch(x.matchId));
    var after := Step(slip, Add(x), env);
    assert after.selections[..|after.selections| - 1] == rest;
  }

  /** On the builder's match: every leg on another market stays, unchanged and in order, the new one comes
      last, and the quote goes. */
  lemma AddOnBuilderMatch(slip: Slip, x: Selection, env: Env)
    requires On(slip) && slip.builderMatch == Some(x.matchId)
    ensures var after := Step(slip, Add(x), env); var n := |after.selections| - 1;
            && n >= 0 && AsClicked(after.selections[n], x)
            && (forall s :: s in after.selections[..n] <==> s in slip.selections && s.marketId != x.marketId)
            && InOrder(slip.selections, after.selections[..n])
            && after == slip.(selections := after.selections, open := true, quote := None)
  {
    var rest := Filter(slip.selections, OffMarket(x.marketId));
    FilterInOrder(slip.selections, OffMarket(x.marketId));
    var after := Step(slip, Add(x), env);
    assert after.selections[..|after.selections| - 1] == rest;
  }

  /** From another match: the builder is left, and the new leg is the only one. */
  lemma AddLeavesBuilder(slip: Slip, x: Selection, env: Env)
    requires On(slip) && slip.builderMatch != Some(x.matchId)
    ensures var after := Step(slip, Add(x), env);
            && |after.selections| == 1 && AsClicked(after.selections[0], x)
            && after == Slip(after.selections, Combo, true, slip.currency, None, None, None)
  {
  }

  /** Removing a pick leaves exactly the other picks, in order. In builder mode the quote goes, and with the
      last leg the builder. */
  lemma RemoveLeavesOthers(slip: Slip, marketId: string, outcomeId: string, env: Env)
    ensures var after := Step(slip, Remove(marketId, outcomeId), env);
            && (forall s :: s in after.selections <==> s in slip.selections && !(s.marketId == marketId && s.outcomeId == outcomeId))
            && InOrder(slip.selections, after.selections)
            && after == (if slip.mode != Betbuilder then slip.(selections := after.selections)
                         else if after.selections == [] then Slip([], Combo, slip.open, slip.currency, None, None, None)
                         else slip.(selections := after.selections, quote := None))
  {
    FilterInOrder(slip.selections, NotPick(marketId, outcomeId));
  }

  /** Clearing leaves no leg and no builder; a mode switch leaves the legs alone and, out of the builder,
      drops its match, quote and markets. */
  lemma ClearAndMode(slip: Slip, mode: Mode, env: Env)
    ensures Step(slip, Clear, env)
         == if slip.mode == Betbuilder then Slip([], Combo, slip.open, slip.currency, None, None, None) else slip.(selections := [])
    ensures var after := Step(slip, SetMode(mode), env);
            && after.selections == slip.selections && after.mode == mode && after.open == slip.open && after.currency == slip.currency
            && (if slip.mode == Betbuilder && mode != Betbuilder
                then after.builderMatch == None && after.quote == None && after.eligibleMarkets == None
                else after.builderMatch == slip.builderMatch && after.quote == slip.quote && after.eligibleMarkets == slip.eligibleMarkets)
  {
  }

  /** Opening a builder keeps exactly the legs of its match, in order; closing one drops every leg. */
  lemma BuilderMatchLegs(slip: Slip, m: string, env: Env)
    ensures var after := Step(slip, SetBuilderMatch(Some(m)), env);
            && (forall s :: s in after.selections <==> s in slip.selections && s.matchId == m)
            && InOrder(slip.selections, after.selections)
            && after.mode == Betbuilder && after.builderMatch == Some(m) && after.quote == None && after.open
            && after.currency == slip.currency
            && after.eligibleMarkets == if slip.builderMatch == Some(m) then slip.eligibleMarkets else None
    ensures Step(slip, SetBuilderMatch(None), env)
         == if slip.mode != Betbuilder then slip else Slip([], Combo, slip.open, slip.currency, None, None, None)
  {
    FilterInOrder(slip.selections, OnMatch(m));
  }

  /** Answers from the server count only for the builder they belong to; an unknown currency is ignored. */
  lemma SingleFields(slip: Slip, quote: Option<string>, m: string, ids: seq<string>, currency: string, open: bool, env: Env)
    ensures Step(slip, SetQuote(quote), env) == slip.(quote := if slip.mode == Betbuilder then quote else slip.quote)
    ensures Step(slip, SetEligibleMarkets(m, ids), env)
         == slip.(eligibleMarkets := if slip.mode == Betbuilder && slip.builderMatch == Some(m) then Some(ids) else slip.eligibleMarkets)
    ensures Step(slip, SetCurrency(currency), env) == slip.(currency := if env.isCurrency(currency) then currency else slip.currency)
    ensures Step(slip, SetOpen(open), env) == slip.(open := open)
  {
  }

  // ----- ticks -----

  /** Two prices on the four-decimal grid are the same exactly when they are the same number, however they
      are written. */
  lemma SamePriceIff(a: string, b: string, env: Env, u: int, v: int)
    requires env.read(a) == Some(u as real / 10000.0) && env.read(b) == Some(v as real / 10000.0)
    ensures SameOdds(a, b, env) <==> u == v
  {
    if u != v { assert u as real - v as real >= 1.0 || v as real - u as real >= 1.0; }
  }

  /** Texts that are not both numbers are the same only if identical. */
  lemma UnreadableSameIff(a: string, b: string, env: Env)
    requires env.read(a) == None || env.read(b) == None
    ensures SameOdds(a, b, env) <==> a == b
  {
  }

  /** A leg counts as active unless it says otherwise. */
  ghost predicate Bettable(s: Selection) { s.active != Some(false) }

  /** Only what may change on a leg. */
  ghost predicate SameTerms(a: Selection, b: Selection) {
    a.matchId == b.matchId && a.marketId == b.marketId && a.outcomeId == b.outcomeId && a.odds == b.odds
  }

  /** A price tick, leg by leg. A leg of another outcome is untouched. On its own outcome the leg is as
      bettable as the tick says, or as before; a price that holds clears any drift and takes the tick's
      probability if there is one; a price that moved is put beside the accepted one with the tick's
      probability. Nothing else on the slip changes. */
  lemma TickMeans(slip: Slip, t: Tick, env: Env, i: nat)
    requires i < |slip.selections|
    ensures var after := Step(slip, UpdateOdds(t), env); |after.selections| == |slip.selections| && after == slip.(selections := after.selections)
    ensures var s, r := slip.selections[i], Step(slip, UpdateOdds(t), env).selections[i];
            var news := t.probability != None && t.probability != Some("");
            if s.marketId != t.marketId || s.outcomeId != t.outcomeId then r == s
            else
              && SameTerms(r, s)
              && (Bettable(r) <==> if t.active == None then Bettable(s) else t.active.value)
              && (SameOdds(t.odds, s.odds, env) ==>
                    r.pendingOdds == None && r.pendingProbability == None && r.probability == if news then t.probability else s.probability)
              && (!SameOdds(t.odds, s.odds, env) ==>
                    && r.pendingOdds == Some(t.odds) && r.probability == s.probability
                    && r.pendingProbability == if news then t.probability else None)
  {
    hide SameOdds;
  }

  /** A market status, leg by leg: the market's legs are bettable exactly when the status is 1. */
  lemma StatusMeans(slip: Slip, market: string, status: int, env: Env, i: nat)
    requires i < |slip.selections|
    ensures var after := Step(slip, SetMarketStatus(market, status), env);
            |after.selections| == |slip.selections| && after == slip.(selections := after.selections)
    ensures var s, r := slip.selections[i], Step(slip, SetMarketStatus(market, status), env).selections[i];
            if s.marketId != market then r == s else r == s.(active := r.active) && (Bettable(r) <==> status == 1)
  {
  }

  /** Accepting, leg by leg: a leg with a price waiting takes it, with its probability if one came along, and
      waits no more; every other leg is untouched. In builder mode the quote goes if anything was waiting. */
  lemma AcceptMeans(slip: Slip, env: Env, i: nat)
    requires i < |slip.selections|
    ensures var s, after := slip.selections[i], Step(slip, AcceptPendingOdds, env);
            && |after.selections| == |slip.selections|
            && (s.pendingOdds == None ==> after.selections[i] == s)
            && (s.pendingOdds.Some? ==>
                  after.selections[i] == s.(odds := s.pendingOdds.value, pendingOdds := None, pendingProbability := None,
                                            probability := if s.pendingProbability.Some? then s.pendingProbability else s.probability))
    ensures var waiting := exists s :: s in slip.selections && s.pendingOdds.Some?;
            var after := Step(slip, AcceptPendingOdds, env);
            after == slip.(selections := after.selections, quote := if waiting && slip.mode == Betbuilder then None else slip.quote)
  {
    hide AcceptedLeg, Map;
    WaitingIff(slip.selections);
    AcceptedAt(slip.selections, i);
  }

  lemma WaitingIff(legs: seq<Selection>)
    ensures Map(legs, (s: Selection) => AcceptedLeg(s)) == legs <==> !exists s :: s in legs && s.pendingOdds.Some?
  {
    hide AcceptedLeg;
    var next := Map(legs, (s: Selection) => AcceptedLeg(s));
    if s :| s in legs && s.pendingOdds.Some? {
      var j :| 0 <= j < |legs| && legs[j] == s;
      AcceptedLegFacts(s);
      assert next[j] != legs[j];
    } else {
      forall j | 0 <= j < |legs| ensures next[j] == legs[j] {
        assert legs[j] in legs;
        AcceptedLegFacts(legs[j]);
      }
    }
  }

  lemma AcceptedAt(legs: seq<Selection>, i: nat)
    requires i < |legs|
    ensures var next, s := Map(legs, (s: Selection) => AcceptedLeg(s)), legs[i];
            && |next| == |legs|
            && (s.pendingOdds == None ==> next[i] == s)
            && (s.pendingOdds.Some? ==>
                  next[i] == s.(odds := s.pendingOdds.value, pendingOdds := None, pendingProbability := None,
                                probability := if s.pendingProbability.Some? then s.pendingProbability else s.probability))
  {
    hide AcceptedLeg;
    AcceptedLegFacts(legs[i]);
    Taken(legs[i]);
  }

  lemma Taken(s: Selection)
    ensures s.pendingOdds.Some? ==>
              AcceptedLeg(s) == s.(odds := s.pendingOdds.value, pendingOdds := None, pendingProbability := None,
                                   probability := if s.pendingProbability.Some? then s.pendingProbability else s.probability)
  {
  }

  /** A reload, leg by leg: all but the drift comes back; the slip is closed, without quote or markets. */
  lemma ReloadMeans(slip: Slip, env: Env, i: nat)
    requires i < |slip.selections|
    ensures var s, after := slip.selections[i], Step(slip, Reload, env);
            && |after.selections| == |slip.selections|
            && after.selections[i] == s.(pendingOdds := None, pendingProbability := None)
            && after == Slip(after.selections, slip.mode, false, if env.isCurrency(slip.currency) then slip.currency else "OZ",
                             slip.builderMatch, None, None)
  {
  }

  /** A slip starts empty, as a closed combo in the demo currency. */
  lemma StartsEmpty(env: Env)
    ensures After([], env) == Slip([], Combo, false, "OZ", None, None, None)
  {
  }
}
