/** The bet slip store (apps/web/src/lib/bet-slip.tsx): one state value replaced by every action. */
module BetSlip {
  import opened Numbers
  import opened Options

  datatype Mode = Single | Combo | Tiple | Tippot | Betbuilder

  datatype Selection = Selection(
    matchId: string,
    marketId: string,
    outcomeId: string,
    odds: string,
    probability: Option<string>,
    active: Option<bool>,
    pendingOdds: Option<string>,
    pendingProbability: Option<string>)

  datatype Slip = Slip(
    selections: seq<Selection>,
    mode: Mode,
    open: bool,
    currency: string,
    builderMatch: Option<string>,
    quote: Option<string>,
    eligibleMarkets: Option<seq<string>>)

  datatype Tick = Tick(marketId: string, outcomeId: string, odds: string, probability: Option<string>, active: Option<bool>)

  datatype Action =
    | Add(selection: Selection)
    | Remove(marketId: string, outcomeId: string)
    | Clear
    | SetOpen(open: bool)
    | SetMode(mode: Mode)
    | SetBuilderMatch(matchId: Option<string>)
    | SetQuote(quote: Option<string>)
    | SetEligibleMarkets(forMatch: string, marketIds: seq<string>)
    | SetCurrency(currency: string)
    | UpdateOdds(tick: Tick)
    | SetMarketStatus(market: string, status: int)
    | AcceptPendingOdds
    | Reload

  /** The number a price string reads as (none unless finite), and the known currencies. */
  datatype Env = Env(read: string -> Option<real>, isCurrency: string -> bool)

  const DEFAULT_CURRENCY: string := "OZ"
  const SAME_ODDS_EPSILON: real := 0.00005

  const EMPTY: Slip := Slip([], Combo, false, DEFAULT_CURRENCY, None, None, None)

  predicate SameOdds(a: string, b: string, env: Env) {
    || a == b
    || (env.read(a).Some? && env.read(b).Some? && Abs(env.read(a).value - env.read(b).value) < SAME_ODDS_EPSILON)
  }

  // ----- legs -----

  predicate Is(s: Selection, marketId: string, outcomeId: string) { s.marketId == marketId && s.outcomeId == outcomeId }

  function WithoutPending(s: Selection): Selection { s.(pendingOdds := None, pendingProbability := None) }

  function Active(s: Selection): bool { if s.active == None then true else s.active.value }

  function OrElse<T>(a: Option<T>, b: Option<T>): Option<T> { if a.Some? then a else b }

  function Ticked(s: Selection, t: Tick, env: Env): Selection {
    if !Is(s, t.marketId, t.outcomeId) then s
    else
      var nextActive := if t.active == None then Active(s) else t.active.value;
      var incoming := if t.probability == Some("") then None else t.probability;
      var same := SameOdds(t.odds, s.odds, env);
      var nextPendingOdds := if same then None else Some(t.odds);
      var nextPendingProb := if same then None else incoming;
      var nextProb := if same then OrElse(incoming, s.probability) else s.probability;
      if Active(s) == nextActive && s.pendingOdds == nextPendingOdds
         && s.pendingProbability == nextPendingProb && s.probability == nextProb
      then s
      else s.(active := Some(nextActive), probability := nextProb,
              pendingOdds := nextPendingOdds, pendingProbability := nextPendingProb)
  }

  function Statused(s: Selection, marketId: string, status: int): Selection {
    if s.marketId != marketId || Active(s) == (status == 1) then s else s.(active := Some(status == 1))
  }

  function AcceptedLeg(s: Selection): Selection {
    if s.pendingOdds == None then s
    else s.(odds := s.pendingOdds.value, probability := OrElse(s.pendingProbability, s.probability),
            pendingOdds := None, pendingProbability := None)
  }

  // ----- list operations -----

  function Map(s: seq<Selection>, f: Selection -> Selection): (r: seq<Selection>)
    ensures |r| == |s| && forall i :: 0 <= i < |s| ==> r[i] == f(s[i])
  {
    seq(|s|, i requires 0 <= i < |s| => f(s[i]))
  }

  function Filter(s: seq<Selection>, keep: Selection -> bool): (r: seq<Selection>)
    ensures forall x :: x in r <==> x in s && keep(x)
  {
    if s == [] then []
    else
      assert s == s[..|s| - 1] + [s[|s| - 1]];
      Filter(s[..|s| - 1], keep) + if keep(s[|s| - 1]) then [s[|s| - 1]] else []
  }

  // ----- transitions -----

  function OnMatch(matchId: string): Selection -> bool { (s: Selection) => s.matchId == matchId }
  function OffMatch(matchId: string): Selection -> bool { (s: Selection) => s.matchId != matchId }
  function OffMarket(marketId: string): Selection -> bool { (s: Selection) => s.marketId != marketId }
  function NotPick(marketId: string, outcomeId: string): Selection -> bool { (s: Selection) => !Is(s, marketId, outcomeId) }

  /** JavaScript truthiness of the builder match: absent and empty are both off. */
  predicate Building(slip: Slip) {
    slip.mode == Betbuilder && slip.builderMatch != None && slip.builderMatch != Some("")
  }

  function LeaveBuilder(slip: Slip, mode: Mode): Slip {
    slip.(mode := mode, builderMatch := None, quote := None, eligibleMarkets := None)
  }

  function AddTo(slip: Slip, selection: Selection): Slip {
    var leg := WithoutPending(selection);
    if Building(slip) then
      if slip.builderMatch == Some(leg.matchId) then
        slip.(selections := Filter(slip.selections, OffMarket(leg.marketId)) + [leg], quote := None, open := true)
      else LeaveBuilder(slip, Combo).(selections := [leg], open := true)
    else slip.(selections := Filter(slip.selections, OffMatch(leg.matchId)) + [leg], open := true)
  }

  function RemoveFrom(slip: Slip, marketId: string, outcomeId: string): Slip {
    var next := Filter(slip.selections, NotPick(marketId, outcomeId));
    if slip.mode != Betbuilder then slip.(selections := next)
    else if next == [] then LeaveBuilder(slip, Combo).(selections := next)
    else slip.(selections := next, quote := None)
  }

  function Cleared(slip: Slip): Slip {
    if slip.mode == Betbuilder then LeaveBuilder(slip, Combo).(selections := []) else slip.(selections := [])
  }

  function WithMode(slip: Slip, mode: Mode): Slip {
    if slip.mode == Betbuilder && mode != Betbuilder then LeaveBuilder(slip, mode) else slip.(mode := mode)
  }

  function WithBuilderMatch(slip: Slip, matchId: Option<string>): Slip {
    if matchId == None then
      if slip.mode != Betbuilder then slip else LeaveBuilder(slip, Combo).(selections := [])
    else
      slip.(mode := Betbuilder, builderMatch := matchId, selections := Filter(slip.selections, OnMatch(matchId.value)),
            quote := None, open := true,
            eligibleMarkets := if slip.builderMatch == matchId then slip.eligibleMarkets else None)
  }

  function Accepted(slip: Slip): Slip {
    var next := Map(slip.selections, (s: Selection) => AcceptedLeg(s));
    if next == slip.selections then slip
    else slip.(selections := next, quote := if slip.mode == Betbuilder then None else slip.quote)
  }

  /** What the writer effect stores. */
  datatype Stored = Stored(selections: seq<Selection>, mode: Mode, currency: string, builderMatch: Option<string>)

  function Persist(slip: Slip): Stored {
    Stored(Map(slip.selections, (s: Selection) => WithoutPending(s)), slip.mode, slip.currency, slip.builderMatch)
  }

  function Load(stored: Stored, env: Env): Slip {
    Slip(stored.selections, stored.mode, false,
         if env.isCurrency(stored.currency) then stored.currency else DEFAULT_CURRENCY,
         stored.builderMatch, None, None)
  }

  function Step(slip: Slip, a: Action, env: Env): Slip {
    match a
    case Add(selection) => AddTo(slip, selection)
    case Remove(marketId, outcomeId) => RemoveFrom(slip, marketId, outcomeId)
    case Clear => Cleared(slip)
    case SetOpen(open) => slip.(open := open)
    case SetMode(mode) => WithMode(slip, mode)
    case SetBuilderMatch(matchId) => WithBuilderMatch(slip, matchId)
    case SetQuote(quote) => if slip.mode != Betbuilder then slip else slip.(quote := quote)
    case SetEligibleMarkets(forMatch, marketIds) =>
      if slip.mode != Betbuilder || slip.builderMatch != Some(forMatch) then slip else slip.(eligibleMarkets := Some(marketIds))
    case SetCurrency(currency) => if env.isCurrency(currency) then slip.(currency := currency) else slip
    case UpdateOdds(tick) => slip.(selections := Map(slip.selections, (s: Selection) => Ticked(s, tick, env)))
    case SetMarketStatus(market, status) => slip.(selections := Map(slip.selections, (s: Selection) => Statused(s, market, status)))
    case AcceptPendingOdds => Accepted(slip)
    case Reload => Load(Persist(slip), env)
  }

  // ----- the store -----

  class Store {
    const env: Env
    var state: Slip

    constructor (env: Env)
      ensures this.env == env && state == EMPTY
    {
      this.env := env;
      state := EMPTY;
    }

    method UpdateOdds(t: Tick)
      modifies this
      ensures state == Step(old(state), Action.UpdateOdds(t), env)
    {
      hide Ticked;
      var changed, next := false, [];
      for i := 0 to |state.selections|
        invariant state == old(state)
        invariant next == Map(state.selections[..i], (s: Selection) => Ticked(s, t, env))
        invariant !changed ==> next == state.selections[..i]
      {
        var s := Ticked(state.selections[i], t, env);
        if s != state.selections[i] { changed := true; }
        next := next + [s];
      }
      assert state.selections[..|state.selections|] == state.selections;
      if !changed { return; }
      state := state.(selections := next);
    }

    method SetMarketStatus(market: string, status: int)
      modifies this
      ensures state == Step(old(state), Action.SetMarketStatus(market, status), env)
    {
      hide Statused;
      var changed, next := false, [];
      for i := 0 to |state.selections|
        invariant state == old(state)
        invariant next == Map(state.selections[..i], (s: Selection) => Statused(s, market, status))
        invariant !changed ==> next == state.selections[..i]
      {
        var s := Statused(state.selections[i], market, status);
        if s != state.selections[i] { changed := true; }
        next := next + [s];
      }
      assert state.selections[..|state.selections|] == state.selections;
      if !changed { return; }
      state := state.(selections := next);
    }

    method AcceptPendingOdds()
      modifies this
      ensures state == Step(old(state), Action.AcceptPendingOdds, env)
    {
      hide AcceptedLeg;
      var changed, next := false, [];
      for i := 0 to |state.selections|
        invariant state == old(state)
        invariant next == Map(state.selections[..i], (s: Selection) => AcceptedLeg(s))
        invariant changed <==> exists j :: 0 <= j < i && state.selections[j].pendingOdds.Some?
      {
        var s := state.selections[i];
        if s.pendingOdds.Some? { changed := true; }
        next := next + [AcceptedLeg(s)];
      }
      assert state.selections[..|state.selections|] == state.selections;
      if !changed {
        forall j | 0 <= j < |state.selections| ensures next[j] == state.selections[j] {
          AcceptedLegFacts(state.selections[j]);
        }
        return;
      }
      var j :| 0 <= j < |state.selections| && state.selections[j].pendingOdds.Some?;
      AcceptedLegFacts(state.selections[j]);
      assert next[j] != state.selections[j];
      state := state.(selections := next, quote := if state.mode == Betbuilder then None else state.quote);
    }

    /** Every action, and every reload, takes the state through `Step`. */
    method Dispatch(a: Action)
      modifies this
      ensures state == Step(old(state), a, env)
    {
      match a
      case UpdateOdds(t) => UpdateOdds(t);
      case SetMarketStatus(market, status) => SetMarketStatus(market, status);
      case AcceptPendingOdds => AcceptPendingOdds();
      case _ => state := Step(state, a, env);
    }
  }

  lemma AcceptedLegFacts(s: Selection)
    ensures s.pendingOdds == None ==> AcceptedLeg(s) == s
    ensures s.pendingOdds.Some? ==> AcceptedLeg(s) != s
    ensures AcceptedLeg(s).pendingOdds == None
  {
  }

  // ----- the invariant -----

  ghost predicate DistinctMarkets(legs: seq<Selection>) {
    forall i, j :: 0 <= i < j < |legs| ==> legs[i].marketId != legs[j].marketId
  }

  ghost predicate Homed(legs: seq<Selection>, matchOf: string -> string) {
    forall s :: s in legs ==> s.matchId == matchOf(s.marketId)
  }

  ghost predicate PendingDiffers(legs: seq<Selection>, env: Env) {
    forall s :: s in legs && s.pendingOdds.Some? ==> !SameOdds(s.pendingOdds.value, s.odds, env)
  }

  ghost predicate Inv(slip: Slip, env: Env, matchOf: string -> string) {
    && DistinctMarkets(slip.selections)
    && Homed(slip.selections, matchOf)
    && PendingDiffers(slip.selections, env)
    && (slip.builderMatch.Some? ==> slip.mode == Betbuilder)
    && (Building(slip) ==> forall s :: s in slip.selections ==> s.matchId == slip.builderMatch.value)
    && (slip.quote.Some? ==> slip.mode == Betbuilder)
  }

  /** Each market belongs to one match. */
  ghost predicate Fair(a: Action, matchOf: string -> string) {
    a.Add? ==> a.selection.matchId == matchOf(a.selection.marketId)
  }

  lemma {:induction false} FilterDistinct(legs: seq<Selection>, keep: Selection -> bool)
    requires DistinctMarkets(legs)
    ensures DistinctMarkets(Filter(legs, keep))
  {
    if legs != [] {
      var n := |legs| - 1;
      var rest := Filter(legs[..n], keep);
      FilterDistinct(legs[..n], keep);
      forall i | 0 <= i < |rest| ensures rest[i].marketId != legs[n].marketId {
        assert rest[i] in rest;
      }
    }
  }

  /** Replacing what shares a market (or its match) and appending keeps markets distinct. */
  lemma AppendDistinct(legs: seq<Selection>, keep: Selection -> bool, leg: Selection)
    requires DistinctMarkets(legs) && forall s :: s in legs && keep(s) ==> s.marketId != leg.marketId
    ensures DistinctMarkets(Filter(legs, keep) + [leg])
  {
    FilterDistinct(legs, keep);
    var rest := Filter(legs, keep);
    forall i | 0 <= i < |rest| ensures rest[i].marketId != leg.marketId {
      assert rest[i] in rest;
    }
  }

  lemma AddKeeps(slip: Slip, selection: Selection, env: Env, matchOf: string -> string)
    requires Inv(slip, env, matchOf) && selection.matchId == matchOf(selection.marketId)
    ensures Inv(AddTo(slip, selection), env, matchOf)
  {
    hide SameOdds;
    var leg := WithoutPending(selection);
    if Building(slip) && slip.builderMatch == Some(leg.matchId) {
      AppendDistinct(slip.selections, OffMarket(leg.marketId), leg);
    } else if !Building(slip) {
      AppendDistinct(slip.selections, OffMatch(leg.matchId), leg);
    }
  }

  lemma RemoveKeeps(slip: Slip, marketId: string, outcomeId: string, env: Env, matchOf: string -> string)
    requires Inv(slip, env, matchOf)
    ensures Inv(RemoveFrom(slip, marketId, outcomeId), env, matchOf)
  {
    hide SameOdds;
    FilterDistinct(slip.selections, NotPick(marketId, outcomeId));
  }

  lemma BuilderMatchKeeps(slip: Slip, matchId: Option<string>, env: Env, matchOf: string -> string)
    requires Inv(slip, env, matchOf)
    ensures Inv(WithBuilderMatch(slip, matchId), env, matchOf)
  {
    hide SameOdds;
    if matchId.Some? { FilterDistinct(slip.selections, OnMatch(matchId.value)); }
  }

  /** A rewrite of legs in place that keeps their identity. */
  ghost predicate SamePicks(legs: seq<Selection>, after: seq<Selection>) {
    && |after| == |legs|
    && forall i :: 0 <= i < |legs| ==>
         after[i].matchId == legs[i].matchId && Is(after[i], legs[i].marketId, legs[i].outcomeId)
  }

  lemma RewriteKeeps(slip: Slip, after: Slip, env: Env, matchOf: string -> string)
    requires Inv(slip, env, matchOf) && SamePicks(slip.selections, after.selections)
    requires PendingDiffers(after.selections, env)
    requires after.mode == slip.mode && after.builderMatch == slip.builderMatch
    requires after.quote.Some? ==> slip.quote.Some?
    ensures Inv(after, env, matchOf)
  {
    hide SameOdds, PendingDiffers;
    forall s | s in after.selections
      ensures s.matchId == matchOf(s.marketId) && (Building(slip) ==> s.matchId == slip.builderMatch.value)
    {
      var i :| 0 <= i < |after.selections| && after.selections[i] == s;
      assert slip.selections[i] in slip.selections;
    }
  }

  lemma TickedPending(s: Selection, t: Tick, env: Env)
    requires s.pendingOdds.Some? ==> !SameOdds(s.pendingOdds.value, s.odds, env)
    ensures var r := Ticked(s, t, env);
            && r.odds == s.odds && r.matchId == s.matchId && Is(r, s.marketId, s.outcomeId)
            && (r.pendingOdds.Some? ==> !SameOdds(r.pendingOdds.value, r.odds, env))
  {
    hide SameOdds;
  }

  lemma MappedKeeps(slip: Slip, after: Slip, f: Selection -> Selection, env: Env, matchOf: string -> string)
    requires Inv(slip, env, matchOf)
    requires after.selections == Map(slip.selections, f)
    requires forall s :: s in slip.selections ==>
               && f(s).matchId == s.matchId && Is(f(s), s.marketId, s.outcomeId)
               && (f(s).pendingOdds.Some? ==> !SameOdds(f(s).pendingOdds.value, f(s).odds, env))
    requires after.mode == slip.mode && after.builderMatch == slip.builderMatch
    requires after.quote.Some? ==> slip.quote.Some?
    ensures Inv(after, env, matchOf)
  {
    hide SameOdds;
    forall i | 0 <= i < |slip.selections| ensures slip.selections[i] in slip.selections {
    }
    assert SamePicks(slip.selections, after.selections);
    RewriteKeeps(slip, after, env, matchOf);
  }

  lemma TickKeeps(slip: Slip, t: Tick, env: Env, matchOf: string -> string)
    requires Inv(slip, env, matchOf)
    ensures Inv(Step(slip, Action.UpdateOdds(t), env), env, matchOf)
  {
    hide SameOdds, Ticked, Map;
    forall s | s in slip.selections
      ensures var r := Ticked(s, t, env);
              && r.matchId == s.matchId && Is(r, s.marketId, s.outcomeId)
              && (r.pendingOdds.Some? ==> !SameOdds(r.pendingOdds.value, r.odds, env))
    {
      TickedPending(s, t, env);
    }
    MappedKeeps(slip, Step(slip, Action.UpdateOdds(t), env), (s: Selection) => Ticked(s, t, env), env, matchOf);
  }

  /** Every action of every run keeps the invariant. */
  lemma StepKeeps(slip: Slip, a: Action, env: Env, matchOf: string -> string)
    requires Inv(slip, env, matchOf) && Fair(a, matchOf)
    ensures Inv(Step(slip, a, env), env, matchOf)
  {
    hide SameOdds, Map, Filter, Ticked;
    match a
    case Add(selection) => AddKeeps(slip, selection, env, matchOf);
    case Remove(marketId, outcomeId) => RemoveKeeps(slip, marketId, outcomeId, env, matchOf);
    case SetBuilderMatch(matchId) => BuilderMatchKeeps(slip, matchId, env, matchOf);
    case UpdateOdds(tick) => TickKeeps(slip, tick, env, matchOf);
    case SetMarketStatus(market, status) =>
      MappedKeeps(slip, Step(slip, a, env), (s: Selection) => Statused(s, market, status), env, matchOf);
    case AcceptPendingOdds =>
      var after := Step(slip, a, env);
      MappedKeeps(slip, after, (s: Selection) => AcceptedLeg(s), env, matchOf);
    case Reload =>
      MappedKeeps(slip, Step(slip, a, env), (s: Selection) => WithoutPending(s), env, matchOf);
    case _ =>
  }

  // ----- runs -----

  ghost function After(actions: seq<Action>, env: Env): Slip {
    if actions == [] then EMPTY else Step(After(actions[..|actions| - 1], env), actions[|actions| - 1], env)
  }

  lemma {:induction false} RunKeeps(actions: seq<Action>, env: Env, matchOf: string -> string)
    requires forall a :: a in actions ==> Fair(a, matchOf)
    ensures Inv(After(actions, env), env, matchOf)
  {
    hide Step;
    if actions != [] {
      var n := |actions| - 1;
      assert actions == actions[..n] + [actions[n]];
      RunKeeps(actions[..n], env, matchOf);
      StepKeeps(After(actions[..n], env), actions[n], env, matchOf);
    }
  }

  /** A fresh store driven through any actions ends where the run does, with the invariant kept for every
      assignment of markets to matches that the added legs respect. */
  method Session(env: Env, actions: seq<Action>) returns (slip: Slip)
    ensures slip == After(actions, env)
    ensures forall matchOf: string -> string :: (forall a :: a in actions ==> Fair(a, matchOf)) ==> Inv(slip, env, matchOf)
  {
    hide Step, Inv, Fair;
    var store := new Store(env);
    for i := 0 to |actions|
      invariant store.env == env && store.state == After(actions[..i], env)
    {
      assert actions[..i + 1][..i] == actions[..i];
      store.Dispatch(actions[i]);
    }
    assert actions[..|actions|] == actions;
    slip := store.state;
    forall matchOf: string -> string | forall a :: a in actions ==> Fair(a, matchOf) ensures Inv(slip, env, matchOf) {
      RunKeeps(actions, env, matchOf);
    }
  }
}
