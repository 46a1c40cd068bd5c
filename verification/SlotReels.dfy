/** SlotZilla windows and reels (packages/types/src/slotzilla.ts). Match-clock readings are
    exact seconds. */
module SlotReels {
  import opened Options
  import opened Permutations
  import opened Strings
  import opened Decimals

  datatype Symbol = P3 | P2 | FT | MISS | FOUL | NONE

  datatype Team = Home | Away

  datatype ReelEvent = ReelEvent(
    symbol: Option<Symbol>,
    seconds: real,
    disabled: bool,
    team: Option<Team>,
    eventId: Option<string>)

  datatype Reel = Reel(symbol: Symbol, team: Option<Team>, eventId: Option<string>)

  const WINDOW_SECONDS: real := 5.0
  const ROUND_WINDOWS: nat := 3
  const ROUND_SECONDS: real := 15.0

  function SymbolRank(s: Symbol): nat {
    match s
    case P3 => 6
    case P2 => 5
    case FT => 4
    case MISS => 3
    case FOUL => 2
    case NONE => 1
  }

  // ----- windows -----

  function WindowStartOf(clockSeconds: real): real {
    (clockSeconds / WINDOW_SECONDS).Floor as real * WINDOW_SECONDS
  }

  function Ceil(x: real): int { -((-x).Floor) }

  function FirstWindowFor(clockSeconds: real, leadSeconds: real): real {
    Ceil((clockSeconds + leadSeconds) / WINDOW_SECONDS) as real * WINDOW_SECONDS
  }

  function RoundWindows(windowFrom: real): seq<real> {
    [windowFrom, windowFrom + WINDOW_SECONDS, windowFrom + 2.0 * WINDOW_SECONDS]
  }

  predicate InWindow(t: real, windowFrom: real) { windowFrom <= t < windowFrom + WINDOW_SECONDS }

  function Mark(n: int): real { n as real * WINDOW_SECONDS }

  lemma FloorFive(t: real, n: int)
    ensures (t / 5.0).Floor == n <==> 5.0 * n as real <= t < 5.0 * n as real + 5.0
  {
    var q := t / 5.0;
    assert t == 5.0 * q;
    assert q.Floor == n <==> n as real <= q < n as real + 1.0;
  }

  lemma CeilFive(t: real)
    ensures var k := Ceil(t / 5.0) as real; t <= 5.0 * k < t + 5.0
  {
    var q := t / 5.0;
    assert t == 5.0 * q;
    assert q <= Ceil(q) as real < q + 1.0;
  }

  /** A reading falls in exactly one window on the 5-second grid. */
  lemma WindowOf(t: real, n: int)
    ensures InWindow(t, Mark(n)) <==> WindowStartOf(t) == Mark(n)
  {
    FloorFive(t, n);
  }

  /** The first window is the first 5-second mark at or after clock plus lead. */
  lemma FirstMark(clock: real, lead: real, n: int)
    ensures var w := FirstWindowFor(clock, lead);
            && (exists k :: w == Mark(k))
            && clock + lead <= w < clock + lead + WINDOW_SECONDS
            && (Mark(n) >= clock + lead ==> Mark(n) >= w)
  {
    CeilFive(clock + lead);
    var k := Ceil((clock + lead) / 5.0);
    assert FirstWindowFor(clock, lead) == Mark(k);
    if n < k {
      assert Mark(n) <= Mark(k) - 5.0;
    }
  }

  /** A spin's three windows tile the fifteen seconds from its first window: a reading lies in one
      of them exactly when it lies in that span, and then in one only, its own grid window. */
  lemma RoundTiles(clock: real, lead: real, t: real)
    ensures var w := FirstWindowFor(clock, lead);
            var windows := RoundWindows(w);
            && |windows| == ROUND_WINDOWS
            && ((w <= t < w + ROUND_SECONDS) <==> WindowStartOf(t) in windows)
            && forall i :: 0 <= i < |windows| ==> (InWindow(t, windows[i]) <==> WindowStartOf(t) == windows[i])
  {
    FirstMark(clock, lead, 0);
    var w := FirstWindowFor(clock, lead);
    var k :| w == Mark(k);
    var windows := RoundWindows(w);
    assert windows == [Mark(k), Mark(k + 1), Mark(k + 2)];
    forall i | 0 <= i < |windows|
      ensures InWindow(t, windows[i]) <==> WindowStartOf(t) == windows[i]
    {
      WindowOf(t, k + i);
    }
    assert windows[0] == w && windows[1] == w + 5.0 && windows[2] == w + 10.0;
    assert WindowStartOf(t) in windows <==>
      WindowStartOf(t) == windows[0] || WindowStartOf(t) == windows[1] || WindowStartOf(t) == windows[2];
  }

  // ----- event ids -----

  /** JavaScript truthiness of an id: absent and empty are both "no id". */
  predicate NoId(id: Option<string>) { id == None || id == Some("") }

  function CompareIds(a: Option<string>, b: Option<string>): int {
    if NoId(a) && NoId(b) then 0
    else if NoId(a) then 1
    else if NoId(b) then -1
    else if |a.value| != |b.value| then |a.value| - |b.value|
    else if Less(a.value, b.value) then -1
    else if Less(b.value, a.value) then 1
    else 0
  }

  /** A decimal string without leading zeros. */
  predicate CanonicalDecimal(s: string) { s != "" && AllDigits(s) && (s[0] == '0' ==> |s| == 1) }

  lemma {:induction false} SameLengthOrder(a: string, b: string)
    requires |a| == |b| && AllDigits(a) && AllDigits(b)
    ensures Less(a, b) <==> Value(a) < Value(b)
  {
    if a == "" { return; }
    var a1, b1 := a[1..], b[1..];
    assert a == [a[0]] + a1 && b == [b[0]] + b1;
    SameLengthOrder(a1, b1);
    ValueConcat([a[0]], a1);
    ValueConcat([b[0]], b1);
    assert Value([a[0]]) == DigitValue(a[0]) && Value([b[0]]) == DigitValue(b[0]);
    ValueBound(a1);
    ValueBound(b1);
    LeadingDecides(DigitValue(a[0]), DigitValue(b[0]), Pow10(|a1|), Value(a1), Value(b1));
  }

  lemma Apart(d: nat, e: nat, p: nat)
    requires d < e
    ensures d * p + p <= e * p
  {
    var g := e - d - 1;
    assert g * p >= 0;
    assert e * p == (d + 1 + g) * p == d * p + p + g * p;
  }

  lemma LeadingDecides(d: nat, e: nat, p: nat, x: nat, y: nat)
    requires x < p && y < p
    ensures d * p + x < e * p + y <==> d < e || (d == e && x < y)
  {
    if d < e {
      Apart(d, e, p);
    } else if e < d {
      Apart(e, d, p);
    }
  }

  lemma ShorterIsSmaller(a: string, b: string)
    requires CanonicalDecimal(a) && CanonicalDecimal(b) && |a| < |b|
    ensures Value(a) < Value(b)
  {
    ValueBound(a);
    LeadingDigit(b);
    PowMonotone(|a|, |b| - 1);
  }

  /** Length then lexical order is numeric order on canonical decimal ids. */
  lemma ComparesNumerically(a: string, b: string)
    requires CanonicalDecimal(a) && CanonicalDecimal(b)
    ensures CompareIds(Some(a), Some(b)) < 0 <==> Value(a) < Value(b)
    ensures CompareIds(Some(a), Some(b)) == 0 <==> Value(a) == Value(b)
    ensures CompareIds(Some(a), Some(b)) > 0 <==> Value(a) > Value(b)
  {
    if |a| < |b| {
      ShorterIsSmaller(a, b);
    } else if |b| < |a| {
      ShorterIsSmaller(b, a);
    } else {
      SameLengthOrder(a, b);
      SameLengthOrder(b, a);
      LessAsymmetricIf(a, b);
    }
  }

  lemma LessAsymmetricIf(a: string, b: string)
    ensures !(Less(a, b) && Less(b, a))
  {
    if Less(a, b) { LessAsymmetric(a, b); }
  }

  /** The comparison of `a` and `b` is the comparison of their values. */
  predicate OrdersAsNumbers(a: string, b: string)
    requires AllDigits(a) && AllDigits(b)
  {
    var order := CompareIds(Some(a), Some(b));
    && (order < 0 <==> Value(a) < Value(b)) && (order == 0 <==> Value(a) == Value(b)) && (order > 0 <==> Value(a) > Value(b))
  }

  /** Exactly: a decimal id is ordered as a number against every canonical id if and only if it is
      canonical itself. */
  lemma CanonicalIff(a: string)
    requires a != "" && AllDigits(a)
    ensures CanonicalDecimal(a) <==> forall b :: CanonicalDecimal(b) ==> OrdersAsNumbers(a, b)
  {
    hide Value, CompareIds, Print;
    if CanonicalDecimal(a) {
      forall b | CanonicalDecimal(b) ensures OrdersAsNumbers(a, b) { ComparesNumerically(a, b); }
    }
    if forall b :: CanonicalDecimal(b) ==> OrdersAsNumbers(a, b) {
      var b := Print(Value(a));
      assert CanonicalDecimal(b);
      assert OrdersAsNumbers(a, b);
      IdsAntisymmetric(Some(a), Some(b));
    }
  }

  /** Leading zeros are outside that promise: "10" is put before "009". */
  lemma LeadingZeroMisorders()
    ensures CompareIds(Some("10"), Some("009")) < 0 && Value("10") > Value("009")
  {
    assert Value("1") == 1 && Value("00") == 0 by {
      assert "1"[..0] == "" && "00"[..1] == "0" && "0"[..0] == "";
    }
    assert "10"[..1] == "1" && "009"[..2] == "00";
  }

  lemma IdsAntisymmetric(a: Option<string>, b: Option<string>)
    ensures CompareIds(a, b) < 0 <==> CompareIds(b, a) > 0
    ensures CompareIds(a, b) == 0 <==> (NoId(a) && NoId(b)) || a == b
  {
    if !NoId(a) && !NoId(b) {
      LessTotal(a.value, b.value);
      LessAsymmetricIf(a.value, b.value);
      LessIrreflexive(a.value);
    }
  }

  lemma IdsTransitive(a: Option<string>, b: Option<string>, c: Option<string>)
    requires CompareIds(a, b) <= 0 && CompareIds(b, c) <= 0
    ensures CompareIds(a, c) <= 0
    ensures CompareIds(a, b) < 0 || CompareIds(b, c) < 0 ==> CompareIds(a, c) < 0
  {
    IdsAntisymmetric(a, b);
    IdsAntisymmetric(b, c);
    if !NoId(a) && !NoId(b) && !NoId(c) && |a.value| == |b.value| == |c.value| {
      if Less(a.value, b.value) && Less(b.value, c.value) {
        LessTransitive(a.value, b.value, c.value);
      }
    }
  }

  // ----- reels -----

  predicate Visible(e: ReelEvent, windowFrom: real) {
    e.symbol.Some? && !e.disabled && InWindow(e.seconds, windowFrom)
  }

  /** Higher rank, then earlier second, then lower id. */
  predicate Beats(e: ReelEvent, b: ReelEvent)
    requires e.symbol.Some? && b.symbol.Some?
  {
    var r, rb := SymbolRank(e.symbol.value), SymbolRank(b.symbol.value);
    || r > rb
    || (r == rb && (e.seconds < b.seconds || (e.seconds == b.seconds && CompareIds(e.eventId, b.eventId) < 0)))
  }

  /** Neither beats the other. */
  predicate Ties(e: ReelEvent, b: ReelEvent) {
    e.symbol == b.symbol && e.seconds == b.seconds && CompareIds(e.eventId, b.eventId) == 0
  }

  function ReelOf(e: ReelEvent): Reel
    requires e.symbol.Some?
  {
    Reel(e.symbol.value, e.team, e.eventId)
  }

  const EMPTY_REEL: Reel := Reel(NONE, None, None)

  lemma BeatsTransitive(a: ReelEvent, b: ReelEvent, c: ReelEvent)
    requires a.symbol.Some? && b.symbol.Some? && c.symbol.Some?
    requires !Beats(b, a) && !Beats(c, b)
    ensures !Beats(c, a)
  {
    IdsAntisymmetric(b.eventId, a.eventId);
    IdsAntisymmetric(c.eventId, b.eventId);
    IdsAntisymmetric(c.eventId, a.eventId);
    if CompareIds(a.eventId, b.eventId) <= 0 && CompareIds(b.eventId, c.eventId) <= 0 {
      IdsTransitive(a.eventId, b.eventId, c.eventId);
    }
  }

  lemma UnbeatenTie(a: ReelEvent, b: ReelEvent)
    requires a.symbol.Some? && b.symbol.Some?
    ensures !Beats(a, b) && !Beats(b, a) <==> Ties(a, b)
  {
    IdsAntisymmetric(a.eventId, b.eventId);
  }

  /** The event a window shows: visible, and beaten by no visible event. */
  ghost predicate Top(e: ReelEvent, events: seq<ReelEvent>, windowFrom: real) {
    && e in events && Visible(e, windowFrom)
    && forall x :: x in events && Visible(x, windowFrom) ==> !Beats(x, e)
  }

  /** The running choice of the loop. */
  function Leader(events: seq<ReelEvent>, windowFrom: real): (best: Option<ReelEvent>)
    ensures best == None <==> forall e :: e in events ==> !Visible(e, windowFrom)
    ensures best.Some? ==> Top(best.value, events, windowFrom)
  {
    if events == [] then None
    else
      var n := |events| - 1;
      var e, before := events[n], Leader(events[..n], windowFrom);
      assert events == events[..n] + [e];
      if !Visible(e, windowFrom) then before
      else if before == None then assert e in events; IrreflexiveNote(e); Some(e)
      else if Beats(e, before.value) then
        assert e in events;
        LeaderChange(events[..n], windowFrom, before.value, e);
        Some(e)
      else before
  }

  lemma IrreflexiveNote(e: ReelEvent)
    requires e.symbol.Some?
    ensures !Beats(e, e)
  {
    IdsAntisymmetric(e.eventId, e.eventId);
  }

  lemma LeaderChange(rest: seq<ReelEvent>, windowFrom: real, was: ReelEvent, e: ReelEvent)
    requires Top(was, rest, windowFrom) && Visible(e, windowFrom) && Beats(e, was)
    ensures forall x :: x in rest + [e] && Visible(x, windowFrom) ==> !Beats(x, e)
  {
    IrreflexiveNote(e);
    IdsAntisymmetric(e.eventId, was.eventId);
    forall x | x in rest && Visible(x, windowFrom) ensures !Beats(x, e) {
      BeatsTransitive(e, was, x);
    }
  }

  /** `reelForWindow`: an empty reel exactly when nothing is visible, else the reel of an
      unbeaten visible event. */
  method ReelForWindow(events: seq<ReelEvent>, windowFrom: real) returns (reel: Reel)
    ensures reel == ReelShown(events, windowFrom)
    ensures (forall e :: e in events ==> !Visible(e, windowFrom)) ==> reel == Reel(NONE, None, None)
    ensures (exists e :: e in events && Visible(e, windowFrom)) ==>
              exists e :: Top(e, events, windowFrom) && e.symbol == Some(reel.symbol) && reel.team == e.team && reel.eventId == e.eventId
  {
    hide Beats, Visible;
    var best: Option<ReelEvent> := None;
    var to := windowFrom + WINDOW_SECONDS;
    for i := 0 to |events|
      invariant best == Leader(events[..i], windowFrom)
    {
      assert events[..i + 1][..i] == events[..i];
      var e := events[i];
      assert events[..i + 1][i] == e;
      var seen := IsVisible(e, windowFrom, to);
      if seen {
        if best == None {
          best := Some(e);
        } else {
          VisibleHasSymbol(best.value, windowFrom);
          var ahead := Outranks(e, best.value);
          if ahead { best := Some(e); }
        }
      }
    }
    assert events[..|events|] == events;
    reel := EMPTY_REEL;
    if best.Some? {
      VisibleHasSymbol(best.value, windowFrom);
      reel := ReelOf(best.value);
    }
  }

  lemma VisibleHasSymbol(e: ReelEvent, windowFrom: real)
    requires Visible(e, windowFrom)
    ensures e.symbol.Some?
  {
  }

  method IsVisible(e: ReelEvent, windowFrom: real, to: real) returns (seen: bool)
    requires to == windowFrom + WINDOW_SECONDS
    ensures seen <==> Visible(e, windowFrom)
    ensures seen ==> e.symbol.Some?
  {
    if e.symbol == None || e.disabled { return false; }
    if e.seconds < windowFrom || e.seconds >= to { return false; }
    return true;
  }

  /** The loop's cascade of comparisons. */
  method Outranks(e: ReelEvent, best: ReelEvent) returns (ahead: bool)
    requires e.symbol.Some? && best.symbol.Some?
    ensures ahead <==> Beats(e, best)
  {
    var r, rb := SymbolRank(e.symbol.value), SymbolRank(best.symbol.value);
    if r > rb { return true; }
    if r == rb {
      if e.seconds < best.seconds { return true; }
      if e.seconds == best.seconds && CompareIds(e.eventId, best.eventId) < 0 { return true; }
    }
    return false;
  }

  function ReelShown(events: seq<ReelEvent>, windowFrom: real): Reel {
    var best := Leader(events, windowFrom);
    if best == None then EMPTY_REEL else ReelOf(best.value)
  }

  /** Events that tie at the top of the window all look the same on the reel. */
  ghost predicate TopsAlike(events: seq<ReelEvent>, windowFrom: real) {
    forall a, b :: Top(a, events, windowFrom) && Top(b, events, windowFrom) ==> ReelOf(a) == ReelOf(b)
  }

  lemma TopsOfRearranged(events: seq<ReelEvent>, other: seq<ReelEvent>, windowFrom: real, e: ReelEvent)
    requires multiset(events) == multiset(other)
    ensures Top(e, events, windowFrom) <==> Top(e, other, windowFrom)
  {
    SameMembers(events, other);
  }

  lemma SameMembers(events: seq<ReelEvent>, other: seq<ReelEvent>)
    requires multiset(events) == multiset(other)
    ensures forall x :: x in events <==> x in other
  {
    forall x ensures x in events <==> x in other {
      assert x in events <==> x in multiset(events);
      assert x in other <==> x in multiset(other);
    }
  }

  /** With alike tops, every arrival order shows the same reel. */
  lemma SameReel(events: seq<ReelEvent>, other: seq<ReelEvent>, windowFrom: real)
    requires multiset(events) == multiset(other) && TopsAlike(events, windowFrom)
    ensures ReelShown(other, windowFrom) == ReelShown(events, windowFrom)
  {
    hide Top, Beats, Visible;
    SameMembers(events, other);
    var best := Leader(other, windowFrom);
    if best.Some? {
      TopsOfRearranged(events, other, windowFrom, best.value);
    }
  }

  lemma {:induction false} UnbeatenFirstStays(e: ReelEvent, rest: seq<ReelEvent>, windowFrom: real)
    requires Top(e, [e] + rest, windowFrom)
    ensures Leader([e] + rest, windowFrom) == Some(e)
  {
    var n := |rest|;
    if n == 0 {
      assert [e] + rest == [e] && [e][..0] == [];
      return;
    }
    var shorter := rest[..n - 1];
    assert ([e] + rest)[..n] == [e] + shorter && ([e] + rest)[n] == rest[n - 1];
    forall x | x in [e] + shorter ensures x in [e] + rest {
    }
    assert rest[n - 1] in [e] + rest;
    UnbeatenFirstStays(e, shorter, windowFrom);
  }

  lemma MoveToFront(events: seq<ReelEvent>, e: ReelEvent) returns (moved: seq<ReelEvent>)
    requires e in events
    ensures multiset(moved) == multiset(events) && moved != [] && moved[0] == e
  {
    var i :| 0 <= i < |events| && events[i] == e;
    WithoutMultiset(events, i);
    moved := [e] + Without(events, i);
    assert multiset(moved) == multiset{e} + multiset(Without(events, i));
  }

  /** Any of the tied events can be made to show, by an order in which it arrives first. */
  lemma AnyTopCanShow(events: seq<ReelEvent>, windowFrom: real, e: ReelEvent) returns (moved: seq<ReelEvent>)
    requires Top(e, events, windowFrom)
    ensures multiset(moved) == multiset(events) && ReelShown(moved, windowFrom) == ReelOf(e)
  {
    moved := MoveToFront(events, e);
    TopsOfRearranged(events, moved, windowFrom, e);
    assert moved == [e] + moved[1..];
    UnbeatenFirstStays(e, moved[1..], windowFrom);
  }

  /** The exact condition: the reel is independent of arrival order if and only if the events
      tied at the top look alike. */
  lemma OrderIndependentIff(events: seq<ReelEvent>, windowFrom: real)
    ensures TopsAlike(events, windowFrom) <==>
            forall other :: multiset(other) == multiset(events) ==> ReelShown(other, windowFrom) == ReelShown(events, windowFrom)
  {
    hide Top, Leader, Beats, Visible, ReelShown;
    if TopsAlike(events, windowFrom) {
      forall other | multiset(other) == multiset(events)
        ensures ReelShown(other, windowFrom) == ReelShown(events, windowFrom)
      {
        SameReel(events, other, windowFrom);
      }
    }
    if forall other :: multiset(other) == multiset(events) ==> ReelShown(other, windowFrom) == ReelShown(events, windowFrom) {
      forall a, b | Top(a, events, windowFrom) && Top(b, events, windowFrom)
        ensures a.symbol.Some? && b.symbol.Some? && ReelOf(a) == ReelOf(b)
      {
        TopHasSymbol(a, events, windowFrom);
        TopHasSymbol(b, events, windowFrom);
        var first := AnyTopCanShow(events, windowFrom, a);
        var second := AnyTopCanShow(events, windowFrom, b);
      }
    }
  }

  lemma TopHasSymbol(e: ReelEvent, events: seq<ReelEvent>, windowFrom: real)
    requires Top(e, events, windowFrom)
    ensures e.symbol.Some?
  {
  }

  /** Distinct, non-empty ids are enough: the top of the window is then one event. */
  lemma DistinctIdsSuffice(events: seq<ReelEvent>, windowFrom: real)
    requires forall e :: e in events ==> !NoId(e.eventId)
    requires forall a, b :: a in events && b in events && a.eventId == b.eventId ==> a == b
    ensures forall a, b :: Top(a, events, windowFrom) && Top(b, events, windowFrom) ==> a == b
    ensures TopsAlike(events, windowFrom)
  {
    forall a, b | Top(a, events, windowFrom) && Top(b, events, windowFrom)
      ensures a == b
    {
      UnbeatenTie(a, b);
      IdsAntisymmetric(a.eventId, b.eventId);
    }
  }

  /** Without ids the promise fails: two fouls of one second, one a side. */
  lemma ArrivalOrderMatters()
    ensures var home := ReelEvent(Some(FOUL), 1.0, false, Some(Home), None);
            var away := ReelEvent(Some(FOUL), 1.0, false, Some(Away), None);
            ReelShown([home, away], 0.0) != ReelShown([away, home], 0.0)
  {
    var home := ReelEvent(Some(FOUL), 1.0, false, Some(Home), None);
    var away := ReelEvent(Some(FOUL), 1.0, false, Some(Away), None);
    UnbeatenFirstStays(home, [away], 0.0);
    UnbeatenFirstStays(away, [home], 0.0);
    assert [home] + [away] == [home, away] && [away] + [home] == [away, home];
  }

  /** An enabled event with this symbol, logged inside [windowFrom, windowFrom + 5). */
  ghost predicate Occurs(events: seq<ReelEvent>, windowFrom: real, symbol: Symbol) {
    exists e :: e in events && e.symbol == Some(symbol) && !e.disabled && windowFrom <= e.seconds < windowFrom + 5.0
  }

  /** A three-pointer beats a two-pointer beats a free throw beats a miss beats a foul beats nothing. */
  lemma BestPlayShows(events: seq<ReelEvent>, windowFrom: real)
    ensures ReelShown(events, windowFrom).symbol
         == if Occurs(events, windowFrom, P3) then P3 else if Occurs(events, windowFrom, P2) then P2
            else if Occurs(events, windowFrom, FT) then FT else if Occurs(events, windowFrom, MISS) then MISS
            else if Occurs(events, windowFrom, FOUL) then FOUL else NONE
  {
    hide Leader, CompareIds;
    var best := Leader(events, windowFrom);
    if best.Some? {
      var e := best.value;
      assert Occurs(events, windowFrom, e.symbol.value);
      forall s: Symbol | Occurs(events, windowFrom, s) ensures SymbolRank(s) <= SymbolRank(e.symbol.value) {
        var x :| x in events && x.symbol == Some(s) && !x.disabled && windowFrom <= x.seconds < windowFrom + 5.0;
        assert Visible(x, windowFrom) && !Beats(x, e);
      }
    } else {
      NothingOccurs(events, windowFrom);
    }
  }

  lemma NothingOccurs(events: seq<ReelEvent>, windowFrom: real)
    requires forall e :: e in events ==> !Visible(e, windowFrom)
    ensures forall s :: !Occurs(events, windowFrom, s)
  {
    forall s, e | e in events && e.symbol == Some(s) ensures e.disabled || !(windowFrom <= e.seconds < windowFrom + 5.0) {
      assert !Visible(e, windowFrom);
    }
  }

  /** Among the plays of the symbol shown, the one shown was logged no later than any other, and among those
      of the same second has no higher an id, ids compared as numbers. */
  lemma EarliestShows(events: seq<ReelEvent>, windowFrom: real, e: ReelEvent, x: ReelEvent)
    requires Top(e, events, windowFrom) && x in events && x.symbol == e.symbol && !x.disabled
    requires windowFrom <= x.seconds < windowFrom + 5.0
    ensures e.seconds <= x.seconds
    ensures x.seconds == e.seconds && x.eventId.Some? && CanonicalDecimal(x.eventId.value) ==>
              e.eventId.Some? && (CanonicalDecimal(e.eventId.value) ==> Value(e.eventId.value) <= Value(x.eventId.value))
  {
    hide CompareIds, Value;
    assert Visible(x, windowFrom);
    if x.seconds == e.seconds && x.eventId.Some? && CanonicalDecimal(x.eventId.value) {
      IdsAntisymmetric(x.eventId, e.eventId);
      if e.eventId == None || e.eventId == Some("") {
        KnownIdFirst(x.eventId, e.eventId);
      } else if CanonicalDecimal(e.eventId.value) {
        ComparesNumerically(x.eventId.value, e.eventId.value);
      }
    }
  }

  lemma KnownIdFirst(a: Option<string>, b: Option<string>)
    requires a.Some? && a.value != "" && (b == None || b == Some(""))
    ensures CompareIds(a, b) < 0
  {
  }

  // ----- rounds -----

  method ReelsForRound(events: seq<ReelEvent>, windowFrom: real) returns (reels: seq<Reel>)
    ensures |reels| == ROUND_WINDOWS
    ensures forall i :: 0 <= i < ROUND_WINDOWS ==>
              reels[i] == ReelShown(events, RoundWindows(windowFrom)[i])
  {
    var w := RoundWindows(windowFrom);
    var a := ReelForWindow(events, w[0]);
    var b := ReelForWindow(events, w[1]);
    var c := ReelForWindow(events, w[2]);
    return [a, b, c];
  }

  /** An event outside a window, disabled or without a symbol leaves that window's reel alone, and
      an event inside can only raise the symbol's rank. */
  lemma LaterEvent(events: seq<ReelEvent>, e: ReelEvent, windowFrom: real)
    ensures !Visible(e, windowFrom) ==> ReelShown(events + [e], windowFrom) == ReelShown(events, windowFrom)
    ensures SymbolRank(ReelShown(events + [e], windowFrom).symbol) >= SymbolRank(ReelShown(events, windowFrom).symbol)
    ensures Visible(e, windowFrom) ==> SymbolRank(ReelShown(events + [e], windowFrom).symbol) >= SymbolRank(e.symbol.value)
  {
    assert (events + [e])[..|events|] == events;
  }
}
