/** ComboZilla's search for one three-fold in one sport (apps/web/src/lib/three-fold-builder.ts). */
module ComboSearch {
  import opened Numbers
  import opened Options
  import opened StableSort

  datatype Side = Home | Away

  datatype Outcome = Outcome(outcomeId: string, price: Option<string>)

  datatype MatchWinner = MatchWinner(marketId: string, home: Outcome, away: Outcome)

  datatype MatchInput = MatchInput(
    id: string,
    status: Option<string>,
    matchWinner: Option<MatchWinner>,
    sportSlug: string,
    sportName: string)

  datatype Leg = Leg(
    matchId: string,
    marketId: string,
    outcomeId: string,
    odds: string,
    sportSlug: string,
    pickedSide: Side)

  datatype QualSide = QualSide(selection: Leg, oddsNum: real)

  datatype QualMatch = QualMatch(matchId: string, sides: seq<QualSide>)

  datatype Triple = Triple(a: QualSide, b: QualSide, c: QualSide)

  datatype TierBand = TierBand(lo: real, hi: real, target: real)

  /** The library functions the search calls: the number a price string reads as (none unless
      finite), the cube root and the locale's string comparison. */
  datatype Library = Library(read: string -> Option<real>, cbrt: real -> real, collate: (string, string) -> int)

  const POOL_CAP: nat := 30

  // ----- qualifying legs -----

  function BuildLeg(m: MatchInput, side: Side, lib: Library): Option<Leg> {
    if m.matchWinner == None then None
    else
      var o := if side == Home then m.matchWinner.value.home else m.matchWinner.value.away;
      if o.price == None || o.price == Some("") then None
      else
        var odds := lib.read(o.price.value);
        if odds == None || odds.value <= 1.0 then None
        else Some(Leg(m.id, m.matchWinner.value.marketId, o.outcomeId, o.price.value, m.sportSlug, side))
  }

  function SideIf(m: MatchInput, side: Side, allowed: real -> bool, lib: Library): seq<QualSide> {
    var leg := BuildLeg(m, side, lib);
    if leg == None then []
    else
      var odds := lib.read(leg.value.odds);
      if odds == None || !allowed(odds.value) then [] else [QualSide(leg.value, odds.value)]
  }

  function SidesOf(m: MatchInput, allowed: real -> bool, lib: Library): seq<QualSide> {
    SideIf(m, Home, allowed, lib) + SideIf(m, Away, allowed, lib)
  }

  function Qualify(matches: seq<MatchInput>, allowed: real -> bool, lib: Library): seq<QualMatch> {
    if matches == [] then []
    else
      var m := matches[|matches| - 1];
      var sides := SidesOf(m, allowed, lib);
      Qualify(matches[..|matches| - 1], allowed, lib) + if sides != [] then [QualMatch(m.id, sides)] else []
  }

  method QualifyForLegs(matches: seq<MatchInput>, allowed: real -> bool, lib: Library) returns (out: seq<QualMatch>)
    ensures out == Qualify(matches, allowed, lib)
  {
    out := [];
    for i := 0 to |matches|
      invariant out == Qualify(matches[..i], allowed, lib)
    {
      assert matches[..i + 1][..i] == matches[..i];
      var m := matches[i];
      var sides: seq<QualSide> := SideIf(m, Home, allowed, lib);
      sides := sides + SideIf(m, Away, allowed, lib);
      if |sides| > 0 { out := out + [QualMatch(m.id, sides)]; }
    }
    assert matches[..|matches|] == matches;
  }

  /** The leg is one the match offers, at a price the filter admits. */
  ghost predicate Offers(m: MatchInput, s: QualSide, allowed: real -> bool, lib: Library) {
    && BuildLeg(m, s.selection.pickedSide, lib) == Some(s.selection)
    && lib.read(s.selection.odds) == Some(s.oddsNum)
    && allowed(s.oddsNum)
  }

  lemma SidesOffered(m: MatchInput, allowed: real -> bool, lib: Library, s: QualSide)
    ensures s in SidesOf(m, allowed, lib) <==> Offers(m, s, allowed, lib)
  {
  }

  lemma {:induction false} QualifyMembers(matches: seq<MatchInput>, allowed: real -> bool, lib: Library, q: QualMatch)
    ensures q in Qualify(matches, allowed, lib) <==>
            q.sides != [] && exists m :: m in matches && q == QualMatch(m.id, SidesOf(m, allowed, lib))
  {
    if matches != [] {
      var n := |matches| - 1;
      assert matches == matches[..n] + [matches[n]];
      QualifyMembers(matches[..n], allowed, lib, q);
      assert forall m :: m in matches <==> m in matches[..n] || m == matches[n];
    }
  }

  lemma {:induction false} QualifyAtMost(matches: seq<MatchInput>, allowed: real -> bool, lib: Library)
    ensures |Qualify(matches, allowed, lib)| <= |matches|
  {
    if matches != [] { QualifyAtMost(matches[..|matches| - 1], allowed, lib); }
  }

  ghost predicate DistinctIds(matches: seq<MatchInput>) {
    forall i, j :: 0 <= i < j < |matches| ==> matches[i].id != matches[j].id
  }

  ghost predicate DistinctPool(pool: seq<QualMatch>) {
    forall i, j :: 0 <= i < j < |pool| ==> pool[i].matchId != pool[j].matchId
  }

  lemma {:induction false} QualifyDistinct(matches: seq<MatchInput>, allowed: real -> bool, lib: Library)
    requires DistinctIds(matches)
    ensures DistinctPool(Qualify(matches, allowed, lib))
  {
    if matches == [] { return; }
    var n := |matches| - 1;
    var rest := Qualify(matches[..n], allowed, lib);
    QualifyDistinct(matches[..n], allowed, lib);
    forall i | 0 <= i < |rest| ensures rest[i].matchId != matches[n].id {
      assert rest[i] in rest;
      QualifyMembers(matches[..n], allowed, lib, rest[i]);
    }
  }

  /** A looser filter qualifies at least as many matches. */
  lemma {:induction false} QualifyLooser(matches: seq<MatchInput>, tight: real -> bool, loose: real -> bool, lib: Library)
    requires forall o :: tight(o) ==> loose(o)
    ensures |Qualify(matches, tight, lib)| <= |Qualify(matches, loose, lib)|
  {
    if matches != [] {
      var n := |matches| - 1;
      QualifyLooser(matches[..n], tight, loose, lib);
      var m := matches[n];
      if SidesOf(m, tight, lib) != [] {
        var s := SidesOf(m, tight, lib)[0];
        SidesOffered(m, tight, lib, s);
        SidesOffered(m, loose, lib, s);
      }
    }
  }

  // ----- the capped pool -----

  /** Closeness of the best side to the per-leg target. */
  function Distance(sides: seq<QualSide>, perLeg: real): real {
    if sides == [] then 0.0
    else if |sides| == 1 then Abs(sides[0].oddsNum - perLeg)
    else
      var d, rest := Abs(sides[0].oddsNum - perLeg), Distance(sides[1..], perLeg);
      if d < rest then d else rest
  }

  function Closer(perLeg: real, lib: Library): (QualMatch, QualMatch) -> bool {
    (a: QualMatch, b: QualMatch) =>
      var da, db := Distance(a.sides, perLeg), Distance(b.sides, perLeg);
      da < db || (da == db && lib.collate(a.matchId, b.matchId) < 0)
  }

  function Closeness(perLeg: real): QualMatch -> real { (q: QualMatch) => Distance(q.sides, perLeg) }

  function Ranked(qualifying: seq<QualMatch>, perLeg: real, lib: Library): seq<QualMatch> {
    Sort(qualifying, Closer(perLeg, lib))
  }

  function Capped(ranked: seq<QualMatch>): seq<QualMatch> {
    if |ranked| <= POOL_CAP then ranked else ranked[..POOL_CAP]
  }

  function Pool(matches: seq<MatchInput>, band: TierBand, allowed: real -> bool, lib: Library): seq<QualMatch> {
    Capped(Ranked(Qualify(matches, allowed, lib), lib.cbrt(band.target), lib))
  }

  lemma {:induction false} Closest(sides: seq<QualSide>, perLeg: real) returns (s: QualSide)
    requires sides != []
    ensures s in sides && Abs(s.oddsNum - perLeg) == Distance(sides, perLeg)
  {
    s := sides[0];
    if |sides| > 1 {
      var r := Closest(sides[1..], perLeg);
      if !(Abs(s.oddsNum - perLeg) < Distance(sides[1..], perLeg)) { s := r; }
    }
  }

  lemma {:induction false} NoCloser(sides: seq<QualSide>, perLeg: real, s: QualSide)
    requires s in sides
    ensures Distance(sides, perLeg) <= Abs(s.oddsNum - perLeg)
  {
    if |sides| > 1 && s != sides[0] {
      assert s in sides[1..];
      NoCloser(sides[1..], perLeg, s);
    }
  }

  lemma CappedPrefix(ranked: seq<QualMatch>, j: nat)
    requires j < |ranked|
    ensures j < POOL_CAP ==> ranked[j] in Capped(ranked)
    ensures forall i :: 0 <= i < |Capped(ranked)| ==> Capped(ranked)[i] == ranked[i]
  {
    if j < POOL_CAP { assert Capped(ranked)[j] == ranked[j]; }
  }

  /** The cap drops only matches no closer to the per-leg target than every match it keeps. */
  lemma CapKeepsClosest(matches: seq<MatchInput>, band: TierBand, allowed: real -> bool, lib: Library, kept: QualMatch, dropped: QualMatch)
    requires kept in Pool(matches, band, allowed, lib)
    requires dropped in Qualify(matches, allowed, lib) && dropped !in Pool(matches, band, allowed, lib)
    ensures forall d :: d in dropped.sides ==>
              exists k :: k in kept.sides && Abs(k.oddsNum - lib.cbrt(band.target)) <= Abs(d.oddsNum - lib.cbrt(band.target))
  {
    hide Qualify, Sort, Distance;
    var perLeg := lib.cbrt(band.target);
    var qualifying := Qualify(matches, allowed, lib);
    var ranked := Ranked(qualifying, perLeg, lib);
    SortMembers(qualifying, Closer(perLeg, lib));
    SortOrdered(qualifying, Closer(perLeg, lib), Closeness(perLeg));
    var i :| 0 <= i < |Capped(ranked)| && Capped(ranked)[i] == kept;
    var j :| 0 <= j < |ranked| && ranked[j] == dropped;
    CappedPrefix(ranked, j);
    assert i < j;
    assert Closeness(perLeg)(ranked[i]) <= Closeness(perLeg)(ranked[j]);
    QualifyMembers(matches, allowed, lib, kept);
    var best := Closest(kept.sides, perLeg);
    forall d | d in dropped.sides ensures Abs(best.oddsNum - perLeg) <= Abs(d.oddsNum - perLeg) {
      NoCloser(dropped.sides, perLeg, d);
    }
  }

  lemma {:induction false} InsertDistinct(q: QualMatch, pool: seq<QualMatch>, before: (QualMatch, QualMatch) -> bool)
    requires DistinctPool(pool) && forall x :: x in pool ==> x.matchId != q.matchId
    ensures DistinctPool(Insert(q, pool, before))
  {
    if pool == [] || before(q, pool[0]) { return; }
    var rest := Insert(q, pool[1..], before);
    InsertDistinct(q, pool[1..], before);
    InsertMultiset(q, pool[1..], before);
    forall j | 0 <= j < |rest| ensures pool[0].matchId != rest[j].matchId {
      assert rest[j] in multiset(rest);
      if rest[j] != q {
        assert rest[j] in pool[1..];
      }
    }
  }

  lemma {:induction false} SortDistinct(pool: seq<QualMatch>, before: (QualMatch, QualMatch) -> bool)
    requires DistinctPool(pool)
    ensures DistinctPool(Sort(pool, before))
  {
    if pool != [] {
      var n := |pool| - 1;
      SortDistinct(pool[..n], before);
      SortMembers(pool[..n], before);
      InsertDistinct(pool[n], Sort(pool[..n], before), before);
    }
  }

  /** The pool holds only qualifying matches, each once, and three of them if three qualify. */
  lemma PoolFacts(matches: seq<MatchInput>, band: TierBand, allowed: real -> bool, lib: Library)
    requires DistinctIds(matches)
    ensures var pool, qualifying := Pool(matches, band, allowed, lib), Qualify(matches, allowed, lib);
            && DistinctPool(pool)
            && (forall q :: q in pool ==> q in qualifying)
            && |pool| == (if |qualifying| <= 30 then |qualifying| else 30)
  {
    hide Qualify, Sort;
    var qualifying, before := Qualify(matches, allowed, lib), Closer(lib.cbrt(band.target), lib);
    QualifyDistinct(matches, allowed, lib);
    SortDistinct(qualifying, before);
    SortMembers(qualifying, before);
  }

  // ----- the triples, in the order the six loops visit them -----

  function Concat<T>(lo: int, hi: int, f: int -> seq<T>): seq<T>
    decreases hi - lo
  {
    if hi <= lo then [] else Concat(lo, hi - 1, f) + f(hi - 1)
  }

  lemma {:induction false} ToConcat<T>(lo: int, hi: int, f: int -> seq<T>, i: int, x: T)
    requires lo <= i < hi && x in f(i)
    ensures x in Concat(lo, hi, f)
    decreases hi - lo
  {
    if i < hi - 1 { ToConcat(lo, hi - 1, f, i, x); }
  }

  lemma {:induction false} FromConcat<T>(lo: int, hi: int, f: int -> seq<T>, x: T) returns (i: int)
    requires x in Concat(lo, hi, f)
    ensures lo <= i < hi && x in f(i)
    decreases hi - lo
  {
    i := hi - 1;
    if x !in f(i) { i := FromConcat(lo, hi - 1, f, x); }
  }

  function AtThirdSide(sa: QualSide, sb: QualSide, c: seq<QualSide>): int -> seq<Triple> {
    z => if 0 <= z < |c| then [Triple(sa, sb, c[z])] else []
  }

  function AtSecondSide(sa: QualSide, b: seq<QualSide>, c: seq<QualSide>): int -> seq<Triple> {
    y => if 0 <= y < |b| then Concat(0, |c|, AtThirdSide(sa, b[y], c)) else []
  }

  function AtFirstSide(a: seq<QualSide>, b: seq<QualSide>, c: seq<QualSide>): int -> seq<Triple> {
    x => if 0 <= x < |a| then Concat(0, |b|, AtSecondSide(a[x], b, c)) else []
  }

  function SideTriples(a: QualMatch, b: QualMatch, c: QualMatch): seq<Triple> {
    Concat(0, |a.sides|, AtFirstSide(a.sides, b.sides, c.sides))
  }

  function AtThird(pool: seq<QualMatch>, i: int, j: int): int -> seq<Triple> {
    k => if 0 <= i < |pool| && 0 <= j < |pool| && 0 <= k < |pool| then SideTriples(pool[i], pool[j], pool[k]) else []
  }

  function AtSecond(pool: seq<QualMatch>, i: int): int -> seq<Triple> {
    j => Concat(j + 1, |pool|, AtThird(pool, i, j))
  }

  function AtFirst(pool: seq<QualMatch>): int -> seq<Triple> {
    i => Concat(i + 1, |pool|, AtSecond(pool, i))
  }

  function Candidates(pool: seq<QualMatch>): seq<Triple> { Concat(0, |pool|, AtFirst(pool)) }

  lemma SideTriplesExactly(a: QualMatch, b: QualMatch, c: QualMatch, t: Triple)
    ensures t in SideTriples(a, b, c) <==> t.a in a.sides && t.b in b.sides && t.c in c.sides
  {
    hide Concat;
    if t in SideTriples(a, b, c) {
      var x := FromConcat(0, |a.sides|, AtFirstSide(a.sides, b.sides, c.sides), t);
      var y := FromConcat(0, |b.sides|, AtSecondSide(a.sides[x], b.sides, c.sides), t);
      var z := FromConcat(0, |c.sides|, AtThirdSide(a.sides[x], b.sides[y], c.sides), t);
    }
    if t.a in a.sides && t.b in b.sides && t.c in c.sides {
      var x :| 0 <= x < |a.sides| && a.sides[x] == t.a;
      var y :| 0 <= y < |b.sides| && b.sides[y] == t.b;
      var z :| 0 <= z < |c.sides| && c.sides[z] == t.c;
      ToConcat(0, |c.sides|, AtThirdSide(t.a, t.b, c.sides), z, t);
      ToConcat(0, |b.sides|, AtSecondSide(t.a, b.sides, c.sides), y, t);
      ToConcat(0, |a.sides|, AtFirstSide(a.sides, b.sides, c.sides), x, t);
    }
  }

  /** One side each of three matches of the pool, in pool order. */
  ghost predicate DrawnAt(t: Triple, pool: seq<QualMatch>, i: int, j: int, k: int) {
    && 0 <= i < j < k < |pool|
    && t.a in pool[i].sides && t.b in pool[j].sides && t.c in pool[k].sides
  }

  ghost predicate Drawn(t: Triple, pool: seq<QualMatch>) {
    exists i, j, k :: DrawnAt(t, pool, i, j, k)
  }

  /** The loops visit every choice of sides of every three matches of the pool, and no other. */
  lemma CandidatesExactly(pool: seq<QualMatch>, t: Triple)
    ensures t in Candidates(pool) <==> Drawn(t, pool)
  {
    hide Concat, SideTriples;
    if t in Candidates(pool) {
      var i := FromConcat(0, |pool|, AtFirst(pool), t);
      var j := FromConcat(i + 1, |pool|, AtSecond(pool, i), t);
      var k := FromConcat(j + 1, |pool|, AtThird(pool, i, j), t);
      SideTriplesExactly(pool[i], pool[j], pool[k], t);
      assert DrawnAt(t, pool, i, j, k);
    }
    if Drawn(t, pool) {
      var i, j, k :| DrawnAt(t, pool, i, j, k);
      SideTriplesExactly(pool[i], pool[j], pool[k], t);
      ToConcat(j + 1, |pool|, AtThird(pool, i, j), k, t);
      ToConcat(i + 1, |pool|, AtSecond(pool, i), j, t);
      ToConcat(0, |pool|, AtFirst(pool), i, t);
    }
  }

  // ----- the nearest admissible triple -----

  function Product(t: Triple): real { t.a.oddsNum * t.b.oddsNum * t.c.oddsNum }

  predicate Admissible(t: Triple, band: TierBand, ignoreBand: bool) {
    ignoreBand || !(Product(t) < band.lo || Product(t) >= band.hi)
  }

  function Delta(t: Triple, band: TierBand): real { Abs(Product(t) - band.target) }

  /** One visit of the innermost loop body. */
  function Visit(best: Option<Triple>, t: Triple, band: TierBand, ignoreBand: bool): Option<Triple> {
    if !Admissible(t, band, ignoreBand) then best
    else if best == None || Delta(t, band) < Delta(best.value, band) then Some(t)
    else best
  }

  function Best(start: Option<Triple>, ts: seq<Triple>, band: TierBand, ignoreBand: bool): Option<Triple> {
    if ts == [] then start
    else Visit(Best(start, ts[..|ts| - 1], band, ignoreBand), ts[|ts| - 1], band, ignoreBand)
  }

  lemma {:induction false} BestConcat(start: Option<Triple>, ts: seq<Triple>, us: seq<Triple>, band: TierBand, ignoreBand: bool)
    ensures Best(Best(start, ts, band, ignoreBand), us, band, ignoreBand) == Best(start, ts + us, band, ignoreBand)
  {
    if us == [] {
      assert ts + us == ts;
    } else {
      var n := |us| - 1;
      assert (ts + us)[..|ts| + n] == ts + us[..n];
      BestConcat(start, ts, us[..n], band, ignoreBand);
    }
  }

  /** The first visited of the admissible triples nearest the target. */
  ghost predicate Nearest(best: Option<Triple>, ts: seq<Triple>, band: TierBand, ignoreBand: bool) {
    if best == None then forall t :: t in ts ==> !Admissible(t, band, ignoreBand)
    else exists i :: FirstNearest(best.value, i, ts, band, ignoreBand)
  }

  ghost predicate FirstNearest(t: Triple, i: int, ts: seq<Triple>, band: TierBand, ignoreBand: bool) {
    && 0 <= i < |ts| && ts[i] == t && Admissible(t, band, ignoreBand)
    && (forall j :: 0 <= j < |ts| && Admissible(ts[j], band, ignoreBand) ==> Delta(t, band) <= Delta(ts[j], band))
    && forall j :: 0 <= j < i && Admissible(ts[j], band, ignoreBand) ==> Delta(t, band) < Delta(ts[j], band)
  }

  lemma {:induction false} BestIsNearest(ts: seq<Triple>, band: TierBand, ignoreBand: bool)
    ensures Nearest(Best(None, ts, band, ignoreBand), ts, band, ignoreBand)
  {
    hide Delta, Admissible;
    if ts == [] { return; }
    var n := |ts| - 1;
    var rest, t := ts[..n], ts[n];
    assert ts == rest + [t];
    BestIsNearest(rest, band, ignoreBand);
    var was, now := Best(None, rest, band, ignoreBand), Best(None, ts, band, ignoreBand);
    if was != None {
      var i :| FirstNearest(was.value, i, rest, band, ignoreBand);
      if now == was {
        assert FirstNearest(was.value, i, ts, band, ignoreBand);
      } else {
        assert FirstNearest(t, n, ts, band, ignoreBand);
      }
    } else if now != None {
      forall j | 0 <= j < n ensures !Admissible(ts[j], band, ignoreBand) {
        assert rest[j] in rest;
      }
      assert FirstNearest(t, n, ts, band, ignoreBand);
    }
  }

  // ----- the search -----

  method SearchSides(start: Option<Triple>, a: QualMatch, b: QualMatch, c: QualMatch, band: TierBand, ignoreBand: bool)
    returns (best: Option<Triple>)
    ensures best == Best(start, SideTriples(a, b, c), band, ignoreBand)
  {
    hide Product, Delta, Admissible, Visit, Best;
    best := start;
    NothingVisited(start, band, ignoreBand);
    for x := 0 to |a.sides|
      invariant best == Best(start, Concat(0, x, AtFirstSide(a.sides, b.sides, c.sides)), band, ignoreBand)
    {
      ghost var atX := best;
      NothingVisited(atX, band, ignoreBand);
      for y := 0 to |b.sides|
        invariant best == Best(atX, Concat(0, y, AtSecondSide(a.sides[x], b.sides, c.sides)), band, ignoreBand)
      {
        ghost var atY := best;
        NothingVisited(atY, band, ignoreBand);
        for z := 0 to |c.sides|
          invariant best == Best(atY, Concat(0, z, AtThirdSide(a.sides[x], b.sides[y], c.sides)), band, ignoreBand)
        {
          var t := Triple(a.sides[x], b.sides[y], c.sides[z]);
          VisitOne(best, t, band, ignoreBand);
          BestConcat(atY, Concat(0, z, AtThirdSide(a.sides[x], b.sides[y], c.sides)), [t], band, ignoreBand);
          best := Visited(best, t, band, ignoreBand);
        }
        BestConcat(atX, Concat(0, y, AtSecondSide(a.sides[x], b.sides, c.sides)),
                   Concat(0, |c.sides|, AtThirdSide(a.sides[x], b.sides[y], c.sides)), band, ignoreBand);
      }
      BestConcat(start, Concat(0, x, AtFirstSide(a.sides, b.sides, c.sides)),
                 Concat(0, |b.sides|, AtSecondSide(a.sides[x], b.sides, c.sides)), band, ignoreBand);
    }
  }

  lemma NothingVisited(start: Option<Triple>, band: TierBand, ignoreBand: bool)
    ensures Best(start, [], band, ignoreBand) == start
  {
  }

  lemma VisitOne(start: Option<Triple>, t: Triple, band: TierBand, ignoreBand: bool)
    ensures Best(start, [t], band, ignoreBand) == Visit(start, t, band, ignoreBand)
  {
    assert [t][..0] == [];
  }

  method Visited(best: Option<Triple>, t: Triple, band: TierBand, ignoreBand: bool) returns (r: Option<Triple>)
    ensures r == Visit(best, t, band, ignoreBand)
  {
    var product := Product(t);
    if !ignoreBand && (product < band.lo || product >= band.hi) { return best; }
    var delta := Abs(product - band.target);
    if best == None || delta < Delta(best.value, band) { return Some(t); }
    return best;
  }

  method Search(pool: seq<QualMatch>, band: TierBand, ignoreBand: bool) returns (best: Option<Triple>)
    ensures best == Best(None, Candidates(pool), band, ignoreBand)
  {
    hide Best, SideTriples;
    best := None;
    NothingVisited(None, band, ignoreBand);
    for i := 0 to |pool|
      invariant best == Best(None, Concat(0, i, AtFirst(pool)), band, ignoreBand)
    {
      ghost var atI := best;
      NothingVisited(atI, band, ignoreBand);
      for j := i + 1 to |pool|
        invariant best == Best(atI, Concat(i + 1, j, AtSecond(pool, i)), band, ignoreBand)
      {
        ghost var atJ := best;
        NothingVisited(atJ, band, ignoreBand);
        for k := j + 1 to |pool|
          invariant best == Best(atJ, Concat(j + 1, k, AtThird(pool, i, j)), band, ignoreBand)
        {
          BestConcat(atJ, Concat(j + 1, k, AtThird(pool, i, j)), SideTriples(pool[i], pool[j], pool[k]), band, ignoreBand);
          best := SearchSides(best, pool[i], pool[j], pool[k], band, ignoreBand);
        }
        BestConcat(atI, Concat(i + 1, j, AtSecond(pool, i)), Concat(j + 1, |pool|, AtThird(pool, i, j)), band, ignoreBand);
      }
      BestConcat(None, Concat(0, i, AtFirst(pool)), Concat(i + 1, |pool|, AtSecond(pool, i)), band, ignoreBand);
    }
  }

  /** The whole pick for a sport. */
  function Pick(matches: seq<MatchInput>, band: TierBand, allowed: real -> bool, ignoreBand: bool, lib: Library): Option<Triple> {
    if |Qualify(matches, allowed, lib)| < 3 then None
    else Best(None, Candidates(Pool(matches, band, allowed, lib)), band, ignoreBand)
  }

  method PickForTierInSport(matches: seq<MatchInput>, band: TierBand, allowed: real -> bool, ignoreBand: bool, lib: Library)
    returns (best: Option<Triple>)
    ensures best == Pick(matches, band, allowed, ignoreBand, lib)
  {
    hide Qualify, Sort, Best, Candidates;
    var qualifying := QualifyForLegs(matches, allowed, lib);
    if |qualifying| < 3 { return None; }
    var ranked := Sort(qualifying, Closer(lib.cbrt(band.target), lib));
    var capped := if |ranked| <= POOL_CAP then ranked else ranked[..POOL_CAP];
    best := Search(capped, band, ignoreBand);
  }

  /** A pick is the first admissible triple nearest the target over the whole capped pool, and
      there is none only when nothing in the pool is admissible or fewer than three qualify. */
  lemma PickIsNearest(matches: seq<MatchInput>, band: TierBand, allowed: real -> bool, ignoreBand: bool, lib: Library)
    ensures var pool, best := Pool(matches, band, allowed, lib), Pick(matches, band, allowed, ignoreBand, lib);
            && (best == None <==>
                 || |Qualify(matches, allowed, lib)| < 3
                 || forall t :: Drawn(t, pool) ==> !Admissible(t, band, ignoreBand))
            && (best.Some? ==>
                 && Drawn(best.value, pool)
                 && Admissible(best.value, band, ignoreBand)
                 && forall t :: Drawn(t, pool) && Admissible(t, band, ignoreBand) ==>
                      Delta(best.value, band) <= Delta(t, band))
  {
    hide Qualify, Candidates, Best, Admissible, Delta, Pool, Drawn;
    var pool := Pool(matches, band, allowed, lib);
    var ts := Candidates(pool);
    BestIsNearest(ts, band, ignoreBand);
    forall t ensures t in ts <==> Drawn(t, pool) {
      CandidatesExactly(pool, t);
    }
  }

  /** With the band ignored, three qualifying matches always give a pick. */
  lemma RelaxedPickSucceeds(matches: seq<MatchInput>, band: TierBand, allowed: real -> bool, lib: Library)
    requires DistinctIds(matches)
    ensures Pick(matches, band, allowed, true, lib).Some? <==> |Qualify(matches, allowed, lib)| >= 3
  {
    hide Qualify, Best, Candidates, Pick, Pool;
    PickIsNearest(matches, band, allowed, true, lib);
    PoolFacts(matches, band, allowed, lib);
    var pool := Pool(matches, band, allowed, lib);
    if |pool| >= 3 {
      forall q | q in pool ensures q.sides != [] { QualifyMembers(matches, allowed, lib, q); }
      assert pool[0] in pool && pool[1] in pool && pool[2] in pool;
      var t := Triple(pool[0].sides[0], pool[1].sides[0], pool[2].sides[0]);
      assert DrawnAt(t, pool, 0, 1, 2);
      assert Drawn(t, pool) && Admissible(t, band, true);
    }
  }

  /** The three legs of a pick are offered by three distinct matches. */
  lemma PickedFrom(matches: seq<MatchInput>, band: TierBand, allowed: real -> bool, ignoreBand: bool, lib: Library)
    returns (a: MatchInput, b: MatchInput, c: MatchInput)
    requires DistinctIds(matches) && Pick(matches, band, allowed, ignoreBand, lib).Some?
    ensures var t := Pick(matches, band, allowed, ignoreBand, lib).value;
            && a in matches && b in matches && c in matches
            && a.id != b.id && b.id != c.id && a.id != c.id
            && Offers(a, t.a, allowed, lib) && Offers(b, t.b, allowed, lib) && Offers(c, t.c, allowed, lib)
  {
    hide Qualify, Best, Candidates, Pick, Pool;
    var t, pool := Pick(matches, band, allowed, ignoreBand, lib).value, Pool(matches, band, allowed, lib);
    PickIsNearest(matches, band, allowed, ignoreBand, lib);
    PoolFacts(matches, band, allowed, lib);
    var i, j, k :| DrawnAt(t, pool, i, j, k);
    a := Owner(matches, allowed, lib, pool[i], t.a);
    b := Owner(matches, allowed, lib, pool[j], t.b);
    c := Owner(matches, allowed, lib, pool[k], t.c);
  }

  lemma Owner(matches: seq<MatchInput>, allowed: real -> bool, lib: Library, q: QualMatch, s: QualSide) returns (m: MatchInput)
    requires q in Qualify(matches, allowed, lib) && s in q.sides
    ensures m in matches && m.id == q.matchId && Offers(m, s, allowed, lib)
  {
    QualifyMembers(matches, allowed, lib, q);
    m :| m in matches && q == QualMatch(m.id, SidesOf(m, allowed, lib));
    SidesOffered(m, allowed, lib, s);
  }
}
