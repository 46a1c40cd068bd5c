/** Selection boosts and market boosts (packages/types/src/netwinstable.ts). */
module Boosts {
  import opened Numbers
  import opened RealSums
  import opened RealArith
  import opened Netwinstable

  /** No boost may shave more than this share of an outcome's own implied probability. */
  const SELECTION_BOOST_MAX_PROB_SHARE: real := 0.5

  datatype SelectionBoost = SelectionBoost(
    adjustedOdds: seq<real>,
    effectiveDeltas: seq<real>,
    effectiveKeyDelta: real,
    keyOriginal: real,
    keyAdjusted: real)

  /** The shave one outcome asks for, after the per-outcome clamp. */
  function Cap(o: real, pct: real): (cap: real)
    ensures cap >= 0.0 && (cap > 0.0 ==> o > 1.0) && cap <= KeyTerm(o) * 0.5
  {
    if o <= 1.0 || pct <= 0.0 then 0.0
    else Min(pct / 100.0, (1.0 / o) * SELECTION_BOOST_MAX_PROB_SHARE)
  }

  function PctAt(pcts: seq<real>, i: nat): real { if i < |pcts| then pcts[i] else 0.0 }

  function Caps(odds: seq<real>, pcts: seq<real>): (caps: seq<real>)
    ensures |caps| == |odds| && forall i :: 0 <= i < |odds| ==> caps[i] == Cap(odds[i], PctAt(pcts, i))
  {
    seq(|odds|, i requires 0 <= i < |odds| => Cap(odds[i], PctAt(pcts, i)))
  }

  /** One common factor, so that no outcome takes headroom ahead of another. */
  function Factor(headroom: real, total: real): (f: real)
    requires headroom > 0.0 && total > 0.0
    ensures 0.0 < f <= 1.0 && f * total == Min(headroom, total)
  {
    if total > headroom then
      var f := headroom / total;
      assert f * total == headroom;
      PositiveShare(f, total, headroom);
      f
    else 1.0
  }

  lemma PositiveShare(f: real, total: real, headroom: real)
    requires f * total == headroom && 0.0 < headroom < total
    ensures 0.0 < f < 1.0
  {
    if f <= 0.0 { ProductNonNegative(-f, total); }
    if f >= 1.0 { ProductNonNegative(f - 1.0, total); }
  }

  function Shaved(o: real, delta: real): real {
    if delta > 0.0 && o > 1.0 && 1.0 / o - delta > 0.0 then 1.0 / (1.0 / o - delta) else o
  }

  function ShaveAll(odds: seq<real>, deltas: seq<real>): (out: seq<real>)
    requires |odds| == |deltas|
    ensures |out| == |odds| && forall i :: 0 <= i < |odds| ==> out[i] == Shaved(odds[i], deltas[i])
  {
    seq(|odds|, i requires 0 <= i < |odds| => Shaved(odds[i], deltas[i]))
  }

  ghost predicate WithinShare(odds: seq<real>, deltas: seq<real>) {
    |odds| == |deltas| && forall i :: 0 <= i < |odds| ==> 0.0 <= deltas[i] <= KeyTerm(odds[i]) * 0.5
  }

  /** Shaving at most half of an outcome's probability gives a price between 1x and 2x. */
  lemma ShavedPrice(o: real, delta: real)
    requires 0.0 <= delta <= KeyTerm(o) * 0.5
    ensures delta > 0.0 ==> o > 1.0 && 1.0 / o - delta > 0.0
    ensures delta == 0.0 ==> Shaved(o, delta) == o
    ensures KeyTerm(Shaved(o, delta)) == KeyTerm(o) - delta
    ensures o >= 1.0 ==> o <= Shaved(o, delta) <= 2.0 * o
    ensures delta > 0.0 ==> Shaved(o, delta) > o
  {
    if delta > 0.0 {
      var p := 1.0 / o;
      var q := p - delta;
      assert p * o == 1.0;
      assert 0.0 < q < p < 1.0 && q >= p * 0.5;
      Inverted(p, q, o);
      assert 1.0 / (1.0 / q) == q;
    }
  }

  lemma Inverted(p: real, q: real, o: real)
    requires p * o == 1.0 && o > 1.0 && 0.0 < q < p < 1.0 && q >= p * 0.5
    ensures o < 1.0 / q <= 2.0 * o
  {
    var r := 1.0 / q;
    assert r * q == 1.0;
    assert (p * 0.5) * (2.0 * o) == 1.0;
    assert o * q < o * p by { ProductPositive(o, p - q); assert o * (p - q) == o * p - o * q; }
    CancelLess(o, r, q);
    assert (2.0 * o) * q >= 1.0 by { ProductNonNegative(2.0 * o, q - p * 0.5); }
    CancelAtMost(r, 2.0 * o, q);
  }

  lemma ShavedKey(odds: seq<real>, deltas: seq<real>)
    requires WithinShare(odds, deltas)
    ensures Key(ShaveAll(odds, deltas)) == Key(odds) - Sum(deltas)
  {
    hide Sum;
    var out := ShaveAll(odds, deltas);
    forall i | 0 <= i < |odds| ensures KeyTerms(out)[i] == KeyTerms(odds)[i] - deltas[i] {
      ShavedPrice(odds[i], deltas[i]);
    }
    SumDifference(KeyTerms(odds), KeyTerms(out), deltas);
  }

  function Scaled(caps: seq<real>, f: real): (deltas: seq<real>)
    ensures |deltas| == |caps| && forall i :: 0 <= i < |caps| ==> deltas[i] == f * caps[i]
  {
    seq(|caps|, i requires 0 <= i < |caps| => f * caps[i])
  }

  /** The deltas the whole call applies. */
  function Deltas(odds: seq<real>, pcts: seq<real>): (deltas: seq<real>)
    ensures |deltas| == |odds|
  {
    var caps, headroom := Caps(odds, pcts), Key(odds) - 1.0;
    if headroom <= 0.0 || Sum(caps) <= 0.0 then seq(|odds|, _ => 0.0)
    else Scaled(caps, Factor(headroom, Sum(caps)))
  }

  lemma ScaledShare(cap: real, f: real, bound: real)
    requires 0.0 <= cap <= bound && 0.0 < f <= 1.0
    ensures 0.0 <= f * cap <= bound && (cap > 0.0 <==> f * cap > 0.0)
  {
    var g := 1.0 - f;
    ProductNonNegative(f, cap);
    ProductNonNegative(g, cap);
    assert g * cap == cap - f * cap;
    if cap > 0.0 { ProductPositive(f, cap); }
  }

  lemma ScaledWithinShare(odds: seq<real>, caps: seq<real>, f: real)
    requires WithinShare(odds, caps) && 0.0 < f <= 1.0
    ensures WithinShare(odds, Scaled(caps, f)) && Sum(Scaled(caps, f)) == f * Sum(caps)
  {
    hide Sum, KeyTerm;
    forall i | 0 <= i < |odds| ensures 0.0 <= Scaled(caps, f)[i] <= KeyTerm(odds[i]) * 0.5 {
      ScaledShare(caps[i], f, KeyTerm(odds[i]) * 0.5);
    }
    SumScale(caps, Scaled(caps, f), f);
  }

  lemma DeltasWithinShare(odds: seq<real>, pcts: seq<real>)
    ensures WithinShare(odds, Deltas(odds, pcts))
    ensures var headroom, total := Key(odds) - 1.0, Sum(Caps(odds, pcts));
            Sum(Deltas(odds, pcts)) == if headroom <= 0.0 || total <= 0.0 then 0.0 else Min(headroom, total)
  {
    hide Sum, Key, Cap, KeyTerm;
    var caps, headroom, deltas := Caps(odds, pcts), Key(odds) - 1.0, Deltas(odds, pcts);
    if headroom <= 0.0 || Sum(caps) <= 0.0 {
      SumOfZeros(deltas);
    } else {
      ScaledWithinShare(odds, caps, Factor(headroom, Sum(caps)));
    }
  }

  /** Whatever is asked for, the recomputed key of a book above fair is the original minus the
      applied deltas and never falls below 1; it reaches 1 exactly when the clamped requests
      use up the whole headroom. */
  lemma NeverPastFair(odds: seq<real>, pcts: seq<real>)
    requires Key(odds) > 1.0
    ensures var out := ShaveAll(odds, Deltas(odds, pcts));
            && Key(out) == Key(odds) - Sum(Deltas(odds, pcts)) >= 1.0
            && (Key(out) == 1.0 <==> Sum(Caps(odds, pcts)) >= Key(odds) - 1.0)
  {
    hide Sum, Key;
    DeltasWithinShare(odds, pcts);
    ShavedKey(odds, Deltas(odds, pcts));
  }

  /** What outcome `j` asks for, in the operator's numbers: its percentage points of key, at most half of
      its own implied probability, and nothing for a price of 1 or below or a request of none. */
  ghost predicate Asks(odds: seq<real>, pcts: seq<real>, j: nat, x: real)
    requires j < |odds|
  {
    if odds[j] <= 1.0 || j >= |pcts| || pcts[j] <= 0.0 then x == 0.0
    else if pcts[j] * odds[j] <= 50.0 then x == pcts[j] / 100.0
    else 2.0 * odds[j] * x == 1.0
  }

  lemma CapIsAsked(odds: seq<real>, pcts: seq<real>, j: nat, x: real)
    requires j < |odds| && Asks(odds, pcts, j, x)
    ensures Cap(odds[j], PctAt(pcts, j)) == x
  {
    var o, pct := odds[j], PctAt(pcts, j);
    if o > 1.0 && pct > 0.0 {
      var h := (1.0 / o) * SELECTION_BOOST_MAX_PROB_SHARE;
      assert h * o == 0.5 by { assert (1.0 / o) * o == 1.0; }
      var y := pct / 100.0;
      assert y * o == (pct * o) / 100.0;
      if pct * o <= 50.0 {
        CancelFrom(y, h, o, y * o, 0.5);
      } else {
        CancelFrom(h, y, o, 0.5, y * o);
        assert x * o == 0.5;
        CancelFrom(x, h, o, 0.5, 0.5);
        CancelFrom(h, x, o, 0.5, 0.5);
      }
    }
  }

  /** The whole boost in the operator's numbers. Requests that fit the headroom are granted in full;
      requests that do not share it in proportion; a book at or below fair grants none. A granted
      request comes off the outcome's implied probability, so an outcome at the per-outcome limit with
      room to spare ends at exactly twice its price. */
  lemma BoostNumbers(odds: seq<real>, pcts: seq<real>, asked: seq<real>, i: nat)
    requires |asked| == |odds| && i < |odds| && forall j :: 0 <= j < |odds| ==> Asks(odds, pcts, j, asked[j])
    ensures var delta, room, price := Deltas(odds, pcts)[i], Key(odds) - 1.0, ShaveAll(odds, Deltas(odds, pcts))[i];
            && (room <= 0.0 ==> delta == 0.0)
            && (room > 0.0 && Sum(asked) <= room ==> delta == asked[i])
            && (room > 0.0 && Sum(asked) > room ==> delta * Sum(asked) == room * asked[i])
            && (delta > 0.0 ==> odds[i] > 1.0 && price > odds[i] && 1.0 / price == 1.0 / odds[i] - delta)
            && (delta == 0.0 ==> price == odds[i])
            && (delta > 0.0 && 2.0 * odds[i] * delta == 1.0 ==> price == 2.0 * odds[i])
  {
    hide Sum, Key, Asks, Deltas, Shaved;
    GrantedDelta(odds, pcts, asked, i);
    DeltasWithinShare(odds, pcts);
    GrantedPrice(odds[i], Deltas(odds, pcts)[i]);
  }

  lemma GrantedDelta(odds: seq<real>, pcts: seq<real>, asked: seq<real>, i: nat)
    requires |asked| == |odds| && i < |odds| && forall j :: 0 <= j < |odds| ==> Asks(odds, pcts, j, asked[j])
    ensures var delta, room := Deltas(odds, pcts)[i], Key(odds) - 1.0;
            && (room <= 0.0 ==> delta == 0.0)
            && (room > 0.0 && Sum(asked) <= room ==> delta == asked[i])
            && (room > 0.0 && Sum(asked) > room ==> delta * Sum(asked) == room * asked[i])
  {
    hide Sum, Cap, Key, Asks, Factor, Deltas, Portion;
    CapsAreAsked(odds, pcts, asked);
    NonNegativeCaps(odds, pcts);
    DeltaIsPortion(odds, pcts, i);
    PortionIs(Key(odds) - 1.0, Sum(asked), asked[i]);
  }

  lemma CapsAreAsked(odds: seq<real>, pcts: seq<real>, asked: seq<real>)
    requires |asked| == |odds| && forall j :: 0 <= j < |odds| ==> Asks(odds, pcts, j, asked[j])
    ensures Caps(odds, pcts) == asked
  {
    hide Cap, Asks;
    forall j | 0 <= j < |odds| ensures Cap(odds[j], PctAt(pcts, j)) == asked[j] { CapIsAsked(odds, pcts, j, asked[j]); }
  }

  /** One outcome's portion of the headroom. */
  ghost function Portion(room: real, total: real, x: real): real {
    if room <= 0.0 || total <= 0.0 then 0.0 else Factor(room, total) * x
  }

  lemma DeltaIsPortion(odds: seq<real>, pcts: seq<real>, i: nat)
    requires i < |odds|
    ensures Deltas(odds, pcts)[i] == Portion(Key(odds) - 1.0, Sum(Caps(odds, pcts)), Caps(odds, pcts)[i])
  {
    hide Sum, Cap, Key, Factor;
  }

  lemma PortionIs(room: real, total: real, x: real)
    requires 0.0 <= x <= total
    ensures var delta := Portion(room, total, x);
            && (room <= 0.0 ==> delta == 0.0)
            && (room > 0.0 && total <= room ==> delta == x)
            && (room > 0.0 && total > room ==> delta * total == room * x)
  {
    hide Factor;
    if room > 0.0 && total > 0.0 { SharedOut(room, total, Factor(room, total), x); }
  }

  lemma NonNegativeCaps(odds: seq<real>, pcts: seq<real>)
    ensures Sum(Caps(odds, pcts)) >= 0.0
    ensures forall i :: 0 <= i < |odds| ==> Caps(odds, pcts)[i] <= Sum(Caps(odds, pcts)) && Caps(odds, pcts)[i] >= 0.0
  {
    hide Sum;
    SumNonNegative(Caps(odds, pcts));
  }

  lemma SharedOut(room: real, total: real, f: real, x: real)
    requires room > 0.0 && total > 0.0 && f * total == Min(room, total)
    ensures total <= room ==> f * x == x
    ensures total > room ==> (f * x) * total == room * x
  {
    if total <= room {
      UnitFactor(total, f, total * f);
    } else {
      assert (f * x) * total == (f * total) * x;
    }
  }

  lemma GrantedPrice(o: real, delta: real)
    requires 0.0 <= delta <= KeyTerm(o) * 0.5
    ensures delta > 0.0 ==> o > 1.0 && Shaved(o, delta) > o && 1.0 / Shaved(o, delta) == 1.0 / o - delta
    ensures delta == 0.0 ==> Shaved(o, delta) == o
    ensures delta > 0.0 && 2.0 * o * delta == 1.0 ==> Shaved(o, delta) == 2.0 * o
  {
    ShavedPrice(o, delta);
    if delta > 0.0 {
      var p := 1.0 / o - delta;
      Inverts(p);
      if 2.0 * o * delta == 1.0 {
        assert (1.0 / o) * o == 1.0;
        assert p * (2.0 * o) == 2.0 * ((1.0 / o) * o) - 2.0 * o * delta;
        Quotient(1.0, p, 2.0 * o);
      }
    }
  }

  lemma Inverts(p: real)
    requires p > 0.0
    ensures 1.0 / p > 0.0 && 1.0 / (1.0 / p) == p
  {
    var q := 1.0 / p;
    assert q * p == 1.0;
    assert q > 0.0;
    Quotient(1.0, q, p);
  }

  /** A market of two outcomes at 1.25, both boosted by fifty points, ends exactly fair. */
  lemma ExactlyFair()
    ensures var odds, pcts := [1.25, 1.25], [50.0, 50.0];
            Key(odds) > 1.0 && Key(ShaveAll(odds, Deltas(odds, pcts))) == 1.0
  {
    var odds, pcts := [1.25, 1.25], [50.0, 50.0];
    assert KeyTerms(odds) == [0.8, 0.8] && Caps(odds, pcts) == [0.4, 0.4];
    PairSum(0.8);
    PairSum(0.4);
    NeverPastFair(odds, pcts);
  }

  lemma PairSum(x: real)
    ensures Sum([x, x]) == x + x
  {
    assert [x, x] == [x] + [x];
    SumAppend([x], x);
    SumAppend([], x);
    assert [] + [x] == [x];
  }

  /** Shave the requested percentage points off single outcomes. The guard against a
      non-positive probability never fires. */
  method BoostSelectionKeys(odds: seq<real>, pcts: seq<real>) returns (r: SelectionBoost)
    ensures r.effectiveDeltas == Deltas(odds, pcts)
    ensures r.adjustedOdds == ShaveAll(odds, Deltas(odds, pcts))
    ensures r.keyOriginal == Key(odds) && r.effectiveKeyDelta == Sum(Deltas(odds, pcts))
    ensures r.keyAdjusted == Key(r.adjustedOdds)
    ensures r.keyOriginal > 1.0 ==> r.keyAdjusted >= 1.0
    ensures forall i :: 0 <= i < |odds| ==>
              && (PctAt(pcts, i) <= 0.0 ==> r.adjustedOdds[i] == odds[i])
              && (odds[i] >= 1.0 ==> odds[i] <= r.adjustedOdds[i] <= 2.0 * odds[i])
  {
    hide Key, Deltas, Shaved;
    var n := |odds|;
    ghost var deltas := Deltas(odds, pcts);
    DeltasWithinShare(odds, pcts);
    ShavedKey(odds, deltas);
    forall i | 0 <= i < n ensures
      && (PctAt(pcts, i) <= 0.0 ==> ShaveAll(odds, deltas)[i] == odds[i])
      && (odds[i] >= 1.0 ==> odds[i] <= ShaveAll(odds, deltas)[i] <= 2.0 * odds[i])
    {
      ShavedPrice(odds[i], deltas[i]);
      if PctAt(pcts, i) <= 0.0 { Unrequested(odds, pcts, i); }
    }
    var keyOriginal := BookKey(odds);
    var headroom := keyOriginal - 1.0;
    var zeros := seq(n, _ => 0.0);
    if !(headroom > 0.0) {
      NoDeltas(odds, pcts, zeros);
      return SelectionBoost(odds, zeros, 0.0, keyOriginal, keyOriginal);
    }
    var caps, totalRequested := RequestLoop(odds, pcts);
    if !(totalRequested > 0.0) {
      NoDeltas(odds, pcts, zeros);
      return SelectionBoost(odds, zeros, 0.0, keyOriginal, keyOriginal);
    }
    var scale := if totalRequested > headroom then headroom / totalRequested else 1.0;
    assert scale == Factor(headroom, totalRequested);
    var adjusted, effective, applied := ApplyLoop(odds, caps, scale);
    assert effective == Deltas(odds, pcts) by { BoostedDeltas(odds, pcts); }
    assert applied == Min(headroom, totalRequested) > 0.0;
    r := SelectionBoost(adjusted, effective, applied, keyOriginal, keyOriginal - applied);
  }

  lemma BoostedDeltas(odds: seq<real>, pcts: seq<real>)
    requires Key(odds) > 1.0 && Sum(Caps(odds, pcts)) > 0.0
    ensures Deltas(odds, pcts) == Scaled(Caps(odds, pcts), Factor(Key(odds) - 1.0, Sum(Caps(odds, pcts))))
  {
    hide Sum, Key;
  }

  lemma Unrequested(odds: seq<real>, pcts: seq<real>, i: nat)
    requires i < |odds| && PctAt(pcts, i) <= 0.0
    ensures Deltas(odds, pcts)[i] == 0.0
  {
    hide Sum, Key;
    assert Caps(odds, pcts)[i] == 0.0;
  }

  lemma NoDeltas(odds: seq<real>, pcts: seq<real>, zeros: seq<real>)
    requires Key(odds) - 1.0 <= 0.0 || Sum(Caps(odds, pcts)) <= 0.0
    requires |zeros| == |odds| && forall i :: 0 <= i < |zeros| ==> zeros[i] == 0.0
    ensures Deltas(odds, pcts) == zeros && ShaveAll(odds, zeros) == odds
  {
  }

  lemma NoCap(o: real, pct: real)
    requires o <= 1.0 || pct <= 0.0
    ensures Cap(o, pct) == 0.0
  {
  }

  /** One outcome's clamped request. */
  method Requested(o: real, pct: real) returns (cap: real)
    requires o > 1.0 && pct > 0.0
    ensures cap == Cap(o, pct)
  {
    cap := Min(pct / 100.0, (1.0 / o) * SELECTION_BOOST_MAX_PROB_SHARE);
  }

  /** First pass: the clamped request of every outcome and their total. */
  method RequestLoop(odds: seq<real>, pcts: seq<real>) returns (caps: seq<real>, total: real)
    ensures caps == Caps(odds, pcts) && total == Sum(caps)
  {
    hide Sum, Cap;
    var n := |odds|;
    ghost var all := Caps(odds, pcts);
    caps, total := seq(n, _ => 0.0), 0.0;
    SumOfZeros(all[..0]);
    for i := 0 to n
      invariant |caps| == n && caps[..i] == all[..i]
      invariant forall j :: i <= j < n ==> caps[j] == 0.0
      invariant total == Sum(all[..i])
    {
      assert all[..i + 1] == all[..i] + [all[i]];
      SumAppend(all[..i], all[i]);
      var o, pct := odds[i], PctAt(pcts, i);
      if o <= 1.0 || pct <= 0.0 {
        NoCap(o, pct);
        continue;
      }
      var cap := Requested(o, pct);
      caps := caps[i := cap];
      total := total + cap;
    }
    assert caps[..n] == caps && all[..n] == all;
  }

  lemma CellStep(o: real, cap: real, f: real)
    requires 0.0 <= cap <= KeyTerm(o) * 0.5 && 0.0 < f <= 1.0
    ensures cap <= 0.0 ==> f * cap == 0.0 && Shaved(o, f * cap) == o
    ensures cap > 0.0 ==> f * cap > 0.0 && o > 1.0 && 1.0 / o - f * cap > 0.0
                          && Shaved(o, f * cap) == 1.0 / (1.0 / o - f * cap)
  {
    ScaledShare(cap, f, KeyTerm(o) * 0.5);
    ShavedPrice(o, f * cap);
  }

  /** The body of the second pass for one outcome; `moved` is false when it is skipped. */
  method ShaveCell(o: real, cap: real, scale: real) returns (moved: bool, price: real, delta: real)
    requires 0.0 <= cap <= KeyTerm(o) * 0.5 && 0.0 < scale <= 1.0
    ensures delta == scale * cap && price == Shaved(o, delta)
    ensures !moved ==> delta == 0.0 && price == o
  {
    CellStep(o, cap, scale);
    if cap <= 0.0 { return false, o, 0.0; }
    delta := cap * scale;
    var p := 1.0 / o - delta;
    if !(delta > 0.0) || !(p > 0.0) {
      assert false;
      return false, o, 0.0;
    }
    return true, 1.0 / p, delta;
  }

  /** Second pass: apply the common factor. */
  method ApplyLoop(odds: seq<real>, caps: seq<real>, scale: real)
    returns (adjusted: seq<real>, effective: seq<real>, applied: real)
    requires WithinShare(odds, caps) && 0.0 < scale <= 1.0
    ensures effective == Scaled(caps, scale) && adjusted == ShaveAll(odds, effective) && applied == Sum(effective)
  {
    hide Sum, Shaved, KeyTerm;
    var n := |odds|;
    ghost var deltas := Scaled(caps, scale);
    ghost var target := ShaveAll(odds, deltas);
    adjusted, effective, applied := odds, seq(n, _ => 0.0), 0.0;
    SumOfZeros(deltas[..0]);
    for i := 0 to n
      invariant |adjusted| == |effective| == n
      invariant forall j :: 0 <= j < i ==> effective[j] == deltas[j] && adjusted[j] == target[j]
      invariant forall j :: i <= j < n ==> effective[j] == 0.0 && adjusted[j] == odds[j]
      invariant applied == Sum(deltas[..i])
    {
      assert deltas[..i + 1] == deltas[..i] + [deltas[i]];
      SumAppend(deltas[..i], deltas[i]);
      var moved, price, delta := ShaveCell(odds[i], caps[i], scale);
      assert delta == deltas[i] && price == target[i];
      if moved {
        adjusted := adjusted[i := price];
        effective := effective[i := delta];
        applied := applied + delta;
      }
    }
    assert deltas[..n] == deltas;
  }

  // ----- the order of the outcomes does not matter -----

  datatype Cell = Cell(odds: real, pct: real)

  ghost function Cells(odds: seq<real>, pcts: seq<real>): (cells: seq<Cell>)
    ensures |cells| == |odds| && forall i :: 0 <= i < |odds| ==> cells[i] == Cell(odds[i], PctAt(pcts, i))
  {
    seq(|odds|, i requires 0 <= i < |odds| => Cell(odds[i], PctAt(pcts, i)))
  }

  lemma Aggregates(odds: seq<real>, pcts: seq<real>)
    ensures Key(odds) == SumOf(Cells(odds, pcts), (c: Cell) => KeyTerm(c.odds))
    ensures Sum(Caps(odds, pcts)) == SumOf(Cells(odds, pcts), (c: Cell) => Cap(c.odds, c.pct))
  {
    hide Sum, SumOf;
    SumOfIs(Cells(odds, pcts), (c: Cell) => KeyTerm(c.odds), KeyTerms(odds));
    SumOfIs(Cells(odds, pcts), (c: Cell) => Cap(c.odds, c.pct), Caps(odds, pcts));
  }

  lemma SameAggregates(odds: seq<real>, pcts: seq<real>, odds': seq<real>, pcts': seq<real>)
    requires multiset(Cells(odds, pcts)) == multiset(Cells(odds', pcts'))
    ensures Key(odds) == Key(odds') && Sum(Caps(odds, pcts)) == Sum(Caps(odds', pcts'))
  {
    hide Sum, SumOf, Key;
    Aggregates(odds, pcts);
    Aggregates(odds', pcts');
    SumOfPermutation(Cells(odds, pcts), Cells(odds', pcts'), (c: Cell) => KeyTerm(c.odds));
    SumOfPermutation(Cells(odds, pcts), Cells(odds', pcts'), (c: Cell) => Cap(c.odds, c.pct));
  }

  /** Rearranging a market's outcomes rearranges its boosted prices with them. */
  lemma BoostCommutesWithOrder(odds: seq<real>, pcts: seq<real>, odds': seq<real>, pcts': seq<real>, i: nat, j: nat)
    requires multiset(Cells(odds, pcts)) == multiset(Cells(odds', pcts'))
    requires i < |odds| && j < |odds'| && Cells(odds, pcts)[i] == Cells(odds', pcts')[j]
    ensures Deltas(odds, pcts)[i] == Deltas(odds', pcts')[j]
    ensures ShaveAll(odds, Deltas(odds, pcts))[i] == ShaveAll(odds', Deltas(odds', pcts'))[j]
  {
    hide Sum, Key, Shaved;
    SameAggregates(odds, pcts, odds', pcts');
    assert Caps(odds, pcts)[i] == Caps(odds', pcts')[j];
  }

  // ----- market-wide boosts -----

  datatype MarketBoost = MarketBoost(
    adjustedOdds: seq<real>,
    effectiveKeyDelta: real,
    keyOriginal: real,
    keyAdjusted: real)

  lemma KeyIsKeyAtOne(odds: seq<real>)
    ensures Key(odds) == KeyAt(NetWins(odds), 1.0)
  {
    hide Key, KeyAt, NetWins;
    KeyOfScaled(odds, 1.0);
    ScaleByOne(odds);
  }

  /** Lower the whole book's key. The reported key never goes below 1, no price gets shorter,
      and the delivered book matches the report to the solver's tolerance whenever the solver
      can reach it. */
  method BoostMarketKey(odds: seq<real>, pct: real) returns (r: MarketBoost, ghost alpha: real)
    ensures alpha >= 1.0 && r.adjustedOdds == Scale(odds, alpha)
    ensures r.keyOriginal == Key(odds) && r.effectiveKeyDelta == r.keyOriginal - r.keyAdjusted
    ensures Key(odds) > 1.0 ==> r.keyAdjusted >= 1.0
    ensures Key(odds) <= 1.0 || pct <= 0.0 ==> r.adjustedOdds == odds && r.effectiveKeyDelta == 0.0
    ensures Key(odds) > 1.0 && pct > 0.0 ==> r.keyAdjusted == Max(Key(odds) - pct / 100.0, 1.0)
    ensures |r.adjustedOdds| == |odds| && forall i :: 0 <= i < |odds| ==> r.adjustedOdds[i] >= odds[i]
    ensures KeyAt(NetWins(odds), MAX_ALPHA) <= r.keyAdjusted ==>
              Abs(Key(r.adjustedOdds) - r.keyAdjusted) <= 0.000000001 + Sum(NetWins(odds)) * 0.000000000001
  {
    hide Key, KeyAt, NetWins, Sum;
    var keyOriginal := BookKey(odds);
    KeyIsKeyAtOne(odds);
    KeyMonotone(NetWins(odds), MIN_ALPHA, 1.0);
    SumPositive(NetWins(odds));
    var keyTarget := Max(keyOriginal - pct / 100.0, 1.0);
    if keyOriginal <= 1.0 || keyTarget >= keyOriginal {
      ScaleByOne(odds);
      return MarketBoost(odds, 0.0, keyOriginal, keyOriginal), 1.0;
    }
    KeyDecreasing(NetWins(odds), 1.0, 2.0);
    var adjusted;
    adjusted, alpha := ApplyNetwinstableKey(odds, keyTarget);
    forall i | 0 <= i < |odds| ensures adjusted[i] >= odds[i] {
      if odds[i] > 1.0 { ProductNonNegative(alpha - 1.0, odds[i] - 1.0); }
    }
    r := MarketBoost(adjusted, keyOriginal - keyTarget, keyOriginal, keyTarget);
  }

  lemma SmallTerm(ci: real)
    requires ci >= 0.0001
    ensures 0.0 <= At(MAX_ALPHA, ci) <= 0.00001
  {
    ProductNonNegative(MAX_ALPHA, ci - 0.0001);
    assert MAX_ALPHA * ci >= 107374.0;
    var x := 1.0 + MAX_ALPHA * ci;
    var t := 1.0 / x;
    assert t * x == 1.0;
    assert t > 0.0;
    ProductNonNegative(t, x - 100000.0);
  }

  lemma {:induction false} LastWalkKey(c: seq<real>)
    requires Positive(c) && forall i :: 0 <= i < |c| ==> c[i] >= 0.0001
    ensures KeyAt(c, MAX_ALPHA) <= |c| as real * 0.00001
  {
    if c != [] {
      LastWalkKey(c[..|c| - 1]);
      SmallTerm(c[|c| - 1]);
    }
  }

  /** On stored prices (at least 1.0001) and up to a hundred thousand outcomes, every market
      boost target is reachable. */
  lemma StoredPricesReachable(odds: seq<real>, target: real)
    requires forall i :: 0 <= i < |NetWins(odds)| ==> NetWins(odds)[i] >= 0.0001
    requires |odds| <= 100000 && target >= 1.0
    ensures KeyAt(NetWins(odds), MAX_ALPHA) <= target
  {
    hide KeyAt, NetWins;
    LastWalkKey(NetWins(odds));
  }
}
