/** The key-adjustment solver and the boosts built on it (packages/types/src/netwinstable.ts).
    Odds are exact reals; an entry at or below 1 carries no key and is passed through. */
module Netwinstable {
  import opened Numbers
  import opened RealSums
  import opened RealArith

  // ----- book key -----

  function KeyTerm(o: real): (k: real)
    ensures k >= 0.0
  {
    if o > 1.0 then 1.0 / o else 0.0
  }

  function KeyTerms(odds: seq<real>): (ts: seq<real>)
    ensures |ts| == |odds| && forall i :: 0 <= i < |odds| ==> ts[i] == KeyTerm(odds[i])
  {
    seq(|odds|, i requires 0 <= i < |odds| => KeyTerm(odds[i]))
  }

  /** Sum of inverse odds over the entries above 1. */
  function Key(odds: seq<real>): real { Sum(KeyTerms(odds)) }

  method BookKey(odds: seq<real>) returns (s: real)
    ensures s == Key(odds)
  {
    s := 0.0;
    for i := 0 to |odds|
      invariant s == Key(odds[..i])
    {
      var o := odds[i];
      assert KeyTerms(odds[..i + 1]) == KeyTerms(odds[..i]) + [KeyTerm(o)];
      SumAppend(KeyTerms(odds[..i]), KeyTerm(o));
      if o > 1.0 { s := s + 1.0 / o; }
    }
    assert odds[..|odds|] == odds;
  }

  // ----- the key as a function of the common factor -----

  ghost predicate Positive(c: seq<real>) { forall i :: 0 <= i < |c| ==> c[i] > 0.0 }

  function At(alpha: real, ci: real): real
    requires alpha > 0.0 && ci > 0.0
  {
    ProductPositive(alpha, ci);
    1.0 / (1.0 + alpha * ci)
  }

  /** `c` holds the net wins; this is the key once every net win is scaled by `alpha`. */
  function KeyAt(c: seq<real>, alpha: real): real
    requires alpha > 0.0 && Positive(c)
  {
    if c == [] then 0.0 else KeyAt(c[..|c| - 1], alpha) + At(alpha, c[|c| - 1])
  }

  /** One term falls as the factor grows, at a rate of at most the net win. */
  lemma AtSlope(a: real, b: real, ci: real)
    requires 0.0 < a < b && ci > 0.0
    ensures 0.0 < At(a, ci) - At(b, ci) <= ci * (b - a)
    ensures 0.0 < At(a, ci) < 1.0
  {
    ProductPositive(a, ci);
    ProductPositive(b, ci);
    var x, y := 1.0 + a * ci, 1.0 + b * ci;
    var d := y - x;
    assert d == ci * (b - a);
    ProductPositive(ci, b - a);
    ReciprocalGap(x, y);
  }

  lemma ReciprocalGap(x: real, y: real)
    requires 1.0 < x < y
    ensures 0.0 < 1.0 / x - 1.0 / y <= y - x
    ensures 0.0 < 1.0 / x < 1.0
  {
    var p, q := 1.0 / x, 1.0 / y;
    assert p * x == 1.0 && q * y == 1.0;
    assert 0.0 < p < 1.0 && 0.0 < q < 1.0;
    GapBound(p, q, x, y);
  }

  lemma GapBound(p: real, q: real, x: real, y: real)
    requires p * x == 1.0 && q * y == 1.0 && 0.0 < p < 1.0 && 0.0 < q < 1.0 && x < y
    ensures 0.0 < p - q < y - x
  {
    GapProduct(p, q, x, y);
    Shrinks(p, q);
    ProductPositive(p, q);
    Between(p * q, y - x, p - q);
  }

  lemma Between(w: real, d: real, r: real)
    requires 0.0 < w < 1.0 && d > 0.0 && w * d == r
    ensures 0.0 < r < d
  {
    var v := 1.0 - w;
    assert v * d == d - r;
    ProductPositive(v, d);
    ProductPositive(w, d);
  }

  lemma GapProduct(p: real, q: real, x: real, y: real)
    requires p * x == 1.0 && q * y == 1.0
    ensures p * q * (y - x) == p - q
  {
    assert p * q * (y - x) == p * (q * y) - q * (p * x);
  }

  /** The key is strictly decreasing in the factor and moves by at most (sum of net wins) x width. */
  lemma {:induction false} KeyDecreasing(c: seq<real>, a: real, b: real)
    requires Positive(c) && 0.0 < a < b
    ensures 0.0 <= KeyAt(c, a) - KeyAt(c, b) <= Sum(c) * (b - a)
    ensures c != [] ==> KeyAt(c, a) > KeyAt(c, b)
    ensures 0.0 <= KeyAt(c, a) <= |c| as real && (c != [] ==> 0.0 < KeyAt(c, a) < |c| as real)
  {
    if c == [] {
      return;
    }
    var n := |c| - 1;
    assert Sum(c) == Sum(c[..n]) + c[n];
    assert KeyAt(c, a) == KeyAt(c[..n], a) + At(a, c[n]);
    assert KeyAt(c, b) == KeyAt(c[..n], b) + At(b, c[n]);
    hide KeyAt, At, Sum;
    KeyDecreasing(c[..n], a, b);
    AtSlope(a, b, c[n]);
    var s, w := Sum(c[..n]), b - a;
    assert (s + c[n]) * w == s * w + c[n] * w;
  }

  // ----- the solver -----

  lemma {:induction false} Pow2Sum(a: nat, b: nat)
    ensures Pow2(a + b) == Pow2(a) * Pow2(b)
  {
    if b > 0 {
      Pow2Sum(a, b - 1);
      assert Pow2(a) * (2.0 * Pow2(b - 1)) == 2.0 * (Pow2(a) * Pow2(b - 1));
    }
  }

  lemma {:induction false} Pow2Values()
    ensures Pow2(29) == 536870912.0 && Pow2(30) == 1073741824.0
    ensures Pow2(80) == Pow2(50) * Pow2(30) && Pow2(50) > 1000000000000000.0
  {
    assert Pow2(5) == 32.0;
    Pow2Sum(5, 5);
    Pow2Sum(10, 10);
    Pow2Sum(20, 5);
    Pow2Sum(25, 5);
    Pow2Sum(25, 4);
    Pow2Sum(30, 20);
    Pow2Sum(50, 30);
  }

  lemma {:induction false} Pow2Monotone(a: nat, b: nat)
    requires a < b
    ensures Pow2(a) < Pow2(b)
  {
    if a + 1 < b { Pow2Monotone(a, b - 1); }
  }

  /** The doubling walk never takes the factor past 2^30, the halving walk never below 2^-30. */
  ghost const MAX_ALPHA: real := 1073741824.0
  ghost const MIN_ALPHA: real := 1.0 / 1073741824.0

  /** The targets the two walks can bracket. */
  ghost predicate Reachable(c: seq<real>, target: real)
    requires Positive(c)
  {
    KeyAt(c, MAX_ALPHA) <= target <= KeyAt(c, MIN_ALPHA)
  }

  ghost predicate Brackets(c: seq<real>, target: real, lo: real, hi: real)
    requires Positive(c) && 0.0 < lo < hi
  {
    KeyAt(c, hi) <= target <= KeyAt(c, lo)
  }

  lemma KeyMonotone(c: seq<real>, a: real, b: real)
    requires Positive(c) && 0.0 < a <= b
    ensures KeyAt(c, a) >= KeyAt(c, b)
  {
    hide KeyAt;
    if a < b { KeyDecreasing(c, a, b); }
  }

  /** Walk `hi` up from 2 until the key at it is no longer above the target. The walk ends
      within 30 doublings and brackets every reachable target. */
  method WalkUp(c: seq<real>, target: real) returns (hi: real)
    requires Positive(c) && KeyAt(c, 1.0) > target
    ensures 2.0 <= hi <= MAX_ALPHA
    ensures Brackets(c, target, 1.0, hi) <==> KeyAt(c, MAX_ALPHA) <= target
  {
    hide KeyAt, Pow2;
    hi := 2.0;
    Pow2Values();
    ghost var k: nat := 1;
    assert Pow2(1) == 2.0 by { Pow2One(); }
    while KeyAt(c, hi) > target && hi < 1000000000.0
      invariant 1 <= k <= 30 && hi == Pow2(k)
      decreases 30 - k
    {
      if k == 30 { assert false; }
      Pow2Step(k);
      hi := hi * 2.0;
      k := k + 1;
    }
    if k < 29 { Pow2Monotone(k, 29); }
    Pow2AtLeast(k);
    KeyMonotone(c, hi, MAX_ALPHA);
  }

  lemma Pow2One()
    ensures Pow2(1) == 2.0
  {
  }

  lemma Pow2Step(k: nat)
    ensures Pow2(k + 1) == 2.0 * Pow2(k)
  {
  }

  lemma {:induction false} Pow2AtLeast(k: nat)
    requires 1 <= k <= 30
    ensures 2.0 <= Pow2(k) <= 1073741824.0
  {
    hide Pow2;
    Pow2Values();
    Pow2One();
    if k > 1 { Pow2Monotone(1, k); }
    if k < 30 { Pow2Monotone(k, 30); }
  }

  /** Walk `lo` down from 1/2 until the key at it is no longer below the target. */
  method WalkDown(c: seq<real>, target: real) returns (lo: real)
    requires Positive(c) && KeyAt(c, 1.0) <= target
    ensures MIN_ALPHA <= lo <= 0.5
    ensures Brackets(c, target, lo, 1.0) <==> target <= KeyAt(c, MIN_ALPHA)
  {
    hide KeyAt, Pow2;
    lo := 0.5;
    Pow2Values();
    ghost var k: nat := 1;
    assert Pow2(1) == 2.0 by { Pow2One(); }
    while KeyAt(c, lo) < target && lo > 0.000000001
      invariant 1 <= k <= 30 && lo > 0.0 && lo * Pow2(k) == 1.0
      decreases 30 - k
    {
      if k == 30 { assert false; }
      Pow2Step(k);
      assert (lo * 0.5) * (2.0 * Pow2(k)) == lo * Pow2(k);
      lo := lo * 0.5;
      k := k + 1;
    }
    if k < 29 { Pow2Monotone(k, 29); }
    Pow2AtLeast(k);
    Inverse(lo, Pow2(k));
    KeyMonotone(c, MIN_ALPHA, lo);
  }

  lemma Inverse(lo: real, p: real)
    requires lo > 0.0 && lo * p == 1.0 && 2.0 <= p <= 1073741824.0
    ensures MIN_ALPHA <= lo <= 0.5
    ensures p < 1000000000.0 ==> lo > 0.000000001
    ensures p == 1073741824.0 ==> lo == MIN_ALPHA
  {
    CancelFrom(lo, 0.5, p, 1.0, 0.5 * p);
    var m := MIN_ALPHA * p;
    assert m <= 1.0;
    CancelFrom(MIN_ALPHA, lo, p, m, 1.0);
    if p < 1000000000.0 { CancelLessFrom(0.000000001, lo, p, 0.000000001 * p, 1.0); }
    if p == 1073741824.0 { CancelFrom(lo, MIN_ALPHA, p, 1.0, m); }
  }

  lemma HalfWidth(lo: real, hi: real, w: real, p: real)
    requires (hi - lo) * p == w
    ensures (0.5 * (lo + hi) - lo) * (2.0 * p) == w && (hi - 0.5 * (lo + hi)) * (2.0 * p) == w
  {
    assert 0.5 * (lo + hi) - lo == 0.5 * (hi - lo) && hi - 0.5 * (lo + hi) == 0.5 * (hi - lo);
    assert (0.5 * (hi - lo)) * (2.0 * p) == (hi - lo) * p;
  }

  lemma EightyHalvings(width: real, w: real, p: real)
    requires width > 0.0 && p > 0.0 && width * p == w && w <= 1073741824.0
    requires p > 1000000000000000.0 * 1073741824.0
    ensures width < 0.000000000001
  {
    assert 0.000000000001 * p > w;
    CancelLess(width, 0.000000000001, p);
  }

  /** The bisection loop. Eighty halvings always bring the bracket under 1e-12 wide, and a
      bracket stays a bracket at every step. */
  method Bisect(c: seq<real>, target: real, lo0: real, hi0: real) returns (alpha: real, ghost lo: real, ghost hi: real)
    requires Positive(c) && 0.0 < lo0 < hi0 <= MAX_ALPHA
    ensures lo0 <= lo < alpha < hi <= hi0 && hi - lo < 0.000000000001
    ensures Brackets(c, target, lo0, hi0) ==> Brackets(c, target, lo, hi)
    ensures lo0 < alpha < hi0
    ensures Brackets(c, target, lo0, hi0) ==> Abs(KeyAt(c, alpha) - target) <= Sum(c) * 0.000000000001
  {
    hide KeyAt, Pow2, Sum;
    var l, h := lo0, hi0;
    ghost var w := hi0 - lo0;
    var i := 0;
    var narrow := false;
    assert (h - l) * Pow2(0) == w by { Pow2Zero(); }
    while i < 80 && !narrow
      invariant 0 <= i <= 80 && lo0 <= l < h <= hi0
      invariant (h - l) * Pow2(i) == w
      invariant narrow ==> h - l < 0.000000000001
      invariant Brackets(c, target, lo0, hi0) ==> Brackets(c, target, l, h)
      decreases 80 - i, !narrow
    {
      var mid := 0.5 * (l + h);
      HalfWidth(l, h, w, Pow2(i));
      Pow2Step(i);
      var k := KeyAt(c, mid);
      if k > target { l := mid; } else { h := mid; }
      narrow := h - l < 0.000000000001;
      i := i + 1;
    }
    if !narrow {
      Pow2Values();
      EightyHalvings(h - l, w, Pow2(80));
    }
    alpha, lo, hi := 0.5 * (l + h), l, h;
    WithinBracket(c, target, lo, alpha, hi);
  }

  lemma Pow2Zero()
    ensures Pow2(0) == 1.0
  {
  }

  // ----- applying the factor -----

  /** Net wins of the priced entries, in order. */
  function NetWins(odds: seq<real>): (c: seq<real>)
    ensures Positive(c) && |c| <= |odds|
  {
    if odds == [] then []
    else
      var n := |odds| - 1;
      NetWins(odds[..n]) + (if odds[n] > 1.0 then [odds[n] - 1.0] else [])
  }

  function ScaleOne(o: real, alpha: real): real {
    if o > 1.0 then 1.0 + alpha * (o - 1.0) else o
  }

  /** Every net win multiplied by `alpha`; entries without a net win untouched. */
  function Scale(odds: seq<real>, alpha: real): (out: seq<real>)
    ensures |out| == |odds| && forall i :: 0 <= i < |odds| ==> out[i] == ScaleOne(odds[i], alpha)
  {
    seq(|odds|, i requires 0 <= i < |odds| => ScaleOne(odds[i], alpha))
  }

  /** Scaling keeps every price above 1 and every ratio of net wins. */
  lemma ScaleKeepsRatios(odds: seq<real>, alpha: real, i: nat, j: nat)
    requires alpha > 0.0 && i < |odds| && j < |odds| && odds[i] > 1.0 && odds[j] > 1.0
    ensures var out := Scale(odds, alpha);
            && out[i] > 1.0
            && (out[i] - 1.0) / (out[j] - 1.0) == (odds[i] - 1.0) / (odds[j] - 1.0)
  {
    hide ScaleOne;
    var out := Scale(odds, alpha);
    ScaledNetWin(odds[i], alpha, out[i]);
    ScaledNetWin(odds[j], alpha, out[j]);
    SameRatio(alpha, odds[i] - 1.0, odds[j] - 1.0, out[i] - 1.0, out[j] - 1.0);
  }

  lemma ScaledNetWin(o: real, alpha: real, scaled: real)
    requires alpha > 0.0 && o > 1.0 && scaled == ScaleOne(o, alpha)
    ensures scaled - 1.0 == alpha * (o - 1.0) > 0.0
  {
    ProductPositive(alpha, o - 1.0);
  }

  lemma SameRatio(alpha: real, a: real, b: real, x: real, y: real)
    requires alpha > 0.0 && b > 0.0 && x == alpha * a && y == alpha * b && y > 0.0
    ensures x / y == a / b
  {
    var q := a / b;
    assert q * b == a;
    assert q * (alpha * b) == alpha * (q * b);
    Quotient(x, y, q);
  }

  lemma {:induction false} KeyOfScaled(odds: seq<real>, alpha: real)
    requires alpha > 0.0
    ensures Key(Scale(odds, alpha)) == KeyAt(NetWins(odds), alpha)
  {
    if odds == [] {
      assert KeyTerms(Scale(odds, alpha)) == [];
      return;
    }
    hide KeyAt, Sum, NetWins, At, KeyTerm, ScaleOne;
    var n := |odds| - 1;
    var rest, o := odds[..n], odds[n];
    NetWinsStep(rest, o);
    assert odds == rest + [o];
    assert NetWins(rest) + [] == NetWins(rest);
    if o > 1.0 { KeyAtAppend(NetWins(rest), o - 1.0, alpha); }
    ScaledTerm(o, alpha);
    assert KeyTerms(Scale(odds, alpha)) == KeyTerms(Scale(rest, alpha)) + [KeyTerm(ScaleOne(o, alpha))];
    SumAppend(KeyTerms(Scale(rest, alpha)), KeyTerm(ScaleOne(o, alpha)));
    KeyOfScaled(rest, alpha);
  }

  lemma ScaledTerm(o: real, alpha: real)
    requires alpha > 0.0
    ensures KeyTerm(ScaleOne(o, alpha)) == if o > 1.0 then At(alpha, o - 1.0) else 0.0
  {
    if o > 1.0 { ProductPositive(alpha, o - 1.0); }
  }

  lemma {:induction false} NetWinsStep(odds: seq<real>, o: real)
    ensures NetWins(odds + [o]) == NetWins(odds) + (if o > 1.0 then [o - 1.0] else [])
  {
    assert (odds + [o])[..|odds|] == odds;
  }

  lemma {:induction false} KeyAtAppend(c: seq<real>, ci: real, alpha: real)
    requires Positive(c) && ci > 0.0 && alpha > 0.0
    ensures Positive(c + [ci]) && KeyAt(c + [ci], alpha) == KeyAt(c, alpha) + At(alpha, ci)
  {
    assert (c + [ci])[..|c|] == c;
  }

  lemma ScaleByOne(odds: seq<real>)
    ensures Scale(odds, 1.0) == odds
  {
  }

  /** `idx` lists the priced entries among the first `i`, and `c` their net wins. */
  ghost predicate Indexes(odds: seq<real>, i: nat, idx: seq<nat>, c: seq<real>)
    requires i <= |odds|
  {
    && |idx| == |c|
    && (forall j :: 0 <= j < |idx| ==> idx[j] < i && odds[idx[j]] > 1.0 && c[j] == odds[idx[j]] - 1.0)
    && (forall p :: 0 <= p < i && odds[p] > 1.0 ==> p in idx)
  }

  lemma IndexesNext(odds: seq<real>, i: nat, idx: seq<nat>, c: seq<real>)
    requires i < |odds| && Indexes(odds, i, idx, c)
    ensures odds[i] > 1.0 ==> Indexes(odds, i + 1, idx + [i], c + [odds[i] - 1.0])
    ensures odds[i] <= 1.0 ==> Indexes(odds, i + 1, idx, c)
  {
    forall p | 0 <= p < i && odds[p] > 1.0 ensures p in idx + [i] {
      assert p in idx;
    }
    assert i in idx + [i];
  }

  /** Which entries carry a price, and their net wins. */
  method Collect(odds: seq<real>) returns (idx: seq<nat>, c: seq<real>)
    ensures Indexes(odds, |odds|, idx, c) && c == NetWins(odds)
  {
    idx, c := [], [];
    assert odds[..0] == [];
    assert NetWins([]) == [];
    hide NetWins, Indexes;
    assert Indexes(odds, 0, idx, c) by { IndexesNone(odds); }
    for i := 0 to |odds|
      invariant Indexes(odds, i, idx, c) && c == NetWins(odds[..i])
    {
      var o := odds[i];
      assert odds[..i + 1] == odds[..i] + [o];
      NetWinsStep(odds[..i], o);
      IndexesNext(odds, i, idx, c);
      if o > 1.0 {
        idx := idx + [i];
        c := c + [o - 1.0];
      }
    }
    assert odds[..|odds|] == odds;
  }

  lemma IndexesNone(odds: seq<real>)
    ensures Indexes(odds, 0, [], [])
  {
  }

  /** The write-back loop over the priced indices. */
  method WriteBack(odds: seq<real>, idx: seq<nat>, c: seq<real>, alpha: real) returns (out: seq<real>)
    requires Indexes(odds, |odds|, idx, c)
    ensures out == Scale(odds, alpha)
  {
    out := odds;
    for i := 0 to |idx|
      invariant |out| == |odds|
      invariant forall p :: 0 <= p < |odds| ==>
                  out[p] == if p in idx[..i] then ScaleOne(odds[p], alpha) else odds[p]
    {
      assert idx[..i + 1] == idx[..i] + [idx[i]];
      var scaled := 1.0 + alpha * c[i];
      assert scaled == ScaleOne(odds[idx[i]], alpha);
      hide ScaleOne;
      out := out[idx[i] := scaled];
    }
    forall p | 0 <= p < |odds| ensures out[p] == ScaleOne(odds[p], alpha) {
      assert p !in idx ==> odds[p] <= 1.0;
    }
    assert idx[..|idx|] == idx;
  }

  /** The fail-safe and already-there cases, in which the odds come back untouched. */
  ghost predicate PassesThrough(odds: seq<real>, target: real) {
    || target <= 0.0 || target >= |NetWins(odds)| as real
    || Abs(KeyAt(NetWins(odds), 1.0) - target) < 0.000000001
  }

  /** Rescale the book to a target key. The result is always the original with every net win
      multiplied by one positive factor; for every target the walks can bracket, its key is
      within (sum of net wins) x 1e-12 of the target, and for every other it stays on the
      near side of it. */
  method ApplyNetwinstableKey(odds: seq<real>, target: real) returns (out: seq<real>, ghost alpha: real)
    ensures MIN_ALPHA <= alpha <= MAX_ALPHA && out == Scale(odds, alpha)
    ensures Key(out) == KeyAt(NetWins(odds), alpha)
    ensures PassesThrough(odds, target) ==> out == odds && alpha == 1.0
    ensures if KeyAt(NetWins(odds), 1.0) > target then alpha >= 1.0 else alpha <= 1.0
    ensures !PassesThrough(odds, target) && Reachable(NetWins(odds), target) ==>
              Abs(Key(out) - target) <= Sum(NetWins(odds)) * 0.000000000001
    ensures !PassesThrough(odds, target) && KeyAt(NetWins(odds), MAX_ALPHA) > target ==> Key(out) > target
    ensures !PassesThrough(odds, target) && KeyAt(NetWins(odds), MIN_ALPHA) < target ==> Key(out) < target
  {
    hide KeyAt, NetWins, Key;
    alpha := 1.0;
    ScaleByOne(odds);
    KeyOfScaled(odds, 1.0);
    var idx, c := Collect(odds);
    var m := |c|;
    if m == 0 || target <= 0.0 || target >= m as real { return odds, 1.0; }
    var keyOrig := KeyAt(c, 1.0);
    if -0.000000001 < keyOrig - target < 0.000000001 { return odds, 1.0; }
    var lo, hi := 1.0, 1.0;
    if keyOrig > target { hi := WalkUp(c, target); } else { lo := WalkDown(c, target); }
    var a;
    ghost var l, h;
    a, l, h := Bisect(c, target, lo, hi);
    out := WriteBack(odds, idx, c, a);
    alpha := a;
    KeyOfScaled(odds, a);
    KeyMonotone(c, a, MAX_ALPHA);
    KeyMonotone(c, MIN_ALPHA, a);
    KeyMonotone(c, 1.0, MAX_ALPHA);
    KeyMonotone(c, MIN_ALPHA, 1.0);
  }

  lemma WithinBracket(c: seq<real>, target: real, lo: real, alpha: real, hi: real)
    requires Positive(c) && 0.0 < lo < alpha < hi && hi - lo < 0.000000000001
    ensures Brackets(c, target, lo, hi) ==> Abs(KeyAt(c, alpha) - target) <= Sum(c) * 0.000000000001
  {
    hide KeyAt, Sum;
    KeyMonotone(c, lo, alpha);
    KeyMonotone(c, alpha, hi);
    KeyGap(c, lo, hi, 0.000000000001);
    Between3(KeyAt(c, lo), KeyAt(c, alpha), KeyAt(c, hi), target, Sum(c) * 0.000000000001);
  }

  /** Over a width of at most `e` the key falls by at most (sum of net wins) x `e`. */
  lemma KeyGap(c: seq<real>, lo: real, hi: real, e: real)
    requires Positive(c) && 0.0 < lo < hi && hi - lo <= e
    ensures KeyAt(c, lo) - KeyAt(c, hi) <= Sum(c) * e
  {
    hide KeyAt, Sum;
    KeyDecreasing(c, lo, hi);
    SumPositive(c);
    WiderGap(KeyAt(c, lo) - KeyAt(c, hi), Sum(c), lo, hi, e);
  }

  lemma WiderGap(gap: real, s: real, lo: real, hi: real, e: real)
    requires gap <= s * (hi - lo) && s >= 0.0 && hi - lo <= e
    ensures gap <= s * e
  {
    var w := hi - lo;
    ProductNonNegative(s, e - w);
    assert s * (e - w) == s * e - s * w;
  }

  lemma Between3(atLo: real, at: real, atHi: real, target: real, tolerance: real)
    requires atHi <= at <= atLo && atLo - atHi <= tolerance
    ensures atHi <= target <= atLo ==> Abs(at - target) <= tolerance
  {
  }

  /** The header promises convergence for every target strictly between 0 and the number of
      outcomes. It does not hold on a book this short: no factor the solver can try takes its key
      below 4/3, so a target of 1/2 is missed by far. */
  lemma UnreachableTarget(alpha: real)
    requires 0.0 < alpha <= MAX_ALPHA
    ensures var o := 1.0 + 1.0 / 2147483648.0;
            && !PassesThrough([o, o], 0.5) && !Reachable(NetWins([o, o]), 0.5)
            && Key(Scale([o, o], alpha)) >= 4.0 / 3.0
  {
    hide Key, Scale;
    var o, d := 1.0 + 1.0 / 2147483648.0, 1.0 / 2147483648.0;
    TwoNetWins(o, d);
    ShortKey(d);
    KeyOfScaled([o, o], alpha);
    KeyMonotone([d, d], alpha, MAX_ALPHA);
    KeyMonotone([d, d], 1.0, MAX_ALPHA);
  }

  lemma TwoNetWins(o: real, d: real)
    requires o == 1.0 + d && d > 0.0
    ensures NetWins([o, o]) == [d, d]
  {
    assert [o, o][..1] == [o] && [o][..0] == [];
    assert NetWins([o]) == NetWins([]) + [d];
  }

  lemma ShortKey(d: real)
    requires d == 1.0 / 2147483648.0
    ensures KeyAt([d, d], MAX_ALPHA) == 4.0 / 3.0
  {
    assert MAX_ALPHA * d == 0.5;
    assert At(MAX_ALPHA, d) == 2.0 / 3.0;
    assert [d, d][..1] == [d] && [d][..0] == [];
    assert KeyAt([d], MAX_ALPHA) == KeyAt([], MAX_ALPHA) + At(MAX_ALPHA, d);
  }
}
