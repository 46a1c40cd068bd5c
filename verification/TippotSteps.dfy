/** When the published Tippot multipliers strictly increase (packages/types/src/products.ts). */
module TippotSteps {
  import opened RealArith
  import opened WinVectors
  import opened PoissonBinomial
  import opened Products

  /** Every further win pays strictly more, at the published precision. */
  ghost predicate Increasing(ps: seq<real>, d: real)
    requires AreProbabilities(ps) && d > 0.0
  {
    forall k :: 1 <= k < |ps| ==> FloorTo(Schedule(ps, d, k), TIPPOT_SCALE) < FloorTo(Schedule(ps, d, k + 1), TIPPOT_SCALE)
  }

  lemma PublishedIncreases(ps: seq<real>, d: real, tiers: seq<TippotTier>)
    requires AreProbabilities(ps) && |tiers| == |ps| && d > 0.0 && IsSchedule(ps, d, tiers)
    ensures Increasing(ps, d) <==> forall k :: 0 <= k < |tiers| - 1 ==> tiers[k].multiplier < tiers[k + 1].multiplier
  {
    hide Schedule;
    forall k | 1 <= k <= |ps| ensures tiers[k - 1].multiplier == FloorTo(Schedule(ps, d, k), TIPPOT_SCALE) {
      assert IsTier(ps, d, k, tiers[k - 1]);
    }
    if forall k :: 0 <= k < |tiers| - 1 ==> tiers[k].multiplier < tiers[k + 1].multiplier {
      forall k | 1 <= k < |ps|
        ensures FloorTo(Schedule(ps, d, k), TIPPOT_SCALE) < FloorTo(Schedule(ps, d, k + 1), TIPPOT_SCALE)
      {
        assert tiers[k - 1].multiplier < tiers[k - 1 + 1].multiplier;
      }
    }
    if Increasing(ps, d) {
      forall k | 0 <= k < |tiers| - 1 ensures tiers[k].multiplier < tiers[k + 1].multiplier {
        assert FloorTo(Schedule(ps, d, k + 1), TIPPOT_SCALE) < FloorTo(Schedule(ps, d, k + 1 + 1), TIPPOT_SCALE);
      }
    }
  }

  /** One leg's share of the stake over the margin. */
  ghost function Share(n: nat, d: real): real
    requires n > 0 && d > 0.0
  {
    1.0 / n as real / d
  }

  lemma ShareTimes(n: nat, d: real)
    requires n > 0 && d > 0.0
    ensures Share(n, d) > 0.0 && n as real * Share(n, d) * d == 1.0
  {
    Shares(n as real, d);
    assert 1.0 / n as real > 0.0;
  }

  lemma {:induction false} TailDecreasing(ps: seq<real>, j: int, k: int)
    requires AreProbabilities(ps) && 0 <= j <= k <= |ps|
    ensures Tail(ps, k) <= Tail(ps, j)
    decreases k - j
  {
    if j < k {
      TailDecreasing(ps, j + 1, k);
      PmfPositive(ps, j);
    }
  }

  /** Each tier pays at least one share, and later tiers pay no less than earlier ones. */
  lemma TierBounds(ps: seq<real>, d: real, j: nat, k: nat)
    requires AreProbabilities(ps) && 1 <= j <= k <= |ps| && d > 0.0
    ensures Share(|ps|, d) <= TierOffered(ps, d, j) <= TierOffered(ps, d, k)
  {
    hide Tail;
    TierFacts(ps, d, j);
    TierFacts(ps, d, k);
    TailDecreasing(ps, j, k);
    TailPositive(ps, k);
    TailAtMostOne(ps, j);
    ShareTimes(|ps|, d);
    Offers(TierOffered(ps, d, j), TierOffered(ps, d, k), Tail(ps, j), Tail(ps, k), Share(|ps|, d));
  }

  lemma Offers(a: real, b: real, t: real, u: real, share: real)
    requires a * t == share && b * u == share && 0.0 < u <= t <= 1.0 && share > 0.0 && a > 0.0 && b > 0.0
    ensures share <= a <= b
  {
    ShrinksOrKeeps(t, a);
    ProductNonNegative(b, t - u);
    assert b * (t - u) == b * t - b * u;
    CancelFrom(a, b, t, share, b * t);
  }

  lemma {:induction false} ScheduleBetween(ps: seq<real>, d: real, j: nat, k: nat)
    requires AreProbabilities(ps) && 1 <= k && j <= k <= |ps| && d > 0.0
    ensures j as real * Share(|ps|, d) <= Schedule(ps, d, j) <= j as real * TierOffered(ps, d, k)
  {
    hide TierOffered, Share;
    if j > 0 {
      ScheduleBetween(ps, d, j - 1, k);
      TierBounds(ps, d, j, k);
      OneMore(j, Share(|ps|, d));
      OneMore(j, TierOffered(ps, d, k));
    }
  }

  lemma OneMore(j: nat, x: real)
    requires j > 0
    ensures j as real * x == (j - 1) as real * x + x
  {
    var i := (j - 1) as real;
    assert (i + 1.0) * x == i * x + x;
  }

  // ----- at most 10000 -----

  /** A share counted in ten-thousandths is at least k / (k + 1), for every k below n. */
  lemma EnoughShare(n: real, k: real, d: real, share: real)
    requires n >= 2.0 && 1.0 <= k <= n - 1.0 && d > 0.0 && share > 0.0
    requires n * share * d == 1.0 && (n - 1.0) * d <= 10000.0
    ensures (k + 1.0) * share * 10000.0 >= k
  {
    var x := 10000.0 * share;
    ProductNonNegative(share, 10000.0 - (n - 1.0) * d);
    var y := share * d;
    assert n * y == 1.0 && x >= (n - 1.0) * y by {
      assert share * (10000.0 - (n - 1.0) * d) == x - (n - 1.0) * y;
      assert n * share * d == n * y;
    }
    Portion(n, k, y);
    ProductNonNegative(k + 1.0, x - (n - 1.0) * y);
    assert (k + 1.0) * (x - (n - 1.0) * y) == (k + 1.0) * x - (k + 1.0) * ((n - 1.0) * y);
  }

  lemma Portion(n: real, k: real, y: real)
    requires n >= 2.0 && 1.0 <= k <= n - 1.0 && n * y == 1.0
    ensures (k + 1.0) * ((n - 1.0) * y) >= k
  {
    var z := (n - 1.0) * y;
    assert z == 1.0 - y;
    assert y > 0.0;
    ProductNonNegative(n - 1.0 - k, y);
    assert (k + 1.0) * (1.0 - y) == k + 1.0 - (k + 1.0) * y;
    assert (n - 1.0 - k) * y == 1.0 - (k + 1.0) * y;
  }

  lemma FloorStep(s: real, s': real)
    requires 0.0 <= s && s + 0.0001 <= s'
    ensures FloorTo(s, TIPPOT_SCALE) < FloorTo(s', TIPPOT_SCALE)
  {
    assert s' * 10000.0 >= s * 10000.0 + 1.0;
  }

  lemma FloorsAround(s: real, s': real, k: nat)
    requires 0.0 <= s && 0.0 <= s' && s * 10000.0 < k as real <= s' * 10000.0
    ensures FloorTo(s, TIPPOT_SCALE) < FloorTo(s', TIPPOT_SCALE)
  {
    hide FloorTo;
    var f, f' := FloorTo(s, TIPPOT_SCALE), FloorTo(s', TIPPOT_SCALE);
    Ordered(f, k, f as real, k as real, s * 10000.0);
    Ordered(k, f' + 1, k as real, f' as real + 1.0, s' * 10000.0);
  }

  lemma Ordered(a: int, b: int, x: real, y: real, between: real)
    requires x == a as real && y == b as real
    requires x <= between < y
    ensures a < b
  {
  }

  lemma UnderK(s: real, k: real, q: real)
    requires k >= 1.0 && s <= k * q && 0.0 < q < 0.0001
    ensures s * 10000.0 < k
  {
    ProductPositive(k, 0.0001 - q);
    assert k * (0.0001 - q) == k * 0.0001 - k * q;
  }

  lemma StepStrict(ps: seq<real>, d: real, k: nat)
    requires AreProbabilities(ps) && d > 0.0 && 1 <= k < |ps| && (|ps| - 1) as real * d <= 10000.0
    ensures FloorTo(Schedule(ps, d, k), TIPPOT_SCALE) < FloorTo(Schedule(ps, d, k + 1), TIPPOT_SCALE)
  {
    hide TierOffered, Share, Schedule, FloorTo;
    var q, s, s' := TierOffered(ps, d, k + 1), Schedule(ps, d, k), Schedule(ps, d, k + 1);
    TierFacts(ps, d, k + 1);
    SchedulePositive(ps, d, k);
    if q >= 0.0001 {
      FloorStep(s, s');
      return;
    }
    ScheduleBetween(ps, d, k, k + 1);
    UnderK(s, k as real, q);
    OverK(ps, d, k);
    FloorsAround(s, s', k);
  }

  lemma OverK(ps: seq<real>, d: real, k: nat)
    requires AreProbabilities(ps) && d > 0.0 && 1 <= k < |ps| && (|ps| - 1) as real * d <= 10000.0
    ensures Schedule(ps, d, k + 1) * 10000.0 >= k as real
  {
    hide TierOffered, Share, Schedule;
    var n, kr, share := |ps| as real, k as real, Share(|ps|, d);
    assert (|ps| - 1) as real == n - 1.0 && (k + 1) as real == kr + 1.0;
    ScheduleBetween(ps, d, k + 1, k + 1);
    ShareTimes(|ps|, d);
    EnoughShare(n, kr, d, share);
  }

  // ----- above 10000 -----

  ghost function Even(n: nat, p: real): (ps: seq<real>)
    ensures |ps| == n && forall i :: 0 <= i < n ==> ps[i] == p
  {
    seq(n, _ => p)
  }

  lemma AllWinStep(n: nat, p: real)
    requires n > 0
    ensures Pmf(Even(n, p), n) == Pmf(Even(n - 1, p), n - 1) * p
  {
    var ps := Even(n, p);
    assert ps[..n - 1] == Even(n - 1, p);
    PmfLast(ps, n);
    PmfOutside(ps[..n - 1], n);
  }

  /** If every leg loses with chance `e`, all win with chance at least 1 - n e. */
  lemma {:induction false} AllWin(n: nat, e: real)
    requires 0.0 < e < 1.0
    ensures Pmf(Even(n, 1.0 - e), n) >= 1.0 - n as real * e
  {
    hide Pmf;
    if n == 0 {
      assert Even(0, 1.0 - e) == [];
      PmfNoLegs(0);
      return;
    }
    AllWinStep(n, 1.0 - e);
    AllWin(n - 1, e);
    Bernoulli(Pmf(Even(n - 1, 1.0 - e), n - 1), (n - 1) as real, e);
  }

  lemma Bernoulli(a: real, m: real, e: real)
    requires 0.0 < e < 1.0 && m >= 0.0 && a >= 1.0 - m * e
    ensures a * (1.0 - e) >= 1.0 - (m + 1.0) * e
  {
    ProductNonNegative(a - (1.0 - m * e), 1.0 - e);
    var x := m * e;
    assert (a - (1.0 - x)) * (1.0 - e) == a * (1.0 - e) - (1.0 - x) * (1.0 - e);
    assert (1.0 - x) * (1.0 - e) == 1.0 - x - e + x * e;
    ProductNonNegative(m, e);
    ProductNonNegative(x, e);
    assert (m + 1.0) * e == x + e;
  }

  /** Near-certain legs leave no room: the whole schedule stays under n - 1 ten-thousandths. */
  lemma Crowded(n: nat, d: real) returns (ps: seq<real>)
    requires n >= 2 && d > 0.0 && (n - 1) as real * d > 10000.0
    ensures |ps| == n && AreProbabilities(ps) && Schedule(ps, d, n) * 10000.0 < (n - 1) as real
  {
    hide Schedule, TierOffered, Share, Pmf, Tail;
    var rho := Ratio(d, (n - 1) as real);
    var e := Epsilon(rho, n as real);
    ps := Even(n, 1.0 - e);
    AllWin(n, e);
    LastTail(ps);
    TierFacts(ps, d, n);
    ScheduleBetween(ps, d, n, n);
    ShareTimes(n, d);
    Squeeze(n as real, (n - 1) as real, d, rho, Tail(ps, n), TierOffered(ps, d, n), Share(n, d), Schedule(ps, d, n));
  }

  lemma LastTail(ps: seq<real>)
    ensures Tail(ps, |ps|) == Pmf(ps, |ps|)
  {
    assert Tail(ps, |ps| + 1) == 0.0;
  }

  lemma Ratio(d: real, m: real) returns (rho: real)
    requires d > 0.0 && m >= 1.0 && m * d > 10000.0
    ensures 0.0 < rho < 1.0 && rho * m * d == 10000.0
  {
    var x := 10000.0 / d;
    assert x * d == 10000.0;
    assert x > 0.0;
    CancelLessFrom(x, m, d, 10000.0, m * d);
    rho := PositiveQuotient(x, m);
    CancelLessFrom(rho, 1.0, m, x, m);
  }

  lemma PositiveQuotient(x: real, m: real) returns (r: real)
    requires x > 0.0 && m > 0.0
    ensures r > 0.0 && r * m == x
  {
    r := x / m;
  }

  lemma Epsilon(rho: real, n: real) returns (e: real)
    requires 0.0 < rho < 1.0 && n >= 2.0
    ensures 0.0 < e < 1.0 && 1.0 - n * e > rho
  {
    e := PositiveQuotient((1.0 - rho) / 2.0, n);
    CancelLessFrom(e, 1.0, n, (1.0 - rho) / 2.0, n);
  }

  lemma Squeeze(n: real, m: real, d: real, rho: real, t: real, q: real, share: real, s: real)
    requires n >= 2.0 && m >= 1.0 && d > 0.0 && 0.0 < rho < t && q * t == share && q > 0.0
    requires n * share * d == 1.0 && rho * m * d == 10000.0 && s <= n * q
    ensures s * 10000.0 < m
  {
    var nq := n * q;
    assert nq * t * d == 1.0 by {
      assert n * (q * t) * d == (n * q) * t * d;
    }
    var x, y := 10000.0 * nq * t, rho * m;
    assert x * d == 10000.0 && y * d == 10000.0;
    CancelFrom(x, y, d, 10000.0, 10000.0);
    CancelFrom(y, x, d, 10000.0, 10000.0);
    ProductPositive(m, t - rho);
    assert m * (t - rho) == m * t - rho * m;
    var z := 10000.0 * nq;
    assert z * t < m * t;
    CancelLess(z, m, t);
  }

  lemma {:induction false} Climb(ps: seq<real>, d: real, k: nat)
    requires AreProbabilities(ps) && d > 0.0 && 1 <= k <= |ps| && Increasing(ps, d)
    ensures FloorTo(Schedule(ps, d, k), TIPPOT_SCALE) >= k - 1
  {
    hide Schedule;
    if k > 1 {
      Climb(ps, d, k - 1);
      assert FloorTo(Schedule(ps, d, k - 1), TIPPOT_SCALE) < FloorTo(Schedule(ps, d, k - 1 + 1), TIPPOT_SCALE);
    }
  }

  /** Whatever the probabilities, the published multipliers strictly increase in the number of
      wins: exactly when (n - 1) (1 + margin) is at most 10000. */
  lemma StrictlyIncreasingIff(n: nat, d: real)
    requires n >= 2 && d > 0.0
    ensures (n - 1) as real * d <= 10000.0 <==>
            forall ps :: |ps| == n && AreProbabilities(ps) ==> Increasing(ps, d)
  {
    hide Schedule, FloorTo;
    if (n - 1) as real * d <= 10000.0 {
      forall ps | |ps| == n && AreProbabilities(ps) ensures Increasing(ps, d) {
        forall k | 1 <= k < |ps|
          ensures FloorTo(Schedule(ps, d, k), TIPPOT_SCALE) < FloorTo(Schedule(ps, d, k + 1), TIPPOT_SCALE)
        {
          StepStrict(ps, d, k);
        }
      }
    } else {
      var ps := Crowded(n, d);
      NotClimbing(ps, d);
    }
  }

  lemma NotClimbing(ps: seq<real>, d: real)
    requires |ps| >= 2 && AreProbabilities(ps) && d > 0.0 && Schedule(ps, d, |ps|) * 10000.0 < (|ps| - 1) as real
    ensures !Increasing(ps, d)
  {
    hide Schedule;
    if Increasing(ps, d) {
      Climb(ps, d, |ps|);
      SchedulePositive(ps, d, |ps|);
    }
  }

  /** The condition in basis points. */
  lemma StrictlyIncreasingInBp(n: nat, marginBp: real)
    requires n >= 2 && marginBp >= 0.0
    ensures (n - 1) as real * (10000.0 + marginBp) <= 100000000.0 <==>
            forall ps :: |ps| == n && AreProbabilities(ps) ==> Increasing(ps, Divisor(marginBp))
  {
    hide Increasing;
    var m, d := (n - 1) as real, Divisor(marginBp);
    assert m * (10000.0 + marginBp) == 10000.0 * (m * d);
    StrictlyIncreasingIff(n, d);
  }

  /** Twelve legs, the product's cap, at any margin the pricer accepts. */
  lemma CappedTicketIncreases(ps: seq<real>, marginBp: real)
    requires 2 <= |ps| <= 12 && AreProbabilities(ps) && 0.0 <= marginBp <= 200000.0
    ensures Increasing(ps, Divisor(marginBp))
  {
    hide Increasing;
    var n, m := (|ps| - 1) as real, 10000.0 + marginBp;
    ProductNonNegative(11.0 - n, m);
    assert (11.0 - n) * m == 11.0 * m - n * m;
    StrictlyIncreasingInBp(|ps|, marginBp);
  }
}
