/** The convolution recurrence behind Tippot pricing, and why it computes the distribution of
    the number of winning legs. */
module PoissonBinomial {
  import opened Permutations
  import opened WinVectors

  /** One cell of the recurrence after all of `ps` has been folded in. */
  ghost function Pmf(ps: seq<real>, k: int): real {
    if ps == [] then (if k == 0 then 1.0 else 0.0)
    else
      var n := |ps| - 1;
      Pmf(ps[..n], k) * (1.0 - ps[n]) + Pmf(ps[..n], k - 1) * ps[n]
  }

  /** Suffix sum of the recurrence, from `k` up. */
  ghost function Tail(ps: seq<real>, k: int): real
    decreases |ps| + 1 - k
  {
    if k > |ps| then 0.0 else Tail(ps, k + 1) + Pmf(ps, k)
  }

  /** The first `m` terms of the payout weighted by the recurrence. */
  ghost function Weighted(ps: seq<real>, pay: seq<real>, m: nat): real
    requires m <= |pay|
  {
    if m == 0 then 0.0 else Weighted(ps, pay, m - 1) + Pmf(ps, m - 1) * pay[m - 1]
  }

  lemma PmfNoLegs(k: int)
    ensures Pmf([], k) == if k == 0 then 1.0 else 0.0
  {
  }

  lemma {:induction false} PmfStep(ps: seq<real>, p: real, k: int)
    ensures Pmf(ps + [p], k) == Pmf(ps, k) * (1.0 - p) + Pmf(ps, k - 1) * p
  {
    assert (ps + [p])[..|ps|] == ps;
  }

  lemma {:induction false} PmfOutside(ps: seq<real>, k: int)
    requires k < 0 || k > |ps|
    ensures Pmf(ps, k) == 0.0
  {
    if ps != [] {
      PmfOutside(ps[..|ps| - 1], k);
      PmfOutside(ps[..|ps| - 1], k - 1);
    }
  }

  lemma MixPositive(a: real, b: real, p: real)
    requires 0.0 < p < 1.0 && a >= 0.0 && b >= 0.0 && (a > 0.0 || b > 0.0)
    ensures a * (1.0 - p) + b * p > 0.0
  {
    if a > 0.0 {
      assert a * (1.0 - p) > 0.0 && b * p >= 0.0;
    } else {
      assert b * p > 0.0;
    }
  }

  lemma {:induction false} PmfPositive(ps: seq<real>, k: int)
    requires AreProbabilities(ps)
    ensures if 0 <= k <= |ps| then Pmf(ps, k) > 0.0 else Pmf(ps, k) == 0.0
  {
    if k < 0 || k > |ps| {
      PmfOutside(ps, k);
    } else if ps != [] {
      var n := |ps| - 1;
      assert Pmf(ps, k) == Pmf(ps[..n], k) * (1.0 - ps[n]) + Pmf(ps[..n], k - 1) * ps[n];
      assert IsProbability(ps[n]);
      hide Pmf;
      PmfPositive(ps[..n], k);
      PmfPositive(ps[..n], k - 1);
      MixPositive(Pmf(ps[..n], k), Pmf(ps[..n], k - 1), ps[n]);
    }
  }

  lemma {:induction false} TailPositive(ps: seq<real>, k: int)
    requires AreProbabilities(ps) && 0 <= k <= |ps|
    ensures Tail(ps, k) > 0.0
    decreases |ps| - k
  {
    PmfPositive(ps, k);
    if k < |ps| {
      TailPositive(ps, k + 1);
    }
  }

  // ----- the recurrence computes the distribution -----

  lemma SplitTerm(p: real, a: real, b: real, x: real, u: real, v: real, w: real)
    requires w == (1.0 - p) * u + p * v
    ensures w + (a * (1.0 - p) + b * p) * x == (1.0 - p) * (u + a * x) + p * (v + b * x)
  {
  }

  lemma {:induction false} PmfLast(ps: seq<real>, k: int)
    requires ps != []
    ensures var n := |ps| - 1; Pmf(ps, k) == Pmf(ps[..n], k) * (1.0 - ps[n]) + Pmf(ps[..n], k - 1) * ps[n]
  {
  }

  lemma {:induction false} WeightedStep(ps: seq<real>, pay: seq<real>, m: nat)
    requires m < |pay|
    ensures Weighted(ps, pay, 0) == 0.0
    ensures Weighted(ps, pay, m + 1) == Weighted(ps, pay, m) + Pmf(ps, m) * pay[m]
  {
  }

  /** Splitting the recurrence on the last leg splits the weighted sum the same way. */
  lemma {:induction false} WeightedByLastLeg(ps: seq<real>, pay: seq<real>, m: nat)
    requires ps != [] && m < |pay|
    ensures var n := |ps| - 1;
            Weighted(ps, pay, m + 1)
            == (1.0 - ps[n]) * Weighted(ps[..n], pay, m + 1) + ps[n] * Weighted(ps[..n], pay[1..], m)
  {
    hide Weighted, Pmf;
    var n := |ps| - 1;
    var qs, p, x := ps[..n], ps[n], pay[m];
    WeightedStep(ps, pay, m);
    WeightedStep(qs, pay, m);
    PmfLast(ps, m);
    if m == 0 {
      PmfOutside(qs, -1);
      WeightedEmpty(qs, pay[1..]);
      SplitTerm(p, Pmf(qs, 0), 0.0, x, 0.0, 0.0, 0.0);
      return;
    }
    WeightedStep(qs, pay[1..], m - 1);
    WeightedByLastLeg(ps, pay, m - 1);
    SplitTerm(p, Pmf(qs, m), Pmf(qs, m - 1), x, Weighted(qs, pay, m), Weighted(qs, pay[1..], m - 1), Weighted(ps, pay, m));
  }

  lemma {:induction false} WeightedEmpty(ps: seq<real>, pay: seq<real>)
    ensures Weighted(ps, pay, 0) == 0.0
  {
  }

  lemma {:induction false} WeightedPrefix(ps: seq<real>, pay: seq<real>, m: nat)
    requires m < |pay|
    ensures Weighted(ps, pay, m) == Weighted(ps, pay[..|pay| - 1], m)
  {
    if m > 0 {
      WeightedPrefix(ps, pay, m - 1);
    }
  }

  lemma {:induction false} MeanOfNoLegs(pay: seq<real>)
    requires |pay| == 1
    ensures Mean([], pay) == pay[0] == Weighted([], pay, 1)
  {
    assert Vectors(0) == [[]];
    assert SumOver([[]], Weigh([], pay)) == SumOver([], Weigh([], pay)) + Term([], pay, []);
    assert Weighted([], pay, 1) == Weighted([], pay, 0) + Pmf([], 0) * pay[0];
  }

  /** Main link: averaging over all win/loss vectors is the dot product with the recurrence. */
  lemma {:induction false} MeanIsWeighted(ps: seq<real>, pay: seq<real>)
    requires |pay| == |ps| + 1
    ensures Mean(ps, pay) == Weighted(ps, pay, |pay|)
  {
    hide Weighted, Mean, Pmf;
    if ps == [] {
      MeanOfNoLegs(pay);
      return;
    }
    var n := |ps| - 1;
    MeanByLastLeg(ps, pay);
    MeanIsWeighted(ps[..n], Rest(pay, true));
    MeanIsWeighted(ps[..n], Rest(pay, false));
    WeightedByLastLeg(ps, pay, |pay| - 1);
    WeightedLastZero(ps[..n], pay);
  }

  lemma WeightedLastZero(ps: seq<real>, pay: seq<real>)
    requires |pay| == |ps| + 2
    ensures Weighted(ps, pay, |pay|) == Weighted(ps, Rest(pay, false), |pay| - 1)
  {
    PmfOutside(ps, |ps| + 1);
    WeightedPrefix(ps, pay, |pay| - 1);
  }

  lemma {:induction false} WeightedExactly(ps: seq<real>, n: nat, k: nat, m: nat)
    requires m <= n + 1
    ensures Weighted(ps, ExactlyPay(n, k), m) == if k < m then Pmf(ps, k) else 0.0
  {
    if m > 0 {
      WeightedExactly(ps, n, k, m - 1);
    }
  }

  /** The recurrence at `k` is the chance of exactly `k` winning legs: the sum, over the
      vectors with `k` wins, of the product of win and lose probabilities. */
  lemma PmfIsExactly(ps: seq<real>, k: nat)
    requires k <= |ps|
    ensures Pmf(ps, k) == Exactly(ps, k)
  {
    MeanIsWeighted(ps, ExactlyPay(|ps|, k));
    WeightedExactly(ps, |ps|, k, |ps| + 1);
  }

  lemma {:induction false} WeightedAtLeast(ps: seq<real>, k: nat, m: nat)
    requires m <= |ps| + 1
    ensures Weighted(ps, AtLeastPay(|ps|, k), m) == if k <= m then Tail(ps, k) - Tail(ps, m) else 0.0
    decreases m
  {
    if m > 0 {
      WeightedAtLeast(ps, k, m - 1);
    }
  }

  /** The suffix sum at `k` is the chance of at least `k` winning legs. */
  lemma TailIsAtLeast(ps: seq<real>, k: nat)
    requires k <= |ps| + 1
    ensures Tail(ps, k) == AtLeast(ps, k)
  {
    MeanIsWeighted(ps, AtLeastPay(|ps|, k));
    WeightedAtLeast(ps, k, |ps| + 1);
  }

  lemma {:induction false} MeanOfOnes(ps: seq<real>, pay: seq<real>)
    requires |pay| == |ps| + 1 && forall j :: 0 <= j <= |ps| ==> pay[j] == 1.0
    ensures Mean(ps, pay) == 1.0
  {
    hide Mean, Weighted;
    if ps == [] {
      MeanOfNoLegs(pay);
      return;
    }
    var n := |ps| - 1;
    MeanByLastLeg(ps, pay);
    MeanOfOnes(ps[..n], Rest(pay, true));
    MeanOfOnes(ps[..n], Rest(pay, false));
  }

  /** The distribution sums to one. */
  lemma TotalIsOne(ps: seq<real>)
    ensures Tail(ps, 0) == 1.0
  {
    TailIsAtLeast(ps, 0);
    MeanOfOnes(ps, AtLeastPay(|ps|, 0));
  }

  // ----- the order of the legs does not matter -----

  lemma {:induction false} PmfSwapLast(ps: seq<real>, p: real, q: real, k: int)
    ensures Pmf(ps + [p] + [q], k) == Pmf(ps + [q] + [p], k)
  {
    hide Pmf;
    PmfStep(ps + [p], q, k);
    PmfStep(ps + [q], p, k);
    PmfStep(ps, p, k);
    PmfStep(ps, p, k - 1);
    PmfStep(ps, q, k);
    PmfStep(ps, q, k - 1);
    var a, b, c := Pmf(ps, k), Pmf(ps, k - 1), Pmf(ps, k - 2);
    assert (a * (1.0 - p) + b * p) * (1.0 - q) + (b * (1.0 - p) + c * p) * q
        == (a * (1.0 - q) + b * q) * (1.0 - p) + (b * (1.0 - q) + c * q) * p;
  }

  lemma {:induction false} PmfMoveToEnd(ps: seq<real>, i: nat, k: int)
    requires i < |ps|
    ensures Pmf(ps, k) == Pmf(Without(ps, i) + [ps[i]], k)
    decreases |ps|
  {
    hide Pmf;
    var n := |ps| - 1;
    if i == n {
      assert Without(ps, i) + [ps[i]] == ps;
      return;
    }
    var qs, x, y := ps[..n], ps[i], ps[n];
    assert ps == qs + [y];
    PmfStep(qs, y, k);
    PmfMoveToEnd(qs, i, k);
    PmfMoveToEnd(qs, i, k - 1);
    var rs := Without(qs, i);
    PmfStep(rs + [x], y, k);
    PmfSwapLast(rs, x, y, k);
    assert Without(ps, i) + [ps[i]] == rs + [y] + [x];
  }

  /** The whole distribution is unchanged by rearranging the legs. */
  lemma {:induction false} PmfPermutation(ps: seq<real>, qs: seq<real>, k: int)
    requires multiset(ps) == multiset(qs)
    ensures Pmf(ps, k) == Pmf(qs, k)
    decreases |ps|
  {
    hide Pmf;
    SameLength(ps, qs);
    if ps == [] {
      assert ps == qs;
      return;
    }
    var n := |ps| - 1;
    var i := DropLast(ps, qs);
    PmfMoveToEnd(qs, i, k);
    PmfPermutation(ps[..n], Without(qs, i), k);
    PmfPermutation(ps[..n], Without(qs, i), k - 1);
    PmfStep(ps[..n], ps[n], k);
    PmfStep(Without(qs, i), ps[n], k);
    assert ps[..n] + [ps[n]] == ps;
  }

  lemma {:induction false} TailPermutation(ps: seq<real>, qs: seq<real>, k: int)
    requires multiset(ps) == multiset(qs)
    ensures Tail(ps, k) == Tail(qs, k)
    decreases |ps| + 1 - k
  {
    SameLength(ps, qs);
    if k <= |ps| {
      PmfPermutation(ps, qs, k);
      TailPermutation(ps, qs, k + 1);
    }
  }
}
