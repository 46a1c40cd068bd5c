/** Tiple and Tippot pricing (packages/types/src/products.ts). Floats are exact reals; a price
    string with `d` decimals is the integer number of its last-place units. */
module Products {
  import opened Numbers
  import opened Permutations
  import opened RealArith
  import opened WinVectors
  import opened PoissonBinomial

  datatype PricingError =
    | TooFewLegs(n: nat)
    | MarginOutOfRange(bp: real)
    | ProbabilityOutOfRange(p: real)
    | Degenerate
    | UnreachableTier(k: int)

  datatype Result<T> = Ok(value: T) | Err(error: PricingError)

  /** `multiplier` counts ten-thousandths of the stake, `pAtLeastK` millionths. */
  datatype TippotTier = TippotTier(k: nat, pAtLeastK: int, multiplier: int)

  datatype TippotQuote = TippotQuote(marginBp: real, n: nat, tiers: seq<TippotTier>)

  /** `offered` counts hundredths of the stake. */
  datatype TipleQuote = TipleQuote(offered: int, fairProbability: real, marginBp: real, n: nat)

  const TIPLE_SCALE: int := 100
  const TIPPOT_SCALE: int := 10000

  function FloorTo(x: real, scale: int): (units: int)
    requires scale > 0
    ensures x >= 0.0 ==> units as real <= x * scale as real < units as real + 1.0
    ensures units >= 0
  {
    if x < 0.0 then 0 else NonNegativeProduct(x, scale); (x * scale as real).Floor
  }

  lemma NonNegativeProduct(x: real, scale: int)
    requires x >= 0.0 && scale > 0
    ensures x * scale as real >= 0.0
  {
  }

  function Divisor(marginBp: real): real { 1.0 + marginBp / 10000.0 }

  // ----- the reference schedule -----

  /** The sub-bet on "at least k": an equal share of the stake at its fair price over the margin. */
  ghost function TierOffered(ps: seq<real>, d: real, k: nat): real
    requires AreProbabilities(ps) && 1 <= k <= |ps| && d > 0.0
  {
    TailPositive(ps, k);
    1.0 / |ps| as real / Tail(ps, k) / d
  }

  /** Unrounded payout multiplier for finishing with `j` winning legs. */
  ghost function Schedule(ps: seq<real>, d: real, j: nat): real
    requires AreProbabilities(ps) && j <= |ps| && d > 0.0
  {
    if j == 0 then 0.0 else Schedule(ps, d, j - 1) + TierOffered(ps, d, j)
  }

  ghost function SchedulePay(ps: seq<real>, d: real): (pay: seq<real>)
    requires AreProbabilities(ps) && d > 0.0
    ensures |pay| == |ps| + 1
    ensures forall j :: 0 <= j <= |ps| ==> pay[j] == Schedule(ps, d, j)
  {
    seq(|ps| + 1, j requires 0 <= j <= |ps| => Schedule(ps, d, j))
  }

  lemma {:induction false} SubBetReturn(n: real, t: real, d: real)
    requires n > 0.0 && t > 0.0 && d > 0.0
    ensures (1.0 / n / t / d) * t == 1.0 / n / d
    ensures 1.0 / n / t / d > 0.0
  {
    var q := 1.0 / n / t / d;
    assert q * d == 1.0 / n / t;
    assert (q * d) * t == 1.0 / n;
    assert (q * d) * t == (q * t) * d;
    assert (q * t) * d / d == q * t;
    assert 1.0 / n > 0.0;
    assert 1.0 / n / t > 0.0;
  }

  lemma Collect(w: real, m: real, t0: real, t1: real, pm: real, tier: real, share: real)
    requires tier * t0 == share && t0 == t1 + pm
    ensures (w + pm * (m + tier)) + (m + tier) * t1 == (w + m * t0) + share
  {
    assert pm * (m + tier) + (m + tier) * t1 == (m + tier) * t0;
    assert (m + tier) * t0 == m * t0 + tier * t0;
  }

  lemma {:induction false} TierFacts(ps: seq<real>, d: real, m: nat)
    requires AreProbabilities(ps) && 1 <= m <= |ps| && d > 0.0
    ensures Tail(ps, m) == Tail(ps, m + 1) + Pmf(ps, m)
    ensures Schedule(ps, d, m) == Schedule(ps, d, m - 1) + TierOffered(ps, d, m)
    ensures TierOffered(ps, d, m) * Tail(ps, m) == 1.0 / |ps| as real / d
    ensures TierOffered(ps, d, m) > 0.0
  {
    TailPositive(ps, m);
    SubBetReturn(|ps| as real, Tail(ps, m), d);
  }

  /** Swapping the double sum one tier at a time: the payouts up to `m` wins, plus the mass
      still above `m` at the level reached, come to `m` equal shares. */
  lemma {:induction false} PartialReturn(ps: seq<real>, d: real, m: nat)
    requires AreProbabilities(ps) && ps != [] && m <= |ps| && d > 0.0
    ensures Weighted(ps, SchedulePay(ps, d), m + 1) + Schedule(ps, d, m) * Tail(ps, m + 1)
            == m as real * (1.0 / |ps| as real / d)
  {
    hide Weighted, Pmf, Tail, TierOffered;
    var pay, share := SchedulePay(ps, d), 1.0 / |ps| as real / d;
    WeightedStep(ps, pay, m);
    if m == 0 {
      assert pay[0] == 0.0;
      return;
    }
    assert pay[m] == Schedule(ps, d, m);
    hide Schedule;
    TierFacts(ps, d, m);
    PartialReturn(ps, d, m - 1);
    Collect(Weighted(ps, pay, m), Schedule(ps, d, m - 1), Tail(ps, m), Tail(ps, m + 1),
            Pmf(ps, m), TierOffered(ps, d, m), share);
    assert m as real * share == (m - 1) as real * share + share;
  }

  /** With unrounded multipliers the expected return is exactly 1 / (1 + margin). */
  lemma ExactReturn(ps: seq<real>, d: real)
    requires AreProbabilities(ps) && ps != [] && d > 0.0
    ensures Mean(ps, SchedulePay(ps, d)) == 1.0 / d
  {
    hide Weighted, Pmf, Mean, Schedule;
    var n := |ps|;
    PartialReturn(ps, d, n);
    assert Tail(ps, n + 1) == 0.0;
    MeanIsWeighted(ps, SchedulePay(ps, d));
    assert n as real * (1.0 / n as real / d) == 1.0 / d by { Shares(n as real, d); }
  }

  lemma Shares(n: real, d: real)
    requires n > 0.0 && d > 0.0
    ensures n * (1.0 / n / d) == 1.0 / d
  {
    var q := 1.0 / n / d;
    assert q * d == 1.0 / n;
    assert (n * q) * d == n * (q * d) == 1.0;
  }

  // ----- rounding each multiplier down -----

  /** Payouts that sit within `e` below a reference lose less than `e` on average. */
  lemma {:induction false} WeightedWithin(ps: seq<real>, pay: seq<real>, ref: seq<real>, e: real, m: nat)
    requires AreProbabilities(ps) && |pay| == |ref| == |ps| + 1 && 0 < m <= |ps| + 1 && e > 0.0
    requires forall j :: 0 <= j <= |ps| ==> ref[j] - e < pay[j] <= ref[j]
    ensures Weighted(ps, ref, m) - e * Weighted(ps, Ones(|ps|), m) < Weighted(ps, pay, m) <= Weighted(ps, ref, m)
  {
    hide Weighted, Pmf;
    var k := m - 1;
    PmfPositive(ps, k);
    WeightedStep(ps, pay, k);
    WeightedStep(ps, ref, k);
    WeightedStep(ps, Ones(|ps|), k);
    ScaledGap(Pmf(ps, k), pay[k], ref[k], e);
    if k > 0 {
      WeightedWithin(ps, pay, ref, e, k);
    }
    assert e * (Weighted(ps, Ones(|ps|), k) + Pmf(ps, k)) == e * Weighted(ps, Ones(|ps|), k) + e * Pmf(ps, k);
  }

  lemma ScaledGap(p: real, x: real, r: real, e: real)
    requires p > 0.0 && r - e < x <= r
    ensures p * r - e * p < p * x <= p * r
  {
    assert p * (x - (r - e)) > 0.0;
    assert p * (r - x) >= 0.0;
  }

  ghost function Ones(n: nat): (r: seq<real>)
    ensures |r| == n + 1 && forall j :: 0 <= j <= n ==> r[j] == 1.0
  {
    seq(n + 1, _ => 1.0)
  }

  lemma MeanWithin(ps: seq<real>, pay: seq<real>, ref: seq<real>, e: real)
    requires AreProbabilities(ps) && |pay| == |ref| == |ps| + 1 && e > 0.0
    requires forall j :: 0 <= j <= |ps| ==> ref[j] - e < pay[j] <= ref[j]
    ensures Mean(ps, ref) - e < Mean(ps, pay) <= Mean(ps, ref)
  {
    hide Weighted, Pmf, Mean;
    WeightedWithin(ps, pay, ref, e, |ps| + 1);
    MeanIsWeighted(ps, pay);
    MeanIsWeighted(ps, ref);
    MeanIsWeighted(ps, Ones(|ps|));
    MeanOfOnes(ps, Ones(|ps|));
  }

  // ----- priceTippot -----

  /** What a ticket settled against `tiers` returns for `j` winning legs. */
  ghost function TicketPays(tiers: seq<TippotTier>): (pay: seq<real>)
    ensures |pay| == |tiers| + 1 && pay[0] == 0.0
    ensures forall j :: 1 <= j <= |tiers| ==> pay[j] == tiers[j - 1].multiplier as real / TIPPOT_SCALE as real
  {
    seq(|tiers| + 1, j requires 0 <= j <= |tiers| =>
      if j == 0 then 0.0 else tiers[j - 1].multiplier as real / TIPPOT_SCALE as real)
  }

  ghost predicate IsTier(ps: seq<real>, d: real, k: nat, t: TippotTier)
    requires AreProbabilities(ps) && 1 <= k <= |ps| && d > 0.0
  {
    t.k == k && t.pAtLeastK == Round(AtLeast(ps, k) * 1000000.0) && t.multiplier == FloorTo(Schedule(ps, d, k), TIPPOT_SCALE)
  }

  ghost predicate IsSchedule(ps: seq<real>, d: real, tiers: seq<TippotTier>)
    requires AreProbabilities(ps) && |tiers| <= |ps| && d > 0.0
  {
    forall k :: 0 <= k < |tiers| ==> IsTier(ps, d, k + 1, tiers[k])
  }

  lemma {:induction false} SchedulePositive(ps: seq<real>, d: real, j: nat)
    requires AreProbabilities(ps) && j <= |ps| && d > 0.0
    ensures Schedule(ps, d, j) >= 0.0
    ensures j > 0 ==> Schedule(ps, d, j) > Schedule(ps, d, j - 1)
  {
    if j > 0 {
      SchedulePositive(ps, d, j - 1);
      TierFacts(ps, d, j);
    }
  }

  /** Settling against the rounded schedule returns at most 1 / (1 + margin), and falls short
      of it by less than one ten-thousandth of the stake. */
  lemma RoundedReturn(ps: seq<real>, d: real, tiers: seq<TippotTier>)
    requires AreProbabilities(ps) && |tiers| == |ps| && ps != [] && d > 0.0 && IsSchedule(ps, d, tiers)
    ensures 1.0 / d - 0.0001 < Mean(ps, TicketPays(tiers)) <= 1.0 / d
  {
    var pay, ref := TicketPays(tiers), SchedulePay(ps, d);
    forall j | 0 <= j <= |ps| ensures ref[j] - 0.0001 < pay[j] <= ref[j] {
      SchedulePositive(ps, d, j);
      if j > 0 {
        assert IsTier(ps, d, j, tiers[j - 1]);
        assert tiers[j - 1].multiplier == FloorTo(ref[j], TIPPOT_SCALE);
      }
    }
    MeanWithin(ps, pay, ref, 0.0001);
    ExactReturn(ps, d);
  }

  /** The convolution loop: after leg `i`, cell `k` is the chance that exactly `k` of the legs
      folded in so far win. */
  method Convolve(ps: seq<real>) returns (pmf: seq<real>)
    ensures |pmf| == |ps| + 1
    ensures forall k :: 0 <= k <= |ps| ==> pmf[k] == Exactly(ps, k)
  {
    hide Pmf;
    var n := |ps|;
    var cur := new real[n + 1](_ => 0.0);
    cur[0] := 1.0;
    forall k ensures Pmf([], k) == if k == 0 then 1.0 else 0.0 { PmfNoLegs(k); }
    for i := 0 to n
      invariant cur.Length == n + 1 && fresh(cur)
      invariant forall k :: 0 <= k <= n ==> cur[k] == Pmf(ps[..i], k)
    {
      var p := ps[i];
      var next := new real[n + 1](_ => 0.0);
      ghost var before, after := ps[..i], ps[..i + 1];
      assert after == before + [p];
      for k := 0 to i + 2
        invariant forall j :: 0 <= j < k ==> next[j] == Pmf(after, j)
        invariant forall j :: k <= j <= n ==> next[j] == 0.0
        invariant forall j :: 0 <= j <= n ==> cur[j] == Pmf(before, j)
      {
        var stayLose := if k <= i then cur[k] * (1.0 - p) else 0.0;
        var gainWin := if k > 0 then cur[k - 1] * p else 0.0;
        assert stayLose + gainWin == Pmf(after, k) by {
          PmfStep(before, p, k);
          if k > i { PmfOutside(before, k); }
          if k == 0 { PmfOutside(before, -1); }
        }
        next[k] := stayLose + gainWin;
      }
      forall k | 0 <= k <= n ensures next[k] == Pmf(after, k) {
        if k > i + 1 { PmfOutside(after, k); }
      }
      cur := next;
    }
    assert ps[..n] == ps;
    forall k | 0 <= k <= n ensures cur[k] == Exactly(ps, k) { PmfIsExactly(ps, k); }
    pmf := cur[..];
  }

  /** The descending suffix-sum loop; cell 0 is never written and stays 0. */
  method SuffixSums(ps: seq<real>, pmf: seq<real>) returns (pAtLeast: seq<real>)
    requires |pmf| == |ps| + 1 && forall k :: 0 <= k <= |ps| ==> pmf[k] == Exactly(ps, k)
    ensures |pAtLeast| == |ps| + 2
    ensures forall k :: 1 <= k <= |ps| ==> pAtLeast[k] == AtLeast(ps, k)
  {
    var n := |ps|;
    var a := new real[n + 2](_ => 0.0);
    for k := n + 1 downto 1
      invariant forall j :: k <= j <= n + 1 ==> a[j] == Tail(ps, j)
    {
      PmfIsExactly(ps, k);
      a[k] := a[k + 1] + pmf[k];
    }
    forall k | 1 <= k <= n ensures a[k] == AtLeast(ps, k) { TailIsAtLeast(ps, k); }
    pAtLeast := a[..];
  }

  /** The first probability outside (0, 1), as the validation loop reports it. */
  method FirstInvalid(ps: seq<real>) returns (bad: int)
    ensures -1 <= bad < |ps|
    ensures bad < 0 <==> AreProbabilities(ps)
    ensures bad >= 0 ==> !IsProbability(ps[bad]) && AreProbabilities(ps[..bad])
  {
    for i := 0 to |ps|
      invariant AreProbabilities(ps[..i])
    {
      if !(ps[i] > 0.0 && ps[i] < 1.0) {
        assert !IsProbability(ps[i]);
        return i;
      }
      assert IsProbability(ps[i]);
      assert ps[..i + 1] == ps[..i] + [ps[i]];
    }
    assert ps[..|ps|] == ps;
    return -1;
  }

  /** A return bounded by one over the divisor, written out in basis points. */
  lemma InBasisPoints(marginBp: real, mean: real, e: real)
    requires marginBp >= 0.0 && e > 0.0
    requires 1.0 / Divisor(marginBp) - e < mean <= 1.0 / Divisor(marginBp)
    ensures 10000.0 - e * (10000.0 + marginBp) < mean * (10000.0 + marginBp) <= 10000.0
  {
    var d, q := Divisor(marginBp), 1.0 / Divisor(marginBp);
    var m := 10000.0 + marginBp;
    assert m == 10000.0 * d && q * d == 1.0;
    assert q * m == 10000.0 by { assert q * (10000.0 * d) == 10000.0 * (q * d); }
    Stretched(q, mean, e, m);
  }

  lemma Stretched(q: real, mean: real, e: real, m: real)
    requires m > 0.0 && q - e < mean <= q
    ensures q * m - e * m < mean * m <= q * m
  {
    var lo, hi := mean - (q - e), q - mean;
    assert lo * m > 0.0 && hi * m >= 0.0;
    assert lo * m == mean * m - q * m + e * m && hi * m == q * m - mean * m;
  }

  /** The two texts of a tier, read as numbers. */
  ghost predicate TierText(ps: seq<real>, d: real, k: nat, t: TippotTier)
    requires AreProbabilities(ps) && k < |ps| && d > 0.0
  {
    && t.k == k + 1
    && t.pAtLeastK as real - 0.5 <= 1000000.0 * AtLeast(ps, k + 1) <= t.pAtLeastK as real + 0.5
    && t.multiplier as real <= 10000.0 * Schedule(ps, d, k + 1) < t.multiplier as real + 1.0
  }

  lemma TierDigits(ps: seq<real>, d: real, k: nat, t: TippotTier)
    requires AreProbabilities(ps) && k < |ps| && d > 0.0 && IsTier(ps, d, k + 1, t)
    ensures TierText(ps, d, k, t)
  {
    hide Schedule, AtLeast;
    SchedulePositive(ps, d, k + 1);
  }

  /** Price a Tippot ticket. The error for an unreachable tier is never returned. */
  method PriceTippot(ps: seq<real>, marginBp: real) returns (r: Result<TippotQuote>)
    ensures |ps| < 2 ==> r == Err(TooFewLegs(|ps|))
    ensures |ps| >= 2 && !(0.0 <= marginBp <= 200000.0) ==> r == Err(MarginOutOfRange(marginBp))
    ensures |ps| >= 2 && 0.0 <= marginBp <= 200000.0 && !AreProbabilities(ps) ==>
              exists i :: 0 <= i < |ps| && !(0.0 < ps[i] < 1.0) && AreProbabilities(ps[..i])
                          && r == Err(ProbabilityOutOfRange(ps[i]))
    ensures |ps| >= 2 && 0.0 <= marginBp <= 200000.0 && AreProbabilities(ps) ==>
              && r.Ok? && r.value.n == |ps| == |r.value.tiers| && r.value.marginBp == marginBp
              && IsSchedule(ps, Divisor(marginBp), r.value.tiers)
              && (forall k :: 0 <= k < |ps| ==> TierText(ps, Divisor(marginBp), k, r.value.tiers[k]))
              && var mean := Mean(ps, TicketPays(r.value.tiers)) * (10000.0 + marginBp);
                 10000.0 - 0.0001 * (10000.0 + marginBp) < mean <= 10000.0
  {
    var n := |ps|;
    if n < 2 { return Err(TooFewLegs(n)); }
    if marginBp < 0.0 || marginBp > 200000.0 { return Err(MarginOutOfRange(marginBp)); }
    var bad := FirstInvalid(ps);
    if bad >= 0 { return Err(ProbabilityOutOfRange(ps[bad])); }
    hide Mean, IsSchedule, TierText, Schedule;
    var pmf := Convolve(ps);
    var pAtLeast := SuffixSums(ps, pmf);
    var tiers := BuildTiers(ps, pAtLeast, Divisor(marginBp));
    RoundedReturn(ps, Divisor(marginBp), tiers);
    InBasisPoints(marginBp, Mean(ps, TicketPays(tiers)), 0.0001);
    TierTexts(ps, Divisor(marginBp), tiers);
    r := Ok(TippotQuote(marginBp, n, tiers));
  }

  lemma TierTexts(ps: seq<real>, d: real, tiers: seq<TippotTier>)
    requires AreProbabilities(ps) && |tiers| == |ps| && d > 0.0 && IsSchedule(ps, d, tiers)
    ensures forall k :: 0 <= k < |ps| ==> TierText(ps, d, k, tiers[k])
  {
    hide TierText, Schedule;
    forall k | 0 <= k < |ps| ensures TierText(ps, d, k, tiers[k]) { TierDigits(ps, d, k, tiers[k]); }
  }

  /** The loop over the tiers; the unreachable-tier error never occurs. */
  method BuildTiers(ps: seq<real>, pAtLeast: seq<real>, divisor: real) returns (tiers: seq<TippotTier>)
    requires AreProbabilities(ps) && ps != [] && divisor > 0.0
    requires |pAtLeast| == |ps| + 2 && forall k :: 1 <= k <= |ps| ==> pAtLeast[k] == AtLeast(ps, k)
    ensures |tiers| == |ps| && IsSchedule(ps, divisor, tiers)
  {
    hide Pmf, Mean;
    var n := |ps|;
    tiers := [];
    var cumulative := 0.0;
    for k := 1 to n + 1
      invariant |tiers| == k - 1 && cumulative == Schedule(ps, divisor, k - 1)
      invariant IsSchedule(ps, divisor, tiers)
    {
      var pk := pAtLeast[k];
      TailIsAtLeast(ps, k);
      TailPositive(ps, k);
      assert pk > 0.0;
      var tierOffered := 1.0 / n as real / pk / divisor;
      cumulative := cumulative + tierOffered;
      var tier := TippotTier(k, Round(pk * 1000000.0), FloorTo(cumulative, TIPPOT_SCALE));
      assert IsTier(ps, divisor, k, tier);
      tiers := tiers + [tier];
    }
  }

  lemma {:induction false} SchedulePermutation(ps: seq<real>, qs: seq<real>, d: real, j: nat)
    requires AreProbabilities(ps) && AreProbabilities(qs) && multiset(ps) == multiset(qs)
    requires j <= |ps| && j <= |qs| && d > 0.0
    ensures Schedule(ps, d, j) == Schedule(qs, d, j)
  {
    SameLength(ps, qs);
    if j > 0 {
      SchedulePermutation(ps, qs, d, j - 1);
      TailPermutation(ps, qs, j);
    }
  }

  /** Rearranging the legs leaves every tier of the quote unchanged. */
  lemma QuoteIgnoresLegOrder(ps: seq<real>, qs: seq<real>, d: real, s: seq<TippotTier>, t: seq<TippotTier>)
    requires AreProbabilities(ps) && AreProbabilities(qs) && multiset(ps) == multiset(qs) && d > 0.0
    requires |s| == |ps| && |t| == |qs| && IsSchedule(ps, d, s) && IsSchedule(qs, d, t)
    ensures s == t
  {
    hide Schedule, AtLeast;
    SameLength(ps, qs);
    forall i | 0 <= i < |s| ensures s[i] == t[i] {
      assert IsTier(ps, d, i + 1, s[i]) && IsTier(qs, d, i + 1, t[i]);
      SchedulePermutation(ps, qs, d, i + 1);
      TailPermutation(ps, qs, i + 1);
      TailIsAtLeast(ps, i + 1);
      TailIsAtLeast(qs, i + 1);
    }
  }

  lemma {:induction false} TailAtMostOne(ps: seq<real>, k: nat)
    requires AreProbabilities(ps) && k <= |ps| + 1
    ensures Tail(ps, k) <= 1.0
  {
    if k == 0 {
      TotalIsOne(ps);
    } else {
      TailAtMostOne(ps, k - 1);
      PmfPositive(ps, k - 1);
    }
  }

  // ----- priceTiple -----

  /** A Tiple ticket returns the same price for any positive number of winning legs. */
  ghost function TiplePays(n: nat, offered: real): (pay: seq<real>)
    ensures |pay| == n + 1 && pay[0] == 0.0 && forall j :: 1 <= j <= n ==> pay[j] == offered
  {
    seq(n + 1, j => if j == 0 then 0.0 else offered)
  }

  lemma {:induction false} WeightedTiple(ps: seq<real>, offered: real, m: nat)
    requires 1 <= m <= |ps| + 1
    ensures Weighted(ps, TiplePays(|ps|, offered), m) == offered * Weighted(ps, AtLeastPay(|ps|, 1), m)
  {
    hide Pmf, Weighted;
    var pay, ones := TiplePays(|ps|, offered), AtLeastPay(|ps|, 1);
    WeightedStep(ps, pay, m - 1);
    WeightedStep(ps, ones, m - 1);
    if m > 1 {
      WeightedTiple(ps, offered, m - 1);
      var w, x := Weighted(ps, ones, m - 1), Pmf(ps, m - 1);
      assert offered * (w + x * 1.0) == offered * w + x * offered;
    }
  }

  lemma TipleMean(ps: seq<real>, offered: real)
    ensures Mean(ps, TiplePays(|ps|, offered)) == offered * AtLeast(ps, 1)
  {
    hide Mean, Weighted, Pmf, AtLeastPay, TiplePays;
    MeanIsWeighted(ps, TiplePays(|ps|, offered));
    MeanIsWeighted(ps, AtLeastPay(|ps|, 1));
    WeightedTiple(ps, offered, |ps| + 1);
  }

  ghost function AllLose(ps: seq<real>): real {
    if ps == [] then 1.0 else AllLose(ps[..|ps| - 1]) * (1.0 - ps[|ps| - 1])
  }

  lemma {:induction false} AllLoseIsPmf(ps: seq<real>)
    ensures AllLose(ps) == Pmf(ps, 0)
  {
    if ps != [] {
      AllLoseIsPmf(ps[..|ps| - 1]);
      PmfOutside(ps[..|ps| - 1], -1);
    }
  }

  /** One minus the product of the losing chances is Tippot's P(at least one). */
  lemma AnyWins(ps: seq<real>)
    ensures 1.0 - AllLose(ps) == AtLeast(ps, 1)
  {
    AllLoseIsPmf(ps);
    TotalIsOne(ps);
    TailIsAtLeast(ps, 1);
  }

  lemma TipleReturn(p: real, d: real, fair: real, offered: real, units: int)
    requires 0.0 < p <= 1.0 && d > 0.0 && fair == 1.0 / p && offered == fair / d
    requires units == FloorTo(offered, TIPLE_SCALE)
    ensures 1.0 / d - 0.01 < (units as real / 100.0) * p <= 1.0 / d
  {
    assert fair * p == 1.0;
    assert offered * d == fair;
    assert (offered * p) * d == (offered * d) * p == 1.0;
    assert offered * p == 1.0 / d;
    assert fair > 0.0 && offered > 0.0;
    var x := units as real / 100.0;
    assert offered - 0.01 < x <= offered;
    assert p * (offered - x) >= 0.0;
    assert p * (x - (offered - 0.01)) > 0.0;
    assert 0.01 * p <= 0.01;
  }

  lemma TipleInBasisPoints(ps: seq<real>, marginBp: real, p: real, offered: real, units: int)
    requires p == AtLeast(ps, 1) && marginBp >= 0.0 && 0.0 < p <= 1.0
    requires offered == 1.0 / p / Divisor(marginBp) && units == FloorTo(offered, TIPLE_SCALE)
    ensures var mean := Mean(ps, TiplePays(|ps|, units as real / 100.0)) * (10000.0 + marginBp);
            10000.0 - 0.01 * (10000.0 + marginBp) < mean <= 10000.0
  {
    hide Mean, AtLeast, TiplePays, FloorTo;
    TipleReturn(p, Divisor(marginBp), 1.0 / p, offered, units);
    TipleMean(ps, units as real / 100.0);
    InBasisPoints(marginBp, Mean(ps, TiplePays(|ps|, units as real / 100.0)), 0.01);
  }

  /** The published hundredths are the most that leave the requested margin. */
  lemma TiplePrice(marginBp: real, p: real, offered: real, units: int)
    requires marginBp >= 0.0 && 0.0 < p <= 1.0 && offered == 1.0 / p / Divisor(marginBp) && units == FloorTo(offered, TIPLE_SCALE)
    ensures (units as real * p) * (10000.0 + marginBp) <= 1000000.0 < ((units as real + 1.0) * p) * (10000.0 + marginBp)
  {
    var d, m := Divisor(marginBp), 10000.0 + marginBp;
    var fair := 1.0 / p;
    assert fair * p == 1.0 && offered * d == fair && m == 10000.0 * d;
    assert fair > 0.0 && offered > 0.0;
    var pd := p * d;
    assert pd > 0.0;
    assert offered * pd == 1.0 by { assert offered * (p * d) == (offered * d) * p; }
    Bracketed(offered, units as real, pd);
    assert (units as real * p) * m == 10000.0 * (units as real * pd);
    assert ((units as real + 1.0) * p) * m == 10000.0 * ((units as real + 1.0) * pd);
  }

  lemma Bracketed(offered: real, u: real, pd: real)
    requires pd > 0.0 && offered * pd == 1.0 && u <= offered * 100.0 < u + 1.0
    ensures u * pd <= 100.0 < (u + 1.0) * pd
  {
    var z := 100.0 * offered;
    assert z * pd == 100.0 * (offered * pd);
    Order(u, z, u + 1.0, pd, 100.0);
  }

  lemma Order(lo: real, z: real, hi: real, p: real, zp: real)
    requires p > 0.0 && lo <= z < hi && z * p == zp
    ensures lo * p <= zp < hi * p
  {
    ProductNonNegative(z - lo, p);
    assert (z - lo) * p == z * p - lo * p;
    ProductPositive(hi - z, p);
    assert (hi - z) * p == hi * p - z * p;
  }

  method LosingChance(ps: seq<real>) returns (prodLose: real)
    ensures prodLose == AllLose(ps)
  {
    prodLose := 1.0;
    for i := 0 to |ps|
      invariant prodLose == AllLose(ps[..i])
    {
      assert ps[..i + 1][..i] == ps[..i];
      prodLose := prodLose * (1.0 - ps[i]);
    }
    assert ps[..|ps|] == ps;
  }

  /** Price a Tiple ticket. Its expected return at the published price is at most
      1 / (1 + margin) and less than one hundredth below it. */
  method PriceTiple(ps: seq<real>, marginBp: real) returns (r: Result<TipleQuote>)
    ensures |ps| < 2 ==> r == Err(TooFewLegs(|ps|))
    ensures |ps| >= 2 && !(0.0 <= marginBp <= 200000.0) ==> r == Err(MarginOutOfRange(marginBp))
    ensures |ps| >= 2 && 0.0 <= marginBp <= 200000.0 && !AreProbabilities(ps) ==>
              exists i :: 0 <= i < |ps| && !(0.0 < ps[i] < 1.0) && AreProbabilities(ps[..i])
                          && r == Err(ProbabilityOutOfRange(ps[i]))
    ensures |ps| >= 2 && 0.0 <= marginBp <= 200000.0 && AreProbabilities(ps) ==>
              && r.Ok? && r.value.n == |ps| && r.value.marginBp == marginBp
              && r.value.fairProbability == AtLeast(ps, 1)
              && (r.value.offered as real * AtLeast(ps, 1)) * (10000.0 + marginBp) <= 1000000.0
                 < ((r.value.offered as real + 1.0) * AtLeast(ps, 1)) * (10000.0 + marginBp)
              && var mean := Mean(ps, TiplePays(|ps|, r.value.offered as real / 100.0)) * (10000.0 + marginBp);
                 10000.0 - 0.01 * (10000.0 + marginBp) < mean <= 10000.0
  {
    var n := |ps|;
    if n < 2 { return Err(TooFewLegs(n)); }
    if marginBp < 0.0 || marginBp > 200000.0 { return Err(MarginOutOfRange(marginBp)); }
    var bad := FirstInvalid(ps);
    if bad >= 0 { return Err(ProbabilityOutOfRange(ps[bad])); }
    hide Pmf, Mean, AllLose, AtLeast, TiplePays;
    var prodLose := LosingChance(ps);
    var fairProb := 1.0 - prodLose;
    AnyWins(ps);
    TailIsAtLeast(ps, 1);
    TailPositive(ps, 1);
    TailAtMostOne(ps, 1);
    if fairProb <= 0.0 {
      assert false;
      return Err(Degenerate);
    }
    var divisor := Divisor(marginBp);
    var fairOdds := 1.0 / fairProb;
    var offered := fairOdds / divisor;
    var units := FloorTo(offered, TIPLE_SCALE);
    TipleInBasisPoints(ps, marginBp, fairProb, offered, units);
    TiplePrice(marginBp, fairProb, offered, units);
    r := Ok(TipleQuote(units, fairProb, marginBp, n));
  }
}
