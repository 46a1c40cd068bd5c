/** What backing an outcome does to its price (packages/types/src/custom-events.ts). */
module CustomPrices {
  import opened Numbers
  import opened RealSums
  import opened RealArith
  import opened Netwinstable
  import opened CustomMarket

  // ----- the solver's equation -----

  lemma TermFalls(x: real, y: real)
    requires 0.0 < x < y
    ensures 1.0 / (1.0 + x) > 1.0 / (1.0 + y)
  {
    ReciprocalGap(1.0 + x, 1.0 + y);
  }

  /** If every scaled net win is longer, the book's key is lower. */
  lemma {:induction false} LongerBook(c: seq<real>, a: real, d: seq<real>, b: real)
    requires Positive(c) && Positive(d) && |c| == |d| && a > 0.0 && b > 0.0
    requires forall j :: 0 <= j < |c| ==> a * c[j] < b * d[j]
    ensures KeyAt(c, a) >= KeyAt(d, b) && (c != [] ==> KeyAt(c, a) > KeyAt(d, b))
  {
    if c == [] { return; }
    var n := |c| - 1;
    LongerBook(c[..n], a, d[..n], b);
    ProductPositive(a, c[n]);
    TermFalls(a * c[n], b * d[n]);
  }

  /** Two books solved for the same key: shorten one outcome's net win and lengthen all others', and
      the solved price of that outcome does not lengthen. */
  lemma SolvedPriceShortens(c: seq<real>, a: real, d: seq<real>, b: real, i: nat)
    requires Positive(c) && Positive(d) && |c| == |d| && i < |c| && a > 0.0 && b > 0.0
    requires d[i] <= c[i] && forall j :: 0 <= j < |c| && j != i ==> c[j] <= d[j]
    requires KeyAt(c, a) == KeyAt(d, b)
    ensures b * d[i] <= a * c[i]
  {
    hide KeyAt;
    if b * d[i] > a * c[i] {
      FactorGrew(a, c[i], b, d[i]);
      forall j | 0 <= j < |c| ensures a * c[j] < b * d[j] {
        if j != i { ProductsApart(a, c[j], b, d[j]); }
      }
      LongerBook(c, a, d, b);
    }
  }

  /** The factor that keeps an outcome of net win `d` at the price a factor `a` gives net win `c`. */
  function HeldFactor(a: real, c: real, d: real): (e: real)
    requires a > 0.0 && c > 0.0 && d > 0.0
    ensures e > 0.0
  {
    ProductPositive(a, c);
    HeldFactorFacts(a * c, d);
    a * c / d
  }

  lemma HeldFactorFacts(x: real, d: real)
    requires x > 0.0 && d > 0.0
    ensures x / d > 0.0 && (x / d) * d == x
  {
  }

  /** Exactly: the solved price of an outcome does not lengthen if and only if, with that outcome held at
      its old price, the new book's key is no higher than the one asked for. */
  lemma SolvedPriceIff(c: seq<real>, a: real, d: seq<real>, b: real, i: nat)
    requires Positive(c) && Positive(d) && |c| == |d| && i < |c| && a > 0.0 && b > 0.0
    requires KeyAt(c, a) == KeyAt(d, b)
    ensures b * d[i] <= a * c[i] <==> KeyAt(d, HeldFactor(a, c[i], d[i])) <= KeyAt(c, a)
  {
    hide KeyAt, HeldFactor;
    HeldOrder(a, c[i], d[i], b);
    KeyOrder(d, b, HeldFactor(a, c[i], d[i]));
  }

  /** Factors order as the prices they give. */
  lemma HeldOrder(a: real, c: real, d: real, b: real)
    requires a > 0.0 && c > 0.0 && d > 0.0
    ensures b * d <= a * c <==> b <= HeldFactor(a, c, d)
  {
    ProductPositive(a, c);
    HeldFactorFacts(a * c, d);
    FactorOrder(b, HeldFactor(a, c, d), d, a * c);
  }

  lemma KeyOrder(c: seq<real>, a: real, b: real)
    requires Positive(c) && c != [] && a > 0.0 && b > 0.0
    ensures a <= b <==> KeyAt(c, b) <= KeyAt(c, a)
  {
    hide KeyAt;
    if a <= b { KeyMonotone(c, a, b); } else { KeyStrict(c, b, a); }
  }

  lemma FactorOrder(b: real, e: real, d: real, x: real)
    requires d > 0.0 && e * d == x
    ensures b * d <= x <==> b <= e
  {
    var y := b * d;
    if y <= x { CancelFrom(b, e, d, y, x); } else { CancelLessFrom(e, b, d, x, y); }
  }

  lemma KeyStrict(c: seq<real>, a: real, b: real)
    requires Positive(c) && c != [] && 0.0 < a < b
    ensures KeyAt(c, a) > KeyAt(c, b)
  {
    hide KeyAt, Sum;
    KeyDecreasing(c, a, b);
  }

  lemma FactorGrew(a: real, x: real, b: real, y: real)
    requires a > 0.0 && b > 0.0 && 0.0 < y <= x && b * y > a * x
    ensures b > a
  {
    ProductNonNegative(a, x - y);
    assert a * (x - y) == a * x - a * y;
    CancelLessFrom(a, b, y, a * y, b * y);
  }

  lemma ProductsApart(a: real, x: real, b: real, y: real)
    requires 0.0 < a < b && 0.0 < x <= y
    ensures a * x < b * y
  {
    ProductPositive(b - a, x);
    ProductNonNegative(b, y - x);
    assert (b - a) * x == b * x - a * x;
    assert b * (y - x) == b * y - b * x;
  }

  // ----- when the others do not rise -----

  /** An outcome's own probability pulled toward its share of the money. */
  function Mix(k: real, b: real, share: real): real { (1.0 - k) * b + k * share }

  lemma MixAdds(k: real, a: real, x: real, b: real, y: real)
    ensures Mix(k, a + x, b + y) == Mix(k, a, b) + Mix(k, x, y)
  {
    var u := 1.0 - k;
    assert u * (a + x) == u * a + u * x;
    assert k * (b + y) == k * b + k * y;
  }

  lemma MixFalls(k: real, b: real, share: real, share': real)
    requires k >= 0.0 && share' <= share
    ensures Mix(k, b, share') <= Mix(k, b, share)
  {
    ProductNonNegative(k, share - share');
    assert k * (share - share') == k * share - k * share';
  }

  lemma {:induction false} RawSum(base: seq<real>, shares: seq<real>, k: real, raw: seq<real>)
    requires |base| == |shares| == |raw|
    requires forall j :: 0 <= j < |base| ==> raw[j] == Mix(k, base[j], shares[j])
    ensures Sum(raw) == Mix(k, Sum(base), Sum(shares))
  {
    if base == [] {
      assert Mix(k, 0.0, 0.0) == 0.0;
      return;
    }
    hide Mix;
    var n := |base| - 1;
    RawSum(base[..n], shares[..n], k, raw[..n]);
    MixAdds(k, Sum(base[..n]), base[n], Sum(shares[..n]), shares[n]);
  }

  /** Lifting to the minimum gives back at most what an outcome lost. */
  lemma {:induction false} LiftedSum(t: seq<real>, t': seq<real>, r: seq<real>, r': seq<real>)
    requires |t| == |t'| == |r| == |r'|
    requires forall j :: 0 <= j < |t| ==> r[j] == Max(t[j], MIN_CUSTOM_PROBABILITY) && r'[j] == Max(t'[j], MIN_CUSTOM_PROBABILITY)
    requires forall j :: 0 <= j < |t| ==> t'[j] <= t[j] || t[j] >= MIN_CUSTOM_PROBABILITY
    ensures Sum(r') - Sum(r) >= Sum(t') - Sum(t)
  {
    if t != [] {
      var n := |t| - 1;
      LiftedSum(t[..n], t'[..n], r[..n], r'[..n]);
    }
  }

  lemma SharesSumToOne(money: seq<real>, shares: seq<real>)
    requires Sum(money) > 0.0 && |shares| == |money| && forall j :: 0 <= j < |money| ==> shares[j] == money[j] / Sum(money)
    ensures Sum(shares) == 1.0
  {
    hide Sum;
    var s := Sum(money);
    forall j | 0 <= j < |money| ensures money[j] == s * shares[j] { Back(money[j], s); }
    UnitSum(money, shares, s);
  }

  lemma Back(x: real, s: real)
    requires s > 0.0
    ensures s * (x / s) == x
  {
  }

  function Shares(money: seq<real>): (r: seq<real>)
    requires Sum(money) > 0.0
    ensures |r| == |money| && forall j :: 0 <= j < |money| ==> r[j] == money[j] / Sum(money)
  {
    Normalise(money)
  }

  function RawBlend(base: seq<real>, money: seq<real>, k: real): (r: seq<real>)
    requires |base| == |money| && Sum(money) > 0.0
    ensures |r| == |base| && forall j :: 0 <= j < |base| ==> r[j] == Mix(k, base[j], Shares(money)[j])
  {
    seq(|base|, j requires 0 <= j < |base| => Mix(k, base[j], Shares(money)[j]))
  }

  lemma RawSumsAgree(base: seq<real>, money: seq<real>, money': seq<real>, k: real)
    requires |base| == |money| == |money'| && Sum(money) > 0.0 && Sum(money') > 0.0
    ensures Sum(RawBlend(base, money, k)) == Sum(RawBlend(base, money', k))
  {
    hide Sum, Mix;
    SharesSumToOne(money, Shares(money));
    SharesSumToOne(money', Shares(money'));
    RawSum(base, Shares(money), k, RawBlend(base, money, k));
    RawSum(base, Shares(money'), k, RawBlend(base, money', k));
  }

  /** With the leash off and the backed outcome's own blend at or above the minimum, more money on it
      never shrinks the blended total. */
  lemma TotalNeverShrinks(base: seq<real>, money: seq<real>, k: real, i: nat, extra: real)
    requires |base| == |money| && i < |base| && Sum(money) > 0.0 && 0.0 <= k && extra >= 0.0
    requires forall j :: 0 <= j < |money| ==> money[j] >= 0.0
    requires RawBlend(base, money, k)[i] >= MIN_CUSTOM_PROBABILITY
    ensures var money' := money[i := money[i] + extra];
            Sum(money') == Sum(money) + extra && Sum(BlendAll(base, money', k, 0.0)) >= Sum(BlendAll(base, money, k, 0.0))
  {
    hide Sum, Blend, Mix;
    BlendAllShift(base, money, k, 0.0, i, extra);
    var money' := money[i := money[i] + extra];
    var t, t' := RawBlend(base, money, k), RawBlend(base, money', k);
    RawSumsAgree(base, money, money', k);
    forall j | 0 <= j < |base| ensures t'[j] <= t[j] || t[j] >= MIN_CUSTOM_PROBABILITY {
      if j != i {
        OtherShare(money[j], Sum(money), extra);
        MixFalls(k, base[j], Shares(money)[j], Shares(money')[j]);
      }
    }
    forall j | 0 <= j < |base|
      ensures BlendAll(base, money, k, 0.0)[j] == Max(t[j], MIN_CUSTOM_PROBABILITY)
      ensures BlendAll(base, money', k, 0.0)[j] == Max(t'[j], MIN_CUSTOM_PROBABILITY)
    {
      Unleashed(base[j], Shares(money)[j], k);
      Unleashed(base[j], Shares(money')[j], k);
    }
    LiftedSum(t, t', BlendAll(base, money, k, 0.0), BlendAll(base, money', k, 0.0));
  }

  lemma Unleashed(b: real, share: real, k: real)
    ensures Blend(b, share, k, 0.0) == Max(Mix(k, b, share), MIN_CUSTOM_PROBABILITY)
  {
  }

  lemma StrengthIs(liability: Liability)
    requires Trades(liability)
    ensures liability.strengthBp >= 10000.0 ==> Strength(liability) == 1.0
    ensures liability.strengthBp <= 10000.0 ==> Strength(liability) * 10000.0 == liability.strengthBp
  {
  }

  /** A base pulled `bp` ten-thousandths of the way to a share of the money. */
  ghost function Pulled(bp: real, b: real, share: real): real { ((10000.0 - bp) * b + bp * share) / 10000.0 }

  lemma MixInBasisPoints(k: real, bp: real, b: real, share: real)
    requires k * 10000.0 == bp
    ensures Mix(k, b, share) == Pulled(bp, b, share)
  {
    assert (10000.0 - bp) * b == 10000.0 * ((1.0 - k) * b);
    assert bp * share == 10000.0 * (k * share);
  }

  lemma AlreadyUnit(xs: seq<real>, i: nat)
    requires Sum(xs) == 1.0 && i < |xs|
    ensures Normalise(xs)[i] == xs[i]
  {
  }

  /** What trading prices an outcome at, in basis points: with the leash off and no blend under the
      minimum, `strengthBp` ten-thousandths of the way from its base to its share of the money. */
  lemma TradedProbability(base: seq<real>, money: seq<real>, liability: Liability, i: nat)
    requires |base| == |money| && i < |base| && Sum(base) == 1.0 && Sum(money) > 0.0
    requires liability.Trading? && liability.enabled && liability.maxShiftBp <= 0.0
    requires 0.0 < liability.strengthBp <= 10000.0
    requires forall j :: 0 <= j < |base| ==> Pulled(liability.strengthBp, base[j], money[j] / Sum(money)) >= 0.0001
    ensures Priced(base, money, liability)[i] == Pulled(liability.strengthBp, base[i], money[i] / Sum(money))
  {
    hide Sum, Mix, Blend, Pulled;
    StrengthIs(liability);
    var k, shares, t := Strength(liability), Shares(money), RawBlend(base, money, Strength(liability));
    var blended := BlendAll(base, money, k, 0.0);
    forall j | 0 <= j < |base|
      ensures blended[j] == t[j] == Pulled(liability.strengthBp, base[j], shares[j])
    {
      MixInBasisPoints(k, liability.strengthBp, base[j], shares[j]);
      Unleashed(base[j], shares[j], k);
    }
    assert blended == t;
    SharesSumToOne(money, shares);
    RawSum(base, shares, k, t);
    Mixed(k);
    AlreadyUnit(blended, i);
    Unleash(liability);
  }

  lemma Unleash(liability: Liability)
    requires Unbound(liability)
    ensures ShiftCap(liability) == 0.0
  {
  }

  lemma Mixed(k: real)
    ensures Mix(k, 1.0, 1.0) == 1.0
  {
  }

  lemma SmallerShare(x: real, x': real, s: real, s': real)
    requires 0.0 < x' <= x && 0.0 < s <= s'
    ensures x' / s' <= x / s
  {
    var p, q := x / s, x' / s';
    assert p * s == x && q * s' == x';
    assert p > 0.0;
    ProductNonNegative(p, s' - s);
    assert p * (s' - s) == p * s' - p * s;
    CancelFrom(q, p, s', x', p * s');
  }

  /** The operator's leash is off. */
  predicate Unbound(liability: Liability) { Trades(liability) && liability.maxShiftBp <= 0.0 }

  /** Backing an outcome then lowers, or leaves, every other outcome's priced probability. */
  lemma OthersNeverRise(base: seq<real>, money: seq<real>, liability: Liability, i: nat, extra: real, j: nat)
    requires |base| == |money| && i < |base| && j < |base| && j != i && extra >= 0.0 && Unbound(liability) && Sum(money) > 0.0
    requires forall m :: 0 <= m < |money| ==> money[m] >= 0.0
    requires RawBlend(base, money, Strength(liability))[i] >= MIN_CUSTOM_PROBABILITY
    ensures Priced(base, money[i := money[i] + extra], liability)[j] <= Priced(base, money, liability)[j]
  {
    hide Sum, Blend;
    var k, money' := Strength(liability), money[i := money[i] + extra];
    BlendAllShift(base, money, k, 0.0, i, extra);
    TotalNeverShrinks(base, money, k, i, extra);
    var before, after := BlendAll(base, money, k, 0.0), BlendAll(base, money', k, 0.0);
    SumPositive(before);
    SumPositive(after);
    SmallerShare(before[j], after[j], Sum(before), Sum(after));
  }

  lemma FairFalls(p: real, q: real)
    requires 0.0 < p <= q < 1.0
    ensures 1.0 < 1.0 / Max(q, MIN_CUSTOM_PROBABILITY) <= 1.0 / Max(p, MIN_CUSTOM_PROBABILITY)
  {
    var x, y := Max(p, MIN_CUSTOM_PROBABILITY), Max(q, MIN_CUSTOM_PROBABILITY);
    var u, v := 1.0 / x, 1.0 / y;
    assert u * x == 1.0 && v * y == 1.0;
    assert u > 0.0 && v > 0.0;
    ProductNonNegative(v, y - x);
    assert v * (y - x) == v * y - v * x;
    CancelFrom(v, u, x, v * x, 1.0);
    ProductPositive(v, 1.0 - y);
    assert v * (1.0 - y) == v - v * y;
  }

  lemma PriceShortens(p: seq<real>, p': seq<real>, i: nat, a: real, b: real)
    requires |p| == |p'| && i < |p| && a > 0.0 && b > 0.0
    requires forall j :: 0 <= j < |p| ==> 0.0 < p[j] < 1.0 && 0.0 < p'[j] < 1.0
    requires p[i] <= p'[i] && forall j :: 0 <= j < |p| && j != i ==> p'[j] <= p[j]
    requires KeyAt(NetWins(Fair(p)), a) == KeyAt(NetWins(Fair(p')), b)
    ensures Scale(Fair(p'), b)[i] <= Scale(Fair(p), a)[i]
  {
    hide KeyAt, NetWins;
    forall j | 0 <= j < |p| && j != i ensures Fair(p)[j] <= Fair(p')[j] { FairFalls(p'[j], p[j]); }
    FairFalls(p[i], p'[i]);
    FairAboveOne(p);
    FairAboveOne(p');
    NetWinsAre(Fair(p));
    NetWinsAre(Fair(p'));
    SolvedPriceShortens(NetWins(Fair(p)), a, NetWins(Fair(p')), b, i);
  }

  /** More money on an outcome never lengthens its exact price, the one that solves the requested key,
      when the leash is off and its own blend is at or above the minimum, or in any market of two. */
  lemma MoreMoneyShortens(inputs: seq<real>, money: seq<real>, liability: Liability, i: nat, extra: real, a: real, b: real)
    requires |inputs| == |money| >= 2 && i < |inputs| && extra >= 0.0 && Trades(liability) && Sum(money) > 0.0
    requires (forall j :: 0 <= j < |inputs| ==> inputs[j] > 0.0) && forall j :: 0 <= j < |money| ==> money[j] >= 0.0
    requires Sum(inputs) > 0.0 && a > 0.0 && b > 0.0
    requires |inputs| == 2 || (Unbound(liability) && RawBlend(Normalise(inputs), money, Strength(liability))[i] >= MIN_CUSTOM_PROBABILITY)
    requires var base := Normalise(inputs);
             KeyAt(NetWins(Fair(Priced(base, money, liability))), a)
             == KeyAt(NetWins(Fair(Priced(base, money[i := money[i] + extra], liability))), b)
    ensures var base := Normalise(inputs);
            Scale(Fair(Priced(base, money[i := money[i] + extra], liability)), b)[i] <= Scale(Fair(Priced(base, money, liability)), a)[i]
  {
    hide Sum, KeyAt, NetWins, Fair, Scale, Priced, Normalise, RawBlend;
    var base, money' := Normalise(inputs), money[i := money[i] + extra];
    var p, p' := Priced(base, money, liability), Priced(base, money', liability);
    PricedIsDistribution(inputs, money, liability);
    PricedIsDistribution(inputs, money', liability);
    MoreMoneyNeverLowers(base, money, liability, i, extra);
    forall j | 0 <= j < |p| && j != i ensures p'[j] <= p[j] {
      if |inputs| == 2 {
        TwoSum(p);
        TwoSum(p');
      } else {
        OthersNeverRise(base, money, liability, i, extra, j);
      }
    }
    PriceShortens(p, p', i, a, b);
  }

  /** For any leash and any number of outcomes, exactly: more money on an outcome does not lengthen its
      exact price if and only if, with that outcome held at its old price, the new book's key is no
      higher than the one asked for. */
  lemma MoreMoneyShortensIff(inputs: seq<real>, money: seq<real>, liability: Liability, i: nat, extra: real, a: real, b: real)
    requires |inputs| == |money| >= 2 && i < |inputs| && (forall j :: 0 <= j < |inputs| ==> inputs[j] > 0.0)
    requires Sum(inputs) > 0.0 && a > 0.0 && b > 0.0
    requires var base := Normalise(inputs);
             KeyAt(NetWins(Fair(Priced(base, money, liability))), a)
             == KeyAt(NetWins(Fair(Priced(base, money[i := money[i] + extra], liability))), b)
    ensures var base := Normalise(inputs);
            var fair, fair' := Fair(Priced(base, money, liability)), Fair(Priced(base, money[i := money[i] + extra], liability));
            && fair[i] > 1.0 && fair'[i] > 1.0
            && (Scale(fair', b)[i] <= Scale(fair, a)[i] <==>
                  KeyAt(NetWins(fair'), HeldFactor(a, fair[i] - 1.0, fair'[i] - 1.0)) <= KeyAt(NetWins(fair), a))
  {
    hide Sum, KeyAt, NetWins, Fair, Priced, Normalise, HeldFactor, Scale;
    var base, money' := Normalise(inputs), money[i := money[i] + extra];
    var p, p' := Priced(base, money, liability), Priced(base, money', liability);
    PricedIsDistribution(inputs, money, liability);
    PricedIsDistribution(inputs, money', liability);
    FairAboveOne(p);
    FairAboveOne(p');
    BooksIff(Fair(p), a, Fair(p'), b, i);
  }

  lemma BooksIff(fair: seq<real>, a: real, fair': seq<real>, b: real, i: nat)
    requires |fair| == |fair'| && i < |fair| && a > 0.0 && b > 0.0
    requires forall j :: 0 <= j < |fair| ==> fair[j] > 1.0 && fair'[j] > 1.0
    requires KeyAt(NetWins(fair), a) == KeyAt(NetWins(fair'), b)
    ensures Scale(fair', b)[i] <= Scale(fair, a)[i] <==>
            KeyAt(NetWins(fair'), HeldFactor(a, fair[i] - 1.0, fair'[i] - 1.0)) <= KeyAt(NetWins(fair), a)
  {
    hide KeyAt, NetWins, HeldFactor;
    NetWinsAre(fair);
    NetWinsAre(fair');
    SolvedPriceIff(NetWins(fair), a, NetWins(fair'), b, i);
  }

  // ----- a leashed market whose backed outcome lengthens -----

  const LEASHED: Liability := Trading(true, 10000.0, 20.0)

  lemma LeashedSettings()
    ensures Trades(LEASHED) && Strength(LEASHED) == 1.0 && ShiftCap(LEASHED) == 0.002
  {
  }

  lemma FullMix(b: real, share: real, cap: real)
    ensures Blend(b, share, 1.0, cap) == Leash(b, share, cap)
  {
  }

  lemma ThreeSum(p: seq<real>)
    requires |p| == 3
    ensures Sum(p) == p[0] + p[1] + p[2]
  {
    assert p[..2][..1] == [p[0]] && [p[0]][..0] == [];
    assert Sum([p[0]]) == Sum([]) + p[0];
    assert Sum(p[..2]) == Sum(p[..2][..1]) + p[1];
  }

  /** Shares past the leash on both sides pin the first two outcomes; the third is pinned at `third`. */
  lemma PinnedBlend(money: seq<real>, third: real)
    requires |money| == 3 && Sum(money) > 0.0
    requires money[0] / Sum(money) >= 0.005 && money[1] / Sum(money) <= 0.025
    requires if third == 0.972 then money[2] / Sum(money) >= 0.972 else third == 0.968 && money[2] / Sum(money) <= 0.968
    ensures BlendAll([0.003, 0.027, 0.97], money, 1.0, 0.002) == [0.005, 0.025, third]
  {
    hide Sum, Blend;
    FullMix(0.003, money[0] / Sum(money), 0.002);
    FullMix(0.027, money[1] / Sum(money), 0.002);
    FullMix(0.97, money[2] / Sum(money), 0.002);
  }

  lemma PricedPinned(money: seq<real>, third: real)
    requires |money| == 3 && Sum(money) > 0.0
    requires BlendAll([0.003, 0.027, 0.97], money, 1.0, 0.002) == [0.005, 0.025, third] && third > 0.0
    ensures var p, s := Priced([0.003, 0.027, 0.97], money, LEASHED), 0.03 + third;
            p == [0.005 / s, 0.025 / s, third / s]
  {
    hide Sum, Blend, Strength, ShiftCap;
    LeashedSettings();
    ThreeSum([0.005, 0.025, third]);
  }

  /** The book before: money 10, 15 and 975. */
  lemma BookBefore()
    ensures Sum([10.0, 15.0, 975.0]) > 0.0
    ensures Priced([0.003, 0.027, 0.97], [10.0, 15.0, 975.0], LEASHED) == [0.005 / 1.002, 0.025 / 1.002, 0.972 / 1.002]
  {
    hide Sum, Priced, BlendAll;
    ThreeSum([10.0, 15.0, 975.0]);
    PinnedBlend([10.0, 15.0, 975.0], 0.972);
    PricedPinned([10.0, 15.0, 975.0], 0.972);
  }

  /** The book after another 10 on the first outcome. */
  lemma BookAfter()
    ensures Sum([20.0, 15.0, 975.0]) > 0.0
    ensures Priced([0.003, 0.027, 0.97], [20.0, 15.0, 975.0], LEASHED) == [0.005 / 0.998, 0.025 / 0.998, 0.968 / 0.998]
  {
    hide Sum, Priced, BlendAll;
    ThreeSum([20.0, 15.0, 975.0]);
    PinnedBlend([20.0, 15.0, 975.0], 0.968);
    PricedPinned([20.0, 15.0, 975.0], 0.968);
  }

  lemma FairIs(x: real, s: real)
    requires 0.0 < x < s && 0.0001 < x / s
    ensures 1.0 / Max(x / s, MIN_CUSTOM_PROBABILITY) == s / x
  {
    var p, q := x / s, s / x;
    assert p * s == x && q * x == s;
    assert s * (q * p) == q * (p * s);
    UnitFactor(s, q * p, s * (q * p));
    Quotient(1.0, p, q);
  }

  lemma FairBefore()
    ensures Fair([0.005 / 1.002, 0.025 / 1.002, 0.972 / 1.002]) == [1.002 / 0.005, 1.002 / 0.025, 1.002 / 0.972]
  {
    FairIs(0.005, 1.002);
    FairIs(0.025, 1.002);
    FairIs(0.972, 1.002);
  }

  lemma FairAfter()
    ensures Fair([0.005 / 0.998, 0.025 / 0.998, 0.968 / 0.998]) == [0.998 / 0.005, 0.998 / 0.025, 0.998 / 0.968]
  {
    FairIs(0.005, 0.998);
    FairIs(0.025, 0.998);
    FairIs(0.968, 0.998);
  }

  lemma NetWinsOfThree(odds: seq<real>, c: seq<real>)
    requires |odds| == |c| == 3 && forall j :: 0 <= j < 3 ==> odds[j] > 1.0 && c[j] == odds[j] - 1.0
    ensures NetWins(odds) == c
  {
    hide NetWins;
    NetWinsAre(odds);
  }

  lemma KeyOfThree(c: seq<real>, a: real)
    requires |c| == 3 && Positive(c) && a > 0.0
    ensures KeyAt(c, a) == At(a, c[0]) + At(a, c[1]) + At(a, c[2])
  {
    hide At;
    assert c[..2][..1] == [c[0]] && [c[0]][..0] == [];
    assert KeyAt([c[0]], a) == KeyAt([], a) + At(a, c[0]);
    assert KeyAt(c[..2], a) == KeyAt(c[..2][..1], a) + At(a, c[1]);
  }

  /** With the first outcome at 10.0, the later book's key is higher than the earlier one's. */
  lemma KeysAtTen(c: seq<real>, d: seq<real>)
    requires c == [997.0 / 5.0, 977.0 / 25.0, 5.0 / 162.0] && d == [993.0 / 5.0, 973.0 / 25.0, 15.0 / 484.0]
    ensures KeyAt(c, 45.0 / 997.0) < 1.461 && KeyAt(d, 15.0 / 331.0) > KeyAt(c, 45.0 / 997.0)
  {
    hide KeyAt;
    KeyOfThree(c, 45.0 / 997.0);
    KeyOfThree(d, 15.0 / 331.0);
    TermsBefore();
    TermsAfter();
  }

  lemma TermsBefore()
    ensures At(45.0 / 997.0, 997.0 / 5.0) == 0.1
    ensures 0.0 < At(45.0 / 997.0, 977.0 / 25.0) < 0.3619 && At(45.0 / 997.0, 5.0 / 162.0) < 0.99861
  {
    assert (45.0 / 997.0) * (997.0 / 5.0) == 9.0;
    assert (45.0 / 997.0) * (977.0 / 25.0) == 8793.0 / 4985.0;
    assert (45.0 / 997.0) * (5.0 / 162.0) == 25.0 / 17946.0;
  }

  lemma TermsAfter()
    ensures At(15.0 / 331.0, 993.0 / 5.0) == 0.1
    ensures At(15.0 / 331.0, 973.0 / 25.0) + At(15.0 / 331.0, 15.0 / 484.0)
            > At(45.0 / 997.0, 977.0 / 25.0) + At(45.0 / 997.0, 5.0 / 162.0)
  {
    assert (45.0 / 997.0) * (977.0 / 25.0) == 8793.0 / 4985.0;
    assert (45.0 / 997.0) * (5.0 / 162.0) == 25.0 / 17946.0;
    assert (15.0 / 331.0) * (993.0 / 5.0) == 9.0;
    assert (15.0 / 331.0) * (973.0 / 25.0) == 2919.0 / 1655.0;
    assert (15.0 / 331.0) * (15.0 / 484.0) == 225.0 / 160204.0;
  }

  /** On a leash the promised shorter price fails: another 10 on the first outcome raises its probability,
      and yet, at an overround under 47 per cent, every factor that brings the new book down to the
      same key quotes it longer than the 10.0 it had. */
  lemma LeashedLengthens(b: real)
    requires b > 0.0
    ensures Sum([10.0, 15.0, 975.0]) > 0.0 && Sum([20.0, 15.0, 975.0]) > 0.0
    ensures var base, a := [0.003, 0.027, 0.97], 45.0 / 997.0;
            var p, p' := Priced(base, [10.0, 15.0, 975.0], LEASHED), Priced(base, [20.0, 15.0, 975.0], LEASHED);
            && p[0] < p'[0] && KeyAt(NetWins(Fair(p)), a) < 1.461 && Scale(Fair(p), a)[0] == 10.0
            && (KeyAt(NetWins(Fair(p')), b) <= KeyAt(NetWins(Fair(p)), a) ==> Scale(Fair(p'), b)[0] > 10.0)
  {
    hide Sum, KeyAt, NetWins, Fair, Priced;
    var c, d := [997.0 / 5.0, 977.0 / 25.0, 5.0 / 162.0], [993.0 / 5.0, 973.0 / 25.0, 15.0 / 484.0];
    BookBefore();
    BookAfter();
    FairBefore();
    FairAfter();
    NetWinsOfThree([1.002 / 0.005, 1.002 / 0.025, 1.002 / 0.972], c);
    NetWinsOfThree([0.998 / 0.005, 0.998 / 0.025, 0.998 / 0.968], d);
    KeysAtTen(c, d);
    if b <= 15.0 / 331.0 { KeyMonotone(d, b, 15.0 / 331.0); }
  }

  lemma TwoSum(p: seq<real>)
    requires |p| == 2
    ensures Sum(p) == p[0] + p[1]
  {
    assert p[..1] == [p[0]] && [p[0]][..0] == [];
    assert Sum(p[..1]) == Sum([]) + p[0];
  }
}
