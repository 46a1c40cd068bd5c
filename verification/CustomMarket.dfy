/** Operator-authored markets (packages/types/src/custom-events.ts): normalise, trade the
    liability, put the overround on, quote. */
module CustomMarket {
  import opened Numbers
  import opened Permutations
  import opened RealSums
  import opened RealArith
  import opened Netwinstable
  import opened Ladder

  const MIN_CUSTOM_PROBABILITY: real := 0.0001

  datatype Outcome = Outcome(id: string, baseProbability: real, exposure: real)

  datatype Liability = NoTrading | Trading(enabled: bool, strengthBp: real, maxShiftBp: real)

  datatype PriceCell = PriceCell(
    id: string,
    baseProbability: real,
    probability: real,
    rawOdds: real,
    publishedOdds: real,
    shiftBp: int)

  datatype Result<T> = Ok(value: T) | TooFewOutcomes | NeedsProbability(id: string)

  function Clamp(v: real, lo: real, hi: real): real { if v < lo then lo else if v > hi then hi else v }

  /** Every entry over the total. */
  function Normalise(xs: seq<real>): (r: seq<real>)
    requires Sum(xs) > 0.0
    ensures |r| == |xs| && forall i :: 0 <= i < |xs| ==> r[i] == xs[i] / Sum(xs)
  {
    seq(|xs|, i requires 0 <= i < |xs| => xs[i] / Sum(xs))
  }

  /** Keep `t` within `cap` of `b` (when there is a cap) and at or above the minimum. */
  function Leash(b: real, t: real, cap: real): real {
    var capped := if cap > 0.0 then Clamp(t, b - cap, b + cap) else t;
    Max(capped, MIN_CUSTOM_PROBABILITY)
  }

  /** One outcome's probability pulled toward its share of the money, on a leash of `cap`. */
  function Blend(b: real, share: real, k: real, cap: real): real {
    Leash(b, (1.0 - k) * b + k * share, cap)
  }

  function BlendAll(base: seq<real>, money: seq<real>, k: real, cap: real): (r: seq<real>)
    requires |base| == |money| && Sum(money) > 0.0
    ensures |r| == |base|
    ensures forall i :: 0 <= i < |base| ==> r[i] == Blend(base[i], money[i] / Sum(money), k, cap)
    ensures forall i :: 0 <= i < |base| ==> r[i] >= MIN_CUSTOM_PROBABILITY
  {
    seq(|base|, i requires 0 <= i < |base| => Blend(base[i], money[i] / Sum(money), k, cap))
  }

  function Exposures(os: seq<Outcome>): (es: seq<real>)
    ensures |es| == |os| && forall i :: 0 <= i < |os| ==> es[i] == Max(0.0, os[i].exposure)
  {
    seq(|os|, i requires 0 <= i < |os| => Max(0.0, os[i].exposure))
  }

  function BaseInputs(os: seq<Outcome>): (bs: seq<real>)
    ensures |bs| == |os| && forall i :: 0 <= i < |os| ==> bs[i] == os[i].baseProbability
  {
    seq(|os|, i requires 0 <= i < |os| => os[i].baseProbability)
  }

  predicate Trades(liability: Liability) {
    liability.Trading? && liability.enabled && liability.strengthBp > 0.0
  }

  function Strength(liability: Liability): (k: real)
    requires Trades(liability)
    ensures 0.0 < k <= 1.0
  {
    Clamp(liability.strengthBp / 10000.0, 0.0, 1.0)
  }

  function ShiftCap(liability: Liability): real
    requires Trades(liability)
  {
    Max(0.0, liability.maxShiftBp) / 10000.0
  }

  /** The probabilities the market is priced at, before the minimum-probability floor. */
  function Priced(base: seq<real>, money: seq<real>, liability: Liability): (r: seq<real>)
    requires |base| == |money|
    ensures |r| == |base|
  {
    if Trades(liability) && Sum(money) > 0.0 then
      var blended := BlendAll(base, money, Strength(liability), ShiftCap(liability));
      if |base| == 0 then [] else
        assert Sum(blended) > 0.0 by { SumPositive(blended); }
        Normalise(blended)
    else base
  }

  // ----- the priced probabilities are a distribution -----

  lemma UnitSum(xs: seq<real>, r: seq<real>, s: real)
    requires |xs| == |r| && s > 0.0 && Sum(xs) == s && forall i :: 0 <= i < |xs| ==> xs[i] == s * r[i]
    ensures Sum(r) == 1.0
  {
    hide Sum;
    SumScale(r, xs, s);
    UnitFactor(s, Sum(r), Sum(xs));
  }

  lemma NormaliseIsDistribution(xs: seq<real>)
    requires xs != [] && forall i :: 0 <= i < |xs| ==> xs[i] > 0.0
    ensures Sum(xs) > 0.0 && Sum(Normalise(xs)) == 1.0
    ensures forall i :: 0 <= i < |xs| ==> Normalise(xs)[i] > 0.0
  {
    hide Sum;
    SumPositive(xs);
    var s, r := Sum(xs), Normalise(xs);
    assert forall i :: 0 <= i < |xs| ==> r[i] > 0.0 && xs[i] == s * r[i] by {
      forall i | 0 <= i < |xs| ensures r[i] > 0.0 && xs[i] == s * r[i] {
        Share(xs[i], s);
      }
    }
    UnitSum(xs, r, s);
  }

  lemma Share(x: real, s: real)
    requires x > 0.0 && s > 0.0
    ensures x / s > 0.0 && s * (x / s) == x
  {
    var q := x / s;
    assert q * s == x;
  }

  /** Positive, summing to one, hence each below one when there are two or more outcomes. */
  lemma PricedIsDistribution(inputs: seq<real>, money: seq<real>, liability: Liability)
    requires |inputs| == |money| >= 2 && forall i :: 0 <= i < |inputs| ==> inputs[i] > 0.0
    ensures Sum(inputs) > 0.0
    ensures var p := Priced(Normalise(inputs), money, liability);
            && Sum(p) == 1.0 && forall i :: 0 <= i < |p| ==> 0.0 < p[i] < 1.0
  {
    NormaliseIsDistribution(inputs);
    var base := Normalise(inputs);
    hide Sum, Blend;
    var p := Priced(base, money, liability);
    if Trades(liability) && Sum(money) > 0.0 {
      NormaliseIsDistribution(BlendAll(base, money, Strength(liability), ShiftCap(liability)));
    }
    forall i | 0 <= i < |p| ensures p[i] < 1.0 {
      PartBelowTotal(p, i);
    }
  }

  lemma PartBelowTotal(xs: seq<real>, i: nat)
    requires |xs| >= 2 && i < |xs| && forall j :: 0 <= j < |xs| ==> xs[j] > 0.0
    ensures xs[i] < Sum(xs)
  {
    hide Sum;
    SumWithout(xs, i);
    SumPositive(Without(xs, i));
  }

  // ----- money on an outcome never lowers its probability -----

  lemma ShareShift(x: real, s: real, extra: real)
    requires 0.0 <= x <= s && s > 0.0 && extra >= 0.0
    ensures (x + extra) / (s + extra) >= x / s
  {
    var p, q := x / s, (x + extra) / (s + extra);
    assert p * s == x && q * (s + extra) == x + extra;
    ShareShiftProduct(p, q, x, s, extra);
  }

  lemma ShareShiftProduct(p: real, q: real, x: real, s: real, extra: real)
    requires p * s == x && q * (s + extra) == x + extra && 0.0 <= x <= s && s > 0.0 && extra >= 0.0
    ensures q >= p
  {
    BelowOne(p, s, x);
    ShrinksOrKeeps(p, extra);
    assert p * (s + extra) == p * s + p * extra;
    CancelFrom(p, q, s + extra, x + p * extra, x + extra);
  }

  lemma OtherShare(other: real, s: real, extra: real)
    requires other >= 0.0 && s > 0.0 && extra >= 0.0
    ensures other / (s + extra) <= other / s
  {
    var u, v := other / s, other / (s + extra);
    assert u * s == other && v * (s + extra) == other;
    NonNegativeQuotient(u, s, other);
    ProductNonNegative(u, extra);
    assert u * (s + extra) == other + u * extra;
    CancelAtMost(v, u, s + extra);
  }

  lemma BelowOne(p: real, s: real, x: real)
    requires p * s == x && 0.0 <= x <= s && s > 0.0
    ensures p <= 1.0
  {
    if p > 1.0 { ProductPositive(p - 1.0, s); }
  }

  lemma NonNegativeQuotient(u: real, s: real, other: real)
    requires u * s == other && other >= 0.0 && s > 0.0
    ensures u >= 0.0
  {
    if u < 0.0 { ProductPositive(-u, s); }
  }

  lemma LeashMonotone(b: real, t: real, u: real, cap: real)
    requires t <= u
    ensures Leash(b, t, cap) <= Leash(b, u, cap)
  {
  }

  lemma BlendMonotone(b: real, lo: real, hi: real, k: real, cap: real)
    requires lo <= hi && k >= 0.0
    ensures Blend(b, lo, k, cap) <= Blend(b, hi, k, cap)
  {
    ProductNonNegative(k, hi - lo);
    assert k * (hi - lo) == k * hi - k * lo;
    LeashMonotone(b, (1.0 - k) * b + k * lo, (1.0 - k) * b + k * hi, cap);
  }

  /** A part that grows while the rest shrinks takes a larger share of the total. */
  lemma ShareGrows(x: real, rest: real, x': real, rest': real)
    requires 0.0 < x <= x' && 0.0 <= rest' <= rest
    ensures x' / (x' + rest') >= x / (x + rest)
  {
    var p, q := x / (x + rest), x' / (x' + rest');
    assert p * (x + rest) == x && q * (x' + rest') == x';
    CrossMultiply(p, q, x, rest, x', rest');
  }

  lemma CrossMultiply(p: real, q: real, x: real, rest: real, x': real, rest': real)
    requires 0.0 < x <= x' && 0.0 <= rest' <= rest
    requires p * (x + rest) == x && q * (x' + rest') == x'
    ensures q >= p
  {
    BelowOne(p, x + rest, x);
    NonNegativeQuotient(p, x + rest, x);
    var g := 1.0 - p;
    assert g * x == p * rest;
    ProductNonNegative(g, x' - x);
    ProductNonNegative(p, rest - rest');
    assert g * x' >= p * rest';
    assert g * x' == x' - p * x';
    assert p * (x' + rest') <= x';
    CancelAtMost(p, q, x' + rest');
  }

  lemma BlendAllShift(base: seq<real>, money: seq<real>, k: real, cap: real, i: nat, extra: real)
    requires |base| == |money| && i < |base| && Sum(money) > 0.0 && k >= 0.0 && extra >= 0.0
    requires forall j :: 0 <= j < |money| ==> money[j] >= 0.0
    ensures Sum(money[i := money[i] + extra]) == Sum(money) + extra
    ensures var before, after := BlendAll(base, money, k, cap), BlendAll(base, money[i := money[i] + extra], k, cap);
            after[i] >= before[i] && forall j :: 0 <= j < |base| && j != i ==> after[j] <= before[j]
  {
    var money' := money[i := money[i] + extra];
    assert Without(money, i) == Without(money', i);
    SumWithout(money, i);
    SumWithout(money', i);
    SumNonNegative(money);
    hide Sum, Blend;
    forall j | 0 <= j < |base|
      ensures j == i ==> Blend(base[i], money[i] / Sum(money), k, cap) <= Blend(base[i], money'[i] / Sum(money'), k, cap)
      ensures j != i ==> Blend(base[j], money'[j] / Sum(money'), k, cap) <= Blend(base[j], money[j] / Sum(money), k, cap)
    {
      ShareShift(money[i], Sum(money), extra);
      OtherShare(money[j], Sum(money), extra);
      if j == i {
        BlendMonotone(base[i], money[i] / Sum(money), money'[i] / Sum(money'), k, cap);
      } else {
        BlendMonotone(base[j], money'[j] / Sum(money'), money[j] / Sum(money), k, cap);
      }
    }
  }

  lemma ShareOfTotal(before: seq<real>, after: seq<real>, i: nat)
    requires |before| == |after| && i < |before|
    requires forall j :: 0 <= j < |before| ==> before[j] > 0.0 && after[j] > 0.0
    requires after[i] >= before[i] && forall j :: 0 <= j < |before| && j != i ==> after[j] <= before[j]
    ensures Sum(before) > 0.0 && Sum(after) > 0.0
    ensures after[i] / Sum(after) >= before[i] / Sum(before)
  {
    hide Sum;
    SumPositive(before);
    SumPositive(after);
    SumWithout(before, i);
    SumWithout(after, i);
    SumMonotone(Without(after, i), Without(before, i));
    SumPositive(Without(after, i));
    ShareGrows(before[i], Sum(Without(before, i)), after[i], Sum(Without(after, i)));
  }

  /** With some exposure already on the book, more money on one outcome never lowers the
      probability it is priced at, whatever the leash and the renormalisation do. */
  lemma MoreMoneyNeverLowers(base: seq<real>, money: seq<real>, liability: Liability, i: nat, extra: real)
    requires |base| == |money| && i < |base| && extra >= 0.0 && Trades(liability) && Sum(money) > 0.0
    requires forall j :: 0 <= j < |money| ==> money[j] >= 0.0
    ensures Priced(base, money[i := money[i] + extra], liability)[i] >= Priced(base, money, liability)[i]
  {
    hide Sum, Blend;
    var k, cap := Strength(liability), ShiftCap(liability);
    BlendAllShift(base, money, k, cap, i, extra);
    ShareOfTotal(BlendAll(base, money, k, cap), BlendAll(base, money[i := money[i] + extra], k, cap), i);
  }

  lemma OnlyMoney(money: seq<real>, i: nat)
    requires i < |money| && money[i] > 0.0 && forall j :: 0 <= j < |money| && j != i ==> money[j] == 0.0
    ensures Sum(money) > 0.0
    ensures money[i] / Sum(money) == 1.0
    ensures forall j :: 0 <= j < |money| && j != i ==> money[j] / Sum(money) == 0.0
  {
    hide Sum;
    SumWithout(money, i);
    SumOfZeros(Without(money, i));
    Quotient(money[i], Sum(money), 1.0);
    forall j | 0 <= j < |money| && j != i ensures money[j] / Sum(money) == 0.0 {
      Quotient(money[j], Sum(money), 0.0);
    }
  }

  // ----- the delivered key -----

  function InverseOf(o: real): real { if o > 0.0 then 1.0 / o else 0.0 }

  function Inverses(odds: seq<real>): (r: seq<real>)
    ensures |r| == |odds| && forall i :: 0 <= i < |odds| ==> r[i] == InverseOf(odds[i])
  {
    seq(|odds|, i requires 0 <= i < |odds| => InverseOf(odds[i]))
  }

  /** custom-events.ts `bookKey`: the key a set of published prices delivers. */
  function DeliveredKey(odds: seq<real>): real { Sum(Inverses(odds)) }

  /** Quoting a price above 1 costs the book at most one part in a billion of key. */
  lemma QuoteKeepsKey(n: real)
    requires n > 1.0
    ensures InverseOf(CustomQuoteOnLadder(n)) >= KeyTerm(n) - 0.000000001
  {
    CustomQuoteBounds(n);
    var q := CustomQuoteOnLadder(n);
    assert q <= n + RUNG_DUST * n;
    hide CustomQuoteOnLadder;
    InverseLoss(n, q);
  }

  lemma InverseLoss(n: real, q: real)
    requires n > 1.0 && 1.0 <= q <= n + 0.000000001 * n
    ensures 1.0 / q >= 1.0 / n - 0.000000001
  {
    var a, b := 1.0 / n, 1.0 / q;
    assert a * n == 1.0 && b * q == 1.0;
    assert a > 0.0 && b > 0.0;
    var e := 0.000000001;
    ProductNonNegative(a, n + e * n - q);
    assert a * (n + e * n) == 1.0 + e;
    assert a * q <= 1.0 + e;
    assert (a - e) * q == a * q - e * q;
    CancelAtMost(a - e, b, q);
  }

  lemma DeliveredKeyAtLeast(adjusted: seq<real>, published: seq<real>)
    requires |adjusted| == |published|
    requires forall i :: 0 <= i < |adjusted| ==> adjusted[i] > 1.0 && published[i] == CustomQuoteOnLadder(adjusted[i])
    ensures DeliveredKey(published) >= Key(adjusted) - |adjusted| as real * 0.000000001
  {
    hide Sum, CustomQuoteOnLadder, InverseOf, KeyTerm;
    var inv, terms := Inverses(published), KeyTerms(adjusted);
    var low := seq(|adjusted|, i requires 0 <= i < |adjusted| => terms[i] - 0.000000001);
    forall i | 0 <= i < |adjusted| ensures low[i] <= inv[i] {
      QuoteKeepsKey(adjusted[i]);
    }
    SumMonotone(low, inv);
    SumShifted(terms, low, 0.000000001);
  }

  lemma {:induction false} SumShifted(s: seq<real>, t: seq<real>, e: real)
    requires |s| == |t| && forall i :: 0 <= i < |s| ==> t[i] == s[i] - e
    ensures Sum(t) == Sum(s) - |s| as real * e
  {
    if s != [] {
      SumShifted(s[..|s| - 1], t[..|t| - 1], e);
    }
  }

  function Fair(priced: seq<real>): (fair: seq<real>)
    ensures |fair| == |priced|
    ensures forall i :: 0 <= i < |priced| ==> fair[i] == 1.0 / Max(priced[i], MIN_CUSTOM_PROBABILITY)
  {
    seq(|priced|, i requires 0 <= i < |priced| => 1.0 / Max(priced[i], MIN_CUSTOM_PROBABILITY))
  }

  lemma FairAboveOne(priced: seq<real>)
    requires forall i :: 0 <= i < |priced| ==> 0.0 < priced[i] < 1.0
    ensures forall i :: 0 <= i < |priced| ==> Fair(priced)[i] > 1.0
  {
    forall i | 0 <= i < |priced| ensures Fair(priced)[i] > 1.0 {
      var p := Max(priced[i], MIN_CUSTOM_PROBABILITY);
      var f := 1.0 / p;
      assert f * p == 1.0;
    }
  }

  lemma {:induction false} AllPriced(odds: seq<real>)
    requires forall i :: 0 <= i < |odds| ==> odds[i] > 1.0
    ensures |NetWins(odds)| == |odds|
  {
    if odds != [] { AllPriced(odds[..|odds| - 1]); }
  }

  lemma ScaledAboveOne(odds: seq<real>, alpha: real)
    requires alpha > 0.0 && forall i :: 0 <= i < |odds| ==> odds[i] > 1.0
    ensures forall i :: 0 <= i < |odds| ==> Scale(odds, alpha)[i] > 1.0
  {
    forall i | 0 <= i < |odds| ensures Scale(odds, alpha)[i] > 1.0 {
      ProductPositive(alpha, odds[i] - 1.0);
    }
  }

  function KeyTarget(overroundBp: real): real { 1.0 + Max(0.0, overroundBp) / 10000.0 }

  function CellFor(o: Outcome, base: real, priced: real, fair: real, adjusted: real): PriceCell {
    var p := Max(priced, MIN_CUSTOM_PROBABILITY);
    PriceCell(o.id, base, p, RoundDown(fair), CustomQuoteOnLadder(adjusted), Round((p - base) * 10000.0))
  }

  /** The two book keys of the source agree on every book of prices above 1. */
  lemma SameBookKey(odds: seq<real>)
    requires forall i :: 0 <= i < |odds| ==> odds[i] > 1.0
    ensures DeliveredKey(odds) == Key(odds)
  {
    assert Inverses(odds) == KeyTerms(odds);
  }

  function Published(cells: seq<PriceCell>): (r: seq<real>)
    ensures |r| == |cells| && forall i :: 0 <= i < |cells| ==> r[i] == cells[i].publishedOdds
  {
    seq(|cells|, i requires 0 <= i < |cells| => cells[i].publishedOdds)
  }

  ghost predicate ValidInputs(os: seq<Outcome>) {
    |os| >= 2 && forall i :: 0 <= i < |os| ==> os[i].baseProbability > 0.0
  }

  /** The probabilities a market of valid inputs is priced at. */
  ghost function PricedFor(os: seq<Outcome>, liability: Liability): (p: seq<real>)
    requires ValidInputs(os)
    ensures Sum(BaseInputs(os)) > 0.0
    ensures |p| == |os| && Sum(p) == 1.0 && forall i :: 0 <= i < |p| ==> 0.0 < p[i] < 1.0
  {
    PricedIsDistribution(BaseInputs(os), Exposures(os), liability);
    Priced(Normalise(BaseInputs(os)), Exposures(os), liability)
  }

  /** An outcome the book would lose nothing on counts as having no money on it. */
  lemma LossesDoNotTrade(os: seq<Outcome>, os': seq<Outcome>, liability: Liability)
    requires ValidInputs(os) && ValidInputs(os') && |os| == |os'|
    requires forall i :: 0 <= i < |os| ==> os'[i].baseProbability == os[i].baseProbability
    requires forall i :: 0 <= i < |os| ==>
               os'[i].exposure == os[i].exposure || (os'[i].exposure <= 0.0 && os[i].exposure <= 0.0)
    ensures PricedFor(os, liability) == PricedFor(os', liability)
  {
    hide Priced, Normalise;
    assert BaseInputs(os) == BaseInputs(os') && Exposures(os) == Exposures(os');
  }

  /** Without trading, or without money, the market is priced at its normalised base. */
  lemma NotTradedIsBase(os: seq<Outcome>, liability: Liability, i: nat)
    requires ValidInputs(os) && i < |os|
    requires || liability == NoTrading || !liability.enabled || liability.strengthBp <= 0.0
             || (forall j :: 0 <= j < |os| ==> os[j].exposure <= 0.0)
    ensures PricedFor(os, liability)[i] == os[i].baseProbability / Sum(BaseInputs(os))
  {
    hide Sum;
    if forall j :: 0 <= j < |os| ==> os[j].exposure <= 0.0 { SumOfZeros(Exposures(os)); }
  }

  /** The solver's own error plus one part in a billion per outcome for the ladder. */
  ghost function Tolerance(fair: seq<real>): real {
    Sum(NetWins(fair)) * 0.000000000001 + 0.000000001 + |fair| as real * 0.000000001
  }

  /** A key the solver meets or exceeds on a book of these fair prices: its smallest factor gets there. */
  ghost predicate WithinReach(fair: seq<real>, target: real) {
    target < |NetWins(fair)| as real && target <= KeyAt(NetWins(fair), MIN_ALPHA)
  }

  lemma TinyTerm(ci: real)
    requires 0.0 < ci <= 9999.0
    ensures At(MIN_ALPHA, ci) >= 0.99999
  {
    var x := MIN_ALPHA * ci;
    assert x == ci / 1073741824.0;
    assert x < 0.00001;
    ProductPositive(MIN_ALPHA, ci);
    var q := 1.0 / (1.0 + x);
    assert q * (1.0 + x) == 1.0;
    CancelFrom(0.99999, q, 1.0 + x, 0.99999 * (1.0 + x), 1.0);
  }

  lemma {:induction false} SmallestFactorKey(c: seq<real>)
    requires Positive(c) && forall i :: 0 <= i < |c| ==> c[i] <= 9999.0
    ensures KeyAt(c, MIN_ALPHA) >= 0.99999 * |c| as real
  {
    hide At;
    if c != [] {
      SmallestFactorKey(c[..|c| - 1]);
      TinyTerm(c[|c| - 1]);
    }
  }

  lemma {:induction false} NetWinsAre(odds: seq<real>)
    requires forall j :: 0 <= j < |odds| ==> odds[j] > 1.0
    ensures |NetWins(odds)| == |odds| && forall j :: 0 <= j < |odds| ==> NetWins(odds)[j] == odds[j] - 1.0
  {
    if odds != [] { NetWinsAre(odds[..|odds| - 1]); }
  }

  lemma LongestFair(p: real)
    ensures 1.0 / Max(p, MIN_CUSTOM_PROBABILITY) <= 10000.0
  {
    var x := Max(p, MIN_CUSTOM_PROBABILITY);
    var q := 1.0 / x;
    assert q * x == 1.0;
    CancelFrom(q, 10000.0, x, 1.0, 10000.0 * x);
  }

  /** Every key up to 0.99999 per outcome is within reach, whatever the probabilities. */
  lemma OrdinaryKeysWithinReach(priced: seq<real>, target: real)
    requires priced != [] && (forall i :: 0 <= i < |priced| ==> 0.0 < priced[i] < 1.0)
    requires target <= 0.99999 * |priced| as real
    ensures WithinReach(Fair(priced), target)
  {
    hide KeyAt, NetWins;
    var fair := Fair(priced);
    FairAboveOne(priced);
    NetWinsAre(fair);
    forall i | 0 <= i < |fair| ensures NetWins(fair)[i] <= 9999.0 { LongestFair(priced[i]); }
    SmallestFactorKey(NetWins(fair));
  }

  /** Price one market. For valid inputs every published price is at least 1, and whenever the
      requested key is within reach, as every key up to 0.99999 per outcome is, the key actually
      delivered is at least the requested one, up to `Tolerance`. */
  method PriceCustomMarket(os: seq<Outcome>, overroundBp: real, liability: Liability)
    returns (r: Result<seq<PriceCell>>, ghost alpha: real)
    ensures |os| < 2 ==> r == TooFewOutcomes
    ensures |os| >= 2 && !ValidInputs(os) ==>
              exists i :: 0 <= i < |os| && os[i].baseProbability <= 0.0 && r == NeedsProbability(os[i].id)
                          && forall j :: 0 <= j < i ==> os[j].baseProbability > 0.0
    ensures ValidInputs(os) ==>
              var p := PricedFor(os, liability); var fair := Fair(p);
              && r.Ok? && |r.value| == |os| && MIN_ALPHA <= alpha <= MAX_ALPHA
              && (forall i :: 0 <= i < |os| ==>
                    && r.value[i].id == os[i].id
                    && r.value[i].probability == Max(p[i], MIN_CUSTOM_PROBABILITY)
                    && r.value[i].baseProbability == Normalise(BaseInputs(os))[i]
                    && r.value[i].rawOdds == RoundDown(fair[i])
                    && r.value[i].shiftBp == Round((r.value[i].probability - r.value[i].baseProbability) * 10000.0)
                    && r.value[i].publishedOdds == CustomQuoteOnLadder(Scale(fair, alpha)[i])
                    && r.value[i].publishedOdds >= 1.0)
              && var key := 1.0 + (if overroundBp > 0.0 then overroundBp else 0.0) / 10000.0;
                 && (key <= 0.99999 * |os| as real || WithinReach(fair, key) ==>
                       DeliveredKey(Published(r.value)) >= key - Tolerance(fair))
                 && (Reachable(NetWins(fair), key) && key < |os| as real ==>
                       Abs(Key(Scale(fair, alpha)) - key) <= 0.000000001 + Sum(NetWins(fair)) * 0.000000000001)
  {
    hide Sum, Blend, CustomQuoteOnLadder, KeyAt, NetWins, Key, ScaleOne, Round, RoundDown, LadderStep, InverseOf;
    alpha := 1.0;
    if |os| < 2 { return TooFewOutcomes, alpha; }
    for i := 0 to |os|
      invariant forall j :: 0 <= j < i ==> os[j].baseProbability > 0.0
    {
      if os[i].baseProbability <= 0.0 { return NeedsProbability(os[i].id), alpha; }
    }
    PricedIsDistribution(BaseInputs(os), Exposures(os), liability);
    var base := Normalise(BaseInputs(os));
    var priced := Priced(base, Exposures(os), liability);
    var keyTarget := KeyTarget(overroundBp);
    var fair := Fair(priced);
    FairAboveOne(priced);
    AllPriced(fair);
    var adjusted;
    adjusted, alpha := ApplyNetwinstableKey(fair, keyTarget);
    ScaledAboveOne(fair, alpha);
    var cells := seq(|os|, i requires 0 <= i < |os| => CellFor(os[i], base[i], priced[i], fair[i], adjusted[i]));
    forall i | 0 <= i < |os| ensures CustomQuoteOnLadder(adjusted[i]) >= 1.0 { CustomQuoteBounds(adjusted[i]); }
    DeliveredKeyAtLeast(adjusted, Published(cells));
    SumPositive(NetWins(fair));
    NearTarget(fair, adjusted, keyTarget);
    if keyTarget <= 0.99999 * |os| as real { OrdinaryKeysWithinReach(priced, keyTarget); }
    r := Ok(cells);
  }

  lemma NearTarget(fair: seq<real>, adjusted: seq<real>, target: real)
    requires Sum(NetWins(fair)) >= 0.0
    ensures PassesThrough(fair, target) && adjusted == fair && 0.0 < target < |NetWins(fair)| as real ==>
              Abs(Key(adjusted) - target) < 0.000000001
  {
    hide KeyAt, NetWins, Key;
    KeyOfScaled(fair, 1.0);
    ScaleByOne(fair);
  }
}
