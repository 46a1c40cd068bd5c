/** What the first money on a book does to the outcome it backs (packages/types/src/custom-events.ts). */
module FirstMoney {
  import opened Numbers
  import opened Permutations
  import opened RealSums
  import opened RealArith
  import opened CustomMarket

  /** A pull of `x`, no longer than the leash when there is one. */
  function Pull(x: real, cap: real): real { if cap > 0.0 then Min(x, cap) else x }

  /** What the backed outcome gains before renormalising: the pull toward all of the money, or up to the
      minimum if that is further. */
  function OwnGain(b: real, k: real, cap: real): real { Max(Pull(k * (1.0 - b), cap), MIN_CUSTOM_PROBABILITY - b) }

  /** What the minimum gives back to an outcome without money, whose probability is pulled toward none. */
  function Lift(b: real, k: real, cap: real): real { Max(0.0, MIN_CUSTOM_PROBABILITY - (b - Pull(k * b, cap))) }

  /** Its change before renormalising: the lift less the pull. */
  function OtherShift(b: real, k: real, cap: real): real { Lift(b, k, cap) - Pull(k * b, cap) }

  function OtherShifts(bs: seq<real>, k: real, cap: real): (r: seq<real>)
    ensures |r| == |bs| && forall j :: 0 <= j < |bs| ==> r[j] == OtherShift(bs[j], k, cap)
  {
    seq(|bs|, j requires 0 <= j < |bs| => OtherShift(bs[j], k, cap))
  }

  /** The money on the book is all on outcome `i`. */
  ghost predicate FirstOn(money: seq<real>, i: nat) {
    i < |money| && money[i] > 0.0 && forall j :: 0 <= j < |money| && j != i ==> money[j] == 0.0
  }

  lemma BackedBlend(b: real, k: real, cap: real)
    requires 0.0 < b <= 1.0 && 0.0 < k <= 1.0
    ensures Blend(b, 1.0, k, cap) == b + OwnGain(b, k, cap)
  {
    ProductNonNegative(k, 1.0 - b);
    assert (1.0 - k) * b + k * 1.0 == b + k * (1.0 - b);
  }

  lemma OtherBlend(b: real, k: real, cap: real)
    requires 0.0 < b <= 1.0 && 0.0 < k <= 1.0
    ensures Blend(b, 0.0, k, cap) == b + OtherShift(b, k, cap)
  {
    ProductNonNegative(k, b);
    assert (1.0 - k) * b + k * 0.0 == b - k * b;
  }

  lemma AtMostWhole(base: seq<real>, j: nat)
    requires j < |base| && Sum(base) == 1.0 && forall m :: 0 <= m < |base| ==> base[m] > 0.0
    ensures base[j] <= 1.0
  {
    hide Sum;
    SumNonNegative(base);
  }

  /** The exact condition, on the operator's own numbers: the first money does not lower the outcome it
      lands on if and only if that outcome's gain, weighed by the rest of the book, covers what the
      others are lifted by over what they are pulled down. */
  lemma FirstMoneyIff(base: seq<real>, liability: Liability, i: nat, money: seq<real>)
    requires |base| == |money| && FirstOn(money, i) && Trades(liability) && Sum(base) == 1.0
    requires forall j :: 0 <= j < |base| ==> base[j] > 0.0
    ensures var k, cap := Strength(liability), ShiftCap(liability);
            Priced(base, money, liability)[i] >= base[i] <==>
            OwnGain(base[i], k, cap) * (1.0 - base[i]) >= base[i] * Sum(OtherShifts(Without(base, i), k, cap))
  {
    hide Sum, Blend, Strength, ShiftCap, OwnGain, OtherShift;
    var k, cap := Strength(liability), ShiftCap(liability);
    OnlyMoney(money, i);
    var after := BlendAll(base, money, k, cap);
    forall j | 0 <= j < |base|
      ensures after[j] == base[j] + if j == i then OwnGain(base[j], k, cap) else OtherShift(base[j], k, cap)
    {
      AtMostWhole(base, j);
      BackedBlend(base[j], k, cap);
      OtherBlend(base[j], k, cap);
    }
    SumPositive(after);
    SumWithout(after, i);
    SumWithout(base, i);
    SumDifference(Without(after, i), Without(base, i), OtherShifts(Without(base, i), k, cap));
    ShareAtLeastIff(base[i], OwnGain(base[i], k, cap), Sum(OtherShifts(Without(base, i), k, cap)));
    assert Priced(base, money, liability)[i] == after[i] / Sum(after);
  }

  lemma ShareAtLeastIff(b: real, gain: real, shift: real)
    requires 1.0 + gain + shift > 0.0
    ensures (b + gain) / (1.0 + gain + shift) >= b <==> gain * (1.0 - b) >= b * shift
  {
    var s, x := 1.0 + gain + shift, b + gain;
    var p, bs := x / s, b * s;
    assert p * s == x;
    assert bs == b + b * gain + b * shift;
    assert gain * (1.0 - b) == gain - b * gain;
    if p >= b {
      ProductNonNegative(p - b, s);
      assert (p - b) * s == p * s - bs;
    }
    if x >= bs { CancelFrom(b, p, s, bs, x); }
  }

  lemma {:induction false} SumNonPositive(s: seq<real>)
    requires forall j :: 0 <= j < |s| ==> s[j] <= 0.0
    ensures Sum(s) <= 0.0
  {
    if s != [] { SumNonPositive(s[..|s| - 1]); }
  }

  lemma NoLiftNeeded(b: real, k: real, cap: real)
    requires MIN_CUSTOM_PROBABILITY <= b <= 1.0 && 0.0 < k <= 1.0
    ensures OtherShift(b, k, cap) <= 0.0 <= OwnGain(b, k, cap)
  {
    ProductNonNegative(k, b);
    ProductNonNegative(k, 1.0 - b);
  }

  /** In particular, with no base probability under the minimum it never lowers it. */
  lemma FirstMoneyNeverLowers(base: seq<real>, liability: Liability, i: nat, money: seq<real>)
    requires |base| == |money| && FirstOn(money, i) && Trades(liability) && Sum(base) == 1.0
    requires forall j :: 0 <= j < |base| ==> base[j] >= MIN_CUSTOM_PROBABILITY
    ensures Sum(money) > 0.0 && Priced(base, money, liability)[i] >= base[i]
  {
    hide Sum, Strength, ShiftCap, OwnGain, OtherShift, Priced;
    OnlyMoney(money, i);
    var k, cap := Strength(liability), ShiftCap(liability);
    forall j | 0 <= j < |base| ensures base[j] <= 1.0 && OtherShift(base[j], k, cap) <= 0.0 <= OwnGain(base[j], k, cap) {
      AtMostWhole(base, j);
      NoLiftNeeded(base[j], k, cap);
    }
    var shifts := OtherShifts(Without(base, i), k, cap);
    SumNonPositive(shifts);
    ProductNonNegative(OwnGain(base[i], k, cap), 1.0 - base[i]);
    ProductNonNegative(base[i], -Sum(shifts));
    assert base[i] * -Sum(shifts) == -(base[i] * Sum(shifts));
    FirstMoneyIff(base, liability, i, money);
  }

  /** What the minimum lifts an outcome by with the leash off. */
  function FreeLift(b: real, k: real): real { Max(0.0, MIN_CUSTOM_PROBABILITY - (1.0 - k) * b) }

  function FreeLifts(bs: seq<real>, k: real): (r: seq<real>)
    ensures |r| == |bs| && forall j :: 0 <= j < |bs| ==> r[j] == FreeLift(bs[j], k)
  {
    seq(|bs|, j requires 0 <= j < |bs| => FreeLift(bs[j], k))
  }

  lemma {:induction false} FreeShifts(bs: seq<real>, k: real, cap: real)
    requires cap <= 0.0
    ensures Sum(OtherShifts(bs, k, cap)) == Sum(FreeLifts(bs, k)) - k * Sum(bs)
  {
    hide OtherShift, FreeLift;
    if bs == [] { return; }
    var n := |bs| - 1;
    FreeShifts(bs[..n], k, cap);
    assert OtherShifts(bs, k, cap)[..n] == OtherShifts(bs[..n], k, cap);
    assert FreeLifts(bs, k)[..n] == FreeLifts(bs[..n], k);
    FreeShift(bs[n], k, cap);
    Spread(k, Sum(bs[..n]), bs[n]);
  }

  lemma Spread(k: real, a: real, b: real)
    ensures k * (a + b) == k * a + k * b
  {
  }

  lemma FreeShift(b: real, k: real, cap: real)
    requires cap <= 0.0
    ensures OtherShift(b, k, cap) == FreeLift(b, k) - k * b
  {
    assert (1.0 - k) * b == b - k * b;
  }

  lemma FreeGain(b: real, k: real, cap: real)
    requires cap <= 0.0 && MIN_CUSTOM_PROBABILITY <= b <= 1.0 && 0.0 < k <= 1.0
    ensures OwnGain(b, k, cap) == k * (1.0 - b)
  {
    ProductNonNegative(k, 1.0 - b);
  }

  /** With the leash off and the backed outcome at or above the minimum: if and only if the strength
      times the rest of the book covers its own share of the lifts. */
  lemma UnleashedIff(base: seq<real>, liability: Liability, i: nat, money: seq<real>)
    requires |base| == |money| && FirstOn(money, i) && Trades(liability) && liability.maxShiftBp <= 0.0 && Sum(base) == 1.0
    requires (forall j :: 0 <= j < |base| ==> base[j] > 0.0) && base[i] >= MIN_CUSTOM_PROBABILITY
    ensures var k := Strength(liability);
            Priced(base, money, liability)[i] >= base[i] <==> k * (1.0 - base[i]) >= base[i] * Sum(FreeLifts(Without(base, i), k))
  {
    hide Sum, Strength, OwnGain, OtherShift, Priced, FreeLift;
    var k, cap := Strength(liability), ShiftCap(liability);
    assert cap == 0.0;
    AtMostWhole(base, i);
    FirstMoneyIff(base, liability, i, money);
    FreeGain(base[i], k, cap);
    SumWithout(base, i);
    FreeShifts(Without(base, i), k, cap);
    Rearranged(base[i], k * (1.0 - base[i]), Sum(FreeLifts(Without(base, i), k)), Sum(OtherShifts(Without(base, i), k, cap)));
  }

  lemma Rearranged(b: real, g: real, lifts: real, shifts: real)
    requires shifts == lifts - g
    ensures g * (1.0 - b) >= b * shifts <==> g >= b * lifts
  {
    assert b * shifts == b * lifts - b * g;
    assert g * (1.0 - b) == g - b * g;
  }

  /** Under the minimum it can: a book of two, the other outcome at one in a million, and a leash of the
      same length. */
  lemma FirstMoneyCanLower()
    ensures Priced([0.999999, 0.000001], [1.0, 0.0], Trading(true, 10000.0, 0.01))[0] < 0.999999
  {
    hide Sum, Strength, ShiftCap, OwnGain, OtherShift, Priced;
    var base, money, liability := [0.999999, 0.000001], [1.0, 0.0], Trading(true, 10000.0, 0.01);
    PairTotal(0.999999, 0.000001);
    FullStrength();
    FirstMoneyIff(base, liability, 0, money);
    assert Without(base, 0) == [0.000001];
    var shifts := OtherShifts([0.000001], 1.0, 0.000001);
    SmallGain();
    assert shifts == [0.000099];
    assert [0.000099][..0] == [];
    OneTotal(0.000099);
  }

  lemma PairTotal(x: real, y: real)
    ensures Sum([x, y]) == x + y
  {
    OneTotal(x);
    assert [x, y] == [x] + [y];
    SumAppend([x], y);
  }

  lemma OneTotal(x: real)
    ensures Sum([x]) == x
  {
    assert [] + [x] == [x];
    SumAppend([], x);
  }

  lemma SmallGain()
    ensures OwnGain(0.999999, 1.0, 0.000001) == 0.000001 && OtherShift(0.000001, 1.0, 0.000001) == 0.000099
  {
  }

  lemma FullStrength()
    ensures Strength(Trading(true, 10000.0, 0.01)) == 1.0 && ShiftCap(Trading(true, 10000.0, 0.01)) == 0.000001
  {
  }
}
