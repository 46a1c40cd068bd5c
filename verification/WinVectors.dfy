/** Independent legs as an explicit sample space: every win/loss vector, its chance, and
    the mean of a payout that depends on the number of winning legs. Nothing here mentions
    the pricing recurrence; it is the reference the pricing code is measured against. */
module WinVectors {
  import opened Numbers

  ghost predicate IsProbability(p: real) { 0.0 < p < 1.0 }

  ghost predicate AreProbabilities(ps: seq<real>) {
    forall i :: 0 <= i < |ps| ==> IsProbability(ps[i])
  }

  ghost function Extend(vs: seq<seq<bool>>, b: bool): (r: seq<seq<bool>>)
    ensures |r| == |vs| && forall i :: 0 <= i < |vs| ==> r[i] == vs[i] + [b]
  {
    seq(|vs|, i requires 0 <= i < |vs| => vs[i] + [b])
  }

  /** All win/loss vectors for `n` legs. */
  ghost function Vectors(n: nat): (r: seq<seq<bool>>)
    ensures forall i :: 0 <= i < |r| ==> |r[i]| == n
  {
    if n == 0 then [[]] else Extend(Vectors(n - 1), true) + Extend(Vectors(n - 1), false)
  }

  ghost function Wins(v: seq<bool>): (w: nat)
    ensures w <= |v|
  {
    if v == [] then 0 else Wins(v[..|v| - 1]) + (if v[|v| - 1] then 1 else 0)
  }

  ghost function LegChance(p: real, won: bool): real { if won then p else 1.0 - p }

  /** The chance of one particular vector: the product over independent legs. */
  ghost function Chance(ps: seq<real>, v: seq<bool>): real
    requires |ps| == |v|
  {
    if ps == [] then 1.0
    else Chance(ps[..|ps| - 1], v[..|v| - 1]) * LegChance(ps[|ps| - 1], v[|v| - 1])
  }

  ghost function SumOver(vs: seq<seq<bool>>, f: seq<bool> -> real): real {
    if vs == [] then 0.0 else SumOver(vs[..|vs| - 1], f) + f(vs[|vs| - 1])
  }

  /** `pay[j]` is what a ticket with `j` winning legs returns, weighted by the vector's chance. */
  ghost function Term(ps: seq<real>, pay: seq<real>, v: seq<bool>): real {
    if |ps| == |v| && |pay| == |ps| + 1 then Chance(ps, v) * pay[Wins(v)] else 0.0
  }

  ghost function Weigh(ps: seq<real>, pay: seq<real>): seq<bool> -> real {
    v => Term(ps, pay, v)
  }

  /** The payout averaged over all 2^n win/loss vectors. */
  ghost function Mean(ps: seq<real>, pay: seq<real>): real
    requires |pay| == |ps| + 1
  {
    SumOver(Vectors(|ps|), Weigh(ps, pay))
  }

  /** Pays 1 exactly when at least `k` legs win. */
  ghost function AtLeastPay(n: nat, k: nat): (r: seq<real>)
    ensures |r| == n + 1 && forall j :: 0 <= j <= n ==> r[j] == if j >= k then 1.0 else 0.0
  {
    seq(n + 1, j => if j >= k then 1.0 else 0.0)
  }

  /** Pays 1 exactly when `k` legs win. */
  ghost function ExactlyPay(n: nat, k: nat): (r: seq<real>)
    ensures |r| == n + 1 && forall j :: 0 <= j <= n ==> r[j] == if j == k then 1.0 else 0.0
  {
    seq(n + 1, j => if j == k then 1.0 else 0.0)
  }

  ghost function AtLeast(ps: seq<real>, k: nat): real { Mean(ps, AtLeastPay(|ps|, k)) }

  ghost function Exactly(ps: seq<real>, k: nat): real { Mean(ps, ExactlyPay(|ps|, k)) }

  // ----- the enumeration is the sample space -----

  lemma ExtendDistinct(vs: seq<seq<bool>>, n: nat, b: bool)
    requires forall i :: 0 <= i < |vs| ==> |vs[i]| == n
    requires forall i, j :: 0 <= i < j < |vs| ==> vs[i] != vs[j]
    ensures forall i, j :: 0 <= i < j < |vs| ==> Extend(vs, b)[i] != Extend(vs, b)[j]
  {
    var r := Extend(vs, b);
    forall i, j | 0 <= i < j < |vs| ensures r[i] != r[j] {
      assert r[i][..n] == vs[i] && r[j][..n] == vs[j];
    }
  }

  lemma ConcatDistinct(xs: seq<seq<bool>>, ys: seq<seq<bool>>, n: nat)
    requires forall i :: 0 <= i < |xs| ==> |xs[i]| == n + 1 && xs[i][n]
    requires forall i :: 0 <= i < |ys| ==> |ys[i]| == n + 1 && !ys[i][n]
    requires forall i, j :: 0 <= i < j < |xs| ==> xs[i] != xs[j]
    requires forall i, j :: 0 <= i < j < |ys| ==> ys[i] != ys[j]
    ensures forall i, j :: 0 <= i < j < |xs + ys| ==> (xs + ys)[i] != (xs + ys)[j]
  {
  }

  /** 2^n vectors are listed, none twice. */
  lemma {:induction false} VectorsEnumerate(n: nat)
    ensures |Vectors(n)| as real == Pow2(n)
    ensures forall i, j :: 0 <= i < j < |Vectors(n)| ==> Vectors(n)[i] != Vectors(n)[j]
  {
    if n > 0 {
      VectorsEnumerate(n - 1);
      var vs := Vectors(n - 1);
      ExtendDistinct(vs, n - 1, true);
      ExtendDistinct(vs, n - 1, false);
      ConcatDistinct(Extend(vs, true), Extend(vs, false), n - 1);
    }
  }

  lemma ExtendHas(vs: seq<seq<bool>>, v: seq<bool>, b: bool)
    requires v in vs
    ensures v + [b] in Extend(vs, b)
  {
    var i :| 0 <= i < |vs| && vs[i] == v;
    assert Extend(vs, b)[i] == v + [b];
  }

  /** Every vector is listed. */
  lemma {:induction false} VectorsComplete(v: seq<bool>)
    ensures v in Vectors(|v|)
  {
    if v != [] {
      var n := |v| - 1;
      VectorsComplete(v[..n]);
      ExtendHas(Vectors(n), v[..n], v[n]);
      assert v == v[..n] + [v[n]];
    }
  }

  // ----- conditioning on the last leg -----

  /** What is left of a payout table once the last leg is known. */
  ghost function Rest(pay: seq<real>, won: bool): (r: seq<real>)
    requires pay != []
    ensures |r| == |pay| - 1
  {
    if won then pay[1..] else pay[..|pay| - 1]
  }

  lemma {:induction false} ExtendedChance(ps: seq<real>, v: seq<bool>, b: bool)
    requires |ps| == |v| + 1
    ensures Wins(v + [b]) == Wins(v) + (if b then 1 else 0)
    ensures Chance(ps, v + [b]) == Chance(ps[..|v|], v) * LegChance(ps[|v|], b)
  {
    assert (v + [b])[..|v|] == v;
  }

  lemma {:induction false} ExtendedTerm(ps: seq<real>, pay: seq<real>, v: seq<bool>, b: bool)
    requires |ps| == |v| + 1 && |pay| == |ps| + 1
    ensures Term(ps, pay, v + [b]) == LegChance(ps[|v|], b) * Term(ps[..|v|], Rest(pay, b), v)
  {
    ExtendedChance(ps, v, b);
    assert pay[Wins(v + [b])] == Rest(pay, b)[Wins(v)];
    var c, q, x := Chance(ps[..|v|], v), LegChance(ps[|v|], b), Rest(pay, b)[Wins(v)];
    assert (c * q) * x == q * (c * x);
  }

  lemma {:induction false} SumOverConcat(vs: seq<seq<bool>>, ws: seq<seq<bool>>, f: seq<bool> -> real)
    ensures SumOver(vs + ws, f) == SumOver(vs, f) + SumOver(ws, f)
  {
    if ws == [] {
      assert vs + ws == vs;
    } else {
      var k := |ws| - 1;
      assert (vs + ws)[..|vs| + k] == vs + ws[..k];
      SumOverConcat(vs, ws[..k], f);
    }
  }

  lemma {:induction false} SumOverExtend(vs: seq<seq<bool>>, b: bool,
                                         f: seq<bool> -> real, g: seq<bool> -> real, q: real)
    requires forall i :: 0 <= i < |vs| ==> f(vs[i] + [b]) == q * g(vs[i])
    ensures SumOver(Extend(vs, b), f) == q * SumOver(vs, g)
  {
    if vs != [] {
      var k := |vs| - 1;
      SumOverExtend(vs[..k], b, f, g, q);
      assert Extend(vs, b)[..k] == Extend(vs[..k], b);
      assert q * (SumOver(vs[..k], g) + g(vs[k])) == q * SumOver(vs[..k], g) + q * g(vs[k]);
    }
  }

  lemma WeighExtended(ps: seq<real>, pay: seq<real>, v: seq<bool>, b: bool)
    requires |ps| == |v| + 1 && |pay| == |ps| + 1
    ensures Weigh(ps, pay)(v + [b]) == LegChance(ps[|v|], b) * Weigh(ps[..|v|], Rest(pay, b))(v)
  {
    hide Term;
    ExtendedTerm(ps, pay, v, b);
  }

  lemma {:induction false} MeanGivenLast(ps: seq<real>, pay: seq<real>, b: bool, vs: seq<seq<bool>>)
    requires ps != [] && |pay| == |ps| + 1
    requires forall i :: 0 <= i < |vs| ==> |vs[i]| == |ps| - 1
    ensures SumOver(Extend(vs, b), Weigh(ps, pay))
            == LegChance(ps[|ps| - 1], b) * SumOver(vs, Weigh(ps[..|ps| - 1], Rest(pay, b)))
  {
    hide SumOver, Weigh, Rest, LegChance;
    var n := |ps| - 1;
    var f, g, q := Weigh(ps, pay), Weigh(ps[..n], Rest(pay, b)), LegChance(ps[n], b);
    forall i | 0 <= i < |vs| ensures f(vs[i] + [b]) == q * g(vs[i]) {
      WeighExtended(ps, pay, vs[i], b);
    }
    SumOverExtend(vs, b, f, g, q);
  }

  lemma {:induction false} MeanByLastLeg(ps: seq<real>, pay: seq<real>)
    requires ps != [] && |pay| == |ps| + 1
    ensures var n := |ps| - 1;
            Mean(ps, pay)
            == LegChance(ps[n], true) * Mean(ps[..n], Rest(pay, true))
               + LegChance(ps[n], false) * Mean(ps[..n], Rest(pay, false))
  {
    hide SumOver;
    var vs := Vectors(|ps| - 1);
    MeanGivenLast(ps, pay, true, vs);
    MeanGivenLast(ps, pay, false, vs);
    SumOverConcat(Extend(vs, true), Extend(vs, false), Weigh(ps, pay));
  }
}
