/** Finite sums of real numbers, in the left-to-right order a source loop adds them. */
module RealSums {
  import opened Permutations

  function Sum(s: seq<real>): real {
    if s == [] then 0.0 else Sum(s[..|s| - 1]) + s[|s| - 1]
  }

  lemma {:induction false} SumAppend(s: seq<real>, x: real)
    ensures Sum(s + [x]) == Sum(s) + x
  {
    assert (s + [x])[..|s|] == s;
  }

  lemma {:induction false} SumConcat(s: seq<real>, t: seq<real>)
    ensures Sum(s + t) == Sum(s) + Sum(t)
  {
    if t == [] {
      assert s + t == s;
    } else {
      var t0, x := t[..|t| - 1], t[|t| - 1];
      assert s + t == (s + t0) + [x] && t == t0 + [x];
      SumAppend(s + t0, x);
      SumConcat(s, t0);
    }
  }

  /** Taking element `i` out of a sum lowers it by exactly that element. */
  lemma {:induction false} SumWithout(s: seq<real>, i: nat)
    requires i < |s|
    ensures Sum(s) == Sum(Without(s, i)) + s[i]
  {
    hide Sum;
    assert s == (s[..i] + [s[i]]) + s[i + 1..];
    SumConcat(s[..i] + [s[i]], s[i + 1..]);
    SumAppend(s[..i], s[i]);
    SumConcat(s[..i], s[i + 1..]);
  }

  /** A sum depends only on how often each term occurs. */
  lemma {:induction false} SumPermutation(s: seq<real>, t: seq<real>)
    requires multiset(s) == multiset(t)
    ensures Sum(s) == Sum(t)
    decreases |s|
  {
    SameLength(s, t);
    if s != [] {
      var i := DropLast(s, t);
      SumPermutation(s[..|s| - 1], Without(t, i));
      SumWithout(t, i);
    }
  }

  lemma {:induction false} SumScale(s: seq<real>, t: seq<real>, c: real)
    requires |s| == |t|
    requires forall i :: 0 <= i < |s| ==> t[i] == c * s[i]
    ensures Sum(t) == c * Sum(s)
  {
    if s != [] {
      SumScale(s[..|s| - 1], t[..|t| - 1], c);
    }
  }

  lemma {:induction false} SumDifference(s: seq<real>, t: seq<real>, d: seq<real>)
    requires |s| == |t| == |d|
    requires forall i :: 0 <= i < |s| ==> d[i] == s[i] - t[i]
    ensures Sum(d) == Sum(s) - Sum(t)
  {
    if s != [] {
      var k := |s| - 1;
      SumDifference(s[..k], t[..k], d[..k]);
    }
  }

  lemma {:induction false} SumMonotone(s: seq<real>, t: seq<real>)
    requires |s| == |t|
    requires forall i :: 0 <= i < |s| ==> s[i] <= t[i]
    ensures Sum(s) <= Sum(t)
  {
    if s != [] {
      SumMonotone(s[..|s| - 1], t[..|t| - 1]);
    }
  }

  lemma {:induction false} SumPositive(s: seq<real>)
    requires forall i :: 0 <= i < |s| ==> s[i] > 0.0
    ensures Sum(s) >= 0.0 && (s != [] ==> Sum(s) > 0.0)
  {
    if s != [] {
      SumPositive(s[..|s| - 1]);
    }
  }

  lemma {:induction false} SumNonNegative(s: seq<real>)
    requires forall i :: 0 <= i < |s| ==> s[i] >= 0.0
    ensures Sum(s) >= 0.0
    ensures forall i :: 0 <= i < |s| ==> s[i] <= Sum(s)
  {
    if s != [] {
      SumNonNegative(s[..|s| - 1]);
    }
  }

  lemma {:induction false} SumOfZeros(s: seq<real>)
    requires forall i :: 0 <= i < |s| ==> s[i] == 0.0
    ensures Sum(s) == 0.0
  {
    if s != [] { SumOfZeros(s[..|s| - 1]); }
  }

  /** The sum of `f` over the items of a list. */
  ghost function SumOf<T>(s: seq<T>, f: T -> real): real {
    if s == [] then 0.0 else SumOf(s[..|s| - 1], f) + f(s[|s| - 1])
  }

  lemma {:induction false} SumOfWithout<T>(s: seq<T>, f: T -> real, i: nat)
    requires i < |s|
    ensures SumOf(s, f) == SumOf(Without(s, i), f) + f(s[i])
    decreases |s|
  {
    var n := |s| - 1;
    if i == n {
      assert Without(s, i) == s[..n];
    } else {
      SumOfWithout(s[..n], f, i);
      assert Without(s, i)[..n - 1] == Without(s[..n], i);
      assert Without(s, i)[n - 1] == s[n];
    }
  }

  lemma {:induction false} SumOfPermutation<T>(s: seq<T>, t: seq<T>, f: T -> real)
    requires multiset(s) == multiset(t)
    ensures SumOf(s, f) == SumOf(t, f)
    decreases |s|
  {
    SameLength(s, t);
    if s != [] {
      var i := DropLast(s, t);
      SumOfPermutation(s[..|s| - 1], Without(t, i), f);
      SumOfWithout(t, f, i);
    }
  }

  lemma {:induction false} SumOfIs<T>(s: seq<T>, f: T -> real, terms: seq<real>)
    requires |terms| == |s| && forall i :: 0 <= i < |s| ==> terms[i] == f(s[i])
    ensures Sum(terms) == SumOf(s, f)
  {
    if s != [] {
      SumOfIs(s[..|s| - 1], f, terms[..|s| - 1]);
    }
  }
}
