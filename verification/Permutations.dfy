/** Removing one occurrence of a shared element from two rearrangements of the same items. */
module Permutations {

  function Without<T>(s: seq<T>, i: nat): (r: seq<T>)
    requires i < |s|
    ensures |r| == |s| - 1
  {
    s[..i] + s[i + 1..]
  }

  lemma WithoutMultiset<T>(s: seq<T>, i: nat)
    requires i < |s|
    ensures multiset(s) == multiset(Without(s, i)) + multiset{s[i]}
  {
    assert s == s[..i] + ([s[i]] + s[i + 1..]);
  }

  lemma SameLength<T>(s: seq<T>, t: seq<T>)
    requires multiset(s) == multiset(t)
    ensures |s| == |t|
  {
    assert |s| == |multiset(s)| && |t| == |multiset(t)|;
  }

  lemma Cancel<T>(a: multiset<T>, b: multiset<T>, x: T)
    requires a + multiset{x} == b + multiset{x}
    ensures a == b
  {
    forall y ensures a[y] == b[y] {
      assert (a + multiset{x})[y] == (b + multiset{x})[y];
    }
  }

  lemma Find<T>(s: seq<T>, t: seq<T>, x: T) returns (i: nat)
    requires multiset(s) == multiset(t) && x in s
    ensures i < |t| && t[i] == x
  {
    assert x in multiset(s);
    assert x in multiset(t);
    assert x in t;
    i :| 0 <= i < |t| && t[i] == x;
  }

  /** The last element of `s` occurs somewhere in a rearrangement `t`; dropping it from both
      leaves rearrangements of one another. */
  lemma DropLast<T>(s: seq<T>, t: seq<T>) returns (i: nat)
    requires multiset(s) == multiset(t) && s != []
    ensures i < |t| && t[i] == s[|s| - 1]
    ensures multiset(s[..|s| - 1]) == multiset(Without(t, i))
  {
    var k := |s| - 1;
    i := Find(s, t, s[k]);
    WithoutMultiset(t, i);
    WithoutMultiset(s, k);
    assert Without(s, k) == s[..k];
    Cancel(multiset(s[..k]), multiset(Without(t, i)), s[k]);
  }
}
