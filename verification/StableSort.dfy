/** The runtime's stable sort, by insertion. */
module StableSort {

  function Insert<T>(x: T, s: seq<T>, before: (T, T) -> bool): seq<T> {
    if s == [] then [x] else if before(x, s[0]) then [x] + s else [s[0]] + Insert(x, s[1..], before)
  }

  function Sort<T>(s: seq<T>, before: (T, T) -> bool): seq<T> {
    if s == [] then [] else Insert(s[|s| - 1], Sort(s[..|s| - 1], before), before)
  }

  lemma {:induction false} InsertMultiset<T>(x: T, s: seq<T>, before: (T, T) -> bool)
    ensures multiset(Insert(x, s, before)) == multiset(s) + multiset{x}
  {
    if s != [] {
      assert s == [s[0]] + s[1..];
      if !before(x, s[0]) { InsertMultiset(x, s[1..], before); }
    }
  }

  /** Sorting rearranges. */
  lemma {:induction false} SortMultiset<T>(s: seq<T>, before: (T, T) -> bool)
    ensures multiset(Sort(s, before)) == multiset(s)
  {
    if s != [] {
      var n := |s| - 1;
      assert s == s[..n] + [s[n]];
      SortMultiset(s[..n], before);
      InsertMultiset(s[n], Sort(s[..n], before), before);
    }
  }

  lemma SortMembers<T>(s: seq<T>, before: (T, T) -> bool)
    ensures |Sort(s, before)| == |s|
    ensures forall x :: x in Sort(s, before) <==> x in s
  {
    SortMultiset(s, before);
    assert |multiset(s)| == |s| && |multiset(Sort(s, before))| == |Sort(s, before)|;
    forall x ensures x in Sort(s, before) <==> x in s {
      assert x in s <==> x in multiset(s);
      assert x in Sort(s, before) <==> x in multiset(Sort(s, before));
    }
  }

  /** The comparator never contradicts the key. */
  ghost predicate Follows<T(!new)>(before: (T, T) -> bool, key: T -> real) {
    forall x, y :: if before(x, y) then key(x) <= key(y) else key(y) <= key(x)
  }

  ghost predicate Ordered<T>(s: seq<T>, key: T -> real) {
    forall i, j :: 0 <= i < j < |s| ==> key(s[i]) <= key(s[j])
  }

  lemma {:induction false} InsertOrdered<T(!new)>(x: T, s: seq<T>, before: (T, T) -> bool, key: T -> real)
    requires Follows(before, key) && Ordered(s, key)
    ensures Ordered(Insert(x, s, before), key)
  {
    if s == [] || before(x, s[0]) { return; }
    var rest := Insert(x, s[1..], before);
    InsertOrdered(x, s[1..], before, key);
    InsertMultiset(x, s[1..], before);
    forall j | 0 <= j < |rest| ensures key(s[0]) <= key(rest[j]) {
      assert rest[j] in multiset(rest);
      if rest[j] != x {
        assert rest[j] in s[1..];
      }
    }
  }

  /** Sorting puts smaller keys first. */
  lemma {:induction false} SortOrdered<T(!new)>(s: seq<T>, before: (T, T) -> bool, key: T -> real)
    requires Follows(before, key)
    ensures Ordered(Sort(s, before), key)
  {
    if s != [] {
      SortOrdered(s[..|s| - 1], before, key);
      InsertOrdered(s[|s| - 1], Sort(s[..|s| - 1], before), before, key);
    }
  }

  /** A comparator the sort can rely on: never both ways, and "not after" chains. */
  ghost predicate Consistent<T(!new)>(before: (T, T) -> bool) {
    && (forall x, y :: before(x, y) ==> !before(y, x))
    && forall x, y, z :: !before(y, x) && !before(z, y) ==> !before(z, x)
  }

  ghost predicate InSequence<T>(s: seq<T>, before: (T, T) -> bool) {
    forall i, j :: 0 <= i < j < |s| ==> !before(s[j], s[i])
  }

  lemma {:induction false} InsertInSequence<T(!new)>(x: T, s: seq<T>, before: (T, T) -> bool)
    requires Consistent(before) && InSequence(s, before)
    ensures InSequence(Insert(x, s, before), before)
  {
    if s == [] { return; }
    if before(x, s[0]) {
      forall j | 0 <= j < |s| ensures !before(s[j], x) {
        if j > 0 { assert !before(s[j], s[0]) && !before(s[0], x); }
      }
      return;
    }
    var rest := Insert(x, s[1..], before);
    InsertInSequence(x, s[1..], before);
    InsertMultiset(x, s[1..], before);
    forall j | 0 <= j < |rest| ensures !before(rest[j], s[0]) {
      assert rest[j] in multiset(rest);
      if rest[j] != x {
        assert rest[j] in s[1..];
      }
    }
  }

  /** Sorting leaves no element before one that should precede it. */
  lemma {:induction false} SortInSequence<T(!new)>(s: seq<T>, before: (T, T) -> bool)
    requires Consistent(before)
    ensures InSequence(Sort(s, before), before)
  {
    if s != [] {
      SortInSequence(s[..|s| - 1], before);
      InsertInSequence(s[|s| - 1], Sort(s[..|s| - 1], before), before);
    }
  }
}
