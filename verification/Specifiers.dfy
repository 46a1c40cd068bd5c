/** Canonical market specifiers (packages/types/src/specifiers.ts). A specifier record is its
    entries in insertion order, keys pairwise distinct. */
module Specifiers {
  import opened Permutations
  import opened Strings
  import opened StableSort

  datatype Entry = Entry(key: string, value: string)

  ghost predicate DistinctKeys(es: seq<Entry>) {
    forall i, j :: 0 <= i < j < |es| ==> es[i].key != es[j].key
  }

  predicate CleanKey(k: string) { '=' !in k && '|' !in k }

  ghost predicate Clean(m: map<string, string>) {
    forall k :: k in m ==> CleanKey(k) && '|' !in m[k]
  }

  function MapOf(es: seq<Entry>): map<string, string> {
    if es == [] then map[] else MapOf(es[..|es| - 1])[es[|es| - 1].key := es[|es| - 1].value]
  }

  // ----- canonical -----

  function ByKey(): (Entry, Entry) -> bool { (a: Entry, b: Entry) => Less(a.key, b.key) }

  function Pair(e: Entry): string { e.key + ['='] + e.value }

  function Pairs(es: seq<Entry>): (ps: seq<string>)
    ensures |ps| == |es| && forall i :: 0 <= i < |es| ==> ps[i] == Pair(es[i])
  {
    seq(|es|, i requires 0 <= i < |es| => Pair(es[i]))
  }

  function Canonical(es: seq<Entry>): string { Join(Pairs(Sort(es, ByKey())), '|') }

  // ----- parse -----

  function ParsePair(m: map<string, string>, pair: string): map<string, string> {
    var eq := IndexOf(pair, '=');
    if eq == |pair| then m else m[pair[..eq] := pair[eq + 1..]]
  }

  function ParsePairs(pairs: seq<string>): map<string, string> {
    if pairs == [] then map[] else ParsePair(ParsePairs(pairs[..|pairs| - 1]), pairs[|pairs| - 1])
  }

  function Parsed(raw: string): map<string, string> {
    if raw == "" then map[] else ParsePairs(Split(raw, '|'))
  }

  method Parse(raw: string) returns (out: map<string, string>)
    ensures out == Parsed(raw) && Clean(out)
  {
    ParsedIsClean(raw);
    if raw == "" { return map[]; }
    out := map[];
    var pairs := Split(raw, '|');
    for i := 0 to |pairs|
      invariant out == ParsePairs(pairs[..i])
    {
      assert pairs[..i + 1][..i] == pairs[..i];
      var pair := pairs[i];
      var eq := IndexOf(pair, '=');
      if eq == |pair| { continue; }
      out := out[pair[..eq] := pair[eq + 1..]];
    }
    assert pairs[..|pairs|] == pairs;
  }

  /** Whatever the input, a parsed key holds neither separator and a parsed value no '|'. */
  lemma {:induction false} ParsePairsClean(pairs: seq<string>)
    requires forall i :: 0 <= i < |pairs| ==> '|' !in pairs[i]
    ensures Clean(ParsePairs(pairs))
  {
    if pairs != [] {
      var k := |pairs| - 1;
      ParsePairsClean(pairs[..k]);
      var p, eq := pairs[k], IndexOf(pairs[k], '=');
      if eq < |p| {
        assert forall c :: c in p[..eq] ==> c in p;
        assert forall c :: c in p[eq + 1..] ==> c in p;
      }
    }
  }

  lemma ParsedIsClean(raw: string)
    ensures Clean(Parsed(raw))
  {
    if raw != "" { ParsePairsClean(Split(raw, '|')); }
  }

  // ----- sorting -----

  ghost predicate Sorted(s: seq<Entry>) {
    forall i, j :: 0 <= i < j < |s| ==> Less(s[i].key, s[j].key)
  }

  lemma FromInsert(e: Entry, s: seq<Entry>, j: nat)
    requires j < |Insert(e, s, ByKey())|
    ensures Insert(e, s, ByKey())[j] == e || Insert(e, s, ByKey())[j] in s
  {
    InsertMultiset(e, s, ByKey());
    assert Insert(e, s, ByKey())[j] in multiset(Insert(e, s, ByKey()));
  }

  lemma {:induction false} InsertSorted(e: Entry, s: seq<Entry>)
    requires Sorted(s) && forall i :: 0 <= i < |s| ==> s[i].key != e.key
    ensures Sorted(Insert(e, s, ByKey()))
  {
    if s == [] {
      return;
    }
    if Less(e.key, s[0].key) {
      forall j | 0 <= j < |s| ensures Less(e.key, s[j].key) {
        if j > 0 { LessTransitive(e.key, s[0].key, s[j].key); }
      }
      Prepend(e, s);
      return;
    }
    LessTotal(e.key, s[0].key);
    InsertSorted(e, s[1..]);
    var t := Insert(e, s[1..], ByKey());
    forall j | 0 <= j < |t| ensures Less(s[0].key, t[j].key) {
      FromInsert(e, s[1..], j);
    }
    Prepend(s[0], t);
  }

  lemma Prepend(e: Entry, t: seq<Entry>)
    requires Sorted(t) && forall j :: 0 <= j < |t| ==> Less(e.key, t[j].key)
    ensures Sorted([e] + t)
  {
  }

  lemma {:induction false} SortSorts(es: seq<Entry>)
    requires DistinctKeys(es)
    ensures Sorted(Sort(es, ByKey())) && multiset(Sort(es, ByKey())) == multiset(es)
  {
    SortMultiset(es, ByKey());
    if es != [] {
      var k := |es| - 1;
      var s := Sort(es[..k], ByKey());
      assert Sort(es, ByKey()) == Insert(es[k], s, ByKey());
      hide Sort, Insert;
      SortSorts(es[..k]);
      forall i | 0 <= i < |s| ensures s[i].key != es[k].key {
        var j := Find(s, es[..k], s[i]);
      }
      InsertSorted(es[k], s);
    }
  }

  lemma SameHead(s: seq<Entry>, t: seq<Entry>)
    requires Sorted(s) && Sorted(t) && multiset(s) == multiset(t) && s != [] && t != []
    ensures s[0] == t[0]
  {
    var i := Find(s, t, s[0]);
    var j := Find(t, s, t[0]);
    if s[0] != t[0] {
      assert Less(t[0].key, t[i].key) && Less(s[0].key, s[j].key);
      LessAsymmetric(t[0].key, s[0].key);
    }
  }

  /** There is only one way to list given entries in key order. */
  lemma {:induction false} SortedUnique(s: seq<Entry>, t: seq<Entry>)
    requires Sorted(s) && Sorted(t) && multiset(s) == multiset(t)
    ensures s == t
  {
    SameLength(s, t);
    if s != [] {
      SameHead(s, t);
      WithoutMultiset(s, 0);
      WithoutMultiset(t, 0);
      Cancel(multiset(Without(s, 0)), multiset(Without(t, 0)), s[0]);
      assert Without(s, 0) == s[1..] && Without(t, 0) == t[1..];
      SortedUnique(s[1..], t[1..]);
    }
  }

  // ----- main results -----

  lemma {:induction false} MapOfHas(es: seq<Entry>)
    requires DistinctKeys(es)
    ensures forall i :: 0 <= i < |es| ==> es[i].key in MapOf(es) && MapOf(es)[es[i].key] == es[i].value
    ensures forall k :: k in MapOf(es) ==> exists i :: 0 <= i < |es| && es[i].key == k
  {
    if es != [] {
      var n := |es| - 1;
      MapOfHas(es[..n]);
      forall k | k in MapOf(es) ensures exists i :: 0 <= i < |es| && es[i].key == k {
        if k == es[n].key {
          assert es[n].key == k;
        } else {
          var i :| 0 <= i < |es[..n]| && es[..n][i].key == k;
          assert es[i].key == k;
        }
      }
    }
  }

  lemma MapOfPermutation(es: seq<Entry>, fs: seq<Entry>)
    requires DistinctKeys(es) && DistinctKeys(fs) && multiset(es) == multiset(fs)
    ensures MapOf(es) == MapOf(fs)
  {
    hide MapOf;
    MapOfHas(es);
    MapOfHas(fs);
    forall k | k in MapOf(es) ensures k in MapOf(fs) && MapOf(fs)[k] == MapOf(es)[k] {
      var i :| 0 <= i < |es| && es[i].key == k;
      var j := Find(es, fs, es[i]);
    }
    forall k | k in MapOf(fs) ensures k in MapOf(es) {
      var i :| 0 <= i < |fs| && fs[i].key == k;
      var j := Find(fs, es, fs[i]);
    }
  }

  lemma PairParses(m: map<string, string>, e: Entry)
    requires '=' !in e.key
    ensures ParsePair(m, Pair(e)) == m[e.key := e.value]
  {
    IndexOfConcat(e.key, '=', e.value);
    assert Pair(e)[..|e.key|] == e.key && Pair(e)[|e.key| + 1..] == e.value;
  }

  lemma {:induction false} PairsParse(es: seq<Entry>)
    requires forall i :: 0 <= i < |es| ==> '=' !in es[i].key
    ensures ParsePairs(Pairs(es)) == MapOf(es)
  {
    if es != [] {
      var n := |es| - 1;
      PairsParse(es[..n]);
      assert Pairs(es)[..n] == Pairs(es[..n]);
      PairParses(MapOf(es[..n]), es[n]);
    }
  }

  lemma SortedDistinct(s: seq<Entry>)
    requires Sorted(s)
    ensures DistinctKeys(s)
  {
    forall i, j | 0 <= i < j < |s| ensures s[i].key != s[j].key {
      LessIrreflexive(s[i].key);
    }
  }

  lemma JoinNonEmpty(ps: seq<string>)
    requires ps != [] && ps[0] != ""
    ensures Join(ps, '|') != ""
  {
  }

  lemma CleanRoundTrip(es: seq<Entry>)
    requires DistinctKeys(es) && Clean(MapOf(es))
    ensures Parsed(Canonical(es)) == MapOf(es)
  {
    hide MapOf, Sort, ParsePairs, Split, Join;
    var s := Sort(es, ByKey());
    SortSorts(es);
    SortedDistinct(s);
    MapOfPermutation(es, s);
    MapOfHas(s);
    if s == [] {
      assert multiset(es) == multiset{};
      EmptyRecord(es);
      return;
    }
    forall i | 0 <= i < |s| ensures '|' !in Pair(s[i]) && '=' !in s[i].key {
      assert s[i].key in MapOf(s);
    }
    JoinNonEmpty(Pairs(s));
    SplitJoin(Pairs(s), '|');
    PairsParse(s);
  }

  lemma EmptyRecord(es: seq<Entry>)
    requires multiset(es) == multiset{}
    ensures Parsed(Canonical(es)) == MapOf(es)
  {
    assert es == [] by { SameLength(es, []); }
    assert Pairs([]) == [];
  }

  /** Parsing the canonical form gives the record back exactly when no key holds '=' or '|'
      and no value holds '|'. */
  lemma RoundTripIff(es: seq<Entry>)
    requires DistinctKeys(es)
    ensures Parsed(Canonical(es)) == MapOf(es) <==> Clean(MapOf(es))
  {
    hide MapOf, Parsed, Canonical;
    if Clean(MapOf(es)) { CleanRoundTrip(es); }
    ParsedIsClean(Canonical(es));
  }

  /** The canonical form does not depend on insertion order. */
  lemma OrderIndependent(es: seq<Entry>, fs: seq<Entry>)
    requires DistinctKeys(es) && DistinctKeys(fs) && multiset(es) == multiset(fs)
    ensures Canonical(es) == Canonical(fs)
  {
    hide Sort, Join;
    SortSorts(es);
    SortSorts(fs);
    SortedUnique(Sort(es, ByKey()), Sort(fs, ByKey()));
  }

  /** Clean records with the same canonical form are the same record. */
  lemma CanonicalInjective(es: seq<Entry>, fs: seq<Entry>)
    requires DistinctKeys(es) && DistinctKeys(fs) && Clean(MapOf(es)) && Clean(MapOf(fs))
    requires Canonical(es) == Canonical(fs)
    ensures MapOf(es) == MapOf(fs)
  {
    hide MapOf, Parsed, Canonical;
    CleanRoundTrip(es);
    CleanRoundTrip(fs);
  }
}
