/** A reverse index (key -> members) kept beside a reference count (key -> number), as the
    gateway keeps one for matches, one for users and one for client addresses. `held` is the
    relation both stand for. */
module RefIndex {

  ghost predicate Represents<K, C>(refs: map<K, nat>, members: map<K, set<C>>, held: set<(K, C)>) {
    && refs.Keys == members.Keys
    && (forall k :: k in members ==> members[k] != {} && refs[k] == |members[k]|)
    && (forall k, c :: k in members && c in members[k] ==> (k, c) in held)
    && (forall p :: p in held ==> p.0 in members && p.1 in members[p.0])
  }

  function MembersOf<K, C>(members: map<K, set<C>>, k: K): set<C> {
    if k in members then members[k] else {}
  }

  function CountOf<K>(refs: map<K, nat>, k: K): nat { if k in refs then refs[k] else 0 }

  function AddMember<K, C>(members: map<K, set<C>>, k: K, c: C): map<K, set<C>> {
    members[k := MembersOf(members, k) + {c}]
  }

  function RemoveMember<K, C>(members: map<K, set<C>>, k: K, c: C): map<K, set<C>> {
    if k !in members then members
    else if members[k] - {c} == {} then members - {k}
    else members[k := members[k] - {c}]
  }

  function Increment<K>(refs: map<K, nat>, k: K): map<K, nat> { refs[k := CountOf(refs, k) + 1] }

  function Decrement<K>(refs: map<K, nat>, k: K): map<K, nat> {
    if CountOf(refs, k) <= 1 then refs - {k} else refs[k := refs[k] - 1]
  }

  /** A key's count is the number of its members, for every key. */
  lemma CountIsSize<K, C>(refs: map<K, nat>, members: map<K, set<C>>, held: set<(K, C)>, k: K)
    requires Represents(refs, members, held)
    ensures CountOf(refs, k) == |MembersOf(members, k)|
    ensures forall c :: c in MembersOf(members, k) <==> (k, c) in held
  {
  }

  lemma Added<K, C>(refs: map<K, nat>, members: map<K, set<C>>, held: set<(K, C)>, k: K, c: C)
    requires Represents(refs, members, held) && (k, c) !in held
    ensures Represents(Increment(refs, k), AddMember(members, k, c), held + {(k, c)})
    ensures k !in refs <==> CountOf(refs, k) == 0
  {
    CountIsSize(refs, members, held, k);
    var m := AddMember(members, k, c);
    assert |m[k]| == |MembersOf(members, k)| + 1;
    forall p | p in held + {(k, c)} ensures p.0 in m && p.1 in m[p.0] {
    }
  }

  lemma Removed<K, C>(refs: map<K, nat>, members: map<K, set<C>>, held: set<(K, C)>, k: K, c: C)
    requires Represents(refs, members, held) && (k, c) in held
    ensures Represents(Decrement(refs, k), RemoveMember(members, k, c), held - {(k, c)})
    ensures k in Decrement(refs, k) <==> CountOf(refs, k) > 1
  {
    CountIsSize(refs, members, held, k);
    assert |members[k] - {c}| == |members[k]| - 1;
    var m := RemoveMember(members, k, c);
    forall j, d | j in m && d in m[j] ensures (j, d) in held - {(k, c)} {
      assert d in members[j];
    }
    forall p | p in held - {(k, c)} ensures p.0 in m && p.1 in m[p.0] {
      assert p.1 in members[p.0];
      if p.0 == k { assert p.1 in members[k] - {c}; }
    }
  }

  lemma IncrementKeys<K>(refs: map<K, nat>, k: K)
    ensures Increment(refs, k).Keys == refs.Keys + {k}
    ensures k !in refs ==> CountOf(refs, k) == 0
  {
  }

  lemma DecrementKeys<K>(refs: map<K, nat>, k: K)
    ensures Decrement(refs, k).Keys == if CountOf(refs, k) <= 1 then refs.Keys - {k} else refs.Keys
  {
  }
}
