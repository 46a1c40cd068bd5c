/** The browser's shared live connection (apps/web/src/lib/use-live-odds.ts) and the gateway end
    of each of its sockets, on values. */
module LiveLink {
  import opened Options
  import opened RefIndex
  import opened GatewayState
  import opened Gateway

  type SocketId = nat
  type HookId = nat

  const MAX_AUTH_RECONNECTS: nat := 2

  /** One WebSocket: what was sent on it, how much of that the gateway has handled, the match ids
      the gateway then holds for it, and whether the gateway has torn its end down. */
  datatype Socket = Socket(readyState: ReadyState, sent: seq<Inbound>, delivered: nat, remote: set<string>, released: bool)

  const NEW_SOCKET: Socket := Socket(Connecting, [], 0, {}, false)

  /** The shared connection object. `hooks` are the mounted hooks and the matches each covers. */
  datatype Link = Link(
    socket: Option<SocketId>,
    opening: bool,
    counts: map<string, nat>,
    hooks: map<HookId, set<string>>,
    sockets: map<SocketId, Socket>,
    nextSocket: SocketId,
    reconnectTimer: bool,
    helloSeen: bool,
    helloUserId: Option<string>,
    expectedUserId: Option<string>,
    expectedUserKnown: bool,
    authReconnects: nat)

  const IDLE: Link := Link(None, false, map[], map[], map[], 0, false, false, None, None, false, 0)

  /** The relation behind the counts, and the largest number of keys ever counted at once. */
  datatype Trace = Trace(members: map<string, set<HookId>>, held: set<(string, HookId)>, peak: nat)

  // ----- replaying what was sent -----

  ghost function Ids(ids: seq<string>): set<string> { set id | id in ids }

  /** What a frame asks for, without any cap. */
  ghost function Wants(held: set<string>, f: Inbound): set<string> {
    match f
    case SubscribeTo(ids) => held + Ids(ids)
    case UnsubscribeFrom(ids) => held - Ids(ids)
    case _ => held
  }

  ghost function Replay(sent: seq<Inbound>): set<string> {
    if sent == [] then {} else Wants(Replay(sent[..|sent| - 1]), sent[|sent| - 1])
  }

  /** What the gateway holds after handling frames in order, cap included. */
  ghost function Handles(sent: seq<Inbound>): set<string> {
    if sent == [] then {} else HandleIds(Handles(sent[..|sent| - 1]), sent[|sent| - 1])
  }

  ghost predicate Bounded(sent: seq<Inbound>, peak: nat) {
    forall k :: 0 <= k <= |sent| ==> |Replay(sent[..k])| <= peak
  }

  lemma {:induction false} SubscribeAllUncapped(held: set<string>, ids: seq<string>)
    requires |held + Ids(ids)| <= MAX_SUBSCRIPTIONS_PER_CLIENT
    ensures SubscribeAll(held, ids) == held + Ids(ids)
    decreases |ids|
  {
    if ids == [] {
      return;
    }
    assert Ids(ids) == {ids[0]} + Ids(ids[1..]);
    if |held| >= MAX_SUBSCRIPTIONS_PER_CLIENT {
      SameSize(held, held + Ids(ids));
    } else {
      assert held + {ids[0]} + Ids(ids[1..]) == held + Ids(ids);
      SubscribeAllUncapped(held + {ids[0]}, ids[1..]);
    }
  }

  lemma SameSize(a: set<string>, b: set<string>)
    requires a <= b && |b| <= |a|
    ensures a == b
  {
    assert b == a + (b - a);
    assert |b| == |a| + |b - a|;
  }

  lemma {:induction false} UnsubscribeAllIs(held: set<string>, ids: seq<string>)
    ensures UnsubscribeAll(held, ids) == held - Ids(ids)
    decreases |ids|
  {
    if ids != [] {
      UnsubscribeAllIs(held - {ids[0]}, ids[1..]);
      assert Ids(ids) == {ids[0]} + Ids(ids[1..]);
    }
  }

  /** As long as the replayed set never passes the gateway's cap, the cap never bites. */
  lemma {:induction false} CapNeverBites(sent: seq<Inbound>)
    requires Bounded(sent, MAX_SUBSCRIPTIONS_PER_CLIENT)
    ensures Handles(sent) == Replay(sent)
  {
    if sent != [] {
      var n := |sent| - 1;
      var rest, f := sent[..n], sent[n];
      assert sent[..|sent|] == sent;
      assert forall k :: 0 <= k <= n ==> rest[..k] == sent[..k];
      CapNeverBites(rest);
      match f {
        case SubscribeTo(ids) => SubscribeAllUncapped(Replay(rest), ids);
        case UnsubscribeFrom(ids) => UnsubscribeAllIs(Replay(rest), ids);
        case _ =>
      }
    }
  }

  lemma BoundedAppend(sent: seq<Inbound>, f: Inbound, peak: nat, peak': nat)
    requires Bounded(sent, peak) && peak <= peak' && |Wants(Replay(sent), f)| <= peak'
    ensures Bounded(sent + [f], peak') && Replay(sent + [f]) == Wants(Replay(sent), f)
  {
    var s := sent + [f];
    assert s[..|sent|] == sent && s[..|s|] == s;
    forall k | 0 <= k <= |s| ensures |Replay(s[..k])| <= peak' {
      if k <= |sent| { assert s[..k] == sent[..k]; }
    }
  }

  lemma BoundedMore(sent: seq<Inbound>, peak: nat, peak': nat)
    requires Bounded(sent, peak) && peak <= peak'
    ensures Bounded(sent, peak')
  {
  }

  // ----- invariants -----

  ghost predicate SocketOk(s: Socket, peak: nat) {
    && (s.readyState == Connecting ==> s.sent == [])
    && s.delivered <= |s.sent| && s.remote == (if s.released then {} else Handles(s.sent[..s.delivered]))
    && Bounded(s.sent, peak)
  }

  ghost predicate SocketsOk(sockets: map<SocketId, Socket>, peak: nat) {
    forall s :: s in sockets ==> SocketOk(sockets[s], peak)
  }

  /** Everything sent on the open socket the connection holds replays to the counted keys. */
  ghost predicate InStep(socket: Option<SocketId>, sockets: map<SocketId, Socket>, keys: set<string>) {
    socket.Some? ==>
      && socket.value in sockets
      && (sockets[socket.value].readyState == Open ==> Replay(sockets[socket.value].sent) == keys)
  }

  ghost predicate Core(l: Link, t: Trace) {
    && Represents(l.counts, t.members, t.held)
    && |l.counts.Keys| <= t.peak
    && SocketsOk(l.sockets, t.peak)
    && InStep(l.socket, l.sockets, l.counts.Keys)
    && (forall s :: s in l.sockets ==> s < l.nextSocket)
  }

  /** `held` is exactly "mounted hook h covers match m". */
  ghost predicate Covers(hooks: map<HookId, set<string>>, held: set<(string, HookId)>) {
    && (forall p :: p in held ==> p.1 in hooks && p.0 in hooks[p.1])
    && (forall h, m :: h in hooks && m in hooks[h] ==> (m, h) in held)
  }

  ghost predicate LinkInv(l: Link, t: Trace) { Core(l, t) && Covers(l.hooks, t.held) }

  lemma IdleInv()
    ensures LinkInv(IDLE, Trace(map[], {}, 0))
  {
  }

  // ----- sending -----

  predicate SocketOpen(l: Link) {
    l.socket.Some? && l.socket.value in l.sockets && l.sockets[l.socket.value].readyState == Open
  }

  function Transmit(l: Link, f: Inbound): Link {
    if !SocketOpen(l) then l
    else
      var s := l.sockets[l.socket.value];
      l.(sockets := l.sockets[l.socket.value := s.(sent := s.sent + [f])])
  }

  lemma SocketSends(s: Socket, f: Inbound, peak: nat, peak': nat)
    requires SocketOk(s, peak) && s.readyState == Open && peak <= peak' && |Wants(Replay(s.sent), f)| <= peak'
    ensures SocketOk(s.(sent := s.sent + [f]), peak')
    ensures Replay(s.sent + [f]) == Wants(Replay(s.sent), f)
  {
    hide Bounded, Replay, Handles, Wants;
    BoundedAppend(s.sent, f, peak, peak');
    assert (s.sent + [f])[..s.delivered] == s.sent[..s.delivered];
  }

  lemma PeakGrows(sockets: map<SocketId, Socket>, peak: nat, peak': nat)
    requires SocketsOk(sockets, peak) && peak <= peak'
    ensures SocketsOk(sockets, peak')
  {
    hide Bounded;
    forall s | s in sockets ensures SocketOk(sockets[s], peak') {
      BoundedMore(sockets[s].sent, peak, peak');
    }
  }

  lemma SocketReplaced(sockets: map<SocketId, Socket>, peak: nat, s: SocketId, x: Socket)
    requires SocketsOk(sockets, peak) && SocketOk(x, peak)
    ensures SocketsOk(sockets[s := x], peak)
  {
    hide SocketOk;
  }

  /** A frame that takes the replayed set to the new keys keeps the socket in step. */
  lemma TransmitKeeps(l: Link, f: Inbound, before: set<string>, after: set<string>, peak: nat, peak': nat)
    requires SocketsOk(l.sockets, peak) && InStep(l.socket, l.sockets, before)
    requires Wants(before, f) == after && peak <= peak' && |after| <= peak'
    ensures var r := Transmit(l, f);
            && SocketsOk(r.sockets, peak') && InStep(r.socket, r.sockets, after)
            && r == l.(sockets := r.sockets) && r.sockets.Keys == l.sockets.Keys
  {
    hide SocketOk, Replay, Wants;
    PeakGrows(l.sockets, peak, peak');
    if SocketOpen(l) {
      var s := l.sockets[l.socket.value];
      SocketSends(s, f, peak, peak');
      SocketReplaced(l.sockets, peak', l.socket.value, s.(sent := s.sent + [f]));
    }
  }

  // ----- bumpSubscription -----

  function BumpUp(l: Link, m: string): Link {
    var l' := l.(counts := Increment(l.counts, m));
    if CountOf(l.counts, m) == 0 then Transmit(l', SubscribeTo([m])) else l'
  }

  function BumpDown(l: Link, m: string): Link {
    var l' := l.(counts := Decrement(l.counts, m));
    if CountOf(l.counts, m) <= 1 then Transmit(l', UnsubscribeFrom([m])) else l'
  }

  ghost function Raised(peak: nat, counts: map<string, nat>): nat {
    if |counts.Keys| > peak then |counts.Keys| else peak
  }

  lemma SubscribeWants(keys: set<string>, m: string)
    ensures Wants(keys, SubscribeTo([m])) == keys + {m}
    ensures Wants(keys, UnsubscribeFrom([m])) == keys - {m}
  {
  }

  lemma BumpUpKeeps(l: Link, t: Trace, m: string, h: HookId)
    requires Core(l, t) && (m, h) !in t.held
    ensures var l' := BumpUp(l, m);
            Core(l', Trace(AddMember(t.members, m, h), t.held + {(m, h)}, Raised(t.peak, l'.counts)))
    ensures BumpUp(l, m).hooks == l.hooks
  {
    hide Represents, Increment, CountOf, AddMember, SocketsOk, InStep, Wants, Transmit;
    var l1 := l.(counts := Increment(l.counts, m));
    var peak := Raised(t.peak, l1.counts);
    Added(l.counts, t.members, t.held, m, h);
    IncrementKeys(l.counts, m);
    PeakGrows(l.sockets, t.peak, peak);
    if CountOf(l.counts, m) == 0 {
      SubscribeWants(l.counts.Keys, m);
      TransmitKeeps(l1, SubscribeTo([m]), l.counts.Keys, l1.counts.Keys, t.peak, peak);
    } else {
      assert l1.counts.Keys == l.counts.Keys;
    }
  }

  lemma BumpDownKeeps(l: Link, t: Trace, m: string, h: HookId)
    requires Core(l, t) && (m, h) in t.held
    ensures Core(BumpDown(l, m), Trace(RemoveMember(t.members, m, h), t.held - {(m, h)}, t.peak))
    ensures BumpDown(l, m).hooks == l.hooks
  {
    hide Represents, Decrement, CountOf, RemoveMember, SocketsOk, InStep, Wants, Transmit;
    var l1 := l.(counts := Decrement(l.counts, m));
    Removed(l.counts, t.members, t.held, m, h);
    DecrementKeys(l.counts, m);
    if CountOf(l.counts, m) <= 1 {
      SubscribeWants(l.counts.Keys, m);
      FewerKeys(l.counts.Keys, m);
      TransmitKeeps(l1, UnsubscribeFrom([m]), l.counts.Keys, l1.counts.Keys, t.peak, t.peak);
    }
  }

  lemma FewerKeys(keys: set<string>, m: string)
    ensures |keys - {m}| <= |keys|
  {
    if m in keys { assert |keys - {m}| == |keys| - 1; } else { assert keys - {m} == keys; }
  }

  // ----- socket lifecycle -----

  /** Open a new socket unless the held one is open or connecting, or one is being opened. A
      held socket that is closing does not prevent it. */
  function EnsureConnected(l: Link): Link {
    if l.socket.Some? && l.socket.value in l.sockets && l.sockets[l.socket.value].readyState in {Open, Connecting} then l
    else if l.opening then l
    else l.(opening := true, socket := Some(l.nextSocket), nextSocket := l.nextSocket + 1,
            sockets := l.sockets[l.nextSocket := NEW_SOCKET])
  }

  lemma NewSocketOk(peak: nat)
    ensures SocketOk(NEW_SOCKET, peak)
  {
    var none: seq<Inbound> := [];
    assert none[..0] == none;
  }

  lemma EnsureConnectedKeeps(l: Link, t: Trace)
    requires LinkInv(l, t)
    ensures LinkInv(EnsureConnected(l), t)
  {
    hide Represents, SocketOk, Replay;
    NewSocketOk(t.peak);
    SocketReplaced(l.sockets, t.peak, l.nextSocket, NEW_SOCKET);
  }

  /** The open event of any socket that was connecting, held or not: resubscribe every counted
      key on it. `keys` lists them in some order. */
  function OnOpen(l: Link, s: SocketId, keys: seq<string>): Link
    requires s in l.sockets
  {
    var x := l.sockets[s].(readyState := Open);
    l.(opening := false, sockets := l.sockets[s := if keys == [] then x else x.(sent := x.sent + [SubscribeTo(keys)])])
  }

  lemma OpenedSocket(s: Socket, keys: seq<string>, peak: nat)
    requires SocketOk(s, peak) && s.readyState == Connecting && |Ids(keys)| <= peak
    ensures var x := s.(readyState := Open); var y := if keys == [] then x else x.(sent := x.sent + [SubscribeTo(keys)]);
            SocketOk(y, peak) && Replay(y.sent) == Ids(keys)
  {
    var x := s.(readyState := Open);
    if keys != [] {
      SocketSends(x, SubscribeTo(keys), peak, peak);
      assert Wants({}, SubscribeTo(keys)) == Ids(keys);
    }
  }

  lemma OnOpenKeeps(l: Link, t: Trace, s: SocketId, keys: seq<string>)
    requires LinkInv(l, t) && s in l.sockets && l.sockets[s].readyState == Connecting && Ids(keys) == l.counts.Keys
    ensures LinkInv(OnOpen(l, s, keys), t)
  {
    hide Represents, SocketOk, Replay, Ids;
    var x := l.sockets[s].(readyState := Open);
    var y := if keys == [] then x else x.(sent := x.sent + [SubscribeTo(keys)]);
    OpenedSocket(l.sockets[s], keys, t.peak);
    SocketReplaced(l.sockets, t.peak, s, y);
  }

  /** The close event of any socket, held or not: the connection forgets whichever socket it
      holds, and a reconnect is scheduled if anyone still listens. */
  function OnClose(l: Link, s: SocketId, otherListeners: bool): Link
    requires s in l.sockets
  {
    l.(opening := false, socket := None, helloSeen := false, helloUserId := None,
       sockets := l.sockets[s := l.sockets[s].(readyState := Closed)],
       reconnectTimer := l.reconnectTimer || l.counts != map[] || otherListeners)
  }

  /** A socket starts closing: asked to, or because the other end went away. */
  function StartClosing(l: Link, s: SocketId): Link
    requires s in l.sockets
  {
    l.(sockets := l.sockets[s := l.sockets[s].(readyState := Closing)])
  }

  lemma Restated(s: Socket, r: ReadyState, peak: nat)
    requires SocketOk(s, peak) && r != Connecting
    ensures SocketOk(s.(readyState := r), peak)
  {
  }

  lemma OnCloseKeeps(l: Link, t: Trace, s: SocketId, otherListeners: bool)
    requires LinkInv(l, t) && s in l.sockets
    ensures LinkInv(OnClose(l, s, otherListeners), t)
  {
    hide Represents, SocketOk, Replay;
    Restated(l.sockets[s], Closed, t.peak);
    SocketReplaced(l.sockets, t.peak, s, l.sockets[s].(readyState := Closed));
  }

  lemma StartClosingKeeps(l: Link, t: Trace, s: SocketId)
    requires LinkInv(l, t) && s in l.sockets
    ensures LinkInv(StartClosing(l, s), t)
  {
    hide Represents, SocketOk, Replay;
    Restated(l.sockets[s], Closing, t.peak);
    SocketReplaced(l.sockets, t.peak, s, l.sockets[s].(readyState := Closing));
  }

  /** A frame of this socket is on its way to a gateway that still serves it. */
  predicate InFlight(l: Link, s: SocketId) {
    s in l.sockets && !l.sockets[s].released && l.sockets[s].delivered < |l.sockets[s].sent|
  }

  /** The gateway handles the next frame of a socket, in order. */
  function Deliver(l: Link, s: SocketId): Link
    requires InFlight(l, s)
  {
    var x := l.sockets[s];
    l.(sockets := l.sockets[s := x.(delivered := x.delivered + 1, remote := HandleIds(x.remote, x.sent[x.delivered]))])
  }

  lemma OneDelivered(x: Socket, peak: nat)
    requires SocketOk(x, peak) && !x.released && x.delivered < |x.sent|
    ensures SocketOk(x.(delivered := x.delivered + 1, remote := HandleIds(x.remote, x.sent[x.delivered])), peak)
  {
    hide Bounded, HandleIds;
    assert x.sent[..x.delivered + 1][..x.delivered] == x.sent[..x.delivered];
  }

  lemma DeliverKeeps(l: Link, t: Trace, s: SocketId)
    requires LinkInv(l, t) && InFlight(l, s)
    ensures LinkInv(Deliver(l, s), t)
  {
    hide Represents, SocketOk, Replay;
    var x := l.sockets[s];
    OneDelivered(x, t.peak);
    SocketReplaced(l.sockets, t.peak, s,
                   x.(delivered := x.delivered + 1, remote := HandleIds(x.remote, x.sent[x.delivered])));
  }

  /** The gateway tears its end down, on eviction or in a sweep; no further frame reaches it. The
      browser's end is not told yet. */
  function ReleaseRemote(l: Link, s: SocketId): Link
    requires s in l.sockets
  {
    l.(sockets := l.sockets[s := l.sockets[s].(remote := {}, released := true)])
  }

  lemma OneReleased(x: Socket, peak: nat)
    requires SocketOk(x, peak)
    ensures SocketOk(x.(remote := {}, released := true), peak)
  {
  }

  lemma ReleaseRemoteKeeps(l: Link, t: Trace, s: SocketId)
    requires LinkInv(l, t) && s in l.sockets
    ensures LinkInv(ReleaseRemote(l, s), t)
  {
    hide Represents, SocketOk, Replay;
    OneReleased(l.sockets[s], t.peak);
    SocketReplaced(l.sockets, t.peak, s, l.sockets[s].(remote := {}, released := true));
  }

  // ----- session identity -----

  /** Close the held socket when the gateway's view of the session is stale, at most
      `MAX_AUTH_RECONNECTS` times in a row. */
  function Reconcile(l: Link): Link {
    if !l.helloSeen || !l.expectedUserKnown then l
    else if l.helloUserId == l.expectedUserId then l.(authReconnects := 0)
    else if l.authReconnects >= MAX_AUTH_RECONNECTS then l
    else
      var r := l.(authReconnects := l.authReconnects + 1, helloSeen := false);
      if r.socket.Some? && r.socket.value in r.sockets && r.sockets[r.socket.value].readyState != Closed
      then StartClosing(r, r.socket.value) else r
  }

  function OnHello(l: Link, userId: Option<string>): Link {
    Reconcile(l.(helloUserId := userId, helloSeen := true))
  }

  function SetExpectedUser(l: Link, userId: Option<string>): Link {
    if l.expectedUserKnown && l.expectedUserId == userId then l
    else Reconcile(l.(expectedUserId := userId, expectedUserKnown := true, authReconnects := 0))
  }

  lemma ReconcileKeeps(l: Link, t: Trace)
    requires LinkInv(l, t)
    ensures LinkInv(Reconcile(l), t)
  {
    hide Represents, SocketsOk, Replay, InStep;
    var r := l.(authReconnects := l.authReconnects + 1, helloSeen := false);
    assert LinkInv(r, t);
    if r.socket.Some? && r.socket.value in r.sockets { StartClosingKeeps(r, t, r.socket.value); }
  }

  // ----- end to end -----

  /** A key's count is the number of mounted hooks covering it, and keys without one are absent. */
  lemma CountsAreHooks(l: Link, t: Trace, m: string)
    requires LinkInv(l, t)
    ensures CountOf(l.counts, m) == |set h | h in l.hooks && m in l.hooks[h]|
    ensures m in l.counts <==> exists h :: h in l.hooks && m in l.hooks[h]
  {
    hide SocketsOk, InStep;
    CountIsSize(l.counts, t.members, t.held, m);
    assert MembersOf(t.members, m) == set h | h in l.hooks && m in l.hooks[h];
  }

  /** The matches some mounted hook covers. */
  ghost function Covered(hooks: map<HookId, set<string>>): set<string> {
    set h, m | h in hooks && m in hooks[h] :: m
  }

  lemma KeysAreCovered(l: Link, t: Trace)
    requires LinkInv(l, t)
    ensures l.counts.Keys == Covered(l.hooks)
  {
    forall m ensures m in l.counts <==> m in Covered(l.hooks) {
      CountsAreHooks(l, t, m);
    }
  }

  /** The gateway has handled everything the browser sent on the open socket it holds. */
  predicate Drained(l: Link) {
    SocketOpen(l) && l.sockets[l.socket.value].delivered == |l.sockets[l.socket.value].sent|
  }

  /** With the frames of the open held socket handled and at most a hundred keys ever wanted, the
      gateway holds for it exactly the matches some mounted hook covers, unless it has torn its end
      down, and then nothing. */
  lemma EndToEnd(l: Link, t: Trace)
    requires LinkInv(l, t) && Drained(l) && t.peak <= MAX_SUBSCRIPTIONS_PER_CLIENT
    ensures var x := l.sockets[l.socket.value];
            x.remote == if x.released then {} else Covered(l.hooks)
  {
    hide Represents, Handles, Replay;
    var x := l.sockets[l.socket.value];
    assert x.sent[..|x.sent|] == x.sent;
    assert SocketOk(x, t.peak);
    BoundedMore(x.sent, t.peak, MAX_SUBSCRIPTIONS_PER_CLIENT);
    CapNeverBites(x.sent);
    KeysAreCovered(l, t);
  }

  // ----- whole mounts -----

  function BumpAll(l: Link, ms: seq<string>): Link {
    if ms == [] then l else BumpUp(BumpAll(l, ms[..|ms| - 1]), ms[|ms| - 1])
  }

  function DropAll(l: Link, ms: seq<string>): Link {
    if ms == [] then l else BumpDown(DropAll(l, ms[..|ms| - 1]), ms[|ms| - 1])
  }

  ghost function Pairs(h: HookId, ms: set<string>): set<(string, HookId)> { set m | m in ms :: (m, h) }

  /** `ms` lists a set, each element once. */
  ghost predicate Lists(ms: seq<string>, all: set<string>) {
    Ids(ms) == all && forall i, j :: 0 <= i < j < |ms| ==> ms[i] != ms[j]
  }

  lemma ListsPrefix(ms: seq<string>)
    requires ms != [] && Lists(ms, Ids(ms))
    ensures var rest, m := ms[..|ms| - 1], ms[|ms| - 1];
            && Lists(rest, Ids(rest)) && m !in Ids(rest) && Ids(ms) == Ids(rest) + {m}
            && forall h: HookId :: Pairs(h, Ids(ms)) == Pairs(h, Ids(rest)) + {(m, h)} && (m, h) !in Pairs(h, Ids(rest))
  {
    var rest, m := ms[..|ms| - 1], ms[|ms| - 1];
    assert ms == rest + [m];
    assert Ids(ms) == Ids(rest) + {m};
  }

  lemma MoreKeys(a: set<string>, b: set<string>)
    requires a <= b
    ensures |a| <= |b|
  {
    assert b == a + (b - a);
  }

  /** Counting up a hook's matches, in any order: the pairs are held and the peak is the larger of
      the old one and the keys now counted. */
  lemma {:induction false} BumpAllKeeps(l: Link, t: Trace, ms: seq<string>, h: HookId) returns (t': Trace)
    requires Core(l, t) && Lists(ms, Ids(ms)) && forall m :: m in ms ==> (m, h) !in t.held
    ensures Core(BumpAll(l, ms), t') && t'.held == t.held + Pairs(h, Ids(ms))
    ensures t'.peak == Raised(t.peak, BumpAll(l, ms).counts) && l.counts.Keys <= BumpAll(l, ms).counts.Keys
    ensures BumpAll(l, ms).hooks == l.hooks
  {
    hide BumpUp, AddMember, Core, Pairs, Ids, Lists, Raised;
    if ms == [] {
      NoPairs(h);
      KeysWithinPeak(l, t);
      return t;
    }
    var rest, m := ms[..|ms| - 1], ms[|ms| - 1];
    ListsPrefix(ms);
    var r := BumpAllKeeps(l, t, rest, h);
    var x := BumpAll(l, rest);
    BumpUpKeeps(x, r, m, h);
    BumpUpKeys(x, m);
    RaisedTwice(t.peak, x.counts, BumpUp(x, m).counts);
    t' := Trace(AddMember(r.members, m, h), r.held + {(m, h)}, Raised(r.peak, BumpUp(x, m).counts));
  }

  lemma NoPairs(h: HookId)
    ensures Pairs(h, Ids([])) == {}
  {
  }

  lemma KeysWithinPeak(l: Link, t: Trace)
    requires Core(l, t)
    ensures Raised(t.peak, l.counts) == t.peak
  {
  }

  lemma RaisedTwice(peak: nat, before: map<string, nat>, after: map<string, nat>)
    requires before.Keys <= after.Keys
    ensures Raised(Raised(peak, before), after) == Raised(peak, after)
  {
    MoreKeys(before.Keys, after.Keys);
  }

  lemma BumpUpKeys(l: Link, m: string)
    ensures BumpUp(l, m).counts.Keys == l.counts.Keys + {m}
  {
  }

  /** Counting a hook's matches down, in any order. */
  lemma {:induction false} DropAllKeeps(l: Link, t: Trace, ms: seq<string>, h: HookId) returns (t': Trace)
    requires Core(l, t) && Lists(ms, Ids(ms)) && forall m :: m in ms ==> (m, h) in t.held
    ensures Core(DropAll(l, ms), t') && t'.held == t.held - Pairs(h, Ids(ms)) && t'.peak == t.peak
    ensures DropAll(l, ms).hooks == l.hooks
  {
    hide BumpDown, RemoveMember, Core, Pairs, Ids, Lists;
    if ms == [] {
      NoPairs(h);
      return t;
    }
    var rest, m := ms[..|ms| - 1], ms[|ms| - 1];
    ListsPrefix(ms);
    var r := DropAllKeeps(l, t, rest, h);
    BumpDownKeeps(DropAll(l, rest), r, m, h);
    t' := Trace(RemoveMember(r.members, m, h), r.held - {(m, h)}, r.peak);
  }

  /** Counting never changes which sockets there are, their states, or which one is held. */
  ghost predicate SameEnds(a: Link, b: Link) {
    && b == a.(counts := b.counts, sockets := b.sockets) && b.sockets.Keys == a.sockets.Keys
    && forall s :: s in a.sockets ==> b.sockets[s] == a.sockets[s].(sent := b.sockets[s].sent)
  }

  lemma BumpEnds(l: Link, m: string)
    ensures SameEnds(l, BumpUp(l, m)) && SameEnds(l, BumpDown(l, m))
  {
    hide Increment, Decrement, CountOf;
    TransmitEnds(l.(counts := Increment(l.counts, m)), SubscribeTo([m]));
    TransmitEnds(l.(counts := Decrement(l.counts, m)), UnsubscribeFrom([m]));
  }

  lemma TransmitEnds(l: Link, f: Inbound)
    ensures SameEnds(l, Transmit(l, f)) && Transmit(l, f).counts == l.counts
  {
  }

  lemma EndsTwice(a: Link, b: Link, c: Link)
    requires SameEnds(a, b) && SameEnds(b, c)
    ensures SameEnds(a, c)
  {
  }

  lemma {:induction false} BumpAllEnds(l: Link, ms: seq<string>)
    ensures SameEnds(l, BumpAll(l, ms))
  {
    hide BumpUp;
    if ms == [] { return; }
    var n := |ms| - 1;
    BumpAllEnds(l, ms[..n]);
    BumpEnds(BumpAll(l, ms[..n]), ms[n]);
    EndsTwice(l, BumpAll(l, ms[..n]), BumpAll(l, ms));
  }

  lemma {:induction false} DropAllEnds(l: Link, ms: seq<string>)
    ensures SameEnds(l, DropAll(l, ms))
  {
    hide BumpDown;
    if ms == [] { return; }
    var n := |ms| - 1;
    DropAllEnds(l, ms[..n]);
    BumpEnds(DropAll(l, ms[..n]), ms[n]);
    EndsTwice(l, DropAll(l, ms[..n]), DropAll(l, ms));
  }

  /** A hook mounts: it is registered, its matches are counted up, a connection is ensured. */
  function MountLink(l: Link, h: HookId, matches: set<string>, ms: seq<string>): Link {
    EnsureConnected(BumpAll(l.(hooks := l.hooks[h := matches]), ms))
  }

  /** A hook unmounts: its registration goes and its matches are counted down. */
  function UnmountLink(l: Link, h: HookId, ms: seq<string>): Link {
    DropAll(l.(hooks := l.hooks - {h}), ms)
  }

  /** The counts and sockets do not depend on the registrations. */
  lemma HooksApart(l: Link, t: Trace, hooks: map<HookId, set<string>>)
    requires Core(l, t)
    ensures Core(l.(hooks := hooks), t)
  {
    hide Represents, SocketsOk, InStep;
  }

  lemma CoversMount(hooks: map<HookId, set<string>>, held: set<(string, HookId)>, h: HookId, matches: set<string>)
    requires Covers(hooks, held) && h !in hooks
    ensures Covers(hooks[h := matches], held + Pairs(h, matches)) && forall m :: (m, h) !in held
  {
  }

  lemma CoversUnmount(hooks: map<HookId, set<string>>, held: set<(string, HookId)>, h: HookId)
    requires Covers(hooks, held) && h in hooks
    ensures Covers(hooks - {h}, held - Pairs(h, hooks[h])) && forall m :: m in hooks[h] ==> (m, h) in held
  {
  }

  lemma MountKeeps(l: Link, t: Trace, h: HookId, matches: set<string>, ms: seq<string>) returns (t': Trace)
    requires LinkInv(l, t) && h !in l.hooks && Lists(ms, matches)
    ensures var r := MountLink(l, h, matches, ms);
            && LinkInv(r, t') && t'.peak == Raised(t.peak, r.counts)
            && r.hooks == l.hooks[h := matches]
  {
    hide Core, Covers, BumpAll, Pairs, EnsureConnected;
    var l1 := l.(hooks := l.hooks[h := matches]);
    HooksApart(l, t, l1.hooks);
    CoversMount(l.hooks, t.held, h, matches);
    t' := BumpAllKeeps(l1, t, ms, h);
    EnsureConnectedKeeps(BumpAll(l1, ms), t');
    ConnectionOnly(BumpAll(l1, ms));
  }

  /** Ensuring a connection touches only the connection; afterwards one is open or on its way. */
  lemma ConnectionOnly(l: Link)
    ensures var r := EnsureConnected(l);
            && r.counts == l.counts && r.hooks == l.hooks
            && (r.opening || (r.socket.Some? && r.socket.value in r.sockets
                              && r.sockets[r.socket.value].readyState in {Open, Connecting}))
  {
  }

  lemma UnmountKeeps(l: Link, t: Trace, h: HookId, ms: seq<string>) returns (t': Trace)
    requires LinkInv(l, t) && h in l.hooks && Lists(ms, l.hooks[h])
    ensures var r := UnmountLink(l, h, ms);
            LinkInv(r, t') && t'.peak == t.peak && r.hooks == l.hooks - {h}
  {
    hide Core, Covers, DropAll, Pairs;
    var l1 := l.(hooks := l.hooks - {h});
    HooksApart(l, t, l1.hooks);
    CoversUnmount(l.hooks, t.held, h);
    t' := DropAllKeeps(l1, t, ms, h);
  }

  lemma TimerCleared(l: Link, t: Trace)
    requires LinkInv(l, t)
    ensures LinkInv(l.(reconnectTimer := false), t)
  {
    hide Represents, SocketsOk, InStep;
  }

  lemma IdentityApart(l: Link, t: Trace, hello: Option<string>, expected: Option<string>, seen: bool, known: bool, n: nat)
    requires LinkInv(l, t)
    ensures LinkInv(l.(helloUserId := hello, helloSeen := seen, expectedUserId := expected, expectedUserKnown := known,
                   authReconnects := n), t)
  {
    hide Represents, SocketsOk, InStep;
  }
}
