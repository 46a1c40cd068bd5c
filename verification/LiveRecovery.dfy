/** What the handlers of the live connection send and schedule, and that a lost connection comes back
    (apps/web/src/lib/use-live-odds.ts). */
module LiveRecovery {
  import opened Options
  import opened GatewayState
  import opened Gateway
  import opened LiveLink
  import opened LiveRuns

  /** The open socket the connection holds was sent `f` and nothing else; without one, nothing was sent. */
  ghost predicate SentOnly(a: Link, b: Link, f: Inbound) {
    if a.socket.Some? && a.socket.value in a.sockets && a.sockets[a.socket.value].readyState == Open
    then b.sockets == a.sockets[a.socket.value := a.sockets[a.socket.value].(sent := a.sockets[a.socket.value].sent + [f])]
    else b.sockets == a.sockets
  }

  /** Counting up: the first hook on a match subscribes to it, any further one sends nothing. */
  lemma FirstHookSubscribes(l: Link, m: string)
    ensures var r := BumpUp(l, m);
            && r == l.(counts := r.counts, sockets := r.sockets)
            && r.counts == l.counts[m := if m in l.counts then l.counts[m] + 1 else 1]
            && ((m !in l.counts || l.counts[m] == 0) ==> SentOnly(l, r, SubscribeTo([m])))
            && (m in l.counts && l.counts[m] > 0 ==> r.sockets == l.sockets)
  {
  }

  /** Counting down: the last hook on a match unsubscribes from it, any other sends nothing. */
  lemma LastHookUnsubscribes(l: Link, m: string)
    requires m in l.counts && l.counts[m] > 0
    ensures var r := BumpDown(l, m);
            && r == l.(counts := r.counts, sockets := r.sockets)
            && (l.counts[m] == 1 ==> r.counts == l.counts - {m} && SentOnly(l, r, UnsubscribeFrom([m])))
            && (l.counts[m] > 1 ==> r.counts == l.counts[m := l.counts[m] - 1] && r.sockets == l.sockets)
  {
  }

  /** A socket is opened only if none is open, connecting or being opened, and then exactly one. */
  lemma OneSocketAtATime(l: Link)
    ensures var live := l.socket.Some? && l.socket.value in l.sockets
                        && (l.sockets[l.socket.value].readyState == Open || l.sockets[l.socket.value].readyState == Connecting);
            EnsureConnected(l) == if live || l.opening then l
                                  else l.(opening := true, socket := Some(l.nextSocket), nextSocket := l.nextSocket + 1,
                                          sockets := l.sockets[l.nextSocket := Socket(Connecting, [], 0, {}, false)])
  {
  }

  /** On open, everything counted goes out in one frame, and none if nothing is counted. */
  lemma OpenSends(l: Link, s: SocketId, keys: seq<string>)
    requires s in l.sockets && Lists(keys, l.counts.Keys)
    ensures var x := l.sockets[s];
            OnOpen(l, s, keys)
            == l.(opening := false,
                  sockets := l.sockets[s := Socket(Open, if l.counts == map[] then x.sent else x.sent + [SubscribeTo(keys)],
                                                   x.delivered, x.remote, x.released)])
  {
    NoneListed(keys, l.counts.Keys);
    if l.counts != map[] { assert l.counts.Keys != {}; }
  }

  lemma NoneListed(keys: seq<string>, all: set<string>)
    requires Lists(keys, all)
    ensures keys == [] <==> all == {}
  {
    if keys != [] { assert keys[0] in Ids(keys); }
  }

  /** On close, the connection holds nothing and knows nobody, and a reconnect is scheduled if anyone is
      listening. */
  lemma CloseSchedules(l: Link, s: SocketId, others: bool)
    requires s in l.sockets
    ensures var r := OnClose(l, s, others);
            && r.socket == None && !r.opening && !r.helloSeen && r.helloUserId == None
            && (r.reconnectTimer <==> l.reconnectTimer || |l.counts| > 0 || others)
            && r.counts == l.counts && r.hooks == l.hooks && r.sockets.Keys == l.sockets.Keys
            && r.expectedUserId == l.expectedUserId && r.expectedUserKnown == l.expectedUserKnown && r.authReconnects == l.authReconnects
            && forall x :: x in l.sockets ==>
                 r.sockets[x] == if x == s then l.sockets[x].(readyState := Closed) else l.sockets[x]
  {
    if |l.counts| == 0 { assert l.counts == map[]; }
  }

  /** A lost connection comes back whole: the close schedules a reconnect, the reconnect opens a new socket,
      its open event resubscribes, and once the gateway has handled that one frame it holds exactly what
      the mounted hooks cover, if that is at most a hundred matches. */
  lemma ComesBack(l: Link, t: Trace, s: SocketId, others: bool, keys: seq<string>)
    requires LinkInv(l, t) && s in l.sockets && l.counts != map[] && Lists(keys, l.counts.Keys)
    requires |l.counts.Keys| <= 100
    ensures var n := l.nextSocket;
            var closed := OnClose(l, s, others);
            var again := EnsureConnected(closed.(reconnectTimer := false));
            && closed.reconnectTimer
            && again.socket == Some(n) && IsConnecting(again, n)
            && var up := OnOpen(again, n, keys);
               && InFlight(up, n)
               && var heard := Deliver(up, n);
                  Drained(heard) && heard.sockets[n].remote == Covered(l.hooks)
  {
    hide LinkInv, Covered, Lists, HandleIds;
    CloseSchedules(l, s, others);
    var closed := OnClose(l, s, others);
    OneSocketAtATime(closed.(reconnectTimer := false));
    var again := EnsureConnected(closed.(reconnectTimer := false));
    OpenSends(again, l.nextSocket, keys);
    KeysAreCovered(l, t);
    ListedIds(keys, l.counts.Keys);
    HandledWhole(keys);
  }

  lemma ListedIds(keys: seq<string>, all: set<string>)
    requires Lists(keys, all)
    ensures Ids(keys) == all
  {
  }

  lemma HandledWhole(keys: seq<string>)
    requires |Ids(keys)| <= 100
    ensures HandleIds({}, SubscribeTo(keys)) == Ids(keys)
  {
    assert {} + Ids(keys) == Ids(keys);
    SubscribeAllUncapped({}, keys);
  }

  /** The session check, case by case. Nothing is done before both sides are known. An agreeing greeting
      clears the count; a disagreeing one closes the held socket, at most twice in a row. */
  lemma IdentityChecked(l: Link)
    ensures !l.helloSeen || !l.expectedUserKnown ==> Reconcile(l) == l
    ensures l.helloSeen && l.expectedUserKnown && l.helloUserId == l.expectedUserId ==> Reconcile(l) == l.(authReconnects := 0)
    ensures l.helloSeen && l.expectedUserKnown && l.helloUserId != l.expectedUserId && l.authReconnects >= 2 ==> Reconcile(l) == l
    ensures l.helloSeen && l.expectedUserKnown && l.helloUserId != l.expectedUserId && l.authReconnects < 2 ==>
              var r := Reconcile(l);
              && r == l.(authReconnects := l.authReconnects + 1, helloSeen := false, sockets := r.sockets)
              && r.sockets.Keys == l.sockets.Keys
              && forall x :: x in l.sockets ==>
                   r.sockets[x] == if l.socket == Some(x) && l.sockets[x].readyState != Closed
                                   then l.sockets[x].(readyState := Closing) else l.sockets[x]
  {
  }

  /** The held socket has been told to close, if it was not closed already. */
  ghost predicate HeldCloses(a: Link, b: Link) {
    a.socket.Some? && a.socket.value in a.sockets ==>
      a.socket.value in b.sockets && (b.sockets[a.socket.value].readyState == Closing || a.sockets[a.socket.value].readyState == Closed)
  }

  /** A greeting is recorded. If it is the expected user's all is well; if it is somebody else's the held
      socket closes, within the budget. */
  lemma GreetingMeans(l: Link, u: Option<string>)
    ensures var r := OnHello(l, u);
            && r.helloUserId == u && r.counts == l.counts && r.hooks == l.hooks && r.socket == l.socket
            && (l.expectedUserKnown && u == l.expectedUserId ==> r.helloSeen && r.authReconnects == 0 && r.sockets == l.sockets)
            && (l.expectedUserKnown && u != l.expectedUserId && l.authReconnects < 2 ==>
                  !r.helloSeen && r.authReconnects == l.authReconnects + 1 && HeldCloses(l, r))
            && (!l.expectedUserKnown || (u != l.expectedUserId && l.authReconnects >= 2) ==> r.helloSeen && r.sockets == l.sockets)
  {
    IdentityChecked(l.(helloUserId := u, helloSeen := true));
  }

  /** A real session change earns a fresh budget: a socket greeted as somebody else closes. The same
      session again changes nothing. */
  lemma SessionChangeMeans(l: Link, u: Option<string>)
    ensures l.expectedUserKnown && l.expectedUserId == u ==> SetExpectedUser(l, u) == l
    ensures !(l.expectedUserKnown && l.expectedUserId == u) ==>
              var r := SetExpectedUser(l, u);
              && r.expectedUserKnown && r.expectedUserId == u && r.counts == l.counts && r.hooks == l.hooks && r.socket == l.socket
              && (l.helloSeen && l.helloUserId != u ==> r.authReconnects == 1 && !r.helloSeen && HeldCloses(l, r))
              && (!l.helloSeen || l.helloUserId == u ==> r.authReconnects == 0 && r.sockets == l.sockets && r.helloSeen == l.helloSeen)
  {
    IdentityChecked(l.(expectedUserId := u, expectedUserKnown := true, authReconnects := 0));
  }
}
