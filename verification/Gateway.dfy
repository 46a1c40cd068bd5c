/** The gateway's handlers (services/ws-gateway/src/server.ts). Redis subscribe and unsubscribe
    are taken to succeed in order. */
module Gateway {
  import opened Options
  import opened BettorAdjustment
  import opened RefIndex
  import opened TokenBucket
  import opened GatewayState

  datatype Inbound =
    | InvalidJson
    | Ping
    | SubscribeTo(matchIds: seq<string>)
    | UnsubscribeFrom(matchIds: seq<string>)
    | UnknownType

  /** The fields dispatch reads; `rest` stands for all others, carried through unread. */
  datatype OddsFrame = OddsFrame(
    matchId: string,
    publishedOdds: string,
    probability: Option<string>,
    sportId: Option<int>,
    tournamentId: Option<int>,
    rest: string)

  /** Settings read from the environment, and the library functions dispatch calls: JSON
      decoding and encoding, and reading a decimal. */
  datatype Config = Config(
    settings: Settings,
    maxBuffered: nat,
    decode: string -> Option<OddsFrame>,
    encode: OddsFrame -> string,
    read: string -> Option<real>)

  /** What a subscribe message leaves a client holding: the per-client cap is tested before
      each id, and reaching it abandons the rest of the message. */
  function SubscribeAll(held: set<string>, ids: seq<string>): set<string>
    decreases |ids|
  {
    if ids == [] || |held| >= MAX_SUBSCRIPTIONS_PER_CLIENT then held
    else SubscribeAll(held + {ids[0]}, ids[1..])
  }

  function UnsubscribeAll(held: set<string>, ids: seq<string>): set<string>
    decreases |ids|
  {
    if ids == [] then held else UnsubscribeAll(held - {ids[0]}, ids[1..])
  }

  /** What one processed message leaves a client holding. */
  function HandleIds(held: set<string>, msg: Inbound): set<string> {
    match msg
    case SubscribeTo(ids) => SubscribeAll(held, ids)
    case UnsubscribeFrom(ids) => UnsubscribeAll(held, ids)
    case _ => held
  }

  /** A subscribe message that meets the cap before its last id. */
  predicate HitsLimit(held: set<string>, ids: seq<string>)
    decreases |ids|
  {
    ids != [] && (|held| >= MAX_SUBSCRIPTIONS_PER_CLIENT || HitsLimit(held + {ids[0]}, ids[1..]))
  }

  /** What a processed message is answered with, on an open socket. */
  function Replies(held: set<string>, msg: Inbound): seq<Outbound> {
    match msg
    case InvalidJson => [Error("invalid_json")]
    case Ping => [Pong]
    case SubscribeTo(ids) => if HitsLimit(held, ids) then [Error("subscription_limit")] else []
    case UnsubscribeFrom(ids) => []
    case UnknownType => [Error("unknown_message_type")]
  }

  /** A client's outbox once `msgs` have been put to its socket. */
  function Outbox(r: Client, msgs: seq<Outbound>): seq<Outbound> { if r.readyState == Open then r.sent + msgs else r.sent }

  /** The payload at adjustment `bp`: the original text unless the price moves. */
  function Rewrite(cfg: Config, frame: OddsFrame, payload: string, bp: int): string {
    if bp == 0 then payload
    else
      var adjusted := ApplyAdjustment(frame.publishedOdds, frame.probability, bp, cfg.read);
      if adjusted != frame.publishedOdds then cfg.encode(frame.(publishedOdds := adjusted)) else payload
  }

  /** The frame a subscriber should get, worked out from scratch for that subscriber alone. */
  function FrameFor(cfg: Config, cache: map<string, Cascade>, userId: Option<string>, payload: string): string {
    if userId.None? || userId.value !in cache || cache[userId.value].empty then payload
    else
      var f := cfg.decode(payload);
      if f.None? || f.value.sportId.None? || f.value.tournamentId.None? then payload
      else Rewrite(cfg, f.value, payload,
                   ResolveBp(cache[userId.value], f.value.matchId, f.value.tournamentId.value, f.value.sportId.value))
  }

  /** Rewritten payloads so far, by adjustment. */
  ghost predicate Rewrites(cfg: Config, frame: Option<OddsFrame>, payload: string, cache: map<int, string>) {
    forall bp :: bp in cache ==> frame.Some? && cache[bp] == Rewrite(cfg, frame.value, payload, bp)
  }

  predicate Slow(cfg: Config, r: Client) { r.readyState == Open && r.buffered > cfg.maxBuffered }

  /** What sending one frame makes of a client's record. */
  ghost predicate Delivered(cfg: Config, before: Client, after: Client, payload: string) {
    if before.readyState != Open then after == before
    else if before.buffered <= cfg.maxBuffered then after == before.(sent := before.sent + [Fanout(payload)])
    else after == before.(readyState := Closing, cleanedUp := true, matchIds := {})
  }

  /** Nothing but client `c` has changed between two states. */
  ghost predicate OnlyClient(a: State, b: State, c: ClientId) {
    && a.objects.Keys == b.objects.Keys && c in a.objects
    && (forall d :: d in a.objects && d != c ==> b.objects[d] == a.objects[d])
  }

  /** A message handler changes a client's matches, outbox and bucket, and the match side of
      the indexes. */
  ghost predicate Handled(a: State, b: State, c: ClientId) {
    && OnlyClient(a, b, c)
    && b.objects[c] == a.objects[c].(matchIds := b.objects[c].matchIds, sent := b.objects[c].sent, bucket := b.objects[c].bucket)
    && b == a.(objects := b.objects, matchRefs := b.matchRefs, matchSubscribers := b.matchSubscribers, channels := b.channels)
  }

  /** One message: the bucket is charged; if it admits the message, the client's matches and the
      answer follow from it alone, and otherwise nothing does. */
  ghost predicate MessageStep(limits: Limits, a: State, b: State, c: ClientId, now: real, msg: Inbound) {
    && Handled(a, b, c)
    && b.objects[c].bucket == Next(limits, a.objects[c].bucket, now)
    && if Admits(limits, a.objects[c].bucket, now) then
         && b.objects[c].matchIds == HandleIds(a.objects[c].matchIds, msg)
         && b.objects[c].sent == Outbox(a.objects[c], Replies(a.objects[c].matchIds, msg))
       else b.objects[c].matchIds == a.objects[c].matchIds && b.objects[c].sent == a.objects[c].sent
  }

  lemma HandledTwice(a: State, b: State, d: State, c: ClientId)
    requires Handled(a, b, c) && Handled(b, d, c)
    ensures Handled(a, d, c)
  {
  }

  predicate Gone(r: Client) { r.readyState == Closing || r.readyState == Closed }

  function TornDown(r: Client): Client { r.(cleanedUp := true, matchIds := {}) }

  /** The sweep tears down exactly the live clients whose sockets are closing or closed. */
  ghost predicate SweepStep(a: State, b: State) {
    && b.objects.Keys == a.objects.Keys && a.clients <= a.objects.Keys
    && (forall c :: c in a.objects ==>
          b.objects[c] == if c in a.clients && Gone(a.objects[c]) then TornDown(a.objects[c]) else a.objects[c])
    && (forall c :: c in b.clients <==> c in a.clients && !Gone(a.objects[c]))
    && CascadesFollow(a, b) && b.slowClientDrops == a.slowClientDrops
  }

  /** A teardown of one client; a second one changes nothing. */
  ghost predicate CleanupStep(a: State, b: State, c: ClientId) {
    && OnlyClient(a, b, c) && b.clients == a.clients - {c}
    && (if a.objects[c].cleanedUp then b == a else b.objects[c] == TornDown(a.objects[c]))
    && CascadesFollow(a, b) && b.slowClientDrops == a.slowClientDrops
  }

  /** Fan-out: every open subscriber within its buffer is sent exactly one frame, the one worked
      out from scratch for it; slow ones are released; nobody else is touched. */
  ghost predicate DispatchStep(cfg: Config, a: State, b: State, m: string, payload: string) {
    && b.objects.Keys == a.objects.Keys && a.clients <= a.objects.Keys
    && (forall c :: c in a.objects ==>
          if c in a.clients && m in a.objects[c].matchIds
          then Delivered(cfg, a.objects[c], b.objects[c], FrameFor(cfg, a.cascadeCache, a.objects[c].userId, payload))
          else b.objects[c] == a.objects[c])
    && (forall c :: c in b.clients <==> c in a.clients && !(m in a.objects[c].matchIds && Slow(cfg, a.objects[c])))
    && CascadesFollow(a, b) && b.slowClientDrops == a.slowClientDrops + |a.clients - b.clients|
  }

  /** What each event does to the state; an event that cannot happen in it does nothing. */
  ghost predicate Stepped(cfg: Config, a: State, b: State, e: Event) {
    match e
    case UpgradeRequest(ip, claims, now) =>
      b == if Admissible(a, cfg.settings, ip) then Accept(a, Fresh(cfg.settings, claims, ip, now)) else a
    case MessageFrom(c, now, msg) =>
      if c in a.clients && c in a.objects && a.objects[c].bucket.lastMs <= now
      then MessageStep(cfg.settings.limits, a, b, c, now, msg) else b == a
    case SocketChange(c, readyState, buffered) =>
      if c in a.objects then b == Put(a, c, a.objects[c].(readyState := readyState, buffered := buffered)) else b == a
    case CloseEvent(c) => if c in a.objects then CleanupStep(a, b, c) else b == a
    case SweepTick => SweepStep(a, b)
    case OddsPublished(m, payload) => DispatchStep(cfg, a, b, m, payload)
    case CascadeLoaded(u, cascade) => b == a.(cascadeCache := a.cascadeCache[u := cascade])
    case CascadeInvalidated(u) => b == a.(cascadeCache := a.cascadeCache - {u})
  }

  /** The live clients connected from an address. */
  ghost function LiveFrom(s: State, ip: string): set<ClientId> {
    set c | c in s.clients && c in s.objects && s.objects[c].ip == ip
  }

  /** Everything that can happen to the process. A message for a client that has been torn
      down is taken never to be delivered, and the clock never to run backwards. */
  datatype Event =
    | UpgradeRequest(ip: string, claims: Option<string>, now: real)
    | MessageFrom(c: ClientId, now: real, msg: Inbound)
    | SocketChange(c: ClientId, readyState: ReadyState, buffered: nat)
    | CloseEvent(c: ClientId)
    | SweepTick
    | OddsPublished(matchId: string, payload: string)
    | CascadeLoaded(userId: string, cascade: Cascade)
    | CascadeInvalidated(userId: string)

  // ----- what a message means -----

  ghost function Listed(ids: seq<string>): set<string> { set id | id in ids }

  /** A subscribe message, with the cap written out: the ids are held up to the first one that comes
      while a hundred are held, and it is answered with an error exactly when there is such a one. */
  lemma {:induction false} SubscribeMeans(held: set<string>, ids: seq<string>, k: nat)
    requires k <= |ids| && forall j :: 0 <= j < k ==> |held + Listed(ids[..j])| < 100
    requires k == |ids| || |held + Listed(ids[..k])| >= 100
    ensures SubscribeAll(held, ids) == held + Listed(ids[..k])
    ensures HitsLimit(held, ids) <==> k < |ids|
    decreases |ids|
  {
    hide Listed;
    NoneListed(held, ids);
    if k == 0 { return; }
    var rest, next := ids[1..], held + {ids[0]};
    forall j | 0 <= j < k ensures next + Listed(rest[..j]) == held + Listed(ids[..j + 1]) {
      OneListed(held, ids, j);
    }
    SubscribeMeans(next, rest, k - 1);
  }

  lemma NoneListed(held: set<string>, ids: seq<string>)
    ensures held + Listed(ids[..0]) == held
  {
  }

  lemma OneListed(held: set<string>, ids: seq<string>, j: nat)
    requires j < |ids|
    ensures held + {ids[0]} + Listed(ids[1..][..j]) == held + Listed(ids[..j + 1])
  {
    assert ids[..j + 1] == [ids[0]] + ids[1..][..j];
  }

  lemma {:induction false} UnsubscribeMeans(held: set<string>, ids: seq<string>)
    ensures UnsubscribeAll(held, ids) == held - Listed(ids)
    decreases |ids|
  {
    if ids != [] {
      UnsubscribeMeans(held - {ids[0]}, ids[1..]);
      assert ids == [ids[0]] + ids[1..];
    }
  }

  /** A processed message and its answer: only an open socket is answered, only subscribe and
      unsubscribe change what is held, and the answer names what was wrong. */
  lemma MessageMeans(limits: Limits, a: State, b: State, c: ClientId, now: real, msg: Inbound)
    requires MessageStep(limits, a, b, c, now, msg) && Admits(limits, a.objects[c].bucket, now)
    ensures a.objects[c].readyState != Open ==> b.objects[c].sent == a.objects[c].sent
    ensures a.objects[c].readyState == Open && msg == Ping ==> b.objects[c].sent == a.objects[c].sent + [Pong]
    ensures a.objects[c].readyState == Open && msg == InvalidJson ==> b.objects[c].sent == a.objects[c].sent + [Error("invalid_json")]
    ensures a.objects[c].readyState == Open && msg == UnknownType ==>
              b.objects[c].sent == a.objects[c].sent + [Error("unknown_message_type")]
    ensures msg.UnsubscribeFrom? ==>
              b.objects[c].sent == a.objects[c].sent && b.objects[c].matchIds == a.objects[c].matchIds - Listed(msg.matchIds)
    ensures msg.SubscribeTo? && |a.objects[c].matchIds + Listed(msg.matchIds)| <= 99 ==>
              b.objects[c].sent == a.objects[c].sent && b.objects[c].matchIds == a.objects[c].matchIds + Listed(msg.matchIds)
    ensures a.objects[c].readyState == Open && msg.SubscribeTo? && msg.matchIds != [] && |a.objects[c].matchIds| >= 100 ==>
              && b.objects[c].sent == a.objects[c].sent + [Error("subscription_limit")]
              && b.objects[c].matchIds == a.objects[c].matchIds
    ensures !msg.SubscribeTo? && !msg.UnsubscribeFrom? ==> b.objects[c].matchIds == a.objects[c].matchIds
  {
    hide Next, Admits, SubscribeAll, UnsubscribeAll, HitsLimit;
    var held := a.objects[c].matchIds;
    match msg {
      case SubscribeTo(ids) =>
        if |held + Listed(ids)| <= 99 {
          forall j | 0 <= j <= |ids| ensures |held + Listed(ids[..j])| < 100 {
            SmallerSet(held + Listed(ids[..j]), held + Listed(ids));
          }
          assert ids[..|ids|] == ids;
          SubscribeMeans(held, ids, |ids|);
        } else if ids != [] && |held| >= 100 {
          assert held + Listed(ids[..0]) == held;
          SubscribeMeans(held, ids, 0);
        }
      case UnsubscribeFrom(ids) => UnsubscribeMeans(held, ids);
      case _ =>
    }
  }

  lemma SmallerSet(s: set<string>, t: set<string>)
    requires s <= t
    ensures |s| <= |t|
  {
    assert t == s + (t - s);
  }

  // ----- what a sweep means -----

  /** After a sweep every live client's socket is connecting or open; each client that was live and
      still is has its record untouched, and each that went had a socket closing or closed. */
  lemma SweepMeans(a: State, b: State, c: ClientId)
    requires SweepStep(a, b) && c in a.clients
    ensures c in b.clients <==> a.objects[c].readyState == Connecting || a.objects[c].readyState == Open
    ensures c in b.clients ==> b.objects[c] == a.objects[c]
    ensures c !in b.clients ==> b.objects[c] == a.objects[c].(cleanedUp := true, matchIds := {})
  {
  }

  // ----- a fan-out, subscriber by subscriber -----

  /** The subscribers outside `todo` have been dealt with; nobody else has been touched. */
  ghost predicate SentSoFar(cfg: Config, a: State, b: State, subs: set<ClientId>, todo: set<ClientId>, payload: string) {
    && b.objects.Keys == a.objects.Keys && subs <= a.clients <= a.objects.Keys && todo <= b.clients
    && (forall c :: c in a.objects && (c in todo || c !in subs) ==> b.objects[c] == a.objects[c])
    && (forall c :: c in subs && c !in todo ==>
          Delivered(cfg, a.objects[c], b.objects[c], FrameFor(cfg, a.cascadeCache, a.objects[c].userId, payload)))
    && (forall c :: c in b.clients <==> c in a.clients && !(c in subs && c !in todo && Slow(cfg, a.objects[c])))
    && CascadesFollow(a, b) && b.slowClientDrops == a.slowClientDrops + |a.clients - b.clients|
  }

  lemma NoneSent(cfg: Config, a: State, subs: set<ClientId>, payload: string)
    requires subs <= a.clients <= a.objects.Keys
    ensures SentSoFar(cfg, a, a, subs, subs, payload)
  {
    hide CascadesFollow, Delivered, Slow, FrameFor;
    CascadesSame(a, a);
    assert a.clients - a.clients == {};
  }

  lemma Pending(cfg: Config, a: State, b: State, subs: set<ClientId>, todo: set<ClientId>, payload: string, c: ClientId)
    requires SentSoFar(cfg, a, b, subs, todo, payload) && todo <= subs && c in todo
    ensures c in b.clients && c in b.objects && c in a.objects && b.objects[c] == a.objects[c]
    ensures b.objects[c].userId.Some? ==>
              Lookup(b.cascadeCache, b.objects[c].userId.value) == Lookup(a.cascadeCache, b.objects[c].userId.value)
  {
    hide CascadesFollow, Delivered, Slow, FrameFor, Lookup;
    if b.objects[c].userId.Some? { CascadeKept(a, b, c); }
  }

  lemma OneSent(cfg: Config, a: State, b: State, d: State, subs: set<ClientId>, todo: set<ClientId>, payload: string, c: ClientId)
    requires SentSoFar(cfg, a, b, subs, todo, payload) && todo <= subs && c in todo && c in a.objects
    requires OnlyClient(b, d, c)
    requires Delivered(cfg, b.objects[c], d.objects[c], FrameFor(cfg, a.cascadeCache, a.objects[c].userId, payload))
    requires d.clients == if Slow(cfg, b.objects[c]) then b.clients - {c} else b.clients
    requires CascadesFollow(b, d) && d.slowClientDrops == b.slowClientDrops + if Slow(cfg, b.objects[c]) then 1 else 0
    ensures SentSoFar(cfg, a, d, subs, todo - {c}, payload)
  {
    hide CascadesFollow, Delivered, Slow, FrameFor;
    CascadesTwice(a, b, d);
    OneMoreGone(a.clients, b.clients, d.clients, c);
  }

  lemma OneMoreGone(all: set<ClientId>, before: set<ClientId>, after: set<ClientId>, c: ClientId)
    requires before <= all && c in before && (after == before || after == before - {c})
    ensures |all - after| == |all - before| + if after == before then 0 else 1
  {
    if after != before { assert all - after == (all - before) + {c}; }
  }

  lemma AllSent(cfg: Config, a: State, b: State, subs: set<ClientId>, payload: string, m: string)
    requires SentSoFar(cfg, a, b, subs, {}, payload) && a.clients <= a.objects.Keys
    requires subs == set c | c in a.clients && m in a.objects[c].matchIds
    ensures DispatchStep(cfg, a, b, m, payload)
  {
    hide CascadesFollow, Delivered, Slow, FrameFor;
  }

  class Server {
    const config: Config
    var state: State
    ghost var history: History

    ghost predicate Valid()
      reads this
    {
      Inv(state, history, config.settings)
    }

    constructor (config: Config)
      requires Sane(config.settings.limits)
      ensures Valid() && this.config == config && state == EMPTY
    {
      this.config := config;
      state, history := EMPTY, NO_HISTORY;
      EmptyInv(config.settings);
    }

    /** After authentication, admission and registration are one step: a connection is accepted
        exactly when both caps leave room for it. */
    method Upgrade(ip: string, claims: Option<string>, now: real) returns (c: Option<ClientId>)
      requires Valid()
      modifies this
      ensures Valid()
      ensures c.Some? <==> Admissible(old(state), config.settings, ip)
      ensures c.Some? <==>
                && |old(state).clients| < config.settings.maxClients
                && (config.settings.maxPerIp > 0 ==> |LiveFrom(old(state), ip)| < config.settings.maxPerIp)
      ensures c.None? ==> state == old(state)
      ensures c.Some? ==> c.value == old(state).nextId && state == Accept(old(state), Fresh(config.settings, claims, ip, now))
      ensures c.Some? ==>
                && c.value !in old(state).clients && state.clients == old(state).clients + {c.value} && c.value in state.objects
                && state.objects[c.value]
                   == Client(claims, ip, Open, 0, [Hello(claims)], {}, Bucket(config.settings.limits.burst, now), false)
    {
      hide Inv, CountOf, Increment, AddMember;
      FromAddress(ip);
      if |state.clients| >= config.settings.maxClients { return None; }
      if config.settings.maxPerIp > 0 && CountOf(state.ipCounts, ip) >= config.settings.maxPerIp { return None; }
      AcceptInv(state, history, config.settings, claims, ip, now);
      var r := Fresh(config.settings, claims, ip, now);
      c := Some(state.nextId);
      history := Accepted(history, state.nextId, r);
      state := Accept(state, r);
    }

    /** The address count is the number of live clients there. */
    lemma FromAddress(ip: string)
      requires Valid()
      ensures CountOf(state.ipCounts, ip) == |LiveFrom(state, ip)| && state.nextId !in state.clients
    {
      InvMeans(state, history, config.settings, ip);
      assert LiveFrom(state, ip) == set c | c in state.clients && state.objects[c].ip == ip;
    }

    lemma Known(c: ClientId)
      requires Valid() && c in state.clients
      ensures c in state.objects && Within(config.settings.limits, state.objects[c].bucket) && Sane(config.settings.limits)
    {
      LimitsOf(state.objects, state.clients, c, config.settings.limits);
    }

    /** The direct reply path: dropped silently unless the socket is open. */
    method Reply(c: ClientId, msg: Outbound)
      requires Valid() && c in state.clients && c in state.objects
      modifies this
      ensures Valid() && Handled(old(state), state, c)
      ensures state.objects[c].matchIds == old(state).objects[c].matchIds
      ensures state.objects[c].bucket == old(state).objects[c].bucket
      ensures state.objects[c].sent == Outbox(old(state).objects[c], [msg])
    {
      hide Inv, Within;
      Known(c);
      var r := state.objects[c];
      if r.readyState != Open { return; }
      r := r.(sent := r.sent + [msg]);
      PutInv(state, history, config.settings, c, r);
      state := Put(state, c, r);
    }

    /** One id of a subscribe message, below the cap. */
    method SubscribeOne(c: ClientId, m: string)
      requires Valid() && c in state.clients && c in state.objects
      requires |state.objects[c].matchIds| < MAX_SUBSCRIPTIONS_PER_CLIENT
      modifies this
      ensures Valid() && Handled(old(state), state, c)
      ensures state.objects[c].matchIds == old(state).objects[c].matchIds + {m}
      ensures state.objects[c].bucket == old(state).objects[c].bucket && state.objects[c].sent == old(state).objects[c].sent
    {
      hide Inv, AddMember, Increment, CountOf;
      if m in state.objects[c].matchIds {
        assert state.objects[c].matchIds + {m} == state.objects[c].matchIds;
        return;
      }
      HoldInv(state, history, config.settings, c, m);
      history := history.(matchHeld := history.matchHeld + {(m, c)});
      state := Hold(state, c, m);
    }

    method Subscribe(c: ClientId, ids: seq<string>)
      requires Valid() && c in state.clients && c in state.objects
      modifies this
      ensures Valid() && Handled(old(state), state, c)
      ensures state.objects[c].matchIds == SubscribeAll(old(state).objects[c].matchIds, ids)
      ensures state.objects[c].bucket == old(state).objects[c].bucket
      ensures state.objects[c].sent == Outbox(old(state).objects[c], Replies(old(state).objects[c].matchIds, SubscribeTo(ids)))
    {
      hide Inv;
      var i := 0;
      while i < |ids|
        invariant 0 <= i <= |ids| && Valid() && Handled(old(state), state, c)
        invariant SubscribeAll(state.objects[c].matchIds, ids[i..]) == SubscribeAll(old(state).objects[c].matchIds, ids)
        invariant HitsLimit(state.objects[c].matchIds, ids[i..]) == HitsLimit(old(state).objects[c].matchIds, ids)
        invariant state.objects[c].bucket == old(state).objects[c].bucket && state.objects[c].sent == old(state).objects[c].sent
      {
        ghost var before := state;
        assert ids[i..][0] == ids[i] && ids[i..][1..] == ids[i + 1..];
        if |state.objects[c].matchIds| >= MAX_SUBSCRIPTIONS_PER_CLIENT {
          Reply(c, Error("subscription_limit"));
          HandledTwice(old(state), before, state, c);
          return;
        }
        SubscribeOne(c, ids[i]);
        HandledTwice(old(state), before, state, c);
        i := i + 1;
      }
    }

    /** One id of an unsubscribe message. */
    method UnsubscribeOne(c: ClientId, m: string)
      requires Valid() && c in state.clients && c in state.objects
      modifies this
      ensures Valid() && Handled(old(state), state, c)
      ensures state.objects[c].matchIds == old(state).objects[c].matchIds - {m}
      ensures state.objects[c].bucket == old(state).objects[c].bucket && state.objects[c].sent == old(state).objects[c].sent
    {
      hide Inv, RemoveMember, Decrement, CountOf;
      if m !in state.objects[c].matchIds {
        assert state.objects[c].matchIds - {m} == state.objects[c].matchIds;
        return;
      }
      UnholdInv(state, history, config.settings, c, m);
      history := history.(matchHeld := history.matchHeld - {(m, c)});
      state := Unhold(state, c, m);
    }

    method Unsubscribe(c: ClientId, ids: seq<string>)
      requires Valid() && c in state.clients && c in state.objects
      modifies this
      ensures Valid() && Handled(old(state), state, c)
      ensures state.objects[c].matchIds == UnsubscribeAll(old(state).objects[c].matchIds, ids)
      ensures state.objects[c].bucket == old(state).objects[c].bucket && state.objects[c].sent == old(state).objects[c].sent
    {
      hide Inv;
      var i := 0;
      while i < |ids|
        invariant 0 <= i <= |ids| && Valid() && Handled(old(state), state, c)
        invariant UnsubscribeAll(state.objects[c].matchIds, ids[i..]) == UnsubscribeAll(old(state).objects[c].matchIds, ids)
        invariant state.objects[c].bucket == old(state).objects[c].bucket && state.objects[c].sent == old(state).objects[c].sent
      {
        ghost var before := state;
        assert ids[i..][0] == ids[i] && ids[i..][1..] == ids[i + 1..];
        UnsubscribeOne(c, ids[i]);
        HandledTwice(old(state), before, state, c);
        i := i + 1;
      }
    }

    /** One inbound message, taken to arrive while the client is live and at a time no earlier
        than its last one. It is processed exactly when the bucket admits it. */
    method Message(c: ClientId, now: real, msg: Inbound) returns (processed: bool)
      requires Valid() && c in state.clients && c in state.objects && state.objects[c].bucket.lastMs <= now
      modifies this
      ensures Valid() && MessageStep(config.settings.limits, old(state), state, c, now, msg)
      ensures processed <==> Admits(config.settings.limits, old(state).objects[c].bucket, now)
    {
      hide Inv, Within, Sane, Refill, SubscribeAll, UnsubscribeAll, HitsLimit;
      Known(c);
      var limits, r := config.settings.limits, state.objects[c];
      NextWithin(limits, r.bucket, now);
      var tokens := Refill(limits, r.bucket, now);
      var refilled := r.(bucket := Next(limits, r.bucket, now));
      PutInv(state, history, config.settings, c, refilled);
      state := Put(state, c, refilled);
      if tokens < 1.0 { return false; }
      processed := true;
      match msg {
        case InvalidJson => Reply(c, Error("invalid_json"));
        case Ping => Reply(c, Pong);
        case SubscribeTo(ids) => Subscribe(c, ids);
        case UnsubscribeFrom(ids) => Unsubscribe(c, ids);
        case UnknownType => Reply(c, Error("unknown_message_type"));
      }
    }

    /** The match loop of a teardown, over the client's ids in any order. */
    method ReleaseMatches(c: ClientId)
      returns (refs: map<string, nat>, members: map<string, set<ClientId>>, channels: set<Channel>)
      requires Valid() && c in state.clients && c in state.objects
      ensures MatchesReleased(state, history, c, state.objects[c].matchIds, refs, members, channels)
    {
      hide Inv, MatchesReleased, Decrement, RemoveMember, CountOf;
      NoneReleased(state, history, config.settings, c);
      refs, members, channels := state.matchRefs, state.matchSubscribers, state.channels;
      var todo := state.objects[c].matchIds;
      assert state.objects[c].matchIds - todo == {};
      while todo != {}
        invariant todo <= state.objects[c].matchIds
        invariant MatchesReleased(state, history, c, state.objects[c].matchIds - todo, refs, members, channels)
        decreases |todo|
      {
        var m :| m in todo;
        Holding(c, m);
        OneReleased(state, history, c, state.objects[c].matchIds - todo, m, refs, members, channels);
        assert state.objects[c].matchIds - todo + {m} == state.objects[c].matchIds - (todo - {m});
        channels := channels - if CountOf(refs, m) <= 1 then {MatchChannel(m)} else {};
        members := RemoveMember(members, m, c);
        refs := Decrement(refs, m);
        todo := todo - {m};
      }
      assert state.objects[c].matchIds - todo == state.objects[c].matchIds;
    }

    lemma Holding(c: ClientId, m: string)
      requires Valid() && c in state.clients && m in state.objects[c].matchIds
      ensures (m, c) in history.matchHeld
    {
    }

    lemma Flagged(c: ClientId)
      requires Valid() && c in state.objects
      ensures state.objects[c].cleanedUp <==> c !in state.clients
      ensures state.clients <= state.objects.Keys
    {
    }

    /** Teardown, reached from the close event, the sweep and slow-consumer eviction. The first
        call releases the client; any further one changes nothing. */
    method CleanupClient(c: ClientId)
      requires Valid() && c in state.objects
      modifies this
      ensures Valid() && CleanupStep(old(state), state, c)
      ensures history.released
              == old(history).released + if old(state).objects[c].cleanedUp then multiset{} else multiset{c}
    {
      hide Inv, MatchesReleased, Decrement, RemoveMember, CountOf, CascadesFollow;
      Flagged(c);
      if state.objects[c].cleanedUp {
        assert state.clients - {c} == state.clients;
        CascadesSame(state, state);
        return;
      }
      var refs, members, channels := ReleaseMatches(c);
      ReleaseInv(state, history, config.settings, c, refs, members, channels);
      ReleaseCascades(state, history, config.settings, c, refs, members, channels);
      history := Departure(history, c, state.objects[c]);
      state := Release(state, c, refs, members, channels);
    }

    // ----- fan-out -----

    /** The single fan-out path: a socket that is not open is skipped, one that has stopped
        draining is terminated and torn down, any other is sent the frame. */
    method SendToClient(c: ClientId, payload: string)
      requires Valid() && c in state.clients && c in state.objects
      modifies this
      ensures Valid() && OnlyClient(old(state), state, c)
      ensures Delivered(config, old(state).objects[c], state.objects[c], payload)
      ensures state.clients == if Slow(config, old(state).objects[c]) then old(state).clients - {c} else old(state).clients
      ensures CascadesFollow(old(state), state)
      ensures state.slowClientDrops == old(state).slowClientDrops + if Slow(config, old(state).objects[c]) then 1 else 0
    {
      hide Inv, Within, CascadesFollow;
      Known(c);
      Flagged(c);
      var r := state.objects[c];
      if r.readyState != Open {
        CascadesSame(state, state);
        return;
      }
      if r.buffered > config.maxBuffered {
        Evict(c);
        return;
      }
      var sent := r.(sent := r.sent + [Fanout(payload)]);
      PutInv(state, history, config.settings, c, sent);
      CascadesSame(state, Put(state, c, sent));
      state := Put(state, c, sent);
    }

    /** Terminate a slow consumer and tear it down on the spot. */
    method Evict(c: ClientId)
      requires Valid() && c in state.clients && c in state.objects
      modifies this
      ensures Valid() && OnlyClient(old(state), state, c)
      ensures state.objects[c] == old(state).objects[c].(readyState := Closing, cleanedUp := true, matchIds := {})
      ensures state.clients == old(state).clients - {c}
      ensures CascadesFollow(old(state), state) && state.slowClientDrops == old(state).slowClientDrops + 1
    {
      hide Inv, Within, CascadesFollow;
      Known(c);
      Flagged(c);
      var gone := state.objects[c].(readyState := Closing);
      PutInv(state, history, config.settings, c, gone);
      state := Put(state, c, gone).(slowClientDrops := state.slowClientDrops + 1);
      assert Valid() by { DropsDoNotMatter(state, old(state)); }
      ghost var terminated := state;
      CascadesSame(old(state), terminated);
      CleanupClient(c);
      CascadesTwice(old(state), terminated, state);
    }

    lemma DropsDoNotMatter(a: State, b: State)
      requires Inv(a.(slowClientDrops := b.slowClientDrops), history, config.settings)
      ensures Inv(a, history, config.settings)
    {
      hide Represents, Within, Sane, Caps, Lifecycle, ClientLimits, HoldsMatch, SignedIn, ConnectedFrom, MatchChannels, UserChannels;
    }

    /** Drop every client whose socket is already closing or closed. */
    method StaleSweep()
      requires Valid()
      modifies this
      ensures Valid() && state.objects.Keys == old(state).objects.Keys
      ensures SweepStep(old(state), state)
    {
      hide Inv, CascadesFollow;
      Registered();
      CascadesSame(state, state);
      var todo := state.clients;
      while todo != {}
        invariant Valid() && state.objects.Keys == old(state).objects.Keys && state.clients <= state.objects.Keys
        invariant todo <= old(state).clients && todo <= state.clients
        invariant forall c :: c in old(state).objects ==>
                    state.objects[c] == if c in old(state).clients && c !in todo && Gone(old(state).objects[c])
                                        then TornDown(old(state).objects[c]) else old(state).objects[c]
        invariant forall c :: c in state.clients <==>
                    c in old(state).clients && (c in todo || !Gone(old(state).objects[c]))
        invariant CascadesFollow(old(state), state) && state.slowClientDrops == old(state).slowClientDrops
        decreases |todo|
      {
        var c :| c in todo;
        ghost var before := state;
        if state.objects[c].readyState == Closed || state.objects[c].readyState == Closing {
          CleanupClient(c);
          CascadesTwice(old(state), before, state);
        }
        todo := todo - {c};
      }
    }

    lemma Registered()
      requires Valid()
      ensures state.clients <= state.objects.Keys
    {
    }

    lemma Subscribers(m: string)
      requires Valid()
      ensures state.clients <= state.objects.Keys
      ensures MembersOf(state.matchSubscribers, m) == set c | c in state.clients && m in state.objects[c].matchIds
    {
      MatchMembers(state.objects, state.clients, state.matchRefs, state.matchSubscribers, history.matchHeld, m);
    }

    /** Choosing one subscriber's frame, with the lazily parsed payload and the per-adjustment
        cache of rewritten payloads: always the frame that working it out from scratch gives. */
    method ChooseFrame(userId: Option<string>, payload: string, frame0: Option<OddsFrame>, invalid0: bool, cache0: map<int, string>)
      returns (outbound: string, frame: Option<OddsFrame>, invalid: bool, cache: map<int, string>)
      requires frame0.Some? ==> config.decode(payload) == frame0
      requires invalid0 ==> config.decode(payload).None?
      requires Rewrites(config, frame0, payload, cache0)
      ensures outbound == FrameFor(config, state.cascadeCache, userId, payload)
      ensures frame.Some? ==> config.decode(payload) == frame
      ensures invalid ==> config.decode(payload).None?
      ensures Rewrites(config, frame, payload, cache)
    {
      outbound, frame, invalid, cache := payload, frame0, invalid0, cache0;
      if userId.None? || userId.value !in state.cascadeCache { return; }
      var cascade := state.cascadeCache[userId.value];
      if cascade.empty { return; }
      if frame.None? && !invalid {
        frame := config.decode(payload);
        invalid := frame.None?;
      }
      if frame.None? || frame.value.sportId.None? || frame.value.tournamentId.None? { return; }
      var bp := ResolveBp(cascade, frame.value.matchId, frame.value.tournamentId.value, frame.value.sportId.value);
      if bp == 0 { return; }
      if bp !in cache {
        var adjusted := ApplyAdjustment(frame.value.publishedOdds, frame.value.probability, bp, config.read);
        var rewritten := if adjusted != frame.value.publishedOdds
                         then config.encode(frame.value.(publishedOdds := adjusted)) else payload;
        cache := cache[bp := rewritten];
      }
      outbound := cache[bp];
    }

    /** Fan one odds frame out to a match's subscribers, in any order, tearing slow ones down on
        the way. Every open subscriber within its buffer is sent exactly one frame, the one
        worked out from scratch for it; slow ones are released; nobody else is touched. */
    method DispatchOdds(m: string, payload: string)
      requires Valid()
      modifies this
      ensures Valid() && DispatchStep(config, old(state), state, m, payload)
    {
      hide Inv, Rewrite, Slow, Delivered, MembersOf, Rewrites, CascadesFollow, Lookup, SentSoFar;
      Subscribers(m);
      var subs := MembersOf(state.matchSubscribers, m);
      var frame, invalid, cache := None, false, map[];
      assert Rewrites(config, frame, payload, cache) by { NoRewrites(payload); }
      var todo := subs;
      NoneSent(config, state, subs, payload);
      while todo != {}
        invariant Valid() && todo <= subs && SentSoFar(config, old(state), state, subs, todo, payload)
        invariant frame.Some? ==> config.decode(payload) == frame
        invariant invalid ==> config.decode(payload).None?
        invariant Rewrites(config, frame, payload, cache)
        decreases |todo|
      {
        var c :| c in todo;
        Pending(config, old(state), state, subs, todo, payload, c);
        ghost var before := state;
        var outbound: string;
        outbound, frame, invalid, cache := ChooseFrame(state.objects[c].userId, payload, frame, invalid, cache);
        SameFrame(state.cascadeCache, old(state).cascadeCache, state.objects[c].userId, payload);
        SendToClient(c, outbound);
        OneSent(config, old(state), before, state, subs, todo, payload, c);
        todo := todo - {c};
      }
      AllSent(config, old(state), state, subs, payload, m);
    }

    lemma NoRewrites(payload: string)
      ensures Rewrites(config, None, payload, map[])
    {
    }

    lemma SameFrame(a: map<string, Cascade>, b: map<string, Cascade>, userId: Option<string>, payload: string)
      requires userId.Some? ==> Lookup(a, userId.value) == Lookup(b, userId.value)
      ensures FrameFor(config, a, userId, payload) == FrameFor(config, b, userId, payload)
    {
    }

    // ----- whole runs -----

    /** The transport moves a socket between states and drains or fills its buffer. */
    method SetSocket(c: ClientId, readyState: ReadyState, buffered: nat)
      requires Valid() && c in state.objects
      modifies this
      ensures Valid() && state == Put(old(state), c, old(state).objects[c].(readyState := readyState, buffered := buffered))
    {
      hide Inv, Within;
      if c in state.clients { Known(c); }
      var r := state.objects[c].(readyState := readyState, buffered := buffered);
      PutInv(state, history, config.settings, c, r);
      state := Put(state, c, r);
    }

    method SetCascades(cache: map<string, Cascade>)
      requires Valid()
      modifies this
      ensures Valid() && state == old(state).(cascadeCache := cache)
    {
      state := state.(cascadeCache := cache);
    }

    method Handle(e: Event)
      requires Valid()
      modifies this
      ensures Valid() && Stepped(config, old(state), state, e)
    {
      hide Inv, MessageStep, CleanupStep, SweepStep, DispatchStep;
      Registered();
      match e {
        case UpgradeRequest(ip, claims, now) => var _ := Upgrade(ip, claims, now);
        case MessageFrom(c, now, msg) =>
          if c in state.clients && state.objects[c].bucket.lastMs <= now { var _ := Message(c, now, msg); }
        case SocketChange(c, readyState, buffered) => if c in state.objects { SetSocket(c, readyState, buffered); }
        case CloseEvent(c) => if c in state.objects { CleanupClient(c); }
        case SweepTick => StaleSweep();
        case OddsPublished(m, payload) => DispatchOdds(m, payload);
        case CascadeLoaded(u, cascade) => SetCascades(state.cascadeCache[u := cascade]);
        case CascadeInvalidated(u) => SetCascades(state.cascadeCache - {u});
      }
    }

    /** Every run: each event takes the state through its step; in every state passed through, every
        index, refcount, channel and cap agrees with the live clients; and each departed client has
        been released exactly once. */
    method Run(events: seq<Event>) returns (ghost states: seq<State>)
      requires Valid()
      modifies this
      ensures Valid() && IsRun(config, states, events) && states[0] == old(state) && states[|events|] == state
      ensures forall k :: 0 <= k <= |events| ==> ConsistentEverywhere(states[k], config.settings)
      ensures ReleasedOnce(state, history)
    {
      hide Inv, Stepped, ConsistentEverywhere, Sound, ReleasedOnce;
      states := [state];
      Agrees();
      for i := 0 to |events|
        invariant Valid() && |states| == i + 1 && states[0] == old(state) && states[i] == state
        invariant forall k :: 0 <= k < i ==> Stepped(config, states[k], states[k + 1], events[k])
        invariant forall k :: 0 <= k <= i ==> Sound(states[k], config.settings)
        invariant forall k :: 0 <= k <= i ==> ConsistentEverywhere(states[k], config.settings)
        invariant ReleasedOnce(state, history)
      {
        Handle(events[i]);
        Agrees();
        states := states + [state];
      }
    }

    lemma Agrees()
      requires Valid()
      ensures Sound(state, config.settings) && ConsistentEverywhere(state, config.settings) && ReleasedOnce(state, history)
    {
      hide Inv, Consistent;
      forall key ensures Consistent(state, config.settings, key) {
        InvMeans(state, history, config.settings, key);
      }
      InvMeans(state, history, config.settings, "");
    }
  }

  /** At every match, user and address. */
  ghost predicate ConsistentEverywhere(s: State, settings: Settings) {
    forall key :: Consistent(s, settings, key)
  }

  /** Each departed client has been released exactly once, and no live one has. */
  ghost predicate ReleasedOnce(s: State, h: History) { h.released == multiset(s.objects.Keys - s.clients) }

  /** Some history explains the state. */
  ghost predicate Sound(s: State, settings: Settings) { exists h :: Inv(s, h, settings) }

  ghost predicate IsRun(cfg: Config, states: seq<State>, events: seq<Event>) {
    && |states| == |events| + 1
    && (forall k :: 0 <= k < |events| ==> Stepped(cfg, states[k], states[k + 1], events[k]))
    && (forall k :: 0 <= k <= |events| ==> Sound(states[k], cfg.settings))
  }

  /** Which rule of a cascade a frame falls under: its match's, else its tournament's, else its sport's,
      else the global one, else none. */
  ghost predicate Governs(c: Cascade, f: OddsFrame, bp: int)
    requires f.sportId.Some? && f.tournamentId.Some?
  {
    if f.matchId in c.byMatch then bp == c.byMatch[f.matchId]
    else if f.tournamentId.value in c.byTournament then bp == c.byTournament[f.tournamentId.value]
    else if f.sportId.value in c.bySport then bp == c.bySport[f.sportId.value]
    else if c.globalBp.Some? then bp == c.globalBp.value
    else bp == 0
  }

  /** What a subscriber is sent, field by field: the frame as published, except that a signed-in
      subscriber with rules gets the price adjusted by the rule that governs the frame. Any other
      subscriber, and a frame that cannot be read or placed, gets the published text itself. */
  lemma FrameMeans(cfg: Config, cache: map<string, Cascade>, userId: Option<string>, payload: string, bp: int)
    requires forall f :: cfg.decode(cfg.encode(f)) == Some(f)
    ensures userId == None || userId.value !in cache || cache[userId.value].empty ==> FrameFor(cfg, cache, userId, payload) == payload
    ensures var d := cfg.decode(payload);
            d == None || d.value.sportId == None || d.value.tournamentId == None ==> FrameFor(cfg, cache, userId, payload) == payload
    ensures var d := cfg.decode(payload);
            && userId.Some? && userId.value in cache && !cache[userId.value].empty
            && d.Some? && d.value.sportId.Some? && d.value.tournamentId.Some? && Governs(cache[userId.value], d.value, bp) ==>
              cfg.decode(FrameFor(cfg, cache, userId, payload))
              == Some(d.value.(publishedOdds := ApplyAdjustment(d.value.publishedOdds, d.value.probability, bp, cfg.read)))
  {
    hide AdjustedUnits, FairCeiling;
  }

  /** A user with the empty id connects and leaves: the index, the refcount and the channel keep it. */
  method EmptyIdStays(config: Config) returns (s: State)
    requires Sane(config.settings.limits) && config.settings.maxClients >= 1
    ensures s.clients == {} && MembersOf(s.userSockets, "") == {0} && CountOf(s.userRefs, "") == 1
    ensures UserChannel("") in s.channels
  {
    hide Inv, MembersOf, CountOf, Stepped, Consistent, ReleasedOnce, Sound;
    var server := new Server(config);
    ghost var states := server.Run([UpgradeRequest("", Some(""), 0.0), CloseEvent(0)]);
    s := server.state;
    OneCameAndWent(config, states);
    assert Consistent(s, config.settings, "");
    StaysBehind(s, config.settings);
  }

  lemma OneCame(config: Config, s: State)
    requires config.settings.maxClients >= 1 && Stepped(config, EMPTY, s, UpgradeRequest("", Some(""), 0.0))
    ensures s.clients == {0} && s.objects.Keys == {0} && s.objects[0].userId == Some("") && !s.objects[0].cleanedUp
  {
    hide Increment, AddMember;
    assert Admissible(EMPTY, config.settings, "");
  }

  lemma OneWent(config: Config, a: State, b: State)
    requires a.clients == {0} && a.objects.Keys == {0} && a.objects[0].userId == Some("") && !a.objects[0].cleanedUp
    requires Stepped(config, a, b, CloseEvent(0))
    ensures b.clients == {} && b.objects.Keys == {0} && b.objects[0].userId == Some("")
  {
  }

  lemma OneCameAndWent(config: Config, states: seq<State>)
    requires config.settings.maxClients >= 1 && states != [] && states[0] == EMPTY
    requires IsRun(config, states, [UpgradeRequest("", Some(""), 0.0), CloseEvent(0)])
    ensures states[2].clients == {} && states[2].objects.Keys == {0} && states[2].objects[0].userId == Some("")
  {
    hide Stepped, Sound;
    var events := [UpgradeRequest("", Some(""), 0.0), CloseEvent(0)];
    assert Stepped(config, states[0], states[0 + 1], events[0]);
    assert Stepped(config, states[1], states[1 + 1], events[1]);
    OneCame(config, states[1]);
    OneWent(config, states[1], states[2]);
  }

  lemma StaysBehind(s: State, settings: Settings)
    requires Consistent(s, settings, "") && s.clients == {} && s.objects.Keys == {0} && s.objects[0].userId == Some("")
    ensures MembersOf(s.userSockets, "") == {0} && CountOf(s.userRefs, "") == 1 && UserChannel("") in s.channels
  {
    hide MembersOf, CountOf;
    assert (set c | c in s.objects && s.objects[c].userId == Some("") && (c in s.clients || "" == "")) == {0};
  }
}
