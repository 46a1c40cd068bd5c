/** What the gateway keeps (services/ws-gateway/src/server.ts) and the invariants over it, on
    values. A connection is a number; its state object is the record stored under it. */
module GatewayState {
  import opened Options
  import opened BettorAdjustment
  import opened RefIndex
  import opened TokenBucket

  const MAX_SUBSCRIPTIONS_PER_CLIENT: nat := 100

  type ClientId = nat

  datatype ReadyState = Connecting | Open | Closing | Closed

  datatype Channel = MatchChannel(matchId: string) | UserChannel(userId: string)

  datatype Outbound = Hello(userId: Option<string>) | Pong | Error(message: string) | Fanout(payload: string)

  datatype Client = Client(
    userId: Option<string>,
    ip: string,
    readyState: ReadyState,
    buffered: nat,
    sent: seq<Outbound>,
    matchIds: set<string>,
    bucket: Bucket,
    cleanedUp: bool)

  type Objects = map<ClientId, Client>

  // ----- invariants -----

  /** A client is live until it is released, and is released exactly once. */
  ghost predicate Lifecycle(objects: Objects, clients: set<ClientId>, released: multiset<ClientId>) {
    && clients <= objects.Keys
    && released == multiset(objects.Keys - clients)
    && (forall c :: c in objects ==> (objects[c].cleanedUp <==> c !in clients))
  }

  ghost predicate ClientLimits(objects: Objects, clients: set<ClientId>, limits: Limits) {
    forall c :: c in clients && c in objects ==>
      |objects[c].matchIds| <= MAX_SUBSCRIPTIONS_PER_CLIENT && Within(limits, objects[c].bucket)
  }

  /** `held` is exactly "live client c holds match m". */
  ghost predicate HoldsMatch(objects: Objects, clients: set<ClientId>, held: set<(string, ClientId)>) {
    && (forall p :: p in held ==> p.1 in clients && p.1 in objects && p.0 in objects[p.1].matchIds)
    && (forall c, m :: c in clients && c in objects && m in objects[c].matchIds ==> (m, c) in held)
  }

  /** `held` is "live client c is signed in as u". Teardown tests the user id for truthiness, so
      a client with an empty subject is never taken out. */
  ghost predicate SignedIn(objects: Objects, clients: set<ClientId>, held: set<(string, ClientId)>) {
    && (forall p :: p in held ==> p.1 in objects && objects[p.1].userId == Some(p.0) && (p.1 in clients || p.0 == ""))
    && (forall c :: c in objects && objects[c].userId.Some? && (c in clients || objects[c].userId.value == "") ==>
          (objects[c].userId.value, c) in held)
  }

  /** `held` is exactly "live client c connected from address a". */
  ghost predicate ConnectedFrom(objects: Objects, clients: set<ClientId>, held: set<(string, ClientId)>) {
    && (forall p :: p in held ==> p.1 in clients && p.1 in objects && objects[p.1].ip == p.0)
    && (forall c :: c in clients && c in objects ==> (objects[c].ip, c) in held)
  }

  ghost predicate MatchChannels(channels: set<Channel>, refs: map<string, nat>) {
    forall m :: MatchChannel(m) in channels <==> m in refs
  }

  ghost predicate UserChannels(channels: set<Channel>, refs: map<string, nat>) {
    forall u :: UserChannel(u) in channels <==> u in refs
  }

  ghost predicate Caps(clients: set<ClientId>, ipCounts: map<string, nat>, maxClients: nat, maxPerIp: nat) {
    && |clients| <= maxClients
    && (maxPerIp > 0 ==> forall a :: a in ipCounts ==> ipCounts[a] <= maxPerIp)
  }

  // ----- rewriting one live client's record -----

  /** Records that differ only in what the indexes do not depend on. */
  ghost predicate SameIdentity(a: Client, b: Client) {
    a.userId == b.userId && a.ip == b.ip && a.cleanedUp == b.cleanedUp
  }

  lemma Touched(objects: Objects, clients: set<ClientId>, c: ClientId, r: Client, released: multiset<ClientId>,
                userHeld: set<(string, ClientId)>, ipHeld: set<(string, ClientId)>)
    requires c in objects && SameIdentity(objects[c], r)
    requires Lifecycle(objects, clients, released) && SignedIn(objects, clients, userHeld)
    requires ConnectedFrom(objects, clients, ipHeld)
    ensures Lifecycle(objects[c := r], clients, released) && SignedIn(objects[c := r], clients, userHeld)
    ensures ConnectedFrom(objects[c := r], clients, ipHeld)
  {
    assert objects[c := r].Keys == objects.Keys;
  }

  lemma LimitsOf(objects: Objects, clients: set<ClientId>, c: ClientId, limits: Limits)
    requires c in objects && c in clients && ClientLimits(objects, clients, limits)
    ensures |objects[c].matchIds| <= MAX_SUBSCRIPTIONS_PER_CLIENT && Within(limits, objects[c].bucket)
  {
  }

  lemma LimitsTouched(objects: Objects, clients: set<ClientId>, c: ClientId, r: Client, limits: Limits)
    requires c in objects && ClientLimits(objects, clients, limits)
    requires |r.matchIds| <= MAX_SUBSCRIPTIONS_PER_CLIENT && Within(limits, r.bucket)
    ensures ClientLimits(objects[c := r], clients, limits)
  {
  }

  lemma HoldsTouched(objects: Objects, clients: set<ClientId>, held: set<(string, ClientId)>, c: ClientId, r: Client)
    requires c in objects && HoldsMatch(objects, clients, held) && r.matchIds == objects[c].matchIds
    ensures HoldsMatch(objects[c := r], clients, held)
  {
  }

  lemma HoldsAdded(objects: Objects, clients: set<ClientId>, held: set<(string, ClientId)>, c: ClientId, r: Client, m: string)
    requires c in objects && c in clients && HoldsMatch(objects, clients, held)
    requires r.matchIds == objects[c].matchIds + {m}
    ensures HoldsMatch(objects[c := r], clients, held + {(m, c)})
    ensures m !in objects[c].matchIds ==> (m, c) !in held
  {
  }

  lemma HoldsDropped(objects: Objects, clients: set<ClientId>, held: set<(string, ClientId)>, c: ClientId, r: Client, m: string)
    requires c in objects && c in clients && HoldsMatch(objects, clients, held) && m in objects[c].matchIds
    requires r.matchIds == objects[c].matchIds - {m}
    ensures HoldsMatch(objects[c := r], clients, held - {(m, c)})
    ensures (m, c) in held && |r.matchIds| < |objects[c].matchIds|
  {
  }

  // ----- channels follow the refcounts -----

  lemma MatchSubscribed(channels: set<Channel>, matchRefs: map<string, nat>, userRefs: map<string, nat>, m: string)
    requires MatchChannels(channels, matchRefs) && UserChannels(channels, userRefs)
    requires forall k :: k in matchRefs ==> matchRefs[k] > 0
    ensures var ch := channels + if CountOf(matchRefs, m) == 0 then {MatchChannel(m)} else {};
            MatchChannels(ch, Increment(matchRefs, m)) && UserChannels(ch, userRefs)
  {
  }

  lemma MatchUnsubscribed(channels: set<Channel>, matchRefs: map<string, nat>, userRefs: map<string, nat>, m: string)
    requires MatchChannels(channels, matchRefs) && UserChannels(channels, userRefs)
    ensures var ch := channels - if CountOf(matchRefs, m) <= 1 then {MatchChannel(m)} else {};
            MatchChannels(ch, Decrement(matchRefs, m)) && UserChannels(ch, userRefs)
  {
  }

  lemma UserSubscribed(channels: set<Channel>, matchRefs: map<string, nat>, userRefs: map<string, nat>, u: string)
    requires MatchChannels(channels, matchRefs) && UserChannels(channels, userRefs)
    requires forall k :: k in userRefs ==> userRefs[k] > 0
    ensures var ch := channels + if CountOf(userRefs, u) == 0 then {UserChannel(u)} else {};
            MatchChannels(ch, matchRefs) && UserChannels(ch, Increment(userRefs, u))
  {
  }

  lemma UserUnsubscribed(channels: set<Channel>, matchRefs: map<string, nat>, userRefs: map<string, nat>, u: string)
    requires MatchChannels(channels, matchRefs) && UserChannels(channels, userRefs)
    ensures var ch := channels - if CountOf(userRefs, u) <= 1 then {UserChannel(u)} else {};
            MatchChannels(ch, matchRefs) && UserChannels(ch, Decrement(userRefs, u))
  {
  }

  lemma PositiveRefs<C>(refs: map<string, nat>, members: map<string, set<C>>, held: set<(string, C)>)
    requires Represents(refs, members, held)
    ensures forall k :: k in refs ==> refs[k] > 0
  {
  }

  // ----- a client arrives -----

  lemma Arrived(objects: Objects, clients: set<ClientId>, c: ClientId, r: Client, released: multiset<ClientId>, limits: Limits)
    requires c !in objects && !r.cleanedUp && r.matchIds == {} && Within(limits, r.bucket)
    requires Lifecycle(objects, clients, released) && ClientLimits(objects, clients, limits)
    ensures Lifecycle(objects[c := r], clients + {c}, released)
    ensures ClientLimits(objects[c := r], clients + {c}, limits)
    ensures |clients + {c}| == |clients| + 1
  {
    assert objects[c := r].Keys - (clients + {c}) == objects.Keys - clients;
  }

  lemma ArrivedHolds(objects: Objects, clients: set<ClientId>, c: ClientId, r: Client, matchHeld: set<(string, ClientId)>)
    requires c !in objects && clients <= objects.Keys && r.matchIds == {} && HoldsMatch(objects, clients, matchHeld)
    ensures HoldsMatch(objects[c := r], clients + {c}, matchHeld)
  {
  }

  lemma ArrivedSignedIn(objects: Objects, clients: set<ClientId>, c: ClientId, r: Client, held: set<(string, ClientId)>)
    requires c !in objects && clients <= objects.Keys && SignedIn(objects, clients, held)
    ensures SignedIn(objects[c := r], clients + {c}, if r.userId.Some? then held + {(r.userId.value, c)} else held)
    ensures r.userId.Some? ==> (r.userId.value, c) !in held
  {
  }

  lemma ArrivedFrom(objects: Objects, clients: set<ClientId>, c: ClientId, r: Client, held: set<(string, ClientId)>)
    requires c !in objects && clients <= objects.Keys && ConnectedFrom(objects, clients, held)
    ensures ConnectedFrom(objects[c := r], clients + {c}, held + {(r.ip, c)})
    ensures (r.ip, c) !in held
  {
  }

  // ----- a client is released -----

  ghost function HeldBy(c: ClientId, ms: set<string>): set<(string, ClientId)> { set m | m in ms :: (m, c) }

  lemma Departed(objects: Objects, clients: set<ClientId>, c: ClientId, r: Client, released: multiset<ClientId>, limits: Limits)
    requires c in clients && r.cleanedUp
    requires Lifecycle(objects, clients, released) && ClientLimits(objects, clients, limits)
    ensures Lifecycle(objects[c := r], clients - {c}, released + multiset{c})
    ensures ClientLimits(objects[c := r], clients - {c}, limits)
    ensures |clients - {c}| == |clients| - 1
  {
    assert objects[c := r].Keys - (clients - {c}) == (objects.Keys - clients) + {c};
    assert multiset((objects.Keys - clients) + {c}) == multiset(objects.Keys - clients) + multiset{c};
  }

  lemma DepartedHolds(objects: Objects, clients: set<ClientId>, c: ClientId, r: Client, held: set<(string, ClientId)>)
    requires c in clients && clients <= objects.Keys && HoldsMatch(objects, clients, held)
    ensures HoldsMatch(objects[c := r], clients - {c}, held - HeldBy(c, objects[c].matchIds))
    ensures HeldBy(c, objects[c].matchIds) <= held
  {
  }

  lemma DepartedSignedIn(objects: Objects, clients: set<ClientId>, c: ClientId, r: Client, held: set<(string, ClientId)>)
    requires c in clients && clients <= objects.Keys && SignedIn(objects, clients, held) && r.userId == objects[c].userId
    ensures var u := r.userId;
            SignedIn(objects[c := r], clients - {c}, if u.Some? && u.value != "" then held - {(u.value, c)} else held)
    ensures r.userId.Some? ==> (r.userId.value, c) in held
  {
  }

  lemma DepartedFrom(objects: Objects, clients: set<ClientId>, c: ClientId, r: Client, held: set<(string, ClientId)>)
    requires c in clients && clients <= objects.Keys && ConnectedFrom(objects, clients, held) && r.ip == objects[c].ip
    ensures ConnectedFrom(objects[c := r], clients - {c}, held - {(r.ip, c)})
    ensures (r.ip, c) in held
  {
  }

  // ----- the whole state -----

  /** The module-level maps and sets of the process. `channels` is what the process is
      subscribed to in Redis. */
  datatype State = State(
    objects: Objects,
    clients: set<ClientId>,
    nextId: ClientId,
    matchRefs: map<string, nat>,
    matchSubscribers: map<string, set<ClientId>>,
    userRefs: map<string, nat>,
    userSockets: map<string, set<ClientId>>,
    ipCounts: map<string, nat>,
    channels: set<Channel>,
    cascadeCache: map<string, Cascade>,
    slowClientDrops: nat)

  /** How often each client has been released, and the relations the indexes stand for. */
  datatype History = History(
    released: multiset<ClientId>,
    matchHeld: set<(string, ClientId)>,
    userHeld: set<(string, ClientId)>,
    ipHeld: set<(string, ClientId)>,
    ipMembers: map<string, set<ClientId>>)

  datatype Settings = Settings(maxClients: nat, maxPerIp: nat, limits: Limits)

  ghost predicate Inv(s: State, h: History, cfg: Settings) {
    && Sane(cfg.limits)
    && (forall c :: c in s.objects ==> c < s.nextId)
    && s.clients <= s.objects.Keys
    && Lifecycle(s.objects, s.clients, h.released)
    && ClientLimits(s.objects, s.clients, cfg.limits)
    && Caps(s.clients, s.ipCounts, cfg.maxClients, cfg.maxPerIp)
    && HoldsMatch(s.objects, s.clients, h.matchHeld)
    && SignedIn(s.objects, s.clients, h.userHeld)
    && ConnectedFrom(s.objects, s.clients, h.ipHeld)
    && Represents(s.matchRefs, s.matchSubscribers, h.matchHeld)
    && Represents(s.userRefs, s.userSockets, h.userHeld)
    && Represents(s.ipCounts, h.ipMembers, h.ipHeld)
    && MatchChannels(s.channels, s.matchRefs)
    && UserChannels(s.channels, s.userRefs)
  }

  const EMPTY: State := State(map[], {}, 0, map[], map[], map[], map[], map[], {}, map[], 0)
  ghost const NO_HISTORY: History := History(multiset{}, {}, {}, {}, map[])

  lemma EmptyInv(cfg: Settings)
    requires Sane(cfg.limits)
    ensures Inv(EMPTY, NO_HISTORY, cfg)
  {
  }

  /** Index, refcount, channel and caps at one key. The index of a match is exactly the live clients
      holding it, its refcount their number, and the process is subscribed to its channel exactly
      when there is one; likewise for users and addresses. Under the empty user id, departed clients
      stay in the index for good. */
  ghost predicate Consistent(s: State, cfg: Settings, key: string) {
    && s.clients <= s.objects.Keys
    && MembersOf(s.matchSubscribers, key) == (set c | c in s.clients && key in s.objects[c].matchIds)
    && CountOf(s.matchRefs, key) == |MembersOf(s.matchSubscribers, key)|
    && (MatchChannel(key) in s.channels <==> MembersOf(s.matchSubscribers, key) != {})
    && MembersOf(s.userSockets, key)
       == (set c | c in s.objects && s.objects[c].userId == Some(key) && (c in s.clients || key == ""))
    && CountOf(s.userRefs, key) == |MembersOf(s.userSockets, key)|
    && (UserChannel(key) in s.channels <==> MembersOf(s.userSockets, key) != {})
    && CountOf(s.ipCounts, key) == |set c | c in s.clients && s.objects[c].ip == key|
    && |s.clients| <= cfg.maxClients
    && (cfg.maxPerIp > 0 ==> CountOf(s.ipCounts, key) <= cfg.maxPerIp)
  }

  /** What the invariant says at any key, and that each departed client was released exactly once. */
  lemma InvMeans(s: State, h: History, cfg: Settings, key: string)
    requires Inv(s, h, cfg)
    ensures Consistent(s, cfg, key) && h.released == multiset(s.objects.Keys - s.clients)
  {
    hide Represents, CountOf, MembersOf, HoldsMatch, SignedIn, ConnectedFrom, Sane, ClientLimits;
    CountIsSize(s.matchRefs, s.matchSubscribers, h.matchHeld, key);
    CountIsSize(s.userRefs, s.userSockets, h.userHeld, key);
    CountIsSize(s.ipCounts, h.ipMembers, h.ipHeld, key);
    MatchMembers(s.objects, s.clients, s.matchRefs, s.matchSubscribers, h.matchHeld, key);
    UserMembers(s.objects, s.clients, s.userRefs, s.userSockets, h.userHeld, key);
    IpMembers(s.objects, s.clients, s.ipCounts, h.ipMembers, h.ipHeld, key);
    KeyPresent(s.matchRefs, s.matchSubscribers, h.matchHeld, key);
    KeyPresent(s.userRefs, s.userSockets, h.userHeld, key);
    CapOfKey(s.clients, s.ipCounts, cfg.maxClients, cfg.maxPerIp, key);
  }

  /** The live clients signed in as a user are exactly its index if and only if the id is non-empty or
      no client with the empty id has departed. */
  lemma UserIndexIff(s: State, h: History, cfg: Settings, key: string)
    requires Inv(s, h, cfg)
    ensures MembersOf(s.userSockets, key) == (set c | c in s.clients && s.objects[c].userId == Some(key)) <==>
            key != "" || forall c :: c in s.objects && s.objects[c].userId == Some("") ==> c in s.clients
  {
    hide Inv, MembersOf, CountOf;
    InvMeans(s, h, cfg, key);
    var live := set c | c in s.clients && s.objects[c].userId == Some(key);
    if key == "" && MembersOf(s.userSockets, key) == live {
      forall c | c in s.objects && s.objects[c].userId == Some("") ensures c in s.clients {
        assert c in MembersOf(s.userSockets, key);
      }
    }
  }

  lemma KeyPresent(refs: map<string, nat>, members: map<string, set<ClientId>>, held: set<(string, ClientId)>, key: string)
    requires Represents(refs, members, held)
    ensures key in refs <==> MembersOf(members, key) != {}
  {
  }

  lemma CapOfKey(clients: set<ClientId>, ipCounts: map<string, nat>, maxClients: nat, maxPerIp: nat, key: string)
    requires Caps(clients, ipCounts, maxClients, maxPerIp)
    ensures maxPerIp > 0 ==> CountOf(ipCounts, key) <= maxPerIp
  {
  }

  lemma MatchMembers(objects: Objects, clients: set<ClientId>, refs: map<string, nat>,
                     members: map<string, set<ClientId>>, held: set<(string, ClientId)>, m: string)
    requires clients <= objects.Keys && HoldsMatch(objects, clients, held) && Represents(refs, members, held)
    ensures MembersOf(members, m) == set c | c in clients && m in objects[c].matchIds
  {
    hide Represents, MembersOf;
    CountIsSize(refs, members, held, m);
  }

  lemma UserMembers(objects: Objects, clients: set<ClientId>, refs: map<string, nat>,
                    members: map<string, set<ClientId>>, held: set<(string, ClientId)>, u: string)
    requires clients <= objects.Keys && SignedIn(objects, clients, held) && Represents(refs, members, held)
    ensures MembersOf(members, u) == set c | c in objects && objects[c].userId == Some(u) && (c in clients || u == "")
  {
    hide Represents, MembersOf;
    CountIsSize(refs, members, held, u);
  }

  lemma IpMembers(objects: Objects, clients: set<ClientId>, refs: map<string, nat>,
                  members: map<string, set<ClientId>>, held: set<(string, ClientId)>, a: string)
    requires clients <= objects.Keys && ConnectedFrom(objects, clients, held) && Represents(refs, members, held)
    ensures MembersOf(members, a) == set c | c in clients && objects[c].ip == a
  {
    hide Represents, MembersOf;
    CountIsSize(refs, members, held, a);
  }

  // ----- the steps and what they keep -----

  /** Replace what the indexes do not depend on in one client's record. */
  function Put(s: State, c: ClientId, r: Client): State {
    s.(objects := s.objects[c := r])
  }

  lemma PutInv(s: State, h: History, cfg: Settings, c: ClientId, r: Client)
    requires Inv(s, h, cfg) && c in s.objects && SameIdentity(s.objects[c], r)
    requires r.matchIds == s.objects[c].matchIds && (c in s.clients ==> Within(cfg.limits, r.bucket))
    ensures Inv(Put(s, c, r), h, cfg)
  {
    hide Represents, Within, Sane, Caps, Lifecycle, ClientLimits, HoldsMatch, SignedIn, ConnectedFrom, MatchChannels, UserChannels;
    Touched(s.objects, s.clients, c, r, h.released, h.userHeld, h.ipHeld);
    HoldsTouched(s.objects, s.clients, h.matchHeld, c, r);
    if c in s.clients {
      LimitsOf(s.objects, s.clients, c, cfg.limits);
      LimitsTouched(s.objects, s.clients, c, r, cfg.limits);
    } else {
      LimitsElsewhere(s.objects, s.clients, c, r, cfg.limits);
    }
  }

  lemma LimitsElsewhere(objects: Objects, clients: set<ClientId>, c: ClientId, r: Client, limits: Limits)
    requires c !in clients && ClientLimits(objects, clients, limits)
    ensures ClientLimits(objects[c := r], clients, limits)
  {
  }

  /** A live client starts holding a match. */
  function Hold(s: State, c: ClientId, m: string): State
    requires c in s.objects
  {
    s.(objects := s.objects[c := s.objects[c].(matchIds := s.objects[c].matchIds + {m})],
       matchSubscribers := AddMember(s.matchSubscribers, m, c),
       matchRefs := Increment(s.matchRefs, m),
       channels := s.channels + if CountOf(s.matchRefs, m) == 0 then {MatchChannel(m)} else {})
  }

  lemma HoldInv(s: State, h: History, cfg: Settings, c: ClientId, m: string)
    requires Inv(s, h, cfg) && c in s.clients && m !in s.objects[c].matchIds
    requires |s.objects[c].matchIds| < MAX_SUBSCRIPTIONS_PER_CLIENT
    ensures Inv(Hold(s, c, m), h.(matchHeld := h.matchHeld + {(m, c)}), cfg)
  {
    hide Represents, Increment, AddMember, CountOf, Within, Sane, Caps, Lifecycle, ClientLimits, HoldsMatch,
         SignedIn, ConnectedFrom, MatchChannels, UserChannels;
    var r := s.objects[c].(matchIds := s.objects[c].matchIds + {m});
    LimitsOf(s.objects, s.clients, c, cfg.limits);
    HoldsAdded(s.objects, s.clients, h.matchHeld, c, r, m);
    Touched(s.objects, s.clients, c, r, h.released, h.userHeld, h.ipHeld);
    LimitsTouched(s.objects, s.clients, c, r, cfg.limits);
    Added(s.matchRefs, s.matchSubscribers, h.matchHeld, m, c);
    PositiveRefs(s.matchRefs, s.matchSubscribers, h.matchHeld);
    MatchSubscribed(s.channels, s.matchRefs, s.userRefs, m);
  }

  /** A live client stops holding a match. */
  function Unhold(s: State, c: ClientId, m: string): State
    requires c in s.objects
  {
    s.(objects := s.objects[c := s.objects[c].(matchIds := s.objects[c].matchIds - {m})],
       matchSubscribers := RemoveMember(s.matchSubscribers, m, c),
       matchRefs := Decrement(s.matchRefs, m),
       channels := s.channels - if CountOf(s.matchRefs, m) <= 1 then {MatchChannel(m)} else {})
  }

  lemma UnholdInv(s: State, h: History, cfg: Settings, c: ClientId, m: string)
    requires Inv(s, h, cfg) && c in s.clients && m in s.objects[c].matchIds
    ensures Inv(Unhold(s, c, m), h.(matchHeld := h.matchHeld - {(m, c)}), cfg)
  {
    hide Represents, Decrement, RemoveMember, CountOf, Within, Sane, Caps, Lifecycle, ClientLimits, HoldsMatch,
         SignedIn, ConnectedFrom, MatchChannels, UserChannels;
    var r := s.objects[c].(matchIds := s.objects[c].matchIds - {m});
    LimitsOf(s.objects, s.clients, c, cfg.limits);
    HoldsDropped(s.objects, s.clients, h.matchHeld, c, r, m);
    Touched(s.objects, s.clients, c, r, h.released, h.userHeld, h.ipHeld);
    LimitsTouched(s.objects, s.clients, c, r, cfg.limits);
    Removed(s.matchRefs, s.matchSubscribers, h.matchHeld, m, c);
    MatchUnsubscribed(s.channels, s.matchRefs, s.userRefs, m);
  }

  // ----- accepting a connection -----

  /** The two admission checks of an upgrade. */
  predicate Admissible(s: State, cfg: Settings, ip: string) {
    && |s.clients| < cfg.maxClients
    && (cfg.maxPerIp > 0 ==> CountOf(s.ipCounts, ip) < cfg.maxPerIp)
  }

  function Fresh(cfg: Settings, userId: Option<string>, ip: string, now: real): Client {
    Client(userId, ip, Open, 0, [Hello(userId)], {}, Bucket(cfg.limits.burst, now), false)
  }

  /** Register the connection under the next number. */
  function Accept(s: State, r: Client): State {
    var t := s.(objects := s.objects[s.nextId := r], clients := s.clients + {s.nextId}, nextId := s.nextId + 1,
                ipCounts := Increment(s.ipCounts, r.ip));
    if r.userId.None? then t
    else
      var u := r.userId.value;
      t.(userSockets := AddMember(s.userSockets, u, s.nextId), userRefs := Increment(s.userRefs, u),
         channels := s.channels + if CountOf(s.userRefs, u) == 0 then {UserChannel(u)} else {})
  }

  ghost function Accepted(h: History, c: ClientId, r: Client): History {
    h.(userHeld := if r.userId.Some? then h.userHeld + {(r.userId.value, c)} else h.userHeld,
       ipHeld := h.ipHeld + {(r.ip, c)}, ipMembers := AddMember(h.ipMembers, r.ip, c))
  }

  lemma CapsAccept(clients: set<ClientId>, ipCounts: map<string, nat>, maxClients: nat, maxPerIp: nat, c: ClientId, ip: string)
    requires Caps(clients, ipCounts, maxClients, maxPerIp) && |clients| < maxClients
    requires maxPerIp > 0 ==> CountOf(ipCounts, ip) < maxPerIp
    ensures Caps(clients + {c}, Increment(ipCounts, ip), maxClients, maxPerIp)
  {
    if c in clients { assert clients + {c} == clients; }
  }

  lemma FreshWithin(cfg: Settings, userId: Option<string>, ip: string, now: real)
    requires Sane(cfg.limits)
    ensures Within(cfg.limits, Fresh(cfg, userId, ip, now).bucket)
  {
  }

  /** Accepting an admissible connection keeps the invariant, caps included. */
  lemma AcceptInv(s: State, h: History, cfg: Settings, userId: Option<string>, ip: string, now: real)
    requires Inv(s, h, cfg) && Admissible(s, cfg, ip)
    ensures var r := Fresh(cfg, userId, ip, now); Inv(Accept(s, r), Accepted(h, s.nextId, r), cfg)
  {
    hide Represents, Increment, AddMember, CountOf, Within, Sane, Caps, Lifecycle, ClientLimits, HoldsMatch,
         SignedIn, ConnectedFrom, MatchChannels, UserChannels;
    var c, r := s.nextId, Fresh(cfg, userId, ip, now);
    FreshWithin(cfg, userId, ip, now);
    Arrived(s.objects, s.clients, c, r, h.released, cfg.limits);
    ArrivedHolds(s.objects, s.clients, c, r, h.matchHeld);
    ArrivedSignedIn(s.objects, s.clients, c, r, h.userHeld);
    ArrivedFrom(s.objects, s.clients, c, r, h.ipHeld);
    Added(s.ipCounts, h.ipMembers, h.ipHeld, ip, c);
    CapsAccept(s.clients, s.ipCounts, cfg.maxClients, cfg.maxPerIp, c, ip);
    if userId.Some? {
      Added(s.userRefs, s.userSockets, h.userHeld, userId.value, c);
      PositiveRefs(s.userRefs, s.userSockets, h.userHeld);
      UserSubscribed(s.channels, s.matchRefs, s.userRefs, userId.value);
    }
  }

  // ----- releasing a connection -----

  /** Match side of a teardown, after its loop over the client's ids: nothing in the match
      index, its refcounts or the match channels mentions the client any more. */
  ghost predicate MatchesReleased(s: State, h: History, c: ClientId, ms: set<string>,
                                  refs: map<string, nat>, members: map<string, set<ClientId>>, channels: set<Channel>) {
    && Represents(refs, members, h.matchHeld - HeldBy(c, ms))
    && MatchChannels(channels, refs)
    && UserChannels(channels, s.userRefs)
  }

  lemma NoneReleased(s: State, h: History, cfg: Settings, c: ClientId)
    requires Inv(s, h, cfg)
    ensures MatchesReleased(s, h, c, {}, s.matchRefs, s.matchSubscribers, s.channels)
  {
    hide Represents, Sane, Caps, Lifecycle, ClientLimits, HoldsMatch, SignedIn, ConnectedFrom, MatchChannels, UserChannels;
    assert h.matchHeld - HeldBy(c, {}) == h.matchHeld;
  }

  lemma OneReleased(s: State, h: History, c: ClientId, ms: set<string>, m: string,
                    refs: map<string, nat>, members: map<string, set<ClientId>>, channels: set<Channel>)
    requires MatchesReleased(s, h, c, ms, refs, members, channels) && m !in ms && (m, c) in h.matchHeld
    ensures MatchesReleased(s, h, c, ms + {m}, Decrement(refs, m), RemoveMember(members, m, c),
                            channels - if CountOf(refs, m) <= 1 then {MatchChannel(m)} else {})
  {
    hide Represents, Decrement, RemoveMember, CountOf, MatchChannels, UserChannels;
    var held := h.matchHeld - HeldBy(c, ms);
    assert (m, c) in held;
    assert held - {(m, c)} == h.matchHeld - HeldBy(c, ms + {m});
    Removed(refs, members, held, m, c);
    MatchUnsubscribed(channels, refs, s.userRefs, m);
  }

  /** User and address side of a teardown, on top of a finished match side. */
  function Release(s: State, c: ClientId, refs: map<string, nat>, members: map<string, set<ClientId>>, channels: set<Channel>): State
    requires c in s.objects
  {
    var r := s.objects[c];
    var t := s.(objects := s.objects[c := r.(cleanedUp := true, matchIds := {})], clients := s.clients - {c},
                matchRefs := refs, matchSubscribers := members, channels := channels,
                ipCounts := Decrement(s.ipCounts, r.ip));
    if r.userId.None? || r.userId.value == "" then t
    else
      var u := r.userId.value;
      var last := CountOf(s.userRefs, u) <= 1;
      t.(userSockets := RemoveMember(s.userSockets, u, c), userRefs := Decrement(s.userRefs, u),
         channels := channels - if last then {UserChannel(u)} else {},
         cascadeCache := if last then s.cascadeCache - {u} else s.cascadeCache)
  }

  ghost function Departure(h: History, c: ClientId, r: Client): History {
    h.(released := h.released + multiset{c},
       matchHeld := h.matchHeld - HeldBy(c, r.matchIds),
       userHeld := if r.userId.Some? && r.userId.value != "" then h.userHeld - {(r.userId.value, c)} else h.userHeld,
       ipHeld := h.ipHeld - {(r.ip, c)}, ipMembers := RemoveMember(h.ipMembers, r.ip, c))
  }

  lemma CapsRelease(clients: set<ClientId>, ipCounts: map<string, nat>, maxClients: nat, maxPerIp: nat, c: ClientId, ip: string)
    requires Caps(clients, ipCounts, maxClients, maxPerIp) && c in clients
    ensures Caps(clients - {c}, Decrement(ipCounts, ip), maxClients, maxPerIp)
  {
  }

  /** A teardown keeps the invariant: the client leaves every index and is counted as released
      once more. */
  lemma ReleaseInv(s: State, h: History, cfg: Settings, c: ClientId,
                   refs: map<string, nat>, members: map<string, set<ClientId>>, channels: set<Channel>)
    requires Inv(s, h, cfg) && c in s.clients
    requires MatchesReleased(s, h, c, s.objects[c].matchIds, refs, members, channels)
    ensures Inv(Release(s, c, refs, members, channels), Departure(h, c, s.objects[c]), cfg)
  {
    hide Represents, Decrement, RemoveMember, CountOf, Within, Sane, Caps, Lifecycle, ClientLimits, HoldsMatch,
         SignedIn, ConnectedFrom, MatchChannels, UserChannels;
    var r := s.objects[c];
    var gone := r.(cleanedUp := true, matchIds := {});
    Departed(s.objects, s.clients, c, gone, h.released, cfg.limits);
    DepartedHolds(s.objects, s.clients, c, gone, h.matchHeld);
    DepartedSignedIn(s.objects, s.clients, c, gone, h.userHeld);
    DepartedFrom(s.objects, s.clients, c, gone, h.ipHeld);
    Removed(s.ipCounts, h.ipMembers, h.ipHeld, r.ip, c);
    CapsRelease(s.clients, s.ipCounts, cfg.maxClients, cfg.maxPerIp, c, r.ip);
    if r.userId.Some? && r.userId.value != "" {
      Removed(s.userRefs, s.userSockets, h.userHeld, r.userId.value, c);
      UserUnsubscribed(channels, refs, s.userRefs, r.userId.value);
    }
  }

  /** Somebody live is signed in as the user. */
  ghost predicate Online(s: State, u: string) {
    exists d :: d in s.clients && d in s.objects && s.objects[d].userId == Some(u)
  }

  /** The same connections, signed in as before; live ones may have left. */
  ghost predicate Fewer(a: State, b: State) {
    && b.objects.Keys == a.objects.Keys && b.clients <= a.clients
    && (forall d :: d in a.objects ==> b.objects[d].userId == a.objects[d].userId)
  }

  /** From one state to a later one with no more clients: a cached cascade is dropped exactly when a
      client signed in as that user has left and nobody signed in as it remains. Under the empty id
      nothing is dropped. */
  ghost predicate CascadesFollow(a: State, b: State) {
    && Fewer(a, b)
    && (forall u :: Lookup(b.cascadeCache, u) == Follows(a, b, u))
  }

  ghost function Follows(a: State, b: State, u: string): Option<Cascade> {
    if u != "" && Online(a, u) && !Online(b, u) then None else Lookup(a.cascadeCache, u)
  }

  lemma ReleaseOfUser(s: State, h: History, cfg: Settings, c: ClientId, u: string)
    requires Inv(s, h, cfg) && c in s.clients && s.objects[c].userId == Some(u) && u != ""
    ensures CountOf(s.userRefs, u) <= 1 <==> forall d :: d in s.clients && s.objects[d].userId == Some(u) ==> d == c
  {
    hide Represents, CountOf, MembersOf, HoldsMatch, SignedIn, ConnectedFrom, Sane, Caps, ClientLimits,
         Lifecycle, MatchChannels, UserChannels;
    CountIsSize(s.userRefs, s.userSockets, h.userHeld, u);
    UserMembers(s.objects, s.clients, s.userRefs, s.userSockets, h.userHeld, u);
    var ms := MembersOf(s.userSockets, u);
    if d :| d in s.clients && s.objects[d].userId == Some(u) && d != c {
      TwoMembers(ms, c, d);
    } else {
      assert ms == {c};
    }
  }

  lemma ReleaseCascadeOf(s: State, h: History, cfg: Settings, c: ClientId, t: State, u: string)
    requires Inv(s, h, cfg) && c in s.clients && s.objects[c].userId == Some(u) && u != ""
    requires Fewer(s, t) && t.clients == s.clients - {c}
    requires t.cascadeCache == if CountOf(s.userRefs, u) <= 1 then s.cascadeCache - {u} else s.cascadeCache
    ensures CascadesFollow(s, t)
  {
    hide Inv, CountOf;
    assert s.clients <= s.objects.Keys by { InvMeans(s, h, cfg, ""); }
    ReleaseOfUser(s, h, cfg, c, u);
    assert Online(s, u);
    OnlineAfter(s, t, c, u);
    forall v | v != u ensures Lookup(t.cascadeCache, v) == Follows(s, t, v) { OnlineAfter(s, t, c, v); }
  }

  /** A teardown drops a cached cascade exactly when nobody else is signed in as that user. */
  lemma ReleaseCascades(s: State, h: History, cfg: Settings, c: ClientId,
                        refs: map<string, nat>, members: map<string, set<ClientId>>, channels: set<Channel>)
    requires Inv(s, h, cfg) && c in s.clients && c in s.objects
    ensures CascadesFollow(s, Release(s, c, refs, members, channels))
  {
    hide Inv, CountOf, Decrement, RemoveMember, CascadesFollow;
    var t, r := Release(s, c, refs, members, channels), s.objects[c];
    if r.userId.Some? && r.userId.value != "" {
      ReleaseCascadeOf(s, h, cfg, c, t, r.userId.value);
    } else {
      ReleaseOfNobody(s, t, c);
    }
  }

  lemma ReleaseOfNobody(s: State, t: State, c: ClientId)
    requires Fewer(s, t) && t.clients == s.clients - {c} && t.cascadeCache == s.cascadeCache
    requires c in s.objects && (s.objects[c].userId == None || s.objects[c].userId == Some(""))
    ensures CascadesFollow(s, t)
  {
    forall u | u != "" && Online(s, u) ensures Online(t, u) {
      var d :| d in s.clients && d in s.objects && s.objects[d].userId == Some(u);
      assert d in t.clients && t.objects[d].userId == Some(u);
    }
  }

  lemma OnlineAfter(s: State, t: State, c: ClientId, u: string)
    requires s.clients <= s.objects.Keys && t.clients == s.clients - {c} && t.objects.Keys == s.objects.Keys
    requires forall d :: d in s.objects ==> t.objects[d].userId == s.objects[d].userId
    ensures Online(t, u) <==> exists d :: d in s.clients && s.objects[d].userId == Some(u) && d != c
  {
    if d :| d in s.clients && s.objects[d].userId == Some(u) && d != c { assert d in t.clients; }
  }

  lemma CascadesTwice(a: State, b: State, d: State)
    requires CascadesFollow(a, b) && CascadesFollow(b, d)
    ensures CascadesFollow(a, d)
  {
    hide Lookup;
    assert forall u :: (Online(d, u) ==> Online(b, u)) && (Online(b, u) ==> Online(a, u));
  }

  lemma CascadesSame(a: State, b: State)
    requires Fewer(a, b) && b.clients == a.clients && b.cascadeCache == a.cascadeCache
    ensures CascadesFollow(a, b)
  {
    assert forall u :: Online(a, u) ==> Online(b, u);
  }

  /** What a live client's user is cached with survives. */
  lemma CascadeKept(a: State, b: State, d: ClientId)
    requires CascadesFollow(a, b) && d in b.clients && d in b.objects && b.objects[d].userId.Some?
    ensures Lookup(b.cascadeCache, b.objects[d].userId.value) == Lookup(a.cascadeCache, b.objects[d].userId.value)
  {
    assert Online(b, b.objects[d].userId.value);
  }

  lemma TwoMembers(s: set<ClientId>, c: ClientId, d: ClientId)
    requires c in s && d in s && c != d
    ensures |s| >= 2
  {
    assert |s - {c}| == |s| - 1;
    assert d in s - {c};
  }
}
