/** Facts about one connection over whole runs of the gateway (services/ws-gateway/src/server.ts). */
module GatewayRuns {
  import opened Options
  import opened BettorAdjustment
  import opened RefIndex
  import opened TokenBucket
  import opened GatewayState
  import opened Gateway

  /** The event is a message the gateway takes from client `c`. */
  ghost predicate Hears(a: State, e: Event, c: ClientId) {
    e.MessageFrom? && e.c == c && c in a.clients && c in a.objects && a.objects[c].bucket.lastMs <= e.now
  }

  lemma KnownBelow(a: State, settings: Settings, c: ClientId)
    requires Sound(a, settings) && c in a.objects
    ensures c < a.nextId && (c in a.clients <==> !a.objects[c].cleanedUp)
    ensures c in a.clients ==> Sane(settings.limits) && Within(settings.limits, a.objects[c].bucket)
  {
    var h :| Inv(a, h, settings);
    if c in a.clients { LimitsOf(a.objects, a.clients, c, settings.limits); }
  }

  lemma DispatchBucket(cfg: Config, a: State, b: State, m: string, payload: string, c: ClientId)
    requires DispatchStep(cfg, a, b, m, payload) && c in a.objects
    ensures c in b.objects && b.objects[c].bucket == a.objects[c].bucket
  {
    hide FrameFor, Slow;
  }

  lemma CleanupBucket(a: State, b: State, d: ClientId, c: ClientId)
    requires CleanupStep(a, b, d) && c in a.objects
    ensures c in b.objects && b.objects[c].bucket == a.objects[c].bucket
  {
  }

  lemma SweepBucket(a: State, b: State, c: ClientId)
    requires SweepStep(a, b) && c in a.objects
    ensures c in b.objects && b.objects[c].bucket == a.objects[c].bucket
  {
  }

  lemma MessageBucket(l: Limits, a: State, b: State, d: ClientId, now: real, msg: Inbound, c: ClientId)
    requires MessageStep(l, a, b, d, now, msg) && c in a.objects
    ensures c in b.objects && b.objects[c].bucket == if c == d then Next(l, a.objects[c].bucket, now) else a.objects[c].bucket
  {
    hide Next, Admits, Replies, HandleIds, Outbox;
  }

  lemma AcceptBucket(a: State, r: Client, c: ClientId)
    requires c in a.objects && c < a.nextId
    ensures c in Accept(a, r).objects && Accept(a, r).objects[c] == a.objects[c]
    ensures c !in a.clients ==> c !in Accept(a, r).clients
  {
    hide Increment, AddMember, CountOf;
  }

  /** Only its own messages touch a client's bucket, and each is charged once. */
  lemma BucketStep(cfg: Config, a: State, b: State, e: Event, c: ClientId)
    requires Sound(a, cfg.settings) && Stepped(cfg, a, b, e) && c in a.objects
    ensures c in b.objects
    ensures b.objects[c].bucket == if Hears(a, e, c) then Next(cfg.settings.limits, a.objects[c].bucket, e.now) else a.objects[c].bucket
  {
    hide Sound, Next, Accept, Fresh, Admissible, MessageStep, CleanupStep, SweepStep, DispatchStep;
    KnownBelow(a, cfg.settings, c);
    match e
    case UpgradeRequest(ip, claims, now) => AcceptBucket(a, Fresh(cfg.settings, claims, ip, now), c);
    case MessageFrom(d, now, msg) =>
      if d in a.clients && d in a.objects && a.objects[d].bucket.lastMs <= now {
        MessageBucket(cfg.settings.limits, a, b, d, now, msg, c);
      }
    case CloseEvent(d) => if d in a.objects { CleanupBucket(a, b, d, c); }
    case SweepTick => SweepBucket(a, b, c);
    case OddsPublished(m, payload) => DispatchBucket(cfg, a, b, m, payload, c);
    case _ =>
  }

  /** A released client is never live again. */
  lemma ReleasedStep(cfg: Config, a: State, b: State, e: Event, c: ClientId)
    requires Sound(a, cfg.settings) && Stepped(cfg, a, b, e) && c in a.objects && c !in a.clients
    ensures c in b.objects && c !in b.clients
  {
    hide Sound, Next, Admits, Replies, HandleIds, FrameFor, Accept, Fresh, Admissible;
    KnownBelow(a, cfg.settings, c);
    if e.UpgradeRequest? { AcceptBucket(a, Fresh(cfg.settings, e.claims, e.ip, e.now), c); }
  }

  lemma {:induction false} ReleasedForGood(cfg: Config, states: seq<State>, events: seq<Event>, c: ClientId, i: nat, j: nat)
    requires IsRun(cfg, states, events) && i <= j < |states|
    requires c in states[i].objects && c !in states[i].clients
    ensures c in states[j].objects && c !in states[j].clients
    decreases j
  {
    hide Sound, Stepped;
    if i < j {
      ReleasedForGood(cfg, states, events, c, i, j - 1);
      ReleasedStep(cfg, states[j - 1], states[j], events[j - 1], c);
    }
  }

  /** When the gateway took messages from `c`, among the first `n` events. */
  ghost function Times(states: seq<State>, events: seq<Event>, c: ClientId, n: nat): seq<real>
    requires n <= |events| < |states|
  {
    if n == 0 then []
    else Times(states, events, c, n - 1) + if Hears(states[n - 1], events[n - 1], c) then [events[n - 1].now] else []
  }

  lemma {:induction false} AfterAppend(l: Limits, b: Bucket, ts: seq<real>, t: real)
    ensures After(l, b, ts + [t]) == Next(l, After(l, b, ts), t)
    decreases |ts|
  {
    if ts == [] {
      assert ts + [t] == [t];
      assert After(l, Next(l, b, t), [t][1..]) == Next(l, b, t);
    } else {
      assert (ts + [t])[1..] == ts[1..] + [t];
      AfterAppend(l, Next(l, b, ts[0]), ts[1..], t);
    }
  }

  /** The bucket after `n` events is the token-bucket fold over the messages taken, whose times
      never run backwards. */
  lemma {:induction false} BucketFollows(cfg: Config, states: seq<State>, events: seq<Event>, c: ClientId, n: nat)
    requires IsRun(cfg, states, events) && n <= |events| && c in states[0].objects
    ensures c in states[n].objects
    ensures var b, ts := states[0].objects[c].bucket, Times(states, events, c, n);
            && states[n].objects[c].bucket == After(cfg.settings.limits, b, ts)
            && Monotone(b.lastMs, ts)
            && states[n].objects[c].bucket.lastMs == if ts == [] then b.lastMs else ts[|ts| - 1]
  {
    hide Sound, Stepped, Next, After;
    if n == 0 {
      AfterNone(cfg.settings.limits, states[0].objects[c].bucket);
      return;
    }
    BucketFollows(cfg, states, events, c, n - 1);
    BucketStep(cfg, states[n - 1], states[n], events[n - 1], c);
    if Hears(states[n - 1], events[n - 1], c) {
      var b, ts, t := states[0].objects[c].bucket, Times(states, events, c, n - 1), events[n - 1].now;
      AfterAppend(cfg.settings.limits, b, ts, t);
      HeardLater(cfg.settings.limits, states[n - 1], events[n - 1], c);
      MonotoneAppend(b.lastMs, ts, t);
    } else {
      assert Times(states, events, c, n) == Times(states, events, c, n - 1);
    }
  }

  lemma HeardLater(l: Limits, a: State, e: Event, c: ClientId)
    requires Hears(a, e, c)
    ensures a.objects[c].bucket.lastMs <= e.now && Next(l, a.objects[c].bucket, e.now).lastMs == e.now
  {
  }

  lemma MonotoneAppend(from: real, ts: seq<real>, t: real)
    requires Monotone(from, ts) && (if ts == [] then from else ts[|ts| - 1]) <= t
    ensures Monotone(from, ts + [t])
  {
    if ts != [] { LaterIsMore(from, ts, 0, |ts| - 1); }
  }

  lemma {:induction false} ProcessedAppend(l: Limits, b: Bucket, ts: seq<real>, t: real)
    ensures Processed(l, b, ts + [t]) == Processed(l, b, ts) + if Admits(l, After(l, b, ts), t) then 1 else 0
    decreases |ts|
  {
    if ts == [] {
      assert ts + [t] == [t];
      assert Processed(l, Next(l, b, t), [t][1..]) == 0;
    } else {
      assert (ts + [t])[1..] == ts[1..] + [t];
      ProcessedAppend(l, Next(l, b, ts[0]), ts[1..], t);
    }
  }

  /** The event is a message from `c` that the gateway goes on to process. */
  ghost predicate Processes(l: Limits, a: State, e: Event, c: ClientId) {
    Hears(a, e, c) && Admits(l, a.objects[c].bucket, e.now)
  }

  /** How many of the events from `i` up to `j` are messages from `c` that are processed. */
  ghost function ProcessedIn(l: Limits, states: seq<State>, events: seq<Event>, c: ClientId, i: nat, j: nat): nat
    requires i <= j <= |events| < |states|
  {
    if i == j then 0
    else ProcessedIn(l, states, events, c, i, j - 1) + if Processes(l, states[j - 1], events[j - 1], c) then 1 else 0
  }

  /** That number is the token bucket's own count over the messages taken. */
  lemma {:induction false} CountFollows(cfg: Config, states: seq<State>, events: seq<Event>, c: ClientId, n: nat)
    requires IsRun(cfg, states, events) && n <= |events| && c in states[0].objects
    ensures ProcessedIn(cfg.settings.limits, states, events, c, 0, n)
         == Processed(cfg.settings.limits, states[0].objects[c].bucket, Times(states, events, c, n))
  {
    hide Sound, Stepped, Next, After, Admits;
    if n == 0 { return; }
    CountFollows(cfg, states, events, c, n - 1);
    BucketFollows(cfg, states, events, c, n - 1);
    var l, b, ts := cfg.settings.limits, states[0].objects[c].bucket, Times(states, events, c, n - 1);
    if Hears(states[n - 1], events[n - 1], c) {
      ProcessedAppend(l, b, ts, events[n - 1].now);
    } else {
      assert Times(states, events, c, n) == ts;
    }
  }

  lemma {:induction false} TimesAre(states: seq<State>, events: seq<Event>, c: ClientId, n: nat, from: real, to: real)
    requires n <= |events| < |states|
    requires forall k :: 0 <= k < n && Hears(states[k], events[k], c) ==> from <= events[k].now <= to
    ensures forall x :: x in Times(states, events, c, n) ==> from <= x <= to
  {
    if n > 0 { TimesAre(states, events, c, n - 1, from, to); }
  }

  lemma SubRun(cfg: Config, states: seq<State>, events: seq<Event>, i: nat, j: nat)
    requires IsRun(cfg, states, events) && i <= j <= |events|
    ensures IsRun(cfg, states[i..j + 1], events[i..j])
  {
    hide Sound, Stepped;
    var ss, es := states[i..j + 1], events[i..j];
    forall k | 0 <= k < |es| ensures Stepped(cfg, ss[k], ss[k + 1], es[k]) {
      assert Stepped(cfg, states[i + k], states[i + k + 1], events[i + k]);
    }
  }

  lemma {:induction false} SubCount(l: Limits, states: seq<State>, events: seq<Event>, c: ClientId, i: nat, j: nat, n: nat)
    requires i <= n <= j <= |events| < |states|
    ensures ProcessedIn(l, states[i..j + 1], events[i..j], c, 0, n - i) == ProcessedIn(l, states, events, c, i, n)
  {
    hide Processes;
    if n > i { SubCount(l, states, events, c, i, j, n - 1); }
  }

  lemma GainWithin(l: Limits, from: real, a: real, b: real, to: real)
    requires Sane(l) && from <= a <= b <= to
    ensures 0.0 <= Gain(l, a, b) <= Gain(l, from, to)
  {
    hide Gain;
    GainFacts(l, from, a, b);
    GainFacts(l, from, b, to);
    GainFacts(l, a, b, b);
    GainFacts(l, b, to, to);
  }

  lemma RunWithinGain(cfg: Config, states: seq<State>, events: seq<Event>, c: ClientId, i: nat, j: nat, from: real, to: real)
    requires IsRun(cfg, states, events) && i <= j <= |events| && from <= to
    requires c in states[i].objects && c in states[i].clients
    requires forall k :: i <= k < j && Hears(states[k], events[k], c) ==> from <= events[k].now <= to
    ensures var l := cfg.settings.limits;
            ProcessedIn(l, states, events, c, i, j) as real <= l.burst + Gain(l, from, to)
  {
    hide Sound, Stepped, Next, After, Processed, Times, Gain, Hears;
    var l, ss, es := cfg.settings.limits, states[i..j + 1], events[i..j];
    KnownBelow(states[i], cfg.settings, c);
    SubRun(cfg, states, events, i, j);
    SubCount(l, states, events, c, i, j, j);
    CountFollows(cfg, ss, es, c, j - i);
    BucketFollows(cfg, ss, es, c, j - i);
    forall k | 0 <= k < j - i && Hears(ss[k], es[k], c) ensures es[k].MessageFrom? && from <= es[k].now <= to {
      IsMessage(states[i + k], events[i + k], c);
      assert Hears(states[i + k], events[i + k], c);
    }
    TimesAre(ss, es, c, j - i, from, to);
    GainWithin(l, from, from, from, to);
    var b, ts := states[i].objects[c].bucket, Times(ss, es, c, j - i);
    if ts == [] {
      NoneProcessed(l, b);
    } else {
      RateWithinGain(l, b, ts, 0, |ts|);
      AfterNone(l, b);
      assert ts[..0] == [] && ts[0..|ts|] == ts;
      assert ts[0] in ts && ts[|ts| - 1] in ts;
      LaterIsMore(b.lastMs, ts, 0, |ts| - 1);
      GainWithin(l, from, ts[0], ts[|ts| - 1], to);
    }
  }

  /** Over every run and any time interval: of the messages a live connection sends within it, at most
      burst + rate x its length are processed. */
  lemma RunRateLimit(cfg: Config, states: seq<State>, events: seq<Event>, c: ClientId, i: nat, j: nat, from: real, to: real)
    requires IsRun(cfg, states, events) && i <= j <= |events| && from <= to
    requires c in states[i].objects && c in states[i].clients
    requires forall k :: i <= k < j && Hears(states[k], events[k], c) ==> from <= events[k].now <= to
    ensures var l := cfg.settings.limits;
            ProcessedIn(l, states, events, c, i, j) as real <= l.burst + l.ratePerSec * (to - from) / 1000.0
  {
    hide IsRun, Hears, ProcessedIn, Gain;
    RunWithinGain(cfg, states, events, c, i, j, from, to);
    GainIs(cfg.settings.limits, from, to);
  }

  lemma IsMessage(a: State, e: Event, c: ClientId)
    ensures Hears(a, e, c) ==> e.MessageFrom?
  {
  }

  lemma NoneProcessed(l: Limits, b: Bucket)
    ensures Processed(l, b, []) == 0
  {
  }

  // ----- who is served -----

  /** The message had its whole effect: the client's matches and the reply follow from it. */
  ghost predicate Answered(a: State, b: State, e: Event, c: ClientId) {
    && e.MessageFrom? && c in a.objects && c in b.objects
    && b.objects[c].matchIds == HandleIds(a.objects[c].matchIds, e.msg)
    && b.objects[c].sent == Outbox(a.objects[c], Replies(a.objects[c].matchIds, e.msg))
  }

  lemma AdmittedIsAnswered(cfg: Config, a: State, b: State, e: Event, c: ClientId)
    requires Stepped(cfg, a, b, e) && Hears(a, e, c) && Admits(cfg.settings.limits, a.objects[c].bucket, e.now)
    ensures Answered(a, b, e, c)
  {
    hide Admits, HandleIds, Replies, Next;
  }

  lemma {:induction false} QuietBucket(cfg: Config, states: seq<State>, events: seq<Event>, c: ClientId, j: nat, k: nat)
    requires IsRun(cfg, states, events) && j <= k <= |events| && c in states[j].objects
    requires forall m :: j <= m < k ==> !Hears(states[m], events[m], c)
    ensures c in states[k].objects && states[k].objects[c].bucket == states[j].objects[c].bucket
    decreases k
  {
    hide Sound, Stepped, Hears;
    if j < k {
      QuietBucket(cfg, states, events, c, j, k - 1);
      BucketStep(cfg, states[k - 1], states[k], events[k - 1], c);
    }
  }

  /** Over every run: a message that comes at least 1000 / rate milliseconds after the connection's
      previous one is processed, whatever was sent before. */
  lemma PromptlyServed(cfg: Config, states: seq<State>, events: seq<Event>, c: ClientId, j: nat, k: nat)
    requires IsRun(cfg, states, events) && j < k < |events| && cfg.settings.limits.burst >= 1.0
    requires Hears(states[j], events[j], c) && Hears(states[k], events[k], c)
    requires forall m :: j < m < k ==> !Hears(states[m], events[m], c)
    requires (events[k].now - events[j].now) * cfg.settings.limits.ratePerSec >= 1000.0
    ensures Answered(states[k], states[k + 1], events[k], c)
  {
    hide Sound, Stepped, Next, Admits, Answered;
    var l := cfg.settings.limits;
    BucketStep(cfg, states[j], states[j + 1], events[j], c);
    HeardLater(l, states[j], events[j], c);
    QuietBucket(cfg, states, events, c, j + 1, k);
    KnownBelow(states[k], cfg.settings, c);
    PauseServes(l, states[k].objects[c].bucket, events[k].now);
    AdmittedIsAnswered(cfg, states[k], states[k + 1], events[k], c);
  }

  /** How many of the events from `i` up to `j` are messages taken from `c`. */
  ghost function HeardIn(states: seq<State>, events: seq<Event>, c: ClientId, i: nat, j: nat): nat
    requires i <= j <= |events| < |states|
  {
    if i == j then 0
    else HeardIn(states, events, c, i, j - 1) + if Hears(states[j - 1], events[j - 1], c) then 1 else 0
  }

  lemma {:induction false} HeardIsTimes(states: seq<State>, events: seq<Event>, c: ClientId, i: nat, j: nat, n: nat)
    requires i <= n <= j <= |events| < |states|
    ensures |Times(states[i..j + 1], events[i..j], c, n - i)| == HeardIn(states, events, c, i, n)
  {
    hide Hears;
    if n > i { HeardIsTimes(states, events, c, i, j, n - 1); }
  }

  /** The bucket is full at state `i`: the connection is fresh, or every message it sends from there on
      comes burst x 1000 / rate milliseconds or more after its last reading. */
  ghost predicate Rested(l: Limits, states: seq<State>, events: seq<Event>, c: ClientId, i: nat, k: nat)
    requires i <= k < |events| < |states| && c in states[i].objects
  {
    var b := states[i].objects[c].bucket;
    || b.tokens == l.burst
    || forall m :: i <= m <= k && Hears(states[m], events[m], c) ==> (events[m].now - b.lastMs) * l.ratePerSec >= 1000.0 * l.burst
  }

  /** Over every run: a rested connection has its next burst of messages processed, however close
      together they come. */
  lemma BurstServed(cfg: Config, states: seq<State>, events: seq<Event>, c: ClientId, i: nat, k: nat)
    requires IsRun(cfg, states, events) && i <= k < |events| && c in states[i].objects && c in states[i].clients
    requires Rested(cfg.settings.limits, states, events, c, i, k) && Hears(states[k], events[k], c)
    requires HeardIn(states, events, c, i, k + 1) as real <= cfg.settings.limits.burst
    ensures Answered(states[k], states[k + 1], events[k], c)
  {
    hide Sound, Stepped, Next, After, Admits, Answered, Times, Rested, Monotone;
    var l, ss, es, n := cfg.settings.limits, states[i..k + 1], events[i..k], k - i;
    KnownBelow(states[i], cfg.settings, c);
    SubRun(cfg, states, events, i, k);
    BucketFollows(cfg, ss, es, c, n);
    HeardIsTimes(states, events, c, i, k, k);
    var b, ts := states[i].objects[c].bucket, Times(ss, es, c, n);
    MonotoneAppend(b.lastMs, ts, events[k].now);
    RestedFirst(l, states, events, c, i, k);
    AdmittedNext(l, b, ts, events[k].now);
    AdmittedIsAnswered(cfg, states[k], states[k + 1], events[k], c);
  }

  lemma AdmittedNext(l: Limits, b: Bucket, ts: seq<real>, now: real)
    requires Sane(l) && Within(l, b) && Monotone(b.lastMs, ts + [now]) && |ts| as real + 1.0 <= l.burst
    requires b.tokens == l.burst || ((ts + [now])[0] - b.lastMs) * l.ratePerSec >= 1000.0 * l.burst
    ensures Admits(l, After(l, b, ts), now)
  {
    hide After, Admits, Monotone;
    assert (ts + [now])[..|ts|] == ts;
    BurstServes(l, b, ts + [now], |ts|);
  }

  lemma RestedFirst(l: Limits, states: seq<State>, events: seq<Event>, c: ClientId, i: nat, k: nat)
    requires i <= k < |events| < |states| && c in states[i].objects
    requires Rested(l, states, events, c, i, k) && Hears(states[k], events[k], c)
    ensures var b, ts := states[i].objects[c].bucket, Times(states[i..k + 1], events[i..k], c, k - i) + [events[k].now];
            b.tokens == l.burst || (ts[0] - b.lastMs) * l.ratePerSec >= 1000.0 * l.burst
  {
    hide Times, Hears;
    FirstTime(states, events, c, i, k);
  }

  /** The first reading of the stretch is that of one of its messages. */
  lemma FirstTime(states: seq<State>, events: seq<Event>, c: ClientId, i: nat, k: nat)
    requires i <= k < |events| < |states| && Hears(states[k], events[k], c)
    ensures var ts := Times(states[i..k + 1], events[i..k], c, k - i) + [events[k].now];
            exists m :: i <= m <= k && Hears(states[m], events[m], c) && events[m].now == ts[0]
  {
    var ts := Times(states[i..k + 1], events[i..k], c, k - i);
    if ts == [] {
      assert Hears(states[k], events[k], c);
    } else {
      var m := TimeOf(states[i..k + 1], events[i..k], c, k - i, ts[0]);
      assert Hears(states[i + m], events[i + m], c);
    }
  }

  lemma {:induction false} TimeOf(states: seq<State>, events: seq<Event>, c: ClientId, n: nat, x: real) returns (m: nat)
    requires n <= |events| < |states| && x in Times(states, events, c, n)
    ensures m < n && Hears(states[m], events[m], c) && events[m].now == x
  {
    m := n - 1;
    if x in Times(states, events, c, n - 1) { m := TimeOf(states, events, c, n - 1, x); }
  }

  /** A connection starts with a full bucket. */
  lemma FreshIsRested(cfg: Config, states: seq<State>, events: seq<Event>, i: nat, k: nat)
    requires IsRun(cfg, states, events) && i < k < |events| && events[i].UpgradeRequest?
    requires Admissible(states[i], cfg.settings, events[i].ip)
    ensures var c := states[i].nextId;
            c in states[i + 1].objects && c in states[i + 1].clients && Rested(cfg.settings.limits, states, events, c, i + 1, k)
  {
    hide Sound, Hears, Admissible, Increment, AddMember, CountOf;
    assert Stepped(cfg, states[i], states[i + 1], events[i]);
  }

  // ----- the rules a user is quoted by -----

  /** The event replaces or drops what is cached for the user. */
  ghost predicate Writes(e: Event, u: string) {
    match e
    case CascadeLoaded(v, _) => v == u
    case CascadeInvalidated(v) => v == u
    case _ => false
  }

  /** An event that is not about a user's rules leaves them, or drops them as the user's last
      connection goes. */
  lemma RulesStep(cfg: Config, a: State, b: State, e: Event, u: string)
    requires Stepped(cfg, a, b, e) && !Writes(e, u)
    ensures Lookup(b.cascadeCache, u) == Lookup(a.cascadeCache, u) || (Lookup(b.cascadeCache, u) == None && u != "" && !Online(b, u))
  {
    hide Online, Fewer, Delivered, FrameFor, Slow, Gone, OnlyClient, Admits, Next, Replies, HandleIds, Outbox, Increment, AddMember, CountOf;
  }

  /** Last written at step `k`, among the first `n` events. */
  ghost predicate LastWritten(events: seq<Event>, u: string, k: nat, n: nat) {
    k < n <= |events| && Writes(events[k], u) && forall j :: k < j < n ==> !Writes(events[j], u)
  }

  /** In every run from the start: rules cached for a user are the ones last loaded for it, at step `k`,
      and have not been invalidated since. */
  lemma {:induction false} RulesAreLatest(cfg: Config, states: seq<State>, events: seq<Event>, u: string, n: nat) returns (k: nat)
    requires IsRun(cfg, states, events) && n <= |events| && states[0] == EMPTY && u in states[n].cascadeCache
    ensures LastWritten(events, u, k, n) && events[k] == CascadeLoaded(u, states[n].cascadeCache[u])
  {
    hide Sound, Stepped, Writes;
    if n == 0 {
      assert false;
    } else {
      var a, b, e := states[n - 1], states[n], events[n - 1];
      assert Stepped(cfg, a, b, e);
      if Writes(e, u) {
        RulesWritten(cfg, a, b, e, u);
        k := n - 1;
      } else {
        RulesStep(cfg, a, b, e, u);
        k := RulesAreLatest(cfg, states, events, u, n - 1);
      }
    }
  }

  lemma RulesWritten(cfg: Config, a: State, b: State, e: Event, u: string)
    requires Stepped(cfg, a, b, e) && Writes(e, u)
    ensures e == CascadeInvalidated(u) || (e.CascadeLoaded? && e.userId == u)
    ensures Lookup(b.cascadeCache, u) == if e.CascadeLoaded? then Some(e.cascade) else None
  {
  }

  /** Loaded rules are in force from then on, for as long as nothing is written for the user and it
      stays connected. */
  lemma {:induction false} RulesStay(cfg: Config, states: seq<State>, events: seq<Event>, u: string, k: nat, n: nat)
    requires IsRun(cfg, states, events) && LastWritten(events, u, k, n) && events[k].CascadeLoaded?
    requires forall j :: k < j <= n ==> Online(states[j], u)
    ensures u in states[n].cascadeCache && states[n].cascadeCache[u] == events[k].cascade
    decreases n
  {
    hide Sound, Stepped, Online;
    var a, b, e := states[n - 1], states[n], events[n - 1];
    assert Stepped(cfg, a, b, e);
    if k == n - 1 {
      RulesWritten(cfg, a, b, e, u);
    } else {
      RulesStay(cfg, states, events, u, k, n - 1);
      assert Online(states[n], u);
      RulesStep(cfg, a, b, e, u);
    }
  }
}
