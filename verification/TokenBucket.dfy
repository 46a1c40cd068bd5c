/** The per-connection inbound message limit (services/ws-gateway/src/server.ts, the message
    handler). Times are in milliseconds. */
module TokenBucket {
  import opened RealArith

  datatype Limits = Limits(burst: real, ratePerSec: real)

  datatype Bucket = Bucket(tokens: real, lastMs: real)

  ghost predicate Sane(l: Limits) { l.burst >= 0.0 && l.ratePerSec >= 0.0 }

  ghost predicate Within(l: Limits, b: Bucket) { 0.0 <= b.tokens <= l.burst }

  /** Tokens earned between two instants. */
  function Gain(l: Limits, from: real, to: real): real { ((to - from) / 1000.0) * l.ratePerSec }

  lemma GainFacts(l: Limits, a: real, b: real, c: real)
    ensures Gain(l, a, c) == Gain(l, a, b) + Gain(l, b, c)
    ensures Sane(l) && a <= b ==> Gain(l, a, b) >= 0.0
  {
    var x, y, r := (b - a) / 1000.0, (c - b) / 1000.0, l.ratePerSec;
    assert (x + y) * r == x * r + y * r;
    assert x + y == (c - a) / 1000.0;
    if Sane(l) && a <= b { ProductNonNegative(x, r); }
  }

  function Refill(l: Limits, b: Bucket, now: real): real {
    var grown := b.tokens + Gain(l, b.lastMs, now);
    if l.burst < grown then l.burst else grown
  }

  predicate Admits(l: Limits, b: Bucket, now: real) { Refill(l, b, now) >= 1.0 }

  /** The bucket after one message arrives at `now`, processed or dropped. */
  function Next(l: Limits, b: Bucket, now: real): Bucket {
    var t := Refill(l, b, now);
    Bucket(if t < 1.0 then t else t - 1.0, now)
  }

  ghost predicate Monotone(from: real, ts: seq<real>) {
    forall i :: 0 <= i < |ts| ==> from <= ts[i] && (i > 0 ==> ts[i - 1] <= ts[i])
  }

  ghost function After(l: Limits, b: Bucket, ts: seq<real>): Bucket
    decreases |ts|
  {
    if ts == [] then b else After(l, Next(l, b, ts[0]), ts[1..])
  }

  /** How many of the messages arriving at `ts` are processed. */
  ghost function Processed(l: Limits, b: Bucket, ts: seq<real>): nat
    decreases |ts|
  {
    if ts == [] then 0 else (if Admits(l, b, ts[0]) then 1 else 0) + Processed(l, Next(l, b, ts[0]), ts[1..])
  }

  lemma NextWithin(l: Limits, b: Bucket, now: real)
    requires Sane(l) && Within(l, b) && b.lastMs <= now
    ensures Within(l, Next(l, b, now))
    ensures (if Admits(l, b, now) then 1.0 else 0.0) + Next(l, b, now).tokens
            <= b.tokens + Gain(l, b.lastMs, now)
    ensures (if Admits(l, b, now) then 1.0 else 0.0) + Next(l, b, now).tokens <= l.burst
  {
    hide Gain;
    GainFacts(l, b.lastMs, now, now);
  }

  lemma {:induction false} AfterWithin(l: Limits, b: Bucket, ts: seq<real>)
    requires Sane(l) && Within(l, b) && Monotone(b.lastMs, ts)
    ensures Within(l, After(l, b, ts))
    ensures ts != [] ==> After(l, b, ts).lastMs == ts[|ts| - 1]
    decreases |ts|
  {
    if ts != [] {
      NextWithin(l, b, ts[0]);
      RestMonotone(b.lastMs, ts);
      AfterWithin(l, Next(l, b, ts[0]), ts[1..]);
    }
  }

  lemma {:induction false} RestMonotone(from: real, ts: seq<real>)
    requires ts != [] && Monotone(from, ts)
    ensures Monotone(ts[0], ts[1..])
  {
    var rest := ts[1..];
    forall i | 0 <= i < |rest| ensures ts[0] <= rest[i] && (i > 0 ==> rest[i - 1] <= rest[i]) {
      FirstIsLeast(from, ts, i + 1);
    }
  }

  lemma {:induction false} FirstIsLeast(from: real, ts: seq<real>, i: nat)
    requires Monotone(from, ts) && i < |ts|
    ensures ts[0] <= ts[i]
  {
    if i > 0 { FirstIsLeast(from, ts, i - 1); }
  }

  /** Every processed message is paid for by a token held at the start or refilled since. */
  lemma {:induction false} Conservation(l: Limits, b: Bucket, ts: seq<real>, end: real)
    requires Sane(l) && Within(l, b) && Monotone(b.lastMs, ts)
    requires end == if ts == [] then b.lastMs else ts[|ts| - 1]
    ensures Processed(l, b, ts) as real + After(l, b, ts).tokens <= b.tokens + Gain(l, b.lastMs, end)
    decreases |ts|
  {
    hide Gain;
    GainFacts(l, b.lastMs, b.lastMs, b.lastMs);
    if ts == [] {
      return;
    }
    NextWithin(l, b, ts[0]);
    RestMonotone(b.lastMs, ts);
    hide Refill;
    Conservation(l, Next(l, b, ts[0]), ts[1..], end);
    GainFacts(l, b.lastMs, ts[0], end);
  }

  lemma Stretch(l: Limits, b: Bucket, ts: seq<real>)
    requires Sane(l) && Within(l, b) && Monotone(b.lastMs, ts) && ts != []
    ensures Processed(l, b, ts) as real <= l.burst + Gain(l, ts[0], ts[|ts| - 1])
  {
    hide Gain, Refill;
    var c := Next(l, b, ts[0]);
    NextWithin(l, b, ts[0]);
    RestMonotone(b.lastMs, ts);
    Conservation(l, c, ts[1..], ts[|ts| - 1]);
    AfterWithin(l, c, ts[1..]);
  }

  lemma WindowMonotone(from: real, ts: seq<real>, i: nat, j: nat, low: real)
    requires Monotone(from, ts) && i < j <= |ts| && low == if i == 0 then from else ts[i - 1]
    ensures Monotone(low, ts[i..j])
  {
    var w := ts[i..j];
    forall k | 0 <= k < |w| ensures low <= w[k] {
      if i > 0 { LaterIsMore(from, ts, i - 1, i + k); }
    }
    forall k | 0 < k < |w| ensures w[k - 1] <= w[k] {
      LaterIsMore(from, ts, i + k - 1, i + k);
    }
  }

  lemma RateWithinGain(l: Limits, b: Bucket, ts: seq<real>, i: nat, j: nat)
    requires Sane(l) && Within(l, b) && Monotone(b.lastMs, ts) && i < j <= |ts|
    ensures Processed(l, After(l, b, ts[..i]), ts[i..j]) as real <= l.burst + Gain(l, ts[i], ts[j - 1])
  {
    hide After, Processed, Monotone, Gain;
    PrefixMonotone(b.lastMs, ts, i);
    AfterWithin(l, b, ts[..i]);
    assert i == 0 ==> ts[..i] == [];
    AfterNone(l, b);
    var start := After(l, b, ts[..i]);
    WindowMonotone(b.lastMs, ts, i, j, start.lastMs);
    Stretch(l, start, ts[i..j]);
  }

  lemma AfterNone(l: Limits, b: Bucket)
    ensures After(l, b, []) == b
  {
  }

  lemma PrefixMonotone(from: real, ts: seq<real>, i: nat)
    requires Monotone(from, ts) && i <= |ts|
    ensures Monotone(from, ts[..i])
  {
  }

  lemma {:induction false} LaterIsMore(from: real, ts: seq<real>, i: nat, j: nat)
    requires Monotone(from, ts) && i <= j < |ts|
    ensures ts[i] <= ts[j]
  {
    if i < j { LaterIsMore(from, ts, i, j - 1); }
  }

  lemma GainIs(l: Limits, from: real, to: real)
    ensures Gain(l, from, to) == l.ratePerSec * (to - from) / 1000.0
  {
    assert ((to - from) / 1000.0) * l.ratePerSec == l.ratePerSec * (to - from) / 1000.0;
  }

  /** Over any stretch of a connection's arrivals, at most burst + rate x elapsed messages are
      processed: however the bucket got to the start of the stretch, and whatever came before. */
  lemma RateLimit(l: Limits, b: Bucket, ts: seq<real>, i: nat, j: nat)
    requires Sane(l) && Within(l, b) && Monotone(b.lastMs, ts) && i < j <= |ts|
    ensures Processed(l, After(l, b, ts[..i]), ts[i..j]) as real <= l.burst + l.ratePerSec * (ts[j - 1] - ts[i]) / 1000.0
  {
    hide After, Processed, Gain;
    RateWithinGain(l, b, ts, i, j);
    GainIs(l, ts[i], ts[j - 1]);
  }

  // ----- the other half: who is served -----

  lemma GainAtLeast(l: Limits, from: real, to: real, tokens: real)
    requires (to - from) * l.ratePerSec >= 1000.0 * tokens
    ensures Gain(l, from, to) >= tokens
  {
    var x := (to - from) / 1000.0;
    assert x * l.ratePerSec == ((to - from) * l.ratePerSec) / 1000.0;
  }

  /** A message that comes at least a second's worth of one token after the last one is admitted. */
  lemma PauseServes(l: Limits, b: Bucket, now: real)
    requires Within(l, b) && l.burst >= 1.0 && (now - b.lastMs) * l.ratePerSec >= 1000.0
    ensures Admits(l, b, now)
  {
    hide Gain;
    GainAtLeast(l, b.lastMs, now, 1.0);
  }

  lemma TokensLeft(l: Limits, b: Bucket, now: real)
    requires Sane(l) && Within(l, b) && b.lastMs <= now
    ensures Refill(l, b, now) >= b.tokens
  {
    hide Gain;
    GainFacts(l, b.lastMs, now, now);
  }

  /** Held tokens serve that many messages, however close together. */
  lemma {:induction false} TokensServe(l: Limits, b: Bucket, ts: seq<real>, m: nat)
    requires Sane(l) && Within(l, b) && Monotone(b.lastMs, ts) && m < |ts| && b.tokens >= (m + 1) as real
    ensures Admits(l, After(l, b, ts[..m]), ts[m])
    decreases m
  {
    TokensLeft(l, b, ts[0]);
    if m == 0 {
      AfterNone(l, b);
      assert ts[..0] == [];
      return;
    }
    var c := Next(l, b, ts[0]);
    NextWithin(l, b, ts[0]);
    RestMonotone(b.lastMs, ts);
    TokensServe(l, c, ts[1..], m - 1);
    assert ts[..m][1..] == ts[1..][..m - 1];
  }

  /** A dropped message costs nothing: what the bucket admits later is as if it had never come. */
  lemma DroppedCostsNothing(l: Limits, b: Bucket, now: real, later: real)
    requires Sane(l) && Within(l, b) && b.lastMs <= now <= later && !Admits(l, b, now)
    ensures Admits(l, Next(l, b, now), later) <==> Admits(l, b, later)
    ensures Next(l, Next(l, b, now), later) == Next(l, b, later)
  {
    hide Gain;
    GainFacts(l, b.lastMs, now, later);
    GainFacts(l, now, later, later);
  }

  /** After a silence long enough to fill it, or fresh, the bucket serves a whole burst. */
  lemma BurstServes(l: Limits, b: Bucket, ts: seq<real>, m: nat)
    requires Sane(l) && Within(l, b) && Monotone(b.lastMs, ts) && m < |ts| && (m + 1) as real <= l.burst
    requires b.tokens == l.burst || (ts[0] - b.lastMs) * l.ratePerSec >= 1000.0 * l.burst
    ensures Admits(l, After(l, b, ts[..m]), ts[m])
  {
    hide Gain;
    GainFacts(l, b.lastMs, ts[0], ts[0]);
    if b.tokens < l.burst { GainAtLeast(l, b.lastMs, ts[0], l.burst); }
    assert Refill(l, b, ts[0]) == l.burst;
    if m == 0 {
      AfterNone(l, b);
      assert ts[..0] == [];
      return;
    }
    NextWithin(l, b, ts[0]);
    RestMonotone(b.lastMs, ts);
    TokensServe(l, Next(l, b, ts[0]), ts[1..], m - 1);
    assert ts[..m][1..] == ts[1..][..m - 1];
  }
}
