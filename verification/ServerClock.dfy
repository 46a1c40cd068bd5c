/** The server-clock estimator (apps/web/src/lib/clock-math.ts). Times are exact milliseconds. */
module ServerClock {

  const SANE_OFFSET_MS: real := 86400000.0

  datatype Sample = Sample(clientMs: real, offset: real)

  datatype Clock = Clock(samples: seq<Sample>, best: real, has: bool)

  datatype Tuning = Tuning(windowMs: real, jumpMs: real)

  /** One stamped frame: the server's stamp and the device's reading on receipt. */
  datatype Observation = Observation(serverMs: real, clientMs: real)

  const FRESH: Clock := Clock([], 0.0, false)

  function Offset(o: Observation): real { o.serverMs - o.clientMs }

  predicate IsSane(o: Observation) { -SANE_OFFSET_MS <= Offset(o) <= SANE_OFFSET_MS }

  function AsSample(o: Observation): Sample { Sample(o.clientMs, Offset(o)) }

  predicate InWindow(s: Sample, now: real, windowMs: real) { now - s.clientMs <= windowMs && s.clientMs <= now }

  /** The samples still inside the window at `now`, in order. */
  function Keep(samples: seq<Sample>, now: real, windowMs: real): (r: seq<Sample>)
    ensures forall s :: s in r <==> s in samples && InWindow(s, now, windowMs)
  {
    if samples == [] then []
    else
      var n := |samples| - 1;
      assert samples == samples[..n] + [samples[n]];
      Keep(samples[..n], now, windowMs) + if InWindow(samples[n], now, windowMs) then [samples[n]] else []
  }

  function MaxOffset(samples: seq<Sample>): (m: real)
    requires samples != []
    ensures forall s :: s in samples ==> s.offset <= m
    ensures exists s :: s in samples && s.offset == m
  {
    var n := |samples| - 1;
    var last := samples[n];
    assert last in samples;
    if n == 0 then assert samples == [last]; last.offset
    else
      assert samples == samples[..n] + [last];
      var m := MaxOffset(samples[..n]);
      var w :| w in samples[..n] && w.offset == m;
      assert w in samples;
      if m < last.offset then last.offset else m
  }

  function Recompute(samples: seq<Sample>, now: real, windowMs: real): Clock {
    var kept := Keep(samples, now, windowMs);
    Clock(kept, if kept == [] then 0.0 else MaxOffset(kept), kept != [])
  }

  /** A sample far below the current best means a clock stepped: start over from it. */
  predicate Restarts(c: Clock, o: Observation, t: Tuning) { c.has && Offset(o) < c.best - t.jumpMs }

  function Observe(c: Clock, o: Observation, t: Tuning): Clock {
    if !IsSane(o) then c
    else Recompute((if Restarts(c, o, t) then [] else c.samples) + [AsSample(o)], o.clientMs, t.windowMs)
  }

  /** The estimate: the best offset when there is a sample, else the device's own clock. */
  function OffsetMs(c: Clock): real { if c.has then c.best else 0.0 }

  class Estimator {
    const tuning: Tuning
    var samples: seq<Sample>
    var best: real
    var has: bool

    function View(): Clock
      reads this
    {
      Clock(samples, best, has)
    }

    constructor (tuning: Tuning)
      ensures this.tuning == tuning && View() == FRESH
    {
      this.tuning := tuning;
      samples, best, has := [], 0.0, false;
    }

    /** The filter and maximum loops over the samples. */
    method DoRecompute(clientMs: real)
      modifies this
      ensures View() == Recompute(old(samples), clientMs, tuning.windowMs)
    {
      hide MaxOffset;
      var kept: seq<Sample> := [];
      for i := 0 to |samples|
        invariant kept == Keep(samples[..i], clientMs, tuning.windowMs) && samples == old(samples)
      {
        assert samples[..i + 1][..i] == samples[..i];
        if clientMs - samples[i].clientMs <= tuning.windowMs && samples[i].clientMs <= clientMs {
          kept := kept + [samples[i]];
        }
      }
      assert samples[..|samples|] == samples;
      samples := kept;
      has := |samples| > 0;
      best := 0.0;
      if has { best := Maximum(samples); }
    }

    static method Maximum(samples: seq<Sample>) returns (m: real)
      requires samples != []
      ensures m == MaxOffset(samples)
    {
      m := samples[0].offset;
      assert samples[..1] == [samples[0]];
      for i := 1 to |samples|
        invariant m == MaxOffset(samples[..i])
      {
        assert samples[..i + 1][..i] == samples[..i];
        if m < samples[i].offset { m := samples[i].offset; }
      }
      assert samples[..|samples|] == samples;
    }

    method DoObserve(o: Observation)
      modifies this
      ensures View() == Observe(old(View()), o, tuning)
    {
      hide Recompute, Keep, MaxOffset;
      var offset := o.serverMs - o.clientMs;
      if offset > SANE_OFFSET_MS || offset < -SANE_OFFSET_MS { return; }
      if has && offset < best - tuning.jumpMs { samples := []; }
      samples := samples + [Sample(o.clientMs, offset)];
      DoRecompute(o.clientMs);
    }
  }

  // ----- runs -----

  ghost function After(obs: seq<Observation>, t: Tuning): Clock {
    if obs == [] then FRESH else Observe(After(obs[..|obs| - 1], t), obs[|obs| - 1], t)
  }

  /** The accepted samples since the last restart, expired ones included. */
  ghost function SinceRestart(obs: seq<Observation>, t: Tuning): seq<Sample> {
    if obs == [] then []
    else
      var rest, o := obs[..|obs| - 1], obs[|obs| - 1];
      if !IsSane(o) then SinceRestart(rest, t)
      else (if Restarts(After(rest, t), o, t) then [] else SinceRestart(rest, t)) + [AsSample(o)]
  }

  /** The device time of the last accepted observation. */
  ghost function LastTime(obs: seq<Observation>, otherwise: real): real {
    if obs == [] then otherwise
    else if IsSane(obs[|obs| - 1]) then obs[|obs| - 1].clientMs
    else LastTime(obs[..|obs| - 1], otherwise)
  }

  ghost predicate MonotoneTimes(obs: seq<Observation>) {
    forall i, j :: 0 <= i < j < |obs| ==> obs[i].clientMs <= obs[j].clientMs
  }

  lemma {:induction false} KeepAppend(a: seq<Sample>, s: Sample, now: real, w: real)
    ensures Keep(a + [s], now, w) == Keep(a, now, w) + if InWindow(s, now, w) then [s] else []
  {
    assert (a + [s])[..|a|] == a;
  }

  /** Filtering twice, later the second time, is filtering once at the later time. */
  lemma {:induction false} KeepKeep(a: seq<Sample>, early: real, late: real, w: real)
    requires early <= late && forall s :: s in a ==> s.clientMs <= early
    ensures Keep(Keep(a, early, w), late, w) == Keep(a, late, w)
  {
    if a != [] {
      var n := |a| - 1;
      assert a == a[..n] + [a[n]];
      KeepKeep(a[..n], early, late, w);
      KeepAppend(a[..n], a[n], early, w);
      KeepAppend(a[..n], a[n], late, w);
      KeepAppend(Keep(a[..n], early, w), a[n], late, w);
      if !InWindow(a[n], early, w) {
        assert Keep(a[..n], early, w) + [] == Keep(a[..n], early, w);
      }
    }
  }

  lemma {:induction false} SinceBefore(obs: seq<Observation>, t: Tuning, bound: real)
    requires forall i :: 0 <= i < |obs| ==> obs[i].clientMs <= bound
    ensures forall s :: s in SinceRestart(obs, t) ==> s.clientMs <= bound
  {
    if obs != [] { SinceBefore(obs[..|obs| - 1], t, bound); }
  }

  lemma {:induction false} SinceUntilLast(obs: seq<Observation>, t: Tuning)
    requires MonotoneTimes(obs)
    ensures forall s :: s in SinceRestart(obs, t) ==> s.clientMs <= LastTime(obs, 0.0)
  {
    if obs != [] {
      var n := |obs| - 1;
      if IsSane(obs[n]) { SinceBefore(obs, t, obs[n].clientMs); } else { SinceUntilLast(obs[..n], t); }
    }
  }

  lemma {:induction false} LastTimeBefore(obs: seq<Observation>, bound: real)
    requires forall i :: 0 <= i < |obs| ==> obs[i].clientMs <= bound
    ensures SinceRestart(obs, Tuning(0.0, 0.0)) != [] ==> LastTime(obs, 0.0) <= bound
  {
    if obs != [] { LastTimeBefore(obs[..|obs| - 1], bound); }
  }

  lemma {:induction false} NoneBeforeAccepted(obs: seq<Observation>, t: Tuning)
    requires SinceRestart(obs, t) != []
    ensures SinceRestart(obs, Tuning(0.0, 0.0)) != []
  {
    if IsSane(obs[|obs| - 1]) { return; }
    NoneBeforeAccepted(obs[..|obs| - 1], t);
  }

  /** Expiring the old samples before or after the new one arrives gives the same clock. */
  lemma {:induction false} ExpireThenAppend(since: seq<Sample>, s: Sample, last: real, w: real)
    requires last <= s.clientMs && forall x :: x in since ==> x.clientMs <= last
    ensures Recompute(Keep(since, last, w) + [s], s.clientMs, w) == Recompute(since + [s], s.clientMs, w)
  {
    KeepKeep(since, last, s.clientMs, w);
    KeepAppend(Keep(since, last, w), s, s.clientMs, w);
    KeepAppend(since, s, s.clientMs, w);
  }

  lemma LastTimeOrdered(obs: seq<Observation>, t: Tuning, now: real)
    requires MonotoneTimes(obs) && SinceRestart(obs, t) != []
    requires forall i :: 0 <= i < |obs| ==> obs[i].clientMs <= now
    ensures LastTime(obs, 0.0) <= now
  {
    NoneBeforeAccepted(obs, t);
    LastTimeBefore(obs, now);
  }

  lemma {:induction false} RetainedStep(rest: seq<Observation>, o: Observation, t: Tuning)
    requires IsSane(o)
    ensures var obs := rest + [o];
            && LastTime(obs, 0.0) == o.clientMs
            && After(obs, t) == Observe(After(rest, t), o, t)
            && SinceRestart(obs, t) == (if Restarts(After(rest, t), o, t) then [] else SinceRestart(rest, t)) + [AsSample(o)]
  {
    assert (rest + [o])[..|rest|] == rest;
  }

  lemma {:induction false} RejectedStep(rest: seq<Observation>, o: Observation, t: Tuning)
    requires !IsSane(o)
    ensures var obs := rest + [o];
            && LastTime(obs, 0.0) == LastTime(rest, 0.0)
            && After(obs, t) == After(rest, t)
            && SinceRestart(obs, t) == SinceRestart(rest, t)
  {
    assert (rest + [o])[..|rest|] == rest;
  }

  /** With a device clock that never runs backwards, the samples held are exactly the accepted
      ones since the last restart that the window has not expired. */
  lemma {:induction false} RetainedExactly(obs: seq<Observation>, t: Tuning)
    requires MonotoneTimes(obs)
    ensures After(obs, t) == Recompute(SinceRestart(obs, t), LastTime(obs, 0.0), t.windowMs)
  {
    if obs == [] {
      return;
    }
    var n := |obs| - 1;
    var rest, o := obs[..n], obs[n];
    assert obs == rest + [o];
    RetainedExactly(rest, t);
    RetainedLast(rest, o, t);
  }

  lemma {:induction false} RetainedLast(rest: seq<Observation>, o: Observation, t: Tuning)
    requires MonotoneTimes(rest + [o])
    requires After(rest, t) == Recompute(SinceRestart(rest, t), LastTime(rest, 0.0), t.windowMs)
    ensures var obs := rest + [o];
            After(obs, t) == Recompute(SinceRestart(obs, t), LastTime(obs, 0.0), t.windowMs)
  {
    hide After, SinceRestart, LastTime, Keep, MaxOffset;
    if !IsSane(o) {
      RejectedStep(rest, o, t);
      return;
    }
    RetainedStep(rest, o, t);
    if Restarts(After(rest, t), o, t) {
      return;
    }
    var since := SinceRestart(rest, t);
    if since == [] {
      assert After(rest, t).samples == [];
      return;
    }
    BeforeLast(rest, o);
    SinceUntilLast(rest, t);
    LastTimeOrdered(rest, t, o.clientMs);
    ExpireThenAppend(since, AsSample(o), LastTime(rest, 0.0), t.windowMs);
  }

  lemma BeforeLast(rest: seq<Observation>, o: Observation)
    requires MonotoneTimes(rest + [o])
    ensures MonotoneTimes(rest) && forall i :: 0 <= i < |rest| ==> rest[i].clientMs <= o.clientMs
  {
    var obs := rest + [o];
    forall i | 0 <= i < |rest| ensures rest[i].clientMs <= o.clientMs {
      assert obs[i].clientMs <= obs[|rest|].clientMs;
    }
    forall i, j | 0 <= i < j < |rest| ensures rest[i].clientMs <= rest[j].clientMs {
      assert obs[i].clientMs <= obs[j].clientMs;
    }
  }

  /** A frame whose clocks differ by more than a day is ignored whole; any other is taken in. */
  lemma DayApartIgnored(c: Clock, o: Observation, t: Tuning)
    requires t.windowMs >= 0.0
    ensures o.serverMs - o.clientMs > 86400000.0 || o.clientMs - o.serverMs > 86400000.0 ==> Observe(c, o, t) == c
    ensures -86400000.0 <= o.serverMs - o.clientMs <= 86400000.0 ==> Sample(o.clientMs, o.serverMs - o.clientMs) in Observe(c, o, t).samples
  {
    hide Keep, MaxOffset;
    NewestKept(if Restarts(c, o, t) then [] else c.samples, AsSample(o), t.windowMs);
  }

  lemma NewestKept(before: seq<Sample>, s: Sample, w: real)
    requires w >= 0.0
    ensures s in Keep(before + [s], s.clientMs, w)
  {
    hide Keep;
    assert (before + [s])[|before|] == s;
  }

  /** An accepted observation is always held afterwards. */
  lemma AcceptedIsHeld(c: Clock, o: Observation, t: Tuning)
    requires IsSane(o) && t.windowMs >= 0.0
    ensures AsSample(o) in Observe(c, o, t).samples && Observe(c, o, t).has
  {
  }

  /** Every frame took a non-negative time to arrive. */
  ghost predicate Latent(obs: seq<Observation>, trueOffset: real) {
    forall i :: 0 <= i < |obs| ==> Offset(obs[i]) <= trueOffset
  }

  ghost predicate NotAbove(c: Clock, trueOffset: real) {
    && (forall s :: s in c.samples ==> s.offset <= trueOffset)
    && (c.has <==> c.samples != [])
    && (c.has ==> c.best == MaxOffset(c.samples))
  }

  lemma {:induction false} NeverAbove(obs: seq<Observation>, t: Tuning, trueOffset: real)
    requires Latent(obs, trueOffset)
    ensures NotAbove(After(obs, t), trueOffset)
  {
    if obs != [] {
      NeverAbove(obs[..|obs| - 1], t, trueOffset);
    }
  }

  /** How long the sampled frame was under way, were the true offset `trueOffset`. */
  ghost function Latency(s: Sample, trueOffset: real): real { trueOffset - s.offset }

  /** Whatever the device clock does, the estimate never exceeds the true offset, and it is the
      true offset less the smallest latency among the samples held. */
  lemma EstimateIsLeastLatency(obs: seq<Observation>, t: Tuning, trueOffset: real)
    requires Latent(obs, trueOffset)
    ensures var c := After(obs, t);
            c.has ==>
              && OffsetMs(c) <= trueOffset
              && (exists s :: s in c.samples && OffsetMs(c) == trueOffset - Latency(s, trueOffset))
              && forall s :: s in c.samples ==> trueOffset - OffsetMs(c) <= Latency(s, trueOffset)
  {
    NeverAbove(obs, t, trueOffset);
    var c := After(obs, t);
    if c.has {
      var s :| s in c.samples && s.offset == c.best;
    }
  }

  ghost function Accepted(obs: seq<Observation>): seq<Sample> {
    if obs == [] then []
    else Accepted(obs[..|obs| - 1]) + if IsSane(obs[|obs| - 1]) then [AsSample(obs[|obs| - 1])] else []
  }

  /** While latencies stay within the jump threshold, nothing ever restarts the estimator. */
  lemma {:induction false} SteadyNeverRestarts(obs: seq<Observation>, t: Tuning, trueOffset: real)
    requires Latent(obs, trueOffset) && forall i :: 0 <= i < |obs| ==> trueOffset - t.jumpMs <= Offset(obs[i])
    ensures SinceRestart(obs, t) == Accepted(obs)
  {
    if obs != [] {
      var n := |obs| - 1;
      SteadyNeverRestarts(obs[..n], t, trueOffset);
      NeverAbove(obs[..n], t, trueOffset);
      assert Accepted(obs[..n]) + [] == Accepted(obs[..n]);
    }
  }

  /** On a steady network and a forward-running device clock, the estimate is the best offset
      among all accepted observations of the last window, and no other. */
  lemma SteadyEstimate(obs: seq<Observation>, t: Tuning, trueOffset: real)
    requires MonotoneTimes(obs) && Latent(obs, trueOffset)
    requires forall i :: 0 <= i < |obs| ==> trueOffset - t.jumpMs <= Offset(obs[i])
    ensures var kept := Keep(Accepted(obs), LastTime(obs, 0.0), t.windowMs);
            && After(obs, t).samples == kept
            && OffsetMs(After(obs, t)) == if kept == [] then 0.0 else MaxOffset(kept)
  {
    RetainedExactly(obs, t);
    SteadyNeverRestarts(obs, t, trueOffset);
  }
}
