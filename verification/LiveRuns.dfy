/** Runs of the browser's live connection (apps/web/src/lib/use-live-odds.ts) together with the
    gateway's end of its sockets: any interleaving of hooks, socket events and frames. */
module LiveRuns {
  import opened Options
  import opened GatewayState
  import opened Gateway
  import opened LiveLink

  /** Everything that can happen, in any order. */
  datatype Step =
    | MountHook(hook: HookId, matches: set<string>)
    | UnmountHook(hook: HookId)
    | OpenEvent(socket: SocketId)
    | CloseSocketEvent(socket: SocketId, otherListeners: bool)
    | ClosingStarts(socket: SocketId)
    | TimerFires
    | HelloFrame(userId: Option<string>)
    | SessionUser(userId: Option<string>)
    | FrameHandled(socket: SocketId)
    | GatewayReleases(socket: SocketId)

  predicate IsConnecting(l: Link, s: SocketId) { s in l.sockets && l.sockets[s].readyState == Connecting }

  /** What each step does. Sets and map keys are listed in some order, each element once; a step
      that cannot happen in the current state does nothing. */
  ghost predicate Moved(a: Link, b: Link, step: Step) {
    match step
    case MountHook(h, matches) =>
      if h in a.hooks then b == a else exists ms :: Lists(ms, matches) && b == MountLink(a, h, matches, ms)
    case UnmountHook(h) =>
      if h in a.hooks then exists ms :: Lists(ms, a.hooks[h]) && b == UnmountLink(a, h, ms) else b == a
    case OpenEvent(s) =>
      if IsConnecting(a, s) then exists keys :: Lists(keys, a.counts.Keys) && b == OnOpen(a, s, keys) else b == a
    case CloseSocketEvent(s, others) => b == if s in a.sockets then OnClose(a, s, others) else a
    case ClosingStarts(s) => b == if s in a.sockets then StartClosing(a, s) else a
    case TimerFires => b == if a.reconnectTimer then EnsureConnected(a.(reconnectTimer := false)) else a
    case HelloFrame(u) => b == OnHello(a, u)
    case SessionUser(u) => b == SetExpectedUser(a, u)
    case FrameHandled(s) => b == if InFlight(a, s) then Deliver(a, s) else a
    case GatewayReleases(s) => b == if s in a.sockets then ReleaseRemote(a, s) else a
  }

  ghost predicate IsLiveRun(links: seq<Link>, steps: seq<Step>) {
    && |links| == |steps| + 1 && links[0] == IDLE
    && forall k :: 0 <= k < |steps| ==> Moved(links[k], links[k + 1], steps[k])
  }

  /** The hooks that the mounts and unmounts of a run leave. */
  ghost function HooksAfter(steps: seq<Step>): map<HookId, set<string>> {
    if steps == [] then map[]
    else
      var before, step := HooksAfter(steps[..|steps| - 1]), steps[|steps| - 1];
      if step.MountHook? && step.hook !in before then before[step.hook := step.matches]
      else if step.UnmountHook? then before - {step.hook}
      else before
  }

  // ----- every step keeps the invariant -----

  lemma PeakStays(l: Link, t: Trace)
    requires LinkInv(l, t)
    ensures Raised(t.peak, l.counts) == t.peak
  {
  }

  lemma QuietKeeps(a: Link, b: Link, step: Step, t: Trace)
    requires LinkInv(a, t) && Moved(a, b, step) && !step.MountHook? && !step.UnmountHook?
    ensures LinkInv(b, t) && b.hooks == a.hooks
  {
    hide LinkInv, OnOpen, OnClose, EnsureConnected, StartClosing, Deliver, ReleaseRemote, Reconcile;
    HooksUntouched(a, b, step);
    match step {
      case OpenEvent(s) =>
        if IsConnecting(a, s) {
          var keys :| Lists(keys, a.counts.Keys) && b == OnOpen(a, s, keys);
          OnOpenKeeps(a, t, s, keys);
        }
      case CloseSocketEvent(s, others) => if s in a.sockets { OnCloseKeeps(a, t, s, others); }
      case ClosingStarts(s) => if s in a.sockets { StartClosingKeeps(a, t, s); }
      case TimerFires =>
        if a.reconnectTimer {
          TimerCleared(a, t);
          EnsureConnectedKeeps(a.(reconnectTimer := false), t);
        }
      case HelloFrame(u) =>
        IdentityApart(a, t, u, a.expectedUserId, true, a.expectedUserKnown, a.authReconnects);
        ReconcileKeeps(a.(helloUserId := u, helloSeen := true), t);
      case SessionUser(u) =>
        IdentityApart(a, t, a.helloUserId, u, a.helloSeen, true, 0);
        ReconcileKeeps(a.(expectedUserId := u, expectedUserKnown := true, authReconnects := 0), t);
      case FrameHandled(s) => if InFlight(a, s) { DeliverKeeps(a, t, s); }
      case GatewayReleases(s) => if s in a.sockets { ReleaseRemoteKeeps(a, t, s); }
    }
  }

  lemma HooksUntouched(a: Link, b: Link, step: Step)
    requires Moved(a, b, step) && !step.MountHook? && !step.UnmountHook?
    ensures b.hooks == a.hooks
  {
  }

  lemma StepKeeps(a: Link, b: Link, step: Step, t: Trace) returns (t': Trace)
    requires LinkInv(a, t) && Moved(a, b, step)
    ensures LinkInv(b, t') && t'.peak == Raised(t.peak, b.counts)
    ensures step.MountHook? && step.hook !in a.hooks ==> b.hooks == a.hooks[step.hook := step.matches]
    ensures step.UnmountHook? ==> b.hooks == a.hooks - {step.hook}
    ensures !step.UnmountHook? && (step.MountHook? ==> step.hook in a.hooks) ==> b.hooks == a.hooks
  {
    hide LinkInv, MountLink, UnmountLink, Raised;
    t' := t;
    if step.MountHook? {
      if step.hook !in a.hooks {
        var ms :| Lists(ms, step.matches) && b == MountLink(a, step.hook, step.matches, ms);
        t' := MountKeeps(a, t, step.hook, step.matches, ms);
        return;
      }
    } else if step.UnmountHook? {
      if step.hook in a.hooks {
        var ms :| Lists(ms, a.hooks[step.hook]) && b == UnmountLink(a, step.hook, ms);
        t' := UnmountKeeps(a, t, step.hook, ms);
      }
    } else {
      QuietKeeps(a, b, step, t);
    }
    PeakStays(b, t');
  }

  lemma HooksStep(steps: seq<Step>, n: nat, before: Link, after: Link)
    requires 0 < n <= |steps| && before.hooks == HooksAfter(steps[..n - 1])
    requires var step := steps[n - 1];
             && (step.MountHook? && step.hook !in before.hooks ==> after.hooks == before.hooks[step.hook := step.matches])
             && (step.UnmountHook? ==> after.hooks == before.hooks - {step.hook})
             && (!step.UnmountHook? && (step.MountHook? ==> step.hook in before.hooks) ==> after.hooks == before.hooks)
    ensures after.hooks == HooksAfter(steps[..n])
  {
    assert steps[..n][..n - 1] == steps[..n - 1];
  }

  /** After any run: the invariant, the hooks its mounts and unmounts leave, and a peak that is the
      largest number of keys counted in any state so far. */
  lemma {:induction false} RunKeeps(links: seq<Link>, steps: seq<Step>, n: nat) returns (t: Trace, at: nat)
    requires IsLiveRun(links, steps) && n <= |steps|
    ensures LinkInv(links[n], t) && links[n].hooks == HooksAfter(steps[..n])
    ensures at <= n && t.peak == |links[at].counts.Keys|
    ensures forall k :: 0 <= k <= n ==> |links[k].counts.Keys| <= t.peak
  {
    hide LinkInv, Moved, HooksAfter;
    if n == 0 {
      IdleInv();
      NoHooksYet();
      return Trace(map[], {}, 0), 0;
    }
    var before, last := RunKeeps(links, steps, n - 1);
    t := StepKeeps(links[n - 1], links[n], steps[n - 1], before);
    HooksStep(steps, n, links[n - 1], links[n]);
    at := if t.peak == before.peak then last else n;
  }

  lemma NoHooksYet()
    ensures HooksAfter([]) == map[]
  {
  }

  lemma CountedIsCovered(links: seq<Link>, steps: seq<Step>, n: nat)
    requires IsLiveRun(links, steps) && n <= |steps|
    ensures links[n].counts.Keys == Covered(HooksAfter(steps[..n]))
  {
    hide LinkInv, Moved, Covered;
    var t, at := RunKeeps(links, steps, n);
    KeysAreCovered(links[n], t);
  }

  /** No prefix of the run leaves more than a hundred matches covered. */
  ghost predicate WithinCap(steps: seq<Step>) {
    forall n :: 0 <= n <= |steps| ==> |Covered(HooksAfter(steps[..n]))| <= MAX_SUBSCRIPTIONS_PER_CLIENT
  }

  /** Browser to gateway, over every run: if at most a hundred matches are ever covered and the open
      held socket has drained, the gateway holds for it exactly the matches the mounted hooks cover;
      nothing, if the gateway has torn its end down. */
  lemma RunEndToEnd(links: seq<Link>, steps: seq<Step>)
    requires IsLiveRun(links, steps) && WithinCap(steps) && Drained(links[|steps|])
    ensures var l := links[|steps|]; var x := l.sockets[l.socket.value];
            && x.remote == (if x.released then {} else Covered(HooksAfter(steps)))
            && (x.remote == Covered(HooksAfter(steps)) <==> !x.released || Covered(HooksAfter(steps)) == {})
  {
    hide LinkInv, Moved, Covered, HooksAfter;
    var t, at := RunKeeps(links, steps, |steps|);
    assert steps[..|steps|] == steps;
    CountedIsCovered(links, steps, at);
    EndToEnd(links[|steps|], t);
  }

  /** Over every run, a key's count is the number of mounted hooks covering it. */
  lemma RunCounts(links: seq<Link>, steps: seq<Step>, n: nat, m: string)
    requires IsLiveRun(links, steps) && n <= |steps|
    ensures var hooks := HooksAfter(steps[..n]);
            |set h | h in hooks && m in hooks[h]| == if m in links[n].counts then links[n].counts[m] else 0
  {
    hide LinkInv, Moved, HooksAfter;
    var t, at := RunKeeps(links, steps, n);
    CountsAreHooks(links[n], t, m);
  }

  // ----- no socket is forgotten -----

  predicate Live(x: Socket) { x.readyState == Connecting || x.readyState == Open }

  /** Every connecting or open socket is the one the connection holds. */
  ghost predicate SoleLive(l: Link) {
    && (forall s :: s in l.sockets && Live(l.sockets[s]) ==> l.socket == Some(s))
    && (l.socket.Some? ==> l.socket.value in l.sockets)
  }

  /** A close event that forgets nothing live: the connection holds no socket, the closing one, or
      one that is itself past its life. */
  predicate ForgetsNothing(l: Link, s: SocketId) {
    l.socket == None || l.socket == Some(s) || (l.socket.value in l.sockets && !Live(l.sockets[l.socket.value]))
  }

  /** The exact condition on a close event. */
  lemma CloseKeepsIff(l: Link, s: SocketId, others: bool)
    requires SoleLive(l) && s in l.sockets
    ensures SoleLive(OnClose(l, s, others)) <==> ForgetsNothing(l, s)
  {
    var r := OnClose(l, s, others);
    if !ForgetsNothing(l, s) {
      assert Live(r.sockets[l.socket.value]);
    }
  }

  lemma EndsKeepSole(a: Link, b: Link)
    requires SoleLive(a) && SameEnds(a, b)
    ensures SoleLive(b)
  {
  }

  lemma ConnectKeepsSole(l: Link)
    requires SoleLive(l)
    ensures SoleLive(EnsureConnected(l))
  {
  }

  lemma HooksKeepSole(l: Link, hooks: map<HookId, set<string>>)
    requires SoleLive(l)
    ensures SoleLive(l.(hooks := hooks))
  {
  }

  lemma MountKeepsSole(l: Link, h: HookId, matches: set<string>, ms: seq<string>)
    requires SoleLive(l)
    ensures SoleLive(MountLink(l, h, matches, ms))
  {
    hide SoleLive, BumpAll, EnsureConnected, SameEnds;
    var l1 := l.(hooks := l.hooks[h := matches]);
    HooksKeepSole(l, l1.hooks);
    BumpAllEnds(l1, ms);
    EndsKeepSole(l1, BumpAll(l1, ms));
    ConnectKeepsSole(BumpAll(l1, ms));
  }

  lemma UnmountKeepsSole(l: Link, h: HookId, ms: seq<string>)
    requires SoleLive(l)
    ensures SoleLive(UnmountLink(l, h, ms))
  {
    hide SoleLive, DropAll, SameEnds;
    var l1 := l.(hooks := l.hooks - {h});
    HooksKeepSole(l, l1.hooks);
    DropAllEnds(l1, ms);
    EndsKeepSole(l1, DropAll(l1, ms));
  }

  lemma SocketStepsKeepSole(l: Link, s: SocketId)
    requires SoleLive(l) && s in l.sockets
    ensures SoleLive(StartClosing(l, s)) && SoleLive(ReleaseRemote(l, s))
    ensures InFlight(l, s) ==> SoleLive(Deliver(l, s))
  {
    hide HandleIds;
  }

  lemma OpenKeepsSole(l: Link, s: SocketId, keys: seq<string>)
    requires SoleLive(l) && IsConnecting(l, s)
    ensures SoleLive(OnOpen(l, s, keys))
  {
  }

  lemma IdentityKeepsSole(l: Link, u: Option<string>)
    requires SoleLive(l)
    ensures SoleLive(OnHello(l, u)) && SoleLive(SetExpectedUser(l, u))
  {
  }

  /** No other step ever leaves a live socket unheld. */
  lemma OtherKeepsSole(a: Link, b: Link, step: Step)
    requires SoleLive(a) && Moved(a, b, step) && !step.CloseSocketEvent?
    ensures SoleLive(b)
  {
    hide SoleLive, MountLink, UnmountLink, OnOpen, EnsureConnected, StartClosing, Deliver, ReleaseRemote, OnHello, SetExpectedUser;
    match step {
      case MountHook(h, matches) =>
        if h !in a.hooks {
          var ms :| Lists(ms, matches) && b == MountLink(a, h, matches, ms);
          MountKeepsSole(a, h, matches, ms);
        }
      case UnmountHook(h) =>
        if h in a.hooks {
          var ms :| Lists(ms, a.hooks[h]) && b == UnmountLink(a, h, ms);
          UnmountKeepsSole(a, h, ms);
        }
      case OpenEvent(s) =>
        if IsConnecting(a, s) {
          var keys :| Lists(keys, a.counts.Keys) && b == OnOpen(a, s, keys);
          OpenKeepsSole(a, s, keys);
        }
      case TimerFires =>
        TimerKeepsSole(a);
        ConnectKeepsSole(a.(reconnectTimer := false));
      case HelloFrame(u) => IdentityKeepsSole(a, u);
      case SessionUser(u) => IdentityKeepsSole(a, u);
      case ClosingStarts(s) => if s in a.sockets { SocketStepsKeepSole(a, s); }
      case FrameHandled(s) => if s in a.sockets { SocketStepsKeepSole(a, s); }
      case GatewayReleases(s) => if s in a.sockets { SocketStepsKeepSole(a, s); }
    }
  }

  lemma TimerKeepsSole(l: Link)
    requires SoleLive(l)
    ensures SoleLive(l.(reconnectTimer := false))
  {
  }

  /** Every close event of the run forgets nothing live. */
  ghost predicate ClosesInOrder(links: seq<Link>, steps: seq<Step>)
    requires |links| == |steps| + 1
  {
    forall k :: 0 <= k < |steps| && steps[k].CloseSocketEvent? && steps[k].socket in links[k].sockets ==>
      ForgetsNothing(links[k], steps[k].socket)
  }

  lemma {:induction false} SoleSoFar(links: seq<Link>, steps: seq<Step>, n: nat)
    requires IsLiveRun(links, steps) && n <= |steps| && ClosesInOrder(links, steps)
    ensures SoleLive(links[n])
  {
    hide Moved, OnClose;
    if n > 0 {
      SoleSoFar(links, steps, n - 1);
      var step := steps[n - 1];
      assert Moved(links[n - 1], links[n], step);
      if step.CloseSocketEvent? {
        CloseMoved(links[n - 1], links[n], step);
        if step.socket in links[n - 1].sockets { CloseKeepsIff(links[n - 1], step.socket, step.otherListeners); }
      } else {
        OtherKeepsSole(links[n - 1], links[n], step);
      }
    }
  }

  lemma CloseMoved(a: Link, b: Link, step: Step)
    requires Moved(a, b, step) && step.CloseSocketEvent?
    ensures b == if step.socket in a.sockets then OnClose(a, step.socket, step.otherListeners) else a
  {
  }

  /** Over every run: no live socket is ever forgotten if and only if no close event arrives for one
      socket while the connection holds another that is still connecting or open. */
  lemma NeverForgottenIff(links: seq<Link>, steps: seq<Step>)
    requires IsLiveRun(links, steps)
    ensures (forall k :: 0 <= k < |links| ==> SoleLive(links[k])) <==> ClosesInOrder(links, steps)
  {
    hide Moved, OnClose, SoleLive, ForgetsNothing;
    if ClosesInOrder(links, steps) {
      forall k | 0 <= k < |links| ensures SoleLive(links[k]) { SoleSoFar(links, steps, k); }
    }
    if forall k :: 0 <= k < |links| ==> SoleLive(links[k]) {
      forall k | 0 <= k < |steps| && steps[k].CloseSocketEvent? && steps[k].socket in links[k].sockets
        ensures ForgetsNothing(links[k], steps[k].socket)
      {
        assert Moved(links[k], links[k + 1], steps[k]) && SoleLive(links[k]) && SoleLive(links[k + 1]);
        CloseMoved(links[k], links[k + 1], steps[k]);
        CloseKeepsIff(links[k], steps[k].socket, steps[k].otherListeners);
      }
    }
  }

  lemma BumpOne(l: Link, m: string)
    ensures BumpAll(l, [m]) == BumpUp(l, m)
  {
    assert [m][..0] == [];
    assert BumpAll(l, []) == l;
  }

  lemma ListsOne()
    ensures Lists(["m"], {"m"})
  {
    assert Ids(["m"]) == {"m"};
  }

  /** The first mount opens socket 0, which opens and starts closing. */
  lemma FirstSocket() returns (l1: Link, l2: Link, l3: Link)
    ensures Moved(IDLE, l1, MountHook(0, {"m"})) && Moved(l1, l2, OpenEvent(0)) && Moved(l2, l3, ClosingStarts(0))
    ensures OldClosing(l3)
  {
    ListsOne();
    BumpOne(IDLE.(hooks := IDLE.hooks[0 := {"m"}]), "m");
    l1 := MountLink(IDLE, 0, {"m"}, ["m"]);
    assert l1.counts == map["m" := 1] && l1.sockets == map[0 := NEW_SOCKET] && l1.socket == Some(0) && l1.nextSocket == 1;
    assert l1.counts.Keys == {"m"};
    l2 := OnOpen(l1, 0, ["m"]);
    l3 := StartClosing(l2, 0);
  }

  ghost predicate OldClosing(l: Link) {
    && l.hooks.Keys == {0} && l.counts == map["m" := 1] && l.socket == Some(0) && !l.opening && l.nextSocket == 1
    && l.sockets.Keys == {0} && l.sockets[0].readyState == Closing
  }

  /** A second mount opens socket 1 beside it. */
  lemma SecondMount(l3: Link) returns (l4: Link)
    requires OldClosing(l3)
    ensures Moved(l3, l4, MountHook(1, {"m"}))
    ensures l4.counts.Keys == {"m"} && l4.sockets.Keys == {0, 1} && l4.sockets[1] == NEW_SOCKET && l4.socket == Some(1)
  {
    hide Lists;
    ListsOne();
    var l := l3.(hooks := l3.hooks[1 := {"m"}]);
    BumpOne(l, "m");
    assert BumpUp(l, "m") == l.(counts := map["m" := 2]);
    l4 := MountLink(l3, 1, {"m"}, ["m"]);
  }

  /** Socket 1 opens; then socket 0's close event arrives. */
  lemma SecondSocket(l4: Link) returns (l5: Link, l6: Link)
    requires l4.counts.Keys == {"m"} && l4.sockets.Keys == {0, 1} && l4.sockets[1] == NEW_SOCKET && l4.socket == Some(1)
    ensures Moved(l4, l5, OpenEvent(1)) && Moved(l5, l6, CloseSocketEvent(0, false))
    ensures 0 in l5.sockets && !ForgetsNothing(l5, 0)
    ensures l6.socket == None && 1 in l6.sockets && l6.sockets[1].readyState == Open && l6.sockets[1].sent == [SubscribeTo(["m"])]
  {
    hide Lists;
    ListsOne();
    l5 := OnOpen(l4, 1, ["m"]);
    l6 := OnClose(l5, 0, false);
  }

  /** Such an event does happen: a hook mounts while the old socket is closing, the new socket opens,
      then the old one's close event arrives. The open, subscribed socket is held by nobody. */
  lemma OrphanedSocket() returns (links: seq<Link>, steps: seq<Step>)
    ensures IsLiveRun(links, steps)
    ensures var l := links[|steps|];
            l.socket == None && 1 in l.sockets && l.sockets[1].readyState == Open && l.sockets[1].sent == [SubscribeTo(["m"])]
    ensures !ClosesInOrder(links, steps)
  {
    hide Moved, ForgetsNothing, OldClosing;
    steps := [MountHook(0, {"m"}), OpenEvent(0), ClosingStarts(0), MountHook(1, {"m"}), OpenEvent(1), CloseSocketEvent(0, false)];
    var l1, l2, l3 := FirstSocket();
    var l4 := SecondMount(l3);
    var l5, l6 := SecondSocket(l4);
    links := [IDLE, l1, l2, l3, l4, l5, l6];
    assert !ForgetsNothing(links[5], steps[5].socket);
  }
}
