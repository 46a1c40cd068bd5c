/** The shared connection object whose fields the handlers and hooks update in place
    (apps/web/src/lib/use-live-odds.ts). */
module LiveConnection {
  import opened GatewayState
  import opened LiveLink
  import opened LiveRuns

  class SharedConnection {
    var link: Link

    constructor ()
      ensures link == IDLE
    {
      link := IDLE;
    }

    /** The mount loop: count up every match a hook covers, in any order. */
    method CountUp(matches: set<string>) returns (ghost ms: seq<string>)
      modifies this
      ensures Lists(ms, matches) && link == BumpAll(old(link), ms)
    {
      hide BumpUp;
      ms := [];
      var todo := matches;
      while todo != {}
        invariant todo <= matches && Lists(ms, matches - todo) && link == BumpAll(old(link), ms)
        decreases |todo|
      {
        var m :| m in todo;
        ListMore(ms, matches - todo, m);
        assert (ms + [m])[..|ms|] == ms;
        assert matches - todo + {m} == matches - (todo - {m});
        link := BumpUp(link, m);
        ms := ms + [m];
        todo := todo - {m};
      }
      assert matches - todo == matches;
    }

    /** The unmount loop: count down every match a hook covered, in any order. */
    method CountDown(matches: set<string>) returns (ghost ms: seq<string>)
      modifies this
      ensures Lists(ms, matches) && link == DropAll(old(link), ms)
    {
      hide BumpDown;
      ms := [];
      var todo := matches;
      while todo != {}
        invariant todo <= matches && Lists(ms, matches - todo) && link == DropAll(old(link), ms)
        decreases |todo|
      {
        var m :| m in todo;
        ListMore(ms, matches - todo, m);
        assert (ms + [m])[..|ms|] == ms;
        assert matches - todo + {m} == matches - (todo - {m});
        link := BumpDown(link, m);
        ms := ms + [m];
        todo := todo - {m};
      }
      assert matches - todo == matches;
    }

    /** A hook mounts: it is registered, its matches counted up, and a connection is open or on its
        way afterwards. */
    method Mount(h: HookId, matches: set<string>)
      requires h !in link.hooks
      modifies this
      ensures Moved(old(link), link, MountHook(h, matches))
      ensures link.opening || (link.socket.Some? && link.socket.value in link.sockets
                               && link.sockets[link.socket.value].readyState in {Open, Connecting})
    {
      hide BumpAll, EnsureConnected;
      link := link.(hooks := link.hooks[h := matches]);
      ghost var ms := CountUp(matches);
      ConnectionOnly(link);
      link := EnsureConnected(link);
      assert link == MountLink(old(link), h, matches, ms);
    }

    /** A hook unmounts: its registration goes and its matches are counted down. */
    method Unmount(h: HookId)
      requires h in link.hooks
      modifies this
      ensures Moved(old(link), link, UnmountHook(h))
    {
      hide DropAll;
      var matches := link.hooks[h];
      link := link.(hooks := link.hooks - {h});
      ghost var ms := CountDown(matches);
      assert link == UnmountLink(old(link), h, ms);
    }

    /** The open event: list the counted keys and resubscribe them all in one frame. */
    method HandleOpen(s: SocketId)
      requires IsConnecting(link, s)
      modifies this
      ensures Moved(old(link), link, OpenEvent(s))
    {
      hide OnOpen;
      var keys: seq<string> := [];
      var todo := link.counts.Keys;
      while todo != {}
        invariant todo <= link.counts.Keys && Lists(keys, link.counts.Keys - todo) && link == old(link)
        decreases |todo|
      {
        var k :| k in todo;
        ListMore(keys, link.counts.Keys - todo, k);
        assert link.counts.Keys - todo + {k} == link.counts.Keys - (todo - {k});
        keys := keys + [k];
        todo := todo - {k};
      }
      assert link.counts.Keys - todo == link.counts.Keys;
      link := OnOpen(link, s, keys);
    }

    /** One step of any kind; a step that cannot happen in the current state does nothing. */
    method Take(step: Step)
      modifies this
      ensures Moved(old(link), link, step)
    {
      hide MountLink, UnmountLink, OnOpen, OnClose, EnsureConnected, StartClosing, Deliver, ReleaseRemote;
      match step {
        case MountHook(h, matches) => if h !in link.hooks { Mount(h, matches); }
        case UnmountHook(h) => if h in link.hooks { Unmount(h); }
        case OpenEvent(s) => if IsConnecting(link, s) { HandleOpen(s); }
        case CloseSocketEvent(s, others) => if s in link.sockets { link := OnClose(link, s, others); }
        case ClosingStarts(s) => if s in link.sockets { link := StartClosing(link, s); }
        case TimerFires => if link.reconnectTimer { link := EnsureConnected(link.(reconnectTimer := false)); }
        case HelloFrame(u) => link := OnHello(link, u);
        case SessionUser(u) => link := SetExpectedUser(link, u);
        case FrameHandled(s) => if InFlight(link, s) { link := Deliver(link, s); }
        case GatewayReleases(s) => if s in link.sockets { link := ReleaseRemote(link, s); }
      }
    }
  }

  lemma ListMore(ms: seq<string>, done: set<string>, m: string)
    requires Lists(ms, done) && m !in done
    ensures Lists(ms + [m], done + {m})
  {
    assert Ids(ms + [m]) == Ids(ms) + {m};
    forall i | 0 <= i < |ms| ensures ms[i] != m {
      assert ms[i] in Ids(ms);
    }
  }

  /** A whole session of a fresh connection object. Whatever the interleaving: the counts are the
      mounted hooks', and if at most a hundred matches are ever covered and the open held socket has
      drained, the gateway's end holds exactly the covered matches, or nothing once released. */
  method Session(steps: seq<Step>) returns (link: Link, ghost links: seq<Link>)
    ensures IsLiveRun(links, steps) && links[|steps|] == link
    ensures link.hooks == HooksAfter(steps) && link.counts.Keys == Covered(HooksAfter(steps))
    ensures WithinCap(steps) && Drained(link) ==>
              var x := link.sockets[link.socket.value];
              x.remote == if x.released then {} else Covered(HooksAfter(steps))
  {
    hide Moved, LinkInv, HooksAfter, Covered, WithinCap, Drained;
    var conn := new SharedConnection();
    links := [conn.link];
    for i := 0 to |steps|
      invariant |links| == i + 1 && links[0] == IDLE && links[i] == conn.link
      invariant forall k :: 0 <= k < i ==> Moved(links[k], links[k + 1], steps[k])
    {
      conn.Take(steps[i]);
      links := links + [conn.link];
    }
    link := conn.link;
    assert steps[..|steps|] == steps;
    ghost var t, at := RunKeeps(links, steps, |steps|);
    CountedIsCovered(links, steps, |steps|);
    if WithinCap(steps) && Drained(link) { RunEndToEnd(links, steps); }
  }
}
