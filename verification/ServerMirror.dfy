/** Mirror sessions: who owns one, which history made it so, and where frames go. */
module ServerMirror {
  import opened Base
  import opened Clients
  import opened Hubs
  import opened DeviceTable
  import opened Server
  import ServerRegistry

  // ---------------------------------------------------------------- sessions and dashboards

  /** Every session belongs to a registered dashboard still in its read loop. */
  ghost predicate SessionsOwned(s: State) {
    && (forall x :: x in s.hub.dashboards <==> x in s.dashes && s.dashes[x] != Left)
    && (forall d :: d in s.hub.sessions ==>
          s.hub.sessions[d] in s.dashes && s.dashes[s.hub.sessions[d]] == Looping)
  }

  /** Handlers of devices leave dashboards alone and only ever remove sessions. */
  lemma HandlerOnlyDrops(s: State, k: ConnId, act: DeviceAct)
    requires k in s.conns
    ensures OnlyDrops(s, DeviceNext(s, k, act))
  {
    if act.DoWork? && s.conns[k].pc.Handling? {
      WorkOnlyDrops(s, k, s.conns[k].pc.work, act.writeOk);
    }
  }

  ghost predicate OnlyDrops(s: State, s': State) {
    && s'.dashes == s.dashes && s'.hub.dashboards == s.hub.dashboards
    && (forall d :: d in s'.hub.sessions ==> d in s.hub.sessions && s'.hub.sessions[d] == s.hub.sessions[d])
  }

  lemma WorkOnlyDrops(s: State, k: ConnId, work: Work, writeOk: bool)
    requires k in s.conns
    ensures OnlyDrops(s, WorkNext(s, k, work, writeOk))
  {
  }

  lemma DashboardKeepsOwned(s: State, x: DashId, act: DashAct)
    requires SessionsOwned(s) && x in s.dashes
    ensures SessionsOwned(DashNext(s, x, act))
  {
  }

  lemma StepKeepsOwned(s: State, step: Step)
    requires SessionsOwned(s)
    ensures SessionsOwned(Next(s, step))
  {
    match step {
      case Dashboard(x, act) =>
        if x in s.dashes {
          DashboardKeepsOwned(s, x, act);
        }
      case Handler(k, act) =>
        if k in s.conns {
          HandlerOnlyDrops(s, k, act);
        }
      case _ =>
    }
  }

  lemma {:induction false} RunKeepsOwned(init: State, steps: seq<Step>)
    requires Fresh(init)
    ensures SessionsOwned(After(init, steps))
  {
    if steps != [] {
      RunKeepsOwned(init, steps[..|steps| - 1]);
      StepKeepsOwned(After(init, steps[..|steps| - 1]), steps[|steps| - 1]);
    }
  }

  /** In every run a session's dashboard is registered, and no session names a dashboard whose
      teardown has begun, however the two teardown steps interleave with the rest. */
  lemma SessionsNameRegisteredDashboards(init: State, steps: seq<Step>)
    requires Fresh(init)
    ensures
      var s := After(init, steps);
      && (forall d :: d in s.hub.sessions ==> s.hub.sessions[d] in s.hub.dashboards)
      && (forall x, d :: x in s.dashes && s.dashes[x] != Looping ==> !s.hub.Mirrors(d, x))
  {
    RunKeepsOwned(init, steps);
  }

  // ---------------------------------------------------------------- sessions as history

  /** The event takes the device's session away from dashboard `x`, or gives it to another. */
  predicate Ends(e: MirrorEvent, d: DeviceId, x: DashId) {
    match e
    case Started(device, _) => device == d
    case Stopped(device) => device == d
    case Failed(device) => device == d
    case DashLeft(dash) => dash == x
  }

  /** `x` started mirroring `d` at some point of the history and nothing has ended it since. */
  ghost predicate Owns(events: seq<MirrorEvent>, d: DeviceId, x: DashId) {
    exists i :: 0 <= i < |events| && events[i] == Started(d, x) && Undisturbed(events, i, d, x)
  }

  ghost predicate Undisturbed(events: seq<MirrorEvent>, i: nat, d: DeviceId, x: DashId) {
    forall j :: i < j < |events| ==> !Ends(events[j], d, x)
  }

  lemma OwnsAfterEvent(events: seq<MirrorEvent>, e: MirrorEvent, d: DeviceId, x: DashId)
    ensures Owns(events + [e], d, x) <==> e == Started(d, x) || (Owns(events, d, x) && !Ends(e, d, x))
  {
    var all := events + [e];
    if e == Started(d, x) {
      assert all[|events|] == Started(d, x) && Undisturbed(all, |events|, d, x);
    } else {
      if Owns(events, d, x) && !Ends(e, d, x) {
        var i :| 0 <= i < |events| && events[i] == Started(d, x) && Undisturbed(events, i, d, x);
        assert all[i] == Started(d, x) && Undisturbed(all, i, d, x);
      }
      if Owns(all, d, x) {
        var i :| 0 <= i < |all| && all[i] == Started(d, x) && Undisturbed(all, i, d, x);
        assert i < |events| && all[|events|] == e;
        forall j | i < j < |events| ensures !Ends(events[j], d, x) {
          assert all[j] == events[j];
        }
        assert events[i] == Started(d, x) && Undisturbed(events, i, d, x);
      }
    }
  }

  /** The session map is exactly what the history says. */
  ghost predicate SessionsMatch(sessions: map<DeviceId, DashId>, events: seq<MirrorEvent>) {
    forall d, x :: Owns(events, d, x) <==> d in sessions && sessions[d] == x
  }

  lemma NotingMatches(sessions: map<DeviceId, DashId>, events: seq<MirrorEvent>, e: MirrorEvent,
                      sessions': map<DeviceId, DashId>)
    requires SessionsMatch(sessions, events)
    requires forall d, x :: (d in sessions' && sessions'[d] == x)
               <==> e == Started(d, x) || (d in sessions && sessions[d] == x && !Ends(e, d, x))
    ensures SessionsMatch(sessions', events + [e])
  {
    forall d, x ensures Owns(events + [e], d, x) <==> d in sessions' && sessions'[d] == x {
      OwnsAfterEvent(events, e, d, x);
    }
  }

  /** Every step either leaves sessions and history alone or performs the one event it notes. */
  ghost predicate Noted(s: State, s': State) {
    || (s'.hub.sessions == s.hub.sessions && s'.trail.events == s.trail.events)
    || (exists e :: s'.trail.events == s.trail.events + [e] && Performs(s.hub.sessions, e, s'.hub.sessions))
  }

  ghost predicate Performs(sessions: map<DeviceId, DashId>, e: MirrorEvent, sessions': map<DeviceId, DashId>) {
    forall d, x :: (d in sessions' && sessions'[d] == x)
      <==> e == Started(d, x) || (d in sessions && sessions[d] == x && !Ends(e, d, x))
  }

  lemma HandlerNotes(s: State, k: ConnId, act: DeviceAct)
    requires k in s.conns
    ensures Noted(s, DeviceNext(s, k, act))
  {
    var s' := DeviceNext(s, k, act);
    if s'.trail.events != s.trail.events {
      assert Performs(s.hub.sessions, Failed(s.conns[k].device), s'.hub.sessions);
    }
  }

  lemma DashboardNotes(s: State, x: DashId, act: DashAct)
    requires x in s.dashes
    ensures Noted(s, DashNext(s, x, act))
  {
    var s' := DashNext(s, x, act);
    if s.dashes[x] == Looping {
      match act {
        case Start(d) => assert Performs(s.hub.sessions, Started(d, x), s'.hub.sessions);
        case Stop(d) => assert Performs(s.hub.sessions, Stopped(d), s'.hub.sessions);
        case StopSessions(_) => assert Performs(s.hub.sessions, DashLeft(x), s'.hub.sessions);
        case UnregisterSelf =>
      }
    }
  }

  lemma StepNotes(s: State, step: Step)
    ensures Noted(s, Next(s, step))
  {
    match step {
      case Handler(k, act) =>
        if k in s.conns {
          HandlerNotes(s, k, act);
        }
      case Dashboard(x, act) =>
        if x in s.dashes {
          DashboardNotes(s, x, act);
        }
      case _ =>
    }
  }

  lemma {:induction false} RunMatchesHistory(init: State, steps: seq<Step>)
    requires Fresh(init)
    ensures SessionsMatch(After(init, steps).hub.sessions, After(init, steps).trail.events)
  {
    if steps != [] {
      RunMatchesHistory(init, steps[..|steps| - 1]);
      var s := After(init, steps[..|steps| - 1]);
      var s' := Next(s, steps[|steps| - 1]);
      StepNotes(s, steps[|steps| - 1]);
      if s'.trail.events != s.trail.events {
        var e :| s'.trail.events == s.trail.events + [e] && Performs(s.hub.sessions, e, s'.hub.sessions);
        NotingMatches(s.hub.sessions, s.trail.events, e, s'.hub.sessions);
      }
    }
  }

  // ---------------------------------------------------------------- frames

  /** Dashboard `x` owned the device's session when the history had length `at`. */
  ghost predicate OwnedThen(events: seq<MirrorEvent>, at: nat, d: DeviceId, x: DashId) {
    at <= |events| && Owns(events[..at], d, x)
  }

  /** The handler is at a frame it has looked up a dashboard for. */
  predicate CarriesFrame(pc: Pc) {
    pc.Handling? && (pc.work.RelayTo? || pc.work.StopAfterFailure?)
  }

  /** Relayed frames and those past their lookup carry the owner at that lookup. */
  ghost predicate FramesRight(s: State) {
    && (forall r :: r in s.trail.relays ==> OwnedThen(s.trail.events, r.at, r.device, r.dash))
    && (forall k :: k in s.conns && CarriesFrame(s.conns[k].pc) ==>
          OwnedThen(s.trail.events, s.conns[k].pc.work.at, s.conns[k].device, s.conns[k].pc.work.dash))
  }

  lemma OwnedThenLasts(events: seq<MirrorEvent>, e: MirrorEvent, at: nat, d: DeviceId, x: DashId)
    requires OwnedThen(events, at, d, x)
    ensures OwnedThen(events + [e], at, d, x)
  {
    assert (events + [e])[..at] == events[..at];
  }

  lemma GrowingKeepsFrames(s: State, s': State)
    requires FramesRight(s) && Noted(s, s')
    requires s'.trail.relays == s.trail.relays && s'.conns == s.conns
    ensures FramesRight(s')
  {
    if s'.trail.events != s.trail.events {
      var e :| s'.trail.events == s.trail.events + [e] && Performs(s.hub.sessions, e, s'.hub.sessions);
      forall at: nat, d, x | OwnedThen(s.trail.events, at, d, x) {
        OwnedThenLasts(s.trail.events, e, at, d, x);
      }
    }
  }

  /** A frame the handler carries is the one it carried before, or has just been looked up. */
  predicate KeepsOrFinds(s: State, conn: Conn, pc': Pc)
    requires CarriesFrame(pc')
  {
    || (CarriesFrame(conn.pc) && pc'.work.dash == conn.pc.work.dash && pc'.work.at == conn.pc.work.at)
    || (pc'.work.at == |s.trail.events| && s.hub.Mirrors(conn.device, pc'.work.dash))
  }

  /** What a handler's step does to frames: it looks one up, writes the one it looked up, or neither. */
  ghost predicate FrameStep(s: State, s': State, k: ConnId)
    requires k in s.conns && k in s'.conns
  {
    var pc', d := s'.conns[k].pc, s.conns[k].device;
    && s'.conns == s.conns[k := Conn(d, pc')]
    && (CarriesFrame(pc') ==> s'.trail.events == s.trail.events && KeepsOrFinds(s, s.conns[k], pc'))
    && (|| s'.trail.relays == s.trail.relays
        || (&& s'.trail.events == s.trail.events
            && CarriesFrame(s.conns[k].pc)
            && s'.trail.relays == s.trail.relays + [Relay(d, s.conns[k].pc.work.dash, s.conns[k].pc.work.at)]))
  }

  lemma HandlerIsFrameStep(s: State, k: ConnId, act: DeviceAct)
    requires k in s.conns
    ensures k in DeviceNext(s, k, act).conns
    ensures FrameStep(s, DeviceNext(s, k, act), k)
  {
    assert s.conns == s.conns[k := s.conns[k]];
  }

  lemma FrameStepKeeps(s: State, s': State, k: ConnId)
    requires FramesRight(s) && SessionsMatch(s.hub.sessions, s.trail.events) && Noted(s, s')
    requires k in s.conns && k in s'.conns && FrameStep(s, s', k)
    ensures FramesRight(s')
  {
    if s'.trail.events != s.trail.events {
      var e :| s'.trail.events == s.trail.events + [e] && Performs(s.hub.sessions, e, s'.hub.sessions);
      forall at: nat, d, x | OwnedThen(s.trail.events, at, d, x) {
        OwnedThenLasts(s.trail.events, e, at, d, x);
      }
    }
    assert s.trail.events[..|s.trail.events|] == s.trail.events;
  }

  lemma {:induction false} RunKeepsFrames(init: State, steps: seq<Step>)
    requires Fresh(init)
    ensures FramesRight(After(init, steps))
  {
    if steps != [] {
      var prefix, step := steps[..|steps| - 1], steps[|steps| - 1];
      RunKeepsFrames(init, prefix);
      RunMatchesHistory(init, prefix);
      StepKeepsFrames(After(init, prefix), step);
    }
  }

  lemma StepKeepsFrames(s: State, step: Step)
    requires FramesRight(s) && SessionsMatch(s.hub.sessions, s.trail.events)
    ensures FramesRight(Next(s, step))
  {
    StepNotes(s, step);
    match step {
      case Handler(k, act) =>
        if k in s.conns {
          HandlerIsFrameStep(s, k, act);
          FrameStepKeeps(s, DeviceNext(s, k, act), k);
        }
      case Accept(_, _) =>
      case _ => GrowingKeepsFrames(s, Next(s, step));
    }
  }

  /** In every run the session map equals what the history of starts, stops, departures and write
      failures says, and every frame ever relayed went to the dashboard that history named at the
      frame's lookup, whatever happened between lookup and write. */
  lemma MirroringFollowsHistory(init: State, steps: seq<Step>)
    requires Fresh(init)
    ensures
      var s := After(init, steps);
      && (forall d, x :: s.hub.Mirrors(d, x) <==> Owns(s.trail.events, d, x))
      && (forall r :: r in s.trail.relays ==>
            r.at <= |s.trail.events| && Owns(s.trail.events[..r.at], r.device, r.dash))
  {
    RunMatchesHistory(init, steps);
    RunKeepsFrames(init, steps);
  }

  // ---------------------------------------------------------------- failed writes

  /** Another dashboard started mirroring the device after the history had length `at` and has its
      session still. */
  ghost predicate TakenOver(events: seq<MirrorEvent>, at: nat, d: DeviceId, x: DashId) {
    exists i, y :: at <= i < |events| && y != x && events[i] == Started(d, y) && Undisturbed(events, i, d, y)
  }

  /** The owner at `at` has been replaced exactly if somebody else owns the device now. */
  lemma TakenOverMeansOther(events: seq<MirrorEvent>, at: nat, d: DeviceId, x: DashId)
    requires OwnedThen(events, at, d, x)
    ensures TakenOver(events, at, d, x) <==> exists y :: y != x && Owns(events, d, y)
  {
    var past := events[..at];
    var i :| 0 <= i < |past| && past[i] == Started(d, x) && Undisturbed(past, i, d, x);
    if j, y :| at <= j < |events| && y != x && events[j] == Started(d, y) && Undisturbed(events, j, d, y) {
      assert Owns(events, d, y);
    }
    if y :| y != x && Owns(events, d, y) {
      var j :| 0 <= j < |events| && events[j] == Started(d, y) && Undisturbed(events, j, d, y);
      forall m | i < m < at ensures !Ends(events[m], d, x) {
        assert past[m] == events[m];
      }
      assert past[i] == events[i] && at <= j;
    }
  }

  /** In every run, a handler about to stop a session because its write to `x` failed ends its own
      device's session and no other. It leaves every dashboard but `x` as it was if and only if nobody
      or `x` still owns that session, which is to say if and only if no other dashboard has taken the
      device over since the frame's lookup. */
  lemma FailureSparesOthers(init: State, steps: seq<Step>, k: ConnId, x: DashId, at: nat, ok: bool)
    requires Fresh(init)
    requires k in After(init, steps).conns && After(init, steps).conns[k].pc == Handling(StopAfterFailure(x, at))
    ensures
      var s := After(init, steps);
      var d, hub' := s.conns[k].device, Next(s, Handler(k, DoWork(ok))).hub;
      && (forall e, y :: hub'.Mirrors(e, y) <==> s.hub.Mirrors(e, y) && e != d)
      && ((forall e, y :: y != x && s.hub.Mirrors(e, y) ==> hub'.Mirrors(e, y))
          <==> d !in s.hub.sessions || s.hub.sessions[d] == x)
      && ((forall e, y :: y != x && s.hub.Mirrors(e, y) ==> hub'.Mirrors(e, y))
          <==> !TakenOver(s.trail.events, at, d, x))
  {
    RunMatchesHistory(init, steps);
    RunKeepsFrames(init, steps);
    var s := After(init, steps);
    var d := s.conns[k].device;
    TakenOverMeansOther(s.trail.events, at, d, x);
    StoppingSparesOthers(s.hub, d, x);
    assert d in s.hub.sessions ==> Owns(s.trail.events, d, s.hub.sessions[d]);
  }

  lemma StoppingSparesOthers(hub: HubState<ConnId>, d: DeviceId, x: DashId)
    ensures (forall e, y :: y != x && hub.Mirrors(e, y) ==> hub.StopMirrorSession(d).Mirrors(e, y))
       <==> d !in hub.sessions || hub.sessions[d] == x
  {
    if d in hub.sessions {
      assert hub.Mirrors(d, hub.sessions[d]) && !hub.StopMirrorSession(d).Mirrors(d, hub.sessions[d]);
    }
  }

  /** If a dashboard takes the device over between a frame's lookup and its failed write, it loses
      its new session. */
  lemma TakeoverLosesSession(s: State, k: ConnId, d: DeviceId, x: DashId, at: nat, y: DashId)
    requires k in s.conns && s.conns[k] == Conn(d, Handling(RelayTo(x, at)))
    requires y in s.dashes && s.dashes[y] == Looping
    ensures
      var taken := Next(s, Dashboard(y, Start(d)));
      var failed := Next(taken, Handler(k, DoWork(false)));
      var stopped := Next(failed, Handler(k, DoWork(true)));
      taken.hub.Mirrors(d, y) && failed.hub.Mirrors(d, y) && d !in stopped.hub.sessions
  {
    var taken := Next(s, Dashboard(y, Start(d)));
    var failed := Next(taken, Handler(k, DoWork(false)));
    assert failed.hub == taken.hub && failed.conns[k] == Conn(d, Handling(StopAfterFailure(x, at)));
  }

  /** Two dashboards open, `x` starts mirroring the device, whose read pump looks up a frame. */
  function LookedUp(s: State, k: ConnId, d: DeviceId, x: DashId, y: DashId): State {
    Next(Next(Shared(s, d, x, y), Handler(k, Receive(Frame))), Handler(k, DoWork(true)))
  }

  function Shared(s: State, d: DeviceId, x: DashId, y: DashId): State {
    Next(Next(Next(s, OpenDash(x)), OpenDash(y)), Dashboard(x, Start(d)))
  }

  lemma FrameIsLookedUp(s: State, k: ConnId, d: DeviceId, x: DashId, y: DashId)
    requires k in s.conns && s.conns[k] == Conn(d, Reading) && x != y && x !in s.dashes && y !in s.dashes
    ensures
      var looking := LookedUp(s, k, d, x, y);
      && k in looking.conns && looking.conns[k] == Conn(d, Handling(RelayTo(x, |s.trail.events| + 1)))
      && y in looking.dashes && looking.dashes[y] == Looping
  {
    var shared := Shared(s, d, x, y);
    assert shared.conns == s.conns && shared.hub.Mirrors(d, x) && |shared.trail.events| == |s.trail.events| + 1;
  }

  /** From `s`: `y` owns the device's session when the write to `x` fails, and then nobody does. */
  ghost predicate LosesNewSession(s: State, k: ConnId, d: DeviceId, x: DashId, y: DashId) {
    var taken := Next(LookedUp(s, k, d, x, y), Dashboard(y, Start(d)));
    var failed := Next(taken, Handler(k, DoWork(false)));
    var stopped := Next(failed, Handler(k, DoWork(true)));
    && k in taken.conns && CarriesFrame(taken.conns[k].pc) && taken.conns[k].pc.work.dash == x
    && taken.hub.Mirrors(d, y) && failed.hub.Mirrors(d, y) && d !in stopped.hub.sessions
  }

  lemma ReadingMayLose(s: State, k: ConnId, d: DeviceId, x: DashId, y: DashId)
    requires k in s.conns && s.conns[k] == Conn(d, Reading) && x != y && x !in s.dashes && y !in s.dashes
    ensures LosesNewSession(s, k, d, x, y)
  {
    FrameIsLookedUp(s, k, d, x, y);
    TakeoverLosesSession(LookedUp(s, k, d, x, y), k, d, x, |s.trail.events| + 1, y);
  }

  /** The run, from a server just started, in which a write to `x` that fails ends the session of `y`,
      which took the device over between the frame's lookup and its write. */
  lemma NewSessionLostToOldFailure(init: State, d: DeviceId, x: DashId, y: DashId)
    requires Fresh(init) && x != y
    ensures LosesNewSession(After(init, ServerRegistry.Connect(1, d)), 1, d, x, y)
  {
    ServerRegistry.ConnectEntersReadLoop(init, 1, d);
    ReadingMayLose(After(init, ServerRegistry.Connect(1, d)), 1, d, x, y);
  }
}
