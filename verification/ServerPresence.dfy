/** Presence: who may be shown online, and how stale that can be. */
module ServerPresence {
  import opened Base
  import opened Hubs
  import opened DeviceTable
  import opened Server

  /** The handler has marked its device online and has not marked it offline yet. */
  predicate Live(pc: Pc) {
    !pc.Arrived? && !pc.Returned?
  }

  predicate LiveFor(s: State, k: ConnId, d: DeviceId) {
    k in s.conns && s.conns[k].device == d && Live(s.conns[k].pc)
  }

  ghost predicate Backed(s: State, d: DeviceId) {
    exists k :: LiveFor(s, k, d)
  }

  ghost predicate OnlineIsBacked(s: State) {
    forall d :: s.table.IsOnline(d) ==> Backed(s, d)
  }

  /** Only the device's own handlers turn it online, and only while they are live afterwards. */
  lemma TurningOnlineIsLive(s: State, step: Step, d: DeviceId)
    requires Next(s, step).table.IsOnline(d) && !s.table.IsOnline(d)
    ensures step.Handler? && LiveFor(Next(s, step), step.conn, d)
  {
    match step {
      case Handler(k, act) =>
        if k in s.conns {
          ActTurnsOwnOnline(s, k, act, d);
        }
      case _ =>
    }
  }

  lemma ActTurnsOwnOnline(s: State, k: ConnId, act: DeviceAct, d: DeviceId)
    requires k in s.conns && DeviceNext(s, k, act).table.IsOnline(d) && !s.table.IsOnline(d)
    ensures LiveFor(DeviceNext(s, k, act), k, d)
  {
  }

  lemma ActLeavesOffline(s: State, j: ConnId, act: DeviceAct, k: ConnId, d: DeviceId)
    requires j in s.conns && LiveFor(s, k, d) && !LiveFor(DeviceNext(s, j, act), k, d)
    ensures !DeviceNext(s, j, act).table.IsOnline(d)
  {
  }

  /** A handler stops being live only in the step that also marks its device offline. */
  lemma LeavingIsOffline(s: State, step: Step, k: ConnId, d: DeviceId)
    requires LiveFor(s, k, d) && !LiveFor(Next(s, step), k, d)
    ensures !Next(s, step).table.IsOnline(d)
  {
    match step {
      case Handler(j, act) =>
        if j in s.conns {
          ActLeavesOffline(s, j, act, k, d);
        }
      case _ =>
    }
  }

  lemma StepKeepsBacked(s: State, step: Step)
    requires OnlineIsBacked(s)
    ensures OnlineIsBacked(Next(s, step))
  {
    var s' := Next(s, step);
    forall d | s'.table.IsOnline(d) ensures Backed(s', d) {
      if s.table.IsOnline(d) {
        var k :| LiveFor(s, k, d);
        if !LiveFor(s', k, d) {
          LeavingIsOffline(s, step, k, d);
        }
        assert LiveFor(s', k, d);
      } else {
        TurningOnlineIsLive(s, step, d);
      }
    }
  }

  /** From an all-offline start, an online device always has a handler between its set-online and
      set-offline steps; so once all its handlers have returned the device is offline. */
  lemma {:induction false} OnlineMeansLiveHandler(init: State, steps: seq<Step>)
    requires Fresh(init) && forall d :: !init.table.IsOnline(d)
    ensures OnlineIsBacked(After(init, steps))
    ensures forall d :: (forall k :: !LiveFor(After(init, steps), k, d)) ==> !After(init, steps).table.IsOnline(d)
  {
    if steps != [] {
      OnlineMeansLiveHandler(init, steps[..|steps| - 1]);
      StepKeepsBacked(After(init, steps[..|steps| - 1]), steps[|steps| - 1]);
    }
  }

  // ---------------------------------------------------------------- staleness

  ghost predicate SeenSince(t: Table, cutoff: int) {
    forall d :: t.IsOnline(d) ==> t.devices[d].lastSeen.Some? && t.devices[d].lastSeen.value >= cutoff
  }

  /** Clock readings never lie ahead, and whoever is online was seen within the timeout of the
      clock reading of the last completed sweep. */
  ghost predicate FreshlySeen(t: Table) {
    && (t.sweepClock.Some? ==> t.sweepClock.value <= t.now)
    && (t.lastSweep.Some? ==> t.lastSweep.value <= t.now && SeenSince(t, t.lastSweep.value - t.offlineAfter))
  }

  lemma WritesKeepFreshlySeen(t: Table, d: DeviceId, online: bool, info: DeviceInfo)
    requires FreshlySeen(t)
    ensures FreshlySeen(t.Online(d, online)) && FreshlySeen(t.Report(d, info))
  {
  }

  lemma SqlKeepsFreshlySeen(t: Table, step: TableStep)
    requires FreshlySeen(t)
    ensures FreshlySeen(TableNext(t, step))
  {
  }

  /** What a step of the server does to the devices table is one of its statements. */
  ghost predicate IsStatement(t: Table, t': Table) {
    || t' == t
    || (exists d, online :: t' == t.Online(d, online))
    || (exists d, info :: t' == t.Report(d, info))
    || (exists step :: t' == TableNext(t, step))
  }

  lemma StepIsStatement(s: State, step: Step)
    ensures IsStatement(s.table, Next(s, step).table)
  {
    match step {
      case Handler(k, act) =>
        if k in s.conns {
          var d := s.conns[k].device;
          var t' := DeviceNext(s, k, act).table;
          assert t' == s.table || t' == s.table.Online(d, true) || t' == s.table.Online(d, false)
              || (s.conns[k].pc.Handling? && s.conns[k].pc.work.ReportInfo?
                  && t' == s.table.Report(d, s.conns[k].pc.work.info));
        }
      case Sql(t) => assert Next(s, step).table == TableNext(s.table, t);
      case _ =>
    }
  }

  lemma {:induction false} RunKeepsFreshlySeen(init: State, steps: seq<Step>)
    requires Fresh(init)
    ensures FreshlySeen(After(init, steps).table)
    ensures After(init, steps).table.offlineAfter == init.table.offlineAfter
  {
    if steps != [] {
      RunKeepsFreshlySeen(init, steps[..|steps| - 1]);
      var s := After(init, steps[..|steps| - 1]);
      var t, t' := s.table, Next(s, steps[|steps| - 1]).table;
      StepIsStatement(s, steps[|steps| - 1]);
      if d, online :| t' == t.Online(d, online) {
        WritesKeepFreshlySeen(t, d, online, DeviceInfo("", "", ""));
      } else if d, info :| t' == t.Report(d, info) {
        WritesKeepFreshlySeen(t, d, true, info);
      } else if step :| t' == TableNext(t, step) {
        SqlKeepsFreshlySeen(t, step);
      }
    }
  }

  // ---------------------------------------------------------------- last seen

  /** The step is a connect, heartbeat, info report or disconnect of the device. */
  predicate Refreshes(s: State, step: Step, d: DeviceId) {
    && step.Handler? && step.conn in s.conns && s.conns[step.conn].device == d
    && var pc := s.conns[step.conn].pc;
    || (step.act.GoOnline? && pc.Arrived?)
    || (step.act.DoWork? && pc.Handling? && (pc.work.Heartbeat? || pc.work.ReportInfo?))
    || (step.act.GoOffline? && pc.GoingOffline?)
  }

  /** Whoever else is online stays so; the device itself is online afterwards unless it disconnected,
      and an info report leaves its presence alone. */
  ghost predicate PresenceAfterRefresh(s: State, step: Step, d: DeviceId)
    requires Refreshes(s, step, d) && d in s.table.devices
  {
    var t, t' := s.table, Next(s, step).table;
    && (forall e :: e != d ==> (t'.IsOnline(e) <==> t.IsOnline(e)))
    && (t'.IsOnline(d) <==>
          if step.act.GoOffline? then false
          else if step.act.DoWork? && s.conns[step.conn].pc.work.ReportInfo? then t.IsOnline(d)
          else true)
  }

  lemma RefreshIsSeen(s: State, step: Step, d: DeviceId)
    requires Refreshes(s, step, d) && d in s.table.devices
    ensures d in Next(s, step).table.devices && Next(s, step).table.devices[d].lastSeen == Some(s.table.now)
    ensures PresenceAfterRefresh(s, step, d)
  {
  }

  lemma OthersLeaveLastSeen(s: State, step: Step, d: DeviceId)
    requires !Refreshes(s, step, d) && step != Sql(RemoveDevice(d)) && d in s.table.devices
    ensures d in Next(s, step).table.devices
    ensures Next(s, step).table.devices[d].lastSeen == s.table.devices[d].lastSeen
  {
    if step.Handler? && step.conn in s.conns {
      HandlersLeaveLastSeen(s, step.conn, step.act, d);
    }
  }

  lemma HandlersLeaveLastSeen(s: State, k: ConnId, act: DeviceAct, d: DeviceId)
    requires !Refreshes(s, Handler(k, act), d) && k in s.conns && d in s.table.devices
    ensures d in DeviceNext(s, k, act).table.devices
    ensures DeviceNext(s, k, act).table.devices[d].lastSeen == s.table.devices[d].lastSeen
  {
  }

  /** Neither a refresh nor the removal of the device happens in the run. */
  ghost predicate Unrefreshed(s: State, run: seq<Step>, d: DeviceId) {
    forall j :: 0 <= j < |run| ==> !Refreshes(After(s, run[..j]), run[j], d) && run[j] != Sql(RemoveDevice(d))
  }

  /** At every instant of every run the last-seen time of a device is the time of its latest connect,
      heartbeat, info report or disconnect: no sweep and nobody else moves it. */
  lemma {:induction false} LastSeenIsLastRefresh(s: State, step: Step, more: seq<Step>, d: DeviceId)
    requires Refreshes(s, step, d) && d in s.table.devices && Unrefreshed(Next(s, step), more, d)
    ensures d in After(Next(s, step), more).table.devices
    ensures After(Next(s, step), more).table.devices[d].lastSeen == Some(s.table.now)
  {
    if more == [] {
      RefreshIsSeen(s, step, d);
    } else {
      var before := more[..|more| - 1];
      assert forall j :: 0 <= j < |before| ==> before[..j] == more[..j];
      LastSeenIsLastRefresh(s, step, before, d);
      OthersLeaveLastSeen(After(Next(s, step), before), more[|more| - 1], d);
    }
  }

  // ---------------------------------------------------------------- bounds

  /** The staleness bound: from any table whatever (a crash may have left rows online), after the
      first sweep and with sweeps at most `period` apart, an online device was seen at most
      timeout + period ago, at every instant of every run. */
  lemma StalenessBound(init: State, steps: seq<Step>, period: Time, d: DeviceId)
    requires Fresh(init)
    requires After(init, steps).table.lastSweep.Some?
    requires After(init, steps).table.now <= After(init, steps).table.lastSweep.value + period
    requires After(init, steps).table.IsOnline(d)
    ensures
      var t := After(init, steps).table;
      t.devices[d].lastSeen.Some? && t.now - t.devices[d].lastSeen.value <= init.table.offlineAfter + period
  {
    RunKeepsFreshlySeen(init, steps);
  }

  /** With the server's own settings and a worker that is never more than its period behind, the
      dashboard shows nobody online who was last seen more than three minutes ago. */
  lemma ThreeMinuteBound(init: State, steps: seq<Step>, d: DeviceId)
    requires Fresh(init) && init.table.offlineAfter == OFFLINE_AFTER
    requires After(init, steps).table.lastSweep.Some?
    requires After(init, steps).table.now <= After(init, steps).table.lastSweep.value + WORKER_PERIOD
    requires d in After(init, steps).table.devices
    requires
      var seen := After(init, steps).table.devices[d].lastSeen;
      seen == None || seen.value + 3 * MINUTE < After(init, steps).table.now
    ensures !After(init, steps).table.IsOnline(d)
  {
    if After(init, steps).table.IsOnline(d) {
      StalenessBound(init, steps, WORKER_PERIOD, d);
    }
  }

  /** No sweep takes offline a device seen within the timeout, however late its UPDATE runs. */
  lemma SweepSparesRecentlySeen(init: State, steps: seq<Step>, d: DeviceId)
    requires Fresh(init)
    requires After(init, steps).table.IsOnline(d)
    requires
      var t := After(init, steps).table;
      t.devices[d].lastSeen.Some? && t.now - t.devices[d].lastSeen.value <= init.table.offlineAfter
    ensures Next(After(init, steps), Sql(SweepRuns)).table.IsOnline(d)
  {
    RunKeepsFreshlySeen(init, steps);
  }
}
