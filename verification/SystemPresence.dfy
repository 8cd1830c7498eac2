/** The shared tables and clock, and which devices commands are created for. */
module SystemPresence {
  import opened Base
  import opened CommandLogs
  import opened DeviceTable
  import opened System
  import Server
  import ServerPresence
  import CommandTable
  import CommandRuns
  import CommandAccounting

  // ---------------------------------------------------------------- one clock, one devices table

  /** Both halves read the same time, and every command row references a device there is. */
  ghost predicate Agree(s: State) {
    && s.server.table.now == s.commands.now
    && (forall id :: id in s.commands.rows ==> s.commands.rows[id].device in s.server.table.devices)
  }

  /** Only the shared steps move a half's clock or take a device away. */
  lemma OwnStepsKeepTables(s: Server.State, t: Server.Step)
    requires !IsShared(t)
    ensures Server.Next(s, t).table.now == s.table.now
    ensures s.table.devices.Keys <= Server.Next(s, t).table.devices.Keys
  {
    match t {
      case Handler(k, act) =>
        if k in s.conns {
          ActsKeepTables(s, k, act);
        }
      case _ =>
    }
  }

  lemma ActsKeepTables(s: Server.State, k: ConnId, act: Server.DeviceAct)
    requires k in s.conns
    ensures Server.DeviceNext(s, k, act).table.now == s.table.now
    ensures Server.DeviceNext(s, k, act).table.devices.Keys == s.table.devices.Keys
  {
  }

  /** A step of the commands creates rows for one device at most, and only by a scan. */
  lemma RowsKeepDevices(s: CommandRuns.State, t: CommandRuns.Step, id: CommandId)
    requires !IsJoint(t) && id in CommandRuns.Next(s, t).rows
    ensures CommandRuns.Next(s, t).now == s.now
    ensures
      || (id in s.rows && CommandRuns.Next(s, t).rows[id].device == s.rows[id].device)
      || (t.Scan? && s.ledger.Inserts(t.request, t.inserted)
          && CommandRuns.Next(s, t).rows[id].device
             == s.ledger.requests[t.request].members[|s.ledger.requests[t.request].inserts|].device)
  {
  }

  lemma StepKeepsAgreement(s: State, step: Step)
    requires Agree(s)
    ensures Agree(Next(s, step))
  {
    match step {
      case Serve(t) =>
        if !IsShared(t) {
          OwnStepsKeepTables(s.server, t);
        }
      case Run(t) =>
        if !IsJoint(t) {
          forall id | id in CommandRuns.Next(s.commands, Checked(s, t)).rows {
            RowsKeepDevices(s.commands, Checked(s, t), id);
          }
        }
      case LookUpFor(r, t) => RequestsKeepAgreement(s, step);
      case DeliverFor(r, pick) => RequestsKeepAgreement(s, step);
      case _ =>
    }
  }

  lemma RequestsKeepAgreement(s: State, step: Step)
    requires Agree(s) && (step.LookUpFor? || step.DeliverFor?)
    ensures Agree(Next(s, step))
  {
  }

  /** In every run the two halves share one clock, and no command outlives its device. */
  lemma {:induction false} HalvesAgree(init: State, steps: seq<Step>)
    requires Fresh(init)
    ensures Agree(After(init, steps))
  {
    if steps != [] {
      HalvesAgree(init, steps[..|steps| - 1]);
      StepKeepsAgreement(After(init, steps[..|steps| - 1]), steps[|steps| - 1]);
    }
  }

  // ---------------------------------------------------------------- whom commands are created for

  /** At some instant of the run the table showed the device online. */
  ghost predicate WasOnline(init: State, steps: seq<Step>, d: DeviceId) {
    exists n :: 0 <= n <= |steps| && After(init, steps[..n]).server.table.IsOnline(d)
  }

  lemma WasOnlineLasts(init: State, steps: seq<Step>, d: DeviceId)
    requires steps != [] && WasOnline(init, steps[..|steps| - 1], d)
    ensures WasOnline(init, steps, d)
  {
    var before := steps[..|steps| - 1];
    var n :| 0 <= n <= |before| && After(init, before[..n]).server.table.IsOnline(d);
    assert before[..n] == steps[..n];
  }

  predicate OnlineListed(devices: Devices, members: seq<Member>) {
    forall i :: 0 <= i < |members| && members[i].online ==>
      members[i].device in devices && devices[members[i].device].online
  }

  lemma MoveKeepsMembers(s: CommandRuns.State, t: CommandRuns.Step, r: nat)
    requires r in CommandRuns.Next(s, t).ledger.requests
    ensures
      var q := CommandRuns.Next(s, t).ledger.requests[r];
      || (r in s.ledger.requests && q.members == s.ledger.requests[r].members)
      || (t.Open? && q.members == t.members)
  {
  }

  lemma OpeningLists(s: State, step: Step)
    requires CommandMove(s, step).Some? && CommandMove(s, step).value.Open?
    ensures OnlineListed(s.server.table.devices, CommandMove(s, step).value.members)
  {
  }

  /** A request keeps the members it was opened with, which were listed from the table right then. */
  lemma StepKeepsMembers(s: State, step: Step, r: nat)
    requires r in Next(s, step).commands.ledger.requests
    ensures
      var q := Next(s, step).commands.ledger.requests[r];
      || (r in s.commands.ledger.requests && q.members == s.commands.ledger.requests[r].members)
      || OnlineListed(s.server.table.devices, q.members)
  {
    var move := CommandMove(s, step);
    if move.Some? {
      MoveKeepsMembers(s.commands, move.value, r);
      if move.value.Open? {
        OpeningLists(s, step);
      }
    }
  }

  lemma {:induction false} MembersWereOnline(init: State, steps: seq<Step>, r: nat, i: nat)
    requires Fresh(init) && r in After(init, steps).commands.ledger.requests
    requires i < |After(init, steps).commands.ledger.requests[r].members|
    requires After(init, steps).commands.ledger.requests[r].members[i].online
    ensures WasOnline(init, steps, After(init, steps).commands.ledger.requests[r].members[i].device)
  {
    if steps != [] {
      var before, step := steps[..|steps| - 1], steps[|steps| - 1];
      var s := After(init, before);
      var q := After(init, steps).commands.ledger.requests[r];
      StepKeepsMembers(s, step, r);
      if r in s.commands.ledger.requests && q.members == s.commands.ledger.requests[r].members {
        MembersWereOnline(init, before, r, i);
        WasOnlineLasts(init, steps, q.members[i].device);
      } else {
        assert steps[..|steps| - 1] == before;
      }
    }
  }

  /** At some instant of the run the table showed the device online and one of its handlers was
      between its set-online and its set-offline step. */
  ghost predicate HadLiveHandler(init: State, steps: seq<Step>, d: DeviceId) {
    exists n :: 0 <= n <= |steps|
      && After(init, steps[..n]).server.table.IsOnline(d)
      && ServerPresence.Backed(After(init, steps[..n]).server, d)
  }

  /** From an all-offline start, in every run, a command is only ever created for a device that had a
      live handler, and was shown online, at an earlier instant of the same run. */
  lemma CommandsNeedLiveHandlers(init: State, steps: seq<Step>, r: nat, i: nat)
    requires Fresh(init) && forall d :: !init.server.table.IsOnline(d)
    requires CommandAccounting.HasLog(After(init, steps).commands.ledger, r, i)
    ensures HadLiveHandler(init, steps, After(init, steps).commands.ledger.requests[r].logs[i].device)
  {
    var run := CommandRun(init, steps);
    RunsProject(init, steps);
    CommandAccounting.RunKeepsAccounted(init.commands, run);
    var q := After(init, steps).commands.ledger.requests[r];
    var d := q.logs[i].device;
    assert CommandAccounting.WellRun(q);
    var positions := CollectPicks(q.members[..|q.inserts|], q.inserts);
    assert IsLogOf(q.members[..|q.inserts|], q.inserts, positions[i], q.logs[i]);
    MembersWereOnline(init, steps, r, positions[i]);
    var n :| 0 <= n <= |steps| && After(init, steps[..n]).server.table.IsOnline(d);
    RunsProject(init, steps[..n]);
    ServerPresence.OnlineMeansLiveHandler(init.server, ServerRun(init, steps[..n]));
  }
}
