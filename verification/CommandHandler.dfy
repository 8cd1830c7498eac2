/** Dispatching commands through the hub and marking what was sent. */
module CommandHandlers {
  import opened Base
  import opened Clients
  import opened Hubs
  import opened DeviceTable
  import opened CommandTable
  import opened CommandLogs
  import opened CommandSends
  import opened CommandServices

  function MarkedIf(rows: Rows, id: CommandId, isNil: bool): Rows {
    if isNil then WithSent(rows, id) else rows
  }

  /** The rows after marking the logs whose send returned nil, in order. */
  function WithMarks(rows: Rows, logs: seq<Log>, outcomes: seq<bool>): Rows
    requires |logs| == |outcomes|
  {
    if logs == [] then rows
    else
      var n := |logs| - 1;
      MarkedIf(WithMarks(rows, logs[..n], outcomes[..n]), logs[n].id, outcomes[n])
  }

  /** Rows of different commands do not disturb each other: a finished dispatch leaves every log whose
      send returned nil SENT, every other log as created, and every other row untouched. */
  lemma {:induction false} DispatchedRows(rows: Rows, logs: seq<Log>, outcomes: seq<bool>, id: CommandId)
    requires |logs| == |outcomes|
    ensures WithMarks(rows, logs, outcomes).Keys == rows.Keys
    ensures id in rows ==>
              WithMarks(rows, logs, outcomes)[id]
              == if (exists i :: 0 <= i < |logs| && logs[i].id == id && outcomes[i]) then rows[id].(status := Sent)
                 else rows[id]
  {
    if logs != [] {
      var n := |logs| - 1;
      DispatchedRows(rows, logs[..n], outcomes[..n], id);
      if id in rows {
        if i :| 0 <= i < |logs| && logs[i].id == id && outcomes[i] {
          assert i < n ==> logs[..n][i].id == id && outcomes[..n][i];
        }
        if i :| 0 <= i < n && logs[..n][i].id == id && outcomes[..n][i] {
          assert logs[i].id == id && outcomes[i];
        }
      }
    }
  }

  predicate MarkedAs(rows: Rows, log: Log, isNil: bool, kind: string, payload: string, now: Time) {
    && log.id in rows
    && rows[log.id] == NewLog(log.device, kind, payload, now).(status := if isNil then Sent else Pending)
  }

  /** What a group request leaves in the table: each log's own new row, SENT if its send returned nil
      and PENDING otherwise, and every row there was as it was. */
  ghost predicate BulkRows(rows: Rows, logs: seq<Log>, outcomes: seq<bool>, kind: string, payload: string, now: Time,
                           rows': Rows)
    requires |outcomes| == |logs|
  {
    && (forall j :: 0 <= j < |logs| ==>
          logs[j].id !in rows && MarkedAs(rows', logs[j], outcomes[j], kind, payload, now))
    && (forall id :: id in rows ==> id in rows' && rows'[id] == rows[id])
    && (forall id :: id in rows' && id !in rows ==> HasId(logs, id))
  }

  /** Marking changes a log's own row by its own outcome only, and no row without a log. */
  lemma MarksOwnRow(rows: Rows, logs: seq<Log>, outcomes: seq<bool>, j: nat)
    requires |outcomes| == |logs| && j < |logs| && logs[j].id in rows
    requires forall i, k :: 0 <= i < k < |logs| ==> logs[i].id != logs[k].id
    ensures logs[j].id in WithMarks(rows, logs, outcomes)
    ensures WithMarks(rows, logs, outcomes)[logs[j].id]
         == if outcomes[j] then rows[logs[j].id].(status := Sent) else rows[logs[j].id]
  {
    DispatchedRows(rows, logs, outcomes, logs[j].id);
  }

  lemma MarksNoOther(rows: Rows, logs: seq<Log>, outcomes: seq<bool>, id: CommandId)
    requires |outcomes| == |logs| && id in rows && !HasId(logs, id)
    ensures id in WithMarks(rows, logs, outcomes) && WithMarks(rows, logs, outcomes)[id] == rows[id]
  {
    DispatchedRows(rows, logs, outcomes, id);
  }

  lemma MarkingCreatedRows(rows: Rows, logs: seq<Log>, outcomes: seq<bool>, kind: string, payload: string, now: Time,
                           created: Rows)
    requires |outcomes| == |logs| && CreatesExactly(rows, logs, kind, payload, now, created)
    ensures BulkRows(rows, logs, outcomes, kind, payload, now, WithMarks(created, logs, outcomes))
  {
    var rows' := WithMarks(created, logs, outcomes);
    forall j | 0 <= j < |logs| ensures MarkedAs(rows', logs[j], outcomes[j], kind, payload, now) {
      MarksOwnRow(created, logs, outcomes, j);
    }
    forall id | id in rows ensures id in rows' && rows'[id] == rows[id] {
      MarksNoOther(created, logs, outcomes, id);
    }
    DispatchedRows(created, logs, outcomes, 0);
  }

  /** What a dispatch loop over `logs` has done to the hub and the table. */
  ghost predicate Dispatched(hub: HubState<Client>, rows: Rows, logs: seq<Log>, picks: seq<bool>, outcomes: seq<bool>,
                             hub': HubState<Client>, rows': Rows)
  {
    && |picks| == |logs|
    && hub' == SendAll(hub, logs, picks)
    && outcomes == NilSends(hub, logs, picks)
    && rows' == WithMarks(rows, logs, outcomes)
  }

  /** Each outcome of a dispatch to any devices, one of them repeatedly or not, is what that very send
      recorded at the client it reached. */
  ghost predicate OutcomesRecorded(hub: HubState<Client>, logs: seq<Log>, picks: seq<bool>, outcomes: seq<bool>) {
    && |picks| == |logs| && |outcomes| == |logs|
    && (forall i :: 0 <= i < |logs| ==>
          outcomes[i]
          == WentThrough(SendAll(hub, logs[..i], picks[..i]), SendAll(hub, logs[..i + 1], picks[..i + 1]),
                         logs[i].device))
  }

  lemma OutcomesAreRecorded(hub: HubState<Client>, logs: seq<Log>, picks: seq<bool>, outcomes: seq<bool>)
    requires |picks| == |logs| && outcomes == NilSends(hub, logs, picks)
    ensures OutcomesRecorded(hub, logs, picks, outcomes)
  {
    forall i: nat | i < |logs| {
      NilSendsAreRecorded(hub, logs, picks, i);
    }
  }

  lemma DispatchGrows(hub: HubState<Client>, rows: Rows, logs: seq<Log>, picks: seq<bool>, outcomes: seq<bool>,
                      hub': HubState<Client>, rows': Rows, log: Log, pick: bool, isNil: bool)
    requires Dispatched(hub, rows, logs, picks, outcomes, hub', rows') && isNil == hub'.Sends(log.device, pick)
    ensures Dispatched(hub, rows, logs + [log], picks + [pick], outcomes + [isNil],
                       hub'.SendToDevice(log.device, Command(log.id), pick), MarkedIf(rows', log.id, isNil))
  {
    var n := |logs|;
    var more, morePicks, moreOutcomes := logs + [log], picks + [pick], outcomes + [isNil];
    assert more[..n] == logs && morePicks[..n] == picks && moreOutcomes[..n] == outcomes;
  }

  /** Each send returned nil exactly if the log's device had a client and the offer recorded there is
      not a refusal. */
  ghost predicate OwnOutcomes(hub: HubState<Client>, logs: seq<Log>, hub': HubState<Client>, outcomes: seq<bool>)
    requires |outcomes| == |logs|
  {
    forall i :: 0 <= i < |logs| ==> outcomes[i] == WentThrough(hub, hub', logs[i].device)
  }

  /** Dispatching freshly created commands of distinct devices: what it does to the hub and the rows. */
  lemma DispatchReaches(hub: HubState<Client>, rows: Rows, created: Rows, logs: seq<Log>, picks: seq<bool>,
                        outcomes: seq<bool>, kind: string, payload: string, now: Time, hub': HubState<Client>,
                        rows': Rows)
    requires hub.Keyed() && EachOnce(logs) && CreatesExactly(rows, logs, kind, payload, now, created)
    requires Dispatched(hub, created, logs, picks, outcomes, hub', rows')
    ensures SendsExactly(hub, logs, picks, hub') && OwnOutcomes(hub, logs, hub', outcomes)
    ensures BulkRows(rows, logs, outcomes, kind, payload, now, rows')
  {
    SendAllSendsExactly(hub, logs, picks);
    forall i | 0 <= i < |logs| ensures outcomes[i] == WentThrough(hub, hub', logs[i].device) {
      SendsAreIndependent(hub, logs, picks, i);
      assert Offered(hub, logs[i], picks[i], hub');
      SendingByField(hub, logs[i].device, Command(logs[i].id), picks[i]);
    }
    MarkingCreatedRows(rows, logs, outcomes, kind, payload, now, created);
  }

  /** The answer to a group request. */
  datatype Counts = Counts(total: nat, sent: nat)

  class CommandHandler {
    const service: CommandService
    const hub: Hub

    constructor (service: CommandService, hub: Hub)
      ensures this.service == service && this.hub == hub
    {
      this.service, this.hub := service, hub;
    }

    /** Create, dispatch, then mark sent. An undeliverable command stays PENDING. */
    method Send(device: DeviceId, kind: string, payload: string, inserted: Option<CommandId>, now: Time)
      returns (r: Result<CommandId, SendError>, ghost pickQueue: bool)
      requires hub.Valid()
      requires inserted.Some? ==> inserted.value !in service.commandRepo.rows
      modifies service.commandRepo, hub.known
      ensures hub.Valid()
      ensures r.Ok? ==>
                && inserted == Some(r.value)
                && WentThrough(old(hub.View()), hub.View(), device)
                && hub.View() == old(hub.View()).SendToDevice(device, Command(r.value), pickQueue)
                && service.commandRepo.rows == WithSent(
                     old(service.commandRepo.rows)[r.value := NewLog(device, kind, payload, now)], r.value)
      ensures r == Err(NotConnected) ==>
                && inserted.Some? && !WentThrough(old(hub.View()), hub.View(), device)
                && hub.View() == old(hub.View()).SendToDevice(device, Command(inserted.value), pickQueue)
                && service.commandRepo.rows
                   == old(service.commandRepo.rows)[inserted.value := NewLog(device, kind, payload, now)]
      ensures r.Err? && r != Err(NotConnected) ==>
                service.commandRepo.rows == old(service.commandRepo.rows) && hub.View() == old(hub.View())
    {
      pickQueue := true;
      r := service.SendCommand(device, kind, payload, inserted, now);
      if r.Ok? {
        var isNil, pick := DispatchOne(Log(r.value, device));
        pickQueue := pick;
        if !isNil {
          r := Err(NotConnected);
        }
      }
    }

    /** Sending one command, and marking it if the send returned nil. */
    method DispatchOne(log: Log) returns (isNil: bool, ghost pick: bool)
      requires hub.Valid()
      modifies service.commandRepo, hub.known
      ensures hub.Valid()
      ensures isNil == old(hub.View()).Sends(log.device, pick)
      ensures isNil <==> WentThrough(old(hub.View()), hub.View(), log.device)
      ensures hub.View() == old(hub.View()).SendToDevice(log.device, Command(log.id), pick)
      ensures service.commandRepo.rows == MarkedIf(old(service.commandRepo.rows), log.id, isNil)
    {
      SendingByField(hub.View(), log.device, Command(log.id), true);
      SendingByField(hub.View(), log.device, Command(log.id), false);
      var err, pickQueue := hub.SendToDevice(log.device, Command(log.id));
      isNil, pick := !err, pickQueue;
      if isNil {
        service.MarkSent(log.id);
      }
    }

    /** A whole group request. It creates one command per online member of the group whose INSERT
        succeeded, offers each to its own device's client once, and leaves SENT exactly those whose send
        returned nil; other clients and other rows are as before. */
    method BulkSend(group: nat, kind: string, payload: string, listed: bool, inserting: nat -> Option<CommandId>,
                    now: Time)
      returns (r: Result<Counts, SendError>, ghost members: seq<Member>, ghost logs: seq<Log>, ghost picks: seq<bool>,
               ghost outcomes: seq<bool>)
      requires hub.Valid()
      requires forall i :: inserting(i).Some? ==> inserting(i).value !in service.commandRepo.rows
      requires forall i, j :: i < j && inserting(i).Some? ==> inserting(i) != inserting(j)
      modifies service.commandRepo, hub.known
      ensures hub.Valid()
      ensures r.Ok? <==> kind in ALLOWED_COMMANDS && listed
      ensures r.Err? ==> service.commandRepo.rows == old(service.commandRepo.rows) && hub.View() == old(hub.View())
      ensures r.Ok? ==>
                && IsListing(service.deviceRepo.devices, group, members)
                && OnePerMember(service.deviceRepo.devices, group, members, InsertsOf(members, inserting), logs)
      ensures r.Ok? ==> r.value == Counts(|logs|, CountTrue(outcomes)) && r.value.sent <= r.value.total
      ensures r.Ok? ==> |picks| == |logs| && SendsExactly(old(hub.View()), logs, picks, hub.View())
      ensures r.Ok? ==>
                && |outcomes| == |logs| && |picks| == |logs|
                && OwnOutcomes(old(hub.View()), logs, hub.View(), outcomes)
                && BulkRows(old(service.commandRepo.rows), logs, outcomes, kind, payload, now, service.commandRepo.rows)
    {
      logs, picks, outcomes := [], [], [];
      var created, listing := service.BulkSendCommand(group, kind, payload, listed, inserting, now);
      members := listing;
      if created.Err? {
        return Err(created.error), members, logs, picks, outcomes;
      }
      ghost var hub0, rows1 := hub.View(), service.commandRepo.rows;
      assert hub0.Keyed();
      var sent, choices, results := DispatchEach(created.value);
      logs, picks, outcomes := created.value, choices, results;
      DispatchReaches(hub0, old(service.commandRepo.rows), rows1, logs, picks, outcomes, kind, payload, now, hub.View(),
                      service.commandRepo.rows);
      r := Ok(Counts(|created.value|, sent));
    }

    /** Sends every log's command in order and marks exactly those whose send returned nil. */
    method DispatchEach(logs: seq<Log>) returns (sent: nat, ghost picks: seq<bool>, ghost outcomes: seq<bool>)
      requires hub.Valid()
      modifies service.commandRepo, hub.known
      ensures hub.Valid()
      ensures Dispatched(old(hub.View()), old(service.commandRepo.rows), logs, picks, outcomes,
                         hub.View(), service.commandRepo.rows)
      ensures OutcomesRecorded(old(hub.View()), logs, picks, outcomes)
      ensures sent == CountTrue(outcomes) <= |logs|
    {
      sent, picks, outcomes := 0, [], [];
      for i := 0 to |logs|
        invariant hub.Valid() && hub.known == old(hub.known)
        invariant Dispatched(old(hub.View()), old(service.commandRepo.rows), logs[..i], picks, outcomes,
                             hub.View(), service.commandRepo.rows)
        invariant sent == CountTrue(outcomes)
      {
        ghost var hub1, rows1 := hub.View(), service.commandRepo.rows;
        var isNil, pick := DispatchOne(logs[i]);
        DispatchGrows(old(hub.View()), old(service.commandRepo.rows), logs[..i], picks, outcomes,
                      hub1, rows1, logs[i], pick, isNil);
        CountGrows(outcomes, isNil);
        assert logs[..i + 1] == logs[..i] + [logs[i]];
        picks, outcomes := picks + [pick], outcomes + [isNil];
        if isNil {
          sent := sent + 1;
        }
      }
      CountTrueBound(outcomes);
      assert logs[..|logs|] == logs;
      OutcomesAreRecorded(old(hub.View()), logs, picks, outcomes);
    }
  }
}
