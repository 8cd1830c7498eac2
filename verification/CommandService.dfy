/** Command admission, bulk creation and result handling. */
module CommandServices {
  import opened Base
  import opened DeviceTable
  import opened CommandTable
  import opened CommandLogs
  import opened Screenshots

  const ALLOWED_COMMANDS: set<string> := {
    "PING", "GET_DEVICE_INFO", "OPEN_APP", "RESTART_APP", "GET_BATTERY", "GET_STORAGE", "TAKE_SCREENSHOT",
    "SHOW_ALERT", "LOCK_DEVICE", "FACTORY_RESET", "INSTALL_APK", "SET_DEV_MODE", "SET_USB_DEBUGGING"}

  datatype SendError = InvalidCommand | DeviceNotFound | DeviceOffline | ListingFailed | InsertFailed | NotConnected

  /** The rows after creating each log as a pending command. */
  function WithLogs(rows: Rows, logs: seq<Log>, kind: string, payload: string, now: Time): Rows {
    if logs == [] then rows
    else
      var last := logs[|logs| - 1];
      WithLogs(rows, logs[..|logs| - 1], kind, payload, now)[last.id := NewLog(last.device, kind, payload, now)]
  }

  predicate NewAndDistinct(rows: Rows, logs: seq<Log>) {
    && (forall j :: 0 <= j < |logs| ==> logs[j].id !in rows)
    && (forall i, j :: 0 <= i < j < |logs| ==> logs[i].id != logs[j].id)
  }

  predicate HasId(logs: seq<Log>, id: CommandId) {
    exists j :: 0 <= j < |logs| && logs[j].id == id
  }

  /** Every log has a new pending row of its own and every row there was is untouched. */
  ghost predicate CreatesExactly(rows: Rows, logs: seq<Log>, kind: string, payload: string, now: Time, rows': Rows) {
    && NewAndDistinct(rows, logs)
    && (forall j :: 0 <= j < |logs| ==>
          && logs[j].id in rows'
          && rows'[logs[j].id] == NewLog(logs[j].device, kind, payload, now))
    && (forall id :: id in rows ==> id in rows' && rows'[id] == rows[id])
    && (forall id :: id in rows' && id !in rows ==> HasId(logs, id))
  }

  lemma IdsGrow(logs: seq<Log>, log: Log, id: CommandId)
    ensures HasId(logs + [log], id) <==> HasId(logs, id) || log.id == id
  {
    assert (logs + [log])[|logs|] == log;
    if j :| 0 <= j < |logs| && logs[j].id == id {
      assert (logs + [log])[j].id == id;
    }
  }

  lemma CreatingGrows(rows: Rows, logs: seq<Log>, log: Log, kind: string, payload: string, now: Time, rows': Rows)
    requires CreatesExactly(rows, logs, kind, payload, now, rows') && log.id !in rows && !HasId(logs, log.id)
    ensures CreatesExactly(rows, logs + [log], kind, payload, now,
                           rows'[log.id := NewLog(log.device, kind, payload, now)])
  {
    forall id {
      IdsGrow(logs, log, id);
    }
    assert forall j :: 0 <= j < |logs| ==> logs[j].id != log.id;
  }

  lemma {:induction false} LogsCreateExactly(rows: Rows, logs: seq<Log>, kind: string, payload: string, now: Time)
    requires NewAndDistinct(rows, logs)
    ensures CreatesExactly(rows, logs, kind, payload, now, WithLogs(rows, logs, kind, payload, now))
  {
    if logs != [] {
      var n := |logs| - 1;
      LogsCreateExactly(rows, logs[..n], kind, payload, now);
      CreatingGrows(rows, logs[..n], logs[n], kind, payload, now, WithLogs(rows, logs[..n], kind, payload, now));
      assert logs[..n] + [logs[n]] == logs;
    }
  }

  /** INSERTs that yield new, distinct identities lead to logs with new, distinct identities. */
  lemma LogsAreNew(rows: Rows, members: seq<Member>, inserting: nat -> Option<CommandId>)
    requires forall i :: inserting(i).Some? ==> inserting(i).value !in rows
    requires forall i, j :: i < j && inserting(i).Some? ==> inserting(i) != inserting(j)
    ensures NewAndDistinct(rows, Collect(members, InsertsOf(members, inserting)))
  {
    var inserts := InsertsOf(members, inserting);
    var logs := Collect(members, inserts);
    var positions := CollectPicks(members, inserts);
    forall j | 0 <= j < |logs| ensures inserting(positions[j]) == Some(logs[j].id) {
      assert IsLogOf(members, inserts, positions[j], logs[j]);
    }
  }

  lemma LogsGrow(rows: Rows, logs: seq<Log>, log: Log, kind: string, payload: string, now: Time)
    ensures WithLogs(rows, logs + [log], kind, payload, now)
         == WithLogs(rows, logs, kind, payload, now)[log.id := NewLog(log.device, kind, payload, now)]
  {
    assert (logs + [log])[..|logs|] == logs;
  }

  /** What the creation loop over `members` has done: the logs it returns and the rows it leaves. */
  ghost predicate Scanned(rows: Rows, members: seq<Member>, inserting: nat -> Option<CommandId>,
                          kind: string, payload: string, now: Time, logs: seq<Log>, rows': Rows)
  {
    logs == Collect(members, InsertsOf(members, inserting)) && rows' == WithLogs(rows, logs, kind, payload, now)
  }

  lemma ScanGrows(rows: Rows, members: seq<Member>, inserting: nat -> Option<CommandId>,
                  kind: string, payload: string, now: Time, logs: seq<Log>, rows': Rows, m: Member)
    requires Scanned(rows, members, inserting, kind, payload, now, logs, rows')
    ensures
      var inserted := if m.online then inserting(|members|) else None;
      if inserted.Some? then
        Scanned(rows, members + [m], inserting, kind, payload, now, logs + [Log(inserted.value, m.device)],
                rows'[inserted.value := NewLog(m.device, kind, payload, now)])
      else Scanned(rows, members + [m], inserting, kind, payload, now, logs, rows')
  {
    var inserted := if m.online then inserting(|members|) else None;
    InsertsGrow(members, m, inserting);
    if inserted.Some? {
      LogsGrow(rows, logs, Log(inserted.value, m.device), kind, payload, now);
    }
  }

  /** A finished scan of a group's listing has created one command per online member whose insert
      succeeded, and touched nothing else. */
  lemma ScanCreates(devices: Devices, group: nat, rows: Rows, members: seq<Member>, inserting: nat -> Option<CommandId>,
                    kind: string, payload: string, now: Time, logs: seq<Log>, rows': Rows)
    requires Scanned(rows, members, inserting, kind, payload, now, logs, rows') && IsListing(devices, group, members)
    requires forall i :: inserting(i).Some? ==> inserting(i).value !in rows
    requires forall i, j :: i < j && inserting(i).Some? ==> inserting(i) != inserting(j)
    ensures OnePerMember(devices, group, members, InsertsOf(members, inserting), logs)
    ensures CreatesExactly(rows, logs, kind, payload, now, rows')
  {
    CollectsOnePerMember(devices, group, members, InsertsOf(members, inserting));
    LogsAreNew(rows, members, inserting);
    LogsCreateExactly(rows, logs, kind, payload, now);
  }

  /** The result of a screenshot command that holds a decodable image. */
  predicate StoresScreenshot(row: CommandLog, success: bool, result: Json) {
    && success && row.kind == "TAKE_SCREENSHOT"
    && result.JsonString? && result.text != "" && DecodeImage(result.text).Some?
  }

  class CommandService {
    const commandRepo: CommandRepo
    const deviceRepo: DeviceRepo
    const screenshots: ScreenshotService

    constructor (commandRepo: CommandRepo, deviceRepo: DeviceRepo, screenshots: ScreenshotService)
      ensures this.commandRepo == commandRepo && this.deviceRepo == deviceRepo && this.screenshots == screenshots
    {
      this.commandRepo, this.deviceRepo, this.screenshots := commandRepo, deviceRepo, screenshots;
    }

    /** Admission: the first failing check decides the error, and only an admitted command is created. */
    method SendCommand(device: DeviceId, kind: string, payload: string, inserted: Option<CommandId>, now: Time)
      returns (r: Result<CommandId, SendError>)
      requires inserted.Some? ==> inserted.value !in commandRepo.rows
      modifies commandRepo
      ensures r == Err(InvalidCommand) <==> kind !in ALLOWED_COMMANDS
      ensures r == Err(DeviceNotFound) <==> kind in ALLOWED_COMMANDS && device !in deviceRepo.devices
      ensures r == Err(DeviceOffline) <==>
                kind in ALLOWED_COMMANDS && device in deviceRepo.devices && !deviceRepo.devices[device].online
      ensures r.Ok? ==>
                && inserted == Some(r.value)
                && commandRepo.rows == old(commandRepo.rows)[r.value := NewLog(device, kind, payload, now)]
      ensures r.Err? ==> commandRepo.rows == old(commandRepo.rows) && r.error !in {ListingFailed, NotConnected}
      ensures r == Err(InsertFailed) ==> inserted == None
    {
      if kind !in ALLOWED_COMMANDS {
        return Err(InvalidCommand);
      }
      if device !in deviceRepo.devices {
        return Err(DeviceNotFound);
      }
      if !deviceRepo.devices[device].online {
        return Err(DeviceOffline);
      }
      commandRepo.Create(device, kind, payload, inserted, now);
      r := if inserted.Some? then Ok(inserted.value) else Err(InsertFailed);
    }

    /** The creation loop over a listing: offline members and failed INSERTs leave nothing behind. */
    method CreateEach(devices: seq<Member>, kind: string, payload: string, inserting: nat -> Option<CommandId>,
                      now: Time)
      returns (logs: seq<Log>)
      requires forall i :: inserting(i).Some? ==> inserting(i).value !in commandRepo.rows
      requires forall i, j :: i < j && inserting(i).Some? ==> inserting(i) != inserting(j)
      modifies commandRepo
      ensures Scanned(old(commandRepo.rows), devices, inserting, kind, payload, now, logs, commandRepo.rows)
    {
      logs := [];
      for i := 0 to |devices|
        invariant Scanned(old(commandRepo.rows), devices[..i], inserting, kind, payload, now, logs, commandRepo.rows)
        invariant forall j :: i <= j && inserting(j).Some? ==> inserting(j).value !in commandRepo.rows
      {
        ScanGrows(old(commandRepo.rows), devices[..i], inserting, kind, payload, now, logs, commandRepo.rows,
                  devices[i]);
        assert devices[..i + 1] == devices[..i] + [devices[i]];
        if devices[i].online {
          var inserted := inserting(i);
          commandRepo.Create(devices[i].device, kind, payload, inserted, now);
          if inserted.Some? {
            logs := logs + [Log(inserted.value, devices[i].device)];
          }
        }
      }
      assert devices[..|devices|] == devices;
    }

    /** Creates one command per online member of the group, in the listing's order; a failed INSERT is
        skipped. `listed` is whether the listing query succeeds, `inserting(i)` the identity the INSERT
        for the i-th member yields, if it succeeds. */
    method BulkSendCommand(group: nat, kind: string, payload: string, listed: bool,
                           inserting: nat -> Option<CommandId>, now: Time)
      returns (r: Result<seq<Log>, SendError>, ghost members: seq<Member>)
      requires forall i :: inserting(i).Some? ==> inserting(i).value !in commandRepo.rows
      requires forall i, j :: i < j && inserting(i).Some? ==> inserting(i) != inserting(j)
      modifies commandRepo
      ensures r == Err(InvalidCommand) <==> kind !in ALLOWED_COMMANDS
      ensures r == Err(ListingFailed) <==> kind in ALLOWED_COMMANDS && !listed
      ensures r.Ok? <==> kind in ALLOWED_COMMANDS && listed
      ensures r.Err? ==> commandRepo.rows == old(commandRepo.rows)
      ensures r.Ok? ==> IsListing(deviceRepo.devices, group, members)
      ensures r.Ok? ==> r.value == Collect(members, InsertsOf(members, inserting))
      ensures r.Ok? ==> OnePerMember(deviceRepo.devices, group, members, InsertsOf(members, inserting), r.value)
      ensures r.Ok? ==> CreatesExactly(old(commandRepo.rows), r.value, kind, payload, now, commandRepo.rows)
    {
      members := [];
      if kind !in ALLOWED_COMMANDS {
        return Err(InvalidCommand), members;
      }
      if !listed {
        return Err(ListingFailed), members;
      }
      var devices := deviceRepo.GetByGroupID(group);
      var logs := CreateEach(devices, kind, payload, inserting, now);
      ScanCreates(deviceRepo.devices, group, old(commandRepo.rows), devices, inserting, kind, payload, now, logs,
                  commandRepo.rows);
      r, members := Ok(logs), devices;
    }

    method MarkSent(id: CommandId)
      modifies commandRepo
      ensures commandRepo.rows == WithSent(old(commandRepo.rows), id)
    {
      commandRepo.SetSent(id);
    }

    /** Records a device's result. A successful screenshot whose data can be saved is stored as a file
        and replaced by a placeholder; anything else is recorded as it came. */
    method HandleResult(id: CommandId, success: bool, message: string, result: Json, writeOk: bool, now: Time)
      returns (err: bool)
      modifies commandRepo, screenshots
      ensures err <==> id !in old(commandRepo.rows)
      ensures err ==> commandRepo.rows == old(commandRepo.rows) && screenshots.files == old(screenshots.files)
      ensures !err ==>
                var row := old(commandRepo.rows)[id];
                var saved := StoresScreenshot(row, success, result) && writeOk;
                && CommandTable.KeepsOthers(old(commandRepo.rows), commandRepo.rows, id)
                && HasVerdict(row, commandRepo.rows[id], if success then Success else Failed, message,
                              if saved then JsonString("SCREENSHOT_SAVED") else result, now)
                && (saved ==>
                      screenshots.files == old(screenshots.files)[row.device := DecodeImage(result.text).value])
                && (!saved && writeOk ==> screenshots.files == old(screenshots.files))
                && screenshots.files - {row.device} == old(screenshots.files) - {row.device}
    {
      if id !in commandRepo.rows {
        return true;
      }
      var status := if success then Success else Failed;
      var stored := result;
      var cmd := commandRepo.rows[id];
      if success && cmd.kind == "TAKE_SCREENSHOT" {
        if result.JsonString? && result.text != "" {
          var ok := screenshots.SaveScreenshot(cmd.device, result.text, writeOk);
          if ok {
            stored := JsonString("SCREENSHOT_SAVED");
          }
        }
      }
      commandRepo.UpdateStatus(id, status, message, stored, now);
      err := false;
    }
  }
}
