/** The device_status table: each heartbeat overwrites only the fields it reports. */
module StatusMerge {
  import opened Base

  /** A reported value; JSON columns keep their text, so a JSON null is a value like any other. */
  datatype Value = Whole(int) | Fraction(real) | Text(string) | Json(string)

  /** The fourteen nullable columns of a report or a row. */
  datatype Status = Status(
    battery: Option<Value>,
    temperature: Option<Value>,
    batteryHealth: Option<Value>,
    batteryStatus: Option<Value>,
    batteryTechnology: Option<Value>,
    batteryVoltage: Option<Value>,
    ramUsage: Option<Value>,
    storageTotal: Option<Value>,
    storageUsed: Option<Value>,
    appVersion: Option<Value>,
    networkInfo: Option<Value>,
    foregroundApp: Option<Value>,
    networkStrength: Option<Value>,
    location: Option<Value>)

  datatype Field =
    | Battery
    | Temperature
    | BatteryHealth
    | BatteryStatus
    | BatteryTechnology
    | BatteryVoltage
    | RamUsage
    | StorageTotal
    | StorageUsed
    | AppVersion
    | NetworkInfo
    | ForegroundApp
    | NetworkStrength
    | Location

  function Get(s: Status, f: Field): Option<Value> {
    match f
    case Battery => s.battery
    case Temperature => s.temperature
    case BatteryHealth => s.batteryHealth
    case BatteryStatus => s.batteryStatus
    case BatteryTechnology => s.batteryTechnology
    case BatteryVoltage => s.batteryVoltage
    case RamUsage => s.ramUsage
    case StorageTotal => s.storageTotal
    case StorageUsed => s.storageUsed
    case AppVersion => s.appVersion
    case NetworkInfo => s.networkInfo
    case ForegroundApp => s.foregroundApp
    case NetworkStrength => s.networkStrength
    case Location => s.location
  }

  const NOTHING: Status :=
    Status(None, None, None, None, None, None, None, None, None, None, None, None, None, None)

  function Coalesce(excluded: Option<Value>, current: Option<Value>): Option<Value> {
    if excluded.Some? then excluded else current
  }

  /** ON CONFLICT DO UPDATE: the report's fields where present, the row's otherwise. */
  function Merge(row: Status, report: Status): Status {
    Status(
      Coalesce(report.battery, row.battery),
      Coalesce(report.temperature, row.temperature),
      Coalesce(report.batteryHealth, row.batteryHealth),
      Coalesce(report.batteryStatus, row.batteryStatus),
      Coalesce(report.batteryTechnology, row.batteryTechnology),
      Coalesce(report.batteryVoltage, row.batteryVoltage),
      Coalesce(report.ramUsage, row.ramUsage),
      Coalesce(report.storageTotal, row.storageTotal),
      Coalesce(report.storageUsed, row.storageUsed),
      Coalesce(report.appVersion, row.appVersion),
      Coalesce(report.networkInfo, row.networkInfo),
      Coalesce(report.foregroundApp, row.foregroundApp),
      Coalesce(report.networkStrength, row.networkStrength),
      Coalesce(report.location, row.location))
  }

  datatype Row = Row(status: Status, updatedAt: Time)

  type Table = map<DeviceId, Row>

  datatype Heartbeat = Heartbeat(device: DeviceId, status: Status, at: Time)

  /** One Upsert; it fails, changing nothing, when the device does not exist. */
  function Upserted(devices: set<DeviceId>, rows: Table, h: Heartbeat): Table {
    if h.device !in devices then rows
    else if h.device in rows then rows[h.device := Row(Merge(rows[h.device].status, h.status), h.at)]
    else rows[h.device := Row(h.status, h.at)]
  }

  function UpsertAll(devices: set<DeviceId>, rows: Table, beats: seq<Heartbeat>): Table {
    if beats == [] then rows
    else Upserted(devices, UpsertAll(devices, rows, beats[..|beats| - 1]), beats[|beats| - 1])
  }

  /** `v` is the last value the device reported for the field in `beats`, or nothing was reported. */
  ghost predicate IsLastReported(beats: seq<Heartbeat>, device: DeviceId, f: Field, v: Option<Value>) {
    if v == None then
      forall i :: 0 <= i < |beats| && beats[i].device == device ==> Get(beats[i].status, f) == None
    else
      exists i :: 0 <= i < |beats| && ReportsLast(beats, i, device, f, v)
  }

  ghost predicate ReportsLast(beats: seq<Heartbeat>, i: nat, device: DeviceId, f: Field, v: Option<Value>)
    requires i < |beats|
  {
    && beats[i].device == device && Get(beats[i].status, f) == v
    && (forall j :: i < j < |beats| && beats[j].device == device ==> Get(beats[j].status, f) == None)
  }

  lemma MergeFieldwise(row: Status, report: Status, f: Field)
    ensures Get(Merge(row, report), f) == Coalesce(Get(report, f), Get(row, f))
  {
    match f {
      case Battery =>
      case Temperature =>
      case BatteryHealth =>
      case BatteryStatus =>
      case BatteryTechnology =>
      case BatteryVoltage =>
      case RamUsage =>
      case StorageTotal =>
      case StorageUsed =>
      case AppVersion =>
      case NetworkInfo =>
      case ForegroundApp =>
      case NetworkStrength =>
      case Location =>
    }
  }

  function Known(rows: Table, device: DeviceId, f: Field): Option<Value> {
    if device in rows then Get(rows[device].status, f) else None
  }

  /** One more heartbeat: its own report of the field counts, if it makes one. */
  lemma LastReportedGrows(beats: seq<Heartbeat>, h: Heartbeat, device: DeviceId, f: Field, v: Option<Value>)
    requires IsLastReported(beats, device, f, v)
    ensures IsLastReported(beats + [h], device, f, if h.device == device then Coalesce(Get(h.status, f), v) else v)
  {
    var all := beats + [h];
    if h.device == device && Get(h.status, f).Some? {
      assert ReportsLast(all, |beats|, device, f, Get(h.status, f));
    } else if v.Some? {
      var i :| 0 <= i < |beats| && ReportsLast(beats, i, device, f, v);
      assert ReportsLast(all, i, device, f, v);
    }
  }

  /** From an empty table, after any sequence of heartbeats of any devices, each field of an
      existing device holds the last value reported for it, and nothing if none ever was. */
  lemma {:induction false} FieldsHoldLastReport(devices: set<DeviceId>, beats: seq<Heartbeat>, device: DeviceId,
                                                f: Field)
    requires device in devices
    ensures IsLastReported(beats, device, f, Known(UpsertAll(devices, map[], beats), device, f))
  {
    if beats != [] {
      var n := |beats| - 1;
      var before, last := UpsertAll(devices, map[], beats[..n]), beats[n];
      FieldsHoldLastReport(devices, beats[..n], device, f);
      LastReportedGrows(beats[..n], last, device, f, Known(before, device, f));
      assert beats[..n] + [last] == beats;
      if device in before {
        MergeFieldwise(before[device].status, last.status, f);
      }
    }
  }

  /** A known field never becomes unknown, and other devices' rows never move. */
  lemma {:induction false} KnownStaysKnown(devices: set<DeviceId>, rows: Table, beats: seq<Heartbeat>,
                                           device: DeviceId, f: Field)
    ensures Known(rows, device, f).Some? ==> Known(UpsertAll(devices, rows, beats), device, f).Some?
    ensures (forall i :: 0 <= i < |beats| ==> beats[i].device != device) ==>
              (device in UpsertAll(devices, rows, beats) <==> device in rows)
              && (device in rows ==> UpsertAll(devices, rows, beats)[device] == rows[device])
  {
    if beats != [] {
      var n := |beats| - 1;
      var before := UpsertAll(devices, rows, beats[..n]);
      KnownStaysKnown(devices, rows, beats[..n], device, f);
      if device in before && beats[n].device == device {
        MergeFieldwise(before[device].status, beats[n].status, f);
      }
    }
  }

  /** A device's row carries the time of its latest heartbeat, whatever that reported; a device nobody
      has created gets no row. */
  lemma {:induction false} UpdatedAtIsLatest(devices: set<DeviceId>, rows: Table, beats: seq<Heartbeat>, i: nat)
    requires i < |beats|
    requires forall j :: i < j < |beats| ==> beats[j].device != beats[i].device
    ensures
      var d, rows' := beats[i].device, UpsertAll(devices, rows, beats);
      if d in devices then d in rows' && rows'[d].updatedAt == beats[i].at
      else (d in rows' <==> d in rows) && (d in rows ==> rows'[d] == rows[d])
    decreases |beats|
  {
    var n, d := |beats| - 1, beats[i].device;
    if i < n {
      UpdatedAtIsLatest(devices, rows, beats[..n], i);
    } else if d !in devices {
      StrangersStayOut(devices, rows, beats[..n], d);
    }
  }

  lemma {:induction false} StrangersStayOut(devices: set<DeviceId>, rows: Table, beats: seq<Heartbeat>, d: DeviceId)
    requires d !in devices
    ensures d in UpsertAll(devices, rows, beats) <==> d in rows
    ensures d in rows ==> UpsertAll(devices, rows, beats)[d] == rows[d]
  {
    if beats != [] {
      StrangersStayOut(devices, rows, beats[..|beats| - 1], d);
    }
  }

  /** The fourteen fields are the whole status. */
  lemma SameFieldsSameStatus(a: Status, b: Status)
    requires forall f :: Get(a, f) == Get(b, f)
    ensures a == b
  {
    assert Get(a, Battery) == Get(b, Battery) && Get(a, Temperature) == Get(b, Temperature);
    assert Get(a, BatteryHealth) == Get(b, BatteryHealth) && Get(a, BatteryStatus) == Get(b, BatteryStatus);
    assert Get(a, BatteryTechnology) == Get(b, BatteryTechnology) && Get(a, BatteryVoltage) == Get(b, BatteryVoltage);
    assert Get(a, RamUsage) == Get(b, RamUsage) && Get(a, StorageTotal) == Get(b, StorageTotal);
    assert Get(a, StorageUsed) == Get(b, StorageUsed) && Get(a, AppVersion) == Get(b, AppVersion);
    assert Get(a, NetworkInfo) == Get(b, NetworkInfo) && Get(a, ForegroundApp) == Get(b, ForegroundApp);
    assert Get(a, NetworkStrength) == Get(b, NetworkStrength) && Get(a, Location) == Get(b, Location);
  }

  /** Merging is associative ... */
  lemma MergeIsAssociative(a: Status, b: Status, c: Status)
    ensures Merge(Merge(a, b), c) == Merge(a, Merge(b, c))
  {
    forall f ensures Get(Merge(Merge(a, b), c), f) == Get(Merge(a, Merge(b, c)), f) {
      MergeFieldwise(Merge(a, b), c, f);
      MergeFieldwise(a, b, f);
      MergeFieldwise(a, Merge(b, c), f);
      MergeFieldwise(b, c, f);
    }
    SameFieldsSameStatus(Merge(Merge(a, b), c), Merge(a, Merge(b, c)));
  }

  /** ... and idempotent, and the empty report changes nothing. */
  lemma MergeIdentities(a: Status)
    ensures Merge(a, a) == a && Merge(a, NOTHING) == a && Merge(NOTHING, a) == a
  {
    forall f ensures Get(Merge(a, a), f) == Get(Merge(a, NOTHING), f) == Get(Merge(NOTHING, a), f) == Get(a, f) {
      MergeFieldwise(a, a, f);
      MergeFieldwise(a, NOTHING, f);
      MergeFieldwise(NOTHING, a, f);
    }
    SameFieldsSameStatus(Merge(a, a), a);
    SameFieldsSameStatus(Merge(a, NOTHING), a);
    SameFieldsSameStatus(Merge(NOTHING, a), a);
  }

  function MergeAll(reports: seq<Status>): Status {
    if reports == [] then NOTHING else Merge(MergeAll(reports[..|reports| - 1]), reports[|reports| - 1])
  }

  /** A run of one device's heartbeats may be merged beforehand and upserted once. */
  lemma {:induction false} PremergedRunUpsertsTheSame(devices: set<DeviceId>, rows: Table, device: DeviceId,
                                                      beats: seq<Heartbeat>)
    requires beats != [] && forall h :: h in beats ==> h.device == device
    ensures UpsertAll(devices, rows, beats)
         == Upserted(devices, rows,
              Heartbeat(device, MergeAll(seq(|beats|, i requires 0 <= i < |beats| => beats[i].status)),
                        beats[|beats| - 1].at))
  {
    var n := |beats| - 1;
    var prefix, last := beats[..n], beats[n];
    var reports := seq(|beats|, i requires 0 <= i < |beats| => beats[i].status);
    assert reports[..n] == seq(|prefix|, i requires 0 <= i < |prefix| => prefix[i].status);
    if n == 0 {
      assert prefix == [] && reports[..0] == [];
      MergeIdentities(last.status);
      assert MergeAll(reports) == Merge(MergeAll(reports[..0]), last.status) == last.status;
    } else {
      PremergedRunUpsertsTheSame(devices, rows, device, prefix);
      if device in rows {
        MergeIsAssociative(rows[device].status, MergeAll(reports[..n]), last.status);
      }
    }
  }

  class StatusRepo {
    var devices: set<DeviceId>
    var rows: Table

    constructor (devices: set<DeviceId>)
      ensures this.devices == devices && rows == map[]
    {
      this.devices, rows := devices, map[];
    }

    method Upsert(device: DeviceId, report: Status, now: Time) returns (err: bool)
      modifies `rows
      ensures rows == Upserted(devices, old(rows), Heartbeat(device, report, now))
      ensures err <==> device !in devices
      ensures err ==> rows == old(rows)
      ensures !err ==>
                && rows.Keys == old(rows).Keys + {device}
                && (forall e :: e in old(rows) && e != device ==> rows[e] == old(rows)[e])
                && rows[device].updatedAt == now
                && (forall f :: Known(rows, device, f)
                                == if Get(report, f).Some? then Get(report, f) else Known(old(rows), device, f))
    {
      if device in rows {
        forall f {
          MergeFieldwise(rows[device].status, report, f);
        }
      }
      if device !in devices {
        return true;
      }
      var status := report;
      if device in rows {
        status := Merge(rows[device].status, report);
      }
      rows := rows[device := Row(status, now)];
      return false;
    }
  }
}
