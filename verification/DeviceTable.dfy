/** The devices table: presence columns, group membership and the inactivity sweep. */
module DeviceTable {
  import opened Base

  datatype DeviceInfo = DeviceInfo(model: string, android: string, agent: string)

  /** One row. `rank` stands for device_name through its position in the database's collation. */
  datatype Device = Device(
    rank: nat,
    group: Option<nat>,
    info: Option<DeviceInfo>,
    online: bool,
    lastSeen: Option<Time>)

  type Devices = map<DeviceId, Device>

  function NewDevice(rank: nat): Device {
    Device(rank, None, None, false, None)
  }

  function WithOnline(devices: Devices, id: DeviceId, online: bool, now: Time): Devices {
    if id in devices then devices[id := devices[id].(online := online, lastSeen := Some(now))] else devices
  }

  function WithInfo(devices: Devices, id: DeviceId, info: DeviceInfo, now: Time): Devices {
    if id in devices then devices[id := devices[id].(info := Some(info), lastSeen := Some(now))] else devices
  }

  /** Online but not seen since `cutoff`; the cutoff may lie before the epoch. */
  predicate Inactive(d: Device, cutoff: int) {
    d.online && (d.lastSeen == None || d.lastSeen.value < cutoff)
  }

  function WithoutInactive(devices: Devices, cutoff: int): Devices {
    map id | id in devices ::
      if Inactive(devices[id], cutoff) then devices[id].(online := false) else devices[id]
  }

  /** The other rows and the columns a statement does not name stay as they were. */
  ghost predicate KeepsOthers(devices: Devices, devices': Devices, id: DeviceId) {
    && devices'.Keys == devices.Keys
    && (forall e :: e in devices && e != id ==> devices'[e] == devices[e])
    && (id in devices ==> devices'[id].rank == devices[id].rank && devices'[id].group == devices[id].group)
  }

  /** Setting presence and reporting info, column by column. */
  lemma WritesByColumn(devices: Devices, id: DeviceId, online: bool, info: DeviceInfo, now: Time)
    ensures KeepsOthers(devices, WithOnline(devices, id, online, now), id)
    ensures KeepsOthers(devices, WithInfo(devices, id, info, now), id)
    ensures id in devices ==>
              var a, b := WithOnline(devices, id, online, now)[id], WithInfo(devices, id, info, now)[id];
              && a.online == online && a.lastSeen == Some(now) && a.info == devices[id].info
              && b.info == Some(info) && b.lastSeen == Some(now) && b.online == devices[id].online
  {
  }

  /** The sweep takes offline whoever was not seen since the cutoff and changes nothing else. */
  lemma SweepByColumn(devices: Devices, cutoff: int)
    ensures WithoutInactive(devices, cutoff).Keys == devices.Keys
    ensures forall id :: id in devices ==>
              var d, d' := devices[id], WithoutInactive(devices, cutoff)[id];
              && (d'.online <==> d.online && d.lastSeen.Some? && d.lastSeen.value >= cutoff)
              && d'.lastSeen == d.lastSeen && d'.info == d.info && d'.group == d.group && d'.rank == d.rank
  {
  }

  /** The table together with the clock and the background worker that sweeps it. The worker reads
      the clock first and runs its UPDATE later; `lastSweep` is the clock reading of the last
      completed sweep. */
  datatype Table = Table(
    devices: Devices,
    offlineAfter: Time,
    now: Time,
    sweepClock: Option<Time>,
    lastSweep: Option<Time>)
  {
    function Online(id: DeviceId, online: bool): Table {
      this.(devices := WithOnline(devices, id, online, now))
    }

    function Report(id: DeviceId, info: DeviceInfo): Table {
      this.(devices := WithInfo(devices, id, info, now))
    }

    predicate IsOnline(id: DeviceId) {
      id in devices && devices[id].online
    }
  }

  datatype TableStep =
    | Tick(elapsed: Time)
    | SweepReadsClock
    | SweepRuns
    | AddDevice(device: DeviceId, rank: nat)
    | RemoveDevice(device: DeviceId)

  function TableNext(t: Table, step: TableStep): Table {
    match step
    case Tick(elapsed) => t.(now := t.now + elapsed)
    case SweepReadsClock => if t.sweepClock == None then t.(sweepClock := Some(t.now)) else t
    case SweepRuns =>
      if t.sweepClock == None then t
      else t.(devices := WithoutInactive(t.devices, t.sweepClock.value - t.offlineAfter),
              lastSweep := t.sweepClock, sweepClock := None)
    case AddDevice(d, rank) =>
      if d in t.devices then t else t.(devices := t.devices[d := NewDevice(rank)])
    case RemoveDevice(d) => t.(devices := t.devices - {d})
  }

  /** What each statement of its own does to the table: time passes by as much as elapsed, a sweep uses
      the clock reading taken before and records it, a device is added offline or removed alone. */
  lemma TableMoves(t: Table, elapsed: Time, d: DeviceId, rank: nat)
    ensures TableNext(t, Tick(elapsed)) == t.(now := t.now + elapsed)
    ensures t.sweepClock == None ==> TableNext(t, SweepReadsClock) == t.(sweepClock := Some(t.now))
    ensures t.sweepClock.Some? ==>
              && TableNext(t, SweepRuns).lastSweep == t.sweepClock && TableNext(t, SweepRuns).sweepClock == None
              && TableNext(t, SweepRuns).devices == WithoutInactive(t.devices, t.sweepClock.value - t.offlineAfter)
              && TableNext(t, SweepRuns).now == t.now
    ensures
      var added, removed := TableNext(t, AddDevice(d, rank)).devices, TableNext(t, RemoveDevice(d)).devices;
      && added.Keys == t.devices.Keys + {d} && removed.Keys == t.devices.Keys - {d}
      && (d !in t.devices ==> !added[d].online && added[d].lastSeen == None && added[d].rank == rank)
      && (forall e :: e in t.devices ==> added[e] == t.devices[e])
      && (forall e :: e in t.devices && e != d ==> removed[e] == t.devices[e])
  {
  }

  datatype Member = Member(device: DeviceId, online: bool)

  /** The rows of one group, each exactly once, by ascending name. */
  predicate IsListing(devices: Devices, group: nat, rows: seq<Member>) {
    && (forall i :: 0 <= i < |rows| ==>
          && rows[i].device in devices
          && devices[rows[i].device].group == Some(group)
          && rows[i].online == devices[rows[i].device].online)
    && (forall id :: id in devices && devices[id].group == Some(group)
          ==> exists i :: 0 <= i < |rows| && rows[i].device == id)
    && (forall i, j :: 0 <= i < j < |rows| ==>
          && rows[i].device != rows[j].device
          && devices[rows[i].device].rank <= devices[rows[j].device].rank)
  }

  lemma {:induction false} LowestRank(devices: Devices, ids: set<DeviceId>) returns (low: DeviceId)
    requires ids != {} && ids <= devices.Keys
    ensures low in ids && forall id :: id in ids ==> devices[low].rank <= devices[id].rank
    decreases ids
  {
    var id :| id in ids;
    if ids == {id} {
      low := id;
    } else {
      low := LowestRank(devices, ids - {id});
      if devices[id].rank < devices[low].rank {
        low := id;
      }
    }
  }

  lemma ListingExtends(devices: Devices, group: nat, rest: set<DeviceId>, rows: seq<Member>, id: DeviceId)
    requires id in rest && id in devices && devices[id].group == Some(group)
    requires IsListing(devices - rest, group, rows)
    requires forall i :: 0 <= i < |rows| ==> devices[rows[i].device].rank <= devices[id].rank
    ensures IsListing(devices - (rest - {id}), group, rows + [Member(id, devices[id].online)])
  {
    var more, rows' := devices - (rest - {id}), rows + [Member(id, devices[id].online)];
    forall e | e in more && more[e].group == Some(group)
      ensures exists i :: 0 <= i < |rows'| && rows'[i].device == e
    {
      if e == id {
        assert rows'[|rows|].device == id;
      } else {
        assert e in devices - rest;
        var i :| 0 <= i < |rows| && rows[i].device == e;
        assert rows'[i].device == e;
      }
    }
  }

  class DeviceRepo {
    var devices: Devices

    constructor (devices: Devices)
      ensures this.devices == devices
    {
      this.devices := devices;
    }

    method SetOnline(id: DeviceId, online: bool, now: Time)
      modifies this
      ensures devices == WithOnline(old(devices), id, online, now)
      ensures KeepsOthers(old(devices), devices, id)
      ensures id in devices ==>
                && devices[id].online == online && devices[id].lastSeen == Some(now)
                && devices[id].info == old(devices)[id].info
    {
      if id in devices {
        devices := devices[id := devices[id].(online := online, lastSeen := Some(now))];
      }
    }

    method UpdateDeviceInfo(id: DeviceId, info: DeviceInfo, now: Time)
      modifies this
      ensures devices == WithInfo(old(devices), id, info, now)
      ensures KeepsOthers(old(devices), devices, id)
      ensures id in devices ==>
                && devices[id].info == Some(info) && devices[id].lastSeen == Some(now)
                && devices[id].online == old(devices)[id].online
    {
      if id in devices {
        devices := devices[id := devices[id].(info := Some(info), lastSeen := Some(now))];
      }
    }

    method MarkOfflineInactive(timeout: Time, clock: Time) returns (affected: nat)
      modifies this
      ensures devices == WithoutInactive(old(devices), clock - timeout)
      ensures forall id :: id in old(devices) ==>
                && id in devices
                && (devices[id].online <==>
                      var d := old(devices)[id];
                      d.online && d.lastSeen.Some? && d.lastSeen.value >= clock - timeout)
      ensures affected == |set id | id in old(devices) && old(devices)[id] != devices[id]|
    {
      var stale := set id | id in devices && Inactive(devices[id], clock - timeout);
      affected := |stale|;
      devices := map id | id in devices ::
        if id in stale then devices[id].(online := false) else devices[id];
      assert stale == set id | id in old(devices) && old(devices)[id] != devices[id];
    }

    method GetByGroupID(group: nat) returns (rows: seq<Member>)
      ensures IsListing(devices, group, rows)
    {
      rows := [];
      var rest := set id | id in devices && devices[id].group == Some(group);
      while rest != {}
        invariant rest <= set id | id in devices && devices[id].group == Some(group)
        invariant IsListing(devices - rest, group, rows)
        invariant forall i, id :: 0 <= i < |rows| && id in rest ==> devices[rows[i].device].rank <= devices[id].rank
        decreases rest
      {
        ghost var low := LowestRank(devices, rest);
        var id :| id in rest && forall other :: other in rest ==> devices[id].rank <= devices[other].rank;
        ListingExtends(devices, group, rest, rows, id);
        rows := rows + [Member(id, devices[id].online)];
        rest := rest - {id};
      }
      assert devices - rest == devices;
    }
  }
}
