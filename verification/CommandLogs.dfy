/** The commands a group dispatch leaves behind, and counting the sends that went through. */
module CommandLogs {
  import opened Base
  import opened DeviceTable

  datatype Log = Log(id: CommandId, device: DeviceId)

  /** The commands a scan of the group leaves behind: one per successful insert, in group order. */
  function Collect(members: seq<Member>, inserts: seq<Option<CommandId>>): seq<Log>
    requires |members| == |inserts|
  {
    if inserts == [] then []
    else
      var n := |inserts| - 1;
      Collect(members[..n], inserts[..n])
      + (if inserts[n].Some? then [Log(inserts[n].value, members[n].device)] else [])
  }

  /** `logs` are the commands of the members at `positions`: exactly the members whose insert
      succeeded, in the members' order. */
  ghost predicate Picks(members: seq<Member>, inserts: seq<Option<CommandId>>, positions: seq<nat>, logs: seq<Log>)
    requires |members| == |inserts|
  {
    && |positions| == |logs|
    && (forall j :: 0 <= j < |logs| ==> IsLogOf(members, inserts, positions[j], logs[j]))
    && (forall i, j :: 0 <= i < j < |positions| ==> positions[i] < positions[j])
    && (forall i :: 0 <= i < |inserts| && inserts[i].Some? ==> i in positions)
  }

  predicate IsLogOf(members: seq<Member>, inserts: seq<Option<CommandId>>, i: nat, log: Log)
    requires |members| == |inserts|
  {
    i < |inserts| && inserts[i] == Some(log.id) && members[i].device == log.device
  }

  lemma PicksGrow(members: seq<Member>, inserts: seq<Option<CommandId>>, positions: seq<nat>, logs: seq<Log>,
                  m: Member, inserted: Option<CommandId>)
    requires |members| == |inserts| && Picks(members, inserts, positions, logs)
    ensures
      if inserted.Some?
      then Picks(members + [m], inserts + [inserted], positions + [|inserts|], logs + [Log(inserted.value, m.device)])
      else Picks(members + [m], inserts + [inserted], positions, logs)
  {
    var n, more := |inserts|, inserts + [inserted];
    forall j | 0 <= j < |logs| ensures positions[j] < n && IsLogOf(members + [m], more, positions[j], logs[j]) {
      assert IsLogOf(members, inserts, positions[j], logs[j]);
    }
    forall i | 0 <= i < n && more[i].Some? ensures i in positions {
      assert inserts[i].Some?;
    }
    if inserted.Some? {
      assert (positions + [n])[|positions|] == n;
    }
  }

  lemma {:induction false} CollectPicks(members: seq<Member>, inserts: seq<Option<CommandId>>)
    returns (positions: seq<nat>)
    requires |members| == |inserts|
    ensures Picks(members, inserts, positions, Collect(members, inserts))
  {
    positions := [];
    if inserts != [] {
      var n := |inserts| - 1;
      var before := CollectPicks(members[..n], inserts[..n]);
      PicksGrow(members[..n], inserts[..n], before, Collect(members[..n], inserts[..n]), members[n], inserts[n]);
      assert members[..n] + [members[n]] == members && inserts[..n] + [inserts[n]] == inserts;
      positions := if inserts[n].Some? then before + [n] else before;
    }
  }

  predicate OnlineMember(devices: Devices, group: nat, d: DeviceId) {
    d in devices && devices[d].group == Some(group) && devices[d].online
  }

  /** What a scan of a listed group leaves behind: commands for online members of the group only, at
      most one for each device, by ascending name; a scanned member has its command if its insert
      succeeded and none otherwise. */
  ghost predicate OnePerMember(devices: Devices, group: nat, members: seq<Member>, inserts: seq<Option<CommandId>>,
                               logs: seq<Log>)
    requires |members| == |inserts|
  {
    && (forall j :: 0 <= j < |logs| ==> OnlineMember(devices, group, logs[j].device))
    && (forall i, j :: 0 <= i < j < |logs| ==>
          && logs[i].device != logs[j].device
          && devices[logs[i].device].rank <= devices[logs[j].device].rank)
    && (forall i :: 0 <= i < |members| ==>
          if inserts[i].Some? then Log(inserts[i].value, members[i].device) in logs
          else forall j :: 0 <= j < |logs| ==> logs[j].device != members[i].device)
  }

  /** `members` is as much of the group's listing as has been scanned. */
  ghost predicate IsListed(devices: Devices, group: nat, members: seq<Member>) {
    && (forall i :: 0 <= i < |members| ==>
          && members[i].device in devices
          && devices[members[i].device].group == Some(group)
          && members[i].online == devices[members[i].device].online)
    && (forall i, j :: 0 <= i < j < |members| ==>
          && members[i].device != members[j].device
          && devices[members[i].device].rank <= devices[members[j].device].rank)
  }

  /** Exactly one command per online group member whose insert succeeded, in group order, and none for
      offline or outside devices. */
  lemma CollectsOnePerMember(devices: Devices, group: nat, members: seq<Member>, inserts: seq<Option<CommandId>>)
    requires |members| == |inserts| && IsListed(devices, group, members)
    requires forall i :: 0 <= i < |inserts| && inserts[i].Some? ==> members[i].online
    ensures OnePerMember(devices, group, members, inserts, Collect(members, inserts))
  {
    var logs := Collect(members, inserts);
    var positions := CollectPicks(members, inserts);
    assert forall j :: 0 <= j < |logs| ==> IsLogOf(members, inserts, positions[j], logs[j]);
    forall i | 0 <= i < |members| && inserts[i].Some?
      ensures Log(inserts[i].value, members[i].device) in logs
    {
      var j :| 0 <= j < |positions| && positions[j] == i;
      assert logs[j] == Log(inserts[i].value, members[i].device);
    }
  }

  function CountTrue(bits: seq<bool>): nat {
    if bits == [] then 0
    else CountTrue(bits[..|bits| - 1]) + (if bits[|bits| - 1] then 1 else 0)
  }

  lemma {:induction false} CountTrueBound(bits: seq<bool>)
    ensures CountTrue(bits) <= |bits|
  {
    if bits != [] {
      CountTrueBound(bits[..|bits| - 1]);
    }
  }

  lemma CountGrows(bits: seq<bool>, bit: bool)
    ensures CountTrue(bits + [bit]) == CountTrue(bits) + (if bit then 1 else 0)
  {
    assert (bits + [bit])[..|bits|] == bits;
  }

  /** How the INSERTs for a listing end: only online members get one. */
  function InsertsOf(members: seq<Member>, inserting: nat -> Option<CommandId>): (inserts: seq<Option<CommandId>>)
    ensures |inserts| == |members|
  {
    seq(|members|, i requires 0 <= i < |members| => if members[i].online then inserting(i) else None)
  }

  lemma InsertsGrow(members: seq<Member>, m: Member, inserting: nat -> Option<CommandId>)
    ensures
      var inserted := if m.online then inserting(|members|) else None;
      Collect(members + [m], InsertsOf(members + [m], inserting))
      == Collect(members, InsertsOf(members, inserting))
         + (if inserted.Some? then [Log(inserted.value, m.device)] else [])
  {
    var n, all := |members|, members + [m];
    assert all[..n] == members && InsertsOf(all, inserting)[..n] == InsertsOf(members, inserting);
  }
}
