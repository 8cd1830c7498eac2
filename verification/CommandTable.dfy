/** The command_logs table and its statements. None of the UPDATEs by id guards on the status. */
module CommandTable {
  import opened Base

  datatype Status = Pending | Sent | Success | Failed | Timeout

  /** A JSON document, of which only string values are looked into. */
  datatype Json = JsonString(text: string) | JsonOther(raw: string)

  datatype CommandLog = CommandLog(
    device: DeviceId,
    kind: string,
    payload: string,
    status: Status,
    message: Option<string>,
    result: Option<Json>,
    createdAt: Time,
    completedAt: Option<Time>)

  type Rows = map<CommandId, CommandLog>

  function NewLog(device: DeviceId, kind: string, payload: string, now: Time): CommandLog {
    CommandLog(device, kind, payload, Pending, None, None, now, None)
  }

  /** What a device reports about a command. */
  datatype Verdict = Verdict(success: bool, message: string, result: Json)

  function WithStatus(rows: Rows, id: CommandId, status: Status, message: string, result: Json, now: Time): Rows {
    if id in rows then
      rows[id := rows[id].(status := status, message := Some(message), result := Some(result),
                           completedAt := Some(now))]
    else rows
  }

  function WithVerdict(rows: Rows, id: CommandId, v: Verdict, now: Time): Rows {
    WithStatus(rows, id, if v.success then Success else Failed, v.message, v.result, now)
  }

  function WithSent(rows: Rows, id: CommandId): Rows {
    if id in rows then rows[id := rows[id].(status := Sent)] else rows
  }

  predicate Overdue(row: CommandLog, cutoff: int) {
    row.status == Sent && row.createdAt < cutoff
  }

  function WithTimeouts(rows: Rows, cutoff: int, now: Time): Rows {
    map id | id in rows ::
      if Overdue(rows[id], cutoff) then rows[id].(status := Timeout, completedAt := Some(now)) else rows[id]
  }

  /** Deleting a device takes its command logs with it. */
  function WithoutDevice(rows: Rows, device: DeviceId): Rows {
    map id | id in rows && rows[id].device != device :: rows[id]
  }

  /** The rows of other commands stay as they were, and none comes or goes. */
  ghost predicate KeepsOthers(rows: Rows, rows': Rows, id: CommandId) {
    rows'.Keys == rows.Keys && forall e :: e in rows && e != id ==> rows'[e] == rows[e]
  }

  /** What no statement after the INSERT ever changes. */
  predicate SameCommand(row: CommandLog, row': CommandLog) {
    && row'.device == row.device && row'.kind == row.kind && row'.payload == row.payload
    && row'.createdAt == row.createdAt
  }

  predicate IsNew(row: CommandLog, device: DeviceId, kind: string, payload: string, now: Time) {
    && row.device == device && row.kind == kind && row.payload == payload && row.createdAt == now
    && row.status == Pending && row.message == None && row.result == None && row.completedAt == None
  }

  predicate HasVerdict(row: CommandLog, row': CommandLog, status: Status, message: string, result: Json, now: Time) {
    && SameCommand(row, row')
    && row'.status == status && row'.message == Some(message) && row'.result == Some(result)
    && row'.completedAt == Some(now)
  }

  /** The row after a sweep with that cutoff: a SENT row created before it is timed out now, any other
      is as it was. */
  predicate IsSwept(row: CommandLog, row': CommandLog, cutoff: int, now: Time) {
    if row.status == Sent && row.createdAt < cutoff then
      && SameCommand(row, row') && row'.message == row.message && row'.result == row.result
      && row'.status == Timeout && row'.completedAt == Some(now)
    else row' == row
  }

  /** The statements column by column. */
  lemma StatementsByColumn(rows: Rows, id: CommandId, v: Verdict, now: Time)
    requires id in rows
    ensures KeepsOthers(rows, WithVerdict(rows, id, v, now), id) && KeepsOthers(rows, WithSent(rows, id), id)
    ensures HasVerdict(rows[id], WithVerdict(rows, id, v, now)[id], if v.success then Success else Failed, v.message,
                       v.result, now)
    ensures
      var row, row' := rows[id], WithSent(rows, id)[id];
      && SameCommand(row, row') && row'.status == Sent
      && row'.message == row.message && row'.result == row.result && row'.completedAt == row.completedAt
  {
  }

  lemma SweepByColumn(rows: Rows, cutoff: int, now: Time)
    ensures WithTimeouts(rows, cutoff, now).Keys == rows.Keys
    ensures forall id :: id in rows ==> IsSwept(rows[id], WithTimeouts(rows, cutoff, now)[id], cutoff, now)
  {
  }

  /** Deleting a device deletes exactly its commands. */
  lemma DeletionByRow(rows: Rows, device: DeviceId)
    ensures forall id :: id in WithoutDevice(rows, device) <==> id in rows && rows[id].device != device
    ensures forall id :: id in WithoutDevice(rows, device) ==> WithoutDevice(rows, device)[id] == rows[id]
  {
  }

  class CommandRepo {
    var rows: Rows

    constructor (rows: Rows)
      ensures this.rows == rows
    {
      this.rows := rows;
    }

    /** `inserted` is the identity the database generated, or None when the INSERT failed. */
    method Create(device: DeviceId, kind: string, payload: string, inserted: Option<CommandId>, now: Time)
      requires inserted.Some? ==> inserted.value !in rows
      modifies this
      ensures rows == if inserted.Some? then old(rows)[inserted.value := NewLog(device, kind, payload, now)]
                      else old(rows)
      ensures inserted.Some? ==>
                && rows.Keys == old(rows).Keys + {inserted.value}
                && (forall id :: id in old(rows) ==> rows[id] == old(rows)[id])
                && IsNew(rows[inserted.value], device, kind, payload, now)
    {
      if inserted.Some? {
        rows := rows[inserted.value := NewLog(device, kind, payload, now)];
      }
    }

    method UpdateStatus(id: CommandId, status: Status, message: string, result: Json, now: Time)
      modifies this
      ensures rows == WithStatus(old(rows), id, status, message, result, now)
      ensures KeepsOthers(old(rows), rows, id)
      ensures id in rows ==> HasVerdict(old(rows)[id], rows[id], status, message, result, now)
    {
      if id in rows {
        rows := rows[id := rows[id].(status := status, message := Some(message), result := Some(result),
                                     completedAt := Some(now))];
      }
    }

    method SetSent(id: CommandId)
      modifies this
      ensures rows == WithSent(old(rows), id)
      ensures KeepsOthers(old(rows), rows, id)
      ensures id in rows ==> rows[id] == old(rows)[id].(status := Sent)
    {
      if id in rows {
        rows := rows[id := rows[id].(status := Sent)];
      }
    }

    /** `clock` is the worker's clock reading, `now` the later instant at which the UPDATE runs. */
    method MarkTimeouts(threshold: Time, clock: Time, now: Time) returns (affected: nat)
      modifies this
      ensures rows == WithTimeouts(old(rows), clock - threshold, now)
      ensures rows.Keys == old(rows).Keys
      ensures forall id :: id in rows ==> IsSwept(old(rows)[id], rows[id], clock - threshold, now)
      ensures affected == |set id | id in old(rows) && old(rows)[id] != rows[id]|
    {
      var overdue := set id | id in rows && Overdue(rows[id], clock - threshold);
      affected := |overdue|;
      rows := map id | id in rows ::
        if id in overdue then rows[id].(status := Timeout, completedAt := Some(now)) else rows[id];
      assert overdue == set id | id in old(rows) && old(rows)[id] != rows[id];
    }
  }
}
