/** Replacing a device's accounts in one transaction. */
module Accounts {
  import opened Base

  datatype Account = Account(name: string, kind: string)

  /** One row of device_accounts; generated identity and timestamps are left out. */
  datatype Row = Row(device: DeviceId, account: Account)

  function AccountsOf(rows: set<Row>, device: DeviceId): set<Account> {
    set row | row in rows && row.device == device :: row.account
  }

  /** One INSERT: the row must reference a device and must not repeat (device, name, type). */
  function Insert(devices: set<DeviceId>, rows: set<Row>, row: Row): Option<set<Row>> {
    if row.device in devices && row !in rows then Some(rows + {row}) else None
  }

  /** The INSERTs of the loop, one after another, stopping at the first failure. */
  function InsertAll(devices: set<DeviceId>, rows: set<Row>, device: DeviceId, accounts: seq<Account>): Option<set<Row>>
    decreases accounts
  {
    if accounts == [] then Some(rows)
    else
      match Insert(devices, rows, Row(device, accounts[0]))
      case None => None
      case Some(more) => InsertAll(devices, more, device, accounts[1..])
  }

  predicate Repeats(accounts: seq<Account>) {
    exists i, j :: 0 <= i < j < |accounts| && accounts[i] == accounts[j]
  }

  function Without(rows: set<Row>, device: DeviceId): set<Row> {
    set row | row in rows && row.device != device
  }

  function RowsFor(device: DeviceId, accounts: seq<Account>): set<Row> {
    set account | account in accounts :: Row(device, account)
  }

  /** The loop goes through exactly when nothing is repeated or already there and the device exists
      or nothing is inserted; it then adds exactly the listed rows. */
  lemma {:induction false} InsertAllOutcome(devices: set<DeviceId>, rows: set<Row>, device: DeviceId,
                                            accounts: seq<Account>)
    ensures InsertAll(devices, rows, device, accounts).Some?
       <==> !Repeats(accounts) && RowsFor(device, accounts) !! rows && (device in devices || accounts == [])
    ensures InsertAll(devices, rows, device, accounts).Some? ==>
              InsertAll(devices, rows, device, accounts).value == rows + RowsFor(device, accounts)
    decreases accounts
  {
    if accounts == [] {
      assert RowsFor(device, accounts) == {};
    } else {
      var head, tail := accounts[0], accounts[1..];
      assert accounts == [head] + tail;
      HeadOfRows(device, accounts);
      RepeatsOfHead(accounts);
      if device in devices && Row(device, head) !in rows {
        InsertAllOutcome(devices, rows + {Row(device, head)}, device, tail);
        assert rows + {Row(device, head)} + RowsFor(device, tail) == rows + RowsFor(device, accounts);
        assert Row(device, head) in RowsFor(device, tail) <==> head in tail;
      }
    }
  }

  lemma HeadOfRows(device: DeviceId, accounts: seq<Account>)
    requires accounts != []
    ensures RowsFor(device, accounts) == {Row(device, accounts[0])} + RowsFor(device, accounts[1..])
  {
    assert accounts == [accounts[0]] + accounts[1..];
  }

  lemma RepeatsOfHead(accounts: seq<Account>)
    requires accounts != []
    ensures Repeats(accounts) <==> accounts[0] in accounts[1..] || Repeats(accounts[1..])
  {
    var tail := accounts[1..];
    if accounts[0] in tail {
      var j :| 0 <= j < |tail| && tail[j] == accounts[0];
      assert accounts[0] == accounts[j + 1];
    }
    if Repeats(tail) {
      var i, j :| 0 <= i < j < |tail| && tail[i] == tail[j];
      assert accounts[i + 1] == accounts[j + 1];
    }
    if Repeats(accounts) {
      var i, j :| 0 <= i < j < |accounts| && accounts[i] == accounts[j];
      assert tail[j - 1] == accounts[j];
      if i > 0 {
        assert tail[i - 1] == accounts[i];
      }
    }
  }

  /** Without repetition there is one row per listed account. */
  lemma {:induction false} RowPerAccount(device: DeviceId, accounts: seq<Account>)
    requires !Repeats(accounts)
    ensures |RowsFor(device, accounts)| == |accounts|
  {
    if accounts != [] {
      RepeatsOfHead(accounts);
      HeadOfRows(device, accounts);
      RowPerAccount(device, accounts[1..]);
      assert Row(device, accounts[0]) !in RowsFor(device, accounts[1..]);
    } else {
      assert RowsFor(device, accounts) == {};
    }
  }

  lemma ReplacedAccounts(rows: set<Row>, device: DeviceId, accounts: seq<Account>)
    ensures RowsFor(device, accounts) !! Without(rows, device)
    ensures AccountsOf(Without(rows, device) + RowsFor(device, accounts), device) == set a | a in accounts
    ensures Without(Without(rows, device) + RowsFor(device, accounts), device) == Without(rows, device)
  {
    var after := Without(rows, device) + RowsFor(device, accounts);
    forall a | a in accounts ensures a in AccountsOf(after, device) {
      assert Row(device, a) in after;
    }
  }

  class AccountTable {
    var devices: set<DeviceId>
    var rows: set<Row>

    constructor (devices: set<DeviceId>)
      ensures this.devices == devices && rows == {}
    {
      this.devices, rows := devices, {};
    }

    /** `faulted(i)` makes the i-th statement fail for a reason of its own: 0 is BEGIN, 1 the DELETE,
        then the INSERTs, then COMMIT. Whatever fails, the table is as before. */
    method UpsertDeviceAccounts(device: DeviceId, accounts: seq<Account>, faulted: nat -> bool)
      returns (committed: bool)
      modifies `rows
      ensures committed ==> !Repeats(accounts) && (device in devices || accounts == [])
      ensures (forall i: nat :: i < |accounts| + 3 ==> !faulted(i)) ==>
                (committed <==> !Repeats(accounts) && (device in devices || accounts == []))
      ensures committed ==> AccountsOf(rows, device) == set a | a in accounts
      ensures committed ==> |set row | row in rows && row.device == device| == |accounts|
      ensures !committed ==> rows == old(rows)
      ensures Without(rows, device) == Without(old(rows), device)
    {
      if faulted(0) || faulted(1) {
        return false;
      }
      var tx := Without(rows, device);
      var i := 0;
      assert accounts[0..] == accounts;
      while i < |accounts|
        invariant 0 <= i <= |accounts|
        invariant InsertAll(devices, Without(rows, device), device, accounts)
               == InsertAll(devices, tx, device, accounts[i..])
      {
        var row := Row(device, accounts[i]);
        if faulted(2 + i) || device !in devices || row in tx {
          InsertAllOutcome(devices, Without(rows, device), device, accounts);
          ReplacedAccounts(rows, device, accounts);
          return false;
        }
        tx := tx + {row};
        assert accounts[i..][1..] == accounts[i + 1..];
        i := i + 1;
      }
      InsertAllOutcome(devices, Without(rows, device), device, accounts);
      ReplacedAccounts(rows, device, accounts);
      if faulted(2 + |accounts|) {
        return false;
      }
      rows := tx;
      RowPerAccount(device, accounts);
      assert (set row | row in rows && row.device == device) == RowsFor(device, accounts);
      return true;
    }
  }
}
