/** Bulk dispatch accounting: which commands a request creates, sends and marks, in every run. */
module CommandAccounting {
  import opened Base
  import opened CommandTable
  import opened DeviceTable
  import opened CommandLogs
  import opened CommandRuns

  /** The request has returned from its dispatch loop for every log it created. */
  predicate Finished(q: Request) {
    !q.CanScan() && !q.marking && |q.outcomes| == |q.logs|
  }

  ghost predicate WellRun(q: Request) {
    && |q.inserts| <= |q.members|
    && (forall i :: 0 <= i < |q.inserts| && q.inserts[i].Some? ==> q.members[i].online)
    && q.logs == Collect(q.members[..|q.inserts|], q.inserts)
    && |q.outcomes| <= |q.logs|
    && (q.outcomes != [] ==> |q.inserts| == |q.members|)
    && (q.marking ==> q.outcomes != [] && q.outcomes[|q.outcomes| - 1])
    && q.sent + (if q.marking then 1 else 0) == CountTrue(q.outcomes)
  }

  /** How often the request has executed SetSent for its `i`-th log by now. */
  function MarksDue(q: Request, i: nat): nat {
    if i < |q.outcomes| && q.outcomes[i] && !(q.marking && i == |q.outcomes| - 1) then 1 else 0
  }

  predicate MarkedAsDue(l: Ledger, q: Request, r: nat, i: nat)
    requires i < |q.logs|
  {
    var id := q.logs[i].id;
    && id in l.made && l.made[id] == (r, i)
    && id in l.marks && |l.marks[id]| == MarksDue(q, i)
  }

  ghost predicate Tracked(l: Ledger, r: nat)
    requires r in l.requests
  {
    forall i :: 0 <= i < |l.requests[r].logs| ==> MarkedAsDue(l, l.requests[r], r, i)
  }

  ghost predicate Accounted(l: Ledger) {
    && (forall r :: r in l.requests ==> WellRun(l.requests[r]) && Tracked(l, r))
    && l.marks.Keys == l.made.Keys
  }

  lemma ScanRunsWell(q: Request, inserted: Option<CommandId>)
    requires WellRun(q) && q.CanScan()
    requires inserted.Some? ==> q.members[|q.inserts|].online
    ensures WellRun(q.Scan(inserted))
  {
    var n, q' := |q.inserts|, q.Scan(inserted);
    assert q'.members[..n + 1][..n] == q.members[..n];
    assert q'.inserts[..n] == q.inserts;
  }

  lemma DispatchRunsWell(q: Request, isNil: bool)
    requires WellRun(q) && q.CanDispatch()
    ensures WellRun(q.Dispatch(isNil))
  {
    assert q.Dispatch(isNil).outcomes[..|q.outcomes|] == q.outcomes;
  }

  lemma ScanKeepsTracked(l: Ledger, r: nat, inserted: Option<CommandId>, p: nat, i: nat)
    requires Accounted(l) && p in l.requests && i < |l.Scan(r, inserted).requests[p].logs|
    ensures MarkedAsDue(l.Scan(r, inserted), l.Scan(r, inserted).requests[p], p, i)
  {
    assert Tracked(l, p);
    if i < |l.requests[p].logs| {
      assert MarkedAsDue(l, l.requests[p], p, i);
    }
  }

  lemma ScanKeepsAccounted(l: Ledger, r: nat, inserted: Option<CommandId>)
    requires Accounted(l)
    ensures Accounted(l.Scan(r, inserted))
  {
    var l' := l.Scan(r, inserted);
    if r in l.requests && l.requests[r].CanScan() {
      ScanRunsWell(l.requests[r], if l.Inserts(r, inserted) then inserted else None);
    }
    forall p, i: nat | p in l'.requests && i < |l'.requests[p].logs| {
      ScanKeepsTracked(l, r, inserted, p, i);
    }
  }

  lemma DispatchKeepsAccounted(l: Ledger, r: nat, isNil: bool)
    requires Accounted(l)
    ensures Accounted(l.Dispatch(r, isNil))
  {
    var l' := l.Dispatch(r, isNil);
    if r in l.requests && l.requests[r].CanDispatch() {
      DispatchRunsWell(l.requests[r], isNil);
    }
    forall p | p in l'.requests ensures Tracked(l', p) {
      assert Tracked(l, p);
      forall i | 0 <= i < |l'.requests[p].logs| ensures MarkedAsDue(l', l'.requests[p], p, i) {
        assert MarkedAsDue(l, l.requests[p], p, i);
      }
    }
  }

  lemma MarkKeepsAccounted(l: Ledger, r: nat, now: Time)
    requires Accounted(l) && l.CanMark(r)
    ensures Accounted(l.Mark(r, now))
  {
    var l' := l.Mark(r, now);
    assert Tracked(l, r);
    assert MarkedAsDue(l, l.requests[r], r, |l.requests[r].outcomes| - 1);
    forall p | p in l'.requests ensures Tracked(l', p) {
      assert Tracked(l, p);
      forall i | 0 <= i < |l'.requests[p].logs| ensures MarkedAsDue(l', l'.requests[p], p, i) {
        assert MarkedAsDue(l, l.requests[p], p, i);
      }
    }
  }

  lemma OpenKeepsAccounted(l: Ledger, r: nat, kind: string, payload: string, members: seq<Member>)
    requires Accounted(l)
    ensures Accounted(Opened(l, r, kind, payload, members))
  {
    var l' := Opened(l, r, kind, payload, members);
    forall p | p in l'.requests ensures WellRun(l'.requests[p]) && Tracked(l', p) {
      if p in l.requests {
        assert Tracked(l, p);
        forall i | 0 <= i < |l'.requests[p].logs| ensures MarkedAsDue(l', l'.requests[p], p, i) {
          assert MarkedAsDue(l, l.requests[p], p, i);
        }
      }
    }
  }

  lemma StepKeepsAccounted(s: State, step: Step)
    requires Accounted(s.ledger) && s.rows.Keys <= s.ledger.made.Keys
    ensures Accounted(Next(s, step).ledger) && Next(s, step).rows.Keys <= Next(s, step).ledger.made.Keys
  {
    match step {
      case Open(r, kind, payload, members) => OpenKeepsAccounted(s.ledger, r, kind, payload, members);
      case Scan(r, inserted) => ScanKeepsAccounted(s.ledger, r, inserted);
      case Dispatch(r, isNil) => DispatchKeepsAccounted(s.ledger, r, isNil);
      case Mark(r) =>
        if s.ledger.CanMark(r) {
          MarkKeepsAccounted(s.ledger, r, s.now);
        }
      case _ =>
    }
  }

  lemma {:induction false} RunKeepsAccounted(init: State, steps: seq<Step>)
    requires Fresh(init)
    ensures Accounted(After(init, steps).ledger)
    ensures After(init, steps).rows.Keys <= After(init, steps).ledger.made.Keys
  {
    if steps != [] {
      RunKeepsAccounted(init, steps[..|steps| - 1]);
      StepKeepsAccounted(After(init, steps[..|steps| - 1]), steps[|steps| - 1]);
    }
  }

  /** In every run, whatever results and sweeps interleave: as much of a group's listing as a request
      has scanned has led to exactly one command per online member whose insert succeeded, in group
      order, and none for anybody else; `sent` counts the logs whose send returned nil and never
      exceeds the total; and a finished request has marked exactly those logs, each once. */
  lemma BulkDispatchAccounting(init: State, steps: seq<Step>, r: nat, devices: Devices, group: nat)
    requires Fresh(init) && r in After(init, steps).ledger.requests
    ensures
      var l := After(init, steps).ledger;
      var q := l.requests[r];
      && |q.inserts| <= |q.members|
      && (IsListing(devices, group, q.members) ==>
            OnePerMember(devices, group, q.members[..|q.inserts|], q.inserts, q.logs))
      && (forall i :: 0 <= i < |q.inserts| && q.inserts[i].Some? ==> q.members[i].online)
      && q.sent <= CountTrue(q.outcomes) <= |q.logs|
      && (Finished(q) ==>
            && q.sent == CountTrue(q.outcomes)
            && (forall i :: 0 <= i < |q.logs| ==> MarkedTimes(l, q.logs[i].id) == if q.outcomes[i] then 1 else 0))
  {
    RunKeepsAccounted(init, steps);
    var l := After(init, steps).ledger;
    var q := l.requests[r];
    CountTrueBound(q.outcomes);
    if IsListing(devices, group, q.members) {
      CollectsOnePerMember(devices, group, q.members[..|q.inserts|], q.inserts);
    }
    assert Tracked(l, r);
    forall i | 0 <= i < |q.logs| && Finished(q)
      ensures MarkedTimes(l, q.logs[i].id) == if q.outcomes[i] then 1 else 0
    {
      assert MarkedAsDue(l, q, r, i);
    }
  }

  function MarkedTimes(l: Ledger, id: CommandId): nat {
    if id in l.marks then |l.marks[id]| else 0
  }

  predicate HasLog(l: Ledger, r: nat, i: nat) {
    r in l.requests && i < |l.requests[r].logs|
  }

  /** In every run no command belongs to two requests, or to two places of one. */
  lemma CommandsHaveOneOwner(init: State, steps: seq<Step>, p: nat, i: nat, r: nat, j: nat)
    requires Fresh(init)
    requires HasLog(After(init, steps).ledger, p, i) && HasLog(After(init, steps).ledger, r, j)
    requires After(init, steps).ledger.requests[p].logs[i].id == After(init, steps).ledger.requests[r].logs[j].id
    ensures p == r && i == j
  {
    RunKeepsAccounted(init, steps);
    var l := After(init, steps).ledger;
    assert Tracked(l, p) && Tracked(l, r);
    assert MarkedAsDue(l, l.requests[p], p, i) && MarkedAsDue(l, l.requests[r], r, j);
  }
}
