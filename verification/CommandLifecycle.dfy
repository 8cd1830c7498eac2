/** What a command's status can be, and become, in every run: time bounds and verdicts. */
module CommandLifecycle {
  import opened Base
  import opened CommandTable
  import DeviceTable
  import opened CommandLogs
  import opened CommandRuns
  import opened CommandAccounting

  predicate Terminal(status: Status) {
    status in {Success, Failed, Timeout}
  }

  /** The last time the command was marked sent. */
  function LastMark(marks: seq<Time>): Option<Time> {
    if marks == [] then None else Some(marks[|marks| - 1])
  }

  ghost predicate RowOk(row: CommandLog, marks: seq<Time>, timeout: Time, lastSweep: Time) {
    && (row.status == Pending ==> marks == [] && row.completedAt == None)
    && (row.status == Sent ==>
          marks != [] && (row.createdAt + timeout >= lastSweep || LastMark(marks).value >= lastSweep))
    && (row.status == Timeout ==> marks != [])
    && (Terminal(row.status) ==> row.completedAt.Some?)
    && (row.status == Timeout ==> row.completedAt.value > row.createdAt + timeout)
  }

  ghost predicate RowsOk(s: State) {
    && s.lastSweep <= s.now
    && (s.sweepClock.Some? ==> s.lastSweep <= s.sweepClock.value <= s.now)
    && (forall id :: id in s.rows ==>
          id in s.ledger.marks && RowOk(s.rows[id], s.ledger.marks[id], s.timeout, s.lastSweep))
  }

  lemma ScanKeepsRows(s: State, r: nat, inserted: Option<CommandId>)
    requires RowsOk(s) && s.rows.Keys <= s.ledger.made.Keys && s.ledger.marks.Keys == s.ledger.made.Keys
    ensures RowsOk(Next(s, CommandRuns.Scan(r, inserted)))
  {
  }

  lemma MarkKeepsRows(s: State, r: nat)
    requires RowsOk(s)
    ensures RowsOk(Next(s, CommandRuns.Mark(r)))
  {
  }

  lemma SweepKeepsRows(s: State)
    requires RowsOk(s)
    ensures RowsOk(Next(s, SweepRuns))
  {
  }

  lemma StepKeepsRows(s: State, step: Step)
    requires RowsOk(s) && s.rows.Keys <= s.ledger.made.Keys && s.ledger.marks.Keys == s.ledger.made.Keys
    ensures RowsOk(Next(s, step))
  {
    match step {
      case Scan(r, inserted) => ScanKeepsRows(s, r, inserted);
      case Mark(r) => MarkKeepsRows(s, r);
      case SweepRuns => SweepKeepsRows(s);
      case _ =>
    }
  }

  lemma {:induction false} RunKeepsRows(init: State, steps: seq<Step>)
    requires Fresh(init)
    ensures RowsOk(After(init, steps))
    ensures After(init, steps).timeout == init.timeout
  {
    if steps != [] {
      RunKeepsRows(init, steps[..|steps| - 1]);
      RunKeepsAccounted(init, steps[..|steps| - 1]);
      StepKeepsRows(After(init, steps[..|steps| - 1]), steps[|steps| - 1]);
    }
  }

  /** The time bound: with sweeps at most `period` apart, a command still SENT was created at most
      timeout + period ago, or marked sent at most `period` ago. */
  lemma SentIsBounded(init: State, steps: seq<Step>, period: Time, id: CommandId)
    requires Fresh(init)
    requires After(init, steps).now <= After(init, steps).lastSweep + period
    requires id in After(init, steps).rows && After(init, steps).rows[id].status == Sent
    ensures
      var s := After(init, steps);
      && MarkedTimes(s.ledger, id) == 1
      && s.now <= Max(s.rows[id].createdAt + init.timeout, s.ledger.marks[id][0]) + period
  {
    RunKeepsRows(init, steps);
    RunMarksOnce(init, steps, id);
  }

  /** With the server's own settings, a command created more than two minutes ago and marked sent more
      than one minute ago is no longer SENT. */
  lemma TwoMinuteBound(init: State, steps: seq<Step>, id: CommandId)
    requires Fresh(init) && init.timeout == COMMAND_TIMEOUT
    requires After(init, steps).now <= After(init, steps).lastSweep + WORKER_PERIOD
    requires id in After(init, steps).rows && MarkedTimes(After(init, steps).ledger, id) > 0
    requires After(init, steps).rows[id].createdAt + 2 * MINUTE < After(init, steps).now
    requires After(init, steps).ledger.marks[id][0] + 1 * MINUTE < After(init, steps).now
    ensures After(init, steps).rows[id].status != Sent
  {
    if After(init, steps).rows[id].status == Sent {
      SentIsBounded(init, steps, WORKER_PERIOD, id);
    }
  }

  function Max(a: Time, b: Time): Time {
    if a < b then b else a
  }

  /** Every command is marked sent at most once in a run. */
  lemma RunMarksOnce(init: State, steps: seq<Step>, id: CommandId)
    requires Fresh(init)
    ensures MarkedTimes(After(init, steps).ledger, id) <= 1
  {
    RunKeepsAccounted(init, steps);
    RunKeepsMade(init, steps);
    var l := After(init, steps).ledger;
    if id in l.marks {
      var (r, i) := l.made[id];
      assert Tracked(l, r);
      assert MarkedAsDue(l, l.requests[r], r, i);
    }
  }

  /** Every created command sits where `made` says. */
  ghost predicate MadeOk(l: Ledger) {
    forall id :: id in l.made ==>
      var (r, i) := l.made[id];
      r in l.requests && i < |l.requests[r].logs| && l.requests[r].logs[i].id == id
  }

  lemma LedgerKeepsMade(l: Ledger, r: nat, inserted: Option<CommandId>, isNil: bool, now: Time)
    requires MadeOk(l)
    ensures MadeOk(l.Scan(r, inserted)) && MadeOk(l.Dispatch(r, isNil))
    ensures l.CanMark(r) ==> MadeOk(l.Mark(r, now))
  {
  }

  lemma StepKeepsMade(s: State, step: Step)
    requires MadeOk(s.ledger)
    ensures MadeOk(Next(s, step).ledger)
  {
    if step.Scan? {
      LedgerKeepsMade(s.ledger, step.request, step.inserted, false, s.now);
    } else if step.Dispatch? {
      LedgerKeepsMade(s.ledger, step.request, None, step.isNil, s.now);
    } else if step.Mark? {
      LedgerKeepsMade(s.ledger, step.request, None, false, s.now);
    }
  }

  lemma {:induction false} RunKeepsMade(init: State, steps: seq<Step>)
    requires Fresh(init)
    ensures MadeOk(After(init, steps).ledger)
  {
    if steps != [] {
      RunKeepsMade(init, steps[..|steps| - 1]);
      StepKeepsMade(After(init, steps[..|steps| - 1]), steps[|steps| - 1]);
    }
  }

  /** The row's command is in the logs of the request that created it, for the device that was listed
      there, with the request's kind and payload. */
  ghost predicate Belongs(l: Ledger, id: CommandId, row: CommandLog) {
    id in l.made &&
    var (r, i) := l.made[id];
    && r in l.requests && i < |l.requests[r].logs|
    && l.requests[r].logs[i] == Log(id, row.device)
    && l.requests[r].kind == row.kind && l.requests[r].payload == row.payload
  }

  ghost predicate RowsBelong(s: State) {
    forall id :: id in s.rows ==> Belongs(s.ledger, id, s.rows[id])
  }

  lemma ScanKeepsBelonging(l: Ledger, r: nat, inserted: Option<CommandId>, id: CommandId, row: CommandLog)
    requires Belongs(l, id, row)
    ensures Belongs(l.Scan(r, inserted), id, row)
  {
  }

  lemma StepKeepsBelonging(s: State, step: Step)
    requires RowsBelong(s)
    ensures RowsBelong(Next(s, step))
  {
    forall id | id in s.rows && step.Scan? {
      ScanKeepsBelonging(s.ledger, step.request, step.inserted, id, s.rows[id]);
    }
  }

  /** In every run each row of the table was created by one request, at one place of its logs. */
  lemma {:induction false} RowsComeFromRequests(init: State, steps: seq<Step>)
    requires Fresh(init)
    ensures RowsBelong(After(init, steps))
  {
    if steps != [] {
      RowsComeFromRequests(init, steps[..|steps| - 1]);
      StepKeepsBelonging(After(init, steps[..|steps| - 1]), steps[|steps| - 1]);
    }
  }

  /** A TIMEOUT row was completed strictly after its creation plus the threshold; PENDING rows have
      no completion time and every terminal status has one. */
  lemma CompletionTimes(init: State, steps: seq<Step>, id: CommandId)
    requires Fresh(init) && id in After(init, steps).rows
    ensures
      var row := After(init, steps).rows[id];
      && (row.status == Pending ==> row.completedAt == None)
      && (Terminal(row.status) ==> row.completedAt.Some?)
      && (row.status == Timeout ==> row.completedAt.value > row.createdAt + init.timeout)
  {
    RunKeepsRows(init, steps);
  }

  /** The step is a device result for `id` reaching the table. */
  predicate SavesResultFor(s: State, step: Step, id: CommandId) {
    step.Save? && step.worker in s.results && s.results[step.worker].id == id
  }

  predicate MarksCommand(s: State, step: Step, id: CommandId) {
    step.Mark? && s.ledger.CanMark(step.request) && s.ledger.requests[step.request].Marking() == id
  }

  /** Only a command never marked before is ever about to be marked. */
  lemma MarkingIsFirst(s: State, step: Step, id: CommandId)
    requires Accounted(s.ledger) && MarksCommand(s, step, id)
    ensures MarkedTimes(s.ledger, id) == 0
  {
    var q := s.ledger.requests[step.request];
    assert Tracked(s.ledger, step.request);
    assert MarkedAsDue(s.ledger, q, step.request, |q.outcomes| - 1);
  }

  /** What one step can do to a row that survives it. */
  lemma StepMovesStatus(s: State, step: Step, id: CommandId)
    requires s.rows.Keys <= s.ledger.made.Keys
    requires id in s.rows && id in Next(s, step).rows
    ensures
      var row, row' := s.rows[id], Next(s, step).rows[id];
      && (row.completedAt.Some? ==> row'.completedAt.Some?)
      && row'.createdAt == row.createdAt && row'.device == row.device
      && (row'.status != row.status ==>
            || SavesResultFor(s, step, id)
            || MarksCommand(s, step, id)
            || (step.SweepRuns? && row.status == Sent && row'.status == Timeout))
      && (MarksCommand(s, step, id) ==> row'.status == Sent)
      && (SavesResultFor(s, step, id) ==> row'.status in {Success, Failed})
  {
  }

  /** Once a command's MarkSent has happened: it never returns to PENDING, never returns to SENT
      after leaving it, and a device's verdict is only ever replaced by a later result. */
  lemma AfterMarking(init: State, steps: seq<Step>, step: Step, id: CommandId)
    requires Fresh(init)
    requires MarkedTimes(After(init, steps).ledger, id) > 0
    requires id in After(init, steps).rows && id in Next(After(init, steps), step).rows
    ensures
      var s := After(init, steps);
      var before, after := s.rows[id].status, Next(s, step).rows[id].status;
      && before != Pending && after != Pending
      && (before != Sent ==> after != Sent)
      && (before in {Success, Failed} && after != before ==> SavesResultFor(s, step, id))
  {
    var s := After(init, steps);
    RunKeepsAccounted(init, steps);
    RunKeepsRows(init, steps);
    if MarksCommand(s, step, id) {
      MarkingIsFirst(s, step, id);
    }
    StepMovesStatus(s, step, id);
  }

  /** Marked, and past SENT unless its row is gone. */
  predicate StaysPastSent(s: State, id: CommandId) {
    MarkedTimes(s.ledger, id) > 0 && id in s.ledger.made && (id in s.rows ==> s.rows[id].status !in {Pending, Sent})
  }

  lemma StepKeepsPastSent(s: State, step: Step, id: CommandId)
    requires Accounted(s.ledger) && s.rows.Keys <= s.ledger.made.Keys && StaysPastSent(s, id)
    ensures StaysPastSent(Next(s, step), id)
  {
    if MarksCommand(s, step, id) {
      MarkingIsFirst(s, step, id);
    }
    if id in s.rows && id in Next(s, step).rows {
      StepMovesStatus(s, step, id);
    }
  }

  /** Over whole runs: a marked command that has left SENT is never PENDING or SENT again. */
  lemma {:induction false} NeverSentAgain(init: State, steps: seq<Step>, more: seq<Step>, id: CommandId)
    requires Fresh(init) && MarkedTimes(After(init, steps).ledger, id) > 0
    requires id in After(init, steps).rows && After(init, steps).rows[id].status != Sent
    ensures StaysPastSent(After(init, steps + more), id)
  {
    if more == [] {
      assert steps + more == steps;
      RunKeepsAccounted(init, steps);
      RunKeepsRows(init, steps);
    } else {
      var before := steps + more[..|more| - 1];
      assert (steps + more)[..|steps + more| - 1] == before;
      NeverSentAgain(init, steps, more[..|more| - 1], id);
      RunKeepsAccounted(init, before);
      StepKeepsPastSent(After(init, before), more[|more| - 1], id);
    }
  }

  /** Created, and completed unless its row is gone. */
  predicate StaysCompleted(s: State, id: CommandId) {
    id in s.ledger.made && (id in s.rows ==> s.rows[id].completedAt.Some?)
  }

  lemma StepKeepsCompletion(s: State, step: Step, id: CommandId)
    requires s.rows.Keys <= s.ledger.made.Keys && StaysCompleted(s, id)
    ensures StaysCompleted(Next(s, step), id)
  {
    if id in s.rows && id in Next(s, step).rows {
      StepMovesStatus(s, step, id);
    }
  }

  /** A completion time, once set, is never erased in any run, and the identity of a row that is
      deleted with its device is never used again. */
  lemma {:induction false} CompletionIsNeverErased(init: State, steps: seq<Step>, more: seq<Step>, id: CommandId)
    requires Fresh(init)
    requires id in After(init, steps).rows && After(init, steps).rows[id].completedAt.Some?
    ensures StaysCompleted(After(init, steps + more), id)
  {
    if more == [] {
      assert steps + more == steps;
      RunKeepsAccounted(init, steps);
    } else {
      var before := steps + more[..|more| - 1];
      assert (steps + more)[..|steps + more| - 1] == before;
      CompletionIsNeverErased(init, steps, more[..|more| - 1], id);
      RunKeepsAccounted(init, before);
      StepKeepsCompletion(After(init, before), more[|more| - 1], id);
    }
  }

  /** A verdict already in the table is lost to a step other than a later result exactly when that
      step is the command's own MarkSent: a result that arrives before MarkSent is overwritten. */
  lemma VerdictLostOnlyToMark(init: State, steps: seq<Step>, step: Step, id: CommandId)
    requires Fresh(init)
    requires id in After(init, steps).rows && id in Next(After(init, steps), step).rows
    requires After(init, steps).rows[id].status in {Success, Failed}
    requires !SavesResultFor(After(init, steps), step, id)
    ensures Next(After(init, steps), step).rows[id].status != After(init, steps).rows[id].status
       <==> MarksCommand(After(init, steps), step, id)
  {
    RunKeepsAccounted(init, steps);
    StepMovesStatus(After(init, steps), step, id);
  }

  /** A request whose send has just returned nil, with the command still as created. */
  ghost predicate AwaitsMark(s: State, r: nat, id: CommandId, created: Time) {
    && s.ledger.CanMark(r) && s.ledger.requests[r].Marking() == id
    && id in s.rows && s.rows[id].createdAt == created <= s.now
    && s.results == map[] && s.sweepClock == None
  }

  lemma DispatchAwaitsMark(init: State, id: CommandId, device: DeviceId)
    requires Fresh(init)
    ensures AwaitsMark(Next(Next(Next(init,
              Open(0, "PING", "", [DeviceTable.Member(device, true)])), Scan(0, Some(id))), Dispatch(0, true)),
              0, id, init.now)
  {
    var created := Next(init, Open(0, "PING", "", [DeviceTable.Member(device, true)]));
    assert created.ledger.Inserts(0, Some(id));
    var scanned := Next(created, Scan(0, Some(id)));
    assert scanned.ledger.requests[0].CanDispatch();
  }

  /** The runs in which a success is lost for good: the result lands between dispatch and MarkSent,
      MarkSent turns it back to SENT, and a sweep after the threshold calls it a timeout. */
  lemma EarlyResultEndsAsTimeout(s: State, r: nat, t: nat, id: CommandId, created: Time)
    requires AwaitsMark(s, r, id, created)
    ensures
      var answered := Next(Next(s, Fetch(t, id, Verdict(true, "ok", JsonString("")))), Save(t));
      var marked := Next(answered, Mark(r));
      var swept := Next(Next(Next(marked, Tick(s.timeout + 1)), SweepReadsClock), SweepRuns);
      && id in answered.rows && answered.rows[id].status == Success
      && id in marked.rows && marked.rows[id].status == Sent
      && id in swept.rows && swept.rows[id].status == Timeout
  {
    var answered := Next(Next(s, Fetch(t, id, Verdict(true, "ok", JsonString("")))), Save(t));
    assert answered.ledger == s.ledger && answered.rows[id].status == Success && answered.now == s.now;
    var marked := Next(answered, Mark(r));
    assert marked.rows[id].status == Sent && marked.rows[id].createdAt == created;
    assert marked.now == s.now && marked.sweepClock == None && marked.timeout == s.timeout;
    SweepTakesOverdue(marked, id);
  }

  lemma SweepTakesOverdue(s: State, id: CommandId)
    requires id in s.rows && s.rows[id].status == Sent && s.rows[id].createdAt <= s.now && s.sweepClock == None
    ensures
      var swept := Next(Next(Next(s, Tick(s.timeout + 1)), SweepReadsClock), SweepRuns);
      id in swept.rows && swept.rows[id].status == Timeout
  {
    var read := Next(Next(s, Tick(s.timeout + 1)), SweepReadsClock);
    assert read.sweepClock == Some(s.now + s.timeout + 1) && read.rows == s.rows;
  }
}
