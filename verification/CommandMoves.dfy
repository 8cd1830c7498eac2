/** What single steps of the commands do to rows and requests, and that requests can always finish. */
module CommandMoves {
  import opened Base
  import opened CommandTable
  import opened DeviceTable
  import opened CommandLogs
  import opened CommandRuns
  import CommandAccounting
  import CommandLifecycle

  // ---------------------------------------------------------------- rows

  /** A step records a device's verdict on the row, marks it, sweeps it, deletes it with its device, or
      leaves it exactly as it was. */
  predicate RowMoves(s: State, step: Step, id: CommandId, row: CommandLog, rows': Rows) {
    if step.RemoveDevice? && step.device == row.device then id !in rows'
    else
      && id in rows'
      && var row' := rows'[id];
      if CommandLifecycle.SavesResultFor(s, step, id) then
        var v := s.results[step.worker].verdict;
        HasVerdict(row, row', if v.success then Success else Failed, v.message, v.result, s.now)
      else if CommandLifecycle.MarksCommand(s, step, id) then row' == row.(status := Sent)
      else if step.SweepRuns? && s.sweepClock.Some? then IsSwept(row, row', s.sweepClock.value - s.timeout, s.now)
      else row' == row
  }

  /** A row appears only when a request's scan inserts it, and then as a new pending command, created
      now, of the member the scan had reached. */
  predicate RowAppears(s: State, step: Step, id: CommandId, rows': Rows) {
    if step.Scan? && s.ledger.Inserts(step.request, step.inserted) && step.inserted == Some(id) then
      var q := s.ledger.requests[step.request];
      id in rows' && IsNew(rows'[id], q.members[|q.inserts|].device, q.kind, q.payload, s.now)
    else id !in rows'
  }

  /** What every step does to every command, in every reachable state. */
  lemma StepMovesRow(s: State, step: Step, id: CommandId)
    requires s.rows.Keys <= s.ledger.made.Keys
    ensures if id in s.rows then RowMoves(s, step, id, s.rows[id], Next(s, step).rows)
            else RowAppears(s, step, id, Next(s, step).rows)
  {
  }

  lemma StepsMoveRows(init: State, steps: seq<Step>, step: Step, id: CommandId)
    requires Fresh(init)
    ensures
      var s := After(init, steps);
      if id in s.rows then RowMoves(s, step, id, s.rows[id], Next(s, step).rows)
      else RowAppears(s, step, id, Next(s, step).rows)
  {
    CommandAccounting.RunKeepsAccounted(init, steps);
    StepMovesRow(After(init, steps), step, id);
  }

  /** Saving result `t` now would record exactly the verdict `v` on the command's row and touch no other. */
  ghost predicate WouldRecord(s: State, t: nat, id: CommandId, v: Verdict) {
    && var rows' := Next(s, Save(t)).rows;
    CommandTable.KeepsOthers(s.rows, rows', id)
    && (id in s.rows ==>
          HasVerdict(s.rows[id], rows'[id], if v.success then Success else Failed, v.message, v.result, s.now))
  }

  lemma HeldResultIsRecorded(s: State, t: nat)
    requires t in s.results
    ensures WouldRecord(s, t, s.results[t].id, s.results[t].verdict)
  {
    var r := s.results[t];
    if r.id in s.rows {
      StatementsByColumn(s.rows, r.id, r.verdict, s.now);
    }
  }

  /** In every run a device's result on its way to the table is recorded as it was reported, whatever
      the command's status and whatever has happened since the row was read. */
  lemma ResultIsRecorded(s: State, more: seq<Step>, t: nat, id: CommandId, v: Verdict)
    requires id in s.rows && t !in s.results
    requires forall i :: 0 <= i < |more| ==> more[i] != Save(t)
    ensures WouldRecord(After(Next(s, Fetch(t, id, v)), more), t, id, v)
  {
    var fetched := Next(s, Fetch(t, id, v));
    assert fetched.results[t] == PendingResult(id, v);
    ResultIsHeld(fetched, more, t);
    HeldResultIsRecorded(After(fetched, more), t);
  }

  lemma {:induction false} ResultIsHeld(s: State, more: seq<Step>, t: nat)
    requires t in s.results && forall i :: 0 <= i < |more| ==> more[i] != Save(t)
    ensures t in After(s, more).results && After(s, more).results[t] == s.results[t]
  {
    if more != [] {
      ResultIsHeld(s, more[..|more| - 1], t);
    }
  }

  // ---------------------------------------------------------------- times

  /** Not created or completed in the future, nor completed before it was created. */
  predicate InThePast(row: CommandLog, now: Time) {
    row.createdAt <= now && (row.completedAt.Some? ==> row.createdAt <= row.completedAt.value <= now)
  }

  ghost predicate RowTimes(s: State) {
    forall id :: id in s.rows ==> InThePast(s.rows[id], s.now)
  }

  lemma StepKeepsTime(s: State, step: Step, id: CommandId)
    requires s.rows.Keys <= s.ledger.made.Keys && id in Next(s, step).rows
    requires id in s.rows ==> InThePast(s.rows[id], s.now)
    ensures InThePast(Next(s, step).rows[id], Next(s, step).now)
  {
    StepMovesRow(s, step, id);
    TimePasses(s, step);
  }

  lemma TimePasses(s: State, step: Step)
    ensures Next(s, step).now == s.now + (if step.Tick? then step.elapsed else 0)
  {
  }

  lemma StepKeepsTimes(s: State, step: Step)
    requires RowTimes(s) && s.rows.Keys <= s.ledger.made.Keys
    ensures RowTimes(Next(s, step))
  {
    forall id | id in Next(s, step).rows ensures InThePast(Next(s, step).rows[id], Next(s, step).now) {
      StepKeepsTime(s, step, id);
    }
  }

  lemma {:induction false} CompletionsLieInThePast(init: State, steps: seq<Step>)
    requires Fresh(init)
    ensures RowTimes(After(init, steps))
  {
    if steps != [] {
      CompletionsLieInThePast(init, steps[..|steps| - 1]);
      CommandAccounting.RunKeepsAccounted(init, steps[..|steps| - 1]);
      StepKeepsTimes(After(init, steps[..|steps| - 1]), steps[|steps| - 1]);
    }
  }

  /** In every run a sweep leaves every command alone whose age is at most the timeout, however late its
      UPDATE runs; and it takes a SENT one exactly if the command was older than the timeout when the
      sweep read the clock. */
  lemma SweepSparesYoung(init: State, steps: seq<Step>, id: CommandId)
    requires Fresh(init) && id in After(init, steps).rows
    ensures
      var s := After(init, steps);
      var row, rows' := s.rows[id], Next(s, CommandRuns.SweepRuns).rows;
      && id in rows'
      && (s.now <= row.createdAt + init.timeout ==> rows'[id] == row)
      && (s.sweepClock.Some? && row.status == Sent ==>
            (rows'[id].status == Timeout <==> row.createdAt + init.timeout < s.sweepClock.value)
            && (rows'[id].status == Timeout ==> rows'[id].completedAt == Some(s.now)))
  {
    CommandLifecycle.RunKeepsRows(init, steps);
    var s := After(init, steps);
    CommandAccounting.RunKeepsAccounted(init, steps);
    StepMovesRow(s, CommandRuns.SweepRuns, id);
  }

  /** Time passes by as much as elapsed, and a sweep reads the clock as it stands. */
  lemma ClockMoves(s: State, elapsed: Time)
    ensures CommandRuns.Next(s, CommandRuns.Tick(elapsed)) == s.(now := s.now + elapsed)
    ensures s.sweepClock == None ==> CommandRuns.Next(s, CommandRuns.SweepReadsClock) == s.(sweepClock := Some(s.now))
    ensures s.sweepClock.Some? ==> CommandRuns.Next(s, CommandRuns.SweepRuns).lastSweep == s.sweepClock.value
  {
  }

  // ---------------------------------------------------------------- requests

  /** A request opens with its listing and nothing done; no other request is touched. */
  lemma OpeningStarts(s: State, r: nat, kind: string, payload: string, members: seq<Member>)
    requires r !in s.ledger.requests
    ensures
      var l' := Next(s, Open(r, kind, payload, members)).ledger;
      && l'.requests.Keys == s.ledger.requests.Keys + {r} && l'.made == s.ledger.made && l'.marks == s.ledger.marks
      && (forall p :: p in s.ledger.requests ==> l'.requests[p] == s.ledger.requests[p])
      && var q := l'.requests[r];
      && q.kind == kind && q.payload == payload && q.members == members && !q.marking && q.sent == 0
      && |q.inserts| == |q.logs| == |q.outcomes| == 0
  {
  }

  /** How far the request comes in a step: a scan ends with the INSERT's identity if the member was
      online and the identity is new, and without one otherwise; a dispatch records its outcome, after
      which nil waits for its mark; a mark counts the send. */
  predicate RequestMoves(s: State, step: Step, r: nat, q: Request, q': Request) {
    match step
    case Scan(p, inserted) =>
      if p == r && q.CanScan() then
        var kept := if s.ledger.Inserts(r, inserted) then inserted else None;
        && q'.inserts == q.inserts + [kept]
        && q'.logs == q.logs + (if kept.Some? then [Log(kept.value, q.members[|q.inserts|].device)] else [])
        && SameProgress(q, q') && SameRequest(q, q')
      else q' == q
    case Dispatch(p, isNil) =>
      if p == r && q.CanDispatch() then
        && q'.outcomes == q.outcomes + [isNil] && q'.marking == isNil && q'.sent == q.sent
        && q'.inserts == q.inserts && q'.logs == q.logs && SameRequest(q, q')
      else q' == q
    case Mark(p) =>
      if p == r && s.ledger.CanMark(r) then
        && !q'.marking && q'.sent == q.sent + 1 && q'.outcomes == q.outcomes
        && q'.inserts == q.inserts && q'.logs == q.logs && SameRequest(q, q')
      else q' == q
    case _ => q' == q
  }

  predicate SameRequest(q: Request, q': Request) {
    q'.kind == q.kind && q'.payload == q.payload && q'.members == q.members
  }

  predicate SameProgress(q: Request, q': Request) {
    q'.outcomes == q.outcomes && q'.marking == q.marking && q'.sent == q.sent
  }

  lemma StepMovesRequest(s: State, step: Step, r: nat)
    requires r in s.ledger.requests
    ensures r in Next(s, step).ledger.requests
    ensures RequestMoves(s, step, r, s.ledger.requests[r], Next(s, step).ledger.requests[r])
  {
    if step.Scan? {
      ScanMovesRequest(s, step.request, step.inserted, r);
    }
  }

  lemma ScanMovesRequest(s: State, p: nat, inserted: Option<CommandId>, r: nat)
    requires r in s.ledger.requests
    ensures r in s.ledger.Scan(p, inserted).requests
    ensures RequestMoves(s, CommandRuns.Scan(p, inserted), r, s.ledger.requests[r],
                         s.ledger.Scan(p, inserted).requests[r])
  {
  }

  /** A mark is recorded at its instant, once, and for no other command. */
  lemma MarkIsRecorded(s: State, r: nat, id: CommandId)
    requires s.ledger.CanMark(r)
    ensures
      var marks, marks' := s.ledger.marks, Next(s, CommandRuns.Mark(r)).ledger.marks;
      && marks'.Keys == marks.Keys
      && (id in marks ==> marks'[id] == marks[id] + (if s.ledger.requests[r].Marking() == id then [s.now] else []))
  {
  }

  /** The next step of a request whose INSERTs fail from now on and whose sends end with `isNil`. */
  function ToFinish(r: nat, q: Request, isNil: bool): Step
    requires !CommandAccounting.Finished(q)
  {
    if q.CanScan() then CommandRuns.Scan(r, None)
    else if q.marking then CommandRuns.Mark(r)
    else CommandRuns.Dispatch(r, isNil)
  }

  function StepsLeft(q: Request): int {
    (|q.members| - |q.inserts|) + 2 * (|q.logs| - |q.outcomes|) + (if q.marking then 1 else 0)
  }

  ghost predicate OwnSteps(run: seq<Step>, r: nat) {
    forall i :: 0 <= i < |run| ==>
      run[i] in {CommandRuns.Scan(r, None), CommandRuns.Mark(r), CommandRuns.Dispatch(r, true)}
  }

  lemma FinishingAdvances(s: State, r: nat)
    requires CommandAccounting.Accounted(s.ledger) && r in s.ledger.requests
    requires !CommandAccounting.Finished(s.ledger.requests[r])
    ensures
      var q := s.ledger.requests[r];
      var s' := Next(s, ToFinish(r, q, true));
      r in s'.ledger.requests && 0 <= StepsLeft(s'.ledger.requests[r]) < StepsLeft(q)
  {
    var q := s.ledger.requests[r];
    assert CommandAccounting.WellRun(q) && CommandAccounting.Tracked(s.ledger, r);
    if !q.CanScan() && q.marking {
      assert CommandAccounting.MarkedAsDue(s.ledger, q, r, |q.outcomes| - 1);
    }
    StepMovesRequest(s, ToFinish(r, q, true), r);
  }

  /** From every reachable state a request can run to its end by steps of its own: every member scanned,
      every log sent, every nil send marked. */
  lemma {:induction false} RequestCanFinish(s: State, r: nat) returns (run: seq<Step>)
    requires CommandAccounting.Accounted(s.ledger) && s.rows.Keys <= s.ledger.made.Keys && r in s.ledger.requests
    ensures OwnSteps(run, r)
    ensures r in After(s, run).ledger.requests && CommandAccounting.Finished(After(s, run).ledger.requests[r])
    decreases StepsLeft(s.ledger.requests[r])
  {
    var q := s.ledger.requests[r];
    if CommandAccounting.Finished(q) {
      run := [];
    } else {
      var step := ToFinish(r, q, true);
      FinishingAdvances(s, r);
      CommandAccounting.StepKeepsAccounted(s, step);
      var rest := RequestCanFinish(Next(s, step), r);
      run := [step] + rest;
      AfterFirst(s, step, rest);
    }
  }

  lemma {:induction false} AfterFirst(s: State, step: Step, rest: seq<Step>)
    ensures After(s, [step] + rest) == After(Next(s, step), rest)
  {
    var all := [step] + rest;
    if rest == [] {
      assert all[..0] == [];
    } else {
      assert all[..|all| - 1] == [step] + rest[..|rest| - 1];
      AfterFirst(s, step, rest[..|rest| - 1]);
    }
  }

  lemma RunningRequestCanFinish(init: State, steps: seq<Step>, r: nat) returns (run: seq<Step>)
    requires Fresh(init) && r in After(init, steps).ledger.requests
    ensures OwnSteps(run, r)
    ensures
      var l := After(After(init, steps), run).ledger;
      r in l.requests && CommandAccounting.Finished(l.requests[r])
  {
    CommandAccounting.RunKeepsAccounted(init, steps);
    run := RequestCanFinish(After(init, steps), r);
  }
}
