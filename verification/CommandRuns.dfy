/** The command lifecycle as a step machine: dispatching requests, device results and the timeout
    sweep interleave freely. */
module CommandRuns {
  import opened Base
  import opened CommandLogs
  import opened CommandTable
  import opened DeviceTable

  /** One dispatch request. `members` is the group listing it read (a single-device request lists
      one member), `inserts` how each scanned member ended, `logs` the commands created, `outcomes`
      whether SendToDevice returned nil for each dispatched log; `marking` is set between such a nil
      and its MarkSent. */
  datatype Request = Request(
    kind: string,
    payload: string,
    members: seq<Member>,
    inserts: seq<Option<CommandId>>,
    logs: seq<Log>,
    outcomes: seq<bool>,
    marking: bool,
    sent: nat)
  {
    predicate CanScan() {
      |inserts| < |members|
    }

    function Scan(inserted: Option<CommandId>): Request
      requires CanScan()
    {
      this.(inserts := inserts + [inserted],
            logs := if inserted.Some? then logs + [Log(inserted.value, members[|inserts|].device)] else logs)
    }

    predicate CanDispatch() {
      !CanScan() && !marking && |outcomes| < |logs|
    }

    function Dispatch(isNil: bool): Request {
      this.(outcomes := outcomes + [isNil], marking := isNil)
    }

    predicate CanMark() {
      marking && 0 < |outcomes| <= |logs|
    }

    /** The log whose send has just returned nil and that MarkSent is about to mark. */
    function Marking(): CommandId
      requires CanMark()
    {
      logs[|outcomes| - 1].id
    }

    function Mark(): Request {
      this.(marking := false, sent := sent + 1)
    }
  }

  /** All requests; `made` records which request created a command and at which place of its logs,
      `marks` every execution of SetSent for a command. */
  datatype Ledger = Ledger(
    requests: map<nat, Request>,
    made: map<CommandId, (nat, nat)>,
    marks: map<CommandId, seq<Time>>)
  {
    /** The member the request scans next is online and its INSERT yields a new identity. */
    predicate Inserts(r: nat, inserted: Option<CommandId>) {
      && r in requests && requests[r].CanScan()
      && requests[r].members[|requests[r].inserts|].online
      && inserted.Some? && inserted.value !in made
    }

    function Scan(r: nat, inserted: Option<CommandId>): Ledger {
      if Inserts(r, inserted) then
        Ledger(requests[r := requests[r].Scan(inserted)],
               made[inserted.value := (r, |requests[r].logs|)],
               marks[inserted.value := []])
      else if r in requests && requests[r].CanScan() then
        this.(requests := requests[r := requests[r].Scan(None)])
      else
        this
    }

    function Dispatch(r: nat, isNil: bool): Ledger {
      if r in requests && requests[r].CanDispatch()
      then this.(requests := requests[r := requests[r].Dispatch(isNil)]) else this
    }

    predicate CanMark(r: nat) {
      r in requests && requests[r].CanMark() && requests[r].Marking() in marks
    }

    function Mark(r: nat, now: Time): Ledger
      requires CanMark(r)
    {
      var id := requests[r].Marking();
      this.(requests := requests[r := requests[r].Mark()], marks := marks[id := marks[id] + [now]])
    }
  }

  /** A device result between HandleResult's read of the row and its UPDATE. */
  datatype PendingResult = PendingResult(id: CommandId, verdict: Verdict)

  /** `lastSweep` is the clock reading of the last completed sweep, or the start of the worker. */
  datatype State = State(
    rows: Rows,
    ledger: Ledger,
    results: map<nat, PendingResult>,
    timeout: Time,
    now: Time,
    sweepClock: Option<Time>,
    lastSweep: Time)

  datatype Step =
    | Open(request: nat, kind: string, payload: string, members: seq<Member>)
    | Scan(request: nat, inserted: Option<CommandId>)
    | Dispatch(request: nat, isNil: bool)
    | Mark(request: nat)
    | Fetch(worker: nat, id: CommandId, verdict: Verdict)
    | Save(worker: nat)
    | Tick(elapsed: Time)
    | SweepReadsClock
    | SweepRuns
    | RemoveDevice(device: DeviceId)

  function Init(timeout: Time, now: Time): State {
    State(map[], Ledger(map[], map[], map[]), map[], timeout, now, None, now)
  }

  function Opened(l: Ledger, r: nat, kind: string, payload: string, members: seq<Member>): Ledger {
    if r in l.requests then l
    else l.(requests := l.requests[r := Request(kind, payload, members, [], [], [], false, 0)])
  }

  function ScanRows(s: State, r: nat, inserted: Option<CommandId>): Rows {
    if s.ledger.Inserts(r, inserted) then
      var q := s.ledger.requests[r];
      s.rows[inserted.value := NewLog(q.members[|q.inserts|].device, q.kind, q.payload, s.now)]
    else s.rows
  }

  /** One step; a step that is not enabled changes nothing, so every step sequence is a run. */
  function Next(s: State, step: Step): State {
    match step
    case Open(r, kind, payload, members) => s.(ledger := Opened(s.ledger, r, kind, payload, members))
    case Scan(r, inserted) => s.(rows := ScanRows(s, r, inserted), ledger := s.ledger.Scan(r, inserted))
    case Dispatch(r, isNil) => s.(ledger := s.ledger.Dispatch(r, isNil))
    case Mark(r) =>
      if !s.ledger.CanMark(r) then s
      else s.(rows := WithSent(s.rows, s.ledger.requests[r].Marking()), ledger := s.ledger.Mark(r, s.now))
    case Fetch(t, id, verdict) =>
      if t in s.results || id !in s.rows then s else s.(results := s.results[t := PendingResult(id, verdict)])
    case Save(t) =>
      if t !in s.results then s
      else s.(rows := WithVerdict(s.rows, s.results[t].id, s.results[t].verdict, s.now), results := s.results - {t})
    case Tick(elapsed) => s.(now := s.now + elapsed)
    case SweepReadsClock => if s.sweepClock == None then s.(sweepClock := Some(s.now)) else s
    case SweepRuns =>
      if s.sweepClock == None then s
      else s.(rows := WithTimeouts(s.rows, s.sweepClock.value - s.timeout, s.now),
              lastSweep := s.sweepClock.value, sweepClock := None)
    case RemoveDevice(d) => s.(rows := WithoutDevice(s.rows, d))
  }

  function After(init: State, steps: seq<Step>): State {
    if steps == [] then init else Next(After(init, steps[..|steps| - 1]), steps[|steps| - 1])
  }

  ghost predicate Fresh(s: State) {
    s == Init(s.timeout, s.now)
  }
}
