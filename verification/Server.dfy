/** The running server as one step machine. Each lock-protected section, SQL statement or
    connection write is one step, and every goroutine's steps interleave freely. */
module Server {
  import opened Base
  import opened Clients
  import opened Hubs
  import opened DeviceTable

  /** What a device handler's read pump is doing with the message it read. `RelayTo` sits between
      the session lookup and the frame write, `StopAfterFailure` between a failed write and the
      removal of the session; `at` is the length of the mirror history at the lookup. */
  datatype Work =
    | Heartbeat
    | ReportInfo(info: DeviceInfo)
    | Frame
    | RelayTo(dash: DashId, at: nat)
    | StopAfterFailure(dash: DashId, at: nat)

  /** Program counter of one device connection's handler, in the order it runs. */
  datatype Pc =
    | Arrived
    | MarkedOnline
    | Registered
    | Acked
    | Reading
    | Handling(work: Work)
    | Unregistering
    | Closing
    | GoingOffline
    | Returned

  datatype Conn = Conn(device: DeviceId, pc: Pc)

  /** Program counter of one dashboard connection's handler, from its registration on. */
  datatype DashPc = Looping | SessionsStopped | Left

  /** The history of everything that starts or ends a mirror session. */
  datatype MirrorEvent =
    | Started(device: DeviceId, dash: DashId)
    | Stopped(device: DeviceId)
    | Failed(device: DeviceId)
    | DashLeft(dash: DashId)

  /** A frame written to a dashboard, with the point of the history its lookup saw. */
  datatype Relay = Relay(device: DeviceId, dash: DashId, at: nat)

  /** The mirror history and the frames relayed so far. */
  datatype Trail = Trail(events: seq<MirrorEvent>, relays: seq<Relay>)
  {
    function Note(e: MirrorEvent): Trail {
      this.(events := events + [e])
    }
  }

  datatype State = State(
    hub: HubState<ConnId>,
    conns: map<ConnId, Conn>,
    dashes: map<DashId, DashPc>,
    held: map<nat, (ConnId, Msg)>,
    trail: Trail,
    table: Table)

  datatype DeviceAct =
    | GoOnline
    | Register
    | SendAck(pickQueue: bool)
    | StartPumps
    | Receive(work: Work)
    | DoWork(writeOk: bool)
    | ReadError
    | Unregister
    | TrailingClose
    | GoOffline

  datatype DashAct =
    | Start(device: DeviceId)
    | Stop(device: DeviceId)
    | StopSessions(picks: set<DeviceId>)
    | UnregisterSelf

  datatype Step =
    | Accept(conn: ConnId, device: DeviceId)
    | Handler(conn: ConnId, act: DeviceAct)
    | Pump(conn: ConnId, pump: PumpStep)
    | OpenDash(dash: DashId)
    | Dashboard(dash: DashId, dashAct: DashAct)
    | LookUp(sender: nat, device: DeviceId, msg: Msg)
    | DeliverHeld(sender: nat, pickQueue: bool)
    | Sql(tableStep: TableStep)

  /** A server just started over whatever the devices table holds. */
  function Init(devices: Devices, offlineAfter: Time, now: Time): State {
    State(HubState(map[], map[], {}, map[]), map[], map[], map[], Trail([], []),
          Table(devices, offlineAfter, now, None, None))
  }

  function At(s: State, k: ConnId, pc: Pc): State
    requires k in s.conns
  {
    s.(conns := s.conns[k := s.conns[k].(pc := pc)])
  }

  /** The work a device message causes once the hub has handed it to the callback. */
  function WorkNext(s: State, k: ConnId, work: Work, writeOk: bool): State
    requires k in s.conns
  {
    var d := s.conns[k].device;
    match work
    case Heartbeat => At(s, k, Reading).(table := s.table.Online(d, true))
    case ReportInfo(info) => At(s, k, Reading).(table := s.table.Report(d, info))
    case Frame =>
      if d in s.hub.sessions then At(s, k, Handling(RelayTo(s.hub.sessions[d], |s.trail.events|)))
      else At(s, k, Reading)
    case RelayTo(x, at) =>
      if writeOk then At(s, k, Reading).(trail := s.trail.(relays := s.trail.relays + [Relay(d, x, at)]))
      else At(s, k, Handling(StopAfterFailure(x, at)))
    case StopAfterFailure(_, _) =>
      At(s, k, Reading).(hub := s.hub.StopMirrorSession(d), trail := s.trail.Note(Failed(d)))
  }

  function DeviceNext(s: State, k: ConnId, act: DeviceAct): State
    requires k in s.conns
  {
    var d, pc := s.conns[k].device, s.conns[k].pc;
    match act
    case GoOnline => if pc == Arrived then At(s, k, MarkedOnline).(table := s.table.Online(d, true)) else s
    case Register =>
      if pc == MarkedOnline then At(s, k, Registered).(hub := s.hub.RegisterDevice(k, NewClient(d))) else s
    case SendAck(pick) => if pc == Registered then At(s, k, Acked).(hub := s.hub.Deliver(k, Ack, pick)) else s
    case StartPumps => if pc == Acked then At(s, k, Reading).(hub := PumpClient(s.hub, k, Begin)) else s
    case Receive(work) =>
      if pc == Reading && !work.RelayTo? && !work.StopAfterFailure? then At(s, k, Handling(work)) else s
    case DoWork(writeOk) => if pc.Handling? then WorkNext(s, k, pc.work, writeOk) else s
    case ReadError => if pc == Reading then At(s, k, Unregistering) else s
    case Unregister => if pc == Unregistering then At(s, k, Closing).(hub := s.hub.UnregisterDevice(d)) else s
    case TrailingClose => if pc == Closing then At(s, k, GoingOffline).(hub := s.hub.CloseClient(k)) else s
    case GoOffline => if pc == GoingOffline then At(s, k, Returned).(table := s.table.Online(d, false)) else s
  }

  function PumpClient(hub: HubState<ConnId>, k: ConnId, step: PumpStep): HubState<ConnId> {
    if k in hub.clients then hub.(clients := hub.clients[k := hub.clients[k].PumpNext(step)]) else hub
  }

  function DashNext(s: State, x: DashId, act: DashAct): State
    requires x in s.dashes
  {
    var looping := s.dashes[x] == Looping;
    match act
    case Start(d) =>
      if looping then s.(hub := s.hub.StartMirrorSession(d, x), trail := s.trail.Note(Started(d, x))) else s
    case Stop(d) =>
      if looping then s.(hub := s.hub.StopMirrorSession(d), trail := s.trail.Note(Stopped(d))) else s
    case StopSessions(picks) =>
      if looping then
        s.(hub := s.hub.StopMirrorSessionsForDashboard(x, picks), trail := s.trail.Note(DashLeft(x)),
           dashes := s.dashes[x := SessionsStopped])
      else s
    case UnregisterSelf =>
      if s.dashes[x] == SessionsStopped then
        s.(hub := s.hub.UnregisterDashboard(x), dashes := s.dashes[x := Left])
      else s
  }

  /** One step; a step that is not enabled changes nothing, so every step sequence is a run. */
  function Next(s: State, step: Step): State {
    match step
    case Accept(k, d) => if k in s.conns then s else s.(conns := s.conns[k := Conn(d, Arrived)])
    case Handler(k, act) => if k in s.conns then DeviceNext(s, k, act) else s
    case Pump(k, p) => if p == Begin then s else s.(hub := PumpClient(s.hub, k, p))
    case OpenDash(x) =>
      if x in s.dashes then s
      else s.(hub := s.hub.RegisterDashboard(x), dashes := s.dashes[x := Looping])
    case Dashboard(x, act) => if x in s.dashes then DashNext(s, x, act) else s
    case LookUp(t, d, msg) =>
      if t in s.held || d !in s.hub.current then s
      else s.(held := s.held[t := (s.hub.current[d], msg)])
    case DeliverHeld(t, pick) =>
      if t !in s.held then s
      else s.(hub := s.hub.Deliver(s.held[t].0, s.held[t].1, pick), held := s.held - {t})
    case Sql(t) => s.(table := TableNext(s.table, t))
  }

  function After(init: State, steps: seq<Step>): State {
    if steps == [] then init else Next(After(init, steps[..|steps| - 1]), steps[|steps| - 1])
  }

  lemma AfterOneMore(s: State, steps: seq<Step>, step: Step)
    ensures After(s, steps + [step]) == Next(After(s, steps), step)
  {
    assert (steps + [step])[..|steps|] == steps;
  }

  lemma {:induction false} AfterSplit(s: State, first: seq<Step>, rest: seq<Step>)
    ensures After(s, first + rest) == After(After(s, first), rest)
  {
    var all := first + rest;
    if rest == [] {
      assert all == first;
    } else {
      assert all[..|all| - 1] == first + rest[..|rest| - 1];
      AfterSplit(s, first, rest[..|rest| - 1]);
    }
  }

  ghost predicate Fresh(s: State) {
    s == Init(s.table.devices, s.table.offlineAfter, s.table.now)
  }
}
