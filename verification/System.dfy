/** The server and its commands together: what a command's status says about its delivery. Both work
    on one devices table, one clock and one hub. */
module System {
  import opened Base
  import opened Clients
  import opened Hubs
  import opened CommandLogs
  import opened Deliveries
  import opened DeviceTable
  import Server
  import ServerRegistry
  import ServerQueues
  import CommandTable
  import CommandRuns
  import CommandAccounting
  import CommandLifecycle

  /** Both machines side by side. `waiting` names, for a request in the middle of SendToDevice, the
      sender of the server that holds the client its lookup found. */
  datatype State = State(server: Server.State, commands: CommandRuns.State, waiting: map<nat, nat>)

  datatype Step =
    | Serve(server: Server.Step)
    | Run(command: CommandRuns.Step)
    | OpenFor(request: nat, kind: string, payload: string, device: DeviceId)
    | OpenForGroup(request: nat, kind: string, payload: string, group: nat, members: seq<Member>)
    | Elapse(elapsed: Time)
    | Remove(device: DeviceId)
    | LookUpFor(request: nat, sender: nat)
    | DeliverFor(request: nat, pickQueue: bool)

  /** Steps of one half that are taken together with the other: requests list the devices table, time
      passes for both, and deleting a device takes its commands with it. */
  predicate IsJoint(step: CommandRuns.Step) {
    step.Dispatch? || step.Open? || step.Tick? || step.RemoveDevice?
  }

  predicate IsShared(step: Server.Step) {
    step.Sql? && (step.tableStep.Tick? || step.tableStep.RemoveDevice?)
  }

  /** An INSERT for a device deleted since it was listed fails. */
  function Checked(s: State, step: CommandRuns.Step): CommandRuns.Step {
    if step.Scan? && s.commands.ledger.Inserts(step.request, step.inserted) then
      var q := s.commands.ledger.requests[step.request];
      if q.members[|q.inserts|].device in s.server.table.devices then step else CommandRuns.Scan(step.request, None)
    else step
  }

  /** Steps of the server that only a dispatching request takes: commands reach devices no other way. */
  predicate CarriesCommand(server: Server.State, step: Server.Step) {
    || (step.LookUp? && step.msg.Command?)
    || (step.DeliverHeld? && step.sender in server.held && server.held[step.sender].1.Command?)
  }

  predicate LooksUp(s: State, r: nat, t: nat) {
    && r in s.commands.ledger.requests && s.commands.ledger.requests[r].CanDispatch()
    && r !in s.waiting && t !in s.server.held
  }

  predicate Delivers(s: State, r: nat) {
    && r in s.waiting && s.waiting[r] in s.server.held
    && s.server.held[s.waiting[r]].0 in s.server.hub.clients
  }

  /** The part of a step the server takes. */
  function ServerMove(s: State, step: Step): Option<Server.Step> {
    match step
    case Serve(t) => if CarriesCommand(s.server, t) || IsShared(t) then None else Some(t)
    case Elapse(elapsed) => Some(Server.Sql(DeviceTable.Tick(elapsed)))
    case Remove(d) => Some(Server.Sql(DeviceTable.RemoveDevice(d)))
    case LookUpFor(r, t) =>
      if LooksUp(s, r, t) then
        var log := NextLog(s.commands.ledger.requests[r]);
        Some(Server.LookUp(t, log.device, Command(log.id)))
      else None
    case DeliverFor(r, pick) => if Delivers(s, r) then Some(Server.DeliverHeld(s.waiting[r], pick)) else None
    case _ => None
  }

  /** The part of a step the commands take: a dispatch ends as SendToDevice returns, with an error
      when no client is found or the client refuses. */
  function CommandMove(s: State, step: Step): Option<CommandRuns.Step> {
    match step
    case Serve(_) => None
    case Run(t) => if IsJoint(t) then None else Some(Checked(s, t))
    case OpenFor(r, kind, payload, d) =>
      if d in s.server.table.devices
      then Some(CommandRuns.Open(r, kind, payload, [Member(d, s.server.table.devices[d].online)])) else None
    case OpenForGroup(r, kind, payload, group, members) =>
      if IsListing(s.server.table.devices, group, members)
      then Some(CommandRuns.Open(r, kind, payload, members)) else None
    case Elapse(elapsed) => Some(CommandRuns.Tick(elapsed))
    case Remove(d) => Some(CommandRuns.RemoveDevice(d))
    case LookUpFor(r, t) =>
      if LooksUp(s, r, t) && NextLog(s.commands.ledger.requests[r]).device !in s.server.hub.current
      then Some(CommandRuns.Dispatch(r, false)) else None
    case DeliverFor(r, pick) =>
      if Delivers(s, r)
      then Some(CommandRuns.Dispatch(r, s.server.hub.clients[s.server.held[s.waiting[r]].0].Select(pick) != Refused))
      else None
  }

  function Waiting(s: State, step: Step): map<nat, nat> {
    match step
    case LookUpFor(r, t) =>
      if LooksUp(s, r, t) && NextLog(s.commands.ledger.requests[r]).device in s.server.hub.current
      then s.waiting[r := t] else s.waiting
    case DeliverFor(r, _) => if Delivers(s, r) then s.waiting - {r} else s.waiting
    case _ => s.waiting
  }

  function Served(server: Server.State, move: Option<Server.Step>): Server.State {
    if move.Some? then Server.Next(server, move.value) else server
  }

  function Ran(commands: CommandRuns.State, move: Option<CommandRuns.Step>): CommandRuns.State {
    if move.Some? then CommandRuns.Next(commands, move.value) else commands
  }

  function Next(s: State, step: Step): State {
    State(Served(s.server, ServerMove(s, step)), Ran(s.commands, CommandMove(s, step)), Waiting(s, step))
  }

  function After(init: State, steps: seq<Step>): State {
    if steps == [] then init else Next(After(init, steps[..|steps| - 1]), steps[|steps| - 1])
  }

  ghost predicate Fresh(s: State) {
    && Server.Fresh(s.server) && CommandRuns.Fresh(s.commands) && s.waiting == map[]
    && s.server.table.now == s.commands.now
  }

  // ---------------------------------------------------------------- projections

  function Listed<T>(move: Option<T>): seq<T> {
    if move.Some? then [move.value] else []
  }

  /** The run of the server inside a run of the system. */
  function ServerRun(init: State, steps: seq<Step>): seq<Server.Step> {
    if steps == [] then []
    else
      var before := steps[..|steps| - 1];
      ServerRun(init, before) + Listed(ServerMove(After(init, before), steps[|steps| - 1]))
  }

  /** The run of the commands inside a run of the system. */
  function CommandRun(init: State, steps: seq<Step>): seq<CommandRuns.Step> {
    if steps == [] then []
    else
      var before := steps[..|steps| - 1];
      CommandRun(init, before) + Listed(CommandMove(After(init, before), steps[|steps| - 1]))
  }

  lemma ServerTakes(init: Server.State, run: seq<Server.Step>, move: Option<Server.Step>)
    ensures Server.After(init, run + Listed(move)) == Served(Server.After(init, run), move)
  {
    if move.Some? {
      assert (run + [move.value])[..|run|] == run;
    } else {
      assert run + [] == run;
    }
  }

  lemma CommandsTake(init: CommandRuns.State, run: seq<CommandRuns.Step>, move: Option<CommandRuns.Step>)
    ensures CommandRuns.After(init, run + Listed(move)) == Ran(CommandRuns.After(init, run), move)
  {
    if move.Some? {
      assert (run + [move.value])[..|run|] == run;
    } else {
      assert run + [] == run;
    }
  }

  /** Each half of a run of the system is a run of its own machine, so whatever is proved of every run
      of the server or of the commands holds in the system. */
  lemma {:induction false} RunsProject(init: State, steps: seq<Step>)
    ensures After(init, steps).server == Server.After(init.server, ServerRun(init, steps))
    ensures After(init, steps).commands == CommandRuns.After(init.commands, CommandRun(init, steps))
  {
    if steps != [] {
      var before, last := steps[..|steps| - 1], steps[|steps| - 1];
      RunsProject(init, before);
      ServerTakes(init.server, ServerRun(init, before), ServerMove(After(init, before), last));
      CommandsTake(init.commands, CommandRun(init, before), CommandMove(After(init, before), last));
    }
  }

  // ---------------------------------------------------------------- the server's other steps

  lemma DeliveryIsQuiet(hub: HubState<ConnId>, k: ConnId, msg: Msg, pick: bool)
    requires !msg.Command?
    ensures GrowsQuietly(hub.clients, hub.Deliver(k, msg, pick).clients)
  {
  }

  lemma PumpIsQuiet(hub: HubState<ConnId>, k: ConnId, step: PumpStep)
    ensures GrowsQuietly(hub.clients, Server.PumpClient(hub, k, step).clients)
  {
  }

  lemma ClosingIsQuiet(hub: HubState<ConnId>, k: ConnId)
    ensures GrowsQuietly(hub.clients, hub.CloseClient(k).clients)
  {
  }

  lemma UnregisteringIsQuiet(hub: HubState<ConnId>, d: DeviceId)
    ensures GrowsQuietly(hub.clients, hub.UnregisterDevice(d).clients)
  {
    if d in hub.current {
      ClosingIsQuiet(hub, hub.current[d]);
    }
  }

  lemma RegisteringIsQuiet(hub: HubState<ConnId>, k: ConnId, d: DeviceId)
    requires k !in hub.clients
    ensures GrowsQuietly(hub.clients, hub.RegisterDevice(k, NewClient(d)).clients)
  {
    if d in hub.current {
      ClosingIsQuiet(hub.(clients := hub.clients[k := NewClient(d)]), hub.current[d]);
    }
  }

  lemma CleanupIsQuiet(hub: HubState<ConnId>, x: DashId, picks: set<DeviceId>)
    ensures GrowsQuietly(hub.clients, hub.StopMirrorSessionsForDashboard(x, picks).clients)
  {
  }

  lemma ActIsQuiet(s: Server.State, k: ConnId, act: Server.DeviceAct)
    requires ServerRegistry.RegistryInv(s) && k in s.conns
    ensures GrowsQuietly(s.hub.clients, Server.DeviceNext(s, k, act).hub.clients)
  {
    if act.Register? {
      if s.conns[k].pc == Server.MarkedOnline {
        RegisteringIsQuiet(s.hub, k, s.conns[k].device);
      }
    } else if act.Unregister? {
      UnregisteringIsQuiet(s.hub, s.conns[k].device);
    } else if act.TrailingClose? {
      ClosingIsQuiet(s.hub, k);
    } else if act.SendAck? {
      DeliveryIsQuiet(s.hub, k, Ack, act.pickQueue);
    } else if act.StartPumps? {
      PumpIsQuiet(s.hub, k, Begin);
    }
  }

  lemma DashIsQuiet(s: Server.State, x: DashId, act: Server.DashAct)
    requires x in s.dashes
    ensures GrowsQuietly(s.hub.clients, Server.DashNext(s, x, act).hub.clients)
  {
    if act.StopSessions? {
      CleanupIsQuiet(s.hub, x, act.picks);
    }
  }

  /** A step of the server outside the requests offers no command to anyone. */
  lemma ServeIsQuiet(s: Server.State, step: Server.Step)
    requires ServerRegistry.RegistryInv(s) && !CarriesCommand(s, step)
    ensures GrowsQuietly(s.hub.clients, Server.Next(s, step).hub.clients)
  {
    match step {
      case Handler(k, act) =>
        if k in s.conns {
          ActIsQuiet(s, k, act);
        }
      case Pump(k, p) => PumpIsQuiet(s.hub, k, p);
      case Dashboard(x, act) =>
        if x in s.dashes {
          DashIsQuiet(s, x, act);
        }
      case DeliverHeld(t, pick) =>
        if t in s.held {
          DeliveryIsQuiet(s.hub, s.held[t].0, s.held[t].1, pick);
        }
      case _ =>
    }
  }

  lemma ServeKeepsHeldCommands(s: Server.State, step: Server.Step, t: nat)
    requires !CarriesCommand(s, step) && t in s.held && s.held[t].1.Command?
    ensures t in Server.Next(s, step).held && Server.Next(s, step).held[t] == s.held[t]
  {
  }

  // ---------------------------------------------------------------- requests between lookup and send

  /** Sender `t` holds the request's next command and a client of its device. */
  predicate Holds(server: Server.State, l: CommandRuns.Ledger, r: nat, t: nat) {
    && t in server.held
    && MayOffer(server.hub.clients, l, r, server.held[t].0)
    && server.held[t].1 == Command(NextLog(l.requests[r]).id)
  }

  ghost predicate AllHold(server: Server.State, l: CommandRuns.Ledger, waiting: map<nat, nat>) {
    && (forall r :: r in waiting ==> Holds(server, l, r, waiting[r]))
    && (forall r, p :: r in waiting && p in waiting && waiting[r] == waiting[p] ==> r == p)
  }

  ghost predicate SystemOk(s: State) {
    && Linked(s.server.hub.clients, s.commands.ledger)
    && AllHold(s.server, s.commands.ledger, s.waiting)
  }

  /** What the projections give about both halves. */
  ghost predicate PartsOk(s: State) {
    ServerRegistry.RegistryInv(s.server) && CommandAccounting.Accounted(s.commands.ledger)
  }

  lemma ServeKeepsSystem(s: State, t: Server.Step)
    requires SystemOk(s) && PartsOk(s) && !CarriesCommand(s.server, t)
    ensures SystemOk(s.(server := Server.Next(s.server, t)))
  {
    var server' := Server.Next(s.server, t);
    ServeIsQuiet(s.server, t);
    GrowingKeepsLinked(s.server.hub.clients, server'.hub.clients, s.commands.ledger);
    forall r | r in s.waiting ensures Holds(server', s.commands.ledger, r, s.waiting[r]) {
      assert Holds(s.server, s.commands.ledger, r, s.waiting[r]);
      ServeKeepsHeldCommands(s.server, t, s.waiting[r]);
      assert QuietlyExtends(s.server.hub.clients[s.server.held[s.waiting[r]].0],
                            server'.hub.clients[s.server.held[s.waiting[r]].0]);
    }
  }

  lemma RunKeepsSystem(s: State, t: CommandRuns.Step)
    requires SystemOk(s) && PartsOk(s) && !t.Dispatch?
    ensures SystemOk(s.(commands := CommandRuns.Next(s.commands, t)))
  {
    var l' := CommandRuns.Next(s.commands, t).ledger;
    OtherStepsDispatchNothing(s.commands, t);
    DispatchingNothingKeepsLinked(s.server.hub.clients, s.commands.ledger, l');
    forall r | r in s.waiting ensures Holds(s.server, l', r, s.waiting[r]) {
      assert Holds(s.server, s.commands.ledger, r, s.waiting[r]);
    }
  }

  lemma FailedLookupKeepsSystem(s: State, r: nat)
    requires SystemOk(s) && r !in s.waiting
    requires r in s.commands.ledger.requests && s.commands.ledger.requests[r].CanDispatch()
    ensures SystemOk(s.(commands := CommandRuns.Next(s.commands, CommandRuns.Dispatch(r, false))))
  {
    FailedLookupKeepsLinked(s.server.hub.clients, s.commands.ledger, r);
    forall p | p in s.waiting ensures Holds(s.server, s.commands.ledger.Dispatch(r, false), p, s.waiting[p]) {
      assert Holds(s.server, s.commands.ledger, p, s.waiting[p]);
    }
  }

  lemma LookUpKeepsSystem(s: State, r: nat, t: nat, log: Log)
    requires SystemOk(s) && s.server.hub.Keyed() && LooksUp(s, r, t)
    requires log == NextLog(s.commands.ledger.requests[r]) && log.device in s.server.hub.current
    ensures SystemOk(State(Server.Next(s.server, Server.LookUp(t, log.device, Command(log.id))), s.commands,
                           s.waiting[r := t]))
  {
    forall p | p in s.waiting ensures s.waiting[p] != t {
      assert Holds(s.server, s.commands.ledger, p, s.waiting[p]);
    }
  }

  lemma OthersStillHold(server: Server.State, l: CommandRuns.Ledger, waiting: map<nat, nat>, r: nat, pick: bool,
                        isNil: bool)
    requires AllHold(server, l, waiting) && r in waiting
    ensures AllHold(Server.Next(server, Server.DeliverHeld(waiting[r], pick)), l.Dispatch(r, isNil), waiting - {r})
  {
    var server' := Server.Next(server, Server.DeliverHeld(waiting[r], pick));
    forall p | p in waiting - {r} ensures Holds(server', l.Dispatch(r, isNil), p, waiting[p]) {
      assert Holds(server, l, p, waiting[p]);
    }
  }

  /** What the delivery of a held command changes on both sides. */
  lemma DeliveringMoves(s: State, r: nat, pick: bool)
    requires Delivers(s, r) && Holds(s.server, s.commands.ledger, r, s.waiting[r])
    ensures
      var k, l, clients := s.server.held[s.waiting[r]].0, s.commands.ledger, s.server.hub.clients;
      var s' := Next(s, DeliverFor(r, pick));
      && s'.server.hub.clients == clients[k := clients[k].Send(Command(NextLog(l.requests[r]).id), pick)]
      && s'.commands.ledger == l.Dispatch(r, clients[k].Select(pick) != Refused)
      && s'.server == Server.Next(s.server, Server.DeliverHeld(s.waiting[r], pick))
      && s'.waiting == s.waiting - {r}
  {
  }

  lemma DeliverKeepsLinked(s: State, r: nat, pick: bool)
    requires SystemOk(s) && PartsOk(s) && Delivers(s, r)
    ensures Linked(Next(s, DeliverFor(r, pick)).server.hub.clients, Next(s, DeliverFor(r, pick)).commands.ledger)
  {
    DeliveringMoves(s, r, pick);
    DeliveryKeepsLinked(s.server.hub.clients, s.commands.ledger, r, s.server.held[s.waiting[r]].0, pick);
  }

  lemma DeliverKeepsHolding(s: State, r: nat, pick: bool)
    requires AllHold(s.server, s.commands.ledger, s.waiting) && Delivers(s, r)
    ensures
      var s' := Next(s, DeliverFor(r, pick));
      AllHold(s'.server, s'.commands.ledger, s'.waiting)
  {
    DeliveringMoves(s, r, pick);
    var isNil := s.server.hub.clients[s.server.held[s.waiting[r]].0].Select(pick) != Refused;
    OthersStillHold(s.server, s.commands.ledger, s.waiting, r, pick, isNil);
  }

  lemma DeliverKeepsSystem(s: State, r: nat, pick: bool)
    requires SystemOk(s) && PartsOk(s)
    ensures SystemOk(Next(s, DeliverFor(r, pick)))
  {
    if Delivers(s, r) {
      DeliverKeepsLinked(s, r, pick);
      DeliverKeepsHolding(s, r, pick);
    }
  }

  lemma LookingUpMoves(s: State, r: nat, t: nat)
    requires LooksUp(s, r, t)
    ensures
      var log := NextLog(s.commands.ledger.requests[r]);
      var found := Server.Next(s.server, Server.LookUp(t, log.device, Command(log.id)));
      Next(s, LookUpFor(r, t))
      == if log.device in s.server.hub.current then State(found, s.commands, s.waiting[r := t])
         else s.(commands := CommandRuns.Next(s.commands, CommandRuns.Dispatch(r, false)))
  {
  }

  /** A request that finds a client holds it, together with its command, until it delivers; one that
      finds none has failed to send, and the hub is untouched either way. */
  lemma LookupFinds(s: State, r: nat, t: nat)
    requires r in s.commands.ledger.requests && s.commands.ledger.requests[r].CanDispatch()
    requires r !in s.waiting && t !in s.server.held
    ensures
      var log, s' := NextLog(s.commands.ledger.requests[r]), Next(s, LookUpFor(r, t));
      && s'.server.hub == s.server.hub
      && if log.device in s.server.hub.current then
           && r in s'.waiting && s'.waiting[r] == t
           && t in s'.server.held && s'.server.held[t] == (s.server.hub.current[log.device], Command(log.id))
           && s'.commands == s.commands
         else
           && s'.waiting == s.waiting && s'.server == s.server
           && s'.commands.ledger.requests[r].outcomes == s.commands.ledger.requests[r].outcomes + [false]
  {
    LookingUpMoves(s, r, t);
  }

  /** Requests open with what the devices table shows right then. */
  lemma RequestsOpenFromTable(s: State, r: nat, kind: string, payload: string, d: DeviceId, group: nat,
                              members: seq<Member>)
    requires r !in s.commands.ledger.requests
    ensures d in s.server.table.devices ==>
              var l' := Next(s, OpenFor(r, kind, payload, d)).commands.ledger;
              r in l'.requests && l'.requests[r].members == [Member(d, s.server.table.devices[d].online)]
    ensures IsListing(s.server.table.devices, group, members) ==>
              var l' := Next(s, OpenForGroup(r, kind, payload, group, members)).commands.ledger;
              r in l'.requests && l'.requests[r].members == members
  {
  }

  /** Every step of either half that is not taken together with the other is a step of the system; only
      an INSERT for a device that is gone fails. */
  lemma OwnStepsAreTaken(s: State, t: Server.Step, u: CommandRuns.Step)
    ensures !CarriesCommand(s.server, t) && !IsShared(t) ==>
              Next(s, Serve(t)) == s.(server := Server.Next(s.server, t))
    ensures !IsJoint(u) && (u.Scan? ==> u.inserted == None || InsertsForKnownDevice(s, u.request)) ==>
              Next(s, Run(u)) == s.(commands := CommandRuns.Next(s.commands, u))
  {
  }

  predicate InsertsForKnownDevice(s: State, r: nat) {
    && r in s.commands.ledger.requests && s.commands.ledger.requests[r].CanScan()
    && var q := s.commands.ledger.requests[r];
    q.members[|q.inserts|].device in s.server.table.devices
  }

  lemma LookUpForKeepsSystem(s: State, r: nat, t: nat)
    requires SystemOk(s) && PartsOk(s)
    ensures SystemOk(Next(s, LookUpFor(r, t)))
  {
    if LooksUp(s, r, t) {
      LookingUpMoves(s, r, t);
      var log := NextLog(s.commands.ledger.requests[r]);
      if log.device in s.server.hub.current {
        LookUpKeepsSystem(s, r, t, log);
      } else {
        FailedLookupKeepsSystem(s, r);
      }
    }
  }

  /** A shared step moves the clock or the tables and nothing else. */
  lemma SharedKeepsSystem(s: State, t: Server.Step, u: CommandRuns.Step)
    requires SystemOk(s) && PartsOk(s) && IsShared(t) && !u.Dispatch?
    ensures SystemOk(State(Server.Next(s.server, t), CommandRuns.Next(s.commands, u), s.waiting))
  {
    ServeKeepsSystem(s, t);
    ServerRegistry.StepKeepsRegistry(s.server, t);
    RunKeepsSystem(s.(server := Server.Next(s.server, t)), u);
  }

  lemma StepKeepsSystem(s: State, step: Step)
    requires SystemOk(s) && PartsOk(s)
    ensures SystemOk(Next(s, step))
  {
    match step {
      case Serve(t) =>
        if !CarriesCommand(s.server, t) {
          ServeKeepsSystem(s, t);
        }
      case LookUpFor(r, t) => LookUpForKeepsSystem(s, r, t);
      case DeliverFor(r, pick) => DeliverKeepsSystem(s, r, pick);
      case Elapse(elapsed) =>
        SharedKeepsSystem(s, Server.Sql(DeviceTable.Tick(elapsed)), CommandRuns.Tick(elapsed));
      case Remove(d) =>
        SharedKeepsSystem(s, Server.Sql(DeviceTable.RemoveDevice(d)), CommandRuns.RemoveDevice(d));
      case _ =>
        if CommandMove(s, step).Some? {
          RunKeepsSystem(s, CommandMove(s, step).value);
        }
    }
  }

  lemma {:induction false} RunsKeepSystem(init: State, steps: seq<Step>)
    requires Fresh(init)
    ensures SystemOk(After(init, steps))
  {
    if steps != [] {
      var before := steps[..|steps| - 1];
      RunsKeepSystem(init, before);
      RunsProject(init, before);
      ServerRegistry.RunKeepsRegistry(init.server, ServerRun(init, before));
      CommandAccounting.RunKeepsAccounted(init.commands, CommandRun(init, before));
      StepKeepsSystem(After(init, before), steps[|steps| - 1]);
    }
  }

  // ---------------------------------------------------------------- what statuses say about delivery

  lemma {:induction false} QueuedIsAccepted(offers: seq<Offer>, j: nat)
    requires j < |offers| && offers[j].outcome == Queued
    ensures offers[j].msg in Accepted(offers)
  {
    var n := |offers| - 1;
    if j < n {
      QueuedIsAccepted(offers[..n], j);
    }
  }

  /** Where an offered command is by now: with the device, lost in the one failed write, on its way,
      or dropped because 64 messages were waiting. */
  predicate Accountable(c: ClientState, id: CommandId) {
    || Command(id) in c.written + c.lost + c.InFlight() + c.queue
    || Offer(Command(id), Dropped, true, SEND_BUFFER) in c.offers
  }

  ghost predicate Reached(clients: map<ConnId, ClientState>, device: DeviceId, id: CommandId) {
    exists k: ConnId :: k in clients && clients[k].device == device && Accountable(clients[k], id)
  }

  lemma OfferIsAccountable(clients: map<ConnId, ClientState>, k: ConnId, j: nat, id: CommandId)
    requires Offers(clients, k, j, id) && Conserved(clients[k]) && clients[k].offers[j].outcome != Refused
    ensures Accountable(clients[k], id)
  {
    var c := clients[k];
    assert Justified(c.offers[j]);
    if c.offers[j].outcome == Queued {
      QueuedIsAccepted(c.offers, j);
    } else {
      assert c.offers[j] == Offer(Command(id), Dropped, true, SEND_BUFFER);
    }
  }

  /** In every run of the whole system, over any interleaving: a command whose dispatch counted as
      sent was offered to a client of its own device and is accounted for there. */
  lemma SentCommandsAreAccountable(init: State, steps: seq<Step>, r: nat, i: nat)
    requires Fresh(init)
    requires Dispatched(After(init, steps).commands.ledger, r, i)
    requires After(init, steps).commands.ledger.requests[r].outcomes[i]
    ensures
      var log := After(init, steps).commands.ledger.requests[r].logs[i];
      Reached(After(init, steps).server.hub.clients, log.device, log.id)
  {
    RunsKeepSystem(init, steps);
    RunsProject(init, steps);
    ServerQueues.RunConserves(init.server, ServerRun(init, steps));
    CommandAccounting.RunKeepsAccounted(init.commands, CommandRun(init, steps));
    var l, clients := After(init, steps).commands.ledger, After(init, steps).server.hub.clients;
    var log := l.requests[r].logs[i];
    assert WasOffered(clients, log.id);
    var k: ConnId, j: nat :| Offers(clients, k, j, log.id);
    assert Explained(clients, l, k, j, log.id);
    assert CommandAccounting.Tracked(l, r);
    assert CommandAccounting.MarkedAsDue(l, l.requests[r], r, i);
    OfferIsAccountable(clients, k, j, log.id);
  }

  /** In every run no command is offered to a device other than its own, none is offered twice, and
      its dispatch counts as failed exactly if the one offer was refused. */
  lemma CommandsReachOnlyTheirDevice(init: State, steps: seq<Step>, k: ConnId, j: nat, id: CommandId)
    requires Fresh(init) && Offers(After(init, steps).server.hub.clients, k, j, id)
    ensures
      var l, clients := After(init, steps).commands.ledger, After(init, steps).server.hub.clients;
      && id in l.made
      && Dispatched(l, l.made[id].0, l.made[id].1)
      && l.requests[l.made[id].0].logs[l.made[id].1] == Log(id, clients[k].device)
      && (!l.requests[l.made[id].0].outcomes[l.made[id].1] <==> clients[k].offers[j].outcome == Refused)
      && (forall k': ConnId, j': nat :: Offers(clients, k', j', id) ==> (k', j') == (k, j))
  {
    RunsKeepSystem(init, steps);
    assert Explained(After(init, steps).server.hub.clients, After(init, steps).commands.ledger, k, j, id);
  }

  /** In every run: when a request offers its command to the client it has looked up, and that client is
      open with room by then, the command goes to the end of its queue and counts as sent, whatever the
      select picks and whatever happened since the lookup. */
  lemma OpenClientTakesCommand(init: State, steps: seq<Step>, r: nat, pick: bool)
    requires Fresh(init) && r in After(init, steps).waiting
    ensures TakenIfOpen(After(init, steps), r, pick)
  {
    RunsKeepSystem(init, steps);
    var s := After(init, steps);
    assert Holds(s.server, s.commands.ledger, r, s.waiting[r]);
    DeliveringTakes(s, r, pick);
  }

  ghost predicate TakenIfOpen(s: State, r: nat, pick: bool) {
    && Delivers(s, r) && r in s.commands.ledger.requests && s.commands.ledger.requests[r].CanDispatch()
    && var k, q := s.server.held[s.waiting[r]].0, s.commands.ledger.requests[r];
    var c, s' := s.server.hub.clients[k], Next(s, DeliverFor(r, pick));
    && c.device == NextLog(q).device
    && (c.open && |c.queue| < SEND_BUFFER ==>
          && k in s'.server.hub.clients
          && s'.server.hub.clients[k].queue == c.queue + [Command(NextLog(q).id)]
          && s'.commands.ledger.requests[r].outcomes == q.outcomes + [true])
  }

  lemma DeliveringTakes(s: State, r: nat, pick: bool)
    requires r in s.waiting && Holds(s.server, s.commands.ledger, r, s.waiting[r])
    ensures TakenIfOpen(s, r, pick)
  {
    DeliveringMoves(s, r, pick);
  }

  /** No client ever took the command. */
  ghost predicate NeverTaken(clients: map<ConnId, ClientState>, id: CommandId) {
    forall k: ConnId, j: nat :: Offers(clients, k, j, id) ==> clients[k].offers[j].outcome == Refused
  }

  /** In every run the table tells the truth about delivery: a row that is SENT or ran into its
      TIMEOUT is a command its own device's client took or dropped at 64 messages, and a row still
      PENDING after its request has finished was taken by no client. */
  lemma StatusTellsDelivery(init: State, steps: seq<Step>, id: CommandId)
    requires Fresh(init) && id in After(init, steps).commands.rows
    ensures
      var s := After(init, steps);
      var row, clients := s.commands.rows[id], s.server.hub.clients;
      && (row.status in {CommandTable.Sent, CommandTable.Timeout} ==> Reached(clients, row.device, id))
      && (row.status == CommandTable.Pending ==>
            && id in s.commands.ledger.made && s.commands.ledger.made[id].0 in s.commands.ledger.requests
            && (CommandAccounting.Finished(s.commands.ledger.requests[s.commands.ledger.made[id].0]) ==>
                  NeverTaken(clients, id)))
  {
    var s, run := After(init, steps), CommandRun(init, steps);
    var l := s.commands.ledger;
    RunsProject(init, steps);
    CommandLifecycle.RunKeepsRows(init.commands, run);
    CommandLifecycle.RowsComeFromRequests(init.commands, run);
    CommandAccounting.RunKeepsAccounted(init.commands, run);
    assert CommandLifecycle.Belongs(l, id, s.commands.rows[id]);
    var (r, i) := l.made[id];
    assert CommandAccounting.Tracked(l, r);
    assert CommandAccounting.MarkedAsDue(l, l.requests[r], r, i);
    if s.commands.rows[id].status in {CommandTable.Sent, CommandTable.Timeout} {
      SentCommandsAreAccountable(init, steps, r, i);
    } else if s.commands.rows[id].status == CommandTable.Pending && CommandAccounting.Finished(l.requests[r]) {
      forall k: ConnId, j: nat | Offers(s.server.hub.clients, k, j, id)
        ensures s.server.hub.clients[k].offers[j].outcome == Refused
      {
        CommandsReachOnlyTheirDevice(init, steps, k, j, id);
      }
    }
  }
}
