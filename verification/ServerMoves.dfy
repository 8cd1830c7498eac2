/** What single steps of the server move, in every run: clients, held messages, sessions and frames. */
module ServerMoves {
  import opened Base
  import opened Clients
  import opened Hubs
  import opened Server
  import ServerRegistry

  // ---------------------------------------------------------------- clients

  /** The handler of `j` stands at `pc`, and `k` is its device's current client. */
  predicate StandsOver(s: State, j: ConnId, pc: Pc, k: ConnId) {
    && j in s.conns && s.conns[j].pc == pc
    && s.conns[j].device in s.hub.current && s.hub.current[s.conns[j].device] == k
  }

  predicate StandsAt(s: State, j: ConnId, pc: Pc) {
    j in s.conns && s.conns[j].pc == pc
  }

  /** The step replaces the open client `k` by a newer connection of its device, or unregisters it. */
  predicate Displaces(s: State, step: Step, k: ConnId) {
    step.Handler? &&
    if step.act.Register? then StandsOver(s, step.conn, MarkedOnline, k)
    else step.act.Unregister? && StandsOver(s, step.conn, Unregistering, k)
  }

  /** The message the step offers to the client `k`, if any. */
  function OfferTo(s: State, step: Step, k: ConnId): Option<Msg> {
    match step
    case Handler(j, act) => if j == k && act.SendAck? && StandsAt(s, k, Registered) then Some(Ack) else None
    case DeliverHeld(t, _) => if t in s.held && s.held[t].0 == k then Some(s.held[t].1) else None
    case Dashboard(x, act) =>
      if act.StopSessions? && x in s.dashes && s.dashes[x] == Looping && IsMirroredBy(s.hub, k, x) then Some(StopMirror)
      else None
    case _ => None
  }

  predicate IsMirroredBy(hub: HubState<ConnId>, k: ConnId, x: DashId) {
    exists d :: d in hub.sessions && hub.sessions[d] == x && d in hub.current && hub.current[d] == k
  }

  predicate Pumps(s: State, step: Step, k: ConnId) {
    || (step.Pump? && step.conn == k && step.pump != Begin)
    || (step == Handler(k, StartPumps) && StandsAt(s, k, Acked))
  }

  function PumpMove(step: Step): PumpStep {
    if step.Pump? then step.pump else Begin
  }

  /** A step offers the client a message, runs its pump, closes it because it is displaced, or leaves it
      exactly as it was. */
  predicate ClientMoves(s: State, step: Step, k: ConnId, c: ClientState, c': ClientState) {
    if OfferTo(s, step, k).Some? then OfferedOnce(c, c', OfferTo(s, step, k).value)
    else if Pumps(s, step, k) then c' == c.PumpNext(PumpMove(step))
    else if Displaces(s, step, k) then c' == c.(open := false)
    else c' == c
  }

  ghost predicate ClientMovesIn(s: State, step: Step, s': State, k: ConnId)
    requires k in s.hub.clients
  {
    k in s'.hub.clients && ClientMoves(s, step, k, s.hub.clients[k], s'.hub.clients[k])
  }

  lemma RegisterMoves(s: State, j: ConnId, k: ConnId)
    requires ServerRegistry.RegistryInv(s) && j in s.conns && k in s.hub.clients
    ensures ClientMovesIn(s, Handler(j, Register), DeviceNext(s, j, Register), k)
  {
    RegisteringByField(s.hub, j, NewClient(s.conns[j].device));
  }

  lemma UnregisterMoves(s: State, j: ConnId, k: ConnId)
    requires j in s.conns && k in s.hub.clients
    ensures ClientMovesIn(s, Handler(j, Unregister), DeviceNext(s, j, Unregister), k)
  {
    UnregisteringByField(s.hub, s.conns[j].device);
  }

  lemma AckMoves(s: State, j: ConnId, pick: bool, k: ConnId)
    requires j in s.conns && k in s.hub.clients
    ensures ClientMovesIn(s, Handler(j, SendAck(pick)), DeviceNext(s, j, SendAck(pick)), k)
  {
    DeliveringByField(s.hub, j, Ack, pick);
  }

  /** By the time of the trailing close the client is closed already. */
  lemma TrailingCloseMoves(s: State, j: ConnId, k: ConnId)
    requires ServerRegistry.RegistryInv(s) && j in s.conns && k in s.hub.clients
    ensures ClientMovesIn(s, Handler(j, TrailingClose), DeviceNext(s, j, TrailingClose), k)
  {
    if j == k && s.hub.clients[k].open {
      assert ServerRegistry.IsCurrent(s.hub, k);
    }
  }

  lemma OtherActMoves(s: State, j: ConnId, act: DeviceAct, k: ConnId)
    requires j in s.conns && k in s.hub.clients
    requires !act.Register? && !act.Unregister? && !act.SendAck? && !act.TrailingClose?
    ensures ClientMovesIn(s, Handler(j, act), DeviceNext(s, j, act), k)
  {
  }

  lemma HeldMoves(s: State, t: nat, pick: bool, k: ConnId)
    requires k in s.hub.clients
    ensures ClientMovesIn(s, DeliverHeld(t, pick), Next(s, DeliverHeld(t, pick)), k)
  {
    if t in s.held {
      DeliveringByField(s.hub, s.held[t].0, s.held[t].1, pick);
    }
  }

  lemma CleanupMoves(s: State, x: DashId, picks: set<DeviceId>, k: ConnId)
    requires s.hub.Keyed() && x in s.dashes && k in s.hub.clients
    ensures ClientMovesIn(s, Dashboard(x, StopSessions(picks)), DashNext(s, x, StopSessions(picks)), k)
  {
    var d := s.hub.clients[k].device;
    SendOffersOnce(s.hub.clients[k], StopMirror);
    if d in s.hub.sessions && s.hub.sessions[d] == x && d in s.hub.current && s.hub.current[d] == k {
      assert IsMirroredBy(s.hub, k, x);
    }
  }

  lemma ActMovesClient(s: State, j: ConnId, act: DeviceAct, k: ConnId)
    requires ServerRegistry.RegistryInv(s) && j in s.conns && k in s.hub.clients
    ensures ClientMovesIn(s, Handler(j, act), DeviceNext(s, j, act), k)
  {
    if act.Register? {
      RegisterMoves(s, j, k);
    } else if act.Unregister? {
      UnregisterMoves(s, j, k);
    } else if act.SendAck? {
      AckMoves(s, j, act.pickQueue, k);
    } else if act.TrailingClose? {
      TrailingCloseMoves(s, j, k);
    } else {
      OtherActMoves(s, j, act, k);
    }
  }

  lemma DashboardMoves(s: State, x: DashId, act: DashAct, k: ConnId)
    requires s.hub.Keyed() && x in s.dashes && k in s.hub.clients
    ensures ClientMovesIn(s, Dashboard(x, act), DashNext(s, x, act), k)
  {
    if act.StopSessions? {
      CleanupMoves(s, x, act.picks, k);
    }
  }

  lemma OtherStepMoves(s: State, step: Step, k: ConnId)
    requires k in s.hub.clients && !step.Handler? && !step.Dashboard? && !step.DeliverHeld?
    ensures ClientMovesIn(s, step, Next(s, step), k)
  {
  }

  lemma StepMovesClient(s: State, step: Step, k: ConnId)
    requires ServerRegistry.RegistryInv(s) && k in s.hub.clients
    ensures ClientMovesIn(s, step, Next(s, step), k)
  {
    match step {
      case Handler(j, act) =>
        if j in s.conns {
          ActMovesClient(s, j, act, k);
        }
      case DeliverHeld(t, pick) => HeldMoves(s, t, pick, k);
      case Dashboard(x, act) =>
        if x in s.dashes {
          DashboardMoves(s, x, act, k);
        }
      case _ => OtherStepMoves(s, step, k);
    }
  }

  /** In every run, every step does to every registered client exactly what it is there for. */
  lemma StepsMoveClients(init: State, steps: seq<Step>, step: Step, k: ConnId)
    requires Fresh(init) && k in After(init, steps).hub.clients
    ensures ClientMovesIn(After(init, steps), step, Next(After(init, steps), step), k)
  {
    ServerRegistry.RunKeepsRegistry(init, steps);
    StepMovesClient(After(init, steps), step, k);
  }

  /** Leaving the pump's loop is the one thing that closes a client from inside its pump. */
  lemma PumpCloses(c: ClientState, step: PumpStep)
    ensures c.PumpNext(step).open <==> c.open && !(step == Exit && c.pump == Leaving)
  {
  }

  /** In every run an open client stops being open in a step if and only if that step registers another
      connection of its device, unregisters its device, or is its own pump's exit. */
  lemma ClosesOnlyBy(init: State, steps: seq<Step>, step: Step, k: ConnId)
    requires Fresh(init) && After(init, steps).hub.IsOpen(k)
    ensures
      var s := After(init, steps);
      var d := s.hub.clients[k].device;
      !Next(s, step).hub.IsOpen(k) <==>
      || (step.Handler? && step.act.Register? && StandsAt(s, step.conn, MarkedOnline) && s.conns[step.conn].device == d)
      || (step.Handler? && step.act.Unregister? && StandsAt(s, step.conn, Unregistering)
          && s.conns[step.conn].device == d)
      || (step == Pump(k, Exit) && s.hub.clients[k].pump == Leaving)
  {
    ServerRegistry.RunKeepsRegistry(init, steps);
    OpenClosesOnlyBy(After(init, steps), step, k);
  }

  lemma OpenClosesOnlyBy(s: State, step: Step, k: ConnId)
    requires ServerRegistry.RegistryInv(s) && s.hub.IsOpen(k)
    ensures !Next(s, step).hub.IsOpen(k) <==>
              Displaces(s, step, k) || (step == Pump(k, Exit) && s.hub.clients[k].pump == Leaving)
    ensures Displaces(s, step, k) <==>
              && step.Handler? && (step.act.Register? || step.act.Unregister?)
              && StandsAt(s, step.conn, if step.act.Register? then MarkedOnline else Unregistering)
              && s.conns[step.conn].device == s.hub.clients[k].device
  {
    StepMovesClient(s, step, k);
    assert ServerRegistry.IsCurrent(s.hub, k);
    if Pumps(s, step, k) {
      PumpCloses(s.hub.clients[k], PumpMove(step));
    }
  }

  // ---------------------------------------------------------------- registry and held messages

  /** In every state a registration and an unregistration move the registry entry of their own device;
      nothing else moves the registry. */
  lemma RegistryMoves(s: State, step: Step, d: DeviceId)
    ensures
      var s' := Next(s, step);
      if step.Handler? && step.act.Register? && StandsAt(s, step.conn, MarkedOnline) && s.conns[step.conn].device == d
      then d in s'.hub.current && s'.hub.current[d] == step.conn
      else if step.Handler? && step.act.Unregister? && StandsAt(s, step.conn, Unregistering)
              && s.conns[step.conn].device == d
      then d !in s'.hub.current
      else
        && (d in s'.hub.current <==> d in s.hub.current)
        && (d in s.hub.current ==> s'.hub.current[d] == s.hub.current[d])
  {
    if step.Handler? && step.conn in s.conns {
      ActMovesRegistry(s, step.conn, step.act);
    }
  }

  lemma ActMovesRegistry(s: State, k: ConnId, act: DeviceAct)
    requires k in s.conns
    ensures
      var d, hub' := s.conns[k].device, DeviceNext(s, k, act).hub;
      hub'.current == if act.Register? && s.conns[k].pc == MarkedOnline then s.hub.current[d := k]
                      else if act.Unregister? && s.conns[k].pc == Unregistering then s.hub.current - {d}
                      else s.hub.current
  {
  }

  /** A sender holds the client that was current when it looked, until it delivers. */
  lemma HeldMessagesMove(s: State, step: Step, t: nat)
    ensures
      var s' := Next(s, step);
      match step
      case LookUp(u, d, msg) =>
        if u == t && t !in s.held && d in s.hub.current then t in s'.held && s'.held[t] == (s.hub.current[d], msg)
        else HoldsTheSame(s, s', t)
      case DeliverHeld(u, _) => if u == t then t !in s'.held else HoldsTheSame(s, s', t)
      case _ => HoldsTheSame(s, s', t)
  {
  }

  predicate HoldsTheSame(s: State, s': State, t: nat) {
    (t in s'.held <==> t in s.held) && (t in s.held ==> s'.held[t] == s.held[t])
  }

  // ---------------------------------------------------------------- sessions, dashboards and frames

  /** The event of a step that touches the device's mirror session, performed by a looping dashboard or
      by a handler whose frame write has failed. */
  predicate TakesSession(s: State, step: Step, d: DeviceId, x: DashId) {
    step == Dashboard(x, Start(d)) && x in s.dashes && s.dashes[x] == Looping
  }

  predicate EndsSession(s: State, step: Step, d: DeviceId) {
    match step
    case Dashboard(x, act) =>
      x in s.dashes && s.dashes[x] == Looping && (act == Stop(d) || (act.StopSessions? && s.hub.Mirrors(d, x)))
    case Handler(k, act) =>
      act.DoWork? && k in s.conns && s.conns[k].device == d && s.conns[k].pc.Handling?
      && s.conns[k].pc.work.StopAfterFailure?
    case _ => false
  }

  /** A looping dashboard's start takes the device's session over, its stop, its departure and a failed
      write end one, and no other step touches it. */
  lemma SessionMoves(s: State, step: Step, d: DeviceId)
    ensures
      var before, after := s.hub.sessions, Next(s, step).hub.sessions;
      if exists x :: TakesSession(s, step, d, x) then d in after && after[d] == step.dash
      else if EndsSession(s, step, d) then d !in after
      else (d in after <==> d in before) && (d in before ==> after[d] == before[d])
  {
    if step.Dashboard? && step.dash in s.dashes {
      assert TakesSession(s, step, d, step.dash) <==> step.dashAct == Start(d) && s.dashes[step.dash] == Looping;
    } else if step.Handler? && step.conn in s.conns {
      ActMovesSession(s, step.conn, step.act, d);
    }
  }

  lemma ActMovesSession(s: State, k: ConnId, act: DeviceAct, d: DeviceId)
    requires k in s.conns
    ensures
      var before, after := s.hub.sessions, DeviceNext(s, k, act).hub.sessions;
      if EndsSession(s, Handler(k, act), d) then d !in after
      else (d in after <==> d in before) && (d in before ==> after[d] == before[d])
  {
  }

  /** A dashboard can always run to its end on its own: it stops its sessions, unregisters and is gone. */
  lemma DashboardCanLeave(s: State, x: DashId, picks: set<DeviceId>)
    requires x in s.dashes && s.dashes[x] == Looping
    ensures
      var stopped := Next(s, Dashboard(x, StopSessions(picks)));
      var left := Next(stopped, Dashboard(x, UnregisterSelf));
      && (forall d :: !stopped.hub.Mirrors(d, x)) && stopped.hub.dashboards == s.hub.dashboards
      && x in left.dashes && left.dashes[x] == Left
      && left.hub == stopped.hub.(dashboards := s.hub.dashboards - {x})
  {
  }

  /** A frame whose write succeeds is relayed to the dashboard that owned the device's session when the
      frame was looked up, however the server moved between the lookup and the write. */
  lemma FrameIsRelayed(s: State, k: ConnId, d: DeviceId)
    requires k in s.conns && s.conns[k] == Conn(d, Reading) && d in s.hub.sessions
    ensures
      var looked := Next(Next(s, Handler(k, Receive(Frame))), Handler(k, DoWork(true)));
      k in looked.conns
      && looked.conns[k] == Conn(d, Handling(RelayTo(s.hub.sessions[d], |s.trail.events|)))
      && looked.hub == s.hub
  {
    var received := Next(s, Handler(k, Receive(Frame)));
    assert received.hub == s.hub && received.conns[k] == Conn(d, Handling(Frame));
  }

  lemma WrittenFrameIsNoted(s: State, k: ConnId, d: DeviceId, x: DashId, at: nat)
    requires k in s.conns && s.conns[k] == Conn(d, Handling(RelayTo(x, at)))
    ensures
      var written := Next(s, Handler(k, DoWork(true)));
      && written.trail.relays == s.trail.relays + [Relay(d, x, at)] && written.trail.events == s.trail.events
      && written.hub == s.hub && k in written.conns && written.conns[k] == Conn(d, Reading)
  {
  }

  // ---------------------------------------------------------------- progress

  /** What the handler does next if its device goes quiet and its connection breaks. */
  function ToReturn(pc: Pc): DeviceAct
    requires pc != Returned
  {
    match pc
    case Arrived => GoOnline
    case MarkedOnline => Register
    case Registered => SendAck(true)
    case Acked => StartPumps
    case Reading => ReadError
    case Handling(_) => DoWork(true)
    case Unregistering => Unregister
    case Closing => TrailingClose
    case GoingOffline => GoOffline
  }

  function StepsLeft(pc: Pc): nat {
    match pc
    case Arrived => 11
    case MarkedOnline => 10
    case Registered => 9
    case Acked => 8
    case Handling(work) => if work.Frame? then 7 else 6
    case Reading => 4
    case Unregistering => 3
    case Closing => 2
    case GoingOffline => 1
    case Returned => 0
  }

  lemma ReturningAdvances(s: State, k: ConnId)
    requires k in s.conns && s.conns[k].pc != Returned
    ensures
      var s' := Next(s, Handler(k, ToReturn(s.conns[k].pc)));
      && k in s'.conns && s'.conns[k].device == s.conns[k].device
      && StepsLeft(s'.conns[k].pc) < StepsLeft(s.conns[k].pc)
  {
  }

  ghost predicate OwnSteps(run: seq<Step>, k: ConnId) {
    forall i :: 0 <= i < |run| ==> run[i].Handler? && run[i].conn == k
  }

  /** From every state, whatever everybody else is doing, a handler can reach its return by steps of its
      own; nothing it waits for can keep it. */
  lemma {:induction false} HandlerCanReturn(s: State, k: ConnId) returns (run: seq<Step>)
    requires k in s.conns
    ensures OwnSteps(run, k) && k in After(s, run).conns && After(s, run).conns[k].pc == Returned
    decreases StepsLeft(s.conns[k].pc)
  {
    if s.conns[k].pc == Returned {
      run := [];
    } else {
      var step := Handler(k, ToReturn(s.conns[k].pc));
      ReturningAdvances(s, k);
      var rest := HandlerCanReturn(Next(s, step), k);
      run := [step] + rest;
      AfterOneMore(s, [], step);
      AfterSplit(s, [step], rest);
      assert [] + [step] == [step];
    }
  }

  /** The steps of `k`'s pump that write out as many messages as are waiting. */
  function Drain(k: ConnId, n: nat): seq<Step> {
    if n == 0 then [] else Drain(k, n - 1) + [Pump(k, Take), Pump(k, WriteOk)]
  }

  lemma DrainSteps(s: State, k: ConnId, n: nat)
    requires n > 0
    ensures After(s, Drain(k, n)) == Next(Next(After(s, Drain(k, n - 1)), Pump(k, Take)), Pump(k, WriteOk))
  {
    AfterOneMore(s, Drain(k, n - 1), Pump(k, Take));
    AfterOneMore(s, Drain(k, n - 1) + [Pump(k, Take)], Pump(k, WriteOk));
    assert Drain(k, n) == Drain(k, n - 1) + [Pump(k, Take)] + [Pump(k, WriteOk)];
  }

  /** The first `n` messages of the queue have been written, in order, and nothing else has changed. */
  predicate HasDrained(c: ClientState, c': ClientState, n: nat)
    requires n <= |c.queue|
  {
    && c'.written == c.written + c.queue[..n] && c'.queue == c.queue[n..] && c'.lost == c.lost
    && c'.pump == c.pump && c'.open == c.open
  }

  lemma DrainsOne(s: State, k: ConnId)
    requires k in s.hub.clients && s.hub.clients[k].pump == Selecting && s.hub.clients[k].queue != []
    ensures
      var s' := Next(Next(s, Pump(k, Take)), Pump(k, WriteOk));
      k in s'.hub.clients && HasDrained(s.hub.clients[k], s'.hub.clients[k], 1)
  {
    WakeMoves(s.hub.clients[k], Data(true));
  }

  lemma DrainsOneMore(c: ClientState, before: ClientState, after: ClientState, n: nat)
    requires n < |c.queue| && HasDrained(c, before, n) && HasDrained(before, after, 1)
    ensures HasDrained(c, after, n + 1)
  {
    assert c.queue[..n + 1] == c.queue[..n] + [c.queue[n]];
  }

  /** From every state a selecting pump can write out its whole queue in order by steps of its own. */
  lemma {:induction false} PumpCanDrain(s: State, k: ConnId, n: nat)
    requires k in s.hub.clients && s.hub.clients[k].pump == Selecting && n <= |s.hub.clients[k].queue|
    ensures k in After(s, Drain(k, n)).hub.clients
    ensures HasDrained(s.hub.clients[k], After(s, Drain(k, n)).hub.clients[k], n)
  {
    if n > 0 {
      PumpCanDrain(s, k, n - 1);
      DrainSteps(s, k, n);
      var before := After(s, Drain(k, n - 1));
      DrainsOne(before, k);
      DrainsOneMore(s.hub.clients[k], before.hub.clients[k], After(s, Drain(k, n)).hub.clients[k], n - 1);
    }
  }

  // ---------------------------------------------------------------- pumps that are gone

  ghost predicate GoneIsClosed(clients: map<ConnId, ClientState>) {
    forall k :: k in clients && clients[k].pump == Gone ==> !clients[k].open
  }

  lemma ActNewcomersAreFresh(s: State, j: ConnId, act: DeviceAct, k: ConnId)
    requires j in s.conns && k in DeviceNext(s, j, act).hub.clients && k !in s.hub.clients
    ensures DeviceNext(s, j, act).hub.clients[k].pump == NotStarted
  {
    if act.Register? {
      RegisteringByField(s.hub, j, NewClient(s.conns[j].device));
    } else if act.Unregister? {
      UnregisteringByField(s.hub, s.conns[j].device);
    } else {
      ServerRegistry.OtherActsAtMostClose(s, j, act);
    }
  }

  lemma NewcomersAreFresh(s: State, step: Step, k: ConnId)
    requires k in Next(s, step).hub.clients && k !in s.hub.clients
    ensures Next(s, step).hub.clients[k].pump == NotStarted
  {
    if !step.Handler? {
      ServerRegistry.OtherStepsAtMostClose(s, step);
    } else if step.conn in s.conns {
      ActNewcomersAreFresh(s, step.conn, step.act, k);
    }
  }

  lemma GoneByExit(c: ClientState, step: PumpStep)
    ensures c.PumpNext(step).pump == Gone <==> c.pump == Gone || (step == Exit && c.pump == Leaving)
  {
  }

  lemma StepKeepsGoneClosed(s: State, step: Step)
    requires ServerRegistry.RegistryInv(s) && GoneIsClosed(s.hub.clients)
    ensures GoneIsClosed(Next(s, step).hub.clients)
  {
    var clients' := Next(s, step).hub.clients;
    forall k | k in clients' && clients'[k].pump == Gone ensures !clients'[k].open {
      if k in s.hub.clients {
        StepMovesClient(s, step, k);
        GoneByExit(s.hub.clients[k], PumpMove(step));
        PumpCloses(s.hub.clients[k], PumpMove(step));
      } else {
        NewcomersAreFresh(s, step, k);
      }
    }
  }

  /** In every run a client whose pump is gone is closed. */
  lemma {:induction false} PumpExitClosed(init: State, steps: seq<Step>)
    requires Fresh(init)
    ensures GoneIsClosed(After(init, steps).hub.clients)
  {
    if steps != [] {
      PumpExitClosed(init, steps[..|steps| - 1]);
      ServerRegistry.RunKeepsRegistry(init, steps[..|steps| - 1]);
      StepKeepsGoneClosed(After(init, steps[..|steps| - 1]), steps[|steps| - 1]);
    }
  }
}
