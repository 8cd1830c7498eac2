/** Who is in the registry: one open client per device, no leaks, and who may remove whom. */
module ServerRegistry {
  import opened Base
  import opened Clients
  import opened Hubs
  import opened DeviceTable
  import opened Server

  /** The handler has been through RegisterDevice. */
  predicate Joined(pc: Pc) {
    !pc.Arrived? && !pc.MarkedOnline?
  }

  /** The handler has registered and its read pump has not unregistered yet. */
  predicate MayBeCurrent(pc: Pc) {
    Joined(pc) && !pc.Closing? && !pc.GoingOffline? && !pc.Returned?
  }

  ghost predicate Consistent(hub: HubState<ConnId>, conns: map<ConnId, Conn>) {
    && (forall k :: k in hub.clients <==> k in conns && Joined(conns[k].pc))
    && (forall k :: k in hub.clients ==> hub.clients[k].device == conns[k].device)
    && hub.Keyed()
    && (forall d :: d in hub.current ==>
          hub.current[d] in conns && MayBeCurrent(conns[hub.current[d]].pc))
    && (forall k :: k in hub.clients && hub.clients[k].open ==> IsCurrent(hub, k))
  }

  predicate IsCurrent(hub: HubState<ConnId>, k: ConnId)
    requires k in hub.clients
  {
    var d := hub.clients[k].device;
    d in hub.current && hub.current[d] == k
  }

  ghost predicate RegistryInv(s: State) {
    Consistent(s.hub, s.conns)
  }

  /** The registry is untouched and clients were at most closed, never reopened. */
  ghost predicate AtMostCloses(hub: HubState<ConnId>, hub': HubState<ConnId>) {
    && hub'.current == hub.current
    && hub'.clients.Keys == hub.clients.Keys
    && (forall k :: k in hub.clients ==>
          && hub'.clients[k].device == hub.clients[k].device
          && (hub'.clients[k].open ==> hub.clients[k].open))
  }

  lemma ClosingKeeps(hub: HubState<ConnId>, hub': HubState<ConnId>, conns: map<ConnId, Conn>)
    requires Consistent(hub, conns) && AtMostCloses(hub, hub')
    ensures Consistent(hub', conns)
  {
    forall k | k in hub'.clients && hub'.clients[k].open ensures IsCurrent(hub', k) {
      assert IsCurrent(hub, k);
    }
  }

  lemma MovingKeeps(hub: HubState<ConnId>, conns: map<ConnId, Conn>, k: ConnId, pc: Pc)
    requires Consistent(hub, conns) && k in conns
    requires Joined(pc) == Joined(conns[k].pc)
    requires MayBeCurrent(conns[k].pc) ==> MayBeCurrent(pc)
    ensures Consistent(hub, conns[k := conns[k].(pc := pc)])
  {
  }

  lemma AcceptingKeeps(hub: HubState<ConnId>, conns: map<ConnId, Conn>, k: ConnId, d: DeviceId)
    requires Consistent(hub, conns)
    ensures k !in conns ==> Consistent(hub, conns[k := Conn(d, Arrived)])
  {
  }

  lemma RegisteringLeavesOneOpen(hub: HubState<ConnId>, k: ConnId, d: DeviceId, j: ConnId)
    requires hub.Keyed() && k !in hub.clients
    requires forall i :: i in hub.clients && hub.clients[i].open ==> IsCurrent(hub, i)
    requires j in hub.RegisterDevice(k, NewClient(d)).clients && hub.RegisterDevice(k, NewClient(d)).clients[j].open
    ensures IsCurrent(hub.RegisterDevice(k, NewClient(d)), j)
  {
    if j != k {
      assert IsCurrent(hub, j);
    }
  }

  lemma RegisteringKeeps(hub: HubState<ConnId>, conns: map<ConnId, Conn>, k: ConnId)
    requires Consistent(hub, conns) && k in conns && conns[k].pc == MarkedOnline
    ensures Consistent(hub.RegisterDevice(k, NewClient(conns[k].device)), conns[k := conns[k].(pc := Registered)])
  {
    var d := conns[k].device;
    var hub' := hub.RegisterDevice(k, NewClient(d));
    assert k !in hub.clients;
    forall j | j in hub'.clients && hub'.clients[j].open ensures IsCurrent(hub', j) {
      RegisteringLeavesOneOpen(hub, k, d, j);
    }
  }

  lemma UnregisteringKeeps(hub: HubState<ConnId>, conns: map<ConnId, Conn>, k: ConnId)
    requires Consistent(hub, conns) && k in conns && conns[k].pc == Unregistering
    ensures Consistent(hub.UnregisterDevice(conns[k].device), conns[k := conns[k].(pc := Closing)])
  {
    var d := conns[k].device;
    var hub' := hub.UnregisterDevice(d);
    forall j | j in hub'.clients && hub'.clients[j].open ensures IsCurrent(hub', j) {
      assert IsCurrent(hub, j);
    }
    forall e | e in hub'.current
      ensures hub'.current[e] in conns && MayBeCurrent(conns[hub'.current[e]].pc) && hub'.current[e] != k
    {
      assert hub.clients[hub.current[e]].device == e;
    }
  }

  /** Apart from registering and unregistering, a handler's steps at most close clients. */
  lemma OtherActsAtMostClose(s: State, k: ConnId, act: DeviceAct)
    requires k in s.conns && !act.Register? && !act.Unregister?
    ensures AtMostCloses(s.hub, DeviceNext(s, k, act).hub)
  {
  }

  lemma OtherActsStay(s: State, k: ConnId, act: DeviceAct)
    requires k in s.conns && !act.Register? && !act.Unregister?
    ensures
      var s' := DeviceNext(s, k, act);
      && k in s'.conns
      && s'.conns == s.conns[k := s.conns[k].(pc := s'.conns[k].pc)]
      && Joined(s'.conns[k].pc) == Joined(s.conns[k].pc)
      && MayBeCurrent(s'.conns[k].pc) == MayBeCurrent(s.conns[k].pc)
  {
    assert s.conns == s.conns[k := s.conns[k].(pc := s.conns[k].pc)];
  }

  lemma DeviceKeepsRegistry(s: State, k: ConnId, act: DeviceAct)
    requires RegistryInv(s) && k in s.conns
    ensures RegistryInv(DeviceNext(s, k, act))
  {
    match act {
      case Register =>
        if s.conns[k].pc == MarkedOnline {
          RegisteringKeeps(s.hub, s.conns, k);
        }
      case Unregister =>
        if s.conns[k].pc == Unregistering {
          UnregisteringKeeps(s.hub, s.conns, k);
        }
      case _ =>
        var s' := DeviceNext(s, k, act);
        OtherActsAtMostClose(s, k, act);
        OtherActsStay(s, k, act);
        MovingKeeps(s.hub, s.conns, k, s'.conns[k].pc);
        ClosingKeeps(s.hub, s'.hub, s'.conns);
    }
  }

  lemma DashAtMostCloses(s: State, x: DashId, act: DashAct)
    requires x in s.dashes
    ensures AtMostCloses(s.hub, DashNext(s, x, act).hub)
    ensures DashNext(s, x, act).conns == s.conns
  {
  }

  lemma PumpAtMostCloses(hub: HubState<ConnId>, k: ConnId, p: PumpStep)
    ensures AtMostCloses(hub, PumpClient(hub, k, p))
  {
  }

  lemma DeliveryAtMostCloses(hub: HubState<ConnId>, k: ConnId, msg: Msg, pick: bool)
    ensures AtMostCloses(hub, hub.Deliver(k, msg, pick))
  {
  }

  lemma OtherStepsAtMostClose(s: State, step: Step)
    requires !step.Handler?
    ensures AtMostCloses(s.hub, Next(s, step).hub)
    ensures step.Accept? || Next(s, step).conns == s.conns
  {
    match step {
      case Dashboard(x, act) =>
        if x in s.dashes {
          DashAtMostCloses(s, x, act);
        }
      case Pump(k, p) => PumpAtMostCloses(s.hub, k, p);
      case DeliverHeld(t, pick) =>
        if t in s.held {
          DeliveryAtMostCloses(s.hub, s.held[t].0, s.held[t].1, pick);
        }
      case _ =>
    }
  }

  lemma StepKeepsRegistry(s: State, step: Step)
    requires RegistryInv(s)
    ensures RegistryInv(Next(s, step))
  {
    match step {
      case Accept(k, d) =>
        AcceptingKeeps(s.hub, s.conns, k, d);
      case Handler(k, act) =>
        if k in s.conns {
          DeviceKeepsRegistry(s, k, act);
        }
      case _ =>
        OtherStepsAtMostClose(s, step);
        ClosingKeeps(s.hub, Next(s, step).hub, s.conns);
    }
  }

  lemma {:induction false} RunKeepsRegistry(init: State, steps: seq<Step>)
    requires Fresh(init)
    ensures RegistryInv(After(init, steps))
  {
    if steps != [] {
      RunKeepsRegistry(init, steps[..|steps| - 1]);
      StepKeepsRegistry(After(init, steps[..|steps| - 1]), steps[|steps| - 1]);
    }
  }

  /** In every run an open registered client is its device's registry entry, so no device ever
      has two open registered connections. */
  lemma OneOpenClientPerDevice(init: State, steps: seq<Step>)
    requires Fresh(init)
    ensures
      var hub := After(init, steps).hub;
      && (forall k :: hub.IsOpen(k) ==> IsCurrent(hub, k))
      && (forall j, k | hub.IsOpen(j) && hub.IsOpen(k) ::
            hub.clients[j].device == hub.clients[k].device ==> j == k)
  {
    RunKeepsRegistry(init, steps);
  }

  /** Every registry entry belongs to a connection whose read pump has not unregistered yet; once
      all of a device's handlers have returned the device has no entry. */
  lemma NoConnectionLeaks(init: State, steps: seq<Step>, d: DeviceId)
    requires Fresh(init)
    ensures
      var s := After(init, steps);
      && (d in s.hub.current ==>
            var k := s.hub.current[d];
            k in s.conns && s.conns[k].device == d && MayBeCurrent(s.conns[k].pc))
      && (AllReturned(s, d) ==> d !in s.hub.current)
  {
    RunKeepsRegistry(init, steps);
  }

  /** The read pump closes its client after unregistering; by then it is always closed already. */
  lemma TrailingCloseIsNoOp(init: State, steps: seq<Step>, k: ConnId)
    requires Fresh(init)
    requires k in After(init, steps).conns && After(init, steps).conns[k].pc == Closing
    ensures k in After(init, steps).hub.clients && !After(init, steps).hub.IsOpen(k)
    ensures Next(After(init, steps), Handler(k, TrailingClose)).hub == After(init, steps).hub
  {
    RunKeepsRegistry(init, steps);
    var s := After(init, steps);
    assert s.hub.IsOpen(k) ==> IsCurrent(s.hub, k);
    assert s.hub.clients[k := s.hub.clients[k].Close()] == s.hub.clients;
  }

  /** An unregistering read pump leaves every other connection open exactly when the registry
      entry it is about to remove is not another connection's open client. */
  lemma UnregisterSparesOthers(init: State, steps: seq<Step>, k: ConnId)
    requires Fresh(init)
    requires k in After(init, steps).conns && After(init, steps).conns[k].pc == Unregistering
    ensures
      var s := After(init, steps);
      var hub' := Next(s, Handler(k, Unregister)).hub;
      var d := s.conns[k].device;
      (forall j :: j != k && s.hub.IsOpen(j) ==> hub'.IsOpen(j))
      <==> !(d in s.hub.current && s.hub.current[d] != k && s.hub.IsOpen(s.hub.current[d]))
  {
    RunKeepsRegistry(init, steps);
    var s := After(init, steps);
    var hub' := Next(s, Handler(k, Unregister)).hub;
    var d := s.conns[k].device;
    if d in s.hub.current && s.hub.current[d] != k && s.hub.IsOpen(s.hub.current[d]) {
      assert !hub'.IsOpen(s.hub.current[d]);
    }
  }

  ghost predicate CleansUp(h: HubState<ConnId>, h': HubState<ConnId>, x: DashId) {
    h.Keyed() && h'.clients.Keys == h.clients.Keys && ExactCleanup(h, h', x)
  }

  /** In every run a departing dashboard's cleanup is exact, because each client sits under its own
      device's key. */
  lemma DashboardLeavesCleanly(init: State, steps: seq<Step>, x: DashId, picks: set<DeviceId>)
    requires Fresh(init)
    requires x in After(init, steps).dashes && After(init, steps).dashes[x] == Looping
    ensures
      CleansUp(After(init, steps).hub, Next(After(init, steps), Dashboard(x, StopSessions(picks))).hub, x)
  {
    RunKeepsRegistry(init, steps);
    StoppingIsExact(After(init, steps), x, picks);
  }

  lemma StoppingIsExact(s: State, x: DashId, picks: set<DeviceId>)
    requires s.hub.Keyed() && x in s.dashes && s.dashes[x] == Looping
    ensures CleansUp(s.hub, Next(s, Dashboard(x, StopSessions(picks))).hub, x)
  {
    CleanupIsExact(s.hub, x, picks);
    assert Next(s, Dashboard(x, StopSessions(picks))).hub == s.hub.StopMirrorSessionsForDashboard(x, picks);
  }

  /** A device connection from its upgrade to its read loop. */
  function Connect(k: ConnId, d: DeviceId): seq<Step> {
    [Accept(k, d), Handler(k, GoOnline), Handler(k, Register), Handler(k, SendAck(true)), Handler(k, StartPumps)]
  }

  /** From `s`, connection `k` for `d` has arrived and reached `pc`; nothing else has moved. */
  ghost predicate Arriving(s: State, s': State, k: ConnId, d: DeviceId, pc: Pc) {
    && s'.conns == s.conns[k := Conn(d, pc)]
    && s'.hub.current == (if Joined(pc) then s.hub.current[d := k] else s.hub.current)
    && (Joined(pc) ==> s'.hub.IsOpen(k))
    && s'.dashes == s.dashes && s'.trail == s.trail
  }

  lemma ArrivalStep(s: State, s': State, k: ConnId, d: DeviceId, pc: Pc, act: DeviceAct, pc': Pc)
    requires Arriving(s, s', k, d, pc)
    requires || (pc == Arrived && act == GoOnline && pc' == MarkedOnline)
             || (pc == MarkedOnline && act == Register && pc' == Registered && k !in s'.hub.current.Values)
             || (pc == Registered && act == SendAck(true) && pc' == Acked)
             || (pc == Acked && act == StartPumps && pc' == Reading)
    ensures Arriving(s, Next(s', Handler(k, act)), k, d, pc')
    ensures act == GoOnline ==> Next(s', Handler(k, act)).hub == s'.hub
  {
  }

  lemma ConnectSteps(s: State, k: ConnId, d: DeviceId)
    ensures After(s, Connect(k, d))
         == Next(Next(Next(Next(Next(s, Accept(k, d)), Handler(k, GoOnline)), Handler(k, Register)),
                      Handler(k, SendAck(true))), Handler(k, StartPumps))
  {
    var c := Connect(k, d);
    AfterOneMore(s, [], c[0]);
    AfterOneMore(s, c[..1], c[1]);
    AfterOneMore(s, c[..2], c[2]);
    AfterOneMore(s, c[..3], c[3]);
    AfterOneMore(s, c[..4], c[4]);
    assert c[..1] == [] + [c[0]] && c[..2] == c[..1] + [c[1]] && c[..3] == c[..2] + [c[2]];
    assert c[..4] == c[..3] + [c[3]] && c == c[..4] + [c[4]];
  }

  lemma ConnectEntersReadLoop(s: State, k: ConnId, d: DeviceId)
    requires k !in s.conns && k !in s.hub.current.Values
    ensures Arriving(s, After(s, Connect(k, d)), k, d, Reading)
  {
    ConnectSteps(s, k, d);
    var arrived := Next(s, Accept(k, d));
    ArrivalStep(s, arrived, k, d, Arrived, GoOnline, MarkedOnline);
    var online := Next(arrived, Handler(k, GoOnline));
    ArrivalStep(s, online, k, d, MarkedOnline, Register, Registered);
    var registered := Next(online, Handler(k, Register));
    ArrivalStep(s, registered, k, d, Registered, SendAck(true), Acked);
    ArrivalStep(s, Next(registered, Handler(k, SendAck(true))), k, d, Acked, StartPumps, Reading);
  }

  lemma ExitUnregistersTheDevice(s: State, k: ConnId, d: DeviceId)
    requires k in s.conns && s.conns[k] == Conn(d, Reading) && d in s.hub.current
    ensures
      var hub' := Next(Next(s, Handler(k, ReadError)), Handler(k, Unregister)).hub;
      hub'.current == s.hub.current - {d} && !hub'.IsOpen(s.hub.current[d])
  {
    var leaving := Next(s, Handler(k, ReadError));
    assert leaving.hub == s.hub && leaving.conns[k] == Conn(d, Unregistering);
  }

  /** The overlapping run in which a reconnect is undone by its predecessor: connection 2 replaces
      connection 1, then connection 1's read pump unregisters "the device" and connection 2 with it. */
  lemma ReconnectUndoneByPredecessor(init: State, d: DeviceId)
    requires Fresh(init)
    ensures
      var both := After(init, Connect(1, d) + Connect(2, d));
      var undone := Next(Next(both, Handler(1, ReadError)), Handler(1, Unregister));
      && both.hub.current == map[d := 2] && both.hub.IsOpen(2)
      && undone.hub.current == map[] && !undone.hub.IsOpen(2)
  {
    AfterSplit(init, Connect(1, d), Connect(2, d));
    ConnectEntersReadLoop(init, 1, d);
    var one := After(init, Connect(1, d));
    ConnectEntersReadLoop(one, 2, d);
    ExitUnregistersTheDevice(After(one, Connect(2, d)), 1, d);
  }

  // ---------------------------------------------------------------- runs without overlap

  /** A device never connects again before its previous handler has returned. */
  ghost predicate NeverOverlaps(init: State, steps: seq<Step>) {
    forall i :: 0 <= i < |steps| && steps[i].Accept? ==> AllReturned(After(init, steps[..i]), steps[i].device)
  }

  ghost predicate AllReturned(s: State, d: DeviceId) {
    forall k :: k in s.conns && s.conns[k].device == d ==> s.conns[k].pc == Returned
  }

  ghost predicate OneLivePerDevice(s: State) {
    forall j, k | j in s.conns && k in s.conns && s.conns[j].pc != Returned && s.conns[k].pc != Returned ::
      s.conns[j].device == s.conns[k].device ==> j == k
  }

  lemma ActsOnlyAdvance(s: State, j: ConnId, act: DeviceAct, k: ConnId)
    requires j in s.conns && k in s.conns
    ensures k in DeviceNext(s, j, act).conns && DeviceNext(s, j, act).conns[k].device == s.conns[k].device
    ensures s.conns[k].pc == Returned ==> DeviceNext(s, j, act).conns[k].pc == Returned
  {
  }

  /** Connections keep their device, and a returned handler stays returned. */
  lemma HandlersOnlyAdvance(s: State, step: Step, k: ConnId)
    requires k in s.conns
    ensures k in Next(s, step).conns && Next(s, step).conns[k].device == s.conns[k].device
    ensures s.conns[k].pc == Returned ==> Next(s, step).conns[k].pc == Returned
  {
    match step {
      case Handler(j, act) =>
        if j in s.conns {
          ActsOnlyAdvance(s, j, act, k);
        }
      case _ =>
    }
  }

  lemma OnlyAcceptAdds(s: State, step: Step, j: ConnId)
    requires j in Next(s, step).conns && j !in s.conns
    ensures step == Accept(j, Next(s, step).conns[j].device)
  {
  }

  lemma {:induction false} NoOverlapMeansOneLive(init: State, steps: seq<Step>)
    requires Fresh(init) && NeverOverlaps(init, steps)
    ensures OneLivePerDevice(After(init, steps))
  {
    if steps != [] {
      var prefix, step := steps[..|steps| - 1], steps[|steps| - 1];
      assert forall i :: 0 <= i < |prefix| ==> prefix[..i] == steps[..i];
      NoOverlapMeansOneLive(init, prefix);
      var s := After(init, prefix);
      forall k | k in s.conns {
        HandlersOnlyAdvance(s, step, k);
      }
      forall k | k in Next(s, step).conns && k !in s.conns {
        OnlyAcceptAdds(s, step, k);
      }
      if step.Accept? {
        assert AllReturned(s, step.device);
      }
    }
  }

  /** Without overlap a client leaves the registry only through its own read pump's exit. */
  lemma LeavesOnlyByOwnExit(init: State, steps: seq<Step>, step: Step, d: DeviceId)
    requires Fresh(init) && NeverOverlaps(init, steps)
    requires d in After(init, steps).hub.current
    ensures
      var s := After(init, steps);
      var s' := Next(s, step);
      d !in s'.hub.current || s'.hub.current[d] != s.hub.current[d] ==> step == Handler(s.hub.current[d], Unregister)
  {
    NoOverlapMeansOneLive(init, steps);
    RunKeepsRegistry(init, steps);
    RemovalIsOwn(After(init, steps), step, d);
  }

  lemma RemovalIsOwn(s: State, step: Step, d: DeviceId)
    requires RegistryInv(s) && OneLivePerDevice(s) && d in s.hub.current
    ensures
      var s' := Next(s, step);
      d !in s'.hub.current || s'.hub.current[d] != s.hub.current[d] ==> step == Handler(s.hub.current[d], Unregister)
  {
    if !step.Handler? {
      OtherStepsAtMostClose(s, step);
    } else if step.conn in s.conns && !step.act.Register? && !step.act.Unregister? {
      OtherActsAtMostClose(s, step.conn, step.act);
    }
  }
}
