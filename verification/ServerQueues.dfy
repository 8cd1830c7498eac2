/** Delivery: what every client's queue keeps, in every run of the server. */
module ServerQueues {
  import opened Base
  import opened Clients
  import opened Hubs
  import opened Server

  ghost predicate AllConserved(clients: map<ConnId, ClientState>) {
    forall k :: k in clients ==> Conserved(clients[k])
  }

  lemma DeliveryConserves(hub: HubState<ConnId>, k: ConnId, msg: Msg, pick: bool)
    requires AllConserved(hub.clients)
    ensures AllConserved(hub.Deliver(k, msg, pick).clients)
  {
    if k in hub.clients {
      SendConserves(hub.clients[k], msg, pick);
    }
  }

  lemma PumpingConserves(hub: HubState<ConnId>, k: ConnId, step: PumpStep)
    requires AllConserved(hub.clients)
    ensures AllConserved(PumpClient(hub, k, step).clients)
  {
    if k in hub.clients {
      PumpConserves(hub.clients[k], step);
    }
  }

  lemma RegisteringConserves(hub: HubState<ConnId>, k: ConnId, d: DeviceId)
    requires AllConserved(hub.clients)
    ensures AllConserved(hub.RegisterDevice(k, NewClient(d)).clients)
  {
  }

  lemma ClosingConserves(hub: HubState<ConnId>, k: ConnId, d: DeviceId)
    requires AllConserved(hub.clients)
    ensures AllConserved(hub.UnregisterDevice(d).clients) && AllConserved(hub.CloseClient(k).clients)
  {
  }

  lemma CleanupConserves(hub: HubState<ConnId>, x: DashId, picks: set<DeviceId>)
    requires AllConserved(hub.clients)
    ensures AllConserved(hub.StopMirrorSessionsForDashboard(x, picks).clients)
  {
    forall k | k in hub.clients {
      SendConserves(hub.clients[k], StopMirror, hub.clients[k].device in picks);
    }
  }

  lemma HandlerConserves(s: State, k: ConnId, act: DeviceAct)
    requires AllConserved(s.hub.clients) && k in s.conns
    ensures AllConserved(DeviceNext(s, k, act).hub.clients)
  {
    match act {
      case Register => RegisteringConserves(s.hub, k, s.conns[k].device);
      case Unregister => ClosingConserves(s.hub, k, s.conns[k].device);
      case TrailingClose => ClosingConserves(s.hub, k, s.conns[k].device);
      case SendAck(pick) => DeliveryConserves(s.hub, k, Ack, pick);
      case StartPumps => PumpingConserves(s.hub, k, Begin);
      case _ =>
    }
  }

  lemma StepConserves(s: State, step: Step)
    requires AllConserved(s.hub.clients)
    ensures AllConserved(Next(s, step).hub.clients)
  {
    match step {
      case Handler(k, act) =>
        if k in s.conns {
          HandlerConserves(s, k, act);
        }
      case Pump(k, p) => PumpingConserves(s.hub, k, p);
      case Dashboard(x, act) =>
        if act.StopSessions? {
          CleanupConserves(s.hub, x, act.picks);
        }
      case DeliverHeld(t, pick) =>
        if t in s.held {
          DeliveryConserves(s.hub, s.held[t].0, s.held[t].1, pick);
        }
      case _ =>
    }
  }

  lemma {:induction false} RunConserves(init: State, steps: seq<Step>)
    requires Fresh(init)
    ensures AllConserved(After(init, steps).hub.clients)
  {
    if steps != [] {
      RunConserves(init, steps[..|steps| - 1]);
      StepConserves(After(init, steps[..|steps| - 1]), steps[|steps| - 1]);
    }
  }

  /** In every run, for every client ever registered: the accepted messages are the written ones,
      then at most one lost in a failed write, then the one being written, then the queue, in order;
      at most 64 wait; drops happened only on an open client with 64 waiting, refusals only on a
      closed one; and every offer was accepted, dropped or refused. */
  lemma DeliveryIsFifo(init: State, steps: seq<Step>, k: ConnId)
    requires Fresh(init) && k in After(init, steps).hub.clients
    ensures
      var c := After(init, steps).hub.clients[k];
      && Accepted(c.offers) == c.written + c.lost + c.InFlight() + c.queue
      && |c.lost + c.InFlight()| <= 1 && |c.queue| <= SEND_BUFFER
      && (forall o :: o in c.offers ==>
            && (o.outcome == Dropped ==> o.wasOpen && o.backlog == SEND_BUFFER)
            && (o.outcome == Refused ==> !o.wasOpen))
      && |c.offers| == |Accepted(c.offers)| + Tally(c.offers, Dropped) + Tally(c.offers, Refused)
  {
    RunConserves(init, steps);
    var c := After(init, steps).hub.clients[k];
    OffersBalance(c.offers);
    assert forall o :: o in c.offers ==> Justified(o);
  }
}
