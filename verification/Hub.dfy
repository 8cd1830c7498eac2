/** The connection hub: registry of device clients, dashboards and mirror sessions. */
module Hubs {
  import opened Base
  import opened Clients

  /** The hub's three maps plus the state of every client it has ever registered. `K` is the
      identity of a client: an object reference below, a connection number in the step machine. */
  datatype HubState<!K(==)> = HubState(
    current: map<DeviceId, K>,
    clients: map<K, ClientState>,
    dashboards: set<DashId>,
    sessions: map<DeviceId, DashId>)
  {
    function CloseClient(k: K): HubState<K> {
      if k in clients then this.(clients := clients[k := clients[k].Close()]) else this
    }

    function RegisterDevice(k: K, c: ClientState): HubState<K> {
      var joined := this.(clients := clients[k := c]);
      var replaced := if c.device in current then joined.CloseClient(current[c.device]) else joined;
      replaced.(current := current[c.device := k])
    }

    /** Removes whatever client is current for the device, whoever asks. */
    function UnregisterDevice(device: DeviceId): HubState<K> {
      if device in current then CloseClient(current[device]).(current := current - {device}) else this
    }

    function RegisterDashboard(x: DashId): HubState<K> {
      this.(dashboards := dashboards + {x})
    }

    function UnregisterDashboard(x: DashId): HubState<K> {
      this.(dashboards := dashboards - {x})
    }

    function Deliver(k: K, msg: Msg, pickQueue: bool): HubState<K> {
      if k in clients then this.(clients := clients[k := clients[k].Send(msg, pickQueue)]) else this
    }

    function SendToDevice(device: DeviceId, msg: Msg, pickQueue: bool): HubState<K> {
      if device in current then Deliver(current[device], msg, pickQueue) else this
    }

    /** Whether SendToDevice returns nil; a message dropped on a full buffer counts as sent. */
    predicate Sends(device: DeviceId, pickQueue: bool) {
      && device in current
      && current[device] in clients
      && clients[current[device]].Select(pickQueue) != Refused
    }

    function StartMirrorSession(device: DeviceId, x: DashId): HubState<K> {
      this.(sessions := sessions[device := x])
    }

    function StopMirrorSession(device: DeviceId): HubState<K> {
      this.(sessions := sessions - {device})
    }

    predicate IsOpen(k: K) {
      k in clients && clients[k].open
    }

    predicate Mirrors(device: DeviceId, x: DashId) {
      device in sessions && sessions[device] == x
    }

    /** The cleanup for dashboard `x` once the devices in `seen` have been visited. */
    function StopSessionsSeen(x: DashId, seen: set<DeviceId>, picks: set<DeviceId>): HubState<K> {
      this.(sessions := map d | d in sessions && !(d in seen && Mirrors(d, x)) :: sessions[d],
            clients := map k | k in clients ::
              var d := clients[k].device;
              if d in seen && Mirrors(d, x) && d in current && current[d] == k
              then clients[k].Send(StopMirror, d in picks)
              else clients[k])
    }

    function StopMirrorSessionsForDashboard(x: DashId, picks: set<DeviceId>): HubState<K> {
      StopSessionsSeen(x, sessions.Keys, picks)
    }

    /** Each client sits in the registry under its own device's key. */
    ghost predicate Keyed() {
      forall d :: d in current ==> current[d] in clients && clients[current[d]].device == d
    }
  }

  // ---------------------------------------------------------------- operations, field by field

  /** Registering client `k`, in the state `c`, moves one registry entry and closes one client at most:
      the one that was current for the device. */
  ghost predicate Registers<K>(h: HubState<K>, h': HubState<K>, k: K, c: ClientState) {
    && (forall d :: d in h'.current <==> d in h.current || d == c.device)
    && (forall d :: d in h'.current ==> h'.current[d] == if d == c.device then k else h.current[d])
    && h'.clients.Keys == h.clients.Keys + {k}
    && (forall j :: j in h'.clients ==>
          var before := if j == k then c else h.clients[j];
          h'.clients[j] == if c.device in h.current && h.current[c.device] == j then before.(open := false) else before)
    && h'.dashboards == h.dashboards && h'.sessions == h.sessions
  }

  /** Unregistering a device removes its entry and closes the client that was current for it. */
  ghost predicate Unregisters<K>(h: HubState<K>, h': HubState<K>, device: DeviceId) {
    && (forall d :: d in h'.current <==> d in h.current && d != device)
    && (forall d :: d in h'.current ==> h'.current[d] == h.current[d])
    && h'.clients.Keys == h.clients.Keys
    && (forall j :: j in h.clients ==>
          h'.clients[j]
          == if device in h.current && h.current[device] == j then h.clients[j].(open := false) else h.clients[j])
    && h'.dashboards == h.dashboards && h'.sessions == h.sessions
  }

  /** Client `k` is offered the message once and nothing else moves. */
  ghost predicate DeliversOnly<K>(h: HubState<K>, h': HubState<K>, k: K, msg: Msg) {
    && h'.current == h.current && h'.dashboards == h.dashboards && h'.sessions == h.sessions
    && h'.clients.Keys == h.clients.Keys
    && (k in h.clients ==> OfferedOnce(h.clients[k], h'.clients[k], msg))
    && (forall j :: j in h.clients && j != k ==> h'.clients[j] == h.clients[j])
  }

  /** A send to the device that turns `h` into `h'` went to a client, which did not refuse it. */
  predicate WentThrough<K(==)>(h: HubState<K>, h': HubState<K>, device: DeviceId) {
    device in h.current && h.current[device] in h'.clients && !LatestRefused(h'.clients[h.current[device]])
  }

  predicate IsClosedAndFull<K(==)>(h: HubState<K>, k: K) {
    k in h.clients && !h.clients[k].open && |h.clients[k].queue| >= SEND_BUFFER
  }

  lemma RegisteringByField<K>(h: HubState<K>, k: K, c: ClientState)
    ensures Registers(h, h.RegisterDevice(k, c), k, c)
  {
  }

  lemma UnregisteringByField<K>(h: HubState<K>, device: DeviceId)
    ensures Unregisters(h, h.UnregisterDevice(device), device)
  {
  }

  lemma DeliveringByField<K>(h: HubState<K>, k: K, msg: Msg, pick: bool)
    ensures DeliversOnly(h, h.Deliver(k, msg, pick), k, msg)
  {
    if k in h.clients {
      SendOffersOnce(h.clients[k], msg);
    }
  }

  /** Sending returns nil exactly if there is a current client and the offer it has just recorded is not
      a refusal; so an open client never makes it err, and a closed full one always does. */
  lemma SendingByField<K>(h: HubState<K>, device: DeviceId, msg: Msg, pick: bool)
    ensures
      var h' := h.SendToDevice(device, msg, pick);
      && (if device in h.current then DeliversOnly(h, h', h.current[device], msg) else h' == h)
      && (h.Sends(device, pick) <==> WentThrough(h, h', device))
      && (device in h.current && h.IsOpen(h.current[device]) ==> h.Sends(device, pick))
      && (device in h.current && IsClosedAndFull(h, h.current[device]) ==> !h.Sends(device, pick))
  {
    if device in h.current {
      DeliveringByField(h, h.current[device], msg, pick);
      if h.current[device] in h.clients {
        SendOffersOnce(h.clients[h.current[device]], msg);
      }
    }
  }

  /** Visiting one more session of the cleanup, in any order. */
  lemma CleanupStep<K>(h: HubState<K>, x: DashId, seen: set<DeviceId>, picks: set<DeviceId>, d: DeviceId, pick: bool)
    requires h.Keyed() && d in h.sessions && d !in seen && picks <= seen
    ensures
      var part := h.StopSessionsSeen(x, seen, picks);
      var stopped := part.StopMirrorSession(d);
      h.StopSessionsSeen(x, seen + {d}, if pick && h.Mirrors(d, x) && d in h.current then picks + {d} else picks)
      == if !h.Mirrors(d, x) then part
         else stopped.SendToDevice(d, StopMirror, pick)
  {
    var picks' := if pick && h.Mirrors(d, x) && d in h.current then picks + {d} else picks;
    var part, next := h.StopSessionsSeen(x, seen, picks), h.StopSessionsSeen(x, seen + {d}, picks');
    if h.Mirrors(d, x) {
      assert next.sessions == part.sessions - {d};
      if d in h.current {
        var k := h.current[d];
        assert next.clients == part.clients[k := part.clients[k].Send(StopMirror, pick)];
      } else {
        assert next.clients == part.clients;
      }
    } else {
      assert next.clients == part.clients;
      assert next.sessions == part.sessions;
    }
  }

  /** What a disconnecting dashboard's cleanup means for the rest of the system: exactly its own
      sessions go, every device that loses its session and has a client is told once, which takes
      effect if that client is open with room, and no other client sees anything. */
  ghost predicate ExactCleanup(h: HubState<ConnId>, h': HubState<ConnId>, x: DashId)
    requires h.Keyed() && h'.clients.Keys == h.clients.Keys
  {
    && (forall d, y :: h'.Mirrors(d, y) <==> h.Mirrors(d, y) && y != x)
    && h'.current == h.current && h'.dashboards == h.dashboards
    && (forall d :: h.Mirrors(d, x) && d in h.current ==>
          ToldOnce(h.clients[h.current[d]], h'.clients[h.current[d]]))
    && (forall k :: k in h.clients && !LosesSession(h, k, x) ==> h'.clients[k] == h.clients[k])
  }

  ghost predicate LosesSession(h: HubState<ConnId>, k: ConnId, x: DashId) {
    exists d :: h.Mirrors(d, x) && d in h.current && h.current[d] == k
  }

  predicate ToldOnce(before: ClientState, after: ClientState) {
    && |after.offers| == |before.offers| + 1
    && after.offers[|before.offers|].msg == StopMirror
    && (before.open && |before.queue| < SEND_BUFFER ==> after.queue == before.queue + [StopMirror])
    && (before.open && |before.queue| >= SEND_BUFFER ==> after.queue == before.queue)
    && (!before.open ==> after.queue == before.queue || after.queue == before.queue + [StopMirror])
  }

  lemma CleanupIsExact(h: HubState<ConnId>, x: DashId, picks: set<DeviceId>)
    requires h.Keyed()
    ensures h.StopMirrorSessionsForDashboard(x, picks).clients.Keys == h.clients.Keys
    ensures ExactCleanup(h, h.StopMirrorSessionsForDashboard(x, picks), x)
  {
    var h' := h.StopMirrorSessionsForDashboard(x, picks);
    forall k | k in h.clients && h'.clients[k] != h.clients[k] ensures LosesSession(h, k, x) {
      var d := h.clients[k].device;
      assert h.Mirrors(d, x) && d in h.current && h.current[d] == k;
    }
  }

  class Hub {
    var deviceClients: map<DeviceId, Client>
    var dashboardClients: set<DashId>
    var mirrorSessions: map<DeviceId, DashId>
    ghost var known: set<Client>

    ghost predicate Valid()
      reads this, known
    {
      forall d :: d in deviceClients ==> deviceClients[d] in known && deviceClients[d].deviceId == d
    }

    ghost function View(): HubState<Client>
      reads this, known
    {
      HubState(deviceClients, map c | c in known :: c.View(), dashboardClients, mirrorSessions)
    }

    constructor ()
      ensures Valid() && known == {}
      ensures View() == HubState(map[], map[], {}, map[])
    {
      deviceClients, dashboardClients, mirrorSessions, known := map[], {}, map[], {};
    }

    /** Closing one registered client, seen from the hub. */
    method CloseKnown(client: Client)
      requires Valid() && client in known
      modifies client
      ensures Valid() && View() == old(View()).CloseClient(client)
    {
      client.Close();
    }

    /** A client the hub did not know joins, seen from the hub. */
    ghost method Track(client: Client)
      requires Valid()
      modifies this`known
      ensures Valid() && known == old(known) + {client}
      ensures View() == old(View()).(clients := old(View()).clients[client := client.View()])
    {
      known := known + {client};
    }

    method MakeCurrent(client: Client)
      requires Valid() && client in known
      modifies this`deviceClients
      ensures Valid() && View() == old(View()).(current := old(View()).current[client.deviceId := client])
    {
      deviceClients := deviceClients[client.deviceId := client];
    }

    method RegisterDevice(client: Client)
      requires Valid()
      modifies this, known + {client}
      ensures Valid() && known == old(known) + {client}
      ensures View() == old(View()).RegisterDevice(client, old(client.View()))
      ensures Registers(old(View()), View(), client, old(client.View()))
    {
      RegisteringByField(View(), client, client.View());
      Track(client);
      if client.deviceId in deviceClients {
        CloseKnown(deviceClients[client.deviceId]);
      }
      MakeCurrent(client);
    }

    method UnregisterDevice(device: DeviceId)
      requires Valid()
      modifies this, known
      ensures Valid() && known == old(known)
      ensures View() == old(View()).UnregisterDevice(device)
      ensures Unregisters(old(View()), View(), device)
    {
      UnregisteringByField(View(), device);
      if device in deviceClients {
        CloseKnown(deviceClients[device]);
        deviceClients := deviceClients - {device};
      }
    }

    method RegisterDashboard(x: DashId)
      requires Valid()
      modifies this
      ensures Valid() && known == old(known)
      ensures View() == old(View()).RegisterDashboard(x)
    {
      dashboardClients := dashboardClients + {x};
    }

    method UnregisterDashboard(x: DashId)
      requires Valid()
      modifies this
      ensures Valid() && known == old(known)
      ensures View() == old(View()).UnregisterDashboard(x)
    {
      dashboardClients := dashboardClients - {x};
    }

    /** `err` is ErrDeviceNotConnected. */
    method SendToDevice(device: DeviceId, msg: Msg) returns (err: bool, ghost pickQueue: bool)
      requires Valid()
      modifies known
      ensures Valid()
      ensures View() == old(View()).SendToDevice(device, msg, pickQueue)
      ensures err <==> !old(View()).Sends(device, pickQueue)
      ensures err <==> device !in deviceClients || LatestRefused(deviceClients[device].View())
      ensures device in deviceClients && !old(deviceClients[device].done) ==> !err
      ensures device in deviceClients && old(IsClosedAndFull(View(), deviceClients[device])) ==> err
    {
      ghost var before := View();
      if device !in deviceClients {
        return true, true;
      }
      err, pickQueue := deviceClients[device].Send(msg);
      SendingByField(before, device, msg, pickQueue);
    }

    /** Writes to every dashboard in the order the map happens to yield them; `failing` are the
        connections whose write fails. A failure never keeps the message from the others. */
    method BroadcastToDashboards(failing: set<DashId>) returns (reached: seq<DashId>)
      ensures forall x :: multiset(reached)[x] == if x in dashboardClients && x !in failing then 1 else 0
    {
      reached := [];
      var rest := dashboardClients;
      while rest != {}
        invariant rest <= dashboardClients
        invariant forall x :: multiset(reached)[x]
                    == if x in dashboardClients && x !in rest && x !in failing then 1 else 0
        decreases rest
      {
        var x :| x in rest;
        rest := rest - {x};
        if x !in failing {
          reached := reached + [x];
        }
      }
    }

    method StartMirrorSession(device: DeviceId, x: DashId)
      requires Valid()
      modifies this
      ensures Valid() && known == old(known)
      ensures View() == old(View()).StartMirrorSession(device, x)
    {
      mirrorSessions := mirrorSessions[device := x];
    }

    method StopMirrorSession(device: DeviceId)
      requires Valid()
      modifies this
      ensures Valid() && known == old(known)
      ensures View() == old(View()).StopMirrorSession(device)
    {
      mirrorSessions := mirrorSessions - {device};
    }

    /** One removal inside the cleanup loop: forget the session, then tell the device. */
    method DropSession(device: DeviceId) returns (ghost pick: bool)
      requires Valid()
      modifies this, known
      ensures Valid() && known == old(known)
      ensures View() == old(View()).StopMirrorSession(device).SendToDevice(device, StopMirror, pick)
      ensures device !in old(deviceClients) ==> !pick
    {
      pick := false;
      mirrorSessions := mirrorSessions - {device};
      if device in deviceClients {
        var _, choice := deviceClients[device].Send(StopMirror);
        pick := choice;
      }
    }

    /** Visits the sessions in whatever order the map yields them, deleting as it goes. */
    method StopMirrorSessionsForDashboard(x: DashId) returns (ghost picks: set<DeviceId>)
      requires Valid()
      modifies this, known
      ensures Valid() && known == old(known)
      ensures View() == old(View()).StopMirrorSessionsForDashboard(x, picks)
    {
      picks := {};
      ghost var start, seen := View(), {};
      var rest := mirrorSessions.Keys;
      while rest != {}
        invariant Valid() && known == old(known)
        invariant start.Keyed()
        invariant rest <= mirrorSessions.Keys
        invariant picks <= seen && seen !! rest && seen + rest == start.sessions.Keys
        invariant View() == start.StopSessionsSeen(x, seen, picks)
        decreases rest
      {
        var d :| d in rest;
        rest := rest - {d};
        ghost var pick := false;
        if mirrorSessions[d] == x {
          pick := DropSession(d);
        }
        CleanupStep(start, x, seen, picks, d, pick);
        picks := if pick then picks + {d} else picks;
        seen := seen + {d};
      }
    }

    /** Relays one frame; `ok` is whether the write succeeds. The lookup and the write are not one
        atomic step, so in the step machine other goroutines run between them. */
    method SendMirrorFrame(device: DeviceId, ok: bool) returns (target: Option<DashId>)
      requires Valid()
      modifies this
      ensures Valid() && known == old(known)
      ensures target == if device in old(mirrorSessions) then Some(old(mirrorSessions)[device]) else None
      ensures View() == if target == None || ok then old(View()) else old(View()).StopMirrorSession(device)
    {
      if device !in mirrorSessions {
        return None;
      }
      target := Some(mirrorSessions[device]);
      if !ok {
        StopMirrorSession(device);
      }
    }
  }
}
