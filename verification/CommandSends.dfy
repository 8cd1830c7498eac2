/** What sending commands to several devices does to the hub. */
module CommandSends {
  import opened Base
  import opened Clients
  import opened Hubs
  import opened CommandLogs

  /** The hub after sending each log's command to its device, in order. */
  function SendAll(hub: HubState<Client>, logs: seq<Log>, picks: seq<bool>): HubState<Client>
    requires |logs| == |picks|
  {
    if logs == [] then hub
    else
      var n := |logs| - 1;
      SendAll(hub, logs[..n], picks[..n]).SendToDevice(logs[n].device, Command(logs[n].id), picks[n])
  }

  /** Whether each send returns nil, given what the sends before it left behind. */
  function NilSends(hub: HubState<Client>, logs: seq<Log>, picks: seq<bool>): (outcomes: seq<bool>)
    requires |logs| == |picks|
    ensures |outcomes| == |logs|
  {
    if logs == [] then []
    else
      var n := |logs| - 1;
      NilSends(hub, logs[..n], picks[..n]) + [SendAll(hub, logs[..n], picks[..n]).Sends(logs[n].device, picks[n])]
  }

  /** Each outcome is what the send itself recorded: there was a client and it did not refuse. */
  lemma {:induction false} NilSendsAreRecorded(hub: HubState<Client>, logs: seq<Log>, picks: seq<bool>, i: nat)
    requires |logs| == |picks| && i < |logs|
    ensures NilSends(hub, logs, picks)[i]
       <==> WentThrough(SendAll(hub, logs[..i], picks[..i]), SendAll(hub, logs[..i + 1], picks[..i + 1]),
                        logs[i].device)
  {
    var n := |logs| - 1;
    if i < n {
      assert logs[..n][..i] == logs[..i] && picks[..n][..i] == picks[..i];
      assert logs[..n][..i + 1] == logs[..i + 1] && picks[..n][..i + 1] == picks[..i + 1];
      NilSendsAreRecorded(hub, logs[..n], picks[..n], i);
    } else {
      assert logs[..i + 1] == logs && picks[..i + 1] == picks;
      SendingByField(SendAll(hub, logs[..n], picks[..n]), logs[n].device, Command(logs[n].id), picks[n]);
    }
  }

  ghost predicate EachOnce(logs: seq<Log>) {
    forall i, j :: 0 <= i < j < |logs| ==> logs[i].device != logs[j].device
  }

  /** `client` is the current client of the device of one of the logs. */
  predicate IsTarget(hub: HubState<Client>, logs: seq<Log>, client: Client) {
    exists i :: 0 <= i < |logs| && logs[i].device in hub.current && hub.current[logs[i].device] == client
  }

  /** If the log's device has a client, that client was offered the log's command and nothing else. */
  ghost predicate Offered(hub: HubState<Client>, log: Log, pick: bool, hub': HubState<Client>)
    requires hub'.clients.Keys == hub.clients.Keys
  {
    log.device in hub.current && hub.current[log.device] in hub.clients ==>
      var k := hub.current[log.device];
      && hub'.clients[k] == hub.clients[k].Send(Command(log.id), pick)
      && OfferedOnce(hub.clients[k], hub'.clients[k], Command(log.id))
  }

  /** What sending one command to each of several devices does: the client of each log's device is
      offered that command and nothing else, and nothing else in the hub moves. */
  ghost predicate SendsExactly(hub: HubState<Client>, logs: seq<Log>, picks: seq<bool>, hub': HubState<Client>)
    requires |logs| == |picks|
  {
    && hub'.current == hub.current && hub'.dashboards == hub.dashboards && hub'.sessions == hub.sessions
    && hub'.clients.Keys == hub.clients.Keys
    && (forall i :: 0 <= i < |logs| ==> Offered(hub, logs[i], picks[i], hub'))
    && (forall client :: client in hub.clients && !IsTarget(hub, logs, client) ==>
          hub'.clients[client] == hub.clients[client])
  }

  lemma {:induction false} SendAllSendsExactly(hub: HubState<Client>, logs: seq<Log>, picks: seq<bool>)
    requires |logs| == |picks| && hub.Keyed() && EachOnce(logs)
    ensures SendsExactly(hub, logs, picks, SendAll(hub, logs, picks))
  {
    if logs != [] {
      var n := |logs| - 1;
      SendAllSendsExactly(hub, logs[..n], picks[..n]);
      SendingGrows(hub, logs[..n], picks[..n], SendAll(hub, logs[..n], picks[..n]), logs[n], picks[n]);
      assert logs[..n] + [logs[n]] == logs && picks[..n] + [picks[n]] == picks;
    }
  }

  lemma TargetsGrow(hub: HubState<Client>, logs: seq<Log>, log: Log, client: Client)
    ensures IsTarget(hub, logs + [log], client)
       <==> IsTarget(hub, logs, client) || (log.device in hub.current && hub.current[log.device] == client)
  {
    var more, n := logs + [log], |logs|;
    assert more[n] == log;
    if i :| 0 <= i < n && logs[i].device in hub.current && hub.current[logs[i].device] == client {
      assert more[i].device in hub.current && hub.current[more[i].device] == client;
    }
    if i :| 0 <= i < n && more[i].device in hub.current && hub.current[more[i].device] == client {
      assert logs[i].device in hub.current && hub.current[logs[i].device] == client;
    }
  }

  lemma TargetIsNew(hub: HubState<Client>, logs: seq<Log>, log: Log)
    requires hub.Keyed() && EachOnce(logs + [log]) && log.device in hub.current
    ensures !IsTarget(hub, logs, hub.current[log.device])
  {
    var more := logs + [log];
    forall i | 0 <= i < |logs| && logs[i].device in hub.current
      ensures hub.current[logs[i].device] != hub.current[log.device]
    {
      assert more[i].device != more[|logs|].device;
    }
  }

  lemma SendingOffers(hub: HubState<Client>, logs: seq<Log>, picks: seq<bool>, hub': HubState<Client>, log: Log,
                      pick: bool)
    requires |logs| == |picks| && SendsExactly(hub, logs, picks, hub')
    requires log.device in hub.current ==> !IsTarget(hub, logs, hub.current[log.device])
    ensures
      var hub2 := hub'.SendToDevice(log.device, Command(log.id), pick);
      && hub2.clients.Keys == hub.clients.Keys
      && Offered(hub, log, pick, hub2)
      && (forall i :: 0 <= i < |logs| ==> Offered(hub, logs[i], picks[i], hub2))
  {
    var hub2 := hub'.SendToDevice(log.device, Command(log.id), pick);
    if log.device in hub.current && hub.current[log.device] in hub.clients {
      SendOffersOnce(hub.clients[hub.current[log.device]], Command(log.id));
    }
    forall i | 0 <= i < |logs| ensures Offered(hub, logs[i], picks[i], hub2) {
      assert Offered(hub, logs[i], picks[i], hub');
    }
  }

  lemma SendingGrows(hub: HubState<Client>, logs: seq<Log>, picks: seq<bool>, hub': HubState<Client>, log: Log,
                     pick: bool)
    requires |logs| == |picks| && hub.Keyed() && EachOnce(logs + [log]) && SendsExactly(hub, logs, picks, hub')
    ensures SendsExactly(hub, logs + [log], picks + [pick], hub'.SendToDevice(log.device, Command(log.id), pick))
  {
    if log.device in hub.current {
      TargetIsNew(hub, logs, log);
    }
    SendingOffers(hub, logs, picks, hub', log, pick);
    forall client {
      TargetsGrow(hub, logs, log, client);
    }
  }

  /** In a dispatch to distinct devices the outcomes do not depend on the order of the sends. */
  lemma {:induction false} SendsAreIndependent(hub: HubState<Client>, logs: seq<Log>, picks: seq<bool>, i: nat)
    requires |logs| == |picks| && hub.Keyed() && EachOnce(logs) && i < |logs|
    ensures NilSends(hub, logs, picks)[i] == hub.Sends(logs[i].device, picks[i])
  {
    var n := |logs| - 1;
    if i < n {
      SendsAreIndependent(hub, logs[..n], picks[..n], i);
    } else {
      SendAllSendsExactly(hub, logs[..n], picks[..n]);
      assert logs[..n] + [logs[n]] == logs;
      if logs[n].device in hub.current {
        TargetIsNew(hub, logs[..n], logs[n]);
      }
    }
  }
}
