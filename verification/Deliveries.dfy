/** Offers and dispatches: how what clients were offered relates to what requests dispatched. */
module Deliveries {
  import opened Base
  import opened Clients
  import opened CommandLogs
  import opened DeviceTable
  import CommandRuns
  import CommandAccounting

  function NextLog(q: CommandRuns.Request): Log
    requires q.CanDispatch()
  {
    q.logs[|q.outcomes|]
  }

  /** The `j`-th offer made to client `k` was the command `id`. */
  predicate Offers(clients: map<ConnId, ClientState>, k: ConnId, j: nat, id: CommandId) {
    k in clients && j < |clients[k].offers| && clients[k].offers[j].msg == Command(id)
  }

  /** That offer is what the dispatch of `id` amounted to. */
  predicate Explained(clients: map<ConnId, ClientState>, l: CommandRuns.Ledger, k: ConnId, j: nat, id: CommandId)
    requires Offers(clients, k, j, id)
  {
    id in l.made &&
    var (r, i) := l.made[id];
    && Dispatched(l, r, i)
    && l.requests[r].logs[i] == Log(id, clients[k].device)
    && (l.requests[r].outcomes[i] <==> clients[k].offers[j].outcome != Refused)
  }

  predicate Dispatched(l: CommandRuns.Ledger, r: nat, i: nat) {
    r in l.requests && i < |l.requests[r].outcomes| <= |l.requests[r].logs|
  }

  ghost predicate WasOffered(clients: map<ConnId, ClientState>, id: CommandId) {
    exists k: ConnId, j: nat :: Offers(clients, k, j, id)
  }

  /** Every command offer is explained by its dispatch, no command is offered twice and every nil
      outcome has its offer. */
  ghost predicate Linked(clients: map<ConnId, ClientState>, l: CommandRuns.Ledger) {
    && (forall k: ConnId, j: nat, id: CommandId :: Offers(clients, k, j, id) ==> Explained(clients, l, k, j, id))
    && (forall k: ConnId, j: nat, k': ConnId, j': nat, id: CommandId ::
          Offers(clients, k, j, id) && Offers(clients, k', j', id) ==> k == k' && j == j')
    && (forall r: nat, i: nat ::
          Dispatched(l, r, i) && l.requests[r].outcomes[i] ==> WasOffered(clients, l.requests[r].logs[i].id))
  }

  /** The request is at the point of offering its next command to client `k`, one of the right device. */
  predicate MayOffer(clients: map<ConnId, ClientState>, l: CommandRuns.Ledger, r: nat, k: ConnId) {
    && r in l.requests && l.requests[r].CanDispatch()
    && k in clients && clients[k].device == NextLog(l.requests[r]).device
  }

  /** A client that kept its device and was offered at most one message, and no command. */
  predicate QuietlyExtends(c: ClientState, c': ClientState) {
    && c'.device == c.device
    && (c'.offers == c.offers || ExtendsQuietly(c.offers, c'.offers))
  }

  predicate ExtendsQuietly(offers: seq<Offer>, offers': seq<Offer>) {
    && |offers'| == |offers| + 1
    && offers'[..|offers|] == offers
    && !offers'[|offers|].msg.Command?
  }

  ghost predicate GrowsQuietly(clients: map<ConnId, ClientState>, clients': map<ConnId, ClientState>) {
    && (forall k :: k in clients ==> k in clients' && QuietlyExtends(clients[k], clients'[k]))
    && (forall k :: k in clients' && k !in clients ==> clients'[k].offers == [])
  }

  lemma QuietOffersAreOld(clients: map<ConnId, ClientState>, clients': map<ConnId, ClientState>,
                          k: ConnId, j: nat, id: CommandId)
    requires GrowsQuietly(clients, clients')
    ensures Offers(clients', k, j, id) <==> Offers(clients, k, j, id)
    ensures Offers(clients, k, j, id) ==>
              clients'[k].offers[j] == clients[k].offers[j] && clients'[k].device == clients[k].device
  {
    if k in clients {
      assert QuietlyExtends(clients[k], clients'[k]);
      assert j < |clients[k].offers| ==> clients'[k].offers[..|clients[k].offers|][j] == clients[k].offers[j];
    }
  }

  lemma GrowingKeepsLinked(clients: map<ConnId, ClientState>, clients': map<ConnId, ClientState>, l: CommandRuns.Ledger)
    requires Linked(clients, l) && GrowsQuietly(clients, clients')
    ensures Linked(clients', l)
  {
    forall k: ConnId, j: nat, id: CommandId {
      QuietOffersAreOld(clients, clients', k, j, id);
    }
    forall r: nat, i: nat | Dispatched(l, r, i) && l.requests[r].outcomes[i]
      ensures WasOffered(clients', l.requests[r].logs[i].id)
    {
      var k: ConnId, j: nat :| Offers(clients, k, j, l.requests[r].logs[i].id);
      assert Offers(clients', k, j, l.requests[r].logs[i].id);
    }
  }

  /** A step of the commands that dispatches nothing: finished dispatches, what was created and
      the requests about to dispatch are as before. */
  ghost predicate DispatchesNothing(l: CommandRuns.Ledger, l': CommandRuns.Ledger) {
    && (forall r: nat, i: nat :: Dispatched(l', r, i) <==> Dispatched(l, r, i))
    && (forall r: nat, i: nat :: Dispatched(l, r, i) ==>
          l'.requests[r].outcomes[i] == l.requests[r].outcomes[i] && l'.requests[r].logs[i] == l.requests[r].logs[i])
    && (forall id :: id in l.made ==> id in l'.made && l'.made[id] == l.made[id])
    && (forall r :: r in l.requests && l.requests[r].CanDispatch() ==>
          r in l'.requests && l'.requests[r] == l.requests[r])
  }

  lemma OpeningDispatchesNothing(l: CommandRuns.Ledger, r: nat, kind: string, payload: string, members: seq<Member>)
    ensures DispatchesNothing(l, CommandRuns.Opened(l, r, kind, payload, members))
  {
  }

  lemma ScanningDispatchesNothing(l: CommandRuns.Ledger, r: nat, inserted: Option<CommandId>)
    requires CommandAccounting.Accounted(l)
    ensures DispatchesNothing(l, l.Scan(r, inserted))
  {
    if r in l.requests {
      assert CommandAccounting.WellRun(l.requests[r]);
    }
  }

  lemma MarkingDispatchesNothing(l: CommandRuns.Ledger, r: nat, now: Time)
    requires l.CanMark(r)
    ensures DispatchesNothing(l, l.Mark(r, now))
  {
  }

  lemma OtherStepsDispatchNothing(s: CommandRuns.State, step: CommandRuns.Step)
    requires CommandAccounting.Accounted(s.ledger) && !step.Dispatch?
    ensures DispatchesNothing(s.ledger, CommandRuns.Next(s, step).ledger)
  {
    match step {
      case Open(r, kind, payload, members) => OpeningDispatchesNothing(s.ledger, r, kind, payload, members);
      case Scan(r, inserted) => ScanningDispatchesNothing(s.ledger, r, inserted);
      case Mark(r) =>
        if s.ledger.CanMark(r) {
          MarkingDispatchesNothing(s.ledger, r, s.now);
        }
      case _ =>
    }
  }

  lemma DispatchingNothingKeepsLinked(clients: map<ConnId, ClientState>, l: CommandRuns.Ledger, l': CommandRuns.Ledger)
    requires Linked(clients, l) && DispatchesNothing(l, l')
    ensures Linked(clients, l')
  {
    forall k: ConnId, j: nat, id: CommandId | Offers(clients, k, j, id) ensures Explained(clients, l', k, j, id) {
      assert Explained(clients, l, k, j, id);
      var (r, i) := l.made[id];
      assert Dispatched(l, r, i);
    }
    forall r: nat, i: nat | Dispatched(l', r, i) && l'.requests[r].outcomes[i]
      ensures WasOffered(clients, l'.requests[r].logs[i].id)
    {
      assert Dispatched(l, r, i);
    }
  }

  lemma FailedLookupKeepsLinked(clients: map<ConnId, ClientState>, l: CommandRuns.Ledger, r: nat)
    requires Linked(clients, l) && r in l.requests && l.requests[r].CanDispatch()
    ensures Linked(clients, l.Dispatch(r, false))
  {
    var l' := l.Dispatch(r, false);
    forall k: ConnId, j: nat, id: CommandId | Offers(clients, k, j, id) ensures Explained(clients, l', k, j, id) {
      assert Explained(clients, l, k, j, id);
      var (p, i) := l.made[id];
      assert Dispatched(l, p, i);
    }
    forall p: nat, i: nat | Dispatched(l', p, i) && l'.requests[p].outcomes[i]
      ensures WasOffered(clients, l'.requests[p].logs[i].id)
    {
      assert Dispatched(l, p, i);
    }
  }

  /** Offering a request's next command to a client of the right device, and recording the outcome. */
  lemma DeliveryKeepsLinked(clients: map<ConnId, ClientState>, l: CommandRuns.Ledger, r: nat, k: ConnId, pick: bool)
    requires Linked(clients, l) && CommandAccounting.Accounted(l) && MayOffer(clients, l, r, k)
    ensures Linked(clients[k := clients[k].Send(Command(NextLog(l.requests[r]).id), pick)],
                   l.Dispatch(r, clients[k].Select(pick) != Refused))
  {
    var log, n := NextLog(l.requests[r]), |l.requests[r].outcomes|;
    var clients' := clients[k := clients[k].Send(Command(log.id), pick)];
    var l' := l.Dispatch(r, clients[k].Select(pick) != Refused);
    var at := |clients[k].offers|;
    assert CommandAccounting.Tracked(l, r);
    assert CommandAccounting.MarkedAsDue(l, l.requests[r], r, n);
    assert Offers(clients', k, at, log.id);
    forall k2: ConnId, j: nat, id: CommandId | Offers(clients', k2, j, id)
      ensures Explained(clients', l', k2, j, id) && ((k2, j) == (k, at) || Offers(clients, k2, j, id))
      ensures id == log.id ==> (k2, j) == (k, at)
    {
      OfferIsNewOrOld(clients, l, k, log, pick, k2, j, id, r, n);
    }
    forall p: nat, i: nat | Dispatched(l', p, i) && l'.requests[p].outcomes[i]
      ensures WasOffered(clients', l'.requests[p].logs[i].id)
    {
      if !Dispatched(l, p, i) {
        assert (p, i) == (r, n);
      } else {
        var k2: ConnId, j: nat :| Offers(clients, k2, j, l.requests[p].logs[i].id);
        assert Offers(clients', k2, j, l.requests[p].logs[i].id);
      }
    }
  }

  /** After the delivery of `log` to `k`, an offer is either that one or one made before, and then of
      another command. */
  lemma OfferIsNewOrOld(clients: map<ConnId, ClientState>, l: CommandRuns.Ledger, k: ConnId, log: Log, pick: bool,
                        k2: ConnId, j: nat, id: CommandId, r: nat, n: nat)
    requires forall k: ConnId, j: nat, id: CommandId :: Offers(clients, k, j, id) ==> Explained(clients, l, k, j, id)
    requires k in clients && clients[k].device == log.device
    requires r in l.requests && l.requests[r].CanDispatch()
    requires n == |l.requests[r].outcomes| && l.requests[r].logs[n] == log
    requires log.id in l.made && l.made[log.id] == (r, n)
    requires Offers(clients[k := clients[k].Send(Command(log.id), pick)], k2, j, id)
    ensures
      var clients' := clients[k := clients[k].Send(Command(log.id), pick)];
      var l' := l.Dispatch(r, clients[k].Select(pick) != Refused);
      && Explained(clients', l', k2, j, id)
      && (if id == log.id then (k2, j) == (k, |clients[k].offers|) else Offers(clients, k2, j, id))
  {
    if Offers(clients, k2, j, id) {
      assert Explained(clients, l, k2, j, id);
      var (p, i) := l.made[id];
      assert Dispatched(l, p, i);
    }
  }
}
