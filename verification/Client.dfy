/** The per-device client: bounded send queue, close-once flag and write pump. */
module Clients {
  import opened Base

  const SEND_BUFFER: nat := 64

  datatype Outcome = Queued | Dropped | Refused

  /** One call of Send: the message, how it ended, and what its select found. */
  datatype Offer = Offer(msg: Msg, outcome: Outcome, wasOpen: bool, backlog: nat)

  /** Where the write pump stands. `Writing` holds the message taken off the queue. */
  datatype Pump = NotStarted | Selecting | Writing(msg: Msg) | Leaving | Gone

  datatype PumpStep = Begin | Take | WriteOk | WriteFail | PingFail | SeeDone | Exit

  /** A client together with the history the delivery properties speak about. */
  datatype ClientState = ClientState(
    device: DeviceId,
    open: bool,
    queue: seq<Msg>,
    pump: Pump,
    offers: seq<Offer>,
    written: seq<Msg>,
    lost: seq<Msg>)
  {
    /** The select in Send. With a closed client and room in the buffer both cases are
        ready and `pickQueue` is the runtime's choice. */
    function Select(pickQueue: bool): Outcome {
      if |queue| < SEND_BUFFER && (open || pickQueue) then Queued
      else if open then Dropped
      else Refused
    }

    function Send(msg: Msg, pickQueue: bool): ClientState {
      var outcome := Select(pickQueue);
      this.(offers := offers + [Offer(msg, outcome, open, |queue|)],
            queue := if outcome == Queued then queue + [msg] else queue)
    }

    function Close(): ClientState {
      this.(open := false)
    }

    /** One step of the write pump; a step whose case is not ready changes nothing. */
    function PumpNext(step: PumpStep): ClientState {
      match step
      case Begin => if pump == NotStarted then this.(pump := Selecting) else this
      case Take =>
        if pump == Selecting && queue != [] then this.(pump := Writing(queue[0]), queue := queue[1..]) else this
      case WriteOk => if pump.Writing? then this.(pump := Selecting, written := written + [pump.msg]) else this
      case WriteFail => if pump.Writing? then this.(pump := Leaving, lost := lost + [pump.msg]) else this
      case PingFail => if pump == Selecting then this.(pump := Leaving) else this
      case SeeDone => if pump == Selecting && !open then this.(pump := Leaving) else this
      case Exit => if pump == Leaving then this.(pump := Gone).Close() else this
    }

    function InFlight(): seq<Msg> {
      if pump.Writing? then [pump.msg] else []
    }
  }

  function NewClient(device: DeviceId): ClientState {
    ClientState(device, true, [], NotStarted, [], [], [])
  }

  /** The messages Send put on the queue, oldest first. */
  function Accepted(offers: seq<Offer>): seq<Msg> {
    if offers == [] then []
    else
      var last := offers[|offers| - 1];
      Accepted(offers[..|offers| - 1]) + (if last.outcome == Queued then [last.msg] else [])
  }

  function Tally(offers: seq<Offer>, outcome: Outcome): nat {
    if offers == [] then 0
    else
      Tally(offers[..|offers| - 1], outcome) + (if offers[|offers| - 1].outcome == outcome then 1 else 0)
  }

  /** What each outcome says about the client at that moment. */
  predicate Justified(o: Offer) {
    match o.outcome
    case Queued => o.backlog < SEND_BUFFER
    case Dropped => o.wasOpen && o.backlog == SEND_BUFFER
    case Refused => !o.wasOpen
  }

  /** First-in first-out conservation: nothing accepted is reordered, duplicated or forgotten,
      and at most the one message of a failed write is lost. */
  ghost predicate Conserved(c: ClientState) {
    && Accepted(c.offers) == c.written + c.lost + c.InFlight() + c.queue
    && |c.queue| <= SEND_BUFFER
    && |c.lost| + |c.InFlight()| <= 1
    && (c.lost != [] ==> c.pump in {Leaving, Gone})
    && (forall o :: o in c.offers ==> Justified(o))
  }

  /** What one call of Send does to a client, field by field: it is recorded truthfully, an open client
      takes the message if there is room and drops it otherwise, a closed full one refuses it, a closed
      one with room takes or refuses it, and a message that is not taken leaves the queue alone. */
  predicate OfferedOnce(c: ClientState, c': ClientState, msg: Msg) {
    && |c'.offers| == |c.offers| + 1 && c'.offers[..|c.offers|] == c.offers
    && var o := c'.offers[|c.offers|];
    && o.msg == msg && o.wasOpen == c.open && o.backlog == |c.queue|
    && (c.open ==> o.outcome == if |c.queue| < SEND_BUFFER then Queued else Dropped)
    && (!c.open ==> o.outcome == Refused || (o.outcome == Queued && |c.queue| < SEND_BUFFER))
    && c'.queue == c.queue + (if o.outcome == Queued then [msg] else [])
    && c'.device == c.device && c'.open == c.open && c'.pump == c.pump
    && c'.written == c.written && c'.lost == c.lost
  }

  /** How the client's latest offer ended. */
  predicate LatestRefused(c: ClientState) {
    c.offers != [] && c.offers[|c.offers| - 1].outcome == Refused
  }

  /** Every send is such an offer, and with a closed client that has room either end is possible. */
  lemma SendOffersOnce(c: ClientState, msg: Msg)
    ensures forall pick :: OfferedOnce(c, c.Send(msg, pick), msg)
    ensures forall pick :: LatestRefused(c.Send(msg, pick)) <==> c.Select(pick) == Refused
    ensures !c.open && |c.queue| < SEND_BUFFER ==>
              LatestRefused(c.Send(msg, false)) && !LatestRefused(c.Send(msg, true))
  {
  }

  lemma SendConserves(c: ClientState, msg: Msg, pickQueue: bool)
    requires Conserved(c)
    ensures Conserved(c.Send(msg, pickQueue))
  {
    var c' := c.Send(msg, pickQueue);
    assert c'.offers[..|c'.offers| - 1] == c.offers;
    if c.Select(pickQueue) == Queued {
      assert c.written + c.lost + c.InFlight() + (c.queue + [msg])
          == (c.written + c.lost + c.InFlight() + c.queue) + [msg];
    }
  }

  lemma PumpConserves(c: ClientState, step: PumpStep)
    requires Conserved(c)
    ensures Conserved(c.PumpNext(step))
  {
    if step == Take && c.pump == Selecting && c.queue != [] {
      assert [c.queue[0]] + c.queue[1..] == c.queue;
      assert c.written + c.lost + [] + c.queue == c.written + c.lost + [c.queue[0]] + c.queue[1..];
    } else if step == WriteOk && c.pump.Writing? {
      assert c.lost == [];
      assert c.written + [] + [c.pump.msg] + c.queue == (c.written + [c.pump.msg]) + [] + [] + c.queue;
    } else if step == WriteFail && c.pump.Writing? {
      assert c.lost == [];
      assert c.written + [] + [c.pump.msg] + c.queue == c.written + ([] + [c.pump.msg]) + [] + c.queue;
    }
  }

  /** Every offered message is accounted for exactly once. */
  lemma {:induction false} OffersBalance(offers: seq<Offer>)
    ensures |offers| == |Accepted(offers)| + Tally(offers, Dropped) + Tally(offers, Refused)
    ensures |Accepted(offers)| == Tally(offers, Queued)
  {
    if offers != [] {
      OffersBalance(offers[..|offers| - 1]);
    }
  }

  /** How one wake-up of the write pump's select ends: data to write, a ping tick, or done. */
  datatype Wake = Data(ok: bool) | PingTick(ok: bool) | Done

  function WakeNext(c: ClientState, wake: Wake): ClientState {
    match wake
    case Data(ok) => c.PumpNext(Take).PumpNext(if ok then WriteOk else WriteFail)
    case PingTick(ok) => if ok then c else c.PumpNext(PingFail)
    case Done => c.PumpNext(SeeDone)
  }

  /** One wake-up of a pump in its select, field by field: data is taken from the head of the queue and
      written, or lost if the write fails; the pump leaves after a failed write, a failed ping or an
      observed close, and otherwise selects again. */
  lemma WakeMoves(c: ClientState, wake: Wake)
    requires c.pump == Selecting
    ensures
      var c' := WakeNext(c, wake);
      && (c.queue != [] && wake == Data(true) ==>
            c'.written == c.written + [c.queue[0]] && c'.queue == c.queue[1..] && c'.lost == c.lost)
      && (c.queue != [] && wake == Data(false) ==>
            c'.lost == c.lost + [c.queue[0]] && c'.queue == c.queue[1..] && c'.written == c.written)
      && (c.queue == [] || !wake.Data? ==> c'.written == c.written && c'.queue == c.queue && c'.lost == c.lost)
      && (c'.pump == Leaving <==>
            (wake == Data(false) && c.queue != []) || wake == PingTick(false) || (wake == Done && !c.open))
      && c'.pump in {Selecting, Leaving}
      && c'.open == c.open && c'.offers == c.offers && c'.device == c.device
  {
  }

  function Wakes(c: ClientState, script: seq<Wake>): ClientState {
    if script == [] then c else WakeNext(Wakes(c, script[..|script| - 1]), script[|script| - 1])
  }

  lemma {:induction false} WakesConserve(c: ClientState, script: seq<Wake>)
    requires Conserved(c)
    ensures Conserved(Wakes(c, script))
  {
    if script != [] {
      var before := Wakes(c, script[..|script| - 1]);
      WakesConserve(c, script[..|script| - 1]);
      match script[|script| - 1] {
        case Data(ok) =>
          PumpConserves(before, Take);
          PumpConserves(before.PumpNext(Take), if ok then WriteOk else WriteFail);
        case PingTick(_) => PumpConserves(before, PingFail);
        case Done => PumpConserves(before, SeeDone);
      }
    }
  }

  /** As many successful wake-ups as messages wait write the whole queue, in order. */
  lemma {:induction false} WakesDrain(c: ClientState, n: nat)
    requires c.pump == Selecting && n <= |c.queue|
    ensures
      var c' := Wakes(c, seq(n, _ => Data(true)));
      && c'.written == c.written + c.queue[..n] && c'.queue == c.queue[n..] && c'.lost == c.lost
      && c'.pump == Selecting && c'.open == c.open
  {
    if n > 0 {
      var script := seq(n, _ => Data(true));
      assert script[..n - 1] == seq(n - 1, _ => Data(true));
      WakesDrain(c, n - 1);
      var before := Wakes(c, script[..n - 1]);
      WakeMoves(before, Data(true));
      assert c.queue[..n] == c.queue[..n - 1] + [c.queue[n - 1]];
    }
  }

  class Client {
    const deviceId: DeviceId
    var send: seq<Msg>
    var done: bool
    ghost var pump: Pump
    ghost var offers: seq<Offer>
    ghost var written: seq<Msg>
    ghost var lost: seq<Msg>

    ghost function View(): ClientState
      reads this
    {
      ClientState(deviceId, !done, send, pump, offers, written, lost)
    }

    constructor (deviceId: DeviceId)
      ensures this.deviceId == deviceId
      ensures View() == NewClient(deviceId)
    {
      this.deviceId := deviceId;
      send, done := [], false;
      pump, offers, written, lost := NotStarted, [], [], [];
    }

    /** Queues a message; `err` is ErrDeviceNotConnected. A full buffer drops silently. */
    method Send(msg: Msg) returns (err: bool, ghost pickQueue: bool)
      modifies this
      ensures View() == old(View()).Send(msg, pickQueue)
      ensures OfferedOnce(old(View()), View(), msg)
      ensures err <==> LatestRefused(View())
    {
      pickQueue := true;
      offers := offers + [Offer(msg, Dropped, !done, |send|)];
      if |send| < SEND_BUFFER && !done {
        send := send + [msg];
        offers := offers[|offers| - 1 := offers[|offers| - 1].(outcome := Queued)];
        err := false;
      } else if |send| < SEND_BUFFER {
        if * {
          send := send + [msg];
          offers := offers[|offers| - 1 := offers[|offers| - 1].(outcome := Queued)];
          err := false;
        } else {
          pickQueue := false;
          offers := offers[|offers| - 1 := offers[|offers| - 1].(outcome := Refused)];
          err := true;
        }
      } else if done {
        offers := offers[|offers| - 1 := offers[|offers| - 1].(outcome := Refused)];
        err := true;
      } else {
        err := false;
      }
    }

    method Close()
      modifies this
      ensures View() == old(View()).Close()
      ensures done && View() == old(View()).(open := false)
    {
      if !done {
        done := true;
      }
    }

    /** One iteration of the pump's loop. */
    method Wake(wake: Wake) returns (running: bool)
      requires pump == Selecting
      modifies this
      ensures View() == WakeNext(old(View()), wake)
      ensures pump == (if running then Selecting else Leaving) && done == old(done)
    {
      running := true;
      match wake {
        case Data(ok) =>
          if send != [] {
            var data := send[0];
            send := send[1..];
            if ok {
              written := written + [data];
            } else {
              lost := lost + [data];
              running, pump := false, Leaving;
            }
          }
        case PingTick(ok) =>
          if !ok {
            running, pump := false, Leaving;
          }
        case Done =>
          if done {
            running, pump := false, Leaving;
          }
      }
    }

    /** On the way out the pump closes its client. */
    method LeavePump()
      requires pump == Leaving
      modifies this
      ensures View() == old(View()).PumpNext(Exit) && pump == Gone && done
    {
      pump := Gone;
      Close();
    }

    /** The pump loop, driven by the outcomes of its selects and writes. It stops at the first
        failed write, failed ping or observed close, and closes the client on the way out. */
    method WritePump(script: seq<Wake>)
      requires pump == Selecting
      modifies this
      ensures View() == Wakes(old(View()), script).PumpNext(Exit)
      ensures (pump == Gone && done) || (pump == Selecting && done == old(done))
    {
      var i, running := 0, true;
      ghost var start, reached := View(), View();
      while i < |script| && running
        invariant 0 <= i <= |script|
        invariant View() == reached && reached == Wakes(start, script[..i])
        invariant pump == (if running then Selecting else Leaving) && done == old(done)
      {
        WakesOneMore(start, script, i);
        reached := WakeNext(reached, script[i]);
        running := Wake(script[i]);
        i := i + 1;
      }
      ScriptEnds(start, script, i, running);
      if !running {
        LeavePump();
      }
    }
  }

  /** Whether the loop ended with the script or before, its way out is where the whole script leads. */
  lemma ScriptEnds(c: ClientState, script: seq<Wake>, i: nat, running: bool)
    requires i <= |script| && Wakes(c, script[..i]).pump == if running then Selecting else Leaving
    requires running ==> i == |script|
    ensures Wakes(c, script).PumpNext(Exit)
         == if running then Wakes(c, script[..i]) else Wakes(c, script[..i]).PumpNext(Exit)
  {
    if running {
      assert script[..i] == script;
    } else {
      LeftStaysLeft(c, script, i);
    }
  }

  lemma WakesOneMore(c: ClientState, script: seq<Wake>, i: nat)
    requires i < |script|
    ensures Wakes(c, script[..i + 1]) == WakeNext(Wakes(c, script[..i]), script[i])
  {
    assert script[..i + 1][..i] == script[..i];
  }

  /** Once the pump has left its loop the rest of the script finds nobody listening. */
  lemma {:induction false} LeftStaysLeft(c: ClientState, script: seq<Wake>, i: nat)
    requires i <= |script|
    requires Wakes(c, script[..i]).pump == Leaving
    ensures Wakes(c, script) == Wakes(c, script[..i])
    decreases |script| - i
  {
    if i == |script| {
      assert script[..i] == script;
    } else {
      assert script[..i + 1][..i] == script[..i];
      LeftStaysLeft(c, script, i + 1);
    }
  }
}
