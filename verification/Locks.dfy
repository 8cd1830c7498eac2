/** The hub's RWMutex and the clients' close-once, as goroutines contend for them. */
module Locks {
  import opened Base

  /** `Enter` and `Exit` delimit the function run by a client's sync.Once; `Io` is anything that takes
      no lock and eventually returns: channel selects, connection and database calls. */
  datatype Action = Lock | Unlock | RLock | RUnlock | Enter(client: ConnId) | Exit(client: ConnId) | Io

  // ---------------------------------------------------------------- what goroutines execute

  /** Client.Close: close(done) and conn.Close() inside the Once. */
  function CloseClient(client: ConnId): seq<Action> {
    [Enter(client), Io, Io, Exit(client)]
  }

  function CloseExisting(existing: Option<ConnId>): seq<Action> {
    if existing.Some? then CloseClient(existing.value) else []
  }

  function Times(n: nat): seq<Action> {
    if n == 0 then [] else [Io] + Times(n - 1)
  }

  /** The calls goroutines make, with the outcome of each branch: an existing client to close, how
      many dashboards or sessions a loop visits, whether a mirror session is found and its write fails. */
  datatype Call =
    | SetMessageHandler
    | RegisterDevice(existing: Option<ConnId>)
    | UnregisterDevice(existing: Option<ConnId>)
    | RegisterDashboard
    | UnregisterDashboard
    | SendToDevice(found: bool)
    | BroadcastToDashboards(dashboards: nat)
    | IsDeviceConnected
    | HandleDeviceMessage
    | PingAll(clients: nat)
    | StartMirrorSession
    | StopMirrorSession
    | StopMirrorSessionsForDashboard(sends: nat)
    | SendMirrorFrame(found: bool, failed: bool)
    | Close(client: ConnId)
    | Outside

  /** The lock actions of one call. HandleDeviceMessage reads the callback under the lock and runs it
      after; the calls the callback makes follow it in the goroutine's program. */
  function Path(call: Call): seq<Action> {
    match call
    case SetMessageHandler => [Lock, Io, Unlock]
    case RegisterDevice(existing) => [Lock] + CloseExisting(existing) + [Io, Unlock]
    case UnregisterDevice(existing) => [Lock] + CloseExisting(existing) + [Io, Unlock]
    case RegisterDashboard => [Lock, Io, Unlock]
    case UnregisterDashboard => [Lock, Io, Unlock]
    case SendToDevice(found) => [RLock, Io, RUnlock] + (if found then [Io] else [])
    case BroadcastToDashboards(n) => [RLock] + Times(n) + [RUnlock]
    case IsDeviceConnected => [RLock, Io, RUnlock]
    case HandleDeviceMessage => [RLock, Io, RUnlock]
    case PingAll(n) => [RLock] + Times(n) + [RUnlock] + Times(n)
    case StartMirrorSession => [Lock, Io, Unlock]
    case StopMirrorSession => [Lock, Io, Unlock]
    case StopMirrorSessionsForDashboard(n) => [Lock] + Times(n) + [Unlock]
    case SendMirrorFrame(found, failed) =>
      [RLock, Io, RUnlock] + (if found then [Io] + (if failed then [Lock, Io, Unlock] else []) else [])
    case Close(client) => CloseClient(client)
    case Outside => [Io]
  }

  /** A goroutine's whole path: any sequence of calls, the callback's included. */
  function Program(calls: seq<Call>): seq<Action> {
    if calls == [] then [] else Path(calls[0]) + Program(calls[1..])
  }

  // ---------------------------------------------------------------- discipline

  datatype Mode = Free | Reading | Writing

  /** From a point where the mutex is held as in `mode` and the Once of `inside` is running, the rest
      never acquires the mutex while holding it or inside a Once, never nests a Once, and ends clean. */
  predicate Disciplined(rest: seq<Action>, mode: Mode, inside: Option<ConnId>) {
    if rest == [] then mode == Free && inside == None
    else
      match rest[0]
      case Lock => mode == Free && inside == None && Disciplined(rest[1..], Writing, None)
      case Unlock => mode == Writing && inside == None && Disciplined(rest[1..], Free, None)
      case RLock => mode == Free && inside == None && Disciplined(rest[1..], Reading, None)
      case RUnlock => mode == Reading && inside == None && Disciplined(rest[1..], Free, None)
      case Enter(c) => inside == None && Disciplined(rest[1..], mode, Some(c))
      case Exit(c) => inside == Some(c) && Disciplined(rest[1..], mode, None)
      case Io => Disciplined(rest[1..], mode, inside)
  }

  lemma {:induction false} TimesDisciplined(n: nat, rest: seq<Action>, mode: Mode)
    requires Disciplined(rest, mode, None)
    ensures Disciplined(Times(n) + rest, mode, None)
  {
    if n > 0 {
      TimesDisciplined(n - 1, rest, mode);
      assert (Times(n) + rest)[1..] == Times(n - 1) + rest;
    } else {
      assert Times(n) + rest == rest;
    }
  }

  lemma CloseDisciplined(existing: Option<ConnId>, rest: seq<Action>, mode: Mode)
    requires Disciplined(rest, mode, None)
    ensures Disciplined(CloseExisting(existing) + rest, mode, None)
  {
    if existing.Some? {
      var all := CloseClient(existing.value) + rest;
      assert all[1..][1..][1..][1..] == rest;
      assert Disciplined(all[1..][1..][1..], mode, existing);
      assert Disciplined(all[1..][1..], mode, existing);
    } else {
      assert CloseExisting(existing) + rest == rest;
    }
  }

  /** Prefixing one disciplined action. */
  lemma ConsDisciplined(a: Action, rest: seq<Action>, mode: Mode, after: Mode)
    requires Disciplined(rest, after, None)
    requires || (a == Lock && mode == Free && after == Writing) || (a == Unlock && mode == Writing && after == Free)
             || (a == RLock && mode == Free && after == Reading) || (a == RUnlock && mode == Reading && after == Free)
             || (a == Io && mode == after)
    ensures Disciplined([a] + rest, mode, None)
  {
    assert ([a] + rest)[1..] == rest;
  }

  /** A critical section around a disciplined body of the same mode. */
  lemma BracketIo(write: bool, rest: seq<Action>)
    requires Disciplined(rest, Free, None)
    ensures Disciplined((if write then [Lock, Io, Unlock] else [RLock, Io, RUnlock]) + rest, Free, None)
  {
    var close, mode := if write then Unlock else RUnlock, if write then Writing else Reading;
    var open := if write then Lock else RLock;
    ConsDisciplined(close, rest, mode, Free);
    ConsDisciplined(Io, [close] + rest, mode, mode);
    ConsDisciplined(open, [Io] + ([close] + rest), Free, mode);
    assert [open] + ([Io] + ([close] + rest)) == [open, Io, close] + rest;
  }

  lemma SendDisciplined(found: bool, rest: seq<Action>)
    requires Disciplined(rest, Free, None)
    ensures Disciplined(Path(SendToDevice(found)) + rest, Free, None)
  {
    var tail := (if found then [Io] else []) + rest;
    if found {
      ConsDisciplined(Io, rest, Free, Free);
    } else {
      assert tail == rest;
    }
    BracketIo(false, tail);
    assert Path(SendToDevice(found)) + rest == [RLock, Io, RUnlock] + tail;
  }

  lemma PingDisciplined(n: nat, rest: seq<Action>)
    requires Disciplined(rest, Free, None)
    ensures Disciplined(Path(PingAll(n)) + rest, Free, None)
  {
    TimesDisciplined(n, rest, Free);
    LoopSection(false, n, Times(n) + rest);
    assert Path(PingAll(n)) + rest == [RLock] + Times(n) + [RUnlock] + (Times(n) + rest);
  }

  lemma PathDisciplined(call: Call, rest: seq<Action>)
    requires Disciplined(rest, Free, None)
    ensures Disciplined(Path(call) + rest, Free, None)
  {
    match call {
      case RegisterDevice(existing) => ClosingSection(existing, rest);
      case UnregisterDevice(existing) => ClosingSection(existing, rest);
      case SendToDevice(found) => SendDisciplined(found, rest);
      case BroadcastToDashboards(n) => LoopSection(false, n, rest);
      case PingAll(n) => PingDisciplined(n, rest);
      case StopMirrorSessionsForDashboard(n) => LoopSection(true, n, rest);
      case SendMirrorFrame(found, failed) => FrameDisciplined(found, failed, rest);
      case Close(client) => CloseDisciplined(Some(client), rest, Free);
      case Outside => ConsDisciplined(Io, rest, Free, Free);
      case IsDeviceConnected => BracketIo(false, rest);
      case HandleDeviceMessage => BracketIo(false, rest);
      case SetMessageHandler => BracketIo(true, rest);
      case RegisterDashboard => BracketIo(true, rest);
      case UnregisterDashboard => BracketIo(true, rest);
      case StartMirrorSession => BracketIo(true, rest);
      case StopMirrorSession => BracketIo(true, rest);
    }
  }

  lemma ClosingSection(existing: Option<ConnId>, rest: seq<Action>)
    requires Disciplined(rest, Free, None)
    ensures Disciplined([Lock] + CloseExisting(existing) + [Io, Unlock] + rest, Free, None)
  {
    ConsDisciplined(Unlock, rest, Writing, Free);
    ConsDisciplined(Io, [Unlock] + rest, Writing, Writing);
    CloseDisciplined(existing, [Io] + ([Unlock] + rest), Writing);
    ConsDisciplined(Lock, CloseExisting(existing) + ([Io] + ([Unlock] + rest)), Free, Writing);
    assert [Lock] + (CloseExisting(existing) + ([Io] + ([Unlock] + rest)))
        == [Lock] + CloseExisting(existing) + [Io, Unlock] + rest;
  }

  lemma LoopSection(write: bool, n: nat, rest: seq<Action>)
    requires Disciplined(rest, Free, None)
    ensures Disciplined([if write then Lock else RLock] + Times(n) + [if write then Unlock else RUnlock] + rest,
                        Free, None)
  {
    var close, mode := if write then Unlock else RUnlock, if write then Writing else Reading;
    var open := if write then Lock else RLock;
    ConsDisciplined(close, rest, mode, Free);
    TimesDisciplined(n, [close] + rest, mode);
    ConsDisciplined(open, Times(n) + ([close] + rest), Free, mode);
    assert [open] + (Times(n) + ([close] + rest)) == [open] + Times(n) + [close] + rest;
  }

  lemma FrameDisciplined(found: bool, failed: bool, rest: seq<Action>)
    requires Disciplined(rest, Free, None)
    ensures Disciplined(Path(SendMirrorFrame(found, failed)) + rest, Free, None)
  {
    if found {
      FoundFrameDisciplined(failed, rest);
    } else {
      BracketIo(false, rest);
      assert Path(SendMirrorFrame(false, failed)) == [RLock, Io, RUnlock];
    }
  }

  lemma FoundFrameDisciplined(failed: bool, rest: seq<Action>)
    requires Disciplined(rest, Free, None)
    ensures Disciplined(Path(SendMirrorFrame(true, failed)) + rest, Free, None)
  {
    var stop := if failed then [Lock, Io, Unlock] else [];
    FailureDisciplined(failed, rest);
    ConsDisciplined(Io, stop + rest, Free, Free);
    BracketIo(false, [Io] + (stop + rest));
    FoundFramePath(failed, rest);
  }

  lemma FoundFramePath(failed: bool, rest: seq<Action>)
    ensures
      var stop := if failed then [Lock, Io, Unlock] else [];
      Path(SendMirrorFrame(true, failed)) + rest == [RLock, Io, RUnlock] + ([Io] + (stop + rest))
  {
    var stop := if failed then [Lock, Io, Unlock] else [];
    assert Path(SendMirrorFrame(true, failed)) == [RLock, Io, RUnlock] + ([Io] + stop);
  }

  lemma FailureDisciplined(failed: bool, rest: seq<Action>)
    requires Disciplined(rest, Free, None)
    ensures Disciplined((if failed then [Lock, Io, Unlock] else []) + rest, Free, None)
  {
    if failed {
      BracketIo(true, rest);
    } else {
      assert [] + rest == rest;
    }
  }

  /** Every path a goroutine can take keeps the discipline: whatever it calls, in whatever order. */
  lemma {:induction false} ProgramsAreDisciplined(calls: seq<Call>)
    ensures Disciplined(Program(calls), Free, None)
  {
    if calls != [] {
      ProgramsAreDisciplined(calls[1..]);
      PathDisciplined(calls[0], Program(calls[1..]));
    }
  }

  // ---------------------------------------------------------------- contention

  datatype Once = Fresh | Running(runner: nat) | Done

  /** A goroutine: what is left of its path, and the client whose Once it is running. */
  datatype Thread = Thread(rest: seq<Action>, inside: Option<ConnId>)

  /** A Lock first announces its writer, which holds new readers off, and becomes `active` once the
      readers have drained. A client missing from `once` has never been closed. */
  datatype State = State(
    threads: seq<Thread>,
    writer: Option<nat>,
    active: bool,
    readers: set<nat>,
    once: map<ConnId, Once>)
  {
    function OnceOf(c: ConnId): Once {
      if c in once then once[c] else Fresh
    }

    function ModeOf(t: nat): Mode {
      if writer == Some(t) && active then Writing else if t in readers then Reading else Free
    }

    function Pop(t: nat): State
      requires t < |threads| && threads[t].rest != []
    {
      this.(threads := threads[t := threads[t].(rest := threads[t].rest[1..])])
    }
  }

  function Init(programs: seq<seq<Call>>): State {
    State(seq(|programs|, i requires 0 <= i < |programs| => Thread(Program(programs[i]), None)), None, false, {}, map[])
  }

  predicate CanStep(s: State, t: nat) {
    && t < |s.threads| && s.threads[t].rest != []
    && match s.threads[t].rest[0]
       case Lock => s.writer == None || (s.writer == Some(t) && !s.active && s.readers == {})
       case Unlock => s.writer == Some(t) && s.active
       case RLock => s.writer == None
       case RUnlock => t in s.readers
       case Enter(c) => !s.OnceOf(c).Running?
       case Exit(c) => s.OnceOf(c) == Running(t)
       case Io => true
  }

  /** The path after a Once that had already run: its function is skipped. */
  function SkipBody(rest: seq<Action>, c: ConnId): seq<Action> {
    if rest == [] then [] else if rest[0] == Exit(c) then rest[1..] else SkipBody(rest[1..], c)
  }

  /** One step of goroutine `t`; a blocked goroutine stays where it is. */
  function Next(s: State, t: nat): State {
    if !CanStep(s, t) then s
    else
      match s.threads[t].rest[0]
      case Lock =>
        if s.writer == None then s.(writer := Some(t), active := false) else s.Pop(t).(active := true)
      case Unlock => s.Pop(t).(writer := None, active := false)
      case RLock => s.Pop(t).(readers := s.readers + {t})
      case RUnlock => s.Pop(t).(readers := s.readers - {t})
      case Enter(c) =>
        if s.OnceOf(c) == Done
        then s.(threads := s.threads[t := Thread(SkipBody(s.threads[t].rest[1..], c), None)])
        else s.(threads := s.threads[t := Thread(s.threads[t].rest[1..], Some(c))], once := s.once[c := Running(t)])
      case Exit(c) =>
        s.(threads := s.threads[t := Thread(s.threads[t].rest[1..], None)], once := s.once[c := Done])
      case Io => s.Pop(t)
  }

  function After(s: State, schedule: seq<nat>): State {
    if schedule == [] then s else Next(After(s, schedule[..|schedule| - 1]), schedule[|schedule| - 1])
  }

  ghost predicate Held(s: State) {
    && (s.writer.Some? ==> s.writer.value < |s.threads|)
    && (forall t :: t in s.readers ==> t < |s.threads|)
    && (s.active ==> s.writer.Some? && s.readers == {})
    && (forall c: ConnId :: s.OnceOf(c).Running? ==>
          s.OnceOf(c).runner < |s.threads| && s.threads[s.OnceOf(c).runner].inside == Some(c))
  }

  predicate InOrder(s: State, t: nat)
    requires t < |s.threads|
  {
    && Disciplined(s.threads[t].rest, s.ModeOf(t), s.threads[t].inside)
    && (s.writer == Some(t) && !s.active ==> s.threads[t].rest != [] && s.threads[t].rest[0] == Lock)
    && (s.threads[t].inside.Some? ==> s.OnceOf(s.threads[t].inside.value) == Running(t))
  }

  ghost predicate Inv(s: State) {
    Held(s) && forall t :: 0 <= t < |s.threads| ==> InOrder(s, t)
  }

  lemma {:induction false} SkippingIsDisciplined(rest: seq<Action>, mode: Mode, c: ConnId)
    requires Disciplined(rest, mode, Some(c))
    ensures Disciplined(SkipBody(rest, c), mode, None)
    ensures |SkipBody(rest, c)| < |rest|
  {
    if rest[0] != Exit(c) {
      SkippingIsDisciplined(rest[1..], mode, c);
    }
  }

  lemma StepKeepsHeld(s: State, t: nat)
    requires Inv(s) && CanStep(s, t)
    ensures Held(Next(s, t))
  {
    assert InOrder(s, t);
    var s' := Next(s, t);
    forall c: ConnId | s'.OnceOf(c).Running?
      ensures s'.OnceOf(c).runner < |s'.threads| && s'.threads[s'.OnceOf(c).runner].inside == Some(c)
    {
      if s.OnceOf(c) == s'.OnceOf(c) {
        assert s.threads[s.OnceOf(c).runner].inside == Some(c);
      }
    }
  }

  lemma StepKeepsOrder(s: State, t: nat, u: nat)
    requires Inv(s) && CanStep(s, t) && u < |s.threads|
    ensures InOrder(Next(s, t), u)
  {
    assert InOrder(s, t) && InOrder(s, u);
    if s.threads[t].rest[0].Enter? {
      SkippingIsDisciplined(s.threads[t].rest[1..], s.ModeOf(t), s.threads[t].rest[0].client);
    }
  }

  lemma StepKeepsInv(s: State, t: nat)
    requires Inv(s)
    ensures Inv(Next(s, t))
  {
    if CanStep(s, t) {
      StepKeepsHeld(s, t);
      forall u | 0 <= u < |s.threads| {
        StepKeepsOrder(s, t, u);
      }
    }
  }

  lemma InitInv(programs: seq<seq<Call>>)
    ensures Inv(Init(programs))
  {
    forall t | 0 <= t < |programs| ensures InOrder(Init(programs), t) {
      ProgramsAreDisciplined(programs[t]);
    }
  }

  lemma {:induction false} RunKeepsInv(programs: seq<seq<Call>>, schedule: seq<nat>)
    ensures Inv(After(Init(programs), schedule))
  {
    if schedule == [] {
      InitInv(programs);
    } else {
      RunKeepsInv(programs, schedule[..|schedule| - 1]);
      StepKeepsInv(After(Init(programs), schedule[..|schedule| - 1]), schedule[|schedule| - 1]);
    }
  }

  predicate Unfinished(s: State, t: nat) {
    t < |s.threads| && s.threads[t].rest != []
  }

  /** Whoever holds, or is waiting for, what others wait for can move. */
  lemma SomeoneCanStep(s: State, t: nat) returns (u: nat)
    requires Inv(s) && Unfinished(s, t)
    ensures CanStep(s, u)
  {
    assert InOrder(s, t);
    if c: ConnId :| s.OnceOf(c).Running? {
      u := s.OnceOf(c).runner;
      assert InOrder(s, u);
    } else if s.writer.Some? && s.active {
      u := s.writer.value;
      assert InOrder(s, u);
    } else if r :| r in s.readers {
      u := r;
      assert InOrder(s, u);
    } else if s.writer.Some? {
      u := s.writer.value;
      assert InOrder(s, u);
    } else {
      u := t;
    }
  }

  /** The hub never deadlocks: whatever the goroutines execute and however they are scheduled, as
      long as one has not finished its path some goroutine can take a step. */
  lemma NeverDeadlocks(programs: seq<seq<Call>>, schedule: seq<nat>)
    ensures
      var s := After(Init(programs), schedule);
      (exists t :: Unfinished(s, t)) ==> exists u :: CanStep(s, u)
  {
    RunKeepsInv(programs, schedule);
    var s := After(Init(programs), schedule);
    if t :| Unfinished(s, t) {
      var u := SomeoneCanStep(s, t);
    }
  }

  /** In every run a goroutine about to take the mutex holds it in no mode and is inside no Once, one
      about to enter a Once is inside none, and a writer excludes everyone else. */
  lemma LocksNeverNest(programs: seq<seq<Call>>, schedule: seq<nat>, t: nat)
    requires Unfinished(After(Init(programs), schedule), t)
    ensures
      var s := After(Init(programs), schedule);
      var next := s.threads[t].rest[0];
      && (next == Lock || next == RLock ==> s.ModeOf(t) == Free && s.threads[t].inside == None)
      && (next.Enter? ==> s.threads[t].inside == None)
      && (s.ModeOf(t) == Writing ==> forall u :: u != t ==> s.ModeOf(u) == Free)
  {
    RunKeepsInv(programs, schedule);
    assert InOrder(After(Init(programs), schedule), t);
  }

  // ---------------------------------------------------------------- everyone finishes

  function Total(threads: seq<Thread>): nat {
    if threads == [] then 0 else Total(threads[..|threads| - 1]) + |threads[|threads| - 1].rest|
  }

  lemma {:induction false} TotalOfUpdate(threads: seq<Thread>, t: nat, thread: Thread)
    requires t < |threads|
    ensures Total(threads[t := thread]) + |threads[t].rest| == Total(threads) + |thread.rest|
  {
    var n := |threads| - 1;
    var after := threads[t := thread];
    if t == n {
      assert after[..n] == threads[..n];
    } else {
      assert after[..n] == threads[..n][t := thread];
      TotalOfUpdate(threads[..n], t, thread);
    }
  }

  /** The steps left: one per action, and an extra one for a Lock's announcement. */
  function Left(s: State): int {
    2 * Total(s.threads) - (if s.writer.Some? && !s.active then 1 else 0)
  }

  lemma StepShrinks(s: State, t: nat)
    requires Inv(s) && CanStep(s, t)
    ensures Left(Next(s, t)) < Left(s)
  {
    var s' := Next(s, t);
    assert InOrder(s, t);
    if s.threads[t].rest[0].Enter? {
      SkippingIsDisciplined(s.threads[t].rest[1..], s.ModeOf(t), s.threads[t].rest[0].client);
    }
    if s'.threads != s.threads {
      TotalOfUpdate(s.threads, t, s'.threads[t]);
      assert s'.threads == s.threads[t := s'.threads[t]];
    }
  }

  lemma {:induction false} UnfinishedCounts(s: State, t: nat)
    requires Unfinished(s, t)
    ensures Total(s.threads) > 0
  {
    TotalOfUpdate(s.threads, t, s.threads[t].(rest := []));
  }

  /** From every state of every run all goroutines can still run to the end of their paths; and since
      every step shrinks what is left, no schedule of enabled steps goes on forever. */
  lemma {:induction false} EveryoneCanFinish(s: State) returns (schedule: seq<nat>)
    requires Inv(s)
    ensures forall t :: !Unfinished(After(s, schedule), t)
    decreases Left(s) + 1
  {
    if t :| Unfinished(s, t) {
      var u := SomeoneCanStep(s, t);
      StepShrinks(s, u);
      StepKeepsInv(s, u);
      UnfinishedCounts(s, t);
      var later := EveryoneCanFinish(Next(s, u));
      schedule := [u] + later;
      AfterFirst(s, u, later);
    } else {
      schedule := [];
    }
  }

  lemma {:induction false} AfterFirst(s: State, u: nat, later: seq<nat>)
    ensures After(s, [u] + later) == After(Next(s, u), later)
  {
    var all := [u] + later;
    if later == [] {
      assert all == [u] && [u][..0] == [];
      assert After(s, []) == s;
    } else {
      assert all[..|all| - 1] == [u] + later[..|later| - 1];
      AfterFirst(s, u, later[..|later| - 1]);
    }
  }
}
