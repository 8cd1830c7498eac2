/** Ping/pong keepalive of a device connection (sections 5.5.2 and 5.5.3 of RFC 6455). */
module Keepalive {
  import opened Base

  const PONG_WAIT: Time := 60 * SECOND
  const PING_PERIOD: Time := PONG_WAIT * 9 / 10

  /** Both pumps start at `start`: the ticker with the write pump, the first read deadline with the
      read pump. Only a pong moves the deadline. */
  datatype State = State(start: Time, now: Time, pings: nat, pongs: nat, deadline: Time)

  datatype Step = Pass(elapsed: Time) | SendPing | TakePong

  function Start(start: Time): State {
    State(start, start, 0, 0, start + PONG_WAIT)
  }

  /** The `k`-th tick of the ping ticker. */
  function TickAt(s: State, k: nat): Time {
    s.start + k * PING_PERIOD
  }

  function Next(s: State, step: Step): State {
    match step
    case Pass(elapsed) => s.(now := s.now + elapsed)
    case SendPing => if s.now == TickAt(s, s.pings + 1) then s.(pings := s.pings + 1) else s
    case TakePong => if s.pongs < s.pings then s.(pongs := s.pongs + 1, deadline := s.now + PONG_WAIT) else s
  }

  function After(s: State, steps: seq<Step>): State {
    if steps == [] then s else Next(After(s, steps[..|steps| - 1]), steps[|steps| - 1])
  }

  /** No tick has been missed and no ping has waited longer than `delay` for its pong. */
  predicate OnTime(s: State, delay: Time) {
    && s.now <= TickAt(s, s.pings + 1)
    && (s.pongs < s.pings ==> s.now <= TickAt(s, s.pongs + 1) + delay)
  }

  ghost predicate TimelyRun(s: State, steps: seq<Step>, delay: Time) {
    forall i :: 0 <= i <= |steps| ==> OnTime(After(s, steps[..i]), delay)
  }

  predicate Expired(s: State) {
    s.deadline < s.now
  }

  ghost predicate Inv(s: State) {
    && s.pongs <= s.pings
    && TickAt(s, s.pings) <= s.now
    && TickAt(s, s.pongs) + PONG_WAIT <= s.deadline
  }

  lemma {:induction false} RunKeepsInv(start: Time, steps: seq<Step>)
    ensures Inv(After(Start(start), steps)) && After(Start(start), steps).start == start
  {
    if steps != [] {
      RunKeepsInv(start, steps[..|steps| - 1]);
      var s := After(Start(start), steps[..|steps| - 1]);
      assert s.pongs < s.pings ==> TickAt(s, s.pongs + 1) <= TickAt(s, s.pings) by {
        TicksAscend(s, s.pongs + 1, s.pings);
      }
    }
  }

  lemma TicksAscend(s: State, j: nat, k: nat)
    ensures j <= k ==> TickAt(s, j) <= TickAt(s, k)
  {
  }

  lemma OnTimeIsAlive(s: State, delay: Time)
    requires Inv(s) && OnTime(s, delay) && delay <= PONG_WAIT - PING_PERIOD
    ensures !Expired(s)
  {
    if s.pongs == s.pings {
      assert TickAt(s, s.pings + 1) == TickAt(s, s.pongs) + PING_PERIOD;
    } else {
      assert TickAt(s, s.pongs + 1) == TickAt(s, s.pongs) + PING_PERIOD;
    }
  }

  lemma TimelyNeverExpires(start: Time, steps: seq<Step>, delay: Time)
    requires delay <= PONG_WAIT - PING_PERIOD
    requires TimelyRun(Start(start), steps, delay)
    ensures !Expired(After(Start(start), steps))
  {
    RunKeepsInv(start, steps);
    assert steps[..|steps|] == steps;
    OnTimeIsAlive(After(Start(start), steps), delay);
  }

  /** The keepalive bound is exact: answering every ping within `delay` keeps the read deadline from
      ever expiring, over runs of any length, if and only if `delay` is at most pongWait - pingPeriod. */
  lemma KeepaliveBound(start: Time, delay: Time)
    ensures (forall steps :: TimelyRun(Start(start), steps, delay) ==> !Expired(After(Start(start), steps)))
       <==> delay <= PONG_WAIT - PING_PERIOD
  {
    if delay <= PONG_WAIT - PING_PERIOD {
      forall steps | TimelyRun(Start(start), steps, delay) {
        TimelyNeverExpires(start, steps, delay);
      }
    } else {
      LatePongExpires(start, delay);
    }
  }

  ghost predicate Silent(steps: seq<Step>) {
    forall i :: 0 <= i < |steps| ==> !steps[i].TakePong?
  }

  lemma {:induction false} SilenceLeavesDeadline(s: State, steps: seq<Step>)
    requires Silent(steps)
    ensures After(s, steps).deadline == s.deadline
  {
    if steps != [] {
      SilenceLeavesDeadline(s, steps[..|steps| - 1]);
    }
  }

  /** A device that has gone silent is given up exactly pongWait after its last pong, and one that never
      answers exactly pongWait after the start, however many pings still go out. */
  lemma SilenceExpires(s: State, steps: seq<Step>, start: Time)
    requires Silent(steps)
    ensures s.pongs < s.pings ==>
              var last := After(Next(s, TakePong), steps);
              Expired(last) <==> last.now > s.now + PONG_WAIT
    ensures Expired(After(Start(start), steps)) <==> After(Start(start), steps).now > start + PONG_WAIT
  {
    SilenceLeavesDeadline(Next(s, TakePong), steps);
    SilenceLeavesDeadline(Start(start), steps);
  }

  /** One pong just over the bound and the deadline set at the start has passed. */
  lemma LatePongExpires(start: Time, delay: Time)
    requires delay > PONG_WAIT - PING_PERIOD
    ensures exists steps :: TimelyRun(Start(start), steps, delay) && Expired(After(Start(start), steps))
  {
    var steps := [Pass(PING_PERIOD), SendPing, Pass(PONG_WAIT - PING_PERIOD + 1)];
    var s0 := Start(start);
    var s1 := Next(s0, steps[0]);
    var s2 := Next(s1, steps[1]);
    var s3 := Next(s2, steps[2]);
    assert steps[..1][..0] == [] && steps[..2][..1] == steps[..1] && steps[..3] == steps;
    assert After(s0, steps[..0]) == s0;
    assert After(s0, steps[..1]) == s1;
    assert After(s0, steps[..2]) == s2;
    assert After(s0, steps) == s3;
    assert s2.pings == 1 && s3.now == start + PONG_WAIT + 1;
    forall i | 0 <= i <= |steps| ensures OnTime(After(s0, steps[..i]), delay) {
      assert i == 0 || i == 1 || i == 2 || i == 3;
    }
  }
}
