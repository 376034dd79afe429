/** Internal processing latency between ticks (utils/latency_timer.py).
    The wall clock `time.time()` is passed in as a reading in seconds. */
module Latency {

  /** Milliseconds from one clock reading (seconds) to another. */
  function ElapsedMs(last: real, now: real): (ms: real)
    ensures ms >= 0.0 <==> last <= now
    ensures ms == 0.0 <==> last == now
  {
    (now - last) * 1000.0
  }

  /** `LatencyTimer`: one mutable timestamp, the clock reading of the last
      tick (or of construction). */
  class LatencyTimer {
    var last: real

    /** `__init__`: the timestamp starts at the clock reading taken at
        construction. */
    constructor (clock: real)
      ensures last == clock
    {
      last := clock;
    }

    /** `tick`: the milliseconds since the stored timestamp, after which
        the timestamp becomes `now`, so the next tick measures from it. */
    method Tick(now: real) returns (latencyMs: real)
      modifies this
      ensures latencyMs == ElapsedMs(old(last), now)
      ensures last == now
    {
      latencyMs := (now - last) * 1000.0;
      last := now;
    }
  }

  /** The results of ticking a timer whose timestamp is `start` at the
      clock readings `readings`, in order. */
  function Latencies(start: real, readings: seq<real>): (ls: seq<real>)
    ensures |ls| == |readings|
    decreases |readings|
  {
    if readings == [] then []
    else [ElapsedMs(start, readings[0])] + Latencies(readings[0], readings[1..])
  }

  function Sum(s: seq<real>): real
  {
    if s == [] then 0.0 else s[0] + Sum(s[1..])
  }

  /** A clock that never goes back, starting from `start`. */
  ghost predicate NonDecreasing(start: real, readings: seq<real>)
  {
    (|readings| > 0 ==> start <= readings[0])
    && forall i, j :: 0 <= i < j < |readings| ==> readings[i] <= readings[j]
  }

  /** The tick results telescope: together they measure the time from the
      start to the last reading. */
  lemma {:induction false} LatenciesTelescope(start: real, readings: seq<real>)
    requires |readings| > 0
    ensures Sum(Latencies(start, readings)) == ElapsedMs(start, readings[|readings| - 1])
    decreases |readings|
  {
    if |readings| > 1 {
      LatenciesTelescope(readings[0], readings[1..]);
    }
  }

  /** With a clock that never goes back every tick result is non-negative. */
  lemma {:induction false} LatenciesNonNegative(start: real, readings: seq<real>)
    requires NonDecreasing(start, readings)
    ensures forall i :: 0 <= i < |readings| ==> Latencies(start, readings)[i] >= 0.0
    decreases |readings|
  {
    if readings != [] {
      var rest := readings[1..];
      assert NonDecreasing(readings[0], rest) by {
        forall i, j | 0 <= i < j < |rest| ensures rest[i] <= rest[j] {
          assert rest[i] == readings[i + 1] && rest[j] == readings[j + 1];
        }
        if |rest| > 0 {
          assert rest[0] == readings[1];
        }
      }
      LatenciesNonNegative(readings[0], rest);
      forall i | 0 <= i < |readings|
        ensures Latencies(start, readings)[i] >= 0.0
      {
        if i > 0 {
          assert Latencies(start, readings)[i] == Latencies(readings[0], rest)[i - 1];
        }
      }
    }
  }

  /** Appending a reading adds one result, measured from the previous
      reading (or from the start, for the first). */
  lemma {:induction false} LatenciesSnoc(start: real, readings: seq<real>, now: real)
    ensures Latencies(start, readings + [now])
         == Latencies(start, readings)
            + [ElapsedMs(if readings == [] then start else readings[|readings| - 1], now)]
    decreases |readings|
  {
    if readings != [] {
      assert (readings + [now])[1..] == readings[1..] + [now];
      LatenciesSnoc(readings[0], readings[1..], now);
    }
  }

  /** Ticking one timer at each reading in turn: the results are
      `Latencies` of the timer's stored reading, so the telescoping and
      non-negativity lemmas hold for any number of real `Tick` calls. */
  method TickAll(timer: LatencyTimer, readings: seq<real>) returns (ls: seq<real>)
    modifies timer
    ensures ls == Latencies(old(timer.last), readings)
    ensures timer.last == if readings == [] then old(timer.last) else readings[|readings| - 1]
  {
    ghost var start := timer.last;
    ls := [];
    var i := 0;
    while i < |readings|
      invariant 0 <= i <= |readings|
      invariant ls == Latencies(start, readings[..i])
      invariant timer.last == if i == 0 then start else readings[i - 1]
    {
      var ms := timer.Tick(readings[i]);
      LatenciesSnoc(start, readings[..i], readings[i]);
      assert readings[..i + 1] == readings[..i] + [readings[i]];
      ls := ls + [ms];
      i := i + 1;
    }
    assert readings[..|readings|] == readings;
  }

  /** Over a whole run of ticks on one timer the results add up to the time
      from construction to the last tick, and none is negative when the
      clock never goes back. */
  method TimedRun(constructedAt: real, readings: seq<real>) returns (ls: seq<real>)
    requires |readings| > 0
    ensures |ls| == |readings|
    ensures Sum(ls) == ElapsedMs(constructedAt, readings[|readings| - 1])
    ensures NonDecreasing(constructedAt, readings) ==> forall i :: 0 <= i < |ls| ==> ls[i] >= 0.0
  {
    var timer := new LatencyTimer(constructedAt);
    ls := TickAll(timer, readings);
    LatenciesTelescope(constructedAt, readings);
    if NonDecreasing(constructedAt, readings) {
      LatenciesNonNegative(constructedAt, readings);
    }
  }

  /** Two ticks of one timer: the second measures from the first one's
      reading, and the two results add up to the time since construction. */
  method TwoTicks(constructedAt: real, first: real, second: real) returns (l1: real, l2: real)
    ensures [l1, l2] == Latencies(constructedAt, [first, second])
    ensures l1 + l2 == ElapsedMs(constructedAt, second)
  {
    var timer := new LatencyTimer(constructedAt);
    l1 := timer.Tick(first);
    l2 := timer.Tick(second);
    LatenciesTelescope(constructedAt, [first, second]);
    assert [first, second][1..] == [second];
  }

  /** A timer built at clock 100 and ticked at 110 reports 10000 ms. */
  method TenSecondTick() returns (latencyMs: real)
    ensures latencyMs == 10000.0
  {
    var timer := new LatencyTimer(100.0);
    latencyMs := timer.Tick(110.0);
  }
}
