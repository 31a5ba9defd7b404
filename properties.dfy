/**
 * Properties of whole monitoring sessions: how the attempt counter is
 * threaded from cycle to cycle, what a run of failures logs, how the abort
 * signal ends a session, and the event sequences of the monitor's own
 * test scenarios.
 */
module SessionProperties {
  import opened Events
  import opened Prober

  /** The attempt numbers `from`, `from + 1`, ..., `n` of them. */
  function Attempts(from: nat, n: nat): seq<nat>
    decreases n
  {
    if n == 0 then [] else [from] + Attempts(from + 1, n - 1)
  }

  /** How many probes at the end of `outcomes` failed since the last success. */
  function TrailingFailures(outcomes: seq<Outcome>): nat
    decreases |outcomes|
  {
    if outcomes == [] then 0
    else if IsUp(outcomes[|outcomes| - 1]) then 0
    else TrailingFailures(outcomes[..|outcomes| - 1]) + 1
  }

  /**
   * A session probes the observations in order and stops at the first one
   * whose signal is present and aborted, without probing it; an absent
   * signal never stops it.
   */
  lemma {:induction false} SignalEndsSession(url: string, pingIntervalSec: int, hasSignal: bool, counter: Attempt, world: seq<Tick>)
    ensures var r := Trace(url, pingIntervalSec, hasSignal, counter, world);
      && |r.probed| <= |world|
      && (forall i | 0 <= i < |r.probed| :: r.probed[i] == world[i].outcome && !Cancelled(SignalAt(hasSignal, world[i])))
      && (r.stop == OutOfTicks ==> |r.probed| == |world|)
      && (r.stop == Aborted ==> hasSignal && |r.probed| < |world| && world[|r.probed|].aborted)
    decreases |world|
  {
    if world != [] {
      var c := RunCycle(url, pingIntervalSec, SignalAt(hasSignal, world[0]), counter, world[0].outcome);
      if c.Completed? {
        SignalEndsSession(url, pingIntervalSec, hasSignal, c.next, world[1..]);
      }
    }
  }

  /** An aborted signal at the top of the first cycle: no probe, no event, no wait. */
  lemma AbortedAtStart(url: string, pingIntervalSec: int, counter: Attempt, world: seq<Tick>)
    requires world != [] && world[0].aborted
    ensures Trace(url, pingIntervalSec, true, counter, world) == Transcript([], [], [], counter, Aborted)
  {
  }

  /** Without a signal the session goes on for as long as there are observations. */
  lemma NoSignalNeverStops(url: string, pingIntervalSec: int, counter: Attempt, world: seq<Tick>)
    ensures var r := Trace(url, pingIntervalSec, false, counter, world);
      r.stop == OutOfTicks && |r.probed| == |world|
  {
    SignalEndsSession(url, pingIntervalSec, false, counter, world);
  }

  /** Each probe is followed by exactly one wait, always of `pingIntervalSec * 1000` ms. */
  lemma {:induction false} EveryProbeWaitsOneInterval(url: string, pingIntervalSec: int, hasSignal: bool, counter: Attempt, world: seq<Tick>)
    ensures var r := Trace(url, pingIntervalSec, hasSignal, counter, world);
      |r.waits| == |r.probed| && forall w | w in r.waits :: w == pingIntervalSec * 1000
    decreases |world|
  {
    if world != [] {
      var c := RunCycle(url, pingIntervalSec, SignalAt(hasSignal, world[0]), counter, world[0].outcome);
      if c.Completed? {
        EveryProbeWaitsOneInterval(url, pingIntervalSec, hasSignal, c.next, world[1..]);
      }
    }
  }

  /** The attempt number after a sequence of probe outcomes, threading the counter as the cycle does. */
  function CounterAfter(counter: Attempt, outcomes: seq<Outcome>): Attempt
    decreases |outcomes|
  {
    if outcomes == [] then counter
    else CounterAfter(if IsUp(outcomes[0]) then 1 else counter + 1, outcomes[1..])
  }

  /** A session leaves the counter where threading it through the probed outcomes would. */
  lemma {:induction false} TraceCounter(url: string, pingIntervalSec: int, hasSignal: bool, counter: Attempt, world: seq<Tick>)
    ensures var r := Trace(url, pingIntervalSec, hasSignal, counter, world);
      r.counter == CounterAfter(counter, r.probed)
    decreases |world|
  {
    if world != [] && !Cancelled(SignalAt(hasSignal, world[0])) {
      var o := world[0].outcome;
      var next: Attempt := if IsUp(o) then 1 else counter + 1;
      TraceUnfolds(url, pingIntervalSec, hasSignal, counter, world);
      TraceCounter(url, pingIntervalSec, hasSignal, next, world[1..]);
      var r := Trace(url, pingIntervalSec, hasSignal, counter, world);
      var rest := Trace(url, pingIntervalSec, hasSignal, next, world[1..]);
      assert r.probed == [o] + rest.probed;
      assert r.probed[1..] == rest.probed;
    }
  }

  /**
   * The counter is one more than the number of failures since the last
   * success: entering with that invariant, threading keeps it.
   */
  lemma {:induction false} CounterTracksFailures(past: seq<Outcome>, outcomes: seq<Outcome>)
    ensures CounterAfter(1 + TrailingFailures(past), outcomes) == 1 + TrailingFailures(past + outcomes)
    decreases |outcomes|
  {
    if outcomes == [] {
      assert past + outcomes == past;
    } else {
      var o := outcomes[0];
      TrailingFailuresStep(past, o);
      CounterTracksFailures(past + [o], outcomes[1..]);
      assert past + outcomes == (past + [o]) + outcomes[1..];
    }
  }

  lemma TrailingFailuresStep(past: seq<Outcome>, o: Outcome)
    ensures TrailingFailures(past + [o]) == if IsUp(o) then 0 else TrailingFailures(past) + 1
  {
    assert (past + [o])[..|past|] == past;
  }

  /** From the start of a session, the counter is 1 plus the current run of failures. */
  lemma CounterFromStart(url: string, pingIntervalSec: int, hasSignal: bool, world: seq<Tick>)
    ensures var r := Trace(url, pingIntervalSec, hasSignal, 1, world);
      r.counter == 1 + TrailingFailures(r.probed)
  {
    TraceCounter(url, pingIntervalSec, hasSignal, 1, world);
    CounterFromOne(Trace(url, pingIntervalSec, hasSignal, 1, world).probed);
  }

  lemma CounterFromOne(outcomes: seq<Outcome>)
    ensures CounterAfter(1, outcomes) == 1 + TrailingFailures(outcomes)
  {
    assert TrailingFailures([]) == 0;
    CounterTracksFailures([], outcomes);
    assert [] + outcomes == outcomes;
  }

  /** One more failed attempt adds one milestone exactly when its number is a multiple of ten. */
  lemma MilestoneStep(c: nat)
    requires c >= 1
    ensures c / 10 == (c - 1) / 10 + (if c % 10 == 0 then 1 else 0)
  {
    assert c == 10 * (c / 10) + c % 10;
    assert c - 1 == 10 * ((c - 1) / 10) + (c - 1) % 10;
  }

  /** Every probe of the observations fails, and the signal never stops the session on the way. */
  predicate FailingRun(hasSignal: bool, world: seq<Tick>)
  {
    forall i | 0 <= i < |world| :: !IsUp(world[i].outcome) && !(hasSignal && world[i].aborted)
  }

  lemma FailingRunTail(hasSignal: bool, world: seq<Tick>)
    requires FailingRun(hasSignal, world) && world != []
    ensures !IsUp(world[0].outcome) && !(hasSignal && world[0].aborted)
    ensures FailingRun(hasSignal, world[1..])
  {
    assert forall i | 0 <= i < |world| - 1 :: world[1..][i] == world[i + 1];
  }

  /** What one failed cycle sends to each console stream. */
  lemma FailureCycleLog(url: string, counter: Attempt, events: seq<Event>)
    requires |events| == (if counter % 10 == 0 then 2 else 1)
    requires events[0] == PingFailed(url, counter) || events[0] == Unreachable(url, counter)
    requires |events| == 2 ==> events[1] == AppDown(url)
    ensures WarnAttempts(events) == [counter]
    ensures OfSeverity(events, Warn) == [events[0]]
    ensures OfSeverity(events, Error) == if counter % 10 == 0 then [AppDown(url)] else []
    ensures OfSeverity(events, Log) == []
  {
    var tail := events[1..];
    assert WarnAttempts(events) == [counter] + WarnAttempts(tail);
    assert OfSeverity(events, Warn) == [events[0]] + OfSeverity(tail, Warn);
    assert OfSeverity(events, Error) == [] + OfSeverity(tail, Error);
    assert OfSeverity(events, Log) == [] + OfSeverity(tail, Log);
    if |events| == 2 {
      assert tail == [AppDown(url)] && tail[1..] == [];
      assert WarnAttempts(tail) == [] + WarnAttempts(tail[1..]);
      assert OfSeverity(tail, Warn) == [] + OfSeverity(tail[1..], Warn);
      assert OfSeverity(tail, Error) == [AppDown(url)] + OfSeverity(tail[1..], Error);
      assert OfSeverity(tail, Log) == [] + OfSeverity(tail[1..], Log);
    } else {
      assert tail == [];
    }
  }

  /** One failed cycle at the head of a session, in the terms the run lemmas need. */
  lemma FailureStep(url: string, pingIntervalSec: int, hasSignal: bool, counter: Attempt, world: seq<Tick>)
    requires world != [] && !IsUp(world[0].outcome) && !(hasSignal && world[0].aborted)
    ensures var r := Trace(url, pingIntervalSec, hasSignal, counter, world);
      var rest := Trace(url, pingIntervalSec, hasSignal, counter + 1, world[1..]);
      var milestone := if counter % 10 == 0 then [AppDown(url)] else [];
      && r.stop == rest.stop && r.counter == rest.counter
      && WarnAttempts(r.events) == [counter] + WarnAttempts(rest.events)
      && OfSeverity(r.events, Warn) == [WarningFor(url, counter, world[0].outcome)] + OfSeverity(rest.events, Warn)
      && OfSeverity(r.events, Error) == milestone + OfSeverity(rest.events, Error)
      && OfSeverity(r.events, Log) == OfSeverity(rest.events, Log)
  {
    var c := RunCycle(url, pingIntervalSec, SignalAt(hasSignal, world[0]), counter, world[0].outcome);
    TraceUnfolds(url, pingIntervalSec, hasSignal, counter, world);
    var rest := Trace(url, pingIntervalSec, hasSignal, counter + 1, world[1..]);
    FailureCycleLog(url, counter, c.events);
    WarnAttemptsAppend(c.events, rest.events);
    OfSeverityAppend(c.events, rest.events, Warn);
    OfSeverityAppend(c.events, rest.events, Error);
    OfSeverityAppend(c.events, rest.events, Log);
  }

  lemma FailureStepWarn(url: string, pingIntervalSec: int, hasSignal: bool, counter: Attempt, world: seq<Tick>)
    requires world != [] && !IsUp(world[0].outcome) && !(hasSignal && world[0].aborted)
    ensures OfSeverity(Trace(url, pingIntervalSec, hasSignal, counter, world).events, Warn)
         == [WarningFor(url, counter, world[0].outcome)] + OfSeverity(Trace(url, pingIntervalSec, hasSignal, counter + 1, world[1..]).events, Warn)
  {
    FailureStep(url, pingIntervalSec, hasSignal, counter, world);
  }

  lemma FailureStepError(url: string, pingIntervalSec: int, hasSignal: bool, counter: Attempt, world: seq<Tick>)
    requires world != [] && !IsUp(world[0].outcome) && !(hasSignal && world[0].aborted)
    ensures OfSeverity(Trace(url, pingIntervalSec, hasSignal, counter, world).events, Error)
         == (if counter % 10 == 0 then [AppDown(url)] else []) + OfSeverity(Trace(url, pingIntervalSec, hasSignal, counter + 1, world[1..]).events, Error)
  {
    FailureStep(url, pingIntervalSec, hasSignal, counter, world);
  }

  /**
   * A run of failed probes starting at attempt `counter`: one warning per
   * probe carrying the attempts counter, counter + 1, ... in order, no
   * success line, and the next attempt is counter + n.
   */
  lemma {:induction false} FailureRun(url: string, pingIntervalSec: int, hasSignal: bool, counter: Attempt, world: seq<Tick>)
    requires FailingRun(hasSignal, world)
    ensures var r := Trace(url, pingIntervalSec, hasSignal, counter, world);
      && r.stop == OutOfTicks
      && r.counter == counter + |world|
      && WarnAttempts(r.events) == Attempts(counter, |world|)
      && OfSeverity(r.events, Log) == []
    decreases |world|
  {
    if world != [] {
      FailingRunTail(hasSignal, world);
      FailureStep(url, pingIntervalSec, hasSignal, counter, world);
      FailureRun(url, pingIntervalSec, hasSignal, counter + 1, world[1..]);
    }
  }

  /** The milestone errors n failed attempts from `counter` on should log. */
  function ExpectedMilestones(url: string, counter: Attempt, n: nat): seq<Event>
    decreases n
  {
    if n == 0 then []
    else (if counter % 10 == 0 then [AppDown(url)] else []) + ExpectedMilestones(url, counter + 1, n - 1)
  }

  /**
   * The milestone error comes once for each multiple of ten the attempts
   * pass, and it is the only error.
   */
  lemma {:induction false} MilestonesCounted(url: string, counter: Attempt, n: nat)
    ensures |ExpectedMilestones(url, counter, n)| == (counter + n - 1) / 10 - (counter - 1) / 10
    ensures forall e | e in ExpectedMilestones(url, counter, n) :: e == AppDown(url)
    decreases n
  {
    if n > 0 {
      MilestonesCounted(url, counter + 1, n - 1);
      MilestoneStep(counter);
    }
  }

  lemma MilestonesUnfold(url: string, counter: Attempt, n: nat)
    requires n > 0
    ensures ExpectedMilestones(url, counter, n)
         == (if counter % 10 == 0 then [AppDown(url)] else []) + ExpectedMilestones(url, counter + 1, n - 1)
  {
  }

  /** In a run of failed probes the errors logged are exactly the expected milestones. */
  lemma {:induction false} FailureMilestones(url: string, pingIntervalSec: int, hasSignal: bool, counter: Attempt, world: seq<Tick>)
    requires FailingRun(hasSignal, world)
    ensures OfSeverity(Trace(url, pingIntervalSec, hasSignal, counter, world).events, Error)
         == ExpectedMilestones(url, counter, |world|)
    decreases |world|
  {
    if world != [] {
      var rest := world[1..];
      FailingRunTail(hasSignal, world);
      FailureStepError(url, pingIntervalSec, hasSignal, counter, world);
      FailureMilestones(url, pingIntervalSec, hasSignal, counter + 1, rest);
      MilestonesUnfold(url, counter, |world|);
    }
  }

  /**
   * In a run of failed probes starting at attempt `counter`, the milestone
   * error is logged once for each multiple of ten the attempts pass, and
   * it is the only error.
   */
  lemma MilestoneCount(url: string, pingIntervalSec: int, hasSignal: bool, counter: Attempt, world: seq<Tick>)
    requires FailingRun(hasSignal, world)
    ensures var errors := OfSeverity(Trace(url, pingIntervalSec, hasSignal, counter, world).events, Error);
      && |errors| == (counter + |world| - 1) / 10 - (counter - 1) / 10
      && forall e | e in errors :: e == AppDown(url)
  {
    FailureMilestones(url, pingIntervalSec, hasSignal, counter, world);
    MilestonesCounted(url, counter, |world|);
  }

  /** The warnings a run of failures should log: one per probe, attempts counting up from `counter`. */
  function ExpectedWarnings(url: string, counter: Attempt, world: seq<Tick>): seq<Event>
    decreases |world|
  {
    if world == [] then []
    else [WarningFor(url, counter, world[0].outcome)] + ExpectedWarnings(url, counter + 1, world[1..])
  }

  /** The i-th expected warning names attempt counter + i and the i-th outcome. */
  lemma {:induction false} ExpectedWarningAt(url: string, counter: Attempt, world: seq<Tick>, i: nat)
    requires i < |world|
    ensures |ExpectedWarnings(url, counter, world)| == |world|
    ensures ExpectedWarnings(url, counter, world)[i] == WarningFor(url, counter + i, world[i].outcome)
    decreases i
  {
    if i == 0 {
      ExpectedWarningsLength(url, counter + 1, world[1..]);
    } else {
      ExpectedWarningAt(url, counter + 1, world[1..], i - 1);
      assert world[1..][i - 1] == world[i];
    }
  }

  lemma {:induction false} ExpectedWarningsLength(url: string, counter: Attempt, world: seq<Tick>)
    ensures |ExpectedWarnings(url, counter, world)| == |world|
    decreases |world|
  {
    if world != [] {
      ExpectedWarningsLength(url, counter + 1, world[1..]);
    }
  }

  /**
   * In a run of failures the warnings are exactly the expected ones: the
   * i-th names attempt counter + i, and its text says whether the target
   * answered with a bad status or could not be reached at all.
   */
  lemma {:induction false} FailureWarnings(url: string, pingIntervalSec: int, hasSignal: bool, counter: Attempt, world: seq<Tick>)
    requires FailingRun(hasSignal, world)
    ensures OfSeverity(Trace(url, pingIntervalSec, hasSignal, counter, world).events, Warn)
         == ExpectedWarnings(url, counter, world)
    decreases |world|
  {
    if world != [] {
      var rest := world[1..];
      FailingRunTail(hasSignal, world);
      FailureStepWarn(url, pingIntervalSec, hasSignal, counter, world);
      FailureWarnings(url, pingIntervalSec, hasSignal, counter + 1, rest);
      assert ExpectedWarnings(url, counter, world)
          == [WarningFor(url, counter, world[0].outcome)] + ExpectedWarnings(url, counter + 1, rest);
    }
  }

  /** From the first attempt, n failures give warnings for attempts 1..n and n / 10 milestone errors. */
  lemma FailuresFromStart(url: string, pingIntervalSec: int, hasSignal: bool, world: seq<Tick>)
    requires FailingRun(hasSignal, world)
    ensures var r := Trace(url, pingIntervalSec, hasSignal, 1, world);
      && WarnAttempts(r.events) == Attempts(1, |world|)
      && |OfSeverity(r.events, Error)| == |world| / 10
      && r.counter == |world| + 1
  {
    FailureRun(url, pingIntervalSec, hasSignal, 1, world);
    MilestoneCount(url, pingIntervalSec, hasSignal, 1, world);
  }

  /**
   * A session cut in two: if the first stretch of observations runs out,
   * the rest of the session continues from where it left the counter.
   */
  lemma {:induction false} TraceSplits(url: string, pingIntervalSec: int, hasSignal: bool, counter: Attempt, w1: seq<Tick>, w2: seq<Tick>)
    requires Trace(url, pingIntervalSec, hasSignal, counter, w1).stop == OutOfTicks
    ensures var first := Trace(url, pingIntervalSec, hasSignal, counter, w1);
      Trace(url, pingIntervalSec, hasSignal, counter, w1 + w2)
      == Prepend(first.events, first.waits, first.probed, Trace(url, pingIntervalSec, hasSignal, first.counter, w2))
    decreases |w1|
  {
    if w1 == [] {
      assert w1 + w2 == w2;
      var r := Trace(url, pingIntervalSec, hasSignal, counter, w2);
      assert [] + r.events == r.events && [] + r.waits == r.waits && [] + r.probed == r.probed;
    } else {
      var c := RunCycle(url, pingIntervalSec, SignalAt(hasSignal, w1[0]), counter, w1[0].outcome);
      TraceUnfolds(url, pingIntervalSec, hasSignal, counter, w1);
      TraceUnfolds(url, pingIntervalSec, hasSignal, counter, w1 + w2);
      assert (w1 + w2)[0] == w1[0] && (w1 + w2)[1..] == w1[1..] + w2;
      TraceSplits(url, pingIntervalSec, hasSignal, c.next, w1[1..], w2);
      var first := Trace(url, pingIntervalSec, hasSignal, c.next, w1[1..]);
      PrependTwice(c.events, [c.waitMs], [w1[0].outcome], first.events, first.waits, first.probed,
                   Trace(url, pingIntervalSec, hasSignal, first.counter, w2));
    }
  }

  /**
   * A run of successful probes: each logs one success line on attempt 1,
   * nothing else is logged, and the counter stays at 1.
   */
  lemma {:induction false} SuccessRun(url: string, pingIntervalSec: int, hasSignal: bool, world: seq<Tick>)
    requires forall i | 0 <= i < |world| :: IsUp(world[i].outcome) && !(hasSignal && world[i].aborted)
    ensures var r := Trace(url, pingIntervalSec, hasSignal, 1, world);
      && r.stop == OutOfTicks
      && r.counter == 1
      && OfSeverity(r.events, Log) == seq(|world|, _ => PingOk(1, url))
      && OfSeverity(r.events, Warn) == []
      && OfSeverity(r.events, Error) == []
    decreases |world|
  {
    if world != [] {
      var r := Trace(url, pingIntervalSec, hasSignal, 1, world);
      var c := RunCycle(url, pingIntervalSec, SignalAt(hasSignal, world[0]), 1, world[0].outcome);
      TraceUnfolds(url, pingIntervalSec, hasSignal, 1, world);
      var rest := Trace(url, pingIntervalSec, hasSignal, c.next, world[1..]);
      SuccessRun(url, pingIntervalSec, hasSignal, world[1..]);
      assert c.events == [PingOk(1, url)];
      OfSeverityAppend(c.events, rest.events, Log);
      OfSeverityAppend(c.events, rest.events, Warn);
      OfSeverityAppend(c.events, rest.events, Error);
      assert OfSeverity(r.events, Log) == [PingOk(1, url)] + seq(|world| - 1, _ => PingOk(1, url));
    }
  }

  /** A log with only console.log lines sends nothing to the other two streams. */
  lemma {:induction false} OnlyLogLines(log: seq<Event>)
    requires forall i | 0 <= i < |log| :: SeverityOf(log[i]) == Log
    ensures OfSeverity(log, Log) == log
    ensures OfSeverity(log, Warn) == [] && OfSeverity(log, Error) == [] && WarnAttempts(log) == []
    decreases |log|
  {
    if log != [] {
      OnlyLogLines(log[1..]);
      assert [log[0]] + log[1..] == log;
      match log[0]
      case AppUp =>
      case PingOk(_, _) =>
    }
  }

  /**
   * n failures from the first attempt and then a success: the success line
   * names attempt n + 1, the recovery line comes right before it exactly
   * when n >= 10, the warnings are those of the failure run, and the next
   * cycle starts over at attempt 1.
   */
  lemma RecoveryLine(url: string, pingIntervalSec: int, hasSignal: bool, failing: seq<Tick>, up: Tick)
    requires FailingRun(hasSignal, failing)
    requires IsUp(up.outcome) && !(hasSignal && up.aborted)
    ensures var r := Trace(url, pingIntervalSec, hasSignal, 1, failing + [up]);
      && OfSeverity(r.events, Log) == (if |failing| >= 10 then [AppUp] else []) + [PingOk(|failing| + 1, url)]
      && OfSeverity(r.events, Warn) == ExpectedWarnings(url, 1, failing)
      && WarnAttempts(r.events) == Attempts(1, |failing|)
      && r.counter == 1
      && r.stop == OutOfTicks
  {
    var first := Trace(url, pingIntervalSec, hasSignal, 1, failing);
    FailureRun(url, pingIntervalSec, hasSignal, 1, failing);
    TraceSplits(url, pingIntervalSec, hasSignal, 1, failing, [up]);
    var second := Trace(url, pingIntervalSec, hasSignal, first.counter, [up]);
    TraceUnfolds(url, pingIntervalSec, hasSignal, first.counter, [up]);
    assert second.events == (if |failing| >= 10 then [AppUp] else []) + [PingOk(|failing| + 1, url)];
    OnlyLogLines(second.events);
    OfSeverityAppend(first.events, second.events, Log);
    FailureWarnings(url, pingIntervalSec, hasSignal, 1, failing);
    OfSeverityAppend(first.events, second.events, Warn);
    WarnAttemptsAppend(first.events, second.events);
  }
}
