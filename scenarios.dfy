/**
 * The monitor's own test scenarios, stated as facts about the model: each
 * lemma fixes the observations a scenario feeds the monitor and states the
 * console traffic it expects.
 */
module Scenarios {
  import opened Events
  import opened Prober
  import opened SessionProperties

  const Url := "https://google.com"

  /** `n` cycles in which the signal is not aborted and the probe returns `o`. */
  function Repeated(n: nat, o: Outcome): (w: seq<Tick>)
    ensures |w| == n && forall i | 0 <= i < n :: w[i] == Tick(false, o)
  {
    seq(n, _ => Tick(false, o))
  }

  /** Status 500 on every probe: warnings for attempts 1 and 2, nothing else. */
  lemma BadStatusKeepsPinging()
    ensures var r := Trace(Url, 1, false, 1, Repeated(2, Status(500)));
      && OfSeverity(r.events, Warn) == [PingFailed(Url, 1), PingFailed(Url, 2)]
      && OfSeverity(r.events, Log) == []
      && OfSeverity(r.events, Error) == []
      && r.counter == 3
  {
    var world := Repeated(2, Status(500));
    FailureWarnings(Url, 1, false, 1, world);
    ExpectedWarningAt(Url, 1, world, 0);
    ExpectedWarningAt(Url, 1, world, 1);
    FailureRun(Url, 1, false, 1, world);
    MilestoneCount(Url, 1, false, 1, world);
  }

  /** The request fails outright every time: the other warning text, same cadence. */
  lemma UnreachableKeepsPinging()
    ensures var r := Trace(Url, 1, false, 1, Repeated(2, TransportError));
      && OfSeverity(r.events, Warn) == [Unreachable(Url, 1), Unreachable(Url, 2)]
      && OfSeverity(r.events, Log) == []
      && r.counter == 3
  {
    var world := Repeated(2, TransportError);
    FailureWarnings(Url, 1, false, 1, world);
    ExpectedWarningAt(Url, 1, world, 0);
    ExpectedWarningAt(Url, 1, world, 1);
    FailureRun(Url, 1, false, 1, world);
  }

  /** Status 200 every time: a success line on attempt 1, again and again. */
  lemma SuccessKeepsPinging()
    ensures var r := Trace(Url, 1, true, 1, Repeated(2, Status(200)));
      && OfSeverity(r.events, Log) == [PingOk(1, Url), PingOk(1, Url)]
      && OfSeverity(r.events, Warn) == []
      && r.counter == 1
  {
    SuccessRun(Url, 1, true, Repeated(2, Status(200)));
  }

  lemma FirstTenAttempts()
    ensures Attempts(1, 10) == [1, 2, 3, 4, 5, 6, 7, 8, 9, 10]
  {
  }

  /** Ten failures in a row: ten bad-status warnings and exactly one milestone error. */
  lemma TenFailuresLogDown()
    ensures var r := Trace(Url, 1, true, 1, Repeated(10, Status(500)));
      && WarnAttempts(r.events) == [1, 2, 3, 4, 5, 6, 7, 8, 9, 10]
      && |OfSeverity(r.events, Warn)| == 10
      && (forall i | 0 <= i < 10 :: OfSeverity(r.events, Warn)[i] == PingFailed(Url, i + 1))
      && OfSeverity(r.events, Error) == [AppDown(Url)]
  {
    var world := Repeated(10, Status(500));
    FailuresFromStart(Url, 1, true, world);
    FailureWarnings(Url, 1, true, 1, world);
    BadStatusWarnings(10);
    FirstTenAttempts();
    OnlyMilestone(Url, 1, world);
  }

  /** The warnings n bad statuses from the first attempt should log: "Ping to URL ... failed" for attempts 1..n. */
  lemma BadStatusWarnings(n: nat)
    ensures var w := ExpectedWarnings(Url, 1, Repeated(n, Status(500)));
      && |w| == n
      && forall i | 0 <= i < n :: w[i] == PingFailed(Url, i + 1)
  {
    var world := Repeated(n, Status(500));
    ExpectedWarningsLength(Url, 1, world);
    forall i | 0 <= i < n
      ensures ExpectedWarnings(Url, 1, world)[i] == PingFailed(Url, i + 1)
    {
      ExpectedWarningAt(Url, 1, world, i);
    }
  }

  /** Between ten and nineteen failures from the first attempt log exactly one milestone error. */
  lemma OnlyMilestone(url: string, pingIntervalSec: int, world: seq<Tick>)
    requires 10 <= |world| < 20
    requires forall i | 0 <= i < |world| :: !IsUp(world[i].outcome) && !world[i].aborted
    ensures OfSeverity(Trace(url, pingIntervalSec, true, 1, world).events, Error) == [AppDown(url)]
  {
    MilestoneCount(url, pingIntervalSec, true, 1, world);
    var errors := OfSeverity(Trace(url, pingIntervalSec, true, 1, world).events, Error);
    assert |errors| == 1;
    assert errors[0] in errors;
  }

  /**
   * Eleven failures, then the target comes back: eleven bad-status warnings,
   * then the recovery line and the success line on attempt 12, in that
   * order, and the next cycle starts over at attempt 1.
   */
  lemma RecoveryAfterElevenFailures()
    ensures var r := Trace(Url, 1, true, 1, Repeated(11, Status(500)) + [Tick(false, Status(200))]);
      && WarnAttempts(r.events) == Attempts(1, 11)
      && |OfSeverity(r.events, Warn)| == 11
      && (forall i | 0 <= i < 11 :: OfSeverity(r.events, Warn)[i] == PingFailed(Url, i + 1))
      && OfSeverity(r.events, Log) == [AppUp, PingOk(12, Url)]
      && r.counter == 1
  {
    RecoveryLine(Url, 1, true, Repeated(11, Status(500)), Tick(false, Status(200)));
    BadStatusWarnings(11);
  }

  /**
   * The same session goes on: the next success is on attempt 1, so the
   * success stream reads recovery, attempt 12, attempt 1; the signal
   * aborted afterwards ends the session without another probe.
   */
  lemma RecoveredSessionStartsOver()
    ensures var r := Trace(Url, 1, true, 1, Repeated(11, Status(500)) + [Tick(false, Status(200))]
                                            + [Tick(false, Status(200)), Tick(true, Status(200))]);
      && OfSeverity(r.events, Log) == [AppUp, PingOk(12, Url), PingOk(1, Url)]
      && |r.probed| == 13
      && r.stop == Aborted
  {
    RecoveryThenAbort(Repeated(11, Status(500)), [Tick(false, Status(200)), Tick(true, Status(200))]);
  }

  /** A long outage, the recovery, one more success on attempt 1, and then the signal. */
  lemma RecoveryThenAbort(failing: seq<Tick>, tail: seq<Tick>)
    requires FailingRun(true, failing) && |failing| >= 10
    requires tail == [Tick(false, Status(200)), Tick(true, Status(200))]
    ensures var r := Trace(Url, 1, true, 1, failing + [Tick(false, Status(200))] + tail);
      && OfSeverity(r.events, Log) == [AppUp, PingOk(|failing| + 1, Url), PingOk(1, Url)]
      && |r.probed| == |failing| + 2
      && r.stop == Aborted
  {
    var recovered := failing + [Tick(false, Status(200))];
    RecoveryLine(Url, 1, true, failing, Tick(false, Status(200)));
    var first := Trace(Url, 1, true, 1, recovered);
    TraceSplits(Url, 1, true, 1, recovered, tail);
    SuccessThenAbort(tail);
    OfSeverityAppend(first.events, [PingOk(1, Url)], Log);
    SignalEndsSession(Url, 1, true, 1, recovered);
  }

  /** From attempt 1, a success and then an aborted signal: one success line, one wait, then the stop. */
  lemma SuccessThenAbort(tail: seq<Tick>)
    requires tail == [Tick(false, Status(200)), Tick(true, Status(200))]
    ensures Trace(Url, 1, true, 1, tail) == Transcript([PingOk(1, Url)], [1000], [Status(200)], 1, Aborted)
  {
    TraceUnfolds(Url, 1, true, 1, tail);
    TraceUnfolds(Url, 1, true, 1, tail[1..]);
  }
}
