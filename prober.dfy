/**
 * The probe/retry cycle of the uptime monitor: one pure step that decides
 * what a cycle logs, how long it waits and which attempt comes next, the
 * recursive description of a whole session over a finite stretch of
 * observations, and the loop that drives it.
 *
 * The HTTP request and the clock are outside the model: the outcome of each
 * probe and the state of the abort signal at the top of each cycle are
 * inputs, and a wait is recorded as its length in milliseconds.
 */
module Prober {
  import opened Events

  /** What one request to the target comes back with. */
  datatype Outcome = Status(code: int) | TransportError

  /** Only an exact 200 counts as the target being up. */
  predicate IsUp(o: Outcome)
  {
    o == Status(200)
  }

  /** The optional abort signal as seen at the top of a cycle. */
  datatype Signal = NoSignal | Signal(aborted: bool)

  /** A cycle stops only for a signal that is present and aborted. */
  predicate Cancelled(s: Signal)
  {
    s.Signal? && s.aborted
  }

  /** The attempt counter; it starts at 1 and never drops below it. */
  type Attempt = n: nat | n >= 1 witness 1

  /** The wait between two cycles, in milliseconds. */
  function IntervalMs(pingIntervalSec: int): int
  {
    pingIntervalSec * 1000
  }

  /** The warning a failed probe logs: which template depends on how it failed. */
  function WarningFor(url: string, counter: Attempt, outcome: Outcome): Event
  {
    if outcome.TransportError? then Unreachable(url, counter) else PingFailed(url, counter)
  }

  /** What one cycle does: stop, or log some events, wait, and go on. */
  datatype Cycle = Halted | Completed(events: seq<Event>, waitMs: int, next: Attempt)

  /**
   * The continuation shared by both kinds of failure: after the warning
   * already logged, every tenth attempt also logs that the application
   * looks down; then wait and try again with the next attempt number.
   */
  function FailureContinuation(url: string, pingIntervalSec: int, counter: Attempt, warning: Event): (c: Cycle)
    requires SeverityOf(warning) == Warn
    ensures c.Completed? && c.next == counter + 1 && c.waitMs == IntervalMs(pingIntervalSec)
    ensures |c.events| == (if counter % 10 == 0 then 2 else 1) && c.events[0] == warning
    ensures |c.events| == 2 ==> c.events[1] == AppDown(url)
  {
    var milestone := if counter % 10 == 0 then [AppDown(url)] else [];
    Completed([warning] + milestone, IntervalMs(pingIntervalSec), counter + 1)
  }

  /**
   * One cycle: check the signal, classify the probe outcome, log, and
   * say how long to wait and which attempt comes next.
   */
  function RunCycle(url: string, pingIntervalSec: int, signal: Signal, counter: Attempt, outcome: Outcome): (c: Cycle)
    // an aborted signal stops the session before the probe; nothing else does
    ensures c.Halted? <==> Cancelled(signal)
    // every cycle that runs waits the same interval
    ensures c.Completed? ==> c.waitMs == pingIntervalSec * 1000
    // success: one success line, preceded by the recovery line exactly when counter > 10
    ensures c.Completed? && IsUp(outcome) ==>
      && c.next == 1
      && |c.events| == (if counter > 10 then 2 else 1)
      && (|c.events| == 2 ==> c.events[0] == AppUp)
      && c.events[|c.events| - 1] == PingOk(counter, url)
    // failure: exactly one warning naming the attempt, then the milestone error exactly when counter % 10 == 0
    ensures c.Completed? && !IsUp(outcome) ==>
      && c.next == counter + 1
      && |c.events| == (if counter % 10 == 0 then 2 else 1)
      && c.events[0] == WarningFor(url, counter, outcome)
      && (|c.events| == 2 ==> c.events[1] == AppDown(url))
  {
    if Cancelled(signal) then
      Halted
    else
      match outcome
      case Status(code) =>
        if code == 200 then
          var recovered := if counter > 10 then [AppUp] else [];
          Completed(recovered + [PingOk(counter, url)], IntervalMs(pingIntervalSec), 1)
        else
          FailureContinuation(url, pingIntervalSec, counter, PingFailed(url, counter))
      case TransportError =>
        FailureContinuation(url, pingIntervalSec, counter, Unreachable(url, counter))
  }

  /** What the outside world shows one cycle: the signal's flag, and the probe's outcome. */
  datatype Tick = Tick(aborted: bool, outcome: Outcome)

  function SignalAt(hasSignal: bool, t: Tick): Signal
  {
    if hasSignal then Signal(t.aborted) else NoSignal
  }

  /** Why a modelled session ended: the signal, or the end of the observations. */
  datatype Stop = Aborted | OutOfTicks

  /**
   * Everything a session did: the events logged, the waits taken, the
   * outcomes of the probes made, the attempt the next cycle would use,
   * and why it stopped.
   */
  datatype Transcript = Transcript(events: seq<Event>, waits: seq<int>, probed: seq<Outcome>, counter: Attempt, stop: Stop)

  /** One completed cycle followed by the rest of the session. */
  function Prepend(events: seq<Event>, waits: seq<int>, probed: seq<Outcome>, rest: Transcript): Transcript
  {
    Transcript(events + rest.events, waits + rest.waits, probed + rest.probed, rest.counter, rest.stop)
  }

  /**
   * The session the source's self-calls produce, cycle after cycle,
   * starting with attempt `counter`, over a finite list of observations.
   */
  function Trace(url: string, pingIntervalSec: int, hasSignal: bool, counter: Attempt, world: seq<Tick>): (t: Transcript)
    // only a signal that is present can end a session early
    ensures t.stop == Aborted ==> hasSignal
    decreases |world|
  {
    if world == [] then
      Transcript([], [], [], counter, OutOfTicks)
    else
      match RunCycle(url, pingIntervalSec, SignalAt(hasSignal, world[0]), counter, world[0].outcome)
      case Halted =>
        Transcript([], [], [], counter, Aborted)
      case Completed(events, waitMs, next) =>
        Prepend(events, [waitMs], [world[0].outcome], Trace(url, pingIntervalSec, hasSignal, next, world[1..]))
  }

  lemma TraceUnfolds(url: string, pingIntervalSec: int, hasSignal: bool, counter: Attempt, world: seq<Tick>)
    requires world != []
    ensures var c := RunCycle(url, pingIntervalSec, SignalAt(hasSignal, world[0]), counter, world[0].outcome);
            Trace(url, pingIntervalSec, hasSignal, counter, world)
            == if c.Halted? then Transcript([], [], [], counter, Aborted)
               else Prepend(c.events, [c.waitMs], [world[0].outcome], Trace(url, pingIntervalSec, hasSignal, c.next, world[1..]))
  {
  }

  lemma PrependTwice(events: seq<Event>, waits: seq<int>, probed: seq<Outcome>,
                     events': seq<Event>, waits': seq<int>, probed': seq<Outcome>, rest: Transcript)
    ensures Prepend(events, waits, probed, Prepend(events', waits', probed', rest))
         == Prepend(events + events', waits + waits', probed + probed', rest)
  {
    assert events + (events' + rest.events) == events + events' + rest.events;
    assert waits + (waits' + rest.waits) == waits + waits' + rest.waits;
    assert probed + (probed' + rest.probed) == probed + probed' + rest.probed;
  }

  /**
   * The monitor's driver: starts at attempt 1 and cycles until the signal
   * is found aborted or the observations run out, appending to one log.
   */
  method Monitor(url: string, pingIntervalSec: int, hasSignal: bool, world: seq<Tick>) returns (r: Transcript)
    ensures r == Trace(url, pingIntervalSec, hasSignal, 1, world)
  {
    var counter: Attempt := 1;
    var events: seq<Event> := [];
    var waits: seq<int> := [];
    var probed: seq<Outcome> := [];
    var i := 0;
    while i < |world|
      invariant 0 <= i <= |world|
      invariant Trace(url, pingIntervalSec, hasSignal, 1, world)
             == Prepend(events, waits, probed, Trace(url, pingIntervalSec, hasSignal, counter, world[i..]))
    {
      var tick := world[i];
      var cycle := RunCycle(url, pingIntervalSec, SignalAt(hasSignal, tick), counter, tick.outcome);
      TraceUnfolds(url, pingIntervalSec, hasSignal, counter, world[i..]);
      assert world[i..][0] == tick && world[i..][1..] == world[i + 1..];
      match cycle
      case Halted =>
        return Transcript(events, waits, probed, counter, Aborted);
      case Completed(logged, waitMs, next) =>
        PrependTwice(events, waits, probed, logged, [waitMs], [tick.outcome],
                     Trace(url, pingIntervalSec, hasSignal, next, world[i + 1..]));
        events := events + logged;
        waits := waits + [waitMs];
        probed := probed + [tick.outcome];
        counter := next;
      i := i + 1;
    }
    assert world[i..] == [];
    r := Transcript(events, waits, probed, counter, OutOfTicks);
  }
}
