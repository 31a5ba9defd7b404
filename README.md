# Uptime prober: a verified model of the probe/retry loop

The monitor probes one URL over and over, waiting a fixed interval between
probes. Every cycle does four things. It stops if the abort signal is present
and aborted. Otherwise it makes one request. It logs the outcome. Then it
waits `pingIntervalSec * 1000` ms and starts the next cycle.

- A status of exactly 200 logs `Ping successful on [n] attempt, the URL [url] is alive!`.
  When the attempt counter is above 10, `App was down but now is up!` comes right before it.
  The next cycle starts again at attempt 1.
- Any other status logs the warning `Ping to URL [url] failed. Attempt [n]`.
- A request that fails outright logs the warning `Failed to acquire the URL [url]. Attempt [n]`.
- Both kinds of failure continue the same way. On every attempt that is a
  multiple of ten they log the error
  `Looks like the application is down: 10 attempts and no successful ping from URL [url]`.
  The next cycle runs with attempt n + 1.

The model has four modules:

- `Events` (`events.dfy`): the event datatype, the three severities and the
  five message templates. It renders the attempt number in decimal and proves
  that the rendering reads back exactly. It proves that different kinds of
  event never print the same text, and that a message tells its attempt
  number apart. `OfSeverity` gives the view of the log that one console
  stream receives.
- `Prober` (`prober.dfy`): the probe outcome (`Status(code)` or
  `TransportError`), the optional abort signal and the pure one-cycle
  function `RunCycle`. `Trace` describes a whole session the way the source's
  self-calls run it. `Monitor` is the driver: a `while` loop with a mutable
  attempt counter and an event log that grows by appending. It is proved
  equal to `Trace`.
- `SessionProperties` (`properties.dfy`): lemmas about whole sessions. The
  abort signal ends a session. Every probe waits one interval. The counter is
  always one more than the number of failures since the last success. A run
  of n failures gives warnings for attempts 1..n and n / 10 milestone errors.
  A success after a run of failures logs the recovery line exactly when
  at least ten failures came before it.
- `Scenarios` (`scenarios.dfy`): the event sequences of the repository's
  own test cases.

The request and the clock are not part of the model. A session is run over
a finite list of `Tick`s. Each tick gives the signal's `aborted` flag at the
top of a cycle and the outcome that cycle's probe would return. A wait
becomes its length in milliseconds.

The counter resets to 1 after every success: `main.mjs:27` calls `main`
again, and `main` starts at counter 1 (`main.mjs:4`).

## Model

| member | source | states |
|---|---|---|
| Events.Decimal | main.mjs:23 | the `${counter}` text of an attempt number is non-empty, all decimal digits, and has no leading zero unless it is "0" itself |
| Events.Message | main.mjs:18-45 | every message begins with the fixed text of its template (the partner lemmas below show that this text tells the kinds apart) |
| Events.DecimalRoundTrip | main.mjs:23 | the decimal text a template prints for an attempt number reads back as that same number |
| Events.MessagesTellKindsApart | main.mjs:18-45 | no two of the five message templates ever produce the same text, whatever the URL and attempt |
| Events.SuccessMessageIdentifiesAttempt | main.mjs:23 | for one URL, two success messages are equal exactly when their attempt numbers are equal |
| Events.WarningMessageIdentifiesAttempt | main.mjs:29-34 | for one URL, two bad-status warnings (and two unreachable warnings) are equal exactly when their attempt numbers are equal |
| Events.OfSeverityAppend | main.mjs:20-44 | the view of one console stream over two stretches of log is the view of the first followed by the view of the second |
| Prober.FailureContinuation | main.mjs:40-50 | after the warning it is given, the milestone error is logged exactly when counter % 10 == 0; the wait is one interval and the next attempt is counter + 1 |
| Prober.RunCycle | main.mjs:7-38 | the cycle halts exactly when the signal is present and aborted; a cycle that runs waits pingIntervalSec * 1000 ms; on status 200 it logs the success line last, preceded by the recovery line exactly when counter > 10, and resets the next attempt to 1; on any other status or a transport error it logs exactly one warning of the matching template for this attempt, then the milestone error exactly when counter % 10 == 0, and the next attempt is counter + 1 |
| Prober.Trace | main.mjs:3-50 | the session the self-calls of `main`, `startPinging` and `callRecursively` produce over the observations; it stops early only when a signal was passed |
| Prober.Monitor | main.mjs:3-50 | the loop that starts at attempt 1 and cycles until the signal is found aborted or the observations run out yields exactly the session of `Trace` |
| SessionProperties.SignalEndsSession | main.mjs:8-10 | a session probes the observations in order, none of the probed ones had an aborted signal, and it stops either at the end of the observations or at the first aborted one, without probing it |
| SessionProperties.AbortedAtStart | main.mjs:8-10 | a signal aborted before the first cycle gives no probe, no event and no wait |
| SessionProperties.NoSignalNeverStops | main.mjs:8 | without a signal, every observation is probed and the session never stops by abort |
| SessionProperties.EveryProbeWaitsOneInterval | main.mjs:41-47 | every probe is followed by exactly one wait, always of pingIntervalSec * 1000 ms |
| SessionProperties.TraceCounter | main.mjs:27-49 | the counter a session leaves is the one obtained by resetting it to 1 on each success and adding 1 on each failure, over the probed outcomes |
| SessionProperties.CounterTracksFailures | main.mjs:27-49 | a counter equal to 1 + the failures since the last success stays so after any further outcomes |
| SessionProperties.CounterFromStart | main.mjs:3-5 | from the start of a session, the counter is always 1 + the number of failures since the last success |
| SessionProperties.FailureRun | main.mjs:28-49 | a run of n failures from attempt c leaves the counter at c + n, logs warnings carrying attempts c, c + 1, ... in order, and logs no success line |
| SessionProperties.ExpectedWarningAt | main.mjs:29-34 | the i-th expected warning of a failure run names attempt c + i, with the bad-status or unreachable text according to the i-th outcome |
| SessionProperties.FailureWarnings | main.mjs:28-36 | in a failure run the warnings logged are exactly the expected warnings |
| SessionProperties.MilestonesCounted | main.mjs:43-45 | n failed attempts from c include (c + n - 1) / 10 - (c - 1) / 10 milestones, and every one is the application-down error for the URL |
| SessionProperties.FailureMilestones | main.mjs:43-45 | in a failure run the errors logged are exactly the expected milestones |
| SessionProperties.MilestoneCount | main.mjs:43-45 | a failure run from attempt c logs (c + n - 1) / 10 - (c - 1) / 10 errors, all of them the application-down error |
| SessionProperties.FailuresFromStart | main.mjs:4 | from attempt 1, n failures give warnings for attempts 1..n, n / 10 errors and the counter n + 1 |
| SessionProperties.SuccessRun | main.mjs:18-27 | a run of successes from attempt 1 logs one success line on attempt 1 per probe, no warning and no error, and the counter stays 1 |
| SessionProperties.RecoveryLine | main.mjs:18-27 | n failures from attempt 1 and then a success log the success line for attempt n + 1, preceded by the recovery line exactly when n >= 10; the warnings are exactly those of the failure run; the counter is reset to 1 and the session goes on |
| SessionProperties.TraceSplits | main.mjs:49 | a session over two stretches of observations is the session over the first followed by the session over the second, which starts from the counter the first left |
| Scenarios.BadStatusKeepsPinging | main.spec.mjs:27-46 | status 500 twice logs the bad-status warnings for attempts 1 and 2 and nothing else |
| Scenarios.UnreachableKeepsPinging | main.spec.mjs:48-67 | two transport errors log the unreachable warnings for attempts 1 and 2 and no success line |
| Scenarios.SuccessKeepsPinging | main.spec.mjs:69-87 | status 200 twice logs the success line on attempt 1 twice and no warning |
| Scenarios.TenFailuresLogDown | main.spec.mjs:99-115 | ten bad statuses log the warnings `Ping to URL [url] failed. Attempt [1]` to `... Attempt [10]`, in order, and exactly one application-down error |
| Scenarios.OnlyMilestone | main.spec.mjs:114-115 | ten to nineteen failures from attempt 1 log exactly one error, the application-down error |
| Scenarios.RecoveryAfterElevenFailures | main.spec.mjs:117-129 | eleven bad statuses log the bad-status warnings for attempts 1 to 11; the success that follows logs the recovery line and then the success line on attempt 12, and resets the counter to 1 |
| Scenarios.RecoveredSessionStartsOver | main.spec.mjs:127-137 | in that same session the next success logs the success line on attempt 1, so the success stream reads recovery, attempt 12, attempt 1; the signal aborted afterwards ends the session after 13 probes |
| Scenarios.RecoveryThenAbort | main.spec.mjs:127-137 | any outage of ten or more failures, a recovery, one more success and the aborted signal log exactly the recovery line and success lines on attempts n + 1 and 1, and stop after n + 2 probes |

## Left out

- `index.mjs`: prompting for the URL and the interval, and the `parseInt`
  check. This is interactive input handling. `pingIntervalSec` is taken as a
  given integer.
- `makeRequest` and `axios.get` (`main.mjs:52-54`): the HTTP client is foreign
  code. Its result is an input: `Status(code)` for a response, `TransportError`
  for a rejection. With its default settings axios rejects any status outside
  2xx, so a real 500 would take the `catch` branch. The model takes the
  outcome as given, as the repository's tests do with a stubbed client.
- Timers, `await` and `AbortController`: a wait is recorded only as its
  length in milliseconds. The browser/Node clamping of negative or
  non-numeric delays is not modelled. The signal is read only at the top of
  a cycle (`main.mjs:8`), so its state there is an input per cycle. Nothing
  interrupts a wait.
- The unbounded self-recursion (`main.mjs:27`, `main.mjs:49`): a session runs
  over a finite list of observations. When the list runs out, the session
  reports the attempt the next cycle would use.
- JavaScript numbers: the counter is an unbounded natural number. Precision
  loss beyond 2^53 is not modelled. Because the counter is always positive,
  the `%` of the source and Dafny's `%` agree.
- Exceptions thrown by the console or the timer: the recursive calls at
  `main.mjs:27` and `main.mjs:31` sit inside the same `try`, so such an
  exception would be logged as a transport failure. Only the request is
  modelled as failing.
- Separate console streams: the model keeps one ordered log tagged by
  severity. `OfSeverity` recovers what each stream receives.
