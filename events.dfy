/**
 * The log events the prober emits, their severities and the literal
 * message texts an operator sees on the console.
 */
module Events {

  /** The three console streams the prober writes to. */
  datatype Severity = Log | Warn | Error

  /** One log event; the message text is produced by `Message`. */
  datatype Event =
    | AppUp                                   // the target answered after a long outage
    | PingOk(attempt: nat, url: string)       // status 200
    | PingFailed(url: string, attempt: nat)   // any other status
    | Unreachable(url: string, attempt: nat)  // the request itself failed
    | AppDown(url: string)                    // every tenth failed attempt

  function SeverityOf(e: Event): Severity
  {
    match e
    case AppUp | PingOk(_, _) => Log
    case PingFailed(_, _) | Unreachable(_, _) => Warn
    case AppDown(_) => Error
  }

  predicate IsDigit(c: char)
  {
    '0' <= c <= '9'
  }

  predicate AllDigits(s: string)
  {
    forall i :: 0 <= i < |s| ==> IsDigit(s[i])
  }

  function DigitChar(d: nat): (c: char)
    requires d < 10
    ensures IsDigit(c) && c as int - '0' as int == d
  {
    ('0' as int + d) as char
  }

  /**
   * The text a template literal produces for a non-negative integer:
   * plain decimal digits, no sign and no leading zero.
   */
  function Decimal(n: nat): (s: string)
    ensures |s| >= 1 && AllDigits(s)
    ensures s[0] == '0' ==> s == "0"
    decreases n
  {
    if n < 10 then [DigitChar(n)] else Decimal(n / 10) + [DigitChar(n % 10)]
  }

  /** Reads a string of decimal digits back as a number. */
  function ParseDecimal(s: string): nat
    requires AllDigits(s)
    decreases |s|
  {
    if s == [] then 0
    else 10 * ParseDecimal(s[..|s| - 1]) + (s[|s| - 1] as int - '0' as int)
  }

  /** The attempt number in a message can be read back exactly. */
  lemma {:induction false} DecimalRoundTrip(n: nat)
    ensures ParseDecimal(Decimal(n)) == n
    decreases n
  {
    var s := Decimal(n);
    if n >= 10 {
      DecimalRoundTrip(n / 10);
      assert s[..|s| - 1] == Decimal(n / 10);
    }
  }

  lemma DecimalInjective(m: nat, n: nat)
    requires Decimal(m) == Decimal(n)
    ensures m == n
  {
    DecimalRoundTrip(m);
    DecimalRoundTrip(n);
  }

  /** The five message templates; each begins with the fixed text of its kind. */
  function Message(e: Event): (m: string)
    ensures Head(e) <= m
  {
    match e
    case AppUp =>
      "App was down but now is up!"
    case PingOk(attempt, url) =>
      "Ping successful on [" + Decimal(attempt) + "] attempt, the URL [" + url + "] is alive!"
    case PingFailed(url, attempt) =>
      "Ping to URL [" + url + "] failed. Attempt [" + Decimal(attempt) + "]"
    case Unreachable(url, attempt) =>
      "Failed to acquire the URL [" + url + "]. Attempt [" + Decimal(attempt) + "]"
    case AppDown(url) =>
      "Looks like the application is down: " + "10 attempts and no successful " + "ping from URL [" + url + "]"
  }

  /** Which of the five templates an event uses. */
  function Template(e: Event): nat
  {
    match e
    case AppUp => 0
    case PingOk(_, _) => 1
    case PingFailed(_, _) => 2
    case Unreachable(_, _) => 3
    case AppDown(_) => 4
  }

  /** The fixed text each template starts with. */
  function Head(e: Event): string
  {
    match e
    case AppUp => "App was down but now is up!"
    case PingOk(_, _) => "Ping successful on ["
    case PingFailed(_, _) => "Ping to URL ["
    case Unreachable(_, _) => "Failed to acquire the URL ["
    case AppDown(_) => "Looks like the application is down: "
  }

  /**
   * Two events of different kinds never print the same text, so the
   * kind of an event can be recovered from its message.
   */
  lemma MessagesTellKindsApart(e1: Event, e2: Event)
    requires Template(e1) != Template(e2)
    ensures Message(e1) != Message(e2)
  {
    HeadMarks(e1);
    HeadMarks(e2);
    // The first character separates all heads but two; the sixth separates those.
    assert Head(e1)[0] != Head(e2)[0] || Head(e1)[5] != Head(e2)[5];
  }

  lemma HeadMarks(e: Event)
    ensures |Head(e)| > 5 && Template(e) < 5
    ensures Head(e)[0] == "APPFL"[Template(e)]
    ensures Template(e) == 1 ==> Head(e)[5] == 's'
    ensures Template(e) == 2 ==> Head(e)[5] == 't'
  {
    var marks := "APPFL";
    match e
    case AppUp => assert marks[0] == 'A';
    case PingOk(_, _) => assert marks[1] == 'P';
    case PingFailed(_, _) => assert marks[2] == 'P';
    case Unreachable(_, _) => assert marks[3] == 'F';
    case AppDown(_) => assert marks[4] == 'L';
  }

  /** For a fixed URL, a message that ends in an attempt number determines it. */
  lemma {:induction false} AttemptReadBack(prefix: string, m: nat, n: nat, suffix: string)
    requires prefix + Decimal(m) + suffix == prefix + Decimal(n) + suffix
    ensures m == n
  {
    var s := prefix + Decimal(m) + suffix;
    assert |Decimal(m)| == |Decimal(n)|;
    assert Decimal(m) == s[|prefix|..|prefix| + |Decimal(m)|];
    assert Decimal(n) == s[|prefix|..|prefix| + |Decimal(n)|];
    DecimalInjective(m, n);
  }

  /**
   * Warnings and success messages carry the attempt number faithfully:
   * two messages of the same kind for the same URL are equal exactly when
   * their attempt numbers are.
   */
  lemma SuccessMessageIdentifiesAttempt(url: string, m: nat, n: nat)
    ensures Message(PingOk(m, url)) == Message(PingOk(n, url)) <==> m == n
  {
    if Message(PingOk(m, url)) == Message(PingOk(n, url)) {
      var tail := "] attempt, the URL [" + url + "] is alive!";
      SuccessMessageShape(url, m, tail);
      SuccessMessageShape(url, n, tail);
      AttemptReadBack("Ping successful on [", m, n, tail);
    }
  }

  lemma SuccessMessageShape(url: string, attempt: nat, tail: string)
    requires tail == "] attempt, the URL [" + url + "] is alive!"
    ensures Message(PingOk(attempt, url)) == "Ping successful on [" + Decimal(attempt) + tail
  {
  }

  lemma WarningMessageIdentifiesAttempt(url: string, m: nat, n: nat)
    ensures Message(PingFailed(url, m)) == Message(PingFailed(url, n)) <==> m == n
    ensures Message(Unreachable(url, m)) == Message(Unreachable(url, n)) <==> m == n
  {
    if Message(PingFailed(url, m)) == Message(PingFailed(url, n)) {
      AttemptReadBack("Ping to URL [" + url + "] failed. Attempt [", m, n, "]");
    }
    if Message(Unreachable(url, m)) == Message(Unreachable(url, n)) {
      AttemptReadBack("Failed to acquire the URL [" + url + "]. Attempt [", m, n, "]");
    }
  }

  /** The events of one severity, in order: what one console stream receives. */
  function OfSeverity(log: seq<Event>, s: Severity): seq<Event>
    decreases |log|
  {
    if log == [] then []
    else (if SeverityOf(log[0]) == s then [log[0]] else []) + OfSeverity(log[1..], s)
  }

  lemma {:induction false} OfSeverityAppend(a: seq<Event>, b: seq<Event>, s: Severity)
    ensures OfSeverity(a + b, s) == OfSeverity(a, s) + OfSeverity(b, s)
    decreases |a|
  {
    if a == [] {
      assert a + b == b;
    } else {
      var head := if SeverityOf(a[0]) == s then [a[0]] else [];
      assert (a + b)[0] == a[0] && (a + b)[1..] == a[1..] + b;
      OfSeverityAppend(a[1..], b, s);
      assert OfSeverity(a + b, s) == head + (OfSeverity(a[1..], s) + OfSeverity(b, s));
    }
  }

  /** The attempt numbers the warnings of a log carry, in order. */
  function WarnAttempts(log: seq<Event>): seq<nat>
    decreases |log|
  {
    if log == [] then []
    else
      var head := match log[0]
        case PingFailed(_, attempt) => [attempt]
        case Unreachable(_, attempt) => [attempt]
        case _ => [];
      head + WarnAttempts(log[1..])
  }

  lemma {:induction false} WarnAttemptsAppend(a: seq<Event>, b: seq<Event>)
    ensures WarnAttempts(a + b) == WarnAttempts(a) + WarnAttempts(b)
    decreases |a|
  {
    if a != [] {
      assert (a + b)[1..] == a[1..] + b;
      WarnAttemptsAppend(a[1..], b);
    } else {
      assert a + b == b;
    }
  }
}
