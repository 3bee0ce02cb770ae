/** Outcome classes, retry decisions, the backoff schedule and the attempts a sender can build. */
module Policy {
  import opened Basics
  import opened Tables

  const MAXIMUM_ATTEMPTS: int := 8

  type Word16 = n: nat | n < 0x1_0000

  /** What a worker holds after a successful claim. */
  datatype ClaimedEvent = ClaimedEvent(
    sandbox: bool,
    id: Uuid,
    claimId: Uuid,
    destination: Destination,
    replayNumber: nat,
    attemptNumber: nat,
    createdAt: Time)

  datatype Attempt = Attempt(
    id: Uuid,
    startedAt: Time,
    finishedAt: Time,
    outcome: Outcome,
    statusCode: Option<int>,
    errorCode: Option<string>,
    nextAttemptAt: Time)

  /** Success is class 2; timeouts, throttling and class 5 may pass; anything else will not. */
  function HttpOutcome(status: Word16): (outcome: Outcome)
    ensures outcome.Succeeded? <==> status / 100 == 2
    ensures outcome.RetryableHttp? <==> status == 408 || status == 429 || status / 100 == 5
    ensures !outcome.NetworkError?
  {
    if 200 <= status <= 299 then Succeeded
    else if status == 408 || status == 429 then RetryableHttp
    else if 500 <= status <= 599 then RetryableHttp
    else TerminalHttp
  }

  predicate CanRetry(attempt: int) {
    attempt < MAXIMUM_ATTEMPTS
  }

  predicate CanRetryAt(attempt: int, createdAt: Time, now: Time) {
    CanRetry(attempt) && now - createdAt < DAY
  }

  /** The state an event takes when an attempt on it is recorded. */
  function RecordState(claimed: ClaimedEvent, attempt: Attempt): State {
    if attempt.outcome.Succeeded? then Delivered
    else if attempt.outcome.TerminalHttp? then DeadLettered
    else if !CanRetryAt(claimed.attemptNumber, claimed.createdAt, attempt.finishedAt) then DeadLettered
    else RetryScheduled
  }

  // ---------------------------------------------------------------- backoff

  const DELAYS: seq<int> :=
    [0, 5 * SECOND, 30 * SECOND, 2 * MINUTE, 10 * MINUTE, 30 * MINUTE, 2 * HOUR, 6 * HOUR]

  /** Go's integer division, which truncates toward zero. */
  function Quotient(a: int, b: int): int
    requires b > 0
  {
    if a >= 0 then a / b else -((-a) / b)
  }

  function Offset(delay: int, word: Word16): int {
    Quotient(delay * (word % 401 - 200), 1000)
  }

  /** The wait after attempt `attempt`, given the leading 16 bits of the event's digest for it. */
  function Wait(attempt: nat, word: Word16): int {
    var index := if attempt >= |DELAYS| then |DELAYS| - 1 else attempt;
    DELAYS[index] + Offset(DELAYS[index], word)
  }

  function NextAttemptAt(claimed: ClaimedEvent, now: Time, outcome: Outcome, word: Word16): Time
  {
    if outcome.Succeeded? || outcome.TerminalHttp? then now
    else now + Wait(claimed.attemptNumber, word)
  }

  lemma QuotientBounds(x: int, delay: int)
    requires -200 * delay <= x <= 200 * delay
    ensures -delay <= 5 * Quotient(x, 1000) <= delay
  {
  }

  lemma ScaleBounds(delay: int, m: int)
    requires delay >= 0 && -200 <= m <= 200
    ensures -200 * delay <= delay * m <= 200 * delay
  {
  }

  /** The offset is within a fifth of the delay, and the 64-bit product in it cannot overflow. */
  lemma OffsetBounds(delay: int, word: Word16)
    requires 0 <= delay <= 6 * HOUR
    ensures -delay <= 5 * Offset(delay, word) <= delay
    ensures -0x8000_0000_0000_0000 <= delay * (word % 401 - 200) < 0x8000_0000_0000_0000
  {
    ScaleBounds(delay, word % 401 - 200);
    QuotientBounds(delay * (word % 401 - 200), delay);
  }

  /** Each wait is within 20% of its nominal delay, whatever the hash. */
  lemma WaitWithinTwentyPercent(attempt: nat, word: Word16)
    requires 1 <= attempt <= 7
    ensures 4 * DELAYS[attempt] <= 5 * Wait(attempt, word) <= 6 * DELAYS[attempt]
    ensures Wait(attempt, word) >= 4 * SECOND
  {
    OffsetBounds(DELAYS[attempt], word);
  }

  /** Delays are whole thousands of nanoseconds, so the division loses nothing: the offset is exactly the
      delay times a whole per mille between -200 and 200. */
  lemma JitterIsExact(attempt: nat, word: Word16)
    requires 1 <= attempt <= 7
    ensures 1000 * (Wait(attempt, word) - DELAYS[attempt]) == DELAYS[attempt] * (word % 401 - 200)
  {
    var delay, m := DELAYS[attempt], word % 401 - 200;
    DelaysInThousands(attempt);
    ExactQuotient(delay / 1000 * m);
    assert delay * m == 1000 * (delay / 1000 * m) by {
      assert delay == 1000 * (delay / 1000);
    }
  }

  lemma DelaysInThousands(attempt: nat)
    requires 1 <= attempt <= 7
    ensures DELAYS[attempt] == 1000 * (DELAYS[attempt] / 1000)
  {
  }

  lemma ExactQuotient(k: int)
    ensures Quotient(1000 * k, 1000) == k
  {
  }

  lemma ExtremeOffsets(fifth: int)
    requires fifth >= 0
    ensures Offset(5 * fifth, 0) == -fifth && Offset(5 * fifth, 400) == fifth
  {
    assert 5 * fifth * (0 % 401 - 200) == -1000 * fifth && 5 * fifth * (400 % 401 - 200) == 1000 * fifth;
  }

  lemma DelaysInFifths(attempt: nat)
    requires 1 <= attempt <= 7
    ensures DELAYS[attempt] > 0 && DELAYS[attempt] == 5 * (DELAYS[attempt] / 5)
  {
  }

  /** Both ends of the range are reached, so the range is exactly 20% either way. */
  lemma JitterReachesBothEnds(attempt: nat)
    requires 1 <= attempt <= 7
    ensures 5 * Wait(attempt, 0) == 4 * DELAYS[attempt]
    ensures 5 * Wait(attempt, 400) == 6 * DELAYS[attempt]
  {
    DelaysInFifths(attempt);
    ExtremeOffsets(DELAYS[attempt] / 5);
  }

  lemma DelaysGrow(m: nat, n: nat)
    requires 1 <= m < n <= 7
    ensures 3 * DELAYS[m] < 2 * DELAYS[n]
  {
  }

  /** Backoff grows: a later wait is strictly longer than an earlier one, for any two hashes. */
  lemma WaitsIncrease(m: nat, n: nat, early: Word16, late: Word16)
    requires 1 <= m < n <= 7
    ensures Wait(m, early) < Wait(n, late)
  {
    WaitWithinTwentyPercent(m, early);
    WaitWithinTwentyPercent(n, late);
    DelaysGrow(m, n);
  }

  /** Every scheduled instant lies strictly after the attempt that caused it. */
  lemma RetryIsLater(claimed: ClaimedEvent, now: Time, outcome: Outcome, word: Word16)
    requires 1 <= claimed.attemptNumber <= 8
    ensures var next := NextAttemptAt(claimed, now, outcome, word);
      if outcome.Succeeded? || outcome.TerminalHttp? then next == now else next >= now + 4 * SECOND
  {
  }

  function TotalWait(n: nat, words: nat -> Word16): int {
    if n == 0 then 0 else TotalWait(n - 1, words) + Wait(n, words(n))
  }

  function TotalDelay(n: nat): int
    requires n <= 7
  {
    if n == 0 then 0 else TotalDelay(n - 1) + DELAYS[n]
  }

  lemma {:induction false} TotalWaitBound(n: nat, words: nat -> Word16)
    requires n <= 7
    ensures 5 * TotalWait(n, words) <= 6 * TotalDelay(n)
  {
    if n == 0 {
    } else {
      TotalWaitBound(n - 1, words);
      WaitWithinTwentyPercent(n, words(n));
    }
  }

  lemma AllDelays()
    ensures TotalDelay(7) == 31_355 * SECOND
  {
    assert TotalDelay(3) == 155 * SECOND;
    assert TotalDelay(5) == TotalDelay(3) + 2400 * SECOND;
    assert TotalDelay(7) == TotalDelay(5) + 28_800 * SECOND;
  }

  lemma DelaysAccumulate(n: nat)
    requires n <= 7
    ensures TotalDelay(n) <= TotalDelay(7)
    decreases 7 - n
  {
  }

  /** All seven waits together never exceed 37 626 seconds. */
  lemma WholeSchedule(n: nat, words: nat -> Word16)
    requires n <= 7
    ensures TotalWait(n, words) <= 37_626 * SECOND
  {
    TotalWaitBound(n, words);
    AllDelays();
    DelaysAccumulate(n);
  }

  // ---------------------------------------------------------------- sending

  datatype Failure =
    | IdentifierUnavailable | InvalidDestination | InsecureDestination
    | RequestFailed | ResponseReadFailed

  function FailureCode(failure: Failure): string {
    match failure
    case IdentifierUnavailable => "identifier_unavailable"
    case InvalidDestination => "invalid_destination"
    case InsecureDestination => "insecure_destination"
    case RequestFailed => "request_failed"
    case ResponseReadFailed => "response_read_failed"
  }

  /** What the outside world does during one send. A failed send may also fail to draw a fresh
      identifier; an answered one reads the clock once more for the next attempt. */
  datatype Reply =
    | Failed(failure: Failure, freshId: Option<Uuid>)
    | Answered(attemptId: Uuid, status: Word16, later: Time)

  datatype Exchange = Exchange(startedAt: Time, finishedAt: Time, reply: Reply, word: Word16)

  function SandboxStatus(claimed: ClaimedEvent): Word16 {
    match claimed.destination
    case Simulator(Success) => 204
    case Simulator(TemporaryFailure) => if claimed.attemptNumber < 3 then 503 else 204
    case _ => 422
  }

  function SandboxAttempt(claimed: ClaimedEvent, now: Time, word: Word16): Attempt
  {
    var status := SandboxStatus(claimed);
    var outcome := HttpOutcome(status);
    Attempt(claimed.claimId, now, now, outcome, Some(status), None,
            NextAttemptAt(claimed, now, outcome, word))
  }

  /** The attempt that `Send` returns for a claim, given what happened outside. */
  function Send(claimed: ClaimedEvent, x: Exchange): Attempt
  {
    if claimed.sandbox then SandboxAttempt(claimed, x.startedAt, x.word)
    else
      match x.reply
      case Failed(failure, freshId) =>
        Attempt(if freshId.Some? then freshId.value else claimed.claimId, x.startedAt, x.finishedAt,
                NetworkError, None, Some(FailureCode(failure)),
                NextAttemptAt(claimed, x.finishedAt, NetworkError, x.word))
      case Answered(attemptId, status, later) =>
        var outcome := HttpOutcome(status);
        Attempt(attemptId, x.startedAt, x.finishedAt, outcome, Some(status), None,
                NextAttemptAt(claimed, later, outcome, x.word))
  }

  /** A sender started at or after `from` and back by `to` read its clock in order. */
  predicate Timely(claimed: ClaimedEvent, x: Exchange, from: Time, to: Time) {
    && from <= x.startedAt <= x.finishedAt <= to
    && (x.reply.Answered? ==> x.finishedAt <= x.reply.later <= to)
  }

  /** The instant the backoff of an attempt counts from. */
  function RetryBase(claimed: ClaimedEvent, x: Exchange): Time {
    if claimed.sandbox then x.startedAt
    else
      match x.reply
      case Failed(_, _) => x.finishedAt
      case Answered(_, _, later) => later
  }

  /** After attempt n a retry is due within 20% of 5 s, 30 s, 2 min, 10 min, 30 min, 2 h or 6 h. */
  lemma RetryDueWithin(claimed: ClaimedEvent, x: Exchange)
    requires !Send(claimed, x).outcome.Succeeded? && !Send(claimed, x).outcome.TerminalHttp?
    ensures var n, wait := claimed.attemptNumber, Send(claimed, x).nextAttemptAt - RetryBase(claimed, x);
      && (n == 1 ==> 4 * SECOND <= wait <= 6 * SECOND)
      && (n == 2 ==> 24 * SECOND <= wait <= 36 * SECOND)
      && (n == 3 ==> 96 * SECOND <= wait <= 144 * SECOND)
      && (n == 4 ==> 480 * SECOND <= wait <= 720 * SECOND)
      && (n == 5 ==> 1_440 * SECOND <= wait <= 2_160 * SECOND)
      && (n == 6 ==> 5_760 * SECOND <= wait <= 8_640 * SECOND)
      && (n >= 7 ==> 17_280 * SECOND <= wait <= 25_920 * SECOND)
  {
    if claimed.attemptNumber >= 1 {
      LongestWaitRepeats(claimed.attemptNumber, x.word);
      WaitWithinTwentyPercent(if claimed.attemptNumber <= 7 then claimed.attemptNumber else 7, x.word);
    }
  }

  lemma LongestWaitRepeats(attempt: nat, word: Word16)
    ensures attempt >= 7 ==> Wait(attempt, word) == Wait(7, word)
  {
  }

  /** Everything later modules need to know about an attempt that `Send` can return. */
  lemma SendFacts(claimed: ClaimedEvent, x: Exchange, from: Time, to: Time)
    requires 1 <= claimed.attemptNumber <= 8
    requires Timely(claimed, x, from, to)
    ensures var a := Send(claimed, x);
      && from <= a.startedAt <= a.finishedAt <= to
      && a.finishedAt <= a.nextAttemptAt
      && (a.outcome.RetryableHttp? || a.outcome.NetworkError? ==> a.finishedAt + 4 * SECOND <= a.nextAttemptAt)
      && (a.statusCode.Some? <==> a.errorCode.None?)
      && (a.errorCode.Some? ==> 1 <= |a.errorCode.value| <= 64)
  {
  }
}
