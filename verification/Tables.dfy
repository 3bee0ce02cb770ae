/** The four tables of the p3_relay schema and their declared constraints. */
module Tables {
  import opened Basics

  // A UUID is its 128-bit value, which is also how PostgreSQL orders the type.
  type Uuid = nat
  type SessionId = string
  // A SHA-256 digest as a number; bodies enter the model only through their digests.
  type Digest = nat

  datatype Scenario = Success | TemporaryFailure | PermanentFailure

  // The operator's source key, or "sandbox:" followed by a session identifier.
  // Start-up refuses operator keys with that prefix, so the two never coincide.
  datatype Source = Operator(key: string) | Visitor(session: SessionId)

  // Supplied by the sender of an operator event, or generated for a visitor event.
  datatype ExternalId = Given(text: string) | Simulated(scenario: Scenario, event: Uuid)

  // A configured URL, or "relay-simulator://" followed by a scenario.
  datatype Destination = Endpoint(url: string) | Simulator(scenario: Scenario)

  datatype State = Pending | Delivering | Delivered | RetryScheduled | DeadLettered

  datatype Outcome = Succeeded | RetryableHttp | TerminalHttp | NetworkError

  datatype Event = Event(
    source: Source,
    externalId: ExternalId,
    digest: Digest,
    destination: Destination,
    state: State,
    attemptCount: nat,
    replayCount: nat,
    nextAttemptAt: Time,
    lease: Option<Time>,
    claimId: Option<Uuid>,
    createdAt: Time,
    deliveredAt: Option<Time>,
    sandboxId: Option<SessionId>)

  datatype AttemptRow = AttemptRow(
    eventId: Uuid,
    replayNumber: int,
    attemptNumber: int,
    startedAt: Time,
    finishedAt: Time,
    outcome: Outcome,
    statusCode: Option<int>,
    errorCode: Option<string>)

  datatype Session = Session(expiresAt: Time, eventCount: int)

  datatype Budget = Budget(windowStart: Time, sessions: int, admissions: int)

  datatype Tables = Tables(
    events: map<Uuid, Event>,
    attempts: map<Uuid, AttemptRow>,
    sessions: map<SessionId, Session>,
    budget: Budget)

  /** CHECK constraints of an events row. */
  predicate EventChecks(e: Event) {
    && e.attemptCount <= 8
    && e.replayCount <= 16
    && (e.state.Delivered? ==> e.deliveredAt.Some?)
    && (e.state.Delivering? <==> e.claimId.Some?)
    && (e.state.Delivering? <==> e.lease.Some?)
  }

  /** CHECK constraints of a delivery_attempts row. */
  predicate AttemptChecks(r: AttemptRow) {
    && 0 <= r.replayNumber <= 16
    && 1 <= r.attemptNumber <= 8
    && r.startedAt <= r.finishedAt
    && (r.statusCode.Some? ==> 100 <= r.statusCode.value <= 599)
    && (r.errorCode.Some? ==> 1 <= |r.errorCode.value| <= 64)
    && (r.statusCode.Some? <==> r.errorCode.None?)
  }

  predicate SessionChecks(s: Session) {
    0 <= s.eventCount <= 20
  }

  predicate BudgetChecks(b: Budget) {
    0 <= b.sessions <= 100 && 0 <= b.admissions <= 1000
  }

  /** The row `r` is about replay generation `g`, attempt `n` of event `i`. */
  predicate About(r: AttemptRow, i: Uuid, g: int, n: int) {
    r.eventId == i && r.replayNumber == g && r.attemptNumber == n
  }

  /** Some stored attempt is about replay generation `g`, attempt `n` of event `i`. */
  predicate Has(attempts: map<Uuid, AttemptRow>, i: Uuid, g: int, n: int) {
    exists a :: a in attempts && About(attempts[a], i, g, n)
  }

  /** UNIQUE (source_key, external_event_id). */
  ghost predicate UniqueKeys(events: map<Uuid, Event>) {
    forall i, j :: i in events && j in events && i != j
      ==> !(events[i].source == events[j].source && events[i].externalId == events[j].externalId)
  }

  /** UNIQUE (event_id, replay_number, attempt_number). */
  ghost predicate UniqueAttempts(attempts: map<Uuid, AttemptRow>) {
    forall a, b :: a in attempts && b in attempts && a != b
      ==> !About(attempts[a], attempts[b].eventId, attempts[b].replayNumber, attempts[b].attemptNumber)
  }

  /** The foreign keys delivery_attempts.event_id and events.sandbox_id. */
  ghost predicate ForeignKeys(t: Tables) {
    && (forall a :: a in t.attempts ==> t.attempts[a].eventId in t.events)
    && (forall i :: i in t.events && t.events[i].sandboxId.Some?
          ==> t.events[i].sandboxId.value in t.sessions)
  }

  /** Every declared constraint of the two migrations. */
  ghost predicate Constraints(t: Tables) {
    && (forall i :: i in t.events ==> EventChecks(t.events[i]))
    && (forall a :: a in t.attempts ==> AttemptChecks(t.attempts[a]))
    && (forall s :: s in t.sessions ==> SessionChecks(t.sessions[s]))
    && BudgetChecks(t.budget)
    && UniqueKeys(t.events)
    && UniqueAttempts(t.attempts)
    && ForeignKeys(t)
  }
}
