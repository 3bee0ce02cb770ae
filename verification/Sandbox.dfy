/** Visitor admission, quotas and cleanup: what each transaction commits. */
module Sandbox {
  import opened Basics
  import opened Tables
  import opened Queue

  const SESSION_LIFETIME: int := 30 * MINUTE
  const SESSIONS_PER_WINDOW: int := 100
  const ADMISSIONS_PER_WINDOW: int := 1000
  const RETAINED_SESSIONS: nat := 1000
  const EVENTS_PER_SESSION: int := 20
  const REPLAYS_PER_EVENT: int := 2
  const CLEANUP_LIMIT: nat := 100

  datatype Refusal = QuotaExceeded | InvalidSession | MissingEvent | WrongState | KeyViolation

  datatype Verdict = Committed | RolledBack(refusal: Refusal)

  function HourOf(now: Time): Time {
    now - now % HOUR
  }

  /** Taking the budget row's lock rolls the window forward, never back. */
  function Roll(b: Budget, now: Time): Budget {
    if b.windowStart < HourOf(now) then Budget(HourOf(now), 0, 0) else b
  }

  // ---------------------------------------------------------------- create

  function CreateVerdict(t: Tables, id: SessionId, now: Time): Verdict {
    if Roll(t.budget, now).sessions < SESSIONS_PER_WINDOW && |t.sessions| < RETAINED_SESSIONS then
      if id in t.sessions then RolledBack(KeyViolation) else Committed
    else RolledBack(QuotaExceeded)
  }

  function CreateTables(t: Tables, id: SessionId, expiry: Time, now: Time): Tables {
    if CreateVerdict(t, id, now).Committed? then
      var b := Roll(t.budget, now);
      t.(sessions := t.sessions[id := Session(expiry, 0)], budget := b.(sessions := b.sessions + 1))
    else t
  }

  // ---------------------------------------------------------------- submit

  function ParseScenario(text: string): Option<Scenario> {
    match text
    case "success" => Some(Success)
    case "temporary_failure" => Some(TemporaryFailure)
    case "permanent_failure" => Some(PermanentFailure)
    case _ => None
  }

  predicate LiveSession(t: Tables, session: SessionId, now: Time) {
    session in t.sessions && t.sessions[session].expiresAt > now
  }

  function VisitorReceipt(session: SessionId, scenario: Scenario, id: Uuid, digest: Digest): Receipt {
    Receipt(id, Visitor(session), Simulated(scenario, id), digest, Simulator(scenario))
  }

  function SubmitVerdict(t: Tables, session: SessionId, text: string, id: Uuid, now: Time): Verdict {
    var scenario := ParseScenario(text);
    if scenario.None? then RolledBack(WrongState)
    else if !LiveSession(t, session, now) then RolledBack(InvalidSession)
    else if t.sessions[session].eventCount >= EVENTS_PER_SESSION then RolledBack(QuotaExceeded)
    else if Roll(t.budget, now).admissions >= ADMISSIONS_PER_WINDOW then RolledBack(QuotaExceeded)
    else if id in t.events || KeyTaken(t.events, Visitor(session), Simulated(scenario.value, id))
    then RolledBack(KeyViolation)
    else Committed
  }

  function SubmitTables(t: Tables, session: SessionId, text: string, id: Uuid, digest: Digest, now: Time): Tables {
    if SubmitVerdict(t, session, text, id, now).Committed? then
      var b := Roll(t.budget, now);
      var s := t.sessions[session];
      var receipt := VisitorReceipt(session, ParseScenario(text).value, id, digest);
      t.(events := t.events[id := NewEvent(receipt, Some(session), now)],
         sessions := t.sessions[session := s.(eventCount := s.eventCount + 1)],
         budget := b.(admissions := b.admissions + 1))
    else t
  }

  // ---------------------------------------------------------------- replay

  predicate Owned(t: Tables, session: SessionId, id: Uuid) {
    id in t.events && t.events[id].sandboxId == Some(session)
  }

  function VisitorReplayVerdict(t: Tables, session: SessionId, id: Uuid, now: Time): Verdict {
    if !(Owned(t, session, id) && LiveSession(t, session, now)) then RolledBack(MissingEvent)
    else if !t.events[id].state.DeadLettered? then RolledBack(WrongState)
    else if t.events[id].replayCount >= REPLAYS_PER_EVENT then RolledBack(QuotaExceeded)
    else if Roll(t.budget, now).admissions >= ADMISSIONS_PER_WINDOW then RolledBack(QuotaExceeded)
    else Committed
  }

  function VisitorReplayTables(t: Tables, session: SessionId, id: Uuid, now: Time): Tables {
    if VisitorReplayVerdict(t, session, id, now).Committed? then
      var b := Roll(t.budget, now);
      t.(events := t.events[id := Reopened(t.events[id], now)],
         budget := b.(admissions := b.admissions + 1))
    else t
  }

  // ---------------------------------------------------------------- cleanup

  predicate SessionExpired(t: Tables, session: SessionId, now: Time) {
    session in t.sessions && t.sessions[session].expiresAt <= now
  }

  predicate LeaseHeld(e: Event, now: Time) {
    e.lease.Some? && e.lease.value > now
  }

  function Deletable(t: Tables, now: Time, locked: set<Uuid>): set<Uuid> {
    set i | i in t.events && i !in locked && t.events[i].sandboxId.Some?
      && SessionExpired(t, t.events[i].sandboxId.value, now) && !LeaseHeld(t.events[i], now)
  }

  predicate InUse(events: map<Uuid, Event>, session: SessionId) {
    exists i :: i in events && events[i].sandboxId == Some(session)
  }

  /** Expired sessions that own no event once `doomed` is gone. */
  function Abandoned(t: Tables, doomed: set<Uuid>, now: Time): set<SessionId> {
    set s | s in t.sessions && SessionExpired(t, s, now) && !InUse(t.events - doomed, s)
  }

  /** The rows a cleanup may delete, in the columns it reads. */
  lemma DeletableIs(t: Tables, now: Time, locked: set<Uuid>)
    ensures Deletable(t, now, locked) == set i | i in t.events && i !in locked
      && t.events[i].sandboxId.Some? && t.events[i].sandboxId.value in t.sessions
      && t.sessions[t.events[i].sandboxId.value].expiresAt <= now
      && (t.events[i].lease.None? || t.events[i].lease.value <= now)
  {
  }

  lemma AbandonedIs(t: Tables, doomed: set<Uuid>, now: Time)
    ensures Abandoned(t, doomed, now) == set s | s in t.sessions && t.sessions[s].expiresAt <= now
      && forall i :: i in t.events && i !in doomed ==> t.events[i].sandboxId != Some(s)
  {
    forall s ensures InUse(t.events - doomed, s)
      <==> exists i :: i in t.events && i !in doomed && t.events[i].sandboxId == Some(s)
    {
      if i :| i in t.events && i !in doomed && t.events[i].sandboxId == Some(s) {
        assert i in t.events - doomed;
      }
    }
  }

  /** `doomed` is the answer of ORDER BY e.id LIMIT 100: the first deletable identifiers. */
  ghost predicate FirstDeletable(t: Tables, now: Time, locked: set<Uuid>, doomed: set<Uuid>) {
    var all := Deletable(t, now, locked);
    && doomed <= all
    && |doomed| <= CLEANUP_LIMIT
    && (|doomed| < CLEANUP_LIMIT ==> doomed == all)
    && (forall d, x :: d in doomed && x in all - doomed ==> d < x)
  }

  /** `dropped` is a possible answer of the unordered LIMIT 100 over abandoned sessions. */
  ghost predicate SomeAbandoned(t: Tables, doomed: set<Uuid>, now: Time, dropped: set<SessionId>) {
    var all := Abandoned(t, doomed, now);
    && dropped <= all
    && |dropped| <= CLEANUP_LIMIT
    && (|dropped| < CLEANUP_LIMIT ==> dropped == all)
  }

  function AttemptsOf(attempts: map<Uuid, AttemptRow>, events: set<Uuid>): set<Uuid> {
    set a | a in attempts && attempts[a].eventId in events
  }

  /** Attempts go first, then their events, then sessions left without events. */
  function CleanupTables(t: Tables, doomed: set<Uuid>, dropped: set<SessionId>, now: Time): Tables {
    Tables(t.events - doomed, t.attempts - AttemptsOf(t.attempts, doomed), t.sessions - dropped,
           Roll(t.budget, now))
  }
}
