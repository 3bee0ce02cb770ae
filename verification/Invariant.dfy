/** What holds in every reachable world, one predicate per concern. */
module Invariant {
  import opened Basics
  import opened Tables
  import opened Queue
  import opened Sandbox
  import opened World

  // ---------------------------------------------------------------- rows and attempts

  /** The CHECKs of a row, and how its counters follow its state. */
  ghost predicate Shape(e: Event) {
    && EventChecks(e)
    && (e.state.Delivered? <==> e.deliveredAt.Some?)
    && (e.state.Pending? ==> e.attemptCount == 0)
    && (e.state.RetryScheduled? ==> 1 <= e.attemptCount <= 7)
    && (e.state.Delivering? || e.state.Delivered? ==> 1 <= e.attemptCount)
  }

  ghost predicate Shapes(events: map<Uuid, Event>) {
    forall i :: i in events ==> Shape(events[i])
  }

  /** Recorded attempts of the current generation lie between these two; they differ only for
      dead letters, which may have been retired in mid-attempt. */
  function Least(e: Event): int {
    if e.state.Delivering? || e.state.DeadLettered? then e.attemptCount - 1 else e.attemptCount
  }

  function Most(e: Event): int {
    if e.state.Delivering? then e.attemptCount - 1 else e.attemptCount
  }

  /** Attempt numbers of event `i` are gap-free in each generation and current in the latest. */
  ghost predicate Ledger(attempts: map<Uuid, AttemptRow>, i: Uuid, e: Event) {
    && (forall g, n :: Has(attempts, i, g, n) ==> 0 <= g <= e.replayCount && 1 <= n <= 8)
    && (forall g, n, m :: Has(attempts, i, g, n) && 1 <= m <= n ==> Has(attempts, i, g, m))
    && (forall n :: 1 <= n <= Least(e) ==> Has(attempts, i, e.replayCount, n))
    && (forall n :: Has(attempts, i, e.replayCount, n) ==> n <= Most(e))
  }

  ghost predicate Ledgers(events: map<Uuid, Event>, attempts: map<Uuid, AttemptRow>) {
    forall i :: i in events ==> Ledger(attempts, i, events[i])
  }

  ghost predicate AttemptRows(events: map<Uuid, Event>, attempts: map<Uuid, AttemptRow>) {
    && (forall a :: a in attempts ==> AttemptChecks(attempts[a]) && attempts[a].eventId in events)
    && UniqueAttempts(attempts)
  }

  // ---------------------------------------------------------------- claims

  /** Every identifier in use was minted. */
  ghost predicate Minted(w: World) {
    w.db.events.Keys + w.db.attempts.Keys + w.claims.Keys + w.lives.Keys <= w.minted
  }

  ghost predicate ClaimsKnown(claims: map<Uuid, Issued>, lives: map<Uuid, Life>, clock: Time) {
    forall c :: c in claims ==>
      && claims[c].claimed.claimId == c
      && claims[c].claimed.id in lives
      && claims[c].claimed.createdAt == lives[claims[c].claimed.id].createdAt
      && claims[c].at <= clock
      && claims[c].at < claims[c].claimed.createdAt + DAY
      && 1 <= claims[c].claimed.attemptNumber <= 8
      && claims[c].claimed.replayNumber <= 16
  }

  /** A claim is never ahead of its row, and a recorded claim left its attempt behind. */
  ghost predicate Behind(k: Issued, e: Event, attempts: map<Uuid, AttemptRow>) {
    && (k.claimed.replayNumber < e.replayCount
        || (k.claimed.replayNumber == e.replayCount && k.claimed.attemptNumber <= e.attemptCount))
    && (k.recorded ==> Has(attempts, k.claimed.id, k.claimed.replayNumber, k.claimed.attemptNumber))
  }

  ghost predicate ClaimsBehind(events: map<Uuid, Event>, attempts: map<Uuid, AttemptRow>, claims: map<Uuid, Issued>) {
    forall c :: c in claims && claims[c].claimed.id in events
      ==> Behind(claims[c], events[claims[c].claimed.id], attempts)
  }

  /** The claim a delivering row names is open and carries exactly that row's numbers. */
  ghost predicate HeldBy(i: Uuid, e: Event, c: Uuid, k: Issued) {
    && !k.recorded
    && k.claimed == ClaimedOf(i, e, c)
    && e.lease == Some(k.at + LEASE)
    && e.nextAttemptAt <= k.at
  }

  ghost predicate Holders(events: map<Uuid, Event>, claims: map<Uuid, Issued>) {
    forall i :: i in events && events[i].claimId.Some? ==>
      && events[i].claimId.value in claims
      && HeldBy(i, events[i], events[i].claimId.value, claims[events[i].claimId.value])
  }

  /** Two claims on the same attempt of the same generation of the same event. */
  predicate SameAttempt(k: Issued, l: Issued) {
    && k.claimed.id == l.claimed.id
    && k.claimed.replayNumber == l.claimed.replayNumber
    && k.claimed.attemptNumber == l.claimed.attemptNumber
  }

  /** All other claims on the attempt of `c` were issued at least a lease earlier. */
  ghost predicate Latest(claims: map<Uuid, Issued>, c: Uuid)
    requires c in claims
  {
    forall d :: d in claims && d != c && SameAttempt(claims[d], claims[c])
      ==> claims[d].at + LEASE <= claims[c].at
  }

  /** Claims on one attempt are never less than a lease apart. */
  ghost predicate ClaimsSpaced(claims: map<Uuid, Issued>) {
    forall c, d :: c in claims && d in claims && c != d && SameAttempt(claims[c], claims[d])
      ==> claims[c].at + LEASE <= claims[d].at || claims[d].at + LEASE <= claims[c].at
  }

  ghost predicate RecordedLatest(claims: map<Uuid, Issued>) {
    forall c :: c in claims && claims[c].recorded ==> Latest(claims, c)
  }

  ghost predicate HolderLatest(events: map<Uuid, Event>, claims: map<Uuid, Issued>) {
    forall i :: i in events && events[i].claimId.Some? && events[i].claimId.value in claims
      ==> Latest(claims, events[i].claimId.value)
  }

  /** An open claim keeps its row until its lease runs out. */
  ghost predicate LeasesProtect(events: map<Uuid, Event>, claims: map<Uuid, Issued>, clock: Time) {
    forall c :: c in claims && !claims[c].recorded && claims[c].at + LEASE > clock
      ==> Holds(events, claims[c].claimed)
  }

  ghost predicate OpenUnused(claims: map<Uuid, Issued>, attempts: map<Uuid, AttemptRow>) {
    forall c :: c in claims && !claims[c].recorded ==> c !in attempts
  }

  // ---------------------------------------------------------------- lives

  ghost predicate LifeBounds(l: Life, clock: Time) {
    && 0 <= l.firsts <= 17 * 8
    && 0 <= l.recovered
    && l.recovered * LEASE <= l.last - l.createdAt
    && l.createdAt <= l.last < l.createdAt + DAY
    && l.last <= clock
  }

  ghost predicate LivesBounded(lives: map<Uuid, Life>, clock: Time) {
    forall i :: i in lives ==> LifeBounds(lives[i], clock)
  }

  ghost predicate Tracks(e: Event, l: Life) {
    && e.createdAt == l.createdAt
    && e.createdAt <= e.nextAttemptAt
    && l.firsts <= 8 * e.replayCount + e.attemptCount
    && (e.state.Delivering? ==> e.lease == Some(l.last + LEASE))
    && (Waiting(e) ==> l.last <= e.nextAttemptAt)
  }

  ghost predicate LivesTrack(events: map<Uuid, Event>, lives: map<Uuid, Life>) {
    forall i :: i in events ==> i in lives && Tracks(events[i], lives[i])
  }

  ghost function ClaimsOn(claims: map<Uuid, Issued>, i: Uuid): set<Uuid> {
    set c | c in claims && claims[c].claimed.id == i
  }

  ghost predicate LivesCount(claims: map<Uuid, Issued>, lives: map<Uuid, Life>) {
    forall i :: i in lives ==> |ClaimsOn(claims, i)| == lives[i].firsts + lives[i].recovered
  }

  // ---------------------------------------------------------------- visitors

  /** How far each simulated scenario can get. Only a permanent failure is ever replayed. */
  ghost predicate ScenarioShape(e: Event, scenario: Scenario, clock: Time) {
    match scenario
    case PermanentFailure => e.attemptCount <= 1 && e.replayCount <= 2 && !e.state.RetryScheduled?
    case Success =>
      && e.attemptCount <= 1 && e.replayCount == 0 && !e.state.RetryScheduled?
      && (e.state.DeadLettered? ==> e.createdAt + DAY <= clock)
    case TemporaryFailure =>
      && e.attemptCount <= 3 && e.replayCount == 0
      && (e.state.RetryScheduled? ==> e.attemptCount <= 2)
      && (e.state.DeadLettered? ==> e.createdAt + DAY <= clock)
  }

  ghost predicate VisitorRow(sessions: map<SessionId, Session>, i: Uuid, e: Event, clock: Time) {
    match e.sandboxId
    case None => e.source.Operator?
    case Some(s) =>
      && s in sessions
      && e.source == Visitor(s)
      && e.destination.Simulator?
      && e.externalId == Simulated(e.destination.scenario, i)
      && sessions[s].expiresAt <= e.createdAt + SESSION_LIFETIME
      && ScenarioShape(e, e.destination.scenario, clock)
  }

  ghost predicate VisitorRows(events: map<Uuid, Event>, sessions: map<SessionId, Session>, clock: Time) {
    forall i :: i in events ==> VisitorRow(sessions, i, events[i], clock)
  }

  /** The highest attempt number each scenario can use in one generation. */
  function AttemptCap(scenario: Scenario): int {
    if scenario.TemporaryFailure? then 3 else 1
  }

  /** The status a visitor was promised for attempt `n`: success at once, two failures first, or never. */
  function PromisedStatus(scenario: Scenario, n: int): int {
    match scenario
    case Success => 204
    case TemporaryFailure => if n == 1 || n == 2 then 503 else 204
    case PermanentFailure => 422
  }

  ghost predicate AsPromised(e: Event, r: AttemptRow) {
    (e.sandboxId.Some? && e.destination.Simulator?) ==>
      && r.attemptNumber <= AttemptCap(e.destination.scenario)
      && r.statusCode == Some(PromisedStatus(e.destination.scenario, r.attemptNumber))
  }

  ghost predicate VisitorAttempts(events: map<Uuid, Event>, attempts: map<Uuid, AttemptRow>) {
    forall a :: a in attempts && attempts[a].eventId in events ==> AsPromised(events[attempts[a].eventId], attempts[a])
  }

  /** No visitor event is claimed half an hour after its creation: its session is over by then. */
  ghost predicate VisitorClaims(claims: map<Uuid, Issued>) {
    forall c :: c in claims && claims[c].claimed.sandbox
      ==> claims[c].at < claims[c].claimed.createdAt + SESSION_LIFETIME
  }

  ghost function EventsOf(events: map<Uuid, Event>, s: SessionId): set<Uuid> {
    set i | i in events && events[i].sandboxId == Some(s)
  }

  /** Event counts bound what a session owns, and are exact for as long as it lives. */
  ghost predicate SessionCounts(events: map<Uuid, Event>, sessions: map<SessionId, Session>, clock: Time) {
    && |sessions| <= RETAINED_SESSIONS
    && forall s :: s in sessions ==>
         && 0 <= sessions[s].eventCount <= EVENTS_PER_SESSION
         && |EventsOf(events, s)| <= sessions[s].eventCount
         && (sessions[s].expiresAt > clock ==> |EventsOf(events, s)| == sessions[s].eventCount)
  }

  ghost predicate SessionsAdmitted(sessions: map<SessionId, Session>, admitted: map<SessionId, Admission>) {
    forall s :: s in sessions ==>
      s in admitted && sessions[s].expiresAt <= admitted[s].at + SESSION_LIFETIME
  }

  // ---------------------------------------------------------------- quota windows

  ghost function SessionsIn(admitted: map<SessionId, Admission>, window: Time): set<SessionId> {
    set s | s in admitted && admitted[s].window == window
  }

  ghost function ChargesIn(charges: seq<Admission>, window: Time): set<nat> {
    set k: nat | k < |charges| && charges[k].window == window
  }

  /** The counters hold what was charged to the current window; no window ever exceeded its quota. */
  ghost predicate Windows(b: Budget, admitted: map<SessionId, Admission>, charges: seq<Admission>) {
    && (forall s :: s in admitted ==> admitted[s].window <= b.windowStart)
    && (forall k :: 0 <= k < |charges| ==> charges[k].window <= b.windowStart)
    && |SessionsIn(admitted, b.windowStart)| == b.sessions
    && |ChargesIn(charges, b.windowStart)| == b.admissions
    && (forall h :: |SessionsIn(admitted, h)| <= SESSIONS_PER_WINDOW)
    && (forall h :: |ChargesIn(charges, h)| <= ADMISSIONS_PER_WINDOW)
  }

  /** With one nondecreasing clock each admission is charged to the hour it happened in. */
  ghost predicate Hourly(a: Admission, clock: Time) {
    a.window == HourOf(a.at) && a.at <= clock
  }

  ghost predicate HourlyCharges(b: Budget, admitted: map<SessionId, Admission>, charges: seq<Admission>, clock: Time) {
    && b.windowStart <= HourOf(clock)
    && (forall s :: s in admitted ==> Hourly(admitted[s], clock))
    && (forall k :: 0 <= k < |charges| ==> Hourly(charges[k], clock))
  }

  // ---------------------------------------------------------------- receipts

  /** The insert-if-absent map and the operator rows describe each other. */
  ghost predicate ReceiptsMatch(events: map<Uuid, Event>, receipts: map<(string, ExternalId), (Uuid, Digest)>) {
    && (forall k :: k in receipts ==>
          && receipts[k].0 in events
          && SameKey(events[receipts[k].0], Operator(k.0), k.1)
          && events[receipts[k].0].digest == receipts[k].1)
    && (forall i :: i in events && events[i].source.Operator?
          ==> (events[i].source.key, events[i].externalId) in receipts
              && receipts[(events[i].source.key, events[i].externalId)].0 == i)
  }

  // ---------------------------------------------------------------- all together

  ghost predicate LedgerInv(w: World) {
    && Minted(w)
    && Shapes(w.db.events)
    && Ledgers(w.db.events, w.db.attempts)
    && AttemptRows(w.db.events, w.db.attempts)
  }

  ghost predicate ClaimInv(w: World) {
    && ClaimsKnown(w.claims, w.lives, w.clock)
    && ClaimsBehind(w.db.events, w.db.attempts, w.claims)
    && Holders(w.db.events, w.claims)
    && ClaimsSpaced(w.claims)
    && RecordedLatest(w.claims)
    && HolderLatest(w.db.events, w.claims)
    && LeasesProtect(w.db.events, w.claims, w.clock)
    && OpenUnused(w.claims, w.db.attempts)
  }

  ghost predicate LifeInv(w: World) {
    && LivesBounded(w.lives, w.clock)
    && LivesTrack(w.db.events, w.lives)
    && LivesCount(w.claims, w.lives)
  }

  ghost predicate DeliveryInv(w: World) {
    LedgerInv(w) && ClaimInv(w) && LifeInv(w)
  }

  ghost predicate VisitorInv(w: World) {
    && VisitorRows(w.db.events, w.db.sessions, w.clock)
    && VisitorAttempts(w.db.events, w.db.attempts)
    && VisitorClaims(w.claims)
    && SessionCounts(w.db.events, w.db.sessions, w.clock)
    && SessionsAdmitted(w.db.sessions, w.admitted)
  }

  ghost predicate QuotaInv(w: World) {
    && Windows(w.db.budget, w.admitted, w.charges)
    && HourlyCharges(w.db.budget, w.admitted, w.charges, w.clock)
  }

  ghost predicate ReceiptInv(w: World) {
    && UniqueKeys(w.db.events)
    && ReceiptsMatch(w.db.events, w.receipts)
  }

  ghost predicate AdmissionInv(w: World) {
    VisitorInv(w) && QuotaInv(w) && ReceiptInv(w)
  }

  ghost predicate Inv(w: World) {
    DeliveryInv(w) && AdmissionInv(w)
  }

  // ---------------------------------------------------------------- attempts inserted and removed

  lemma HasInserted(attempts: map<Uuid, AttemptRow>, a: Uuid, row: AttemptRow)
    requires a !in attempts
    ensures forall i, g, n :: Has(attempts[a := row], i, g, n) <==> Has(attempts, i, g, n) || About(row, i, g, n)
  {
    var after := attempts[a := row];
    forall i, g, n ensures Has(after, i, g, n) <==> Has(attempts, i, g, n) || About(row, i, g, n) {
      if Has(attempts, i, g, n) {
        var b :| b in attempts && About(attempts[b], i, g, n);
        assert b in after && About(after[b], i, g, n);
      }
      if About(row, i, g, n) {
        assert About(after[a], i, g, n);
      }
    }
  }

  lemma HasRemoved(attempts: map<Uuid, AttemptRow>, doomed: set<Uuid>)
    ensures forall i, g, n :: i !in doomed ==>
      (Has(attempts - AttemptsOf(attempts, doomed), i, g, n) <==> Has(attempts, i, g, n))
  {
    var after := attempts - AttemptsOf(attempts, doomed);
    forall i, g, n | i !in doomed ensures Has(after, i, g, n) <==> Has(attempts, i, g, n) {
      if Has(attempts, i, g, n) {
        var b :| b in attempts && About(attempts[b], i, g, n);
        assert b in after && About(after[b], i, g, n);
      }
    }
  }
}
