/** What each statement of the delivery queue does to the tables, as one atomic step. */
module Queue {
  import opened Basics
  import opened Tables
  import opened Policy

  // Rows one claim may retire, and the worker's lease.
  const RETIRE_LIMIT: nat := 10
  const LEASE: int := 30 * SECOND
  const MAXIMUM_REPLAYS: int := 16

  // ---------------------------------------------------------------- claim

  predicate Waiting(e: Event) {
    e.state.Pending? || e.state.RetryScheduled?
  }

  predicate Terminal(e: Event) {
    e.state.Delivered? || e.state.DeadLettered?
  }

  /** A delivering row whose lease has run out; a NULL lease never compares as run out. */
  predicate Lapsed(e: Event, now: Time) {
    e.state.Delivering? && e.lease.Some? && e.lease.value <= now
  }

  predicate Aged(e: Event, now: Time) {
    e.createdAt <= now - DAY
  }

  predicate Retirable(e: Event, now: Time) {
    Aged(e, now) && (Waiting(e) || Lapsed(e, now))
  }

  predicate SessionLive(sessions: map<SessionId, Session>, e: Event, now: Time) {
    e.sandboxId.None? || (e.sandboxId.value in sessions && sessions[e.sandboxId.value].expiresAt > now)
  }

  /** A row the candidate query can return, apart from its session. */
  predicate Open(e: Event, now: Time) {
    ((Waiting(e) && e.nextAttemptAt <= now) || Lapsed(e, now)) && !Aged(e, now)
  }

  predicate Claimable(sessions: map<SessionId, Session>, e: Event, now: Time) {
    Open(e, now) && SessionLive(sessions, e, now)
  }

  /** ORDER BY next_attempt_at, created_at. */
  predicate NoLater(e: Event, f: Event) {
    e.nextAttemptAt < f.nextAttemptAt || (e.nextAttemptAt == f.nextAttemptAt && e.createdAt <= f.createdAt)
  }

  /** Rows SELECTed by the `expired` subquery before ORDER BY and LIMIT; `locked` rows are skipped. */
  function Expired(events: map<Uuid, Event>, now: Time, locked: set<Uuid>): set<Uuid> {
    set i | i in events && i !in locked && Retirable(events[i], now)
  }

  function Due(t: Tables, now: Time, locked: set<Uuid>): set<Uuid> {
    set i | i in t.events && i !in locked && Claimable(t.sessions, t.events[i], now)
  }

  /** The `expired` subquery, in the columns it reads. */
  lemma ExpiredIs(events: map<Uuid, Event>, now: Time, locked: set<Uuid>)
    ensures Expired(events, now, locked) == set i | i in events && i !in locked
      && events[i].createdAt + 24 * HOUR <= now
      && (events[i].state.Pending? || events[i].state.RetryScheduled?
          || (events[i].state.Delivering? && events[i].lease.Some? && events[i].lease.value <= now))
  {
  }

  /** At clock reading `now` a claim can see no reason to pass over row `e`: it is pending or waiting for a
      retry and due, or in delivery with its lease run out; it is younger than a day; and it belongs to
      an operator or to a live session. */
  predicate Ready(sessions: map<SessionId, Session>, e: Event, now: Time) {
    && (((e.state.Pending? || e.state.RetryScheduled?) && e.nextAttemptAt <= now)
        || (e.state.Delivering? && e.lease.Some? && e.lease.value <= now))
    && now < e.createdAt + 24 * HOUR
    && (e.sandboxId.None? || (e.sandboxId.value in sessions && sessions[e.sandboxId.value].expiresAt > now))
  }

  lemma ClaimableIff(sessions: map<SessionId, Session>, e: Event, now: Time)
    ensures Claimable(sessions, e, now) <==> Ready(sessions, e, now)
  {
  }

  /** The `candidate` subquery, in the columns it reads. */
  lemma DueIs(t: Tables, now: Time, locked: set<Uuid>)
    ensures Due(t, now, locked) == set i | i in t.events && i !in locked
      && now < t.events[i].createdAt + 24 * HOUR
      && (((t.events[i].state.Pending? || t.events[i].state.RetryScheduled?) && t.events[i].nextAttemptAt <= now)
          || (t.events[i].state.Delivering? && t.events[i].lease.Some? && t.events[i].lease.value <= now))
      && (t.events[i].sandboxId.None?
          || (t.events[i].sandboxId.value in t.sessions && t.sessions[t.events[i].sandboxId.value].expiresAt > now))
  {
  }

  /** `retired` is a possible answer of ORDER BY created_at LIMIT 10: the oldest, ties in any order. */
  ghost predicate OldestFew(events: map<Uuid, Event>, now: Time, locked: set<Uuid>, retired: set<Uuid>) {
    var all := Expired(events, now, locked);
    && retired <= all
    && |retired| <= RETIRE_LIMIT
    && (|retired| < RETIRE_LIMIT ==> retired == all)
    && (forall r, x :: r in retired && x in all - retired ==> events[r].createdAt <= events[x].createdAt)
  }

  /** `picked` is a possible answer of the `candidate` subquery: a least due row, if there is one. */
  ghost predicate FirstDue(t: Tables, now: Time, locked: set<Uuid>, picked: Option<Uuid>) {
    var due := Due(t, now, locked);
    match picked
    case None => due == {}
    case Some(i) => i in due && forall j :: j in due ==> NoLater(t.events[i], t.events[j])
  }

  /** The row picked is ready and none that is ready comes before it; none is picked only if none is ready. */
  lemma FirstIsReady(t: Tables, now: Time, locked: set<Uuid>, picked: Option<Uuid>)
    requires FirstDue(t, now, locked, picked)
    ensures match picked
      case None => forall i :: i in t.events && i !in locked ==> !Ready(t.sessions, t.events[i], now)
      case Some(p) =>
        && p in t.events && p !in locked && Ready(t.sessions, t.events[p], now)
        && forall j :: j in t.events && j !in locked && Ready(t.sessions, t.events[j], now) ==>
             t.events[p].nextAttemptAt < t.events[j].nextAttemptAt
             || (t.events[p].nextAttemptAt == t.events[j].nextAttemptAt
                 && t.events[p].createdAt <= t.events[j].createdAt)
  {
    forall i | i in t.events && i !in locked
      ensures i in Due(t, now, locked) <==> Ready(t.sessions, t.events[i], now)
    {
      ClaimableIff(t.sessions, t.events[i], now);
    }
  }

  function Retired(e: Event): Event {
    e.(state := DeadLettered, lease := None, claimId := None)
  }

  function Leased(e: Event, until: Time, claimId: Uuid): Event {
    e.(state := Delivering,
       attemptCount := if e.state.Delivering? then e.attemptCount else e.attemptCount + 1,
       lease := Some(until), claimId := Some(claimId))
  }

  function RetireAll(events: map<Uuid, Event>, retired: set<Uuid>): (after: map<Uuid, Event>)
    ensures after.Keys == events.Keys
  {
    map i | i in events :: if i in retired then Retired(events[i]) else events[i]
  }

  function LeasePicked(events: map<Uuid, Event>, picked: Option<Uuid>, until: Time, claimId: Uuid)
    : (after: map<Uuid, Event>)
    ensures picked.Some? && picked.value in events ==> after.Keys == events.Keys
  {
    if picked.Some? && picked.value in events
    then events[picked.value := Leased(events[picked.value], until, claimId)] else events
  }

  function ClaimTables(t: Tables, retired: set<Uuid>, picked: Option<Uuid>, until: Time, claimId: Uuid): Tables {
    t.(events := LeasePicked(RetireAll(t.events, retired), picked, until, claimId))
  }

  /** RETURNING: what the claiming worker learns about the row it leased. */
  function ClaimedOf(i: Uuid, leased: Event, claimId: Uuid): ClaimedEvent {
    ClaimedEvent(leased.sandboxId.Some?, i, claimId, leased.destination,
                 leased.replayCount, leased.attemptCount, leased.createdAt)
  }

  /** `after` and `claimed` are the outcome of a claim that retires `retired` and leases `picked`. */
  ghost predicate ClaimChose(before: Tables, now: Time, leaseLength: int, claimId: Uuid, locked: set<Uuid>,
                             after: Tables, claimed: Option<ClaimedEvent>, retired: set<Uuid>, picked: Option<Uuid>)
  {
    && OldestFew(before.events, now, locked, retired)
    && FirstDue(before, now, locked, picked)
    && after == ClaimTables(before, retired, picked, now + leaseLength, claimId)
    && claimed == match picked
                  case None => None
                  case Some(i) => if i in after.events then Some(ClaimedOf(i, after.events[i], claimId)) else None
  }

  /** `after` and `claimed` are a possible outcome of one claim statement. */
  ghost predicate ClaimMay(before: Tables, now: Time, leaseLength: int, claimId: Uuid, locked: set<Uuid>,
                           after: Tables, claimed: Option<ClaimedEvent>)
  {
    exists retired, picked :: ClaimChose(before, now, leaseLength, claimId, locked, after, claimed, retired, picked)
  }

  /** What a claim does to the rows, in their columns: the claimant's row is in delivery under its name and
      a fresh lease, counted once more unless it was recovered, and the claimant is told its numbers; of
      the others only overage, unfinished, unlocked rows may change, and they become dead letters. */
  lemma ClaimMeans(before: Tables, now: Time, leaseLength: int, claimId: Uuid, locked: set<Uuid>,
                   after: Tables, claimed: Option<ClaimedEvent>)
    requires ClaimMay(before, now, leaseLength, claimId, locked, after, claimed)
    ensures after == before.(events := after.events) && after.events.Keys == before.events.Keys
    ensures claimed.Some? ==>
      var c := claimed.value;
      && c.id in before.events
      && (var e := before.events[c.id];
          && after.events[c.id] == e.(state := Delivering, lease := Some(now + leaseLength), claimId := Some(claimId),
               attemptCount := if e.state.Delivering? then e.attemptCount else e.attemptCount + 1)
          && c == ClaimedEvent(e.sandboxId.Some?, c.id, claimId, e.destination, e.replayCount,
               after.events[c.id].attemptCount, e.createdAt))
    ensures forall i :: i in before.events && !(claimed.Some? && claimed.value.id == i) ==>
      var e, f := before.events[i], after.events[i];
      || f == e
      || (i !in locked && e.createdAt + 24 * HOUR <= now
          && (e.state.Pending? || e.state.RetryScheduled?
              || (e.state.Delivering? && e.lease.Some? && e.lease.value <= now))
          && f == e.(state := DeadLettered, lease := None, claimId := None))
  {
    var retired, picked :|
      ClaimChose(before, now, leaseLength, claimId, locked, after, claimed, retired, picked);
    ChoiceMeans(before, now, leaseLength, claimId, locked, after, claimed, retired, picked);
    forall i | i in before.events && Some(i) != picked ensures RetiredOrSame(before.events[i], after.events[i], now)
      && (after.events[i] != before.events[i] ==> i !in locked)
    {
      RestMeans(before, now, leaseLength, claimId, locked, after, claimed, retired, picked, i);
    }
  }

  predicate RetiredOrSame(e: Event, f: Event, now: Time) {
    || f == e
    || (e.createdAt + 24 * HOUR <= now
        && (e.state.Pending? || e.state.RetryScheduled?
            || (e.state.Delivering? && e.lease.Some? && e.lease.value <= now))
        && f == e.(state := DeadLettered, lease := None, claimId := None))
  }

  lemma ChoiceMeans(before: Tables, now: Time, leaseLength: int, claimId: Uuid, locked: set<Uuid>,
                    after: Tables, claimed: Option<ClaimedEvent>, retired: set<Uuid>, picked: Option<Uuid>)
    requires ClaimChose(before, now, leaseLength, claimId, locked, after, claimed, retired, picked)
    ensures after == before.(events := after.events) && after.events.Keys == before.events.Keys
    ensures match picked
      case None => claimed == None
      case Some(i) =>
        && i in before.events
        && (var e := before.events[i];
            && after.events[i] == e.(state := Delivering, lease := Some(now + leaseLength), claimId := Some(claimId),
                 attemptCount := if e.state.Delivering? then e.attemptCount else e.attemptCount + 1)
            && claimed == Some(ClaimedEvent(e.sandboxId.Some?, i, claimId, e.destination, e.replayCount,
                 after.events[i].attemptCount, e.createdAt)))
  {
    RetiredAndPickedDisjoint(before, now, locked, retired, picked);
  }

  lemma RestMeans(before: Tables, now: Time, leaseLength: int, claimId: Uuid, locked: set<Uuid>,
                  after: Tables, claimed: Option<ClaimedEvent>, retired: set<Uuid>, picked: Option<Uuid>, i: Uuid)
    requires ClaimChose(before, now, leaseLength, claimId, locked, after, claimed, retired, picked)
    requires i in before.events && Some(i) != picked
    ensures i in after.events && RetiredOrSame(before.events[i], after.events[i], now)
    ensures after.events[i] != before.events[i] ==> i !in locked
  {
  }

  /** What one claim retires and what it leases are different rows, and both are still to be finished. */
  lemma RetiredAndPickedDisjoint(t: Tables, now: Time, locked: set<Uuid>, retired: set<Uuid>, picked: Option<Uuid>)
    requires OldestFew(t.events, now, locked, retired) && FirstDue(t, now, locked, picked)
    ensures picked.Some? ==> picked.value !in retired && picked.value in t.events
    ensures picked.Some? ==> t.events[picked.value].createdAt > now - DAY
    ensures forall r :: r in retired ==> r in t.events && !Terminal(t.events[r])
  {
  }

  /** Row by row: what a claim leases was open and is not what it retires; nothing else changes. */
  ghost predicate ClaimedRows(before: map<Uuid, Event>, after: map<Uuid, Event>, now: Time,
                              retired: set<Uuid>, picked: Option<Uuid>, until: Time, claimId: Uuid)
  {
    && after.Keys == before.Keys
    && (forall i :: i in before && i in retired ==> after[i] == Retired(before[i]) && Retirable(before[i], now))
    && (forall i :: i in before && i !in retired && Some(i) != picked ==> after[i] == before[i])
    && (picked.Some? ==>
          && picked.value in before && picked.value !in retired && Open(before[picked.value], now)
          && after[picked.value] == Leased(before[picked.value], until, claimId))
  }

  lemma ClaimEffect(t: Tables, now: Time, locked: set<Uuid>, retired: set<Uuid>, picked: Option<Uuid>,
                    until: Time, claimId: Uuid)
    requires OldestFew(t.events, now, locked, retired) && FirstDue(t, now, locked, picked)
    ensures ClaimedRows(t.events, ClaimTables(t, retired, picked, until, claimId).events,
                        now, retired, picked, until, claimId)
    ensures picked.Some? ==> SessionLive(t.sessions, t.events[picked.value], now)
  {
  }

  // ---------------------------------------------------------------- record

  datatype RecordResult = Recorded | ClaimReplaced | ConstraintRefused

  /** The fenced compare-and-set condition of the UPDATE. */
  predicate Holds(events: map<Uuid, Event>, claimed: ClaimedEvent) {
    && claimed.id in events
    && events[claimed.id].state.Delivering?
    && events[claimed.id].claimId == Some(claimed.claimId)
  }

  function Completed(e: Event, claimed: ClaimedEvent, attempt: Attempt): Event {
    var state := RecordState(claimed, attempt);
    e.(state := state, nextAttemptAt := attempt.nextAttemptAt, lease := None, claimId := None,
       deliveredAt := if state.Delivered? then Some(attempt.finishedAt) else e.deliveredAt)
  }

  function RowOf(claimed: ClaimedEvent, attempt: Attempt): AttemptRow {
    AttemptRow(claimed.id, claimed.replayNumber, claimed.attemptNumber, attempt.startedAt,
               attempt.finishedAt, attempt.outcome, attempt.statusCode, attempt.errorCode)
  }

  /** The INSERT into delivery_attempts violates neither CHECKs nor keys. */
  predicate Insertable(attempts: map<Uuid, AttemptRow>, id: Uuid, row: AttemptRow) {
    && AttemptChecks(row)
    && id !in attempts
    && !Has(attempts, row.eventId, row.replayNumber, row.attemptNumber)
  }

  function RecordOutcome(t: Tables, claimed: ClaimedEvent, attempt: Attempt): RecordResult {
    if !Holds(t.events, claimed) then ClaimReplaced
    else if !Insertable(t.attempts, attempt.id, RowOf(claimed, attempt)) then ConstraintRefused
    else Recorded
  }

  /** One transaction: both the event and the new attempt change, or nothing does. */
  function RecordTables(t: Tables, claimed: ClaimedEvent, attempt: Attempt): Tables {
    if RecordOutcome(t, claimed, attempt).Recorded? then
      t.(events := t.events[claimed.id := Completed(t.events[claimed.id], claimed, attempt)],
         attempts := t.attempts[attempt.id := RowOf(claimed, attempt)])
    else t
  }

  // ---------------------------------------------------------------- receipt and replay

  datatype Receipt = Receipt(id: Uuid, source: Source, externalId: ExternalId, digest: Digest, destination: Destination)

  /** What the INSERT finds; ON CONFLICT covers the idempotency key only. */
  datatype Insertion = RowInserted | KeyPresent | PrimaryKeyTaken

  datatype AcceptResult = Accepted(id: Uuid, duplicate: bool) | Conflict | IdentifierTaken | RowMissing

  /** A freshly inserted row with its column defaults. */
  function NewEvent(receipt: Receipt, sandboxId: Option<SessionId>, now: Time): Event {
    Event(receipt.source, receipt.externalId, receipt.digest, receipt.destination, Pending, 0, 0,
          now, None, None, now, None, sandboxId)
  }

  predicate SameKey(e: Event, source: Source, externalId: ExternalId) {
    e.source == source && e.externalId == externalId
  }

  predicate KeyTaken(events: map<Uuid, Event>, source: Source, externalId: ExternalId) {
    exists i :: i in events && SameKey(events[i], source, externalId)
  }

  function InsertOutcome(t: Tables, receipt: Receipt): Insertion {
    if KeyTaken(t.events, receipt.source, receipt.externalId) then KeyPresent
    else if receipt.id in t.events then PrimaryKeyTaken
    else RowInserted
  }

  /** What reading the stored row of a key tells the sender of a receipt under that key. */
  ghost predicate ExistingAnswer(t: Tables, receipt: Receipt, result: AcceptResult) {
    if KeyTaken(t.events, receipt.source, receipt.externalId) then
      exists i :: i in t.events && SameKey(t.events[i], receipt.source, receipt.externalId)
        && result == if t.events[i].digest == receipt.digest then Accepted(i, true) else Conflict
    else result == RowMissing
  }

  /** The answer to a receipt inserted into `t`, where a read, if one is needed, sees `later`. */
  ghost predicate AcceptAnswer(t: Tables, later: Tables, receipt: Receipt, result: AcceptResult) {
    match InsertOutcome(t, receipt)
    case RowInserted => result == Accepted(receipt.id, false)
    case PrimaryKeyTaken => result == IdentifierTaken
    case KeyPresent => ExistingAnswer(later, receipt, result)
  }

  predicate Inserts(t: Tables, receipt: Receipt) {
    InsertOutcome(t, receipt).RowInserted?
  }

  function AcceptTables(t: Tables, receipt: Receipt, now: Time): Tables {
    if !Inserts(t, receipt) then t
    else t.(events := t.events[receipt.id := NewEvent(receipt, None, now)])
  }

  datatype ReplayResult = Replayed | NotFound | InvalidState

  predicate Replayable(events: map<Uuid, Event>, id: Uuid, source: Source) {
    && id in events && events[id].source == source
    && events[id].state.DeadLettered? && events[id].replayCount < MAXIMUM_REPLAYS
  }

  /** A dead letter starts a new generation with a full attempt budget; its age is kept. */
  function Reopened(e: Event, now: Time): Event {
    e.(state := Pending, attemptCount := 0, replayCount := e.replayCount + 1, nextAttemptAt := now,
       lease := None, claimId := None)
  }

  /** Why a replay matched no row, as a read of `t` tells it. */
  function RefusedReplay(t: Tables, id: Uuid, source: Source): ReplayResult {
    if id in t.events && t.events[id].source == source then InvalidState else NotFound
  }

  function ReplayTables(t: Tables, id: Uuid, source: Source, now: Time): Tables {
    if Replayable(t.events, id, source)
    then t.(events := t.events[id := Reopened(t.events[id], now).(deliveredAt := None)]) else t
  }
}
