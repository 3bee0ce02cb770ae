/** Ticks, receipts, replays, visitor transactions and cleanup keep the invariant. */
module OtherKeeps {
  import opened Basics
  import opened Tables
  import opened Queue
  import opened Sandbox
  import opened World
  import opened Invariant
  import opened Quota

  // ---------------------------------------------------------------- time

  lemma TickKeeps(w: World, to: Time)
    requires Inv(w) && w.clock <= to
    ensures Inv(w.(clock := to))
  {
    TickDelivery(w, to);
    TickAdmission(w, to);
  }

  lemma TickDelivery(w: World, to: Time)
    requires DeliveryInv(w) && w.clock <= to
    ensures DeliveryInv(w.(clock := to))
  {
  }

  lemma TickAdmission(w: World, to: Time)
    requires AdmissionInv(w) && w.clock <= to
    ensures AdmissionInv(w.(clock := to))
  {
    HourOfMonotone(w.clock, to);
    TickVisitors(w.db.events, w.db.sessions, w.clock, to);
  }

  lemma TickVisitors(events: map<Uuid, Event>, sessions: map<SessionId, Session>, clock: Time, to: Time)
    requires VisitorRows(events, sessions, clock) && clock <= to
    ensures VisitorRows(events, sessions, to)
  {
  }

  // ---------------------------------------------------------------- inserting an event

  /** A pending row with a fresh identifier was added at the current instant. */
  ghost predicate Inserted(w: World, i: Uuid, e: Event, w': World) {
    && i !in w.minted
    && e.state.Pending? && e.attemptCount == 0 && e.replayCount == 0
    && e.lease.None? && e.claimId.None? && e.deliveredAt.None?
    && e.createdAt == w.clock && e.nextAttemptAt == w.clock
    && w'.db.events == w.db.events[i := e]
    && w'.db.attempts == w.db.attempts
    && w'.clock == w.clock && w'.claims == w.claims && w'.minted == w.minted + {i}
    && w'.lives == w.lives[i := Life(w.clock, 0, 0, w.clock)]
  }

  lemma InsertLedger(w: World, i: Uuid, e: Event, w': World)
    requires LedgerInv(w) && Inserted(w, i, e, w')
    ensures LedgerInv(w')
  {
    assert i !in w.db.events;
    NoAttempts(w.db.events, w.db.attempts, i);
    InsertLedgers(w.db.events, w.db.attempts, i, e);
    InsertRows(w.db.events, w.db.attempts, i, e);
  }

  lemma InsertRows(events: map<Uuid, Event>, attempts: map<Uuid, AttemptRow>, i: Uuid, e: Event)
    requires Shapes(events) && AttemptRows(events, attempts) && Shape(e)
    ensures Shapes(events[i := e]) && AttemptRows(events[i := e], attempts)
  {
  }

  lemma NoAttempts(events: map<Uuid, Event>, attempts: map<Uuid, AttemptRow>, i: Uuid)
    requires AttemptRows(events, attempts) && i !in events
    ensures forall g, n :: !Has(attempts, i, g, n)
  {
  }

  lemma InsertLedgers(events: map<Uuid, Event>, attempts: map<Uuid, AttemptRow>, i: Uuid, e: Event)
    requires Ledgers(events, attempts) && e.attemptCount == 0 && e.state.Pending?
    requires forall g, n :: !Has(attempts, i, g, n)
    ensures Ledgers(events[i := e], attempts)
  {
  }

  lemma InsertClaims(w: World, i: Uuid, e: Event, w': World)
    requires Minted(w) && ClaimInv(w) && Inserted(w, i, e, w')
    ensures ClaimInv(w')
  {
  }

  lemma InsertLives(w: World, i: Uuid, e: Event, w': World)
    requires Minted(w) && LifeInv(w) && ClaimsKnown(w.claims, w.lives, w.clock) && Inserted(w, i, e, w')
    ensures LifeInv(w')
  {
  }

  lemma InsertKeepsDelivery(w: World, i: Uuid, e: Event, w': World)
    requires DeliveryInv(w) && Inserted(w, i, e, w')
    ensures DeliveryInv(w')
  {
    InsertLedger(w, i, e, w');
    InsertClaims(w, i, e, w');
    InsertLives(w, i, e, w');
  }

  lemma InsertUnique(events: map<Uuid, Event>, i: Uuid, e: Event)
    requires UniqueKeys(events) && i !in events && !KeyTaken(events, e.source, e.externalId)
    ensures UniqueKeys(events[i := e])
  {
  }

  lemma InsertVisitorAttempts(events: map<Uuid, Event>, attempts: map<Uuid, AttemptRow>, i: Uuid, e: Event)
    requires AttemptRows(events, attempts) && VisitorAttempts(events, attempts) && i !in events
    ensures VisitorAttempts(events[i := e], attempts)
  {
  }

  // ---------------------------------------------------------------- operator receipt

  lemma AcceptReceipts(w: World, r: Receipt)
    requires ReceiptsMatch(w.db.events, w.receipts) && Enabled(w, Step.Accept(r)) && Inserts(w.db, r)
    ensures var w' := ApplyAccept(w, r);
      ReceiptsMatch(w'.db.events, w'.receipts)
  {
  }

  lemma AcceptVisitors(w: World, i: Uuid, e: Event)
    requires VisitorRows(w.db.events, w.db.sessions, w.clock) && SessionCounts(w.db.events, w.db.sessions, w.clock)
    requires i !in w.db.events && e.sandboxId.None? && e.source.Operator?
    ensures var after := w.db.events[i := e];
      VisitorRows(after, w.db.sessions, w.clock) && SessionCounts(after, w.db.sessions, w.clock)
  {
    forall s ensures EventsOf(w.db.events[i := e], s) == EventsOf(w.db.events, s) {
    }
  }

  lemma AcceptKeeps(w: World, r: Receipt)
    requires Inv(w) && Enabled(w, Step.Accept(r))
    ensures Inv(ApplyAccept(w, r))
  {
    if Inserts(w.db, r) {
      var e := NewEvent(r, None, w.clock);
      InsertKeepsDelivery(w, r.id, e, ApplyAccept(w, r));
      AcceptVisitors(w, r.id, e);
      InsertVisitorAttempts(w.db.events, w.db.attempts, r.id, e);
      InsertUnique(w.db.events, r.id, e);
      AcceptReceipts(w, r);
    }
  }

  // ---------------------------------------------------------------- visitor receipt and sessions

  lemma HourlyCharge(w: World)
    requires HourlyCharges(w.db.budget, w.admitted, w.charges, w.clock)
    ensures Charge(w) == Admission(HourOf(w.clock), w.clock)
  {
  }

  /** One event or replay admission charged at the current instant keeps both views of the windows. */
  lemma ChargeKeeps(w: World)
    requires Windows(w.db.budget, w.admitted, w.charges)
    requires HourlyCharges(w.db.budget, w.admitted, w.charges, w.clock)
    requires Roll(w.db.budget, w.clock).admissions < ADMISSIONS_PER_WINDOW
    ensures var b := Roll(w.db.budget, w.clock);
      var b' := b.(admissions := b.admissions + 1);
      && Windows(b', w.admitted, w.charges + [Charge(w)])
      && HourlyCharges(b', w.admitted, w.charges + [Charge(w)], w.clock)
  {
    RollKeeps(w.db.budget, w.admitted, w.charges, w.clock);
    AdmissionCharged(Roll(w.db.budget, w.clock), w.admitted, w.charges, w.clock);
  }

  lemma CreateKeepsQuota(w: World, session: SessionId, issuedAt: Time, w': World)
    requires QuotaInv(w) && session !in w.admitted && CreateVerdict(w.db, session, w.clock).Committed?
    requires w' == ApplyCreate(w, session, issuedAt)
    ensures QuotaInv(w')
  {
    RollKeeps(w.db.budget, w.admitted, w.charges, w.clock);
    SessionCharged(Roll(w.db.budget, w.clock), w.admitted, w.charges, session, w.clock);
    HourlyCharge(w);
  }

  lemma CreateKeeps(w: World, session: SessionId, issuedAt: Time)
    requires Inv(w) && Enabled(w, Step.Create(session, issuedAt))
    ensures Inv(ApplyCreate(w, session, issuedAt))
  {
    if CreateVerdict(w.db, session, w.clock).Committed? {
      CreateKeepsQuota(w, session, issuedAt, ApplyCreate(w, session, issuedAt));
      CreateKeepsVisitors(w, session, issuedAt, ApplyCreate(w, session, issuedAt));
    }
  }

  lemma CreateKeepsVisitors(w: World, session: SessionId, issuedAt: Time, w': World)
    requires VisitorInv(w) && QuotaInv(w) && Enabled(w, Step.Create(session, issuedAt))
    requires CreateVerdict(w.db, session, w.clock).Committed? && w' == ApplyCreate(w, session, issuedAt)
    ensures VisitorInv(w')
  {
    HourlyCharge(w);
    CreateVisitors(w.db.events, w.db.sessions, w.clock, session, Session(issuedAt + SESSION_LIFETIME, 0));
  }

  lemma CreateVisitors(events: map<Uuid, Event>, sessions: map<SessionId, Session>, clock: Time,
                       s: SessionId, row: Session)
    requires VisitorRows(events, sessions, clock) && SessionCounts(events, sessions, clock)
    requires s !in sessions && |sessions| < RETAINED_SESSIONS && row.eventCount == 0
    ensures VisitorRows(events, sessions[s := row], clock) && SessionCounts(events, sessions[s := row], clock)
  {
  }

  function Counted(sessions: map<SessionId, Session>, s: SessionId): map<SessionId, Session>
    requires s in sessions
  {
    sessions[s := sessions[s].(eventCount := sessions[s].eventCount + 1)]
  }

  lemma SubmitRows(events: map<Uuid, Event>, sessions: map<SessionId, Session>, clock: Time,
                   i: Uuid, e: Event, s: SessionId)
    requires VisitorRows(events, sessions, clock) && s in sessions && VisitorRow(sessions, i, e, clock)
    ensures VisitorRows(events[i := e], Counted(sessions, s), clock)
  {
    var after := events[i := e];
    forall j | j in after ensures VisitorRow(Counted(sessions, s), j, after[j], clock) {
      assert VisitorRow(sessions, j, after[j], clock);
    }
  }

  lemma SubmitCounts(events: map<Uuid, Event>, sessions: map<SessionId, Session>, clock: Time,
                     i: Uuid, e: Event, s: SessionId)
    requires SessionCounts(events, sessions, clock)
    requires i !in events && s in sessions && e.sandboxId == Some(s)
    requires sessions[s].eventCount < EVENTS_PER_SESSION
    ensures SessionCounts(events[i := e], Counted(sessions, s), clock)
  {
    var after := events[i := e];
    assert EventsOf(after, s) == EventsOf(events, s) + {i};
    forall r | r != s ensures EventsOf(after, r) == EventsOf(events, r) {
    }
  }

  function VisitorEvent(w: World, session: SessionId, scenario: Scenario, id: Uuid, digest: Digest): Event {
    NewEvent(VisitorReceipt(session, scenario, id, digest), Some(session), w.clock)
  }

  lemma SubmitKeepsVisitors(w: World, session: SessionId, scenario: Scenario, id: Uuid, digest: Digest, w': World)
    requires AttemptRows(w.db.events, w.db.attempts) && VisitorInv(w) && QuotaInv(w)
    requires SubmitVisits(w, session, scenario, id, digest, w')
    ensures VisitorInv(w')
  {
    var e := VisitorEvent(w, session, scenario, id, digest);
    assert Hourly(w.admitted[session], w.clock);
    SubmitRows(w.db.events, w.db.sessions, w.clock, id, e, session);
    SubmitCounts(w.db.events, w.db.sessions, w.clock, id, e, session);
    SubmitSessions(w.db.sessions, w.admitted, session);
    InsertVisitorAttempts(w.db.events, w.db.attempts, id, e);
  }

  lemma SubmitKeepsReceipts(w: World, session: SessionId, scenario: Scenario, id: Uuid, digest: Digest, w': World)
    requires ReceiptInv(w) && SubmitVisits(w, session, scenario, id, digest, w')
    ensures ReceiptInv(w')
  {
  }

  /** What a committed submission changes outside the budget and the delivery history. */
  ghost predicate SubmitVisits(w: World, session: SessionId, scenario: Scenario, id: Uuid, digest: Digest, w': World) {
    && LiveSession(w.db, session, w.clock) && w.db.sessions[session].eventCount < EVENTS_PER_SESSION
    && id !in w.db.events && !KeyTaken(w.db.events, Visitor(session), Simulated(scenario, id))
    && w'.db.events == w.db.events[id := VisitorEvent(w, session, scenario, id, digest)]
    && w'.db.attempts == w.db.attempts
    && w'.db.sessions == Counted(w.db.sessions, session)
    && w'.clock == w.clock && w'.claims == w.claims && w'.admitted == w.admitted && w'.receipts == w.receipts
  }

  lemma SubmitIsVisit(w: World, session: SessionId, text: string, id: Uuid, digest: Digest)
    requires SubmitVerdict(w.db, session, text, id, w.clock).Committed?
    ensures SubmitVisits(w, session, ParseScenario(text).value, id, digest, ApplySubmit(w, session, text, id, digest))
  {
  }

  lemma SubmitKeepsAdmission(w: World, session: SessionId, text: string, id: Uuid, digest: Digest, w': World)
    requires AttemptRows(w.db.events, w.db.attempts) && AdmissionInv(w)
    requires SubmitVerdict(w.db, session, text, id, w.clock).Committed?
    requires w' == ApplySubmit(w, session, text, id, digest)
    ensures AdmissionInv(w')
  {
    var scenario := ParseScenario(text).value;
    SubmitIsVisit(w, session, text, id, digest);
    SubmitKeepsVisitors(w, session, scenario, id, digest, w');
    SubmitKeepsReceipts(w, session, scenario, id, digest, w');
    SubmitKeepsQuota(w, session, text, id, digest, w');
  }

  lemma SubmitKeepsQuota(w: World, session: SessionId, text: string, id: Uuid, digest: Digest, w': World)
    requires QuotaInv(w) && SubmitVerdict(w.db, session, text, id, w.clock).Committed?
    requires w' == ApplySubmit(w, session, text, id, digest)
    ensures QuotaInv(w')
  {
    ChargeKeeps(w);
  }

  lemma SubmitSessions(sessions: map<SessionId, Session>, admitted: map<SessionId, Admission>, s: SessionId)
    requires SessionsAdmitted(sessions, admitted) && s in sessions
    ensures SessionsAdmitted(sessions[s := sessions[s].(eventCount := sessions[s].eventCount + 1)], admitted)
  {
  }

  lemma SubmitKeeps(w: World, session: SessionId, text: string, id: Uuid, digest: Digest)
    requires Inv(w) && Enabled(w, Step.Submit(session, text, id, digest))
    ensures Inv(ApplySubmit(w, session, text, id, digest))
  {
    if SubmitVerdict(w.db, session, text, id, w.clock).Committed? {
      var w' := ApplySubmit(w, session, text, id, digest);
      InsertKeepsDelivery(w, id, VisitorEvent(w, session, ParseScenario(text).value, id, digest), w');
      SubmitKeepsAdmission(w, session, text, id, digest, w');
    }
  }

  // ---------------------------------------------------------------- reopening a dead letter

  ghost predicate Reopens(w: World, i: Uuid, w': World) {
    && i in w.db.events && w.db.events[i].state.DeadLettered? && w.db.events[i].replayCount < MAXIMUM_REPLAYS
    && w'.db.events == w.db.events[i := Reopened(w.db.events[i], w.clock)]
    && w'.db.attempts == w.db.attempts
    && w'.clock == w.clock && w'.claims == w.claims && w'.minted == w.minted && w'.lives == w.lives
  }

  lemma ReopenLedgers(events: map<Uuid, Event>, attempts: map<Uuid, AttemptRow>, i: Uuid, now: Time)
    requires Shapes(events) && Ledgers(events, attempts) && i in events
    requires events[i].state.DeadLettered? && events[i].replayCount < MAXIMUM_REPLAYS
    ensures var after := events[i := Reopened(events[i], now)];
      Shapes(after) && Ledgers(after, attempts)
  {
  }

  lemma ReopenClaims(w: World, i: Uuid, w': World)
    requires ClaimInv(w) && Reopens(w, i, w') && Shape(w.db.events[i])
    ensures ClaimInv(w')
  {
  }

  lemma ReopenLives(w: World, i: Uuid, w': World)
    requires LifeInv(w) && Reopens(w, i, w') && Shape(w.db.events[i]) && w.db.events[i].createdAt <= w.clock
    ensures LifeInv(w')
  {
  }

  lemma ReopenKeepsDelivery(w: World, i: Uuid, w': World)
    requires DeliveryInv(w) && Reopens(w, i, w')
    ensures DeliveryInv(w')
  {
    ReopenLedgers(w.db.events, w.db.attempts, i, w.clock);
    assert Shape(w.db.events[i]) && Tracks(w.db.events[i], w.lives[i]) && LifeBounds(w.lives[i], w.clock);
    ReopenClaims(w, i, w');
    ReopenLives(w, i, w');
  }

  lemma ReopenReceipts(events: map<Uuid, Event>, receipts: map<(string, ExternalId), (Uuid, Digest)>,
                       i: Uuid, now: Time)
    requires UniqueKeys(events) && ReceiptsMatch(events, receipts) && i in events
    ensures var after := events[i := Reopened(events[i], now)];
      UniqueKeys(after) && ReceiptsMatch(after, receipts)
  {
  }

  lemma ReopenVisitors(events: map<Uuid, Event>, sessions: map<SessionId, Session>, clock: Time, i: Uuid)
    requires VisitorRows(events, sessions, clock) && SessionCounts(events, sessions, clock) && i in events
    requires VisitorRow(sessions, i, Reopened(events[i], clock), clock)
    ensures var after := events[i := Reopened(events[i], clock)];
      VisitorRows(after, sessions, clock) && SessionCounts(after, sessions, clock)
  {
    forall s ensures EventsOf(events[i := Reopened(events[i], clock)], s) == EventsOf(events, s) {
    }
  }

  lemma ReopenVisitorAttempts(events: map<Uuid, Event>, attempts: map<Uuid, AttemptRow>, i: Uuid, now: Time)
    requires VisitorAttempts(events, attempts) && i in events
    ensures VisitorAttempts(events[i := Reopened(events[i], now)], attempts)
  {
  }

  /** A dead letter has no delivery time to clear. */
  lemma ReopenedAsIs(events: map<Uuid, Event>, id: Uuid)
    requires Shapes(events) && id in events && events[id].state.DeadLettered?
    ensures events[id].deliveredAt.None?
  {
  }

  lemma OperatorReplayKeeps(w: World, id: Uuid, key: string)
    requires Inv(w)
    ensures Inv(Apply(w, Step.OperatorReplay(id, key)))
  {
    if Replayable(w.db.events, id, Operator(key)) {
      var w' := Apply(w, Step.OperatorReplay(id, key));
      ReopenedAsIs(w.db.events, id);
      ReopenKeepsDelivery(w, id, w');
      OperatorReplayKeepsAdmission(w, id, w');
    }
  }

  lemma OperatorReplayKeepsAdmission(w: World, id: Uuid, w': World)
    requires AdmissionInv(w) && id in w.db.events && w.db.events[id].source.Operator?
    requires w' == w.(db := w.db.(events := w.db.events[id := Reopened(w.db.events[id], w.clock)]))
    ensures AdmissionInv(w')
  {
    assert VisitorRow(w.db.sessions, id, w.db.events[id], w.clock);
    ReopenReceipts(w.db.events, w.receipts, id, w.clock);
    ReopenVisitorAttempts(w.db.events, w.db.attempts, id, w.clock);
    ReopenVisitors(w.db.events, w.db.sessions, w.clock, id);
  }

  /** Only a permanent failure is dead while its session lives, so only those are replayed. */
  lemma VisitorReplayIsPermanent(w: World, session: SessionId, id: Uuid)
    requires VisitorRows(w.db.events, w.db.sessions, w.clock)
    requires VisitorReplayVerdict(w.db, session, id, w.clock).Committed?
    ensures w.db.events[id].destination == Simulator(PermanentFailure)
    ensures VisitorRow(w.db.sessions, id, Reopened(w.db.events[id], w.clock), w.clock)
  {
  }

  lemma VisitorReplayKeepsAdmission(w: World, session: SessionId, id: Uuid, w': World)
    requires AdmissionInv(w) && VisitorReplayVerdict(w.db, session, id, w.clock).Committed?
    requires w' == ApplyVisitorReplay(w, session, id)
    ensures AdmissionInv(w')
  {
    VisitorReplayIsPermanent(w, session, id);
    ReopenReceipts(w.db.events, w.receipts, id, w.clock);
    ReopenVisitorAttempts(w.db.events, w.db.attempts, id, w.clock);
    ReopenVisitors(w.db.events, w.db.sessions, w.clock, id);
    ChargeKeeps(w);
  }

  lemma VisitorReplayKeeps(w: World, session: SessionId, id: Uuid)
    requires Inv(w)
    ensures Inv(ApplyVisitorReplay(w, session, id))
  {
    if VisitorReplayVerdict(w.db, session, id, w.clock).Committed? {
      var w' := ApplyVisitorReplay(w, session, id);
      ReopenKeepsDelivery(w, id, w');
      VisitorReplayKeepsAdmission(w, session, id, w');
    }
  }

  // ---------------------------------------------------------------- cleanup

  /** Every doomed row belongs to an expired session and is under no live lease. */
  ghost predicate MayDelete(t: Tables, doomed: set<Uuid>, dropped: set<SessionId>, now: Time) {
    && doomed <= Deletable(t, now, {})
    && dropped <= Abandoned(t, doomed, now)
  }

  lemma CleanupLedgers(t: Tables, doomed: set<Uuid>, dropped: set<SessionId>, now: Time)
    requires Ledgers(t.events, t.attempts)
    ensures var t' := CleanupTables(t, doomed, dropped, now);
      Ledgers(t'.events, t'.attempts)
  {
    HasRemoved(t.attempts, doomed);
    var t' := CleanupTables(t, doomed, dropped, now);
    forall i | i in t'.events ensures Ledger(t'.attempts, i, t'.events[i]) {
      assert Ledger(t.attempts, i, t.events[i]);
    }
  }

  lemma CleanupRows(t: Tables, doomed: set<Uuid>, dropped: set<SessionId>, now: Time)
    requires Shapes(t.events) && AttemptRows(t.events, t.attempts)
    ensures var t' := CleanupTables(t, doomed, dropped, now);
      Shapes(t'.events) && AttemptRows(t'.events, t'.attempts)
  {
  }

  lemma CleanupClaims(w: World, doomed: set<Uuid>, dropped: set<SessionId>, w': World)
    requires ClaimInv(w) && Shapes(w.db.events) && MayDelete(w.db, doomed, dropped, w.clock)
    requires w' == w.(db := CleanupTables(w.db, doomed, dropped, w.clock))
    ensures ClaimInv(w')
  {
    HasRemoved(w.db.attempts, doomed);
    forall c | c in w.claims && w.claims[c].claimed.id in w'.db.events
      ensures Behind(w.claims[c], w'.db.events[w.claims[c].claimed.id], w'.db.attempts)
    {
      assert Behind(w.claims[c], w.db.events[w.claims[c].claimed.id], w.db.attempts);
    }
    forall c | c in w.claims && !w.claims[c].recorded && w.claims[c].at + LEASE > w.clock
      ensures Holds(w'.db.events, w.claims[c].claimed)
    {
      assert Holds(w.db.events, w.claims[c].claimed);
      var i := w.claims[c].claimed.id;
      assert HeldBy(i, w.db.events[i], c, w.claims[c]);
    }
  }

  lemma CleanupVisitors(t: Tables, doomed: set<Uuid>, dropped: set<SessionId>, clock: Time)
    requires VisitorRows(t.events, t.sessions, clock) && MayDelete(t, doomed, dropped, clock)
    ensures var t' := CleanupTables(t, doomed, dropped, clock);
      VisitorRows(t'.events, t'.sessions, clock)
  {
    var t' := CleanupTables(t, doomed, dropped, clock);
    forall i | i in t'.events ensures VisitorRow(t'.sessions, i, t'.events[i], clock) {
      assert VisitorRow(t.sessions, i, t.events[i], clock);
    }
  }

  /** A live session loses nothing to a cleanup, so its count stays exact. */
  lemma CleanupEventsOf(t: Tables, doomed: set<Uuid>, s: SessionId, clock: Time)
    requires doomed <= Deletable(t, clock, {}) && s in t.sessions
    ensures EventsOf(t.events - doomed, s) <= EventsOf(t.events, s)
    ensures t.sessions[s].expiresAt > clock ==> EventsOf(t.events - doomed, s) == EventsOf(t.events, s)
  {
  }

  lemma CleanupCounts(t: Tables, doomed: set<Uuid>, dropped: set<SessionId>, clock: Time)
    requires SessionCounts(t.events, t.sessions, clock) && MayDelete(t, doomed, dropped, clock)
    ensures var t' := CleanupTables(t, doomed, dropped, clock);
      SessionCounts(t'.events, t'.sessions, clock)
  {
    var t' := CleanupTables(t, doomed, dropped, clock);
    forall s | s in t'.sessions
      ensures |EventsOf(t'.events, s)| <= t'.sessions[s].eventCount
      ensures t'.sessions[s].expiresAt > clock ==> |EventsOf(t'.events, s)| == t'.sessions[s].eventCount
    {
      CleanupEventsOf(t, doomed, s, clock);
      SubsetBound(EventsOf(t'.events, s), EventsOf(t.events, s));
    }
    SubsetBound(t'.sessions.Keys, t.sessions.Keys);
  }

  lemma CleanupVisitorAttempts(t: Tables, doomed: set<Uuid>, dropped: set<SessionId>, now: Time)
    requires VisitorAttempts(t.events, t.attempts)
    ensures var t' := CleanupTables(t, doomed, dropped, now);
      VisitorAttempts(t'.events, t'.attempts)
  {
  }

  lemma CleanupReceipts(t: Tables, receipts: map<(string, ExternalId), (Uuid, Digest)>,
                        doomed: set<Uuid>, dropped: set<SessionId>, clock: Time)
    requires UniqueKeys(t.events) && ReceiptsMatch(t.events, receipts) && VisitorRows(t.events, t.sessions, clock)
    requires MayDelete(t, doomed, dropped, clock)
    ensures UniqueKeys(t.events - doomed) && ReceiptsMatch(t.events - doomed, receipts)
  {
  }

  lemma CleanupKeeps(w: World, doomed: set<Uuid>, dropped: set<SessionId>, w': World)
    requires Inv(w) && MayDelete(w.db, doomed, dropped, w.clock)
    requires w' == w.(db := CleanupTables(w.db, doomed, dropped, w.clock))
    ensures Inv(w')
  {
    CleanupLedgers(w.db, doomed, dropped, w.clock);
    CleanupRows(w.db, doomed, dropped, w.clock);
    CleanupClaims(w, doomed, dropped, w');
    CleanupVisitors(w.db, doomed, dropped, w.clock);
    CleanupCounts(w.db, doomed, dropped, w.clock);
    CleanupVisitorAttempts(w.db, doomed, dropped, w.clock);
    CleanupReceipts(w.db, w.receipts, doomed, dropped, w.clock);
    RollKeeps(w.db.budget, w.admitted, w.charges, w.clock);
  }
}
