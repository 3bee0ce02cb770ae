/** Recording an attempt keeps the invariant, whether or not the fence lets it through. */
module RecordKeeps {
  import opened Basics
  import opened Tables
  import opened Policy
  import opened Queue
  import opened World
  import opened Invariant

  /** What a record that goes through leaves behind, and what the fence guarantees about it. */
  ghost predicate Records(w: World, claimId: Uuid, attempt: Attempt, w': World) {
    && claimId in w.claims
    && Holds(w.db.events, w.claims[claimId].claimed)
    && HeldBy(w.claims[claimId].claimed.id, w.db.events[w.claims[claimId].claimed.id], claimId, w.claims[claimId])
    && Insertable(w.db.attempts, attempt.id, RowOf(w.claims[claimId].claimed, attempt))
    && w.claims[claimId].at <= attempt.finishedAt <= attempt.nextAttemptAt
    && attempt.finishedAt <= w.clock
    && (attempt.id == claimId || attempt.id !in w.minted)
    && w'.db == RecordTables(w.db, w.claims[claimId].claimed, attempt)
    && w'.claims == w.claims[claimId := w.claims[claimId].(recorded := true)]
    && w'.minted >= w.minted + {attempt.id}
    && w' == w.(db := w'.db, claims := w'.claims, minted := w'.minted)
  }

  lemma LedgerElsewhere(attempts: map<Uuid, AttemptRow>, a: Uuid, row: AttemptRow, j: Uuid, e: Event)
    requires a !in attempts && row.eventId != j && Ledger(attempts, j, e)
    ensures Ledger(attempts[a := row], j, e)
  {
    HasInserted(attempts, a, row);
    var after := attempts[a := row];
    forall g, n ensures Has(after, j, g, n) <==> Has(attempts, j, g, n) {
    }
  }

  /** The recorded attempt is the next number of the current generation, so no gap opens. */
  lemma LedgerExtended(attempts: map<Uuid, AttemptRow>, a: Uuid, row: AttemptRow, i: Uuid, e: Event, e': Event)
    requires a !in attempts && Shape(e) && e.state.Delivering? && Ledger(attempts, i, e)
    requires About(row, i, e.replayCount, e.attemptCount)
    requires e'.replayCount == e.replayCount && e'.attemptCount == e.attemptCount && !e'.state.Delivering?
    ensures Ledger(attempts[a := row], i, e')
  {
    HasInserted(attempts, a, row);
    var after := attempts[a := row];
    forall g, n ensures Has(after, i, g, n) <==> Has(attempts, i, g, n) || (g == e.replayCount && n == e.attemptCount) {
    }
  }

  lemma RecordLedgers(events: map<Uuid, Event>, attempts: map<Uuid, AttemptRow>,
                      a: Uuid, row: AttemptRow, e': Event)
    requires Shapes(events) && Ledgers(events, attempts)
    requires a !in attempts && row.eventId in events
    requires var e := events[row.eventId];
      && e.state.Delivering? && About(row, row.eventId, e.replayCount, e.attemptCount)
      && e'.replayCount == e.replayCount && e'.attemptCount == e.attemptCount && !e'.state.Delivering?
    ensures Ledgers(events[row.eventId := e'], attempts[a := row])
  {
    var after, attempts' := events[row.eventId := e'], attempts[a := row];
    forall j | j in after ensures Ledger(attempts', j, after[j]) {
      if j == row.eventId {
        LedgerExtended(attempts, a, row, j, events[j], e');
      } else {
        LedgerElsewhere(attempts, a, row, j, events[j]);
      }
    }
  }

  lemma RecordAttemptRows(events: map<Uuid, Event>, attempts: map<Uuid, AttemptRow>,
                          id: Uuid, row: AttemptRow, e': Event)
    requires AttemptRows(events, attempts) && row.eventId in events && Insertable(attempts, id, row)
    ensures AttemptRows(events[row.eventId := e'], attempts[id := row])
  {
  }

  lemma RecordRow(w: World, claimId: Uuid, attempt: Attempt, w': World)
    requires Shapes(w.db.events) && Minted(w) && Records(w, claimId, attempt, w')
    ensures Shapes(w'.db.events) && Minted(w')
  {
  }

  lemma RecordLedger(w: World, claimId: Uuid, attempt: Attempt, w': World)
    requires LedgerInv(w) && Records(w, claimId, attempt, w')
    ensures LedgerInv(w')
  {
    var claimed := w.claims[claimId].claimed;
    var i, row := claimed.id, RowOf(claimed, attempt);
    var e' := Completed(w.db.events[i], claimed, attempt);
    assert w'.db.events == w.db.events[i := e'] && w'.db.attempts == w.db.attempts[attempt.id := row];
    RecordRow(w, claimId, attempt, w');
    RecordLedgers(w.db.events, w.db.attempts, attempt.id, row, e');
    RecordAttemptRows(w.db.events, w.db.attempts, attempt.id, row, e');
  }

  lemma RecordClaims(w: World, claimId: Uuid, attempt: Attempt, w': World)
    requires ClaimInv(w) && Records(w, claimId, attempt, w')
    ensures ClaimsBehind(w'.db.events, w'.db.attempts, w'.claims)
    ensures ClaimsKnown(w'.claims, w'.lives, w'.clock)
    ensures Holders(w'.db.events, w'.claims)
  {
    HasInserted(w.db.attempts, attempt.id, RowOf(w.claims[claimId].claimed, attempt));
    forall c | c in w.claims && w.claims[c].claimed.id in w.db.events
      ensures Behind(w'.claims[c], w'.db.events[w.claims[c].claimed.id], w'.db.attempts)
    {
      assert Behind(w.claims[c], w.db.events[w.claims[c].claimed.id], w.db.attempts);
    }
  }

  /** Marking a claim as recorded moves no claim in time, so what was latest still is. */
  lemma LatestAfterRecording(claims: map<Uuid, Issued>, claimId: Uuid, c: Uuid)
    requires claimId in claims && c in claims && Latest(claims, c)
    ensures Latest(claims[claimId := claims[claimId].(recorded := true)], c)
  {
  }

  lemma RecordLatest(events: map<Uuid, Event>, claims: map<Uuid, Issued>, claimId: Uuid, events': map<Uuid, Event>)
    requires RecordedLatest(claims) && HolderLatest(events, claims) && ClaimsSpaced(claims)
    requires claimId in claims && Latest(claims, claimId)
    requires forall i :: i in events' && events'[i].claimId.Some? ==> i in events && events[i] == events'[i]
    ensures var claims' := claims[claimId := claims[claimId].(recorded := true)];
      RecordedLatest(claims') && HolderLatest(events', claims') && ClaimsSpaced(claims')
  {
    forall c | c in claims && Latest(claims, c)
      ensures Latest(claims[claimId := claims[claimId].(recorded := true)], c)
    {
      LatestAfterRecording(claims, claimId, c);
    }
  }

  lemma RecordProtects(w: World, claimId: Uuid, attempt: Attempt, w': World)
    requires Minted(w) && ClaimInv(w) && Records(w, claimId, attempt, w')
    ensures LeasesProtect(w'.db.events, w'.claims, w'.clock)
    ensures OpenUnused(w'.claims, w'.db.attempts)
  {
  }

  lemma RecordLives(w: World, claimId: Uuid, attempt: Attempt, w': World)
    requires LifeInv(w) && Records(w, claimId, attempt, w')
    ensures LifeInv(w')
  {
    var i := w.claims[claimId].claimed.id;
    assert Tracks(w.db.events[i], w.lives[i]);
    forall j | j in w.lives ensures ClaimsOn(w'.claims, j) == ClaimsOn(w.claims, j) {
    }
  }

  /** The state a simulated attempt number `n`, started at `at`, takes its event to. */
  function SimulatedState(scenario: Scenario, n: int, createdAt: Time, at: Time): State {
    match scenario
    case Success => Delivered
    case PermanentFailure => DeadLettered
    case TemporaryFailure =>
      if n >= 3 then Delivered else if at - createdAt < DAY then RetryScheduled else DeadLettered
  }

  /** A simulated attempt gets the promised status and takes its event exactly as far as its scenario
      says: delivered by 204 at once, by 204 after two 503, or never after a 422. */
  lemma SimulationAdvances(e: Event, scenario: Scenario, claimed: ClaimedEvent, x: Exchange, clock: Time)
    requires Shape(e) && e.state.Delivering? && ScenarioShape(e, scenario, clock)
    requires claimed.sandbox && claimed.destination == Simulator(scenario)
    requires claimed.attemptNumber == e.attemptCount && claimed.createdAt == e.createdAt && x.startedAt <= clock
    ensures var a := Send(claimed, x);
      && a.statusCode == Some(PromisedStatus(scenario, e.attemptCount)) && a.errorCode.None?
      && a.id == claimed.claimId && a.startedAt == a.finishedAt == x.startedAt
      && a.outcome == match PromisedStatus(scenario, e.attemptCount)
                      case 204 => Succeeded
                      case 503 => RetryableHttp
                      case _ => TerminalHttp
    ensures Completed(e, claimed, Send(claimed, x)).state
      == SimulatedState(scenario, e.attemptCount, e.createdAt, x.startedAt)
    ensures ScenarioShape(Completed(e, claimed, Send(claimed, x)), scenario, clock)
  {
  }

  lemma RecordVisitors(w: World, claimId: Uuid, x: Exchange, w': World)
    requires Shapes(w.db.events)
    requires VisitorRows(w.db.events, w.db.sessions, w.clock) && SessionCounts(w.db.events, w.db.sessions, w.clock)
    requires claimId in w.claims && Records(w, claimId, AttemptFor(w, claimId, x), w')
    ensures VisitorRows(w'.db.events, w'.db.sessions, w'.clock) && SessionCounts(w'.db.events, w'.db.sessions, w'.clock)
  {
    var claimed := w.claims[claimId].claimed;
    var e := w.db.events[claimed.id];
    assert Shape(e) && VisitorRow(w.db.sessions, claimed.id, e, w.clock);
    if e.sandboxId.Some? {
      SimulationAdvances(e, e.destination.scenario, claimed, x, w.clock);
    }
    assert VisitorRow(w.db.sessions, claimed.id, w'.db.events[claimed.id], w.clock);
    SameOwners(w.db.events, w'.db.events);
  }

  lemma SameOwners(before: map<Uuid, Event>, after: map<Uuid, Event>)
    requires after.Keys == before.Keys && forall i :: i in before ==> after[i].sandboxId == before[i].sandboxId
    ensures forall s :: EventsOf(after, s) == EventsOf(before, s)
  {
  }

  /** The stored status is the promised one, because the row's attempt number is the claim's. */
  lemma SimulationKeepsPromise(e: Event, scenario: Scenario, claimed: ClaimedEvent, x: Exchange, clock: Time)
    requires Shape(e) && e.state.Delivering? && ScenarioShape(e, scenario, clock)
    requires e.destination == Simulator(scenario)
    requires claimed.sandbox && claimed.destination == Simulator(scenario) && claimed.attemptNumber == e.attemptCount
    ensures AsPromised(Completed(e, claimed, Send(claimed, x)), RowOf(claimed, Send(claimed, x)))
  {
  }

  lemma RecordVisitorAttempts(w: World, claimId: Uuid, x: Exchange, w': World)
    requires Shapes(w.db.events)
    requires VisitorRows(w.db.events, w.db.sessions, w.clock) && VisitorAttempts(w.db.events, w.db.attempts)
    requires claimId in w.claims && Records(w, claimId, AttemptFor(w, claimId, x), w')
    ensures VisitorAttempts(w'.db.events, w'.db.attempts)
  {
    var claimed := w.claims[claimId].claimed;
    var e := w.db.events[claimed.id];
    assert Shape(e) && VisitorRow(w.db.sessions, claimed.id, e, w.clock);
    if e.sandboxId.Some? {
      SimulationKeepsPromise(e, e.destination.scenario, claimed, x, w.clock);
    }
  }

  lemma RecordReceipts(w: World, claimId: Uuid, attempt: Attempt, w': World)
    requires UniqueKeys(w.db.events) && ReceiptsMatch(w.db.events, w.receipts)
    requires Records(w, claimId, attempt, w')
    ensures UniqueKeys(w'.db.events) && ReceiptsMatch(w'.db.events, w'.receipts)
  {
  }

  /** The fence: a claim that passes it is the one the invariant says holds the row. */
  lemma FenceGuarantees(w: World, claimId: Uuid, x: Exchange)
    requires DeliveryInv(w) && Enabled(w, Step.Record(claimId, x))
    requires RecordOutcome(w.db, w.claims[claimId].claimed, AttemptFor(w, claimId, x)).Recorded?
    ensures Records(w, claimId, AttemptFor(w, claimId, x), ApplyRecord(w, claimId, x))
  {
    HolderIsClaimant(w.db.events, w.claims, w.lives, w.clock, claimId);
    SentInTime(w, claimId, x);
    RecordedWorld(w, claimId, x);
  }

  lemma RecordedWorld(w: World, claimId: Uuid, x: Exchange)
    requires claimId in w.claims && claimId in w.minted
    requires RecordOutcome(w.db, w.claims[claimId].claimed, AttemptFor(w, claimId, x)).Recorded?
    requires AttemptFor(w, claimId, x).id in ReplyIds(x.reply) + {claimId}
    ensures var w' := ApplyRecord(w, claimId, x);
      && w'.db == RecordTables(w.db, w.claims[claimId].claimed, AttemptFor(w, claimId, x))
      && w'.claims == w.claims[claimId := w.claims[claimId].(recorded := true)]
      && w'.minted >= w.minted + {AttemptFor(w, claimId, x).id}
      && w' == w.(db := w'.db, claims := w'.claims, minted := w'.minted)
  {
  }

  lemma SentInTime(w: World, claimId: Uuid, x: Exchange)
    requires ClaimsKnown(w.claims, w.lives, w.clock) && Enabled(w, Step.Record(claimId, x))
    ensures var a := AttemptFor(w, claimId, x);
      && w.claims[claimId].at <= a.finishedAt <= a.nextAttemptAt && a.finishedAt <= w.clock
      && (a.id == claimId || a.id !in w.minted) && a.id in ReplyIds(x.reply) + {claimId}
  {
    var k := w.claims[claimId];
    SendFacts(k.claimed, x, k.at, w.clock);
  }

  lemma HolderIsClaimant(events: map<Uuid, Event>, claims: map<Uuid, Issued>, lives: map<Uuid, Life>,
                         clock: Time, c: Uuid)
    requires ClaimsKnown(claims, lives, clock) && Holders(events, claims)
    requires c in claims && Holds(events, claims[c].claimed)
    ensures HeldBy(claims[c].claimed.id, events[claims[c].claimed.id], c, claims[c])
  {
  }

  lemma RecordKeepsClaims(w: World, claimId: Uuid, attempt: Attempt, w': World)
    requires Minted(w) && ClaimInv(w) && Records(w, claimId, attempt, w')
    ensures ClaimInv(w')
  {
    RecordClaims(w, claimId, attempt, w');
    RecordLatest(w.db.events, w.claims, claimId, w'.db.events);
    RecordProtects(w, claimId, attempt, w');
  }

  lemma RecordKeepsAdmission(w: World, claimId: Uuid, x: Exchange, w': World)
    requires Shapes(w.db.events) && AdmissionInv(w)
    requires claimId in w.claims && Records(w, claimId, AttemptFor(w, claimId, x), w')
    ensures AdmissionInv(w')
  {
    RecordVisitors(w, claimId, x, w');
    RecordVisitorAttempts(w, claimId, x, w');
    RecordReceipts(w, claimId, AttemptFor(w, claimId, x), w');
  }

  lemma RecordKeeps(w: World, claimId: Uuid, x: Exchange)
    requires Inv(w) && Enabled(w, Step.Record(claimId, x))
    ensures Inv(ApplyRecord(w, claimId, x))
  {
    var attempt := AttemptFor(w, claimId, x);
    var w' := ApplyRecord(w, claimId, x);
    if RecordOutcome(w.db, w.claims[claimId].claimed, attempt).Recorded? {
      FenceGuarantees(w, claimId, x);
      RecordLedger(w, claimId, attempt, w');
      RecordKeepsClaims(w, claimId, attempt, w');
      RecordLives(w, claimId, attempt, w');
      RecordKeepsAdmission(w, claimId, x, w');
    }
  }
}
