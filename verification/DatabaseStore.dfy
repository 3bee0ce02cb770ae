/** The database as an object whose tables the operations update in place. A transaction works on
    copies and assigns the fields only when it commits, so an early return is a rollback. */
module DatabaseStore {
  import opened Basics
  import opened Tables
  import opened Policy
  import opened Queue
  import opened Sandbox

  function Members(ids: seq<Uuid>): set<Uuid> {
    set i | i in ids
  }

  lemma MemberAppended(ids: seq<Uuid>, i: Uuid)
    requires i !in ids
    ensures Members(ids + [i]) == Members(ids) + {i}
    ensures |Members(ids + [i])| == |Members(ids)| + 1
  {
    assert Members(ids + [i]) == Members(ids) + {i};
  }

  class Database {
    var events: map<Uuid, Event>
    var attempts: map<Uuid, AttemptRow>
    var sessions: map<SessionId, Session>
    var budget: Budget

    function Snapshot(): Tables
      reads this
    {
      Tables(events, attempts, sessions, budget)
    }

    /** The migrations: empty tables and a budget for the current hour. */
    constructor (now: Time)
      ensures Snapshot() == Tables(map[], map[], map[], Budget(HourOf(now), 0, 0))
    {
      events, attempts, sessions := map[], map[], map[];
      budget := Budget(HourOf(now), 0, 0);
    }

    /** What other transactions commit between two statements of one operation. */
    method Interleave(others: Tables -> Tables)
      modifies this
      ensures Snapshot() == others(old(Snapshot()))
    {
      var t := others(Snapshot());
      events, attempts, sessions, budget := t.events, t.attempts, t.sessions, t.budget;
    }

    // ---------------------------------------------------------------- claim

    /** ORDER BY created_at LIMIT 1 over some rows. */
    method Oldest(rows: set<Uuid>) returns (oldest: Uuid)
      requires rows != {} && rows <= events.Keys
      ensures oldest in rows
      ensures forall i :: i in rows ==> events[oldest].createdAt <= events[i].createdAt
    {
      oldest :| oldest in rows;
      var rest := rows - {oldest};
      while rest != {}
        invariant rest <= rows && oldest in rows
        invariant forall i :: i in rows - rest ==> events[oldest].createdAt <= events[i].createdAt
        decreases rest
      {
        var i :| i in rest;
        if events[i].createdAt < events[oldest].createdAt {
          oldest := i;
        }
        rest := rest - {i};
      }
    }

    /** The `expired` subquery. */
    method SelectExpired(now: Time, locked: set<Uuid>) returns (chosen: set<Uuid>)
      ensures OldestFew(events, now, locked, chosen)
    {
      var rest := Expired(events, now, locked);
      chosen := {};
      while rest != {} && |chosen| < RETIRE_LIMIT
        invariant chosen !! rest && chosen + rest == Expired(events, now, locked)
        invariant |chosen| <= RETIRE_LIMIT
        invariant forall c, x :: c in chosen && x in rest ==> events[c].createdAt <= events[x].createdAt
        decreases rest
      {
        var oldest := Oldest(rest);
        chosen, rest := chosen + {oldest}, rest - {oldest};
      }
    }

    /** The `candidate` subquery. */
    method SelectCandidate(now: Time, locked: set<Uuid>) returns (picked: Option<Uuid>)
      ensures FirstDue(Snapshot(), now, locked, picked)
    {
      picked := None;
      var rest := events.Keys - locked;
      while rest != {}
        invariant rest <= events.Keys - locked
        invariant match picked
          case None => Due(Snapshot(), now, locked) <= rest
          case Some(p) =>
            && p in Due(Snapshot(), now, locked)
            && forall j :: j in Due(Snapshot(), now, locked) && j !in rest ==> NoLater(events[p], events[j])
        decreases rest
      {
        var i :| i in rest;
        rest := rest - {i};
        if Claimable(sessions, events[i], now) {
          if picked.None? || !NoLater(events[picked.value], events[i]) {
            picked := Some(i);
          }
        }
      }
    }

    /** The `retired` update. */
    method RetireRows(chosen: set<Uuid>)
      requires chosen <= events.Keys
      modifies this`events
      ensures events == RetireAll(old(events), chosen)
    {
      var rest := chosen;
      while rest != {}
        invariant rest <= chosen && events == RetireAll(old(events), chosen - rest)
        decreases rest
      {
        var i :| i in rest;
        assert events[i] == old(events)[i];
        events := events[i := Retired(events[i])];
        rest := rest - {i};
        assert chosen - rest == (chosen - rest - {i}) + {i};
      }
      assert chosen - rest == chosen;
    }

    /** Retire the oldest overage rows, then lease the first due one; both selections see the tables
        as they were before the statement. */
    method Claim(now: Time, leaseLength: int, claimId: Uuid, locked: set<Uuid>) returns (claimed: Option<ClaimedEvent>)
      modifies this`events
      ensures ClaimMay(old(Snapshot()), now, leaseLength, claimId, locked, Snapshot(), claimed)
      ensures match claimed
        case None => forall i :: i in old(events) && i !in locked ==> !Ready(sessions, old(events)[i], now)
        case Some(c) =>
          && c.id in old(events) && c.id !in locked && Ready(sessions, old(events)[c.id], now)
          && forall j :: j in old(events) && j !in locked && Ready(sessions, old(events)[j], now) ==>
               old(events)[c.id].nextAttemptAt < old(events)[j].nextAttemptAt
               || (old(events)[c.id].nextAttemptAt == old(events)[j].nextAttemptAt
                   && old(events)[c.id].createdAt <= old(events)[j].createdAt)
    {
      ghost var before := Snapshot();
      var expired := SelectExpired(now, locked);
      var candidate := SelectCandidate(now, locked);
      RetiredAndPickedDisjoint(before, now, locked, expired, candidate);
      FirstIsReady(before, now, locked, candidate);
      RetireRows(expired);
      if candidate.Some? {
        var row := Leased(events[candidate.value], now + leaseLength, claimId);
        events := events[candidate.value := row];
        claimed := Some(ClaimedOf(candidate.value, row, claimId));
      } else {
        claimed := None;
      }
      assert Snapshot() == ClaimTables(before, expired, candidate, now + leaseLength, claimId);
      assert ClaimChose(before, now, leaseLength, claimId, locked, Snapshot(), claimed, expired, candidate);
    }

    // ---------------------------------------------------------------- record

    /** Compare-and-set on the claim, then the attempt; a constraint violation undoes both. */
    method Record(claimed: ClaimedEvent, attempt: Attempt) returns (result: RecordResult)
      modifies this`events, this`attempts
      ensures result == RecordOutcome(old(Snapshot()), claimed, attempt)
      ensures Snapshot() == RecordTables(old(Snapshot()), claimed, attempt)
      ensures result.ClaimReplaced? <==>
        !(claimed.id in old(events) && old(events)[claimed.id].state.Delivering?
          && old(events)[claimed.id].claimId == Some(claimed.claimId))
      ensures result != Recorded ==> events == old(events) && attempts == old(attempts)
      ensures result == Recorded ==>
        && attempt.id !in old(attempts)
        && attempts == old(attempts)[attempt.id := AttemptRow(claimed.id, claimed.replayNumber, claimed.attemptNumber,
             attempt.startedAt, attempt.finishedAt, attempt.outcome, attempt.statusCode, attempt.errorCode)]
        && events - {claimed.id} == old(events) - {claimed.id}
        && claimed.id in events
        && (var e, f := old(events)[claimed.id], events[claimed.id];
            && f == e.(state := f.state, nextAttemptAt := attempt.nextAttemptAt, lease := None, claimId := None,
                 deliveredAt := if attempt.outcome.Succeeded? then Some(attempt.finishedAt) else e.deliveredAt)
            && f.state == if attempt.outcome.Succeeded? then Delivered
                          else if attempt.outcome.TerminalHttp? || claimed.attemptNumber >= 8
                                  || attempt.finishedAt - claimed.createdAt >= 24 * HOUR then DeadLettered
                          else RetryScheduled)
    {
      if !Holds(events, claimed) {
        return ClaimReplaced;
      }
      var updated := events[claimed.id := Completed(events[claimed.id], claimed, attempt)];
      var row := RowOf(claimed, attempt);
      if !Insertable(attempts, attempt.id, row) {
        return ConstraintRefused;
      }
      events, attempts := updated, attempts[attempt.id := row];
      return Recorded;
    }

    // ---------------------------------------------------------------- receipt and replay

    /** INSERT ... ON CONFLICT DO NOTHING. */
    method InsertIfAbsent(receipt: Receipt, now: Time) returns (outcome: Insertion)
      modifies this`events
      ensures outcome == InsertOutcome(old(Snapshot()), receipt)
      ensures Snapshot() == AcceptTables(old(Snapshot()), receipt, now)
      ensures outcome.KeyPresent? <==>
        exists i :: i in old(events) && old(events)[i].source == receipt.source
          && old(events)[i].externalId == receipt.externalId
      ensures outcome.PrimaryKeyTaken? ==> receipt.id in old(events)
      ensures events == if !outcome.RowInserted? then old(events) else old(events)[receipt.id :=
        Event(receipt.source, receipt.externalId, receipt.digest, receipt.destination,
              Pending, 0, 0, now, None, None, now, None, None)]
      ensures outcome.RowInserted? ==> receipt.id !in old(events)
    {
      if KeyTaken(events, receipt.source, receipt.externalId) {
        return KeyPresent;
      }
      if receipt.id in events {
        return PrimaryKeyTaken;
      }
      events := events[receipt.id := NewEvent(receipt, None, now)];
      return RowInserted;
    }

    /** The read of the row that was in the way. */
    method AcceptExisting(receipt: Receipt) returns (result: AcceptResult)
      ensures ExistingAnswer(Snapshot(), receipt, result)
      ensures match result
        case RowMissing =>
          forall i :: i in events ==>
            !(events[i].source == receipt.source && events[i].externalId == receipt.externalId)
        case Accepted(i, duplicate) =>
          duplicate && i in events && events[i].source == receipt.source
          && events[i].externalId == receipt.externalId && events[i].digest == receipt.digest
        case Conflict =>
          exists i :: i in events && events[i].source == receipt.source
            && events[i].externalId == receipt.externalId && events[i].digest != receipt.digest
        case IdentifierTaken => false
    {
      if !KeyTaken(events, receipt.source, receipt.externalId) {
        return RowMissing;
      }
      var i :| i in events && SameKey(events[i], receipt.source, receipt.externalId);
      if events[i].digest != receipt.digest {
        return Conflict;
      }
      return Accepted(i, true);
    }

    /** Two statements: the insert and, only if the key was taken, a read of whatever is there by then. */
    method Accept(receipt: Receipt, now: Time, others: Tables -> Tables) returns (result: AcceptResult)
      modifies this
      ensures AcceptAnswer(old(Snapshot()), others(old(Snapshot())), receipt, result)
      ensures Snapshot() == if InsertOutcome(old(Snapshot()), receipt).KeyPresent?
                            then others(old(Snapshot())) else AcceptTables(old(Snapshot()), receipt, now)
    {
      var outcome := InsertIfAbsent(receipt, now);
      match outcome
      case RowInserted => return Accepted(receipt.id, false);
      case PrimaryKeyTaken => return IdentifierTaken;
      case KeyPresent =>
        Interleave(others);
        result := AcceptExisting(receipt);
    }

    /** One guarded update; if it matched no row, a second statement reads why. */
    method Replay(id: Uuid, source: Source, now: Time, others: Tables -> Tables) returns (result: ReplayResult)
      modifies this
      ensures result.Replayed? <==>
        && id in old(events) && old(events)[id].source == source
        && old(events)[id].state.DeadLettered? && old(events)[id].replayCount < 16
      ensures result.Replayed? ==>
        && Snapshot() == ReplayTables(old(Snapshot()), id, source, now)
        && events - {id} == old(events) - {id}
        && id in events && events[id].state.Pending? && events[id].attemptCount == 0
        && events[id].replayCount == old(events)[id].replayCount + 1 && events[id].nextAttemptAt == now
        && events[id].createdAt == old(events)[id].createdAt && events[id].deliveredAt.None?
        && events[id].lease.None? && events[id].claimId.None?
      ensures !result.Replayed? ==>
        && Snapshot() == others(old(Snapshot()))
        && (result.InvalidState? <==> id in events && events[id].source == source)
    {
      if Replayable(events, id, source) {
        events := events[id := events[id].(
          state := Pending, attemptCount := 0, replayCount := events[id].replayCount + 1,
          nextAttemptAt := now, lease := None, claimId := None, deliveredAt := None)];
        return Replayed;
      }
      Interleave(others);
      if id in events && events[id].source == source {
        return ReplayResult.InvalidState;
      }
      return NotFound;
    }

    // ---------------------------------------------------------------- visitors

    method Create(id: SessionId, expiry: Time, now: Time) returns (verdict: Verdict)
      modifies this`sessions, this`budget
      ensures verdict == CreateVerdict(old(Snapshot()), id, now)
      ensures Snapshot() == CreateTables(old(Snapshot()), id, expiry, now)
      ensures verdict.Committed? <==>
        && id !in old(sessions) && |old(sessions)| < 1000
        && (old(budget).windowStart < HourOf(now) || old(budget).sessions < 100)
      ensures verdict.Committed? ==>
        && sessions == old(sessions)[id := Session(expiry, 0)]
        && (old(budget).windowStart < HourOf(now) ==> budget == Budget(HourOf(now), 1, 0))
        && (HourOf(now) <= old(budget).windowStart ==> budget == old(budget).(sessions := old(budget).sessions + 1))
      ensures verdict.RolledBack? ==>
        verdict.refusal == (
          if id in old(sessions) && |old(sessions)| < 1000
             && (old(budget).windowStart < HourOf(now) || old(budget).sessions < 100)
          then KeyViolation else QuotaExceeded)
      ensures verdict.RolledBack? ==> Snapshot() == old(Snapshot())
    {
      var working := Roll(budget, now);
      if working.sessions >= SESSIONS_PER_WINDOW || |sessions| >= RETAINED_SESSIONS {
        return RolledBack(QuotaExceeded);
      }
      working := working.(sessions := working.sessions + 1);
      if id in sessions {
        return RolledBack(KeyViolation);
      }
      sessions, budget := sessions[id := Session(expiry, 0)], working;
      return Committed;
    }

    /** Counts the event against its session before it charges the shared budget: when the charge is
        refused, the session's count is rolled back too. */
    method Submit(session: SessionId, text: string, id: Uuid, digest: Digest, now: Time) returns (verdict: Verdict)
      modifies this`events, this`sessions, this`budget
      ensures verdict == SubmitVerdict(old(Snapshot()), session, text, id, now)
      ensures Snapshot() == SubmitTables(old(Snapshot()), session, text, id, digest, now)
      ensures verdict.Committed? ==>
        && (text == "success" || text == "temporary_failure" || text == "permanent_failure")
        && session in old(sessions) && old(sessions)[session].expiresAt > now && old(sessions)[session].eventCount < 20
        && id !in old(events) && events - {id} == old(events) && id in events
        && (var scenario := if text == "success" then Success
                            else if text == "temporary_failure" then TemporaryFailure else PermanentFailure;
            events[id] == Event(Visitor(session), Simulated(scenario, id), digest, Simulator(scenario),
              Pending, 0, 0, now, None, None, now, None, Some(session)))
        && sessions.Keys == old(sessions).Keys && sessions - {session} == old(sessions) - {session}
        && sessions[session] == Session(old(sessions)[session].expiresAt, old(sessions)[session].eventCount + 1)
        && (old(budget).windowStart < HourOf(now) ==> budget == Budget(HourOf(now), 0, 1))
        && (HourOf(now) <= old(budget).windowStart ==> budget == old(budget).(admissions := old(budget).admissions + 1))
      ensures verdict.RolledBack? ==>
        verdict.refusal == (
          if text != "success" && text != "temporary_failure" && text != "permanent_failure" then WrongState
          else if session !in old(sessions) || old(sessions)[session].expiresAt <= now then InvalidSession
          else if old(sessions)[session].eventCount >= 20 then QuotaExceeded
          else if HourOf(now) <= old(budget).windowStart && old(budget).admissions >= 1000 then QuotaExceeded
          else KeyViolation)
      ensures verdict.RolledBack? ==> Snapshot() == old(Snapshot())
    {
      var scenario := ParseScenario(text);
      if scenario.None? {
        return RolledBack(WrongState);
      }
      var workingBudget, workingSessions := Roll(budget, now), sessions;
      if session in sessions && sessions[session].expiresAt > now && sessions[session].eventCount < EVENTS_PER_SESSION {
        var row := sessions[session];
        workingSessions := sessions[session := row.(eventCount := row.eventCount + 1)];
      } else if session in sessions && sessions[session].expiresAt > now {
        return RolledBack(QuotaExceeded);
      } else {
        return RolledBack(InvalidSession);
      }
      if workingBudget.admissions >= ADMISSIONS_PER_WINDOW {
        return RolledBack(QuotaExceeded);
      }
      workingBudget := workingBudget.(admissions := workingBudget.admissions + 1);
      var receipt := VisitorReceipt(session, scenario.value, id, digest);
      if id in events || KeyTaken(events, receipt.source, receipt.externalId) {
        return RolledBack(KeyViolation);
      }
      events := events[id := NewEvent(receipt, Some(session), now)];
      sessions, budget := workingSessions, workingBudget;
      return Committed;
    }

    method VisitorReplay(session: SessionId, id: Uuid, now: Time) returns (verdict: Verdict)
      modifies this`events, this`budget
      ensures verdict == VisitorReplayVerdict(old(Snapshot()), session, id, now)
      ensures Snapshot() == VisitorReplayTables(old(Snapshot()), session, id, now)
      ensures verdict.Committed? <==>
        && id in old(events) && old(events)[id].sandboxId == Some(session)
        && session in sessions && sessions[session].expiresAt > now
        && old(events)[id].state.DeadLettered? && old(events)[id].replayCount < 2
        && (old(budget).windowStart < HourOf(now) || old(budget).admissions < 1000)
      ensures verdict.Committed? ==>
        && events - {id} == old(events) - {id}
        && id in events && events[id].state.Pending? && events[id].attemptCount == 0
        && events[id].replayCount == old(events)[id].replayCount + 1 && events[id].nextAttemptAt == now
        && events[id].createdAt == old(events)[id].createdAt && events[id].deliveredAt == old(events)[id].deliveredAt
        && events[id].lease.None? && events[id].claimId.None?
        && (old(budget).windowStart < HourOf(now) ==> budget == Budget(HourOf(now), 0, 1))
        && (HourOf(now) <= old(budget).windowStart ==> budget == old(budget).(admissions := old(budget).admissions + 1))
      ensures verdict.RolledBack? ==>
        verdict.refusal == (
          if id !in old(events) || old(events)[id].sandboxId != Some(session)
             || session !in sessions || sessions[session].expiresAt <= now then MissingEvent
          else if !old(events)[id].state.DeadLettered? then WrongState
          else QuotaExceeded)
      ensures verdict.RolledBack? ==> Snapshot() == old(Snapshot())
    {
      var working := Roll(budget, now);
      if id !in events || events[id].sandboxId != Some(session)
         || session !in sessions || sessions[session].expiresAt <= now {
        return RolledBack(MissingEvent);
      }
      if events[id].state != DeadLettered {
        return RolledBack(WrongState);
      }
      if events[id].replayCount >= REPLAYS_PER_EVENT {
        return RolledBack(QuotaExceeded);
      }
      if working.admissions >= ADMISSIONS_PER_WINDOW {
        return RolledBack(QuotaExceeded);
      }
      working := working.(admissions := working.admissions + 1);
      events := events[id := events[id].(
        state := Pending, attemptCount := 0, replayCount := events[id].replayCount + 1,
        nextAttemptAt := now, lease := None, claimId := None)];
      budget := working;
      return Committed;
    }

    // ---------------------------------------------------------------- cleanup

    /** ORDER BY id LIMIT 1 over some rows. */
    method Smallest(rows: set<Uuid>) returns (least: Uuid)
      requires rows != {}
      ensures least in rows && forall i :: i in rows ==> least <= i
    {
      least :| least in rows;
      var rest := rows - {least};
      while rest != {}
        invariant rest <= rows && least in rows
        invariant forall i :: i in rows && i !in rest ==> least <= i
        decreases rest
      {
        var i :| i in rest;
        if i < least {
          least := i;
        }
        rest := rest - {i};
      }
    }

    /** ORDER BY id LIMIT 100 over some rows, collected one by one. */
    method FirstHundred(rows: set<Uuid>) returns (ids: seq<Uuid>)
      ensures Members(ids) <= rows && |Members(ids)| == |ids| <= CLEANUP_LIMIT
      ensures |ids| < CLEANUP_LIMIT ==> Members(ids) == rows
      ensures forall d, x :: d in Members(ids) && x in rows - Members(ids) ==> d < x
    {
      var rest := rows;
      ids := [];
      while rest != {} && |ids| < CLEANUP_LIMIT
        invariant |Members(ids)| == |ids| <= CLEANUP_LIMIT
        invariant Members(ids) !! rest && Members(ids) + rest == rows
        invariant forall d, x :: d in Members(ids) && x in rest ==> d < x
        decreases rest
      {
        var least := Smallest(rest);
        MemberAppended(ids, least);
        ids, rest := ids + [least], rest - {least};
      }
    }

    /** The identifiers a cleanup collects, in order, up to a hundred. */
    method SelectDoomed(now: Time, locked: set<Uuid>) returns (ids: seq<Uuid>)
      ensures FirstDeletable(Snapshot(), now, locked, Members(ids))
    {
      ids := FirstHundred(Deletable(Snapshot(), now, locked));
    }

    /** A LIMIT 100 without ORDER BY: any abandoned sessions will do. */
    method SelectAbandoned(doomed: set<Uuid>, now: Time) returns (dropped: set<SessionId>)
      ensures SomeAbandoned(Snapshot(), doomed, now, dropped)
    {
      var rest := Abandoned(Snapshot(), doomed, now);
      dropped := {};
      while rest != {} && |dropped| < CLEANUP_LIMIT
        invariant dropped !! rest && dropped + rest == Abandoned(Snapshot(), doomed, now)
        invariant |dropped| <= CLEANUP_LIMIT
        decreases rest
      {
        var s :| s in rest;
        dropped, rest := dropped + {s}, rest - {s};
      }
    }

    method Cleanup(now: Time, locked: set<Uuid>)
      modifies this
      ensures exists doomed, dropped ::
        && FirstDeletable(old(Snapshot()), now, locked, doomed)
        && SomeAbandoned(old(Snapshot()), doomed, now, dropped)
        && Snapshot() == CleanupTables(old(Snapshot()), doomed, dropped, now)
      ensures events.Keys <= old(events).Keys && forall i :: i in events ==> events[i] == old(events)[i]
      ensures attempts == map a | a in old(attempts)
        && !(old(attempts)[a].eventId in old(events) && old(attempts)[a].eventId !in events) :: old(attempts)[a]
      ensures sessions.Keys <= old(sessions).Keys && forall s :: s in sessions ==> sessions[s] == old(sessions)[s]
      ensures budget == if old(budget).windowStart < HourOf(now) then Budget(HourOf(now), 0, 0) else old(budget)
    {
      ghost var before := Snapshot();
      var ids := SelectDoomed(now, locked);
      var doomed := Members(ids);
      var dropped := SelectAbandoned(doomed, now);
      budget := Roll(budget, now);
      attempts := attempts - AttemptsOf(attempts, doomed);
      events := events - doomed;
      sessions := sessions - dropped;
      assert Snapshot() == CleanupTables(before, doomed, dropped, now);
    }
  }

  // ---------------------------------------------------------------- worker

  datatype RunResult = Idle | Processed | RecordFailed(why: RecordResult)

  /** What becomes of a claim: nothing if there is none, else its attempt is recorded or refused. */
  predicate RanOnce(middle: Tables, claimed: Option<ClaimedEvent>, x: Exchange, after: Tables, result: RunResult) {
    match claimed
    case None => result == Idle && after == middle
    case Some(c) =>
      && after == RecordTables(middle, c, Send(c, x))
      && result == match RecordOutcome(middle, c, Send(c, x))
                   case Recorded => Processed
                   case why => RecordFailed(why)
  }

  class Worker {
    const store: Database
    const leaseLength: int

    constructor (store: Database, leaseLength: int)
      requires leaseLength > 0
      ensures this.store == store && this.leaseLength == leaseLength
    {
      this.store := store;
      this.leaseLength := leaseLength;
    }

    /** Claim, send, record. Left undisturbed it never loses its claim between the two statements. */
    method RunOnce(now: Time, claimId: Uuid, locked: set<Uuid>, x: Exchange) returns (result: RunResult)
      modifies store
      ensures exists middle, claimed ::
        && ClaimMay(old(store.Snapshot()), now, leaseLength, claimId, locked, middle, claimed)
        && RanOnce(middle, claimed, x, store.Snapshot(), result)
      ensures result != RecordFailed(ClaimReplaced)
      ensures result == Processed <==> |store.attempts| == |old(store.attempts)| + 1
      ensures result != Processed ==> store.attempts == old(store.attempts)
      ensures result == Idle <==>
        forall i :: i in old(store.events) && i !in locked ==> !Ready(old(store.sessions), old(store.events)[i], now)
    {
      var claimed := store.Claim(now, leaseLength, claimId, locked);
      ghost var middle := store.Snapshot();
      if claimed.None? {
        return Idle;
      }
      var attempt := Send(claimed.value, x);
      var recorded := store.Record(claimed.value, attempt);
      if recorded != Recorded {
        return RecordFailed(recorded);
      }
      return Processed;
    }
  }
}
