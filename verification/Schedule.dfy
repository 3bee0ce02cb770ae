/** The backoff schedule against the age limit, over runs: an event that is looked after in time gets
    all eight attempts. */
module Schedule {
  import opened Basics
  import opened Tables
  import opened Policy
  import opened Queue
  import opened World
  import opened Invariant
  import opened Guarantees
  import opened Retention

  /** How long after its due time an attempt may still be unrecorded, lost leases and recoveries included. */
  const SLACK: int := 6_096 * SECOND

  /** In every world of the run event `i` is finished, gone, or overdue by less than the slack. */
  ghost predicate Attended(w: World, steps: seq<Step>, i: Uuid)
    requires Feasible(w, steps)
    decreases |steps|
  {
    && (i in w.db.events && !w.db.events[i].state.Delivered? && !w.db.events[i].state.DeadLettered?
        ==> w.clock < w.db.events[i].nextAttemptAt + 6_096 * SECOND)
    && (steps != [] ==> Attended(Apply(w, steps[0]), steps[1..], i))
  }

  /** Stored attempt `n` of the first generation of event `i` was final: terminal, or the eighth. */
  predicate FinalAttempt(r: AttemptRow, i: Uuid, n: int) {
    About(r, i, 0, n) && (r.outcome.TerminalHttp? || n == 8)
  }

  predicate Settled(attempts: map<Uuid, AttemptRow>, i: Uuid, e: Event) {
    exists a :: a in attempts && FinalAttempt(attempts[a], i, e.attemptCount)
  }

  /** After `k` recorded attempts the next one is due at most `k` slacks and jittered waits from creation. */
  predicate DueInTime(e: Event, k: int) {
    0 <= k <= 7 && 5 * (e.nextAttemptAt - e.createdAt) <= 5 * k * SLACK + 6 * TotalDelay(k)
  }

  /** A row of the first generation is on schedule, or it is finished for a reason other than its age. */
  predicate OnSchedule(attempts: map<Uuid, AttemptRow>, i: Uuid, e: Event) {
    e.replayCount == 0 ==>
      && (!Terminal(e) ==> DueInTime(e, Most(e)))
      && (e.state.DeadLettered? ==> Settled(attempts, i, e))
  }

  predicate EventOnSchedule(t: Tables, i: Uuid) {
    i in t.events ==> OnSchedule(t.attempts, i, t.events[i])
  }

  /** Eight slacks and all seven waits fit into a day. */
  lemma DayIsLongEnough(e: Event, k: int, clock: Time)
    requires DueInTime(e, k) && clock < e.nextAttemptAt + SLACK
    ensures clock < e.createdAt + DAY
  {
    DelaysAccumulate(k);
    AllDelays();
    assert 5 * k * SLACK <= 35 * SLACK;
  }

  lemma NotAged(w: World, i: Uuid)
    requires Reachable(w) && i in w.db.events && w.db.events[i].replayCount == 0 && !Terminal(w.db.events[i])
    requires OnSchedule(w.db.attempts, i, w.db.events[i])
    requires w.clock < w.db.events[i].nextAttemptAt + SLACK
    ensures w.clock < w.db.events[i].createdAt + DAY
  {
    DayIsLongEnough(w.db.events[i], Most(w.db.events[i]), w.clock);
  }

  lemma ClaimOnSchedule(attempts: map<Uuid, AttemptRow>, s: Step, before: map<Uuid, Event>, after: map<Uuid, Event>,
                        i: Uuid)
    requires ClaimStep(s, before, after) && i in before && OnSchedule(attempts, i, before[i])
    requires before[i].replayCount == 0 && !Terminal(before[i]) ==> s.now < before[i].createdAt + DAY
    ensures OnSchedule(attempts, i, after[i])
  {
  }

  lemma LatestDue(claimed: ClaimedEvent, x: Exchange, from: Time, clock: Time)
    requires 1 <= claimed.attemptNumber <= 7 && Timely(claimed, x, from, clock)
    ensures Send(claimed, x).nextAttemptAt <= clock + Wait(claimed.attemptNumber, x.word)
  {
    WaitWithinTwentyPercent(claimed.attemptNumber, x.word);
  }

  lemma NextDue(e: Event, claimed: ClaimedEvent, x: Exchange, from: Time, clock: Time)
    requires 1 <= e.attemptCount <= 7 && DueInTime(e, e.attemptCount - 1)
    requires claimed.attemptNumber == e.attemptCount && claimed.createdAt == e.createdAt
    requires Timely(claimed, x, from, clock) && clock < e.nextAttemptAt + SLACK
    ensures var n := e.attemptCount;
      5 * (Send(claimed, x).nextAttemptAt - e.createdAt) <= 5 * n * SLACK + 6 * TotalDelay(n)
  {
    LatestDue(claimed, x, from, clock);
    DueSums(e.attemptCount, e.nextAttemptAt - e.createdAt, Wait(e.attemptCount, x.word), x.word);
  }

  lemma DueSums(n: nat, due: int, wait: int, word: Word16)
    requires 1 <= n <= 7 && wait == Wait(n, word)
    requires 5 * due <= 5 * (n - 1) * SLACK + 6 * TotalDelay(n - 1)
    ensures 5 * (due + SLACK + wait) <= 5 * n * SLACK + 6 * TotalDelay(n)
  {
    WaitWithinTwentyPercent(n, word);
    assert TotalDelay(n) == TotalDelay(n - 1) + DELAYS[n];
  }

  /** An attempt that ends within the slack schedules the next one in time, or is final. */
  lemma NextInTime(e: Event, claimed: ClaimedEvent, x: Exchange, from: Time, clock: Time)
    requires e.state.Delivering? && 1 <= e.attemptCount <= 8 && DueInTime(e, e.attemptCount - 1)
    requires claimed.attemptNumber == e.attemptCount && claimed.createdAt == e.createdAt
    requires Timely(claimed, x, from, clock) && clock < e.nextAttemptAt + SLACK
    ensures var a := Send(claimed, x);
      var f := Completed(e, claimed, a);
      && (f.state.RetryScheduled? ==> DueInTime(f, f.attemptCount))
      && (f.state.DeadLettered? ==> a.outcome.TerminalHttp? || f.attemptCount == 8)
  {
    DayIsLongEnough(e, e.attemptCount - 1, clock);
    if e.attemptCount <= 7 {
      NextDue(e, claimed, x, from, clock);
    }
  }

  lemma SettledKept(attempts: map<Uuid, AttemptRow>, after: map<Uuid, AttemptRow>, i: Uuid, e: Event)
    requires OnSchedule(attempts, i, e)
    requires forall a :: a in attempts && attempts[a].eventId == i ==> a in after && after[a] == attempts[a]
    ensures OnSchedule(after, i, e)
  {
    if Settled(attempts, i, e) {
      var a :| a in attempts && FinalAttempt(attempts[a], i, e.attemptCount);
      assert a in after && FinalAttempt(after[a], i, e.attemptCount);
    }
  }

  /** The row of an attended event after the record of its own attempt. */
  lemma RecordedRow(attempts: map<Uuid, AttemptRow>, i: Uuid, e: Event, claimed: ClaimedEvent, x: Exchange,
                    from: Time, clock: Time)
    requires Shape(e) && e.state.Delivering? && e.claimId.Some? && OnSchedule(attempts, i, e)
    requires claimed == ClaimedOf(i, e, e.claimId.value)
    requires Timely(claimed, x, from, clock) && clock < e.nextAttemptAt + SLACK
    ensures var a := Send(claimed, x);
      OnSchedule(attempts[a.id := RowOf(claimed, a)], i, Completed(e, claimed, a))
  {
    if e.replayCount == 0 {
      NextInTime(e, claimed, x, from, clock);
      var a := Send(claimed, x);
      var after := attempts[a.id := RowOf(claimed, a)];
      if Completed(e, claimed, a).state.DeadLettered? {
        assert FinalAttempt(after[a.id], i, e.attemptCount);
      }
    }
  }

  /** The record of an attempt on event `i` itself. */
  lemma RecordOnSchedule(w: World, c: Uuid, x: Exchange, i: Uuid)
    requires Reachable(w) && Enabled(w, Step.Record(c, x)) && w.claims[c].claimed.id == i
    requires RecordOutcome(w.db, w.claims[c].claimed, AttemptFor(w, c, x)).Recorded?
    requires OnSchedule(w.db.attempts, i, w.db.events[i]) && w.clock < w.db.events[i].nextAttemptAt + SLACK
    ensures EventOnSchedule(RecordTables(w.db, w.claims[c].claimed, AttemptFor(w, c, x)), i)
  {
    FenceIsExact(w, c, x);
    RowFacts(w, i);
    RecordedRow(w.db.attempts, i, w.db.events[i], w.claims[c].claimed, x, w.claims[c].at, w.clock);
  }

  lemma OtherRecordOnSchedule(w: World, c: Uuid, x: Exchange, i: Uuid)
    requires Enabled(w, Step.Record(c, x)) && i in w.db.events && OnSchedule(w.db.attempts, i, w.db.events[i])
    requires w.claims[c].claimed.id != i
      || !RecordOutcome(w.db, w.claims[c].claimed, AttemptFor(w, c, x)).Recorded?
    ensures EventOnSchedule(Apply(w, Step.Record(c, x)).db, i)
  {
    SettledKept(w.db.attempts, Apply(w, Step.Record(c, x)).db.attempts, i, w.db.events[i]);
  }

  lemma CleanupOnSchedule(w: World, s: Step, i: Uuid)
    requires Enabled(w, s) && s.Cleanup? && i in w.db.events && OnSchedule(w.db.attempts, i, w.db.events[i])
    ensures EventOnSchedule(Apply(w, s).db, i)
  {
    if i !in s.doomed {
      SettledKept(w.db.attempts, Apply(w, s).db.attempts, i, w.db.events[i]);
    }
  }

  lemma ReplayOnSchedule(w: World, s: Step, i: Uuid)
    requires Enabled(w, s) && (s.OperatorReplay? || s.VisitorReplay?)
    requires i in w.db.events && OnSchedule(w.db.attempts, i, w.db.events[i])
    ensures EventOnSchedule(Apply(w, s).db, i)
  {
    if s.OperatorReplay? {
      ReplayTransitions(w, s, i);
    } else {
      VisitorReplayTransitions(w, s, i);
    }
  }

  lemma InsertOnSchedule(w: World, s: Step, i: Uuid)
    requires Enabled(w, s) && (s.Accept? || s.Submit?)
    requires i in w.db.events && i in w.minted && OnSchedule(w.db.attempts, i, w.db.events[i])
    ensures EventOnSchedule(Apply(w, s).db, i)
  {
    if i in Apply(w, s).db.events {
      InsertTransitions(w, s, i);
    }
  }

  /** One step of anyone keeps an attended event on schedule. */
  lemma StepOnSchedule(w: World, s: Step, i: Uuid)
    requires Reachable(w) && Enabled(w, s) && i in w.minted && EventOnSchedule(w.db, i)
    requires i in w.db.events && !Terminal(w.db.events[i]) ==> w.clock < w.db.events[i].nextAttemptAt + SLACK
    ensures EventOnSchedule(Apply(w, s).db, i)
  {
    if i !in w.db.events {
      StepNeverRevives(w, s, i);
    } else if s.Claim? {
      if w.db.events[i].replayCount == 0 && !Terminal(w.db.events[i]) {
        NotAged(w, i);
      }
      ClaimStepEffect(w, s);
      ClaimOnSchedule(w.db.attempts, s, w.db.events, Apply(w, s).db.events, i);
    } else if s.Record? {
      if w.claims[s.claimId].claimed.id == i
         && RecordOutcome(w.db, w.claims[s.claimId].claimed, AttemptFor(w, s.claimId, s.exchange)).Recorded? {
        RecordOnSchedule(w, s.claimId, s.exchange, i);
      } else {
        OtherRecordOnSchedule(w, s.claimId, s.exchange, i);
      }
    } else if s.Cleanup? {
      CleanupOnSchedule(w, s, i);
    } else if s.OperatorReplay? || s.VisitorReplay? {
      ReplayOnSchedule(w, s, i);
    } else if s.Accept? || s.Submit? {
      InsertOnSchedule(w, s, i);
    }
  }

  lemma {:induction false} RunOnSchedule(w: World, steps: seq<Step>, i: Uuid)
    requires Reachable(w) && Feasible(w, steps) && i in w.minted && EventOnSchedule(w.db, i)
    requires Attended(w, steps, i)
    ensures Reachable(Run(w, steps)) && EventOnSchedule(Run(w, steps).db, i)
    ensures Attended(Run(w, steps), [], i)
    decreases |steps|
  {
    if steps == [] {
    } else {
      var next := Apply(w, steps[0]);
      StepOnSchedule(w, steps[0], i);
      ReachableStep(w, steps[0]);
      StepMints(w, steps[0]);
      RunOnSchedule(next, steps[1..], i);
    }
  }

  /** The age limit never costs an attended event one of its eight attempts. Along any run in which a
      freshly received event is always overdue by less than 6 096 s while it is unfinished, whichever
      workers claim, lose, recover or retire rows: it never reaches the age limit unfinished, and if it
      ends up as a dead letter then a terminal response or its eighth attempt is on record. */
  lemma AgeNeverPreemptsEighth(w: World, steps: seq<Step>, i: Uuid)
    requires Reachable(w) && Feasible(w, steps) && i in w.db.events
    requires w.db.events[i].state.Pending? && w.db.events[i].replayCount == 0
    requires w.db.events[i].nextAttemptAt == w.db.events[i].createdAt
    requires Attended(w, steps, i)
    ensures var end := Run(w, steps);
      i in end.db.events && end.db.events[i].replayCount == 0 ==>
        && (end.db.events[i].state.Delivered? || end.db.events[i].state.DeadLettered?
            || end.clock < end.db.events[i].createdAt + 24 * HOUR)
        && (end.db.events[i].state.DeadLettered? ==> Settled(end.db.attempts, i, end.db.events[i]))
  {
    FreshOnSchedule(w, i);
    RunOnSchedule(w, steps, i);
    var end := Run(w, steps);
    if i in end.db.events && end.db.events[i].replayCount == 0 && !Terminal(end.db.events[i]) {
      NotAged(end, i);
    }
  }

  lemma FreshOnSchedule(w: World, i: Uuid)
    requires Reachable(w) && i in w.db.events && w.db.events[i].state.Pending?
    requires w.db.events[i].nextAttemptAt == w.db.events[i].createdAt
    ensures i in w.minted && EventOnSchedule(w.db, i)
  {
    RowFacts(w, i);
    IdentifierFacts(w);
  }
}
