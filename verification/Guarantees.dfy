/** Safety over whole runs: what is true in every world any interleaving of steps can reach. */
module Guarantees {
  import opened Basics
  import opened Tables
  import opened Policy
  import opened Queue
  import opened Sandbox
  import opened World
  import opened Invariant
  import opened Quota
  import ClaimKeeps
  import RecordKeeps
  import OtherKeeps

  lemma StepKeeps(w: World, s: Step)
    requires Inv(w) && Enabled(w, s)
    ensures Inv(Apply(w, s))
  {
    match s
    case Tick(to) => OtherKeeps.TickKeeps(w, to);
    case Accept(receipt) => OtherKeeps.AcceptKeeps(w, receipt);
    case Claim(now, claimId, locked, retired, picked) =>
      ClaimKeeps.SelectionsQualify(w, now, claimId, locked, retired, picked);
      ClaimKeeps.ClaimKeeps(w, now, claimId, retired, picked);
    case Record(claimId, exchange) => RecordKeeps.RecordKeeps(w, claimId, exchange);
    case OperatorReplay(id, key) => OtherKeeps.OperatorReplayKeeps(w, id, key);
    case Create(session, issuedAt) => OtherKeeps.CreateKeeps(w, session, issuedAt);
    case Submit(session, scenario, id, digest) => OtherKeeps.SubmitKeeps(w, session, scenario, id, digest);
    case VisitorReplay(session, id) => OtherKeeps.VisitorReplayKeeps(w, session, id);
    case Cleanup(locked, doomed, dropped) => OtherKeeps.CleanupKeeps(w, doomed, dropped, Apply(w, s));
  }

  lemma {:induction false} RunKeeps(w: World, steps: seq<Step>)
    requires Inv(w) && Feasible(w, steps)
    ensures Inv(Run(w, steps))
    decreases |steps|
  {
    if steps == [] {
    } else {
      StepKeeps(w, steps[0]);
      RunKeeps(Apply(w, steps[0]), steps[1..]);
    }
  }

  lemma InitialInv(w: World)
    requires Initial(w)
    ensures Inv(w)
  {
    HourOfMonotone(w.clock, w.clock);
    EmptyBooksBalance(HourOf(w.clock), w.db);
  }

  ghost predicate Reachable(w: World) {
    exists start, steps :: Initial(start) && Feasible(start, steps) && Run(start, steps) == w
  }

  lemma {:induction false} RunAppend(start: World, steps: seq<Step>, s: Step)
    requires Feasible(start, steps) && Enabled(Run(start, steps), s)
    ensures Feasible(start, steps + [s]) && Run(start, steps + [s]) == Apply(Run(start, steps), s)
    decreases |steps|
  {
    if steps == [] {
      assert [] + [s] == [s];
    } else {
      assert (steps + [s])[1..] == steps[1..] + [s];
      RunAppend(Apply(start, steps[0]), steps[1..], s);
    }
  }

  lemma ReachableStep(w: World, s: Step)
    requires Reachable(w) && Enabled(w, s)
    ensures Reachable(Apply(w, s))
  {
    var start, steps :| Initial(start) && Feasible(start, steps) && Run(start, steps) == w;
    RunAppend(start, steps, s);
  }

  /** Every reachable world satisfies the invariant. */
  lemma ReachableInv(w: World)
    requires Reachable(w)
    ensures Inv(w)
  {
    var start, steps :| Initial(start) && Feasible(start, steps) && Run(start, steps) == w;
    InitialInv(start);
    RunKeeps(start, steps);
  }

  // ---------------------------------------------------------------- facts about one row, claim or life

  lemma RowFacts(w: World, i: Uuid)
    requires Reachable(w) && i in w.db.events
    ensures var e := w.db.events[i];
      && Shape(e) && Ledger(w.db.attempts, i, e) && VisitorRow(w.db.sessions, i, e, w.clock)
      && i in w.lives && Tracks(e, w.lives[i])
      && (e.claimId.Some? ==> e.claimId.value in w.claims && HeldBy(i, e, e.claimId.value, w.claims[e.claimId.value]))
  {
    ReachableInv(w);
  }

  lemma ClaimFacts(w: World, c: Uuid)
    requires Reachable(w) && c in w.claims
    ensures var k := w.claims[c];
      && k.claimed.claimId == c && k.at <= w.clock && k.at < k.claimed.createdAt + DAY
      && 1 <= k.claimed.attemptNumber <= 8
      && k.claimed.id in w.lives && k.claimed.createdAt == w.lives[k.claimed.id].createdAt
      && (k.recorded ==> Latest(w.claims, c))
      && (LiveClaim(w, c) ==> Holds(w.db.events, k.claimed))
      && (k.claimed.id in w.db.events ==> Behind(k, w.db.events[k.claimed.id], w.db.attempts))
  {
    ReachableInv(w);
  }

  lemma LifeFacts(w: World, i: Uuid)
    requires Reachable(w) && i in w.lives
    ensures LifeBounds(w.lives[i], w.clock) && |ClaimsOn(w.claims, i)| == w.lives[i].firsts + w.lives[i].recovered
  {
    ReachableInv(w);
  }

  lemma AttemptFacts(w: World, a: Uuid)
    requires Reachable(w) && a in w.db.attempts
    ensures AttemptChecks(w.db.attempts[a]) && w.db.attempts[a].eventId in w.db.events
    ensures AsPromised(w.db.events[w.db.attempts[a].eventId], w.db.attempts[a])
  {
    ReachableInv(w);
  }

  lemma IdentifierFacts(w: World)
    requires Reachable(w)
    ensures Minted(w) && OpenUnused(w.claims, w.db.attempts)
  {
    ReachableInv(w);
  }

  /** No identifier the environment can still supply is in use, save an open claim's own. */
  lemma AttemptIdUnused(w: World, c: Uuid, x: Exchange)
    requires Reachable(w) && Enabled(w, Step.Record(c, x)) && !w.claims[c].recorded
    ensures AttemptFor(w, c, x).id !in w.db.attempts
  {
    IdentifierFacts(w);
    ClaimFacts(w, c);
  }

  // ---------------------------------------------------------------- tables

  lemma UniquenessFacts(w: World)
    requires Reachable(w)
    ensures UniqueKeys(w.db.events) && UniqueAttempts(w.db.attempts) && BudgetChecks(w.db.budget)
  {
    ReachableInv(w);
  }

  /** No step ever breaks a CHECK, UNIQUE or REFERENCES constraint. */
  lemma KeysAlwaysUnique(w: World)
    requires Reachable(w)
    ensures forall i, j :: i in w.db.events && j in w.db.events && i != j ==>
      w.db.events[i].source != w.db.events[j].source || w.db.events[i].externalId != w.db.events[j].externalId
    ensures forall a, b :: a in w.db.attempts && b in w.db.attempts && a != b ==>
      || w.db.attempts[a].eventId != w.db.attempts[b].eventId
      || w.db.attempts[a].replayNumber != w.db.attempts[b].replayNumber
      || w.db.attempts[a].attemptNumber != w.db.attempts[b].attemptNumber
  {
    UniquenessFacts(w);
    forall a, b | a in w.db.attempts && b in w.db.attempts && a != b
      ensures !About(w.db.attempts[a], w.db.attempts[b].eventId, w.db.attempts[b].replayNumber,
                     w.db.attempts[b].attemptNumber)
    {
    }
  }

  lemma ConstraintsAlwaysHold(w: World)
    requires Reachable(w)
    ensures Constraints(w.db)
    ensures forall i :: i in w.db.events ==>
      var e := w.db.events[i];
      && 0 <= e.attemptCount <= 8 && 0 <= e.replayCount <= 16
      && (e.state.Delivered? ==> e.deliveredAt.Some?)
      && (e.state.Delivering? <==> e.claimId.Some?) && (e.state.Delivering? <==> e.lease.Some?)
      && (e.sandboxId.Some? ==> e.sandboxId.value in w.db.sessions)
    ensures forall a :: a in w.db.attempts ==>
      var r := w.db.attempts[a];
      && 0 <= r.replayNumber <= 16 && 1 <= r.attemptNumber <= 8 && r.startedAt <= r.finishedAt
      && (r.statusCode.Some? ==> 100 <= r.statusCode.value <= 599)
      && (r.errorCode.Some? ==> 1 <= |r.errorCode.value| <= 64)
      && (r.statusCode.Some? <==> r.errorCode.None?)
      && r.eventId in w.db.events
    ensures forall s :: s in w.db.sessions ==> 0 <= w.db.sessions[s].eventCount <= 20
    ensures 0 <= w.db.budget.sessions <= 100 && 0 <= w.db.budget.admissions <= 1000
  {
    UniquenessFacts(w);
    SessionFacts(w);
    forall i | i in w.db.events
      ensures EventChecks(w.db.events[i])
      ensures w.db.events[i].sandboxId.Some? ==> w.db.events[i].sandboxId.value in w.db.sessions
    {
      RowFacts(w, i);
    }
    forall a | a in w.db.attempts
      ensures AttemptChecks(w.db.attempts[a]) && w.db.attempts[a].eventId in w.db.events
    {
      AttemptFacts(w, a);
    }
  }

  /** An event's counters and delivery time always follow its state. */
  lemma CountersFollowState(w: World, i: Uuid)
    requires Reachable(w) && i in w.db.events
    ensures var e := w.db.events[i];
      && (e.state.Pending? ==> e.attemptCount == 0)
      && (e.state.RetryScheduled? ==> 1 <= e.attemptCount <= 7)
      && (e.state.Delivering? || e.state.Delivered? ==> 1 <= e.attemptCount <= 8)
      && (e.state.Delivered? <==> e.deliveredAt.Some?)
  {
    RowFacts(w, i);
  }

  // ---------------------------------------------------------------- attempt ledger

  /** The highest attempt number stored for generation `g`, searching down from `n`. */
  ghost function Depth(attempts: map<Uuid, AttemptRow>, i: Uuid, g: int, n: nat): (k: nat)
    ensures k <= n
    ensures k > 0 ==> Has(attempts, i, g, k)
    ensures forall m :: k < m <= n ==> !Has(attempts, i, g, m)
  {
    if n == 0 || Has(attempts, i, g, n) then n else Depth(attempts, i, g, n - 1)
  }

  /** The attempts stored for any generation of any event are numbered 1..k without a gap, k at most 8,
      and for the current generation k follows from the event's state and attempt count. */
  lemma AttemptLedger(w: World, i: Uuid, g: int)
    requires Reachable(w) && i in w.db.events
    ensures var e, k := w.db.events[i], Depth(w.db.attempts, i, g, 8);
      && k <= 8
      && (forall n :: Has(w.db.attempts, i, g, n) <==> 1 <= n <= k)
      && (g == e.replayCount ==>
            match e.state
            case Pending => k == 0
            case Delivering => k == e.attemptCount - 1
            case RetryScheduled => k == e.attemptCount
            case Delivered => k == e.attemptCount
            case DeadLettered => k == e.attemptCount || k == e.attemptCount - 1)
  {
    RowFacts(w, i);
    LedgerDepth(w.db.attempts, i, w.db.events[i], g);
  }

  lemma LedgerDepth(attempts: map<Uuid, AttemptRow>, i: Uuid, e: Event, g: int)
    requires Shape(e) && Ledger(attempts, i, e)
    ensures var k := Depth(attempts, i, g, 8);
      && (forall n :: Has(attempts, i, g, n) <==> 1 <= n <= k)
      && (g == e.replayCount ==> Least(e) <= k <= Most(e) || (k == 0 && Least(e) < 0))
  {
    if g == e.replayCount && Least(e) >= 1 {
      assert Has(attempts, i, g, Least(e));
    }
  }

  // ---------------------------------------------------------------- fencing

  /** A claim that has not been recorded and whose lease is still running. */
  predicate LiveClaim(w: World, c: Uuid) {
    c in w.claims && !w.claims[c].recorded && w.claims[c].at + 30 * SECOND > w.clock
  }

  /** At most one live claim per event; it holds the row and carries exactly the row's numbers. */
  lemma OneLiveClaim(w: World, c: Uuid, d: Uuid)
    requires Reachable(w) && LiveClaim(w, c)
    ensures Holds(w.db.events, w.claims[c].claimed)
    ensures w.claims[c].claimed == ClaimedOf(w.claims[c].claimed.id, w.db.events[w.claims[c].claimed.id], c)
    ensures w.db.events[w.claims[c].claimed.id].lease == Some(w.claims[c].at + 30 * SECOND)
    ensures LiveClaim(w, d) && w.claims[d].claimed.id == w.claims[c].claimed.id ==> d == c
  {
    ClaimFacts(w, c);
    RowFacts(w, w.claims[c].claimed.id);
    if d in w.claims {
      ClaimFacts(w, d);
    }
  }

  /** Whoever passes the fence, even long after its lease, holds exactly the row's numbers; everyone
      else leaves every table as it was. */
  lemma FenceIsExact(w: World, c: Uuid, x: Exchange)
    requires Reachable(w) && Enabled(w, Step.Record(c, x))
    ensures var k := w.claims[c];
      if Holds(w.db.events, k.claimed)
      then !k.recorded && k.claimed == ClaimedOf(k.claimed.id, w.db.events[k.claimed.id], c)
      else Apply(w, Step.Record(c, x)).db == w.db && Apply(w, Step.Record(c, x)).claims == w.claims
  {
    ClaimFacts(w, c);
    if Holds(w.db.events, w.claims[c].claimed) {
      RowFacts(w, w.claims[c].claimed.id);
    }
  }

  /** Of all claims ever issued for one attempt of one generation at most one is recorded, every other
      one is at least a lease older, and the attempt is stored for as long as its event is. */
  lemma RecordedOnce(w: World, c: Uuid, d: Uuid)
    requires Reachable(w) && c in w.claims && d in w.claims && c != d
    requires SameAttempt(w.claims[c], w.claims[d]) && w.claims[c].recorded
    ensures !w.claims[d].recorded && w.claims[d].at + 30 * SECOND <= w.claims[c].at
    ensures w.claims[c].claimed.id in w.db.events ==>
      Has(w.db.attempts, w.claims[c].claimed.id, w.claims[c].claimed.replayNumber, w.claims[c].claimed.attemptNumber)
  {
    ClaimFacts(w, c);
    ClaimFacts(w, d);
  }

  lemma SpacingFacts(w: World)
    requires Reachable(w)
    ensures ClaimsSpaced(w.claims)
  {
    ReachableInv(w);
  }

  /** An attempt is only ever sent again after a whole lease in which the earlier operation did not
      record it, and that operation then never will. */
  lemma ResendNeedsLapse(w: World, first: Uuid, again: Uuid)
    requires Reachable(w) && first in w.claims && again in w.claims && first != again
    requires SameAttempt(w.claims[first], w.claims[again]) && w.claims[first].at <= w.claims[again].at
    ensures w.claims[first].at + 30 * SECOND <= w.claims[again].at
    ensures !w.claims[first].recorded && !Holds(w.db.events, w.claims[first].claimed)
  {
    SpacingFacts(w);
    ClaimFacts(w, first);
    if Holds(w.db.events, w.claims[first].claimed) {
      HolderIsLatest(w, w.claims[first].claimed.id);
    }
  }

  lemma HolderIsLatest(w: World, i: Uuid)
    requires Reachable(w) && i in w.db.events && w.db.events[i].claimId.Some?
    ensures w.db.events[i].claimId.value in w.claims && Latest(w.claims, w.db.events[i].claimId.value)
  {
    ReachableInv(w);
  }

  // ---------------------------------------------------------------- recording

  predicate StatusInRange(a: Attempt) {
    a.statusCode.Some? ==> 100 <= a.statusCode.value <= 599
  }

  /** A record goes through exactly when the claim still holds its row and the status, if there is
      one, is within 100..599: no other constraint can ever fire. */
  lemma RecordGoesThroughIff(w: World, c: Uuid, x: Exchange)
    requires Reachable(w) && Enabled(w, Step.Record(c, x))
    ensures var k := w.claims[c].claimed;
      var a := AttemptFor(w, c, x);
      && (RecordOutcome(w.db, k, a).Recorded? <==> Holds(w.db.events, k) && StatusInRange(a))
      && (RecordOutcome(w.db, k, a).ConstraintRefused? <==> Holds(w.db.events, k) && !StatusInRange(a))
  {
    var k := w.claims[c];
    ClaimFacts(w, c);
    SendFacts(k.claimed, x, k.at, w.clock);
    FenceIsExact(w, c, x);
    if Holds(w.db.events, k.claimed) {
      RowFacts(w, k.claimed.id);
      AttemptIdUnused(w, c, x);
      assert !Has(w.db.attempts, k.claimed.id, k.claimed.replayNumber, k.claimed.attemptNumber);
    }
  }

  /** Twenty seconds is inside the lease: an operation that finishes within its deadline is never
      refused because another worker replaced its claim. */
  lemma PunctualRecordIsNeverReplaced(w: World, c: Uuid, x: Exchange)
    requires Reachable(w) && Enabled(w, Step.Record(c, x))
    requires !w.claims[c].recorded && w.clock <= w.claims[c].at + 20 * SECOND
    ensures !RecordOutcome(w.db, w.claims[c].claimed, AttemptFor(w, c, x)).ClaimReplaced?
    ensures StatusInRange(AttemptFor(w, c, x)) ==> Apply(w, Step.Record(c, x)).claims[c].recorded
  {
    OneLiveClaim(w, c, c);
    RecordGoesThroughIff(w, c, x);
  }

  /** An answered, terminal response dead-letters its event if and only if its status is within
      100..599; any other status violates a CHECK and the whole transaction is rolled back. */
  lemma TerminalResponseSettlesIff(w: World, c: Uuid, x: Exchange)
    requires Reachable(w) && Enabled(w, Step.Record(c, x))
    requires Holds(w.db.events, w.claims[c].claimed) && !w.claims[c].claimed.sandbox
    requires x.reply.Answered? && HttpOutcome(x.reply.status).TerminalHttp?
    ensures Apply(w, Step.Record(c, x)).db.events[w.claims[c].claimed.id].state.DeadLettered?
      <==> 100 <= x.reply.status <= 599
    ensures !(100 <= x.reply.status <= 599) ==> Apply(w, Step.Record(c, x)).db == w.db
  {
    RecordGoesThroughIff(w, c, x);
  }

  /** The attempt event `i` has for its current number after the record of claim `c`. */
  ghost predicate Stores(w: World, after: World, c: Uuid, x: Exchange, a: Uuid, outcome: Outcome,
                         status: Option<int>, code: Option<string>)
  {
    c in w.claims && w.claims[c].claimed.id in w.db.events
    && a !in w.db.attempts
    && (var e := w.db.events[w.claims[c].claimed.id];
        after.db.attempts == w.db.attempts[a := AttemptRow(w.claims[c].claimed.id, e.replayCount, e.attemptCount,
          x.startedAt, x.finishedAt, outcome, status, code)])
  }

  /** What an answer of the receiver makes of an operator event, status by status: 2xx delivers it, 408,
      429 and 5xx retry it while it has attempts and is younger than a day, anything else ends it. The
      attempt is stored under the current generation and number, with that status. */
  lemma AnswerDecides(w: World, c: Uuid, x: Exchange)
    requires Reachable(w) && Enabled(w, Step.Record(c, x)) && !w.claims[c].claimed.sandbox && x.reply.Answered?
    requires w.claims[c].claimed.id in w.db.events && w.db.events[w.claims[c].claimed.id].claimId == Some(c)
    requires 100 <= x.reply.status <= 599
    ensures var i, status, after := w.claims[c].claimed.id, x.reply.status, Apply(w, Step.Record(c, x));
      && i in after.db.events
      && (var e, f := w.db.events[i], after.db.events[i];
          && (200 <= status <= 299 ==>
                f.state == Delivered && f.deliveredAt == Some(x.finishedAt) && f.nextAttemptAt == x.reply.later
                && Stores(w, after, c, x, x.reply.attemptId, Succeeded, Some(status), None))
          && (status == 408 || status == 429 || 500 <= status <= 599 ==>
                && f.state == (if e.attemptCount < 8 && x.finishedAt - e.createdAt < 24 * HOUR
                               then RetryScheduled else DeadLettered)
                && Stores(w, after, c, x, x.reply.attemptId, RetryableHttp, Some(status), None))
          && (!(200 <= status <= 299) && status != 408 && status != 429 && status < 500 ==>
                f.state == DeadLettered && f.nextAttemptAt == x.reply.later
                && Stores(w, after, c, x, x.reply.attemptId, TerminalHttp, Some(status), None)))
  {
    HeldClaim(w, c, x);
    RecordGoesThroughIff(w, c, x);
    AttemptIdUnused(w, c, x);
  }

  lemma HeldClaim(w: World, c: Uuid, x: Exchange)
    requires Reachable(w) && Enabled(w, Step.Record(c, x))
    requires w.claims[c].claimed.id in w.db.events && w.db.events[w.claims[c].claimed.id].claimId == Some(c)
    ensures Holds(w.db.events, w.claims[c].claimed) && !w.claims[c].recorded
    ensures w.claims[c].claimed == ClaimedOf(w.claims[c].claimed.id, w.db.events[w.claims[c].claimed.id], c)
  {
    ClaimFacts(w, c);
    RowFacts(w, w.claims[c].claimed.id);
    FenceIsExact(w, c, x);
  }

  /** What a send without an answer makes of an operator event: a retry while it has attempts and is
      younger than a day, else its end; the attempt is stored with the code of what went wrong. */
  lemma FailureDecides(w: World, c: Uuid, x: Exchange)
    requires Reachable(w) && Enabled(w, Step.Record(c, x)) && !w.claims[c].claimed.sandbox && x.reply.Failed?
    requires w.claims[c].claimed.id in w.db.events && w.db.events[w.claims[c].claimed.id].claimId == Some(c)
    ensures var i, after := w.claims[c].claimed.id, Apply(w, Step.Record(c, x));
      && i in after.db.events
      && (var e, f := w.db.events[i], after.db.events[i];
          && f.state == (if e.attemptCount < 8 && x.finishedAt - e.createdAt < 24 * HOUR
                         then RetryScheduled else DeadLettered)
          && Stores(w, after, c, x, if x.reply.freshId.Some? then x.reply.freshId.value else c, NetworkError, None,
               Some(match x.reply.failure
                    case IdentifierUnavailable => "identifier_unavailable"
                    case InvalidDestination => "invalid_destination"
                    case InsecureDestination => "insecure_destination"
                    case RequestFailed => "request_failed"
                    case ResponseReadFailed => "response_read_failed")))
  {
    HeldClaim(w, c, x);
    RecordGoesThroughIff(w, c, x);
    AttemptIdUnused(w, c, x);
  }

  // ---------------------------------------------------------------- transitions

  /** The delivery contract's automatic transitions, the authorised replay, and staying put. */
  predicate ContractAllows(from: State, to: State) {
    match from
    case Pending => !to.Delivered? && !to.RetryScheduled?
    case Delivering => !to.Pending?
    case RetryScheduled => !to.Pending? && !to.Delivered?
    case Delivered => to.Delivered?
    case DeadLettered => to.DeadLettered? || to.Pending?
  }

  /** The transition a replay makes: it reopens a dead letter and counts towards the sixteen. */
  predicate Reopening(e: Event, f: Event) {
    e.state.DeadLettered? && f.state.Pending? && f.replayCount == e.replayCount + 1 <= 16
  }

  lemma ClaimTransitions(s: Step, before: map<Uuid, Event>, after: map<Uuid, Event>, i: Uuid)
    requires ClaimStep(s, before, after) && i in before
    ensures ContractAllows(before[i].state, after[i].state)
    ensures before[i].state.DeadLettered? ==> !after[i].state.Pending?
  {
  }

  lemma RecordTransitions(w: World, s: Step, i: Uuid)
    requires Enabled(w, s) && s.Record? && i in w.db.events && i in Apply(w, s).db.events
    ensures var from, to := w.db.events[i].state, Apply(w, s).db.events[i].state;
      ContractAllows(from, to) && !(from.DeadLettered? && to.Pending?)
  {
  }

  lemma InsertTransitions(w: World, s: Step, i: Uuid)
    requires Enabled(w, s) && (s.Accept? || s.Submit?)
    requires i in w.minted && i in w.db.events && i in Apply(w, s).db.events
    ensures Apply(w, s).db.events[i] == w.db.events[i]
  {
  }

  lemma ReplayTransitions(w: World, s: Step, i: Uuid)
    requires Enabled(w, s) && s.OperatorReplay? && i in w.db.events && i in Apply(w, s).db.events
    ensures var e, f := w.db.events[i], Apply(w, s).db.events[i];
      f == e || Reopening(e, f)
  {
  }

  lemma VisitorReplayTransitions(w: World, s: Step, i: Uuid)
    requires Enabled(w, s) && s.VisitorReplay? && i in w.db.events && i in Apply(w, s).db.events
    ensures var e, f := w.db.events[i], Apply(w, s).db.events[i];
      f == e || Reopening(e, f)
  {
  }

  lemma OtherTransitions(w: World, s: Step, i: Uuid)
    requires Enabled(w, s) && (s.Tick? || s.Create? || s.Cleanup?)
    requires i in w.db.events && i in Apply(w, s).db.events
    ensures Apply(w, s).db.events[i] == w.db.events[i]
  {
  }

  /** No step takes an event along any other transition: a delivered event is final, and a dead letter
      is reopened only by a replay, which counts towards the sixteen. */
  lemma OnlyContractTransitions(w: World, s: Step, i: Uuid)
    requires Reachable(w) && Enabled(w, s) && i in w.db.events && i in Apply(w, s).db.events
    ensures var from, to := w.db.events[i], Apply(w, s).db.events[i];
      && ContractAllows(from.state, to.state)
      && (from.state.DeadLettered? && to.state.Pending? ==>
            (s.OperatorReplay? || s.VisitorReplay?) && to.replayCount == from.replayCount + 1 <= 16)
  {
    IdentifierFacts(w);
    if s.Claim? {
      ClaimStepEffect(w, s);
      ClaimTransitions(s, w.db.events, Apply(w, s).db.events, i);
    } else if s.Record? {
      RecordTransitions(w, s, i);
    } else if s.Accept? || s.Submit? {
      InsertTransitions(w, s, i);
    } else if s.OperatorReplay? {
      ReplayTransitions(w, s, i);
    } else if s.VisitorReplay? {
      VisitorReplayTransitions(w, s, i);
    } else {
      OtherTransitions(w, s, i);
    }
  }

  // ---------------------------------------------------------------- lifetime

  lemma RecoveriesFit(l: Life, clock: Time)
    requires LifeBounds(l, clock)
    ensures l.recovered <= 2879
  {
  }

  /** Over its whole life, replays and lease recoveries included, an event is claimed at most 3015 times:
      8 attempts in each of 17 generations and fewer than one recovery per lease in 24 hours. */
  lemma LifetimeClaimBound(w: World, i: Uuid)
    requires Reachable(w) && i in w.lives
    ensures |ClaimsOn(w.claims, i)| <= 3015
  {
    LifeFacts(w, i);
    RecoveriesFit(w.lives[i], w.clock);
  }

  /** No claim ever starts 24 hours or more after its event was created, replayed or not. */
  lemma NoLateClaim(w: World, c: Uuid)
    requires Reachable(w) && c in w.claims
    ensures w.claims[c].at < w.claims[c].claimed.createdAt + 24 * HOUR
    ensures w.claims[c].claimed.id in w.db.events ==>
      w.claims[c].claimed.createdAt == w.db.events[w.claims[c].claimed.id].createdAt
  {
    ClaimFacts(w, c);
    if w.claims[c].claimed.id in w.db.events {
      RowFacts(w, w.claims[c].claimed.id);
    }
  }

  // ---------------------------------------------------------------- sandbox storage

  function AttemptsAbout(attempts: map<Uuid, AttemptRow>, i: Uuid): set<Uuid> {
    set a | a in attempts && attempts[a].eventId == i
  }

  /** Where the attempts of a visitor event can sit: three in one generation, or one in each of three. */
  function Slots(scenario: Scenario): set<(int, int)> {
    match scenario
    case Success => {(0, 1)}
    case TemporaryFailure => {(0, 1), (0, 2), (0, 3)}
    case PermanentFailure => {(0, 1), (1, 1), (2, 1)}
  }

  lemma SlotsBound(scenario: Scenario)
    ensures |Slots(scenario)| <= 3
  {
  }

  lemma AttemptInSlot(w: World, a: Uuid)
    requires Reachable(w) && a in w.db.attempts
    requires w.db.attempts[a].eventId in w.db.events && w.db.events[w.db.attempts[a].eventId].sandboxId.Some?
    ensures var e := w.db.events[w.db.attempts[a].eventId];
      && e.destination.Simulator?
      && (w.db.attempts[a].replayNumber, w.db.attempts[a].attemptNumber) in Slots(e.destination.scenario)
  {
    var r := w.db.attempts[a];
    AttemptFacts(w, a);
    RowFacts(w, r.eventId);
    assert About(r, r.eventId, r.replayNumber, r.attemptNumber);
    assert Has(w.db.attempts, r.eventId, r.replayNumber, r.attemptNumber);
  }

  /** Every attempt a visitor ever sees has the status its scenario promises for that number: 204 at
      once, 503 twice and then 204, or 422. */
  lemma VisitorSeesPromisedStatus(w: World, a: Uuid)
    requires Reachable(w) && a in w.db.attempts
    requires w.db.attempts[a].eventId in w.db.events && w.db.events[w.db.attempts[a].eventId].sandboxId.Some?
    ensures var e, r := w.db.events[w.db.attempts[a].eventId], w.db.attempts[a];
      && e.destination.Simulator?
      && match e.destination.scenario
         case Success => r.attemptNumber == 1 && r.statusCode == Some(204)
         case TemporaryFailure =>
           || (r.attemptNumber in {1, 2} && r.statusCode == Some(503))
           || (r.attemptNumber == 3 && r.statusCode == Some(204))
         case PermanentFailure => r.attemptNumber == 1 && r.statusCode == Some(422)
  {
    AttemptFacts(w, a);
    RowFacts(w, w.db.attempts[a].eventId);
  }

  /** No visitor event is ever claimed half an hour or more after it was created. */
  lemma NoClaimAfterSession(w: World, c: Uuid)
    requires Reachable(w) && c in w.claims && w.claims[c].claimed.sandbox
    ensures w.claims[c].at < w.claims[c].claimed.createdAt + 30 * MINUTE
  {
    ReachableInv(w);
  }

  /** A visitor event never owns more than three attempt rows: a temporary failure fills three in one
      generation, and only a permanent failure is ever replayed, at one row in each of three. */
  lemma VisitorAttemptBound(w: World, i: Uuid)
    requires Reachable(w) && i in w.db.events && w.db.events[i].sandboxId.Some?
    ensures |AttemptsAbout(w.db.attempts, i)| <= 3
  {
    var mine := AttemptsAbout(w.db.attempts, i);
    var slot := map a | a in mine :: (w.db.attempts[a].replayNumber, w.db.attempts[a].attemptNumber);
    RowFacts(w, i);
    var slots := Slots(w.db.events[i].destination.scenario);
    forall a | a in mine ensures slot[a] in slots {
      AttemptInSlot(w, a);
    }
    forall a, b | a in mine && b in mine && slot[a] == slot[b] ensures a == b {
      ConstraintsAlwaysHold(w);
    }
    InjectionBound(mine, slots, slot);
    SlotsBound(w.db.events[i].destination.scenario);
  }

  function VisitorEvents(events: map<Uuid, Event>): set<Uuid> {
    set i | i in events && events[i].sandboxId.Some?
  }

  function VisitorAttemptRows(t: Tables): set<Uuid> {
    set a | a in t.attempts && t.attempts[a].eventId in t.events && t.events[t.attempts[a].eventId].sandboxId.Some?
  }

  lemma SessionFacts(w: World)
    requires Reachable(w)
    ensures |w.db.sessions| <= 1000
    ensures forall s :: s in w.db.sessions ==>
      && SessionChecks(w.db.sessions[s]) && |EventsOf(w.db.events, s)| <= 20
      && (w.db.sessions[s].expiresAt > w.clock ==> |EventsOf(w.db.events, s)| == w.db.sessions[s].eventCount)
  {
    ReachableInv(w);
  }

  lemma VisitorEventsBound(w: World)
    requires Reachable(w)
    ensures |VisitorEvents(w.db.events)| <= 20 * |w.db.sessions|
  {
    SessionFacts(w);
    var events := VisitorEvents(w.db.events);
    var owner: map<Uuid, SessionId> := map i | i in events :: w.db.events[i].sandboxId.value;
    forall s | s in w.db.sessions.Keys ensures |Fibre<Uuid, SessionId>(owner, s)| <= 20 {
      assert Fibre<Uuid, SessionId>(owner, s) == EventsOf(w.db.events, s);
    }
    forall i | i in events ensures owner[i] in w.db.sessions.Keys {
      RowFacts(w, i);
    }
    FibreBound<Uuid, SessionId>(events, w.db.sessions.Keys, owner, 20);
  }

  lemma VisitorRowsBound(w: World)
    requires Reachable(w)
    ensures |VisitorAttemptRows(w.db)| <= 3 * |VisitorEvents(w.db.events)|
  {
    var rows, events := VisitorAttemptRows(w.db), VisitorEvents(w.db.events);
    var about: map<Uuid, Uuid> := map a | a in rows :: w.db.attempts[a].eventId;
    forall i | i in events ensures |Fibre<Uuid, Uuid>(about, i)| <= 3 {
      assert Fibre<Uuid, Uuid>(about, i) == AttemptsAbout(w.db.attempts, i);
      VisitorAttemptBound(w, i);
    }
    FibreBound<Uuid, Uuid>(rows, events, about, 3);
  }

  /** Visitors never hold more than 1 000 sessions, 20 events in each, and 60 000 attempt rows in all,
      an eighth of what the sandbox contract allows for. */
  lemma SandboxStorageBound(w: World)
    requires Reachable(w)
    ensures |w.db.sessions| <= 1000
    ensures forall s :: s in w.db.sessions ==> |EventsOf(w.db.events, s)| <= 20
    ensures |VisitorEvents(w.db.events)| <= 20_000
    ensures |VisitorAttemptRows(w.db)| <= 60_000
  {
    SessionFacts(w);
    VisitorEventsBound(w);
    VisitorRowsBound(w);
  }

  // ---------------------------------------------------------------- quotas

  lemma QuotaFacts(w: World)
    requires Reachable(w)
    ensures QuotaInv(w)
  {
    ReachableInv(w);
  }

  lemma AdmittedFacts(w: World)
    requires Reachable(w)
    ensures SessionsAdmitted(w.db.sessions, w.admitted)
  {
    ReachableInv(w);
  }

  /** At most 200 sessions are ever live at once, and any hour saw at most 2000 admissions. */
  lemma QuotaBounds(w: World, to: Time)
    requires Reachable(w)
    ensures |LiveAt(w.db, w.clock)| <= 200
    ensures |ChargedWithin(w.charges, to - HOUR, to)| <= 2000
  {
    QuotaFacts(w);
    AdmittedFacts(w);
    LiveSessionBound(w);
    SlidingHourBound(w, to);
  }

  /** The budget, rolled to the current hour, counts what this hour really admitted. */
  lemma RolledBudgetIsExact(w: World)
    requires Reachable(w)
    ensures Roll(w.db.budget, w.clock).sessions == |SessionsIn(w.admitted, HourOf(w.clock))|
    ensures Roll(w.db.budget, w.clock).admissions == |ChargesIn(w.charges, HourOf(w.clock))|
  {
    QuotaFacts(w);
    RollKeeps(w.db.budget, w.admitted, w.charges, w.clock);
    assert Roll(w.db.budget, w.clock).windowStart == HourOf(w.clock);
  }

  /** A session is admitted exactly when fewer than 100 were admitted this hour and fewer than 1 000
      are retained. */
  lemma CreateAdmitsIff(w: World, session: SessionId, issuedAt: Time)
    requires Reachable(w) && Enabled(w, Step.Create(session, issuedAt))
    ensures CreateVerdict(w.db, session, w.clock).Committed?
      <==> |SessionsIn(w.admitted, HourOf(w.clock))| < 100 && |w.db.sessions| < 1000
    ensures CreateVerdict(w.db, session, w.clock).Committed? ==>
      && session in Apply(w, Step.Create(session, issuedAt)).db.sessions
      && Apply(w, Step.Create(session, issuedAt)).db.sessions[session] == Session(issuedAt + 30 * MINUTE, 0)
  {
    RolledBudgetIsExact(w);
    AdmittedFacts(w);
  }

  /** A submission is admitted exactly when its scenario exists, its session is live and owns fewer than
      20 events, and fewer than 1 000 admissions happened this hour; no key ever stands in its way. */
  lemma SubmitAdmitsIff(w: World, session: SessionId, text: string, id: Uuid, digest: Digest)
    requires Reachable(w) && Enabled(w, Step.Submit(session, text, id, digest))
    ensures SubmitVerdict(w.db, session, text, id, w.clock).Committed?
      <==> (text == "success" || text == "temporary_failure" || text == "permanent_failure")
           && session in w.db.sessions && w.db.sessions[session].expiresAt > w.clock
           && |EventsOf(w.db.events, session)| < 20 && |ChargesIn(w.charges, HourOf(w.clock))| < 1000
  {
    RolledBudgetIsExact(w);
    SessionFacts(w);
    IdentifierFacts(w);
    forall j | j in w.db.events ensures w.db.events[j].externalId.Simulated? && w.db.events[j].source.Visitor?
      ==> w.db.events[j].externalId.event == j
    {
      RowFacts(w, j);
    }
  }

  /** A visitor replay is admitted exactly for an owned, dead permanent failure of a live session that was
      replayed less than twice, in an hour with fewer than 1 000 admissions. */
  lemma VisitorReplayAdmitsIff(w: World, session: SessionId, id: Uuid)
    requires Reachable(w)
    ensures VisitorReplayVerdict(w.db, session, id, w.clock).Committed?
      <==> id in w.db.events && w.db.events[id].sandboxId == Some(session)
           && session in w.db.sessions && w.db.sessions[session].expiresAt > w.clock
           && w.db.events[id].destination == Simulator(PermanentFailure)
           && w.db.events[id].state.DeadLettered? && w.db.events[id].replayCount < 2
           && |ChargesIn(w.charges, HourOf(w.clock))| < 1000
  {
    RolledBudgetIsExact(w);
    if id in w.db.events {
      RowFacts(w, id);
    }
  }
}
