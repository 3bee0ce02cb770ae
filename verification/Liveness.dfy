/** Progress over runs: nothing due is overlooked forever, work runs out, and backlogs drain. */
module Liveness {
  import opened Basics
  import opened Tables
  import opened Policy
  import opened Queue
  import opened World
  import opened Invariant
  import opened Guarantees

  /** This step is a record that goes through. */
  predicate Completes(w: World, s: Step) {
    s.Record? && s.claimId in w.claims
      && RecordOutcome(w.db, w.claims[s.claimId].claimed, AttemptFor(w, s.claimId, s.exchange)).Recorded?
  }

  /** What a completed record does to its row: it held the claim, and its key only moves later. */
  lemma CompletionFacts(w: World, s: Step)
    requires Reachable(w) && Enabled(w, s) && Completes(w, s)
    ensures var k := w.claims[s.claimId];
      && Holds(w.db.events, k.claimed)
      && (var e, f := w.db.events[k.claimed.id], Apply(w, s).db.events[k.claimed.id];
          && Apply(w, s).db.events == w.db.events[k.claimed.id := f]
          && e.nextAttemptAt <= k.at <= f.nextAttemptAt && f.createdAt == e.createdAt
          && e.attemptCount == f.attemptCount && !f.state.Delivering? && !f.state.Pending?
          && (f.state.RetryScheduled? ==> k.at < f.nextAttemptAt && f.attemptCount <= 7)
          && f.claimId.None?)
  {
    var k := w.claims[s.claimId];
    ClaimFacts(w, s.claimId);
    RowFacts(w, k.claimed.id);
    SendFacts(k.claimed, s.exchange, k.at, w.clock);
  }

  // ---------------------------------------------------------------- no starvation

  /** Unfinished events other than `i` that the queue may serve before a row like `e`. */
  function Rivals(events: map<Uuid, Event>, i: Uuid, e: Event): set<Uuid> {
    set j | j in events && j != i && !events[j].state.Delivered? && !events[j].state.DeadLettered?
      && (events[j].nextAttemptAt < e.nextAttemptAt
          || (events[j].nextAttemptAt == e.nextAttemptAt && events[j].createdAt <= e.createdAt))
  }

  /** Event `i` keeps its row `e` all through the run, although it is ready and unlocked at every claim. */
  ghost predicate Overlooked(w: World, steps: seq<Step>, i: Uuid, e: Event)
    requires Feasible(w, steps)
    decreases |steps|
  {
    && i in w.db.events && w.db.events[i] == e
    && (steps != [] ==>
          && (steps[0].Claim? ==> Ready(w.db.sessions, e, steps[0].now) && i !in steps[0].locked)
          && Overlooked(Apply(w, steps[0]), steps[1..], i, e))
  }

  /** Records that went through on claims not in `known`: each ends one successful worker operation. */
  ghost function Completions(w: World, steps: seq<Step>, known: set<Uuid>): nat
    requires Feasible(w, steps)
    decreases |steps|
  {
    if steps == [] then 0
    else (if Completes(w, steps[0]) && steps[0].claimId !in known then 1 else 0)
         + Completions(Apply(w, steps[0]), steps[1..], known)
  }

  /** Claims issued since `known` that still hold a row hold a rival's, and started once `e` was due. */
  ghost predicate ServingRivals(w: World, known: set<Uuid>, i: Uuid, e: Event) {
    forall c :: c in w.claims && c !in known && Holds(w.db.events, w.claims[c].claimed) ==>
      w.claims[c].claimed.id in Rivals(w.db.events, i, e) && e.nextAttemptAt <= w.claims[c].at
  }

  /** Apart from claims and records, no step writes a row that is then in delivery. */
  lemma UnheldRowsOnly(w: World, s: Step, j: Uuid)
    requires Enabled(w, s) && !s.Claim? && !s.Record?
    requires j in Apply(w, s).db.events && Apply(w, s).db.events[j].state.Delivering?
    ensures j in w.db.events && Apply(w, s).db.events[j] == w.db.events[j]
  {
  }

  /** A row still held by a claim issued before this step was not touched by it. */
  lemma HeldRowsUntouched(w: World, s: Step, c: Uuid)
    requires Reachable(w) && Enabled(w, s) && c in w.claims
    requires Holds(Apply(w, s).db.events, w.claims[c].claimed)
    ensures w.claims[c].claimed.id in w.db.events
    ensures Apply(w, s).db.events[w.claims[c].claimed.id] == w.db.events[w.claims[c].claimed.id]
  {
    ClaimFacts(w, c);
    IdentifierFacts(w);
    if s.Claim? {
      ClaimStepEffect(w, s);
    } else if !s.Record? {
      UnheldRowsOnly(w, s, w.claims[c].claimed.id);
    }
  }

  lemma ClaimRivals(s: Step, before: map<Uuid, Event>, after: map<Uuid, Event>, i: Uuid, e: Event)
    requires ClaimStep(s, before, after)
    ensures Rivals(after, i, e) <= Rivals(before, i, e)
  {
  }

  lemma RivalsOnlyLeave(w: World, s: Step, i: Uuid, e: Event)
    requires Reachable(w) && Enabled(w, s) && e.nextAttemptAt < w.clock
    ensures Rivals(Apply(w, s).db.events, i, e) <= Rivals(w.db.events, i, e)
  {
    var before, after := w.db.events, Apply(w, s).db.events;
    if s.Claim? {
      ClaimStepEffect(w, s);
      ClaimRivals(s, before, after, i, e);
    } else if Completes(w, s) {
      CompletionFacts(w, s);
    } else {
      EarlyRowsUntouched(w, s, e.nextAttemptAt);
    }
  }

  /** Apart from claims and records, whatever a step writes is due now. */
  lemma EarlyRowsUntouched(w: World, s: Step, due: Time)
    requires Enabled(w, s) && !s.Claim? && !Completes(w, s) && due < w.clock
    ensures var before, after := w.db.events, Apply(w, s).db.events;
      forall j :: j in after && after[j].nextAttemptAt <= due ==> j in before && after[j] == before[j]
  {
  }

  /** The row picked while `e` is due and free is a rival, unless it is the row of `e` itself. */
  lemma PickedIsRival(w: World, s: Step, i: Uuid, e: Event)
    requires Reachable(w) && Enabled(w, s) && s.Claim? && s.picked.Some?
    requires i in w.db.events && w.db.events[i] == e
    requires i in Apply(w, s).db.events && Apply(w, s).db.events[i] == e
    requires Ready(w.db.sessions, e, s.now) && i !in s.locked
    ensures s.picked.value in Rivals(Apply(w, s).db.events, i, e) && e.nextAttemptAt <= s.now
  {
    RetiredAndPickedDisjoint(w.db, s.now, s.locked, s.retired, s.picked);
    IdentifierFacts(w);
    RowFacts(w, i);
    assert i in Due(w.db, s.now, s.locked);
  }

  /** A rival in service stays a rival for as long as its claim holds. */
  lemma HeldRivalStays(w: World, s: Step, c: Uuid, i: Uuid, e: Event)
    requires Reachable(w) && Enabled(w, s) && c in w.claims
    requires Holds(w.db.events, w.claims[c].claimed) ==> w.claims[c].claimed.id in Rivals(w.db.events, i, e)
    requires Holds(Apply(w, s).db.events, w.claims[c].claimed)
    ensures w.claims[c].claimed.id in Rivals(Apply(w, s).db.events, i, e)
    ensures Holds(w.db.events, w.claims[c].claimed)
  {
    HeldRowsUntouched(w, s, c);
  }

  lemma StillServingRivals(w: World, s: Step, known: set<Uuid>, i: Uuid, e: Event)
    requires Reachable(w) && Enabled(w, s) && ServingRivals(w, known, i, e)
    requires i in w.db.events && w.db.events[i] == e
    requires i in Apply(w, s).db.events && Apply(w, s).db.events[i] == e
    requires s.Claim? ==> Ready(w.db.sessions, e, s.now) && i !in s.locked
    ensures ServingRivals(Apply(w, s), known, i, e)
  {
    var w' := Apply(w, s);
    forall c | c in w'.claims && c !in known && Holds(w'.db.events, w'.claims[c].claimed)
      ensures w'.claims[c].claimed.id in Rivals(w'.db.events, i, e) && e.nextAttemptAt <= w'.claims[c].at
    {
      if c in w.claims {
        ClaimUnchanged(w, s, c);
        HeldRivalStays(w, s, c, i, e);
      } else {
        PickedIsRival(w, s, i, e);
      }
    }
  }

  lemma ClaimUnchanged(w: World, s: Step, c: Uuid)
    requires Reachable(w) && Enabled(w, s) && c in w.claims
    ensures c in Apply(w, s).claims
    ensures Apply(w, s).claims[c].claimed == w.claims[c].claimed && Apply(w, s).claims[c].at == w.claims[c].at
  {
    IdentifierFacts(w);
    if s.Claim? {
      ClaimKept(w, s, c);
    }
  }

  lemma ClaimKept(w: World, s: Step, c: Uuid)
    requires Enabled(w, s) && s.Claim? && c in w.claims && c in w.minted
    ensures c in Apply(w, s).claims && Apply(w, s).claims[c] == w.claims[c]
  {
  }

  /** One step takes a rival away whenever an operation that started in this run completes. */
  lemma RivalStep(w: World, s: Step, known: set<Uuid>, i: Uuid, e: Event)
    requires Reachable(w) && Enabled(w, s) && e.nextAttemptAt < w.clock && ServingRivals(w, known, i, e)
    ensures |Rivals(Apply(w, s).db.events, i, e)| + (if Completes(w, s) && s.claimId !in known then 1 else 0)
      <= |Rivals(w.db.events, i, e)|
  {
    var before, after := Rivals(w.db.events, i, e), Rivals(Apply(w, s).db.events, i, e);
    RivalsOnlyLeave(w, s, i, e);
    if Completes(w, s) && s.claimId !in known {
      CompletionFacts(w, s);
      SubsetBound(after, before - {w.claims[s.claimId].claimed.id});
    } else {
      SubsetBound(after, before);
    }
  }

  lemma OverlookedStep(w: World, s: Step, known: set<Uuid>, i: Uuid, e: Event)
    requires Reachable(w) && Enabled(w, s) && e.nextAttemptAt < w.clock && ServingRivals(w, known, i, e)
    requires i in w.db.events && w.db.events[i] == e
    requires i in Apply(w, s).db.events && Apply(w, s).db.events[i] == e
    requires s.Claim? ==> Ready(w.db.sessions, e, s.now) && i !in s.locked
    ensures ServingRivals(Apply(w, s), known, i, e) && w.clock <= Apply(w, s).clock
    ensures |Rivals(Apply(w, s).db.events, i, e)| + (if Completes(w, s) && s.claimId !in known then 1 else 0)
      <= |Rivals(w.db.events, i, e)|
  {
    RivalStep(w, s, known, i, e);
    StillServingRivals(w, s, known, i, e);
  }

  lemma {:induction false} CompletionsBounded(w: World, steps: seq<Step>, known: set<Uuid>, i: Uuid, e: Event)
    requires Reachable(w) && Feasible(w, steps) && e.nextAttemptAt < w.clock
    requires Overlooked(w, steps, i, e) && ServingRivals(w, known, i, e)
    ensures Completions(w, steps, known) <= |Rivals(w.db.events, i, e)|
    decreases |steps|
  {
    if steps == [] {
    } else {
      ReachableStep(w, steps[0]);
      OverlookedStep(w, steps[0], known, i, e);
      CompletionsBounded(Apply(w, steps[0]), steps[1..], known, i, e);
    }
  }

  /** No starvation: while an overdue event is passed over, at most as many worker operations can
      start and succeed as it had unfinished rivals with a key no later than its own. New receipts,
      replays and retries never get ahead of it, whatever else is interleaved. */
  lemma NoStarvation(w: World, steps: seq<Step>, i: Uuid)
    requires Reachable(w) && Feasible(w, steps)
    requires i in w.db.events && w.db.events[i].nextAttemptAt < w.clock
    requires Overlooked(w, steps, i, w.db.events[i])
    ensures Completions(w, steps, w.claims.Keys) <= |Rivals(w.db.events, i, w.db.events[i])|
  {
    CompletionsBounded(w, steps, w.claims.Keys, i, w.db.events[i]);
  }

  // ---------------------------------------------------------------- work runs out

  /** No new work comes from outside in this step. */
  predicate Closed(s: Step) {
    !s.Accept? && !s.Submit? && !s.OperatorReplay? && !s.VisitorReplay?
  }

  /** How many transitions an event can still make: one to start each attempt and one to end it. */
  function Rank(e: Event): (r: nat)
    ensures r <= 16
  {
    match e.state
    case Pending => 16
    case Delivering => if 1 <= e.attemptCount <= 8 then 2 * (8 - e.attemptCount) + 1 else 0
    case RetryScheduled => if e.attemptCount <= 8 then 2 * (8 - e.attemptCount) else 0
    case _ => 0
  }

  /** The transitions all events can still make, as a set that steps can only take from. */
  ghost function Tokens(events: map<Uuid, Event>): set<(Uuid, nat)> {
    set i, n: nat | i in events && n < Rank(events[i]) :: (i, n)
  }

  /** The step retires a row, starts a new attempt, or completes one; a lease recovery does not count. */
  predicate Progresses(w: World, s: Step) {
    || Completes(w, s)
    || (s.Claim? && s.retired != {})
    || (s.Claim? && s.picked.Some? && s.picked.value in w.db.events && !w.db.events[s.picked.value].state.Delivering?)
  }

  /** In a closed step no event gains rank, and one loses some if the step progresses. */
  ghost predicate RanksFall(before: map<Uuid, Event>, after: map<Uuid, Event>, strictly: bool) {
    && (forall i :: i in after ==> i in before && Rank(after[i]) <= Rank(before[i]))
    && (strictly ==> exists i :: i in before && i in after && Rank(after[i]) < Rank(before[i]))
  }

  lemma ClaimRanks(s: Step, before: map<Uuid, Event>, after: map<Uuid, Event>)
    requires Shapes(before) && ClaimStep(s, before, after)
    ensures RanksFall(before, after,
                      s.retired * before.Keys != {} || (s.picked.Some? && !before[s.picked.value].state.Delivering?))
  {
    forall i | i in after ensures Rank(after[i]) <= Rank(before[i]) {
      assert Shape(before[i]);
    }
    if s.retired * before.Keys != {} {
      var r :| r in s.retired && r in before;
      assert Shape(before[r]) && Rank(after[r]) < Rank(before[r]);
    }
    if s.picked.Some? && !before[s.picked.value].state.Delivering? {
      assert Shape(before[s.picked.value]) && Rank(after[s.picked.value]) < Rank(before[s.picked.value]);
    }
  }

  /** A completed record ends an attempt, so its row loses rank, and an odd rank at that. */
  lemma CompletionRank(w: World, s: Step)
    requires Reachable(w) && Enabled(w, s) && Completes(w, s)
    ensures var i := w.claims[s.claimId].claimed.id;
      && i in w.db.events && i in Apply(w, s).db.events
      && Rank(Apply(w, s).db.events[i]) < Rank(w.db.events[i]) && Rank(w.db.events[i]) % 2 == 1
  {
    CompletionFacts(w, s);
    RowFacts(w, w.claims[s.claimId].claimed.id);
  }

  lemma StepRanks(w: World, s: Step)
    requires Reachable(w) && Enabled(w, s) && Closed(s)
    ensures RanksFall(w.db.events, Apply(w, s).db.events, Progresses(w, s))
  {
    if s.Claim? {
      ShapeFacts(w);
      ClaimStepEffect(w, s);
      ClaimRanks(s, w.db.events, Apply(w, s).db.events);
      assert s.retired <= w.db.events.Keys;
    } else if Completes(w, s) {
      CompletionFacts(w, s);
      CompletionRank(w, s);
    }
  }

  lemma TokensFall(before: map<Uuid, Event>, after: map<Uuid, Event>, strictly: bool)
    requires RanksFall(before, after, strictly)
    ensures |Tokens(after)| + (if strictly then 1 else 0) <= |Tokens(before)|
  {
    if strictly {
      var i :| i in before && i in after && Rank(after[i]) < Rank(before[i]);
      SubsetBound(Tokens(after), Tokens(before) - {(i, Rank(after[i]))});
    } else {
      SubsetBound(Tokens(after), Tokens(before));
    }
  }

  ghost predicate AllClosed(steps: seq<Step>) {
    forall k :: 0 <= k < |steps| ==> Closed(steps[k])
  }

  ghost function Progress(w: World, steps: seq<Step>): nat
    requires Feasible(w, steps)
    decreases |steps|
  {
    if steps == [] then 0
    else (if Progresses(w, steps[0]) then 1 else 0) + Progress(Apply(w, steps[0]), steps[1..])
  }

  /** Without new work from outside only so many steps can do anything but recover a lapsed lease:
      every progressing step uses up one of the transitions left, 16 per event at most. */
  lemma {:induction false} WorkRunsOut(w: World, steps: seq<Step>)
    requires Reachable(w) && Feasible(w, steps) && AllClosed(steps)
    ensures Progress(w, steps) + |Tokens(Run(w, steps).db.events)| <= |Tokens(w.db.events)|
    decreases |steps|
  {
    if steps == [] {
    } else {
      ReachableStep(w, steps[0]);
      StepRanks(w, steps[0]);
      TokensFall(w.db.events, Apply(w, steps[0]).db.events, Progresses(w, steps[0]));
      WorkRunsOut(Apply(w, steps[0]), steps[1..]);
    }
  }

  lemma {:induction false} BelowCount(i: Uuid, k: nat)
    ensures |set n: nat | n < k :: (i, n)| == k
  {
    if k == 0 {
    } else {
      BelowCount(i, k - 1);
      assert (set n: nat | n < k :: (i, n)) == (set n: nat | n < k - 1 :: (i, n)) + {(i, k - 1)};
    }
  }

  lemma SixteenTokensEach(events: map<Uuid, Event>)
    ensures |Tokens(events)| <= 16 * |events|
  {
    var owner: map<(Uuid, nat), Uuid> := map t | t in Tokens(events) :: t.0;
    forall i | i in events.Keys ensures |Fibre<(Uuid, nat), Uuid>(owner, i)| <= 16 {
      assert Fibre<(Uuid, nat), Uuid>(owner, i) == (set n: nat | n < Rank(events[i]) :: (i, n));
      BelowCount(i, Rank(events[i]));
    }
    FibreBound<(Uuid, nat), Uuid>(Tokens(events), events.Keys, owner, 16);
  }

  // ---------------------------------------------------------------- attempts run out

  /** Attempts event `i` can still have recorded in its current generation. */
  ghost function Remaining(events: map<Uuid, Event>, i: Uuid): nat {
    if i in events then (Rank(events[i]) + 1) / 2 else 0
  }

  ghost function RecordsOf(w: World, steps: seq<Step>, i: Uuid): nat
    requires Feasible(w, steps)
    decreases |steps|
  {
    if steps == [] then 0
    else (if Completes(w, steps[0]) && w.claims[steps[0].claimId].claimed.id == i then 1 else 0)
         + RecordsOf(Apply(w, steps[0]), steps[1..], i)
  }

  lemma StepRemaining(w: World, s: Step, i: Uuid)
    requires Reachable(w) && Enabled(w, s) && Closed(s)
    ensures Remaining(Apply(w, s).db.events, i) <= Remaining(w.db.events, i)
    ensures Completes(w, s) && w.claims[s.claimId].claimed.id == i
      ==> Remaining(Apply(w, s).db.events, i) < Remaining(w.db.events, i)
  {
    StepRanks(w, s);
    if Completes(w, s) {
      CompletionRank(w, s);
    }
  }

  /** Without replays at most eight attempts of one event are ever recorded, however many times its
      lease is lost and recovered on the way. */
  lemma {:induction false} EightRecordsAtMost(w: World, steps: seq<Step>, i: Uuid)
    requires Reachable(w) && Feasible(w, steps) && AllClosed(steps)
    ensures RecordsOf(w, steps, i) + Remaining(Run(w, steps).db.events, i) <= Remaining(w.db.events, i) <= 8
    decreases |steps|
  {
    if steps == [] {
    } else {
      ReachableStep(w, steps[0]);
      StepRemaining(w, steps[0], i);
      EightRecordsAtMost(Apply(w, steps[0]), steps[1..], i);
    }
  }

  // ---------------------------------------------------------------- draining the age backlog

  /** Unfinished events that reached the age limit by `limit`. */
  function Overage(events: map<Uuid, Event>, limit: Time): set<Uuid> {
    set i | i in events && events[i].createdAt + 24 * HOUR <= limit
      && !events[i].state.Delivered? && !events[i].state.DeadLettered?
  }

  /** None of them is still under a lease at `limit`. */
  ghost predicate Unleased(events: map<Uuid, Event>, limit: Time) {
    forall i :: i in Overage(events, limit) && events[i].lease.Some? ==> events[i].lease.value <= limit
  }

  /** A step at or after `limit` that is no replay; claims see every row and read a clock past `limit`. */
  predicate DrainStep(s: Step, limit: Time) {
    && !s.OperatorReplay? && !s.VisitorReplay?
    && (s.Claim? ==> limit <= s.now && s.locked == {})
  }

  /** A claim only finishes overage events: it cannot lease one. */
  lemma OverageClaimed(s: Step, before: map<Uuid, Event>, after: map<Uuid, Event>, limit: Time)
    requires ClaimStep(s, before, after) && limit <= s.now
    ensures Overage(after, limit) == Overage(before, limit) - s.retired
    ensures forall i :: i in Overage(after, limit) ==> after[i] == before[i]
  {
  }

  lemma ClaimOverage(w: World, s: Step, limit: Time)
    requires Enabled(w, s) && s.Claim? && DrainStep(s, limit)
    ensures Overage(Apply(w, s).db.events, limit) == Overage(w.db.events, limit) - s.retired
    ensures forall i :: i in Overage(Apply(w, s).db.events, limit) ==> Apply(w, s).db.events[i] == w.db.events[i]
  {
    ClaimStepEffect(w, s);
    OverageClaimed(s, w.db.events, Apply(w, s).db.events, limit);
  }

  lemma OverageOnlyLeaves(w: World, s: Step, limit: Time)
    requires Reachable(w) && Enabled(w, s) && limit <= w.clock && DrainStep(s, limit) && Unleased(w.db.events, limit)
    ensures Overage(Apply(w, s).db.events, limit) <= Overage(w.db.events, limit)
    ensures Unleased(Apply(w, s).db.events, limit)
  {
    if s.Claim? {
      ClaimOverage(w, s, limit);
    } else if Completes(w, s) {
      CompletionFacts(w, s);
      RecordOverage(w, s, limit);
    } else {
      OtherOverage(w, s, limit);
    }
  }

  lemma RecordOverage(w: World, s: Step, limit: Time)
    requires Reachable(w) && Enabled(w, s) && Completes(w, s) && Unleased(w.db.events, limit)
    ensures Overage(Apply(w, s).db.events, limit) <= Overage(w.db.events, limit)
    ensures Unleased(Apply(w, s).db.events, limit)
  {
  }

  lemma OtherOverage(w: World, s: Step, limit: Time)
    requires Enabled(w, s) && limit <= w.clock && DrainStep(s, limit) && Unleased(w.db.events, limit)
    requires !s.Claim? && !Completes(w, s)
    ensures Overage(Apply(w, s).db.events, limit) <= Overage(w.db.events, limit)
    ensures Unleased(Apply(w, s).db.events, limit)
  {
    OldRowsUntouched(w, s, limit);
  }

  /** Apart from claims, records and replays, steps only insert young rows and delete. */
  lemma OldRowsUntouched(w: World, s: Step, limit: Time)
    requires Enabled(w, s) && limit <= w.clock && DrainStep(s, limit) && !s.Claim? && !Completes(w, s)
    ensures var before, after := w.db.events, Apply(w, s).db.events;
      forall i :: i in after && Aged(after[i], limit) ==> i in before && after[i] == before[i]
  {
  }

  /** The oldest ten are chosen first, so they lie inside a backlog of older rows or exhaust it. */
  lemma OldestFirst(events: map<Uuid, Event>, now: Time, retired: set<Uuid>, backlog: set<Uuid>, limit: Time)
    requires OldestFew(events, now, {}, retired) && backlog <= Expired(events, now, {})
    requires forall i :: i in Expired(events, now, {}) ==> (i in backlog <==> Aged(events[i], limit))
    ensures backlog <= retired || (retired <= backlog && |retired| == 10)
  {
  }

  /** A claim finishes ten of the backlog, or all of it. */
  lemma ClaimDrains(w: World, s: Step, limit: Time)
    requires Reachable(w) && Enabled(w, s) && s.Claim? && DrainStep(s, limit) && Unleased(w.db.events, limit)
    ensures |Overage(Apply(w, s).db.events, limit)| + 10 <= |Overage(w.db.events, limit)|
      || Overage(Apply(w, s).db.events, limit) == {}
  {
    var before := Overage(w.db.events, limit);
    ClaimOverage(w, s, limit);
    ShapeFacts(w);
    OverageExpired(w.db.events, limit, s.now);
    OldestFirst(w.db.events, s.now, s.retired, before, limit);
    TenLess(before, s.retired);
  }

  lemma ShapeFacts(w: World)
    requires Reachable(w)
    ensures Shapes(w.db.events)
  {
    forall i | i in w.db.events ensures Shape(w.db.events[i]) {
      RowFacts(w, i);
    }
  }

  lemma OverageExpired(events: map<Uuid, Event>, limit: Time, now: Time)
    requires Shapes(events) && Unleased(events, limit) && limit <= now
    ensures Overage(events, limit) <= Expired(events, now, {})
    ensures forall i :: i in Expired(events, now, {}) ==> (i in Overage(events, limit) <==> Aged(events[i], limit))
  {
    forall i | i in Overage(events, limit) ensures i in Expired(events, now, {}) {
      assert Shape(events[i]);
    }
  }

  lemma TenLess(backlog: set<Uuid>, retired: set<Uuid>)
    requires backlog <= retired || (retired <= backlog && |retired| == 10)
    ensures backlog - retired == {} || |backlog - retired| + 10 == |backlog|
  {
  }

  ghost function Claims(steps: seq<Step>): nat {
    if steps == [] then 0 else (if steps[0].Claim? then 1 else 0) + Claims(steps[1..])
  }

  lemma DrainOne(w: World, s: Step, limit: Time)
    requires Reachable(w) && Enabled(w, s) && limit <= w.clock && DrainStep(s, limit) && Unleased(w.db.events, limit)
    ensures Unleased(Apply(w, s).db.events, limit) && limit <= Apply(w, s).clock
    ensures var before, after := |Overage(w.db.events, limit)|, |Overage(Apply(w, s).db.events, limit)|;
      after <= before && (s.Claim? ==> after == 0 || after + 10 <= before)
  {
    OverageOnlyLeaves(w, s, limit);
    SubsetBound(Overage(Apply(w, s).db.events, limit), Overage(w.db.events, limit));
    if s.Claim? {
      ClaimDrains(w, s, limit);
    }
  }

  /** A backlog of n overage events is gone after ceil(n / 10) claims, whatever else is interleaved
      except replays: each claim dead-letters ten of them, or all that are left. */
  lemma {:induction false} BacklogDrains(w: World, steps: seq<Step>, limit: Time)
    requires Reachable(w) && Feasible(w, steps) && limit <= w.clock && Unleased(w.db.events, limit)
    requires forall k :: 0 <= k < |steps| ==> DrainStep(steps[k], limit)
    ensures var end := |Overage(Run(w, steps).db.events, limit)|;
      end == 0 || end + 10 * Claims(steps) <= |Overage(w.db.events, limit)|
    decreases |steps|
  {
    if steps == [] {
    } else {
      ReachableStep(w, steps[0]);
      DrainOne(w, steps[0], limit);
      BacklogDrains(Apply(w, steps[0]), steps[1..], limit);
    }
  }
}
