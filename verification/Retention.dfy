/** Cleanup removes only what it may, keeps references intact, and gets everything in the end. */
module Retention {
  import opened Basics
  import opened Tables
  import opened Policy
  import opened Queue
  import opened Sandbox
  import opened World
  import opened Guarantees

  // ---------------------------------------------------------------- safety

  /** Whatever a cleanup deletes belongs to a visitor whose session is over and is under no live lease;
      every session it drops is over and owns nothing; and no reference is left dangling. */
  lemma CleanupIsSafe(w: World, s: Step, i: Uuid, session: SessionId)
    requires Reachable(w) && Enabled(w, s) && s.Cleanup?
    ensures i in w.db.events && i !in Apply(w, s).db.events ==> var e := w.db.events[i];
      && e.source.Visitor? && e.sandboxId.Some?
      && e.sandboxId.value in w.db.sessions && w.db.sessions[e.sandboxId.value].expiresAt <= w.clock
      && (e.lease.Some? ==> e.lease.value <= w.clock)
      && !(e.claimId.Some? && LiveClaim(w, e.claimId.value))
    ensures session in w.db.sessions && session !in Apply(w, s).db.sessions ==>
      && w.db.sessions[session].expiresAt <= w.clock
      && forall j :: j in Apply(w, s).db.events ==> Apply(w, s).db.events[j].sandboxId != Some(session)
    ensures forall a :: a in w.db.attempts ==>
      (a in Apply(w, s).db.attempts <==> w.db.attempts[a].eventId in Apply(w, s).db.events)
    ensures ForeignKeys(Apply(w, s).db)
  {
    if i in w.db.events {
      RowFacts(w, i);
    }
    ReachableStep(w, s);
    ConstraintsAlwaysHold(Apply(w, s));
  }

  lemma StepMints(w: World, s: Step)
    requires Enabled(w, s)
    ensures w.minted <= Apply(w, s).minted
  {
  }

  lemma StepNeverRevives(w: World, s: Step, i: Uuid)
    requires Enabled(w, s) && i in w.minted && i !in w.db.events
    ensures i in Apply(w, s).minted && i !in Apply(w, s).db.events
  {
    if s.Claim? {
      ClaimStepEffect(w, s);
    }
  }

  lemma {:induction false} NeverRevived(w: World, steps: seq<Step>, i: Uuid)
    requires Feasible(w, steps) && i in w.minted && i !in w.db.events
    ensures i !in Run(w, steps).db.events
    decreases |steps|
  {
    if steps == [] {
    } else {
      StepNeverRevives(w, steps[0], i);
      NeverRevived(Apply(w, steps[0]), steps[1..], i);
    }
  }

  /** A worker that still holds a claim on a deleted event can never write anything with it. */
  lemma DeletedEventsRefuseRecords(w: World, steps: seq<Step>, c: Uuid, x: Exchange)
    requires Reachable(w) && Feasible(w, steps) && c in w.claims && w.claims[c].claimed.id !in w.db.events
    ensures var end := Run(w, steps);
      RecordTables(end.db, w.claims[c].claimed, Send(w.claims[c].claimed, x)) == end.db
  {
    IdentifierFacts(w);
    ClaimFacts(w, c);
    NeverRevived(w, steps, w.claims[c].claimed.id);
  }

  // ---------------------------------------------------------------- draining

  /** Events of the sessions in `over`. */
  function EventsUnder(t: Tables, over: set<SessionId>): set<Uuid> {
    set i | i in t.events && t.events[i].sandboxId.Some? && t.events[i].sandboxId.value in over
  }

  function SessionsUnder(t: Tables, over: set<SessionId>): set<SessionId> {
    set s | s in t.sessions && s in over
  }

  /** Rows of the sessions in `over` that cleanup still has to delete. */
  function Backlog(t: Tables, over: set<SessionId>): nat {
    |EventsUnder(t, over)| + |SessionsUnder(t, over)|
  }

  /** The sessions in `over` are expired at `limit` and own nothing leased beyond it. */
  ghost predicate Done(t: Tables, over: set<SessionId>, limit: Time) {
    && (forall s :: s in SessionsUnder(t, over) ==> t.sessions[s].expiresAt <= limit)
    && (forall i :: i in EventsUnder(t, over) && t.events[i].lease.Some? ==> t.events[i].lease.value <= limit)
  }

  /** They were admitted once, too, so no new session takes their place. */
  ghost predicate Over(w: World, over: set<SessionId>, limit: Time) {
    over <= w.admitted.Keys && Done(w.db, over, limit)
  }

  /** Claims read a clock past `limit`, and cleanups find every row unlocked. */
  predicate CleaningStep(s: Step, limit: Time) {
    && (s.Claim? ==> limit <= s.now)
    && (s.Cleanup? ==> s.locked == {})
  }

  /** Rows of other sessions, expired since, that this step deletes. */
  function Others(w: World, s: Step, over: set<SessionId>): nat {
    if s.Cleanup? then |s.doomed - EventsUnder(w.db, over)| + |s.dropped - SessionsUnder(w.db, over)| else 0
  }

  /** Taking a batch out of a set either exhausts it or, less what it took from elsewhere, is a full hundred. */
  lemma BatchTaken<T>(all: set<T>, batch: set<T>, mine: set<T>, left: set<T>)
    requires mine <= all && left <= mine - batch
    requires |batch| <= 100 && (|batch| < 100 ==> batch == all)
    ensures left == {} || |left| + 100 <= |mine| + |batch - mine|
  {
    if |batch| == 100 {
      assert batch == (batch - mine) + (batch * mine);
      assert mine == (mine - batch) + (batch * mine);
      SubsetBound(left, mine - batch);
    }
  }

  lemma DoneIsDeletable(t: Tables, over: set<SessionId>, limit: Time, now: Time)
    requires Done(t, over, limit) && limit <= now
    requires forall i :: i in EventsUnder(t, over) ==> t.events[i].sandboxId.value in t.sessions
    ensures EventsUnder(t, over) <= Deletable(t, now, {})
  {
  }

  lemma OwnersStored(w: World, over: set<SessionId>)
    requires Reachable(w)
    ensures forall i :: i in EventsUnder(w.db, over) ==> w.db.events[i].sandboxId.value in w.db.sessions
  {
    forall i | i in EventsUnder(w.db, over) ensures w.db.events[i].sandboxId.value in w.db.sessions {
      RowFacts(w, i);
    }
  }

  lemma CleanupTakesEvents(w: World, s: Step, over: set<SessionId>, limit: Time)
    requires Reachable(w) && Enabled(w, s) && s.Cleanup? && s.locked == {}
    requires limit <= w.clock && Over(w, over, limit)
    ensures var mine, left := EventsUnder(w.db, over), EventsUnder(Apply(w, s).db, over);
      left == {} || |left| + 100 <= |mine| + |s.doomed - mine|
  {
    var mine := EventsUnder(w.db, over);
    assert EventsUnder(Apply(w, s).db, over) == mine - s.doomed;
    OwnersStored(w, over);
    DoneIsDeletable(w.db, over, limit, w.clock);
    BatchTaken(Deletable(w.db, w.clock, {}), s.doomed, mine, mine - s.doomed);
  }

  /** Once none of their events is left the sessions are abandoned, so they are dropped by the hundred. */
  lemma CleanupTakesSessions(w: World, s: Step, over: set<SessionId>, limit: Time)
    requires Enabled(w, s) && s.Cleanup? && limit <= w.clock && Over(w, over, limit)
    requires EventsUnder(Apply(w, s).db, over) == {}
    ensures var mine, left := SessionsUnder(w.db, over), SessionsUnder(Apply(w, s).db, over);
      left == {} || |left| + 100 <= |mine| + |s.dropped - mine|
  {
    var mine, left := SessionsUnder(w.db, over), SessionsUnder(Apply(w, s).db, over);
    var all := Abandoned(w.db, s.doomed, w.clock);
    forall k | k in mine ensures k in all {
      assert !InUse(w.db.events - s.doomed, k) by {
        assert Apply(w, s).db.events == w.db.events - s.doomed;
        NobodyLeft(Apply(w, s).db, over, k);
      }
    }
    BatchTaken(all, s.dropped, mine, left);
  }

  lemma NobodyLeft(t: Tables, over: set<SessionId>, s: SessionId)
    requires EventsUnder(t, over) == {} && s in over
    ensures !InUse(t.events, s)
  {
    forall i | i in t.events ensures t.events[i].sandboxId != Some(s) {
      assert i !in EventsUnder(t, over);
    }
  }

  /** A cleanup finishes the backlog or takes a hundred rows from it, less those it took from others. */
  lemma CleanupStep(w: World, s: Step, over: set<SessionId>, limit: Time)
    requires Reachable(w) && Enabled(w, s) && s.Cleanup? && s.locked == {}
    requires limit <= w.clock && Over(w, over, limit)
    ensures var left := Backlog(Apply(w, s).db, over);
      left == 0 || left + 100 <= Backlog(w.db, over) + Others(w, s, over)
  {
    CleanupTakesEvents(w, s, over, limit);
    CleanupShrinks(w.db, s.doomed, s.dropped, w.clock, over, limit);
    SubsetBound(EventsUnder(Apply(w, s).db, over), EventsUnder(w.db, over));
    SubsetBound(SessionsUnder(Apply(w, s).db, over), SessionsUnder(w.db, over));
    if EventsUnder(Apply(w, s).db, over) == {} {
      CleanupTakesSessions(w, s, over, limit);
    }
  }

  /** From `t` to `t'` nothing is added to the backlog, and nothing in it is leased again. */
  ghost predicate Shrinks(t: Tables, t': Tables, over: set<SessionId>, limit: Time) {
    && EventsUnder(t', over) <= EventsUnder(t, over)
    && SessionsUnder(t', over) <= SessionsUnder(t, over)
    && Done(t', over, limit)
  }

  lemma ClaimShrinks(t: Tables, s: Step, after: map<Uuid, Event>, over: set<SessionId>, limit: Time)
    requires ClaimStep(s, t.events, after) && limit <= s.now && Done(t, over, limit)
    requires s.picked.Some? ==> SessionLive(t.sessions, t.events[s.picked.value], s.now)
    ensures Shrinks(t, t.(events := after), over, limit)
  {
    forall i | i in EventsUnder(t.(events := after), over)
      ensures i in EventsUnder(t, over) && (after[i].lease.Some? ==> after[i].lease.value <= limit)
    {
      assert i in EventsUnder(t, over);
    }
  }

  lemma RecordShrinks(t: Tables, claimed: ClaimedEvent, attempt: Attempt, over: set<SessionId>, limit: Time)
    requires Done(t, over, limit)
    ensures Shrinks(t, RecordTables(t, claimed, attempt), over, limit)
  {
  }

  lemma SubmitShrinks(t: Tables, session: SessionId, text: string, id: Uuid, digest: Digest, now: Time,
                      over: set<SessionId>, limit: Time)
    requires Done(t, over, limit) && limit <= now
    ensures Shrinks(t, SubmitTables(t, session, text, id, digest, now), over, limit)
  {
  }

  lemma CleanupShrinks(t: Tables, doomed: set<Uuid>, dropped: set<SessionId>, now: Time,
                       over: set<SessionId>, limit: Time)
    requires Done(t, over, limit)
    ensures Shrinks(t, CleanupTables(t, doomed, dropped, now), over, limit)
  {
  }

  lemma ReplayShrinks(w: World, s: Step, over: set<SessionId>, limit: Time)
    requires Enabled(w, s) && (s.OperatorReplay? || s.VisitorReplay?) && Done(w.db, over, limit)
    ensures Shrinks(w.db, Apply(w, s).db, over, limit)
  {
  }

  lemma OtherShrinks(w: World, s: Step, over: set<SessionId>, limit: Time)
    requires Enabled(w, s) && (s.Tick? || s.Accept? || s.Create?) && Over(w, over, limit)
    ensures Shrinks(w.db, Apply(w, s).db, over, limit)
  {
  }

  lemma AdmittedGrows(w: World, s: Step)
    requires Enabled(w, s)
    ensures w.admitted.Keys <= Apply(w, s).admitted.Keys
  {
  }

  /** The sessions are over for good, so whatever the step, their rows only get fewer. */
  lemma BacklogOnlyLeaves(w: World, s: Step, over: set<SessionId>, limit: Time)
    requires Enabled(w, s) && CleaningStep(s, limit) && limit <= w.clock && Over(w, over, limit)
    ensures Over(Apply(w, s), over, limit) && Shrinks(w.db, Apply(w, s).db, over, limit)
    ensures Backlog(Apply(w, s).db, over) <= Backlog(w.db, over)
  {
    AdmittedGrows(w, s);
    match s {
      case Claim(_, _, _, _, _) =>
        ClaimStepEffect(w, s);
        ClaimShrinks(w.db, s, Apply(w, s).db.events, over, limit);
      case Record(c, x) => RecordShrinks(w.db, w.claims[c].claimed, AttemptFor(w, c, x), over, limit);
      case Submit(session, text, id, digest) => SubmitShrinks(w.db, session, text, id, digest, w.clock, over, limit);
      case Cleanup(_, doomed, dropped) => CleanupShrinks(w.db, doomed, dropped, w.clock, over, limit);
      case OperatorReplay(_, _) => ReplayShrinks(w, s, over, limit);
      case VisitorReplay(_, _) => ReplayShrinks(w, s, over, limit);
      case _ => OtherShrinks(w, s, over, limit);
    }
    SubsetBound(EventsUnder(Apply(w, s).db, over), EventsUnder(w.db, over));
    SubsetBound(SessionsUnder(Apply(w, s).db, over), SessionsUnder(w.db, over));
  }

  lemma DrainStep(w: World, s: Step, over: set<SessionId>, limit: Time)
    requires Reachable(w) && Enabled(w, s) && CleaningStep(s, limit) && limit <= w.clock && Over(w, over, limit)
    ensures Over(Apply(w, s), over, limit) && limit <= Apply(w, s).clock
    ensures var before, after := Backlog(w.db, over), Backlog(Apply(w, s).db, over);
      after <= before && (s.Cleanup? ==> after == 0 || after + 100 <= before + Others(w, s, over))
  {
    BacklogOnlyLeaves(w, s, over, limit);
    if s.Cleanup? {
      CleanupStep(w, s, over, limit);
    }
  }

  ghost function Cleanups(steps: seq<Step>): nat {
    if steps == [] then 0 else (if steps[0].Cleanup? then 1 else 0) + Cleanups(steps[1..])
  }

  /** How many rows of other sessions the cleanups of a run delete. */
  ghost function OthersDeleted(w: World, steps: seq<Step>, over: set<SessionId>): nat
    requires Feasible(w, steps)
    decreases |steps|
  {
    if steps == [] then 0
    else Others(w, steps[0], over) + OthersDeleted(Apply(w, steps[0]), steps[1..], over)
  }

  /** Cleanups drain whatever has expired, while everything else goes on: with no lease left on them,
      the rows of any set of expired sessions are gone after as many cleanups as their number, plus
      that of the rows deleted for sessions that expired later, takes in batches of a hundred. */
  lemma {:induction false} CleanupsDrain(w: World, steps: seq<Step>, over: set<SessionId>, limit: Time)
    requires Reachable(w) && Feasible(w, steps) && limit <= w.clock && Over(w, over, limit)
    requires forall k :: 0 <= k < |steps| ==> CleaningStep(steps[k], limit)
    ensures Backlog(Run(w, steps).db, over) <= Backlog(w.db, over)
    ensures var left := Backlog(Run(w, steps).db, over);
      left == 0 || left + 100 * Cleanups(steps) <= Backlog(w.db, over) + OthersDeleted(w, steps, over)
    decreases |steps|
  {
    if steps == [] {
    } else {
      ReachableStep(w, steps[0]);
      DrainStep(w, steps[0], over, limit);
      CleanupsDrain(Apply(w, steps[0]), steps[1..], over, limit);
    }
  }
}
