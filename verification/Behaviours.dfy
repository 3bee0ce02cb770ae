/** How single calls on the database object fit into runs, and one run that breaks a promise. */
module Behaviours {
  import opened Basics
  import opened Tables
  import opened Policy
  import opened Queue
  import opened Sandbox
  import opened World
  import opened DatabaseStore
  import Notification

  lemma ClaimIssues(w: World, s: Step)
    requires Enabled(w, s) && s.Claim?
    ensures Apply(w, s).db == ClaimTables(w.db, s.retired, s.picked, s.now + LEASE, s.claimId)
    ensures s.picked.Some? ==>
      && s.picked.value in Apply(w, s).db.events && s.claimId in Apply(w, s).claims
      && Apply(w, s).claims[s.claimId]
         == Issued(ClaimedOf(s.picked.value, Apply(w, s).db.events[s.picked.value], s.claimId), s.now, false)
  {
    RetiredAndPickedDisjoint(w.db, s.now, s.locked, s.retired, s.picked);
  }

  /** Claim step `s` leads to the tables `after` and issues exactly what the claimant was told. */
  ghost predicate ClaimStepGives(w: World, s: Step, now: Time, claimId: Uuid, after: Tables,
                                 claimed: Option<ClaimedEvent>)
  {
    && s.Claim? && Enabled(w, s) && Apply(w, s).db == after
    && (claimed.Some? ==>
          claimId in Apply(w, s).claims && Apply(w, s).claims[claimId] == Issued(claimed.value, now, false))
  }

  lemma ChosenStepGives(w: World, s: Step, after: Tables, claimed: Option<ClaimedEvent>)
    requires s.Claim? && Enabled(w, s)
    requires ClaimChose(w.db, s.now, LEASE, s.claimId, s.locked, after, claimed, s.retired, s.picked)
    ensures ClaimStepGives(w, s, s.now, s.claimId, after, claimed)
  {
    ClaimIssues(w, s);
  }

  /** Any outcome of a claim statement, on the tables of any world, is a step of that world. */
  lemma ClaimIsStep(w: World, now: Time, claimId: Uuid, locked: set<Uuid>, after: Tables, claimed: Option<ClaimedEvent>)
    requires ClaimMay(w.db, now, LEASE, claimId, locked, after, claimed)
    requires now <= w.clock && claimId !in w.minted
    ensures exists s :: ClaimStepGives(w, s, now, claimId, after, claimed)
  {
    var retired, picked :| ClaimChose(w.db, now, LEASE, claimId, locked, after, claimed, retired, picked);
    var s := Step.Claim(now, claimId, locked, retired, picked);
    assert Enabled(w, s);
    ChosenStepGives(w, s, after, claimed);
  }

  /** Every other operation on the database object is a step, too, with the same tables, whenever its
      identifiers are new and its clock reading is the current one. */
  lemma OperationsAreSteps(w: World, r: Receipt, id: Uuid, key: string, session: SessionId, issuedAt: Time,
                           text: string, digest: Digest)
    ensures r.id !in w.minted && r.source.Operator? && r.externalId.Given? ==>
      Enabled(w, Step.Accept(r)) && Apply(w, Step.Accept(r)).db == AcceptTables(w.db, r, w.clock)
    ensures Enabled(w, Step.OperatorReplay(id, key))
      && Apply(w, Step.OperatorReplay(id, key)).db == ReplayTables(w.db, id, Operator(key), w.clock)
    ensures issuedAt <= w.clock && session !in w.admitted ==>
      && Enabled(w, Step.Create(session, issuedAt))
      && Apply(w, Step.Create(session, issuedAt)).db == CreateTables(w.db, session, issuedAt + 30 * MINUTE, w.clock)
    ensures id !in w.minted ==>
      && Enabled(w, Step.Submit(session, text, id, digest))
      && Apply(w, Step.Submit(session, text, id, digest)).db
         == SubmitTables(w.db, session, text, id, digest, w.clock)
    ensures Enabled(w, Step.VisitorReplay(session, id))
      && Apply(w, Step.VisitorReplay(session, id)).db == VisitorReplayTables(w.db, session, id, w.clock)
  {
  }

  /** A record by the worker that holds claim `c`, with clock readings in order since the claim. */
  lemma RecordIsStep(w: World, c: Uuid, x: Exchange)
    requires c in w.claims && w.claims[c].at <= x.startedAt <= x.finishedAt <= w.clock
    requires x.reply.Answered? ==> x.finishedAt <= x.reply.later <= w.clock && x.reply.attemptId !in w.minted
    requires x.reply.Failed? && x.reply.freshId.Some? ==> x.reply.freshId.value !in w.minted
    ensures var s, claimed := Step.Record(c, x), w.claims[c].claimed;
      && Enabled(w, s) && Apply(w, s).db == RecordTables(w.db, claimed, Send(claimed, x))
      && c in Apply(w, s).claims
      && Apply(w, s).claims[c] == w.claims[c].(recorded :=
           w.claims[c].recorded || RecordOutcome(w.db, claimed, Send(claimed, x)).Recorded?)
  {
  }

  lemma CleanupIsStep(w: World, locked: set<Uuid>, doomed: set<Uuid>, dropped: set<SessionId>)
    requires FirstDeletable(w.db, w.clock, locked, doomed) && SomeAbandoned(w.db, doomed, w.clock, dropped)
    ensures Enabled(w, Step.Cleanup(locked, doomed, dropped))
    ensures Apply(w, Step.Cleanup(locked, doomed, dropped)).db == CleanupTables(w.db, doomed, dropped, w.clock)
  {
  }

  /** The history charges an admission to the instant it commits, and nothing else to any. */
  lemma AdmissionsAreTimed(w: World, session: SessionId, text: string, id: Uuid, digest: Digest)
    ensures ApplySubmit(w, session, text, id, digest).charges == w.charges
      || (|ApplySubmit(w, session, text, id, digest).charges| == |w.charges| + 1
          && w.charges <= ApplySubmit(w, session, text, id, digest).charges
          && ApplySubmit(w, session, text, id, digest).charges[|w.charges|].at == w.clock)
    ensures ApplyVisitorReplay(w, session, id).charges == w.charges
      || (|ApplyVisitorReplay(w, session, id).charges| == |w.charges| + 1
          && w.charges <= ApplyVisitorReplay(w, session, id).charges
          && ApplyVisitorReplay(w, session, id).charges[|w.charges|].at == w.clock)
  {
  }

  // ---------------------------------------------------------------- the runs of a cycle

  /** What the outside supplies to one run of the worker: the clock reading, the claim's identifier, what
      the two subqueries return, and what happens during the send. */
  datatype Turn = Turn(now: Time, claimId: Uuid, retired: set<Uuid>, picked: Option<Uuid>, exchange: Exchange)

  /** One run of the worker as the cycle sees it. */
  function WorkerRun(t: Tables, turn: Turn): (Tables, Notification.Report) {
    var middle := ClaimTables(t, turn.retired, turn.picked, turn.now + LEASE, turn.claimId);
    if turn.picked.None? || turn.picked.value !in middle.events then (middle, Notification.Idle)
    else
      var claimed := ClaimedOf(turn.picked.value, middle.events[turn.picked.value], turn.claimId);
      var attempt := Send(claimed, turn.exchange);
      (RecordTables(middle, claimed, attempt),
       if RecordOutcome(middle, claimed, attempt).Recorded? then Notification.Processed else Notification.Broke)
  }

  /** The run ends in `after` and reports what the worker returns: idle, work done, or an error. */
  ghost predicate Reports(before: Tables, turn: Turn, after: Tables, result: RunResult) {
    && WorkerRun(before, turn).0 == after
    && (result == Idle <==> WorkerRun(before, turn).1.Idle?)
    && (result == Processed <==> WorkerRun(before, turn).1.Processed?)
    && (result.RecordFailed? <==> WorkerRun(before, turn).1.Broke?)
  }

  /** The run of `turn`, whose reading, claim and exchange are the given ones, leads to `after` and `result`. */
  ghost predicate TurnGives(before: Tables, turn: Turn, now: Time, claimId: Uuid, locked: set<Uuid>, x: Exchange,
                            after: Tables, result: RunResult)
  {
    && turn.now == now && turn.claimId == claimId && turn.exchange == x
    && OldestFew(before.events, now, locked, turn.retired) && FirstDue(before, now, locked, turn.picked)
    && Reports(before, turn, after, result)
  }

  lemma TurnRuns(before: Tables, turn: Turn, middle: Tables, claimed: Option<ClaimedEvent>, after: Tables,
                 result: RunResult)
    requires middle == ClaimTables(before, turn.retired, turn.picked, turn.now + LEASE, turn.claimId)
    requires turn.picked.Some? ==> turn.picked.value in middle.events
    requires claimed == match turn.picked
                        case None => None
                        case Some(i) => Some(ClaimedOf(i, middle.events[i], turn.claimId))
    requires RanOnce(middle, claimed, turn.exchange, after, result)
    ensures Reports(before, turn, after, result)
  {
  }

  /** The runner of `Notification.Cycle` is the worker: every outcome of `Worker.RunOnce` is the run of
      some turn with the same clock reading, claim identifier and exchange. */
  lemma RunOnceIsTurn(before: Tables, now: Time, claimId: Uuid, locked: set<Uuid>, x: Exchange,
                      middle: Tables, claimed: Option<ClaimedEvent>, after: Tables, result: RunResult)
    requires ClaimMay(before, now, LEASE, claimId, locked, middle, claimed)
    requires RanOnce(middle, claimed, x, after, result)
    ensures exists turn :: TurnGives(before, turn, now, claimId, locked, x, after, result)
  {
    var retired, picked :| ClaimChose(before, now, LEASE, claimId, locked, middle, claimed, retired, picked);
    var turn := Turn(now, claimId, retired, picked, x);
    RetiredAndPickedDisjoint(before, now, locked, retired, picked);
    TurnRuns(before, turn, middle, claimed, after, result);
    assert TurnGives(before, turn, now, claimId, locked, x, after, result);
  }

  // ---------------------------------------------------------------- a late answer

  /** A replay of an identifier nobody knows matches no row; received before the read that explains it,
      it is reported to be in the wrong state instead of missing. */
  lemma LateReplayAnswerDrifts(w: World)
    requires Initial(w)
    ensures Feasible(w, [Step.Accept(Sample())])
    ensures RefusedReplay(w.db, 1, Operator("orders")) == NotFound
    ensures RefusedReplay(Run(w, [Step.Accept(Sample())]).db, 1, Operator("orders")) == ReplayResult.InvalidState
  {
    var steps := [Step.Accept(Sample())];
    assert Feasible(Apply(w, steps[0]), steps[1..]);
    assert Run(w, steps) == Apply(w, steps[0]);
  }

  // ---------------------------------------------------------------- a response no attempt can store

  const OUT_OF_RANGE: Word16 := 600

  function Sample(): Receipt {
    Receipt(1, Operator("orders"), Given("e-1"), 7, Endpoint("https://example.test/hook"))
  }

  /** Receipt, claim, and a receiver that answers 600. */
  function SampleRun(): seq<Step> {
    [Step.Accept(Sample()),
     Step.Claim(0, 2, {}, {}, Some(1)),
     Step.Record(2, Exchange(0, 0, Answered(3, OUT_OF_RANGE, 0), 0))]
  }

  lemma SampleClaimed(w: World)
    requires Initial(w) && w.clock == 0
    ensures Enabled(w, SampleRun()[0])
    ensures var accepted := Apply(w, SampleRun()[0]);
      && accepted.db.events == map[1 := NewEvent(Sample(), None, 0)]
      && Enabled(accepted, SampleRun()[1])
  {
  }

  lemma SampleRefused(w: World)
    requires Initial(w) && w.clock == 0
    requires Enabled(w, SampleRun()[0]) && Enabled(Apply(w, SampleRun()[0]), SampleRun()[1])
    ensures var claimed := Apply(Apply(w, SampleRun()[0]), SampleRun()[1]);
      && Enabled(claimed, SampleRun()[2])
      && (var end := Apply(claimed, SampleRun()[2]);
          && 1 in end.db.events && end.db.events[1].state.Delivering?
          && end.db.attempts == map[] && 2 in end.claims && !end.claims[2].recorded)
  {
    SampleClaimed(w);
    var accepted := Apply(w, SampleRun()[0]);
    var claimed := Apply(accepted, SampleRun()[1]);
    assert claimed.db.attempts == map[] && 2 in claimed.claims;
    assert !AttemptChecks(RowOf(claimed.claims[2].claimed, AttemptFor(claimed, 2, SampleRun()[2].exchange)));
  }

  /** The contract calls every other response terminal and every attempt durable. A status of 600 is
      classified as terminal, yet the event stays in delivery and no attempt is stored. */
  lemma TerminalResponseLost(w: World)
    requires Initial(w) && w.clock == 0
    ensures HttpOutcome(OUT_OF_RANGE).TerminalHttp?
    ensures Feasible(w, SampleRun())
    ensures var end := Run(w, SampleRun());
      && 1 in end.db.events && end.db.events[1].state.Delivering?
      && end.db.attempts == map[] && 2 in end.claims && !end.claims[2].recorded
  {
    SampleClaimed(w);
    var steps := SampleRun();
    var accepted := Apply(w, steps[0]);
    var claimed := Apply(accepted, steps[1]);
    SampleRefused(w);
    RunOfThree(w, steps);
  }

  lemma RunOfThree(w: World, steps: seq<Step>)
    requires |steps| == 3 && Enabled(w, steps[0]) && Enabled(Apply(w, steps[0]), steps[1])
    requires Enabled(Apply(Apply(w, steps[0]), steps[1]), steps[2])
    ensures Feasible(w, steps) && Run(w, steps) == Apply(Apply(Apply(w, steps[0]), steps[1]), steps[2])
  {
    var one, two := steps[1..], steps[2..];
    assert one[1..] == two && two[1..] == [];
    var a := Apply(w, steps[0]);
    var b := Apply(a, steps[1]);
    assert Feasible(Apply(b, steps[2]), two[1..]);
    assert Feasible(b, two) && Run(b, two) == Run(Apply(b, steps[2]), two[1..]);
    assert Feasible(a, one) && Run(a, one) == Run(b, two);
  }
}
