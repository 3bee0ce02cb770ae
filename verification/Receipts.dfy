/** Idempotent receipt, and what is never forgotten about an operator's events. */
module Receipts {
  import opened Basics
  import opened Tables
  import opened Queue
  import opened Sandbox
  import opened World
  import opened Invariant
  import opened Guarantees
  import opened Retention

  /** Receipt as a plain insert-if-absent map from idempotency key to identifier and digest. */
  function MapAnswer(receipts: map<(string, ExternalId), (Uuid, Digest)>, key: string, r: Receipt): AcceptResult {
    if (key, r.externalId) !in receipts then Accepted(r.id, false)
    else if receipts[(key, r.externalId)].1 == r.digest then Accepted(receipts[(key, r.externalId)].0, true)
    else Conflict
  }

  function MapAfter(receipts: map<(string, ExternalId), (Uuid, Digest)>, key: string, r: Receipt)
    : map<(string, ExternalId), (Uuid, Digest)>
  {
    if (key, r.externalId) in receipts then receipts else receipts[(key, r.externalId) := (r.id, r.digest)]
  }

  /** The stored row is the received event, due at once, with its whole attempt budget. */
  predicate Faithful(e: Event, r: Receipt) {
    && SameKey(e, r.source, r.externalId) && e.digest == r.digest && e.destination == r.destination
    && e.state.Pending? && e.nextAttemptAt == e.createdAt && e.attemptCount == 0 && e.replayCount == 0
    && e.sandboxId.None?
  }

  lemma ReceiptFacts(w: World)
    requires Reachable(w)
    ensures ReceiptInv(w) && w.db.events.Keys <= w.minted
  {
    ReachableInv(w);
  }

  lemma KeyTakenIff(w: World, key: string, x: ExternalId)
    requires ReceiptsMatch(w.db.events, w.receipts)
    ensures KeyTaken(w.db.events, Operator(key), x) <==> (key, x) in w.receipts
  {
  }

  /** The fields of an event that identify it and its content. */
  predicate SameIdentity(e: Event, f: Event) {
    && e.source == f.source && e.externalId == f.externalId && e.digest == f.digest
    && e.destination == f.destination && e.createdAt == f.createdAt && e.sandboxId == f.sandboxId
  }

  ghost predicate KeepsReceipts(w: World, w': World) {
    forall k :: k in w.receipts ==> k in w'.receipts && w'.receipts[k] == w.receipts[k]
  }

  /** An operator's events stay; a visitor's may be deleted, but none ever turns into another event. */
  ghost predicate KeepsEvents(w: World, w': World) {
    forall i :: i in w.db.events ==>
      && (w.db.events[i].source.Operator? ==> i in w'.db.events)
      && (i in w'.db.events ==> SameIdentity(w.db.events[i], w'.db.events[i]))
  }

  predicate OfOperator(t: Tables, r: AttemptRow) {
    r.eventId in t.events && t.events[r.eventId].source.Operator?
  }

  ghost predicate KeepsAttempts(w: World, w': World) {
    forall a :: a in w.db.attempts && OfOperator(w.db, w.db.attempts[a])
      ==> a in w'.db.attempts && w'.db.attempts[a] == w.db.attempts[a]
  }

  /** Nothing an operator submitted is lost or rewritten. */
  ghost predicate Remembers(w: World, w': World) {
    KeepsReceipts(w, w') && KeepsEvents(w, w') && KeepsAttempts(w, w')
  }

  lemma CleanupRemembers(w: World, s: Step)
    requires VisitorRows(w.db.events, w.db.sessions, w.clock) && s.Cleanup? && Enabled(w, s)
    ensures Remembers(w, Apply(w, s))
  {
  }

  lemma AcceptRemembers(w: World, r: Receipt)
    requires ReceiptsMatch(w.db.events, w.receipts) && Enabled(w, Step.Accept(r))
    ensures Remembers(w, ApplyAccept(w, r))
  {
    KeyTakenIff(w, r.source.key, r.externalId);
    if Inserts(w.db, r) {
      InsertRemembers(w, ApplyAccept(w, r), r.id);
    }
  }

  /** An insert under an unused identifier leaves everything else as it was. */
  lemma InsertRemembers(w: World, w': World, i: Uuid)
    requires i !in w.db.events && w'.db.events - {i} == w.db.events
    requires w'.db.attempts == w.db.attempts && KeepsReceipts(w, w')
    ensures Remembers(w, w')
  {
    forall j | j in w.db.events ensures j in w'.db.events && w'.db.events[j] == w.db.events[j] {
      assert j in w'.db.events - {i};
    }
  }

  lemma ClaimRemembers(w: World, s: Step)
    requires s.Claim? && Enabled(w, s)
    ensures Remembers(w, Apply(w, s))
  {
    ClaimStepEffect(w, s);
  }

  lemma RecordRemembers(w: World, s: Step)
    requires s.Record? && Enabled(w, s)
    ensures Remembers(w, Apply(w, s))
  {
  }

  lemma SubmitRemembers(w: World, s: Step)
    requires s.Submit? && Enabled(w, s)
    ensures Remembers(w, Apply(w, s))
  {
    if SubmitVerdict(w.db, s.session, s.scenario, s.id, w.clock).Committed? {
      InsertRemembers(w, Apply(w, s), s.id);
    }
  }

  lemma OperatorReplayRemembers(w: World, s: Step)
    requires s.OperatorReplay? && Enabled(w, s)
    ensures Remembers(w, Apply(w, s))
  {
  }

  lemma VisitorReplayRemembers(w: World, s: Step)
    requires s.VisitorReplay? && Enabled(w, s)
    ensures Remembers(w, Apply(w, s))
  {
  }

  lemma OthersRemember(w: World, s: Step)
    requires s.Create? || s.Tick?
    requires Enabled(w, s)
    ensures Remembers(w, Apply(w, s))
  {
  }

  lemma StepRemembers(w: World, s: Step)
    requires Reachable(w) && Enabled(w, s)
    ensures Remembers(w, Apply(w, s))
  {
    MatchFacts(w);
    match s
    case Accept(r) => AcceptRemembers(w, r);
    case Claim(_, _, _, _, _) => ClaimRemembers(w, s);
    case Record(_, _) => RecordRemembers(w, s);
    case Cleanup(_, _, _) => CleanupRemembers(w, s);
    case Submit(_, _, _, _) => SubmitRemembers(w, s);
    case VisitorReplay(_, _) => VisitorReplayRemembers(w, s);
    case OperatorReplay(_, _) => OperatorReplayRemembers(w, s);
    case _ => OthersRemember(w, s);
  }

  lemma MatchFacts(w: World)
    requires Reachable(w)
    ensures ReceiptsMatch(w.db.events, w.receipts) && VisitorRows(w.db.events, w.db.sessions, w.clock)
  {
    ReachableInv(w);
  }

  lemma RemembersTransitive(u: World, v: World, w: World)
    requires Remembers(u, v) && Remembers(v, w)
    requires forall i :: i in u.db.events && i !in v.db.events ==> i !in w.db.events
    ensures Remembers(u, w)
  {
  }

  /** The first digest wins forever: over any run, whatever workers, visitors, replays and cleanup do,
      receipts, operator events and their recorded attempts are kept exactly as they were. */
  lemma {:induction false} OperatorHistoryIsPermanent(w: World, steps: seq<Step>)
    requires Reachable(w) && Feasible(w, steps)
    ensures Remembers(w, Run(w, steps))
    decreases |steps|
  {
    if steps == [] {
    } else {
      var next, end := Apply(w, steps[0]), Run(w, steps);
      StepRemembers(w, steps[0]);
      ReachableStep(w, steps[0]);
      OperatorHistoryIsPermanent(next, steps[1..]);
      forall i | i in w.db.events && i !in next.db.events ensures i !in end.db.events {
        ReceiptFacts(w);
        StepMints(w, steps[0]);
        NeverRevived(next, steps[1..], i);
      }
      RemembersTransitive(w, next, end);
    }
  }

  lemma {:induction false} ReachableRun(w: World, steps: seq<Step>)
    requires Reachable(w) && Feasible(w, steps)
    ensures Reachable(Run(w, steps))
    decreases |steps|
  {
    if steps == [] {
    } else {
      ReachableStep(w, steps[0]);
      ReachableRun(Apply(w, steps[0]), steps[1..]);
    }
  }

  // ---------------------------------------------------------------- answers

  /** Reading the row of a key that was received gives what the map holds for it. */
  lemma ExistingIsMapped(w: World, r: Receipt, key: string, result: AcceptResult)
    requires Reachable(w) && r.source == Operator(key) && (key, r.externalId) in w.receipts
    ensures ExistingAnswer(w.db, r, result) <==> result == MapAnswer(w.receipts, key, r)
  {
    ReceiptFacts(w);
    var i := w.receipts[(key, r.externalId)].0;
    assert SameKey(w.db.events[i], r.source, r.externalId);
    forall j | j in w.db.events && SameKey(w.db.events[j], r.source, r.externalId) ensures j == i {
    }
  }

  /** A later read gives the same, for what was received is never forgotten. */
  lemma LateReadIsMapped(w: World, others: seq<Step>, r: Receipt, key: string, result: AcceptResult)
    requires Reachable(w) && r.source == Operator(key) && (key, r.externalId) in w.receipts && Feasible(w, others)
    ensures ExistingAnswer(Run(w, others).db, r, result) <==> result == MapAnswer(w.receipts, key, r)
  {
    ReachableRun(w, others);
    OperatorHistoryIsPermanent(w, others);
    assert Run(w, others).receipts[(key, r.externalId)] == w.receipts[(key, r.externalId)];
    ExistingIsMapped(Run(w, others), r, key, result);
  }

  lemma AcceptEffect(w: World, r: Receipt, key: string)
    requires Reachable(w) && Enabled(w, Step.Accept(r)) && r.source == Operator(key)
    ensures InsertOutcome(w.db, r) == if (key, r.externalId) in w.receipts then KeyPresent else RowInserted
    ensures Apply(w, Step.Accept(r)).receipts == MapAfter(w.receipts, key, r)
  {
    ReceiptFacts(w);
    KeyTakenIff(w, key, r.externalId);
  }

  /** In every reachable world the answer and the effect of a receipt are those of the map, whatever
      others commit between the insert and the read: the first digest wins, an equal one returns the
      original identifier as a duplicate, and a different one conflicts and changes nothing. */
  lemma AcceptRefinesMap(w: World, r: Receipt, key: string, others: seq<Step>, result: AcceptResult)
    requires Reachable(w) && Enabled(w, Step.Accept(r)) && r.source == Operator(key)
    requires Feasible(Apply(w, Step.Accept(r)), others)
    ensures AcceptAnswer(w.db, Run(Apply(w, Step.Accept(r)), others).db, r, result)
      <==> result == MapAnswer(w.receipts, key, r)
    ensures Apply(w, Step.Accept(r)).receipts == MapAfter(w.receipts, key, r)
    ensures (key, r.externalId) in w.receipts ==> Apply(w, Step.Accept(r)).db == w.db
    ensures (key, r.externalId) !in w.receipts ==>
      && r.id in Apply(w, Step.Accept(r)).db.events
      && Faithful(Apply(w, Step.Accept(r)).db.events[r.id], r)
  {
    var after := Apply(w, Step.Accept(r));
    AcceptEffect(w, r, key);
    if (key, r.externalId) in w.receipts {
      ReachableStep(w, Step.Accept(r));
      LateReadIsMapped(after, others, r, key, result);
    }
  }

  /** A replay that matched no row explains itself by a later read. What it then says differs from the
      truth at the update if and only if the identifier was unknown then and was received under this
      very source before the read; so for an identifier that was ever issued it never differs. */
  lemma LateReplayAnswerIff(w: World, id: Uuid, key: string, others: seq<Step>)
    requires Reachable(w) && Feasible(w, others)
    ensures var early, later := RefusedReplay(w.db, id, Operator(key)), Run(w, others).db;
      RefusedReplay(later, id, Operator(key)) != early
      <==> id !in w.minted && id in later.events && later.events[id].source == Operator(key)
  {
    ReceiptFacts(w);
    OperatorHistoryIsPermanent(w, others);
    if id in w.minted && id !in w.db.events {
      NeverRevived(w, others, id);
    }
  }

  // ---------------------------------------------------------------- overview

  datatype Overview = Overview(pending: nat, delivering: nat, delivered: nat, retrying: nat, deadLettered: nat)

  function InState(events: map<Uuid, Event>, source: Source, state: State): set<Uuid> {
    set i | i in events && events[i].source == source && events[i].state == state
  }

  function OverviewOf(events: map<Uuid, Event>, source: Source): Overview {
    Overview(|InState(events, source, Pending)|, |InState(events, source, Delivering)|,
             |InState(events, source, Delivered)|, |InState(events, source, RetryScheduled)|,
             |InState(events, source, DeadLettered)|)
  }

  function KeysOf(receipts: map<(string, ExternalId), (Uuid, Digest)>, key: string): set<(string, ExternalId)> {
    set k | k in receipts && k.0 == key
  }

  function OfSource(events: map<Uuid, Event>, source: Source): set<Uuid> {
    set i | i in events && events[i].source == source
  }

  lemma FiveDisjoint<T>(a: set<T>, b: set<T>, c: set<T>, d: set<T>, e: set<T>)
    requires a !! b !! c !! d !! e
    ensures |a + b + c + d + e| == |a| + |b| + |c| + |d| + |e|
  {
  }

  lemma StatesCover(events: map<Uuid, Event>, source: Source)
    ensures OfSource(events, source)
      == InState(events, source, Pending) + InState(events, source, Delivering) + InState(events, source, Delivered)
       + InState(events, source, RetryScheduled) + InState(events, source, DeadLettered)
  {
  }

  lemma StatesPartition(events: map<Uuid, Event>, source: Source)
    ensures var o := OverviewOf(events, source);
      o.pending + o.delivering + o.delivered + o.retrying + o.deadLettered == |OfSource(events, source)|
  {
    var p, d := InState(events, source, Pending), InState(events, source, Delivering);
    var s, r := InState(events, source, Delivered), InState(events, source, RetryScheduled);
    var x := InState(events, source, DeadLettered);
    StatesCover(events, source);
    FiveDisjoint(p, d, s, r, x);
  }

  lemma EventsAtMostKeys(w: World, key: string)
    requires ReceiptInv(w)
    ensures |OfSource(w.db.events, Operator(key))| <= |KeysOf(w.receipts, key)|
  {
    var events, keys := OfSource(w.db.events, Operator(key)), KeysOf(w.receipts, key);
    var keyOf := map i | i in events :: (key, w.db.events[i].externalId);
    InjectionBound(events, keys, keyOf);
  }

  lemma KeysAtMostEvents(w: World, key: string)
    requires ReceiptInv(w)
    ensures |KeysOf(w.receipts, key)| <= |OfSource(w.db.events, Operator(key))|
  {
    var events, keys := OfSource(w.db.events, Operator(key)), KeysOf(w.receipts, key);
    var eventOf: map<(string, ExternalId), Uuid> := map k | k in keys :: w.receipts[k].0;
    InjectionBound(keys, events, eventOf);
  }

  /** Each set of the overview is the rows of one state and source. */
  lemma CountsByState(events: map<Uuid, Event>, source: Source)
    ensures InState(events, source, Pending)
      == set i | i in events && events[i].source == source && events[i].state.Pending?
    ensures InState(events, source, Delivering)
      == set i | i in events && events[i].source == source && events[i].state.Delivering?
    ensures InState(events, source, Delivered)
      == set i | i in events && events[i].source == source && events[i].state.Delivered?
    ensures InState(events, source, RetryScheduled)
      == set i | i in events && events[i].source == source && events[i].state.RetryScheduled?
    ensures InState(events, source, DeadLettered)
      == set i | i in events && events[i].source == source && events[i].state.DeadLettered?
  {
  }

  /** The five overview counts of an operator always add up to the number of distinct keys accepted. */
  lemma OverviewCountsReceipts(w: World, key: string)
    requires Reachable(w)
    ensures var o := OverviewOf(w.db.events, Operator(key));
      && o.pending + o.delivering + o.delivered + o.retrying + o.deadLettered == |KeysOf(w.receipts, key)|
      && o.pending == |set i | i in w.db.events && w.db.events[i].source == Operator(key)
                               && w.db.events[i].state.Pending?|
      && o.delivering == |set i | i in w.db.events && w.db.events[i].source == Operator(key)
                                  && w.db.events[i].state.Delivering?|
      && o.delivered == |set i | i in w.db.events && w.db.events[i].source == Operator(key)
                                 && w.db.events[i].state.Delivered?|
      && o.retrying == |set i | i in w.db.events && w.db.events[i].source == Operator(key)
                                && w.db.events[i].state.RetryScheduled?|
      && o.deadLettered == |set i | i in w.db.events && w.db.events[i].source == Operator(key)
                                    && w.db.events[i].state.DeadLettered?|
  {
    CountsByState(w.db.events, Operator(key));
    ReceiptFacts(w);
    StatesPartition(w.db.events, Operator(key));
    EventsAtMostKeys(w, key);
    KeysAtMostEvents(w, key);
  }
}
