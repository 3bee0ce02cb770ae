/** The whole system as a state machine: the tables, one clock, and the history of what was issued.
    A step is one committed statement or transaction; a worker that crashes simply takes no further
    step, so every interleaving of workers, visitors and operators is a sequence of these steps. */
module World {
  import opened Basics
  import opened Tables
  import opened Policy
  import opened Queue
  import opened Sandbox

  /** One claim ever issued, and whether its attempt was recorded. */
  datatype Issued = Issued(claimed: ClaimedEvent, at: Time, recorded: bool)

  /** Claims counted over an event's whole life: first claims of an attempt, and lease recoveries. */
  datatype Life = Life(createdAt: Time, firsts: int, recovered: int, last: Time)

  /** A session's admission: the budget window it was charged to, and when. */
  datatype Admission = Admission(window: Time, at: Time)

  datatype World = World(
    db: Tables,
    clock: Time,
    minted: set<Uuid>,
    claims: map<Uuid, Issued>,
    lives: map<Uuid, Life>,
    admitted: map<SessionId, Admission>,
    charges: seq<Admission>,
    receipts: map<(string, ExternalId), (Uuid, Digest)>)

  datatype Step =
    | Tick(to: Time)
    | Accept(receipt: Receipt)
    | Claim(now: Time, claimId: Uuid, locked: set<Uuid>, retired: set<Uuid>, picked: Option<Uuid>)
    | Record(claimId: Uuid, exchange: Exchange)
    | OperatorReplay(id: Uuid, key: string)
    | Create(session: SessionId, issuedAt: Time)
    | Submit(session: SessionId, scenario: string, id: Uuid, digest: Digest)
    | VisitorReplay(session: SessionId, id: Uuid)
    | Cleanup(locked: set<Uuid>, doomed: set<Uuid>, dropped: set<SessionId>)

  /** The state the two migrations leave behind. */
  ghost predicate Initial(w: World) {
    w == World(Tables(map[], map[], map[], Budget(HourOf(w.clock), 0, 0)), w.clock,
               {}, map[], map[], map[], [], map[])
  }

  predicate FreshReply(minted: set<Uuid>, reply: Reply) {
    match reply
    case Failed(_, freshId) => freshId.Some? ==> freshId.value !in minted
    case Answered(attemptId, _, _) => attemptId !in minted
  }

  /** Which steps the environment can take: identifiers are fresh, clock readings are not from the
      future, and selections are ones the queries may return. Any operation may be refused. */
  ghost predicate Enabled(w: World, s: Step) {
    match s
    case Tick(to) => w.clock <= to
    case Accept(receipt) => receipt.id !in w.minted && receipt.source.Operator? && receipt.externalId.Given?
    case Claim(now, claimId, locked, retired, picked) =>
      && now <= w.clock && claimId !in w.minted
      && OldestFew(w.db.events, now, locked, retired) && FirstDue(w.db, now, locked, picked)
    case Record(claimId, exchange) =>
      && claimId in w.claims
      && Timely(w.claims[claimId].claimed, exchange, w.claims[claimId].at, w.clock)
      && FreshReply(w.minted, exchange.reply)
    case OperatorReplay(id, key) => true
    case Create(session, issuedAt) => issuedAt <= w.clock && session !in w.admitted
    case Submit(session, scenario, id, digest) => id !in w.minted
    case VisitorReplay(session, id) => true
    case Cleanup(locked, doomed, dropped) =>
      FirstDeletable(w.db, w.clock, locked, doomed) && SomeAbandoned(w.db, doomed, w.clock, dropped)
  }

  function ReplyIds(reply: Reply): set<Uuid> {
    match reply
    case Failed(_, freshId) => if freshId.Some? then {freshId.value} else {}
    case Answered(attemptId, _, _) => {attemptId}
  }

  function AttemptFor(w: World, claimId: Uuid, x: Exchange): Attempt
    requires claimId in w.claims
  {
    Send(w.claims[claimId].claimed, x)
  }

  function Grow(life: Life, recovery: bool, now: Time): Life {
    if recovery then life.(recovered := life.recovered + 1, last := now)
    else life.(firsts := life.firsts + 1, last := now)
  }

  function ApplyClaim(w: World, now: Time, claimId: Uuid, retired: set<Uuid>, picked: Option<Uuid>): World {
    var db := ClaimTables(w.db, retired, picked, now + LEASE, claimId);
    if picked.Some? && picked.value in w.db.events then
      var i := picked.value;
      w.(db := db, minted := w.minted + {claimId},
         claims := w.claims[claimId := Issued(ClaimedOf(i, db.events[i], claimId), now, false)],
         lives := if i in w.lives
           then w.lives[i := Grow(w.lives[i], w.db.events[i].state.Delivering?, now)] else w.lives)
    else w.(db := db, minted := w.minted + {claimId})
  }

  function ApplyRecord(w: World, claimId: Uuid, x: Exchange): World
    requires claimId in w.claims
  {
    var claimed := w.claims[claimId].claimed;
    var attempt := AttemptFor(w, claimId, x);
    w.(db := RecordTables(w.db, claimed, attempt),
       minted := w.minted + ReplyIds(x.reply),
       claims := if RecordOutcome(w.db, claimed, attempt).Recorded?
         then w.claims[claimId := w.claims[claimId].(recorded := true)] else w.claims)
  }

  function ApplyAccept(w: World, r: Receipt): World {
    if !Inserts(w.db, r) then w.(minted := w.minted + {r.id})
    else
      w.(db := AcceptTables(w.db, r, w.clock), minted := w.minted + {r.id},
         lives := w.lives[r.id := Life(w.clock, 0, 0, w.clock)],
         receipts := match r.source
           case Operator(key) => w.receipts[(key, r.externalId) := (r.id, r.digest)]
           case Visitor(_) => w.receipts)
  }

  function Charge(w: World): Admission {
    Admission(Roll(w.db.budget, w.clock).windowStart, w.clock)
  }

  function ApplyCreate(w: World, session: SessionId, issuedAt: Time): World {
    if CreateVerdict(w.db, session, w.clock).Committed? then
      w.(db := CreateTables(w.db, session, issuedAt + SESSION_LIFETIME, w.clock),
         admitted := w.admitted[session := Charge(w)])
    else w
  }

  function ApplySubmit(w: World, session: SessionId, scenario: string, id: Uuid, digest: Digest): World {
    if SubmitVerdict(w.db, session, scenario, id, w.clock).Committed? then
      w.(db := SubmitTables(w.db, session, scenario, id, digest, w.clock),
         minted := w.minted + {id},
         lives := w.lives[id := Life(w.clock, 0, 0, w.clock)],
         charges := w.charges + [Charge(w)])
    else w.(minted := w.minted + {id})
  }

  function ApplyVisitorReplay(w: World, session: SessionId, id: Uuid): World {
    if VisitorReplayVerdict(w.db, session, id, w.clock).Committed? then
      w.(db := VisitorReplayTables(w.db, session, id, w.clock), charges := w.charges + [Charge(w)])
    else w
  }

  ghost function Apply(w: World, s: Step): World
    requires Enabled(w, s)
  {
    match s
    case Tick(to) => w.(clock := to)
    case Accept(receipt) => ApplyAccept(w, receipt)
    case Claim(now, claimId, locked, retired, picked) => ApplyClaim(w, now, claimId, retired, picked)
    case Record(claimId, exchange) => ApplyRecord(w, claimId, exchange)
    case OperatorReplay(id, key) => w.(db := ReplayTables(w.db, id, Operator(key), w.clock))
    case Create(session, issuedAt) => ApplyCreate(w, session, issuedAt)
    case Submit(session, scenario, id, digest) => ApplySubmit(w, session, scenario, id, digest)
    case VisitorReplay(session, id) => ApplyVisitorReplay(w, session, id)
    case Cleanup(locked, doomed, dropped) => w.(db := CleanupTables(w.db, doomed, dropped, w.clock))
  }

  /** What a claim step does to the events, row by row. */
  ghost predicate ClaimStep(s: Step, before: map<Uuid, Event>, after: map<Uuid, Event>) {
    s.Claim? && ClaimedRows(before, after, s.now, s.retired, s.picked, s.now + LEASE, s.claimId)
  }

  lemma ClaimStepEffect(w: World, s: Step)
    requires Enabled(w, s) && s.Claim?
    ensures ClaimStep(s, w.db.events, Apply(w, s).db.events)
    ensures s.picked.Some? ==> SessionLive(w.db.sessions, w.db.events[s.picked.value], s.now)
    ensures Apply(w, s).db == w.db.(events := Apply(w, s).db.events)
  {
    ClaimEffect(w.db, s.now, s.locked, s.retired, s.picked, s.now + LEASE, s.claimId);
  }

  /** `steps` can be taken one after another from `w`. */
  ghost predicate Feasible(w: World, steps: seq<Step>)
    decreases |steps|
  {
    steps == [] || (Enabled(w, steps[0]) && Feasible(Apply(w, steps[0]), steps[1..]))
  }

  ghost function Run(w: World, steps: seq<Step>): World
    requires Feasible(w, steps)
    decreases |steps|
  {
    if steps == [] then w else Run(Apply(w, steps[0]), steps[1..])
  }
}
