/** Hourly quotas. Nothing here assumes anything about the clock: it may stall or step backwards. */
module Quota {
  import opened Basics
  import opened Tables
  import opened Sandbox
  import opened World
  import opened Invariant

  /** Taking the budget lock keeps the counters true, at any clock reading. */
  lemma RollKeeps(b: Budget, admitted: map<SessionId, Admission>, charges: seq<Admission>, now: Time)
    requires Windows(b, admitted, charges)
    ensures Windows(Roll(b, now), admitted, charges)
    ensures b.windowStart <= Roll(b, now).windowStart
  {
  }

  lemma SessionCharged(b: Budget, admitted: map<SessionId, Admission>, charges: seq<Admission>, s: SessionId, now: Time)
    requires Windows(b, admitted, charges) && s !in admitted && b.sessions < SESSIONS_PER_WINDOW
    ensures Windows(b.(sessions := b.sessions + 1), admitted[s := Admission(b.windowStart, now)], charges)
  {
    var after := admitted[s := Admission(b.windowStart, now)];
    forall h ensures |SessionsIn(after, h)| == |SessionsIn(admitted, h)| + if h == b.windowStart then 1 else 0 {
      SessionAdded(admitted, s, Admission(b.windowStart, now), h);
    }
  }

  lemma SessionAdded(admitted: map<SessionId, Admission>, s: SessionId, a: Admission, h: Time)
    requires s !in admitted
    ensures |SessionsIn(admitted[s := a], h)| == |SessionsIn(admitted, h)| + if h == a.window then 1 else 0
  {
    if h == a.window {
      assert SessionsIn(admitted[s := a], h) == SessionsIn(admitted, h) + {s};
    } else {
      assert SessionsIn(admitted[s := a], h) == SessionsIn(admitted, h);
    }
  }

  lemma AdmissionCharged(b: Budget, admitted: map<SessionId, Admission>, charges: seq<Admission>, now: Time)
    requires Windows(b, admitted, charges) && b.admissions < ADMISSIONS_PER_WINDOW
    ensures Windows(b.(admissions := b.admissions + 1), admitted, charges + [Admission(b.windowStart, now)])
  {
    var after := charges + [Admission(b.windowStart, now)];
    assert ChargesIn(after, b.windowStart) == ChargesIn(charges, b.windowStart) + {|charges|};
    forall h | h != b.windowStart ensures ChargesIn(after, h) == ChargesIn(charges, h) {
    }
  }

  // ---------------------------------------------------------------- any clock

  /** The tables with the history of what was ever charged to the budget. */
  datatype Books = Books(db: Tables, admitted: map<SessionId, Admission>, charges: seq<Admission>)

  /** One transaction at one clock reading, or any work that leaves the budget row alone. */
  datatype Visit =
    | Creates(session: SessionId, expiry: Time, now: Time)
    | Submits(session: SessionId, scenario: string, id: Uuid, digest: Digest, now: Time)
    | Replays(session: SessionId, id: Uuid, now: Time)
    | Sweeps(doomed: set<Uuid>, dropped: set<SessionId>, now: Time)
    | Unrelated(db: Tables)

  predicate Allowed(b: Books, v: Visit) {
    match v
    case Creates(session, _, _) => session !in b.admitted
    case Unrelated(db) => db.budget == b.db.budget
    case _ => true
  }

  function After(b: Books, v: Visit): Books {
    match v
    case Creates(session, expiry, now) =>
      if CreateVerdict(b.db, session, now).Committed? then
        Books(CreateTables(b.db, session, expiry, now),
              b.admitted[session := Admission(Roll(b.db.budget, now).windowStart, now)], b.charges)
      else b
    case Submits(session, scenario, id, digest, now) =>
      if SubmitVerdict(b.db, session, scenario, id, now).Committed? then
        Books(SubmitTables(b.db, session, scenario, id, digest, now), b.admitted,
              b.charges + [Admission(Roll(b.db.budget, now).windowStart, now)])
      else b
    case Replays(session, id, now) =>
      if VisitorReplayVerdict(b.db, session, id, now).Committed? then
        Books(VisitorReplayTables(b.db, session, id, now), b.admitted,
              b.charges + [Admission(Roll(b.db.budget, now).windowStart, now)])
      else b
    case Sweeps(doomed, dropped, now) => b.(db := CleanupTables(b.db, doomed, dropped, now))
    case Unrelated(db) => b.(db := db)
  }

  ghost predicate Balanced(b: Books) {
    Windows(b.db.budget, b.admitted, b.charges)
  }

  lemma VisitKeepsBalance(b: Books, v: Visit)
    requires Balanced(b) && Allowed(b, v)
    ensures Balanced(After(b, v))
    ensures b.db.budget.windowStart <= After(b, v).db.budget.windowStart
  {
    if !v.Unrelated? {
      RollKeeps(b.db.budget, b.admitted, b.charges, v.now);
      var rolled := Roll(b.db.budget, v.now);
      if v.Creates? && rolled.sessions < SESSIONS_PER_WINDOW {
        SessionCharged(rolled, b.admitted, b.charges, v.session, v.now);
      } else if !v.Creates? && rolled.admissions < ADMISSIONS_PER_WINDOW {
        AdmissionCharged(rolled, b.admitted, b.charges, v.now);
      }
    }
  }

  ghost predicate AllAllowed(b: Books, visits: seq<Visit>)
    decreases |visits|
  {
    visits == [] || (Allowed(b, visits[0]) && AllAllowed(After(b, visits[0]), visits[1..]))
  }

  function AfterAll(b: Books, visits: seq<Visit>): Books
    decreases |visits|
  {
    if visits == [] then b else AfterAll(After(b, visits[0]), visits[1..])
  }

  /** Over any run at any clock readings: the window never moves back, the counters are exactly what
      was charged to the current window, and no window in history exceeded 100 sessions or 1000 admissions. */
  lemma {:induction false} QuotasHoldAtAnyClock(b: Books, visits: seq<Visit>)
    requires Balanced(b) && AllAllowed(b, visits)
    ensures var end := AfterAll(b, visits);
      && b.db.budget.windowStart <= end.db.budget.windowStart
      && |SessionsIn(end.admitted, end.db.budget.windowStart)| == end.db.budget.sessions
      && |ChargesIn(end.charges, end.db.budget.windowStart)| == end.db.budget.admissions
      && (forall h :: |SessionsIn(end.admitted, h)| <= 100 && |ChargesIn(end.charges, h)| <= 1000)
    decreases |visits|
  {
    if visits == [] {
    } else {
      VisitKeepsBalance(b, visits[0]);
      QuotasHoldAtAnyClock(After(b, visits[0]), visits[1..]);
    }
  }

  /** The books start balanced. */
  lemma EmptyBooksBalance(hour: Time, db: Tables)
    requires db.budget == Budget(hour, 0, 0)
    ensures Balanced(Books(db, map[], []))
  {
  }

  // ---------------------------------------------------------------- one nondecreasing clock

  lemma HourOfMonotone(s: Time, t: Time)
    requires s <= t
    ensures HourOf(s) <= HourOf(t) && HourOf(t) <= t < HourOf(t) + HOUR && HourOf(t) % HOUR == 0
  {
  }

  /** An instant less than an hour before `u` falls in the hour of `u` or in the one before. */
  lemma RecentHours(a: Time, u: Time)
    requires u - HOUR < a <= u
    ensures HourOf(a) == HourOf(u) || HourOf(a) == HourOf(u) - HOUR
  {
  }

  function LiveAt(t: Tables, now: Time): set<SessionId> {
    set s | s in t.sessions && t.sessions[s].expiresAt > now
  }

  /** At most 200 sessions are unexpired at once, because 30 minutes touch two hourly windows. */
  lemma LiveSessionBound(w: World)
    requires SessionsAdmitted(w.db.sessions, w.admitted)
    requires Windows(w.db.budget, w.admitted, w.charges)
    requires HourlyCharges(w.db.budget, w.admitted, w.charges, w.clock)
    ensures |LiveAt(w.db, w.clock)| <= 200
  {
    var live, hour := LiveAt(w.db, w.clock), HourOf(w.clock);
    var recent := SessionsIn(w.admitted, hour) + SessionsIn(w.admitted, hour - HOUR);
    forall s | s in live ensures s in recent {
      assert Hourly(w.admitted[s], w.clock);
      RecentHours(w.admitted[s].at, w.clock);
    }
    SubsetBound(live, recent);
  }

  function ChargedWithin(charges: seq<Admission>, from: Time, to: Time): set<nat> {
    set k: nat | k < |charges| && from < charges[k].at <= to
  }

  /** Any hour, wherever it starts, saw at most 2000 event and replay admissions. */
  lemma SlidingHourBound(w: World, to: Time)
    requires Windows(w.db.budget, w.admitted, w.charges)
    requires HourlyCharges(w.db.budget, w.admitted, w.charges, w.clock)
    ensures |ChargedWithin(w.charges, to - HOUR, to)| <= 2000
  {
    var recent := ChargesIn(w.charges, HourOf(to)) + ChargesIn(w.charges, HourOf(to) - HOUR);
    forall k | k in ChargedWithin(w.charges, to - HOUR, to) ensures k in recent {
      assert Hourly(w.charges[k], w.clock);
      RecentHours(w.charges[k].at, to);
    }
    SubsetBound(ChargedWithin(w.charges, to - HOUR, to), recent);
  }
}
