/** A claim keeps the invariant: first the retired rows change, then the leased one. */
module ClaimKeeps {
  import opened Basics
  import opened Tables
  import opened Queue
  import opened World
  import opened Invariant

  // ---------------------------------------------------------------- retiring

  ghost predicate MayRetire(events: map<Uuid, Event>, retired: set<Uuid>, now: Time) {
    forall r :: r in retired ==> r in events && Retirable(events[r], now)
  }

  lemma RetireLedgers(events: map<Uuid, Event>, attempts: map<Uuid, AttemptRow>, retired: set<Uuid>, now: Time)
    requires Shapes(events) && Ledgers(events, attempts) && MayRetire(events, retired, now)
    ensures Shapes(RetireAll(events, retired)) && Ledgers(RetireAll(events, retired), attempts)
  {
    var after := RetireAll(events, retired);
    forall i | i in after ensures Shape(after[i]) && Ledger(attempts, i, after[i]) {
      assert Shape(events[i]) && Ledger(attempts, i, events[i]);
    }
  }

  lemma RetireClaims(events: map<Uuid, Event>, attempts: map<Uuid, AttemptRow>, claims: map<Uuid, Issued>,
                     retired: set<Uuid>)
    requires ClaimsBehind(events, attempts, claims)
    ensures ClaimsBehind(RetireAll(events, retired), attempts, claims)
  {
  }

  lemma RetireHolders(events: map<Uuid, Event>, claims: map<Uuid, Issued>, retired: set<Uuid>)
    requires Holders(events, claims) && HolderLatest(events, claims)
    ensures Holders(RetireAll(events, retired), claims) && HolderLatest(RetireAll(events, retired), claims)
  {
  }

  lemma RetireLeases(events: map<Uuid, Event>, claims: map<Uuid, Issued>, lives: map<Uuid, Life>,
                     retired: set<Uuid>, now: Time, clock: Time)
    requires MayRetire(events, retired, now) && now <= clock && ClaimsKnown(claims, lives, clock)
    requires Shapes(events) && Holders(events, claims) && LeasesProtect(events, claims, clock)
    ensures LeasesProtect(RetireAll(events, retired), claims, clock)
  {
  }

  lemma RetireLives(events: map<Uuid, Event>, lives: map<Uuid, Life>, retired: set<Uuid>)
    requires LivesTrack(events, lives)
    ensures LivesTrack(RetireAll(events, retired), lives)
  {
  }

  lemma RetireKeepsDelivery(w: World, now: Time, retired: set<Uuid>, w': World)
    requires DeliveryInv(w) && now <= w.clock && MayRetire(w.db.events, retired, now)
    requires w' == w.(db := w.db.(events := RetireAll(w.db.events, retired)))
    ensures DeliveryInv(w')
  {
    var events := w.db.events;
    RetireLedgers(events, w.db.attempts, retired, now);
    RetireClaims(events, w.db.attempts, w.claims, retired);
    RetireHolders(events, w.claims, retired);
    RetireLeases(events, w.claims, w.lives, retired, now, w.clock);
    RetireLives(events, w.lives, retired);
  }

  lemma RetireVisitors(events: map<Uuid, Event>, sessions: map<SessionId, Session>, retired: set<Uuid>,
                       now: Time, clock: Time)
    requires MayRetire(events, retired, now) && now <= clock && Shapes(events)
    requires VisitorRows(events, sessions, clock) && SessionCounts(events, sessions, clock)
    ensures VisitorRows(RetireAll(events, retired), sessions, clock)
    ensures SessionCounts(RetireAll(events, retired), sessions, clock)
  {
    var after := RetireAll(events, retired);
    forall i | i in after ensures VisitorRow(sessions, i, after[i], clock) {
      assert VisitorRow(sessions, i, events[i], clock);
    }
    forall s ensures EventsOf(after, s) == EventsOf(events, s) {
    }
  }

  lemma RetireReceipts(events: map<Uuid, Event>, receipts: map<(string, ExternalId), (Uuid, Digest)>,
                       retired: set<Uuid>)
    requires UniqueKeys(events) && ReceiptsMatch(events, receipts)
    ensures UniqueKeys(RetireAll(events, retired)) && ReceiptsMatch(RetireAll(events, retired), receipts)
  {
  }

  lemma RetireVisitorAttempts(events: map<Uuid, Event>, attempts: map<Uuid, AttemptRow>, retired: set<Uuid>)
    requires VisitorAttempts(events, attempts)
    ensures VisitorAttempts(RetireAll(events, retired), attempts)
  {
  }

  lemma RetireKeepsAdmission(w: World, now: Time, retired: set<Uuid>, w': World)
    requires Shapes(w.db.events) && AdmissionInv(w) && now <= w.clock && MayRetire(w.db.events, retired, now)
    requires w' == w.(db := w.db.(events := RetireAll(w.db.events, retired)))
    ensures AdmissionInv(w')
  {
    RetireVisitors(w.db.events, w.db.sessions, retired, now, w.clock);
    RetireVisitorAttempts(w.db.events, w.db.attempts, retired);
    RetireReceipts(w.db.events, w.receipts, retired);
  }

  lemma RetireKeeps(w: World, now: Time, retired: set<Uuid>, w': World)
    requires Inv(w) && now <= w.clock && MayRetire(w.db.events, retired, now)
    requires w' == w.(db := w.db.(events := RetireAll(w.db.events, retired)))
    ensures Inv(w')
  {
    RetireKeepsDelivery(w, now, retired, w');
    RetireKeepsAdmission(w, now, retired, w');
  }

  // ---------------------------------------------------------------- leasing

  /** The world after event `i` is leased, with nothing retired. */
  function Lease(w: World, i: Uuid, now: Time, claimId: Uuid): World
    requires i in w.db.events && i in w.lives
  {
    var e := Leased(w.db.events[i], now + LEASE, claimId);
    w.(db := w.db.(events := w.db.events[i := e]), minted := w.minted + {claimId},
       claims := w.claims[claimId := Issued(ClaimedOf(i, e, claimId), now, false)],
       lives := w.lives[i := Grow(w.lives[i], w.db.events[i].state.Delivering?, now)])
  }

  ghost predicate MayLease(w: World, i: Uuid, now: Time, claimId: Uuid) {
    && i in w.db.events && Open(w.db.events[i], now) && SessionLive(w.db.sessions, w.db.events[i], now)
    && now <= w.clock && claimId !in w.minted
  }

  lemma LeaseLedgers(events: map<Uuid, Event>, attempts: map<Uuid, AttemptRow>, i: Uuid, now: Time, claimId: Uuid)
    requires Shapes(events) && Ledgers(events, attempts) && i in events && Open(events[i], now)
    ensures var after := events[i := Leased(events[i], now + LEASE, claimId)];
      Shapes(after) && Ledgers(after, attempts)
  {
  }

  /** What keeps claims on one attempt apart. */
  ghost predicate Unrivalled(w: World) {
    && Shapes(w.db.events) && Ledgers(w.db.events, w.db.attempts)
    && ClaimsBehind(w.db.events, w.db.attempts, w.claims)
    && Holders(w.db.events, w.claims) && HolderLatest(w.db.events, w.claims)
  }

  /** No earlier claim is on the attempt about to be leased, unless it lapsed a lease ago. */
  lemma NoRivalClaim(w: World, i: Uuid, now: Time, claimId: Uuid, d: Uuid)
    requires Unrivalled(w) && MayLease(w, i, now, claimId) && d in w.claims && i in w.lives
    requires SameAttempt(w.claims[d], Lease(w, i, now, claimId).claims[claimId])
    ensures !w.claims[d].recorded && w.claims[d].at + LEASE <= now
  {
    var e := w.db.events[i];
    assert Behind(w.claims[d], e, w.db.attempts);
    assert Ledger(w.db.attempts, i, e);
    if Lapsed(e, now) {
      var c := e.claimId.value;
      assert HeldBy(i, e, c, w.claims[c]);
      assert Latest(w.claims, c);
    }
  }

  lemma LeaseRecordedLatest(w: World, i: Uuid, now: Time, claimId: Uuid, w': World)
    requires Unrivalled(w) && RecordedLatest(w.claims) && i in w.lives
    requires MayLease(w, i, now, claimId) && w' == Lease(w, i, now, claimId) && claimId !in w.claims
    ensures RecordedLatest(w'.claims)
  {
    forall c | c in w'.claims && w'.claims[c].recorded ensures Latest(w'.claims, c) {
      assert Latest(w.claims, c);
      if SameAttempt(w.claims[c], w'.claims[claimId]) {
        NoRivalClaim(w, i, now, claimId, c);
      }
    }
  }

  lemma LeaseNewLatest(w: World, i: Uuid, now: Time, claimId: Uuid, w': World)
    requires Unrivalled(w) && i in w.lives
    requires MayLease(w, i, now, claimId) && w' == Lease(w, i, now, claimId) && claimId !in w.claims
    ensures Latest(w'.claims, claimId)
  {
    forall d | d in w.claims && SameAttempt(w.claims[d], w'.claims[claimId])
      ensures w.claims[d].at + LEASE <= now
    {
      NoRivalClaim(w, i, now, claimId, d);
    }
  }

  lemma LeaseSpaced(claims: map<Uuid, Issued>, claimId: Uuid, issued: Issued)
    requires ClaimsSpaced(claims) && claimId !in claims && Latest(claims[claimId := issued], claimId)
    ensures ClaimsSpaced(claims[claimId := issued])
  {
  }

  lemma LeaseHolderLatest(w: World, i: Uuid, now: Time, claimId: Uuid, w': World)
    requires Holders(w.db.events, w.claims) && HolderLatest(w.db.events, w.claims) && i in w.lives
    requires MayLease(w, i, now, claimId) && w' == Lease(w, i, now, claimId) && claimId !in w.claims
    requires Latest(w'.claims, claimId)
    ensures HolderLatest(w'.db.events, w'.claims)
  {
  }

  lemma LeaseKnown(w: World, i: Uuid, now: Time, claimId: Uuid, w': World)
    requires Shapes(w.db.events) && ClaimsKnown(w.claims, w.lives, w.clock) && LivesTrack(w.db.events, w.lives)
    requires MayLease(w, i, now, claimId) && w' == Lease(w, i, now, claimId)
    ensures ClaimsKnown(w'.claims, w'.lives, w'.clock)
  {
  }

  lemma LeaseBehind(w: World, i: Uuid, now: Time, claimId: Uuid, w': World)
    requires ClaimsBehind(w.db.events, w.db.attempts, w.claims) && i in w.lives
    requires MayLease(w, i, now, claimId) && w' == Lease(w, i, now, claimId)
    ensures ClaimsBehind(w'.db.events, w'.db.attempts, w'.claims)
  {
  }

  lemma LeaseHolders(events: map<Uuid, Event>, claims: map<Uuid, Issued>, i: Uuid, now: Time, claimId: Uuid)
    requires Shapes(events) && Holders(events, claims)
    requires i in events && Open(events[i], now) && claimId !in claims
    ensures var e := Leased(events[i], now + LEASE, claimId);
      Holders(events[i := e], claims[claimId := Issued(ClaimedOf(i, e, claimId), now, false)])
  {
  }

  lemma LeaseProtects(w: World, i: Uuid, now: Time, claimId: Uuid, w': World)
    requires Shapes(w.db.events) && ClaimsKnown(w.claims, w.lives, w.clock) && i in w.lives
    requires Holders(w.db.events, w.claims) && LeasesProtect(w.db.events, w.claims, w.clock)
    requires MayLease(w, i, now, claimId) && w' == Lease(w, i, now, claimId)
    ensures LeasesProtect(w'.db.events, w'.claims, w'.clock)
  {
  }

  lemma LeaseLives(events: map<Uuid, Event>, lives: map<Uuid, Life>, i: Uuid, now: Time, claimId: Uuid, clock: Time)
    requires Shapes(events) && LivesBounded(lives, clock) && LivesTrack(events, lives)
    requires i in events && Open(events[i], now) && now <= clock
    ensures var after := events[i := Leased(events[i], now + LEASE, claimId)];
      var lives' := lives[i := Grow(lives[i], events[i].state.Delivering?, now)];
      LivesBounded(lives', clock) && LivesTrack(after, lives')
  {
  }

  lemma ClaimsOnInserted(claims: map<Uuid, Issued>, claimId: Uuid, issued: Issued, j: Uuid)
    requires claimId !in claims
    ensures var after := claims[claimId := issued];
      |ClaimsOn(after, j)| == |ClaimsOn(claims, j)| + if j == issued.claimed.id then 1 else 0
  {
    var after := claims[claimId := issued];
    if j == issued.claimed.id {
      assert ClaimsOn(after, j) == ClaimsOn(claims, j) + {claimId};
    } else {
      assert ClaimsOn(after, j) == ClaimsOn(claims, j);
    }
  }

  lemma LeaseCount(claims: map<Uuid, Issued>, lives: map<Uuid, Life>, claimId: Uuid, issued: Issued, recovery: bool)
    requires LivesCount(claims, lives) && claimId !in claims && issued.claimed.id in lives
    ensures var i := issued.claimed.id;
      LivesCount(claims[claimId := issued], lives[i := Grow(lives[i], recovery, issued.at)])
  {
    var after, i := claims[claimId := issued], issued.claimed.id;
    var lives' := lives[i := Grow(lives[i], recovery, issued.at)];
    forall j | j in lives' ensures |ClaimsOn(after, j)| == lives'[j].firsts + lives'[j].recovered {
      ClaimsOnInserted(claims, claimId, issued, j);
    }
  }

  lemma LeaseKeepsLedger(w: World, i: Uuid, now: Time, claimId: Uuid, w': World)
    requires LedgerInv(w) && i in w.lives && MayLease(w, i, now, claimId) && w' == Lease(w, i, now, claimId)
    ensures LedgerInv(w')
  {
    LeaseLedgers(w.db.events, w.db.attempts, i, now, claimId);
    LeaseRows(w.db.events, w.db.attempts, i, Leased(w.db.events[i], now + LEASE, claimId));
  }

  lemma LeaseRows(events: map<Uuid, Event>, attempts: map<Uuid, AttemptRow>, i: Uuid, e: Event)
    requires AttemptRows(events, attempts) && i in events
    ensures AttemptRows(events[i := e], attempts)
  {
  }

  lemma LeaseKeepsClaims(w: World, i: Uuid, now: Time, claimId: Uuid, w': World)
    requires DeliveryInv(w) && MayLease(w, i, now, claimId) && w' == Lease(w, i, now, claimId)
    ensures ClaimInv(w')
  {
    LeaseKnown(w, i, now, claimId, w');
    LeaseBehind(w, i, now, claimId, w');
    LeaseHolders(w.db.events, w.claims, i, now, claimId);
    LeaseRecordedLatest(w, i, now, claimId, w');
    LeaseNewLatest(w, i, now, claimId, w');
    LeaseSpaced(w.claims, claimId, w'.claims[claimId]);
    LeaseHolderLatest(w, i, now, claimId, w');
    LeaseProtects(w, i, now, claimId, w');
    assert claimId !in w.db.attempts;
  }

  lemma LeaseKeepsLives(w: World, i: Uuid, now: Time, claimId: Uuid, w': World)
    requires Minted(w) && Shapes(w.db.events) && LifeInv(w)
    requires MayLease(w, i, now, claimId) && w' == Lease(w, i, now, claimId)
    ensures LifeInv(w')
  {
    LeaseLives(w.db.events, w.lives, i, now, claimId, w.clock);
    LeaseCount(w.claims, w.lives, claimId, w'.claims[claimId], w.db.events[i].state.Delivering?);
  }

  lemma LeaseVisitors(events: map<Uuid, Event>, sessions: map<SessionId, Session>, clock: Time,
                      i: Uuid, now: Time, claimId: Uuid)
    requires Shapes(events) && i in events && Open(events[i], now)
    requires VisitorRows(events, sessions, clock) && SessionCounts(events, sessions, clock)
    ensures var after := events[i := Leased(events[i], now + LEASE, claimId)];
      VisitorRows(after, sessions, clock) && SessionCounts(after, sessions, clock)
  {
    var after := events[i := Leased(events[i], now + LEASE, claimId)];
    assert Shape(events[i]) && VisitorRow(sessions, i, events[i], clock);
    forall s ensures EventsOf(after, s) == EventsOf(events, s) {
    }
  }

  /** A session outlives its events by at most its own lifetime, so a claim under it comes early. */
  lemma LeaseVisitorClaims(w: World, i: Uuid, now: Time, claimId: Uuid, w': World)
    requires VisitorRows(w.db.events, w.db.sessions, w.clock) && VisitorClaims(w.claims) && i in w.lives
    requires MayLease(w, i, now, claimId) && w' == Lease(w, i, now, claimId)
    ensures VisitorClaims(w'.claims)
  {
    assert VisitorRow(w.db.sessions, i, w.db.events[i], w.clock);
  }

  lemma LeaseReceipts(events: map<Uuid, Event>, receipts: map<(string, ExternalId), (Uuid, Digest)>,
                      i: Uuid, until: Time, claimId: Uuid)
    requires UniqueKeys(events) && ReceiptsMatch(events, receipts) && i in events
    ensures var after := events[i := Leased(events[i], until, claimId)];
      UniqueKeys(after) && ReceiptsMatch(after, receipts)
  {
  }

  lemma LeaseKeeps(w: World, i: Uuid, now: Time, claimId: Uuid, w': World)
    requires DeliveryInv(w) && AdmissionInv(w) && MayLease(w, i, now, claimId) && w' == Lease(w, i, now, claimId)
    ensures DeliveryInv(w') && AdmissionInv(w')
  {
    LeaseKeepsLedger(w, i, now, claimId, w');
    LeaseKeepsClaims(w, i, now, claimId, w');
    LeaseKeepsLives(w, i, now, claimId, w');
    LeaseKeepsAdmission(w, i, now, claimId, w');
  }

  lemma LeaseKeepsAdmission(w: World, i: Uuid, now: Time, claimId: Uuid, w': World)
    requires Shapes(w.db.events) && AdmissionInv(w) && i in w.lives
    requires MayLease(w, i, now, claimId) && w' == Lease(w, i, now, claimId)
    ensures AdmissionInv(w')
  {
    LeaseVisitors(w.db.events, w.db.sessions, w.clock, i, now, claimId);
    LeaseVisitorClaims(w, i, now, claimId, w');
    LeaseReceipts(w.db.events, w.receipts, i, now + LEASE, claimId);
  }

  // ---------------------------------------------------------------- the whole claim

  lemma SelectionsQualify(w: World, now: Time, claimId: Uuid, locked: set<Uuid>, retired: set<Uuid>,
                          picked: Option<Uuid>)
    requires Enabled(w, Step.Claim(now, claimId, locked, retired, picked))
    ensures MayRetire(w.db.events, retired, now) && now <= w.clock
    ensures picked.Some? ==> picked.value !in retired && MayLease(w, picked.value, now, claimId)
  {
  }

  /** A claim is a retirement followed by a lease on a row the retirement did not touch. */
  lemma ClaimInTwo(w: World, now: Time, claimId: Uuid, retired: set<Uuid>, i: Uuid, middle: World)
    requires i !in retired && MayLease(w, i, now, claimId) && i in w.lives
    requires middle == w.(db := w.db.(events := RetireAll(w.db.events, retired)))
    ensures MayLease(middle, i, now, claimId)
    ensures ApplyClaim(w, now, claimId, retired, Some(i)) == Lease(middle, i, now, claimId)
  {
  }

  lemma ClaimKeeps(w: World, now: Time, claimId: Uuid, retired: set<Uuid>, picked: Option<Uuid>)
    requires Inv(w) && MayRetire(w.db.events, retired, now) && now <= w.clock
    requires picked.Some? ==> picked.value !in retired && MayLease(w, picked.value, now, claimId)
    ensures Inv(ApplyClaim(w, now, claimId, retired, picked))
  {
    var middle := w.(db := w.db.(events := RetireAll(w.db.events, retired)));
    RetireKeeps(w, now, retired, middle);
    match picked
    case Some(i) =>
      ClaimInTwo(w, now, claimId, retired, i, middle);
      LeaseKeeps(middle, i, now, claimId, Lease(middle, i, now, claimId));
    case None =>
      MintKeeps(middle, {claimId});
  }

  /** Identifiers that were drawn but led to nothing are only marked as used. */
  lemma MintKeeps(w: World, ids: set<Uuid>)
    requires Inv(w)
    ensures Inv(w.(minted := w.minted + ids))
  {
  }
}
