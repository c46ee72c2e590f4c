/** What the peer store's derived states mean, and that forgetting old claims does not change them. */
module PeerStoreProofs {
  import opened Wrappers
  import opened PeerStore

  function Wire(c: Claim): Signed { Signed(c, Sha(c), true) }

  /** Every claim went through verification when it was received, no later than now. */
  predicate Arrived(claims: set<Claim>, now: int) {
    forall c :: c in claims ==> WellFormed(c) && c.issued <= now + SKEW
  }

  // ------------------------------------------------------------ states and relations agree

  lemma RetractedExactly(claims: set<Claim>, revoked: set<ClaimId>, now: int, c: Claim)
    requires Arrived(claims, now) && c in claims
    ensures StateOf(claims, revoked, now, c).Retracted? <==>
            Sha(c) !in revoked && now < c.expires && c.kind.Observation? &&
            exists r :: r in claims && Sha(r) !in revoked && Retracts(Wire(r), Wire(c), now)
  {
    forall r | r in claims
      ensures Retracts(Wire(r), Wire(c), now) <==> Withdraws(r, Sha(c), c.issuer, now)
    {
    }
    if Withdrawn(claims, revoked, now, c) {
      var r :| r in claims && Sha(r) !in revoked && Withdraws(r, Sha(c), c.issuer, now);
      assert Retracts(Wire(r), Wire(c), now);
    }
  }

  /** A replacement of an observation is what supersedes it at the time the replacement was issued. */
  lemma ReplacesExactly(s: Claim, c: Claim)
    requires WellFormed(s)
    ensures c.kind.Observation? ==> (Replaces(s, c) <==> Supersedes(Wire(s), Wire(c), s.issued))
    ensures forall at :: Supersedes(Wire(s), Wire(c), at) ==> Replaces(s, c)
  {
  }

  predicate Succeeded(claims: set<Claim>, revoked: set<ClaimId>, c: Claim) {
    exists s :: s in claims && Sha(s) !in revoked && Supersedes(Wire(s), Wire(c), s.issued)
  }

  lemma SupersededExactly(claims: set<Claim>, revoked: set<ClaimId>, now: int, c: Claim)
    requires Arrived(claims, now) && c in claims
    ensures StateOf(claims, revoked, now, c).Superseded? <==>
            Sha(c) !in revoked && now < c.expires && c.kind.Observation? && !Withdrawn(claims, revoked, now, c) &&
            Succeeded(claims, revoked, c)
  {
    forall s | s in claims && c.kind.Observation?
      ensures Replaces(s, c) <==> Supersedes(Wire(s), Wire(c), s.issued)
    {
      ReplacesExactly(s, c);
    }
    if c.kind.Observation? && Replaced(claims, revoked, c) {
      var s :| s in claims && Sha(s) !in revoked && Replaces(s, c);
      assert Supersedes(Wire(s), Wire(c), s.issued);
    }
  }

  /** Whatever supersedes a claim now keeps it from being active. */
  lemma NeverActive(claims: set<Claim>, revoked: set<ClaimId>, now: int, c: Claim, s: Claim)
    requires Arrived(claims, now) && s in claims && Sha(s) !in revoked && Supersedes(Wire(s), Wire(c), now)
    ensures !StateOf(claims, revoked, now, c).Active?
  {
    ReplacesExactly(s, c);
  }

  /** A superseded claim has a superseder in the sense of the relation now exactly when one of its replacements
      has not run out; the store keeps it superseded either way. */
  lemma SupersededByRelationExactly(claims: set<Claim>, revoked: set<ClaimId>, now: int, c: Claim)
    requires Arrived(claims, now) && c in claims && StateOf(claims, revoked, now, c).Superseded?
    ensures (exists s :: s in claims && Sha(s) !in revoked && Supersedes(Wire(s), Wire(c), now)) <==>
            (exists s :: s in claims && Sha(s) !in revoked && Replaces(s, c) && now < s.expires)
  {
    forall s | s in claims
      ensures Supersedes(Wire(s), Wire(c), now) <==> Replaces(s, c) && now < s.expires
    {
    }
    if s :| s in claims && Sha(s) !in revoked && Replaces(s, c) && now < s.expires {
      assert Supersedes(Wire(s), Wire(c), now);
    }
  }

  // ------------------------------------------------------------ deleting claims

  /** Whether a claim's target can still be live, and be withdrawn or replaced by it. */
  predicate Touches(d: Claim, now: int) {
    d.relation.Some? && d.relation.value.Sha? &&
    var c := d.relation.value.claim;
    c.kind.Observation? && WellFormed(c) && now < c.expires &&
    (Replaces(d, c) || Withdraws(d, Sha(c), c.issuer, now))
  }

  predicate Untouching(deleted: set<Claim>, now: int) { forall d :: d in deleted ==> !Touches(d, now) }

  /** Deleting claims without a live target changes no state, then or later, whatever is revoked. */
  lemma StateUntouched(claims: set<Claim>, deleted: set<Claim>, now: int, revoked: set<ClaimId>, t: int, c: Claim)
    requires Untouching(claims * deleted, now) && WellFormed(c) && t >= now
    ensures StateOf(claims - deleted, revoked, t, c) == StateOf(claims, revoked, t, c)
  {
    if c.kind.Observation? && t < c.expires && Withdrawn(claims, revoked, t, c) {
      var r :| r in claims && Sha(r) !in revoked && Withdraws(r, Sha(c), c.issuer, t);
      assert Touches(r, now) && r !in claims * deleted;
      assert r in claims - deleted;
    }
    if c.kind.Observation? && t < c.expires && Replaced(claims, revoked, c) {
      var s :| s in claims && Sha(s) !in revoked && Replaces(s, c);
      assert Touches(s, now) && s !in claims * deleted;
      assert s in claims - deleted;
    }
  }

  /** No state changes: now or later, whatever is revoked, and whatever arrives. */
  ghost predicate Forgettable(claims: set<Claim>, deleted: set<Claim>, now: int) {
    forall more: set<Claim>, revoked: set<ClaimId>, t: int, c ::
      c in claims - deleted + more && WellFormed(c) && t >= now ==>
      StateOf(claims - deleted + more, revoked, t, c) == StateOf(claims + more, revoked, t, c)
  }

  /** A claim with a live target is missed as soon as nothing else relates to the target. */
  lemma TouchedIsMissed(claims: set<Claim>, deleted: set<Claim>, now: int, d: Claim)
    requires d in claims && d in deleted && Touches(d, now)
    ensures !Forgettable(claims, deleted, now)
  {
    var c := d.relation.value.claim;
    var more, revoked := {c}, (set x | x in claims :: Sha(x)) - {Sha(d), Sha(c)};
    var left := claims - deleted + more;
    assert d != c && c in left;
    assert forall x :: x in left && Sha(x) !in revoked ==> x == c;
    assert StateOf(left, revoked, now, c).Active?;
    assert d in claims + more && Sha(d) !in revoked;
    assert !StateOf(claims + more, revoked, now, c).Active?;
  }

  /** Deleting claims can be forgotten exactly when none of them has a live target. */
  lemma ForgettableExactly(claims: set<Claim>, deleted: set<Claim>, now: int)
    ensures Forgettable(claims, deleted, now) <==> Untouching(claims * deleted, now)
  {
    if Untouching(claims * deleted, now) {
      forall more: set<Claim>, revoked: set<ClaimId>, t: int, c |
        c in claims - deleted + more && WellFormed(c) && t >= now
        ensures StateOf(claims - deleted + more, revoked, t, c) == StateOf(claims + more, revoked, t, c)
      {
        StateUntouched(claims + more, deleted - more, now, revoked, t, c);
        assert claims + more - (deleted - more) == claims - deleted + more;
      }
    } else {
      var d :| d in claims * deleted && Touches(d, now);
      TouchedIsMissed(claims, deleted, now, d);
    }
  }

  /** What the claims that stay must make up for: whatever a deleted claim withdraws or replaces. */
  ghost predicate Covered(claims: set<Claim>, deleted: set<Claim>, revoked: set<ClaimId>, now: int) {
    forall c :: c in claims - deleted && c.kind.Observation? && Sha(c) !in revoked && now < c.expires ==>
      var left, gone := claims - deleted, claims * deleted;
      (Withdrawn(gone, revoked, now, c) ==> Withdrawn(left, revoked, now, c)) &&
      (Replaced(gone, revoked, c) ==> Withdrawn(left, revoked, now, c) || Replaced(left, revoked, c))
  }

  lemma SplitRelations(claims: set<Claim>, deleted: set<Claim>, revoked: set<ClaimId>, now: int, c: Claim)
    ensures var left, gone := claims - deleted, claims * deleted;
            (Withdrawn(claims, revoked, now, c) <==>
              Withdrawn(left, revoked, now, c) || Withdrawn(gone, revoked, now, c)) &&
            (Replaced(claims, revoked, c) <==> Replaced(left, revoked, c) || Replaced(gone, revoked, c))
  {
    if Withdrawn(claims, revoked, now, c) {
      var r :| r in claims && Sha(r) !in revoked && Withdraws(r, Sha(c), c.issuer, now);
      assert r in claims - deleted || r in claims * deleted;
    }
    if Replaced(claims, revoked, c) {
      var s :| s in claims && Sha(s) !in revoked && Replaces(s, c);
      assert s in claims - deleted || s in claims * deleted;
    }
  }

  /** At one moment and under given revocations, exactly when deleting leaves every other claim's state. */
  lemma DropKeepsExactly(claims: set<Claim>, deleted: set<Claim>, revoked: set<ClaimId>, now: int)
    ensures (forall c :: c in claims - deleted ==>
              StateOf(claims - deleted, revoked, now, c) == StateOf(claims, revoked, now, c)) <==>
            Covered(claims, deleted, revoked, now)
  {
    forall c | c in claims - deleted
      ensures StateOf(claims - deleted, revoked, now, c) == StateOf(claims, revoked, now, c) <==>
              (c.kind.Observation? && Sha(c) !in revoked && now < c.expires ==>
                var left, gone := claims - deleted, claims * deleted;
                (Withdrawn(gone, revoked, now, c) ==> Withdrawn(left, revoked, now, c)) &&
                (Replaced(gone, revoked, c) ==> Withdrawn(left, revoked, now, c) || Replaced(left, revoked, c)))
    {
      SplitRelations(claims, deleted, revoked, now, c);
    }
  }

  // ------------------------------------------------------------ pruning by age

  /** Deleting claims that ran out before the cutoff changes no other claim's state, then or later, whatever
      is revoked. */
  ghost predicate Invisible(retention: nat) {
    forall claims: set<Claim>, deleted: set<Claim>, now: int ::
      Sound(claims, deleted, now - retention) ==> Unseen(claims, deleted, now)
  }

  predicate Sound(claims: set<Claim>, deleted: set<Claim>, cutoff: int) {
    (forall c :: c in claims ==> WellFormed(c)) && (forall d :: d in deleted ==> d.expires < cutoff)
  }

  ghost predicate Unseen(claims: set<Claim>, deleted: set<Claim>, now: int) {
    forall revoked: set<ClaimId>, t: int, c :: c in claims && c !in deleted && t >= now ==>
      StateOf(claims - deleted, revoked, t, c) == StateOf(claims, revoked, t, c)
  }

  /** A deleted replacement ran out so long ago that whatever it replaced has run out as well. */
  lemma ReplacedHasExpired(s: Claim, c: Claim, now: int, retention: nat)
    requires WellFormed(s) && WellFormed(c) && c.kind.Observation? && Replaces(s, c)
    requires s.expires < now - retention && retention >= DAY - 3
    ensures c.expires <= now
  {
  }

  lemma OldUntouching(d: Claim, now: int, retention: nat)
    requires WellFormed(d) && d.expires < now - retention && retention >= DAY - 3
    ensures !Touches(d, now)
  {
    if Touches(d, now) && Replaces(d, d.relation.value.claim) {
      ReplacedHasExpired(d, d.relation.value.claim, now, retention);
    }
  }

  lemma StateUnseen(claims: set<Claim>, deleted: set<Claim>, now: int, retention: nat, revoked: set<ClaimId>, t: int,
                    c: Claim)
    requires Sound(claims, deleted, now - retention) && retention >= DAY - 3 && t >= now && WellFormed(c)
    ensures StateOf(claims - deleted, revoked, t, c) == StateOf(claims, revoked, t, c)
  {
    forall d | d in claims * deleted
      ensures !Touches(d, now)
    {
      OldUntouching(d, now, retention);
    }
    StateUntouched(claims, deleted, now, revoked, t, c);
  }

  /** Exactly which retention is long enough: a day, less three of the clock's microseconds. */
  lemma InvisibleExactly(retention: nat)
    ensures Invisible(retention) <==> retention >= DAY - 3
  {
    if retention >= DAY - 3 {
      forall claims: set<Claim>, deleted: set<Claim>, now: int | Sound(claims, deleted, now - retention)
        ensures Unseen(claims, deleted, now)
      {
        forall revoked: set<ClaimId>, t: int, c | c in claims && c !in deleted && t >= now
          ensures StateOf(claims - deleted, revoked, t, c) == StateOf(claims, revoked, t, c)
        {
          StateUnseen(claims, deleted, now, retention, revoked, t, c);
        }
      }
    } else {
      var c := Claim(Observation, 0, 0, 0, DAY, None, 0);
      var s := Claim(Observation, 0, 0, 1, 2, Some(Sha(c)), 0);
      var now := retention + 3;
      assert Sound({c, s}, {s}, now - retention);
      assert Replaces(s, c) && s in {c, s};
      assert StateOf({c, s}, {}, now, c).Superseded?;
      assert StateOf({c, s} - {s}, {}, now, c).Active?;
      assert !Unseen({c, s}, {s}, now);
    }
  }

  /** What the sweep of a run deletes: every claim that ran out before the cutoff, and nothing else. */
  lemma SweptHolds(rows: map<ClaimId, Row>, revoked: set<ClaimId>, now: int, retention: nat)
    requires Keyed(rows)
    ensures Keyed(PeerStore.Swept(rows, revoked, now, retention))
    ensures Held(PeerStore.Swept(rows, revoked, now, retention)) == set c | c in Held(rows) &&
            c.expires >= now - retention
  {
    var was, left := Refreshed(rows, revoked, now), PeerStore.Swept(rows, revoked, now, retention);
    forall id | id in rows
      ensures was[id].claim == rows[id].claim && (id in left <==> rows[id].claim.expires >= now - retention)
    {
    }
    forall c | c in Held(rows) && c.expires >= now - retention
      ensures c in Held(left)
    {
      assert left[Sha(c)].claim == c;
    }
  }

  lemma ShrunkHolds(rows: map<ClaimId, Row>, revoked: set<ClaimId>, now: int, dropped: set<ClaimId>)
    requires Keyed(rows)
    ensures Keyed(Shrunk(rows, revoked, now, dropped))
    ensures Held(Shrunk(rows, revoked, now, dropped)) == set c | c in Held(rows) && Sha(c) !in dropped
  {
    var left := rows - dropped;
    HeldAfterRefresh(left, revoked, now);
    forall c | c in Held(rows) && Sha(c) !in dropped
      ensures c in Held(left)
    {
      assert left[Sha(c)].claim == c;
    }
  }

  // ------------------------------------------------------------ every run

  /** `accepted` are all the claims ever taken in. */
  datatype World = World(rows: map<ClaimId, Row>, revoked: set<ClaimId>, accepted: set<Claim>, now: int)

  /** `admitted` says that the issuer was neither banned nor over its rate; `dropped` are the rows deleted because the
      store is over its limit. */
  datatype Event =
    | Offered(s: Signed, topic: nat, admitted: bool, dropped: set<ClaimId>)
    | Swept(dropped: set<ClaimId>)
    | Read
    | Revoked(id: ClaimId)
    | Restored(id: ClaimId)
    | Waited(time: nat)

  const OPENING := World(map[], {}, {}, 0)

  predicate TakenIn(w: World, e: Event) {
    e.Offered? && WellFormed(e.s.claim) && Verify(e.s, w.now, true).Ok? && e.admitted && e.s.id !in w.rows
  }

  ghost function Perform(w: World, e: Event, retention: nat): World {
    match e
    case Offered(s, topic, admitted, dropped) =>
      if TakenIn(w, e) then
        w.(rows := Pruned(Inserted(w.rows, s, topic, w.now), w.revoked, w.now, retention, dropped),
           accepted := w.accepted + {s.claim})
      else w
    case Swept(dropped) => w.(rows := Pruned(w.rows, w.revoked, w.now, retention, dropped))
    case Read => w.(rows := Refreshed(w.rows, w.revoked, w.now))
    case Revoked(id) => w.(rows := Refreshed(w.rows, w.revoked + {id}, w.now), revoked := w.revoked + {id})
    case Restored(id) => w.(rows := Refreshed(w.rows, w.revoked - {id}, w.now), revoked := w.revoked - {id})
    case Waited(time) => w.(now := w.now + time)
  }

  ghost function Run(es: seq<Event>, retention: nat): World
    decreases |es|
  {
    if es == [] then OPENING else Perform(Run(es[..|es| - 1], retention), es[|es| - 1], retention)
  }

  function Dropped(e: Event): set<ClaimId> { if e.Offered? || e.Swept? then e.dropped else {} }

  /** What is dropped is the overflow of the store at that point. */
  ghost predicate Legal(w: World, e: Event, limits: Limits) {
    match e
    case Offered(s, topic, _, dropped) =>
      TakenIn(w, e) ==>
        OverflowOf(PeerStore.Swept(Inserted(w.rows, s, topic, w.now), w.revoked, w.now, limits.retention), dropped,
                   limits.maxClaims)
    case Swept(dropped) =>
      OverflowOf(PeerStore.Swept(w.rows, w.revoked, w.now, limits.retention), dropped, limits.maxClaims)
    case _ => true
  }

  ghost predicate LegalRun(es: seq<Event>, limits: Limits) {
    forall i :: 0 <= i < |es| ==> Legal(Run(es[..i], limits.retention), es[i], limits)
  }

  /** No claim is dropped that still has a live target: a test on the claim alone. */
  predicate Tame(now: int, e: Event) { forall id :: id in Dropped(e) && id.Sha? ==> !Touches(id.claim, now) }

  ghost predicate TameRun(es: seq<Event>, retention: nat) {
    forall i :: 0 <= i < |es| ==> Tame(Run(es[..i], retention).now, es[i])
  }

  /** The store never overflows. */
  predicate Roomy(es: seq<Event>) { forall i :: 0 <= i < |es| ==> Dropped(es[i]) == {} }

  ghost predicate Inv(w: World) { Keyed(w.rows) && Arrived(w.accepted, w.now) && Held(w.rows) <= w.accepted }

  /** What is not held any more has no live target. */
  ghost predicate Forgotten(w: World) { Untouching(w.accepted - Held(w.rows), w.now) }

  /** Or ran out before the cutoff. */
  ghost predicate Aging(w: World, retention: nat) {
    forall c :: c in w.accepted - Held(w.rows) ==> c.expires < w.now - retention
  }

  lemma RefreshedInv(w: World, revoked: set<ClaimId>)
    requires Inv(w)
    ensures var v := w.(rows := Refreshed(w.rows, revoked, w.now), revoked := revoked);
            Inv(v) && Held(v.rows) == Held(w.rows)
  {
    HeldAfterRefresh(w.rows, revoked, w.now);
  }

  lemma InsertedInv(w: World, e: Event)
    requires Inv(w) && TakenIn(w, e)
    ensures var v := w.(rows := Inserted(w.rows, e.s, e.topic, w.now), accepted := w.accepted + {e.s.claim});
            Inv(v) && Held(v.rows) == Held(w.rows) + {e.s.claim}
  {
    var more := Inserted(w.rows, e.s, e.topic, w.now);
    forall c
      ensures c in Held(more) <==> c in Held(w.rows) || c == e.s.claim
    {
      if c in Held(w.rows) { assert more[Sha(c)].claim == c; }
      if c == e.s.claim { assert more[e.s.id].claim == c; }
    }
  }

  /** A prune keeps every claim that has not run out and is not dropped. */
  lemma PrunedInv(w: World, retention: nat, dropped: set<ClaimId>)
    requires Inv(w)
    ensures var v := w.(rows := Pruned(w.rows, w.revoked, w.now, retention, dropped));
            Inv(v) && Held(v.rows) == set c | c in Held(w.rows) && c.expires >= w.now - retention && Sha(c) !in dropped
  {
    SweptHolds(w.rows, w.revoked, w.now, retention);
    ShrunkHolds(PeerStore.Swept(w.rows, w.revoked, w.now, retention), w.revoked, w.now, dropped);
  }

  /** The claims that one event adds and deletes. */
  lemma PerformHolds(w: World, e: Event, retention: nat)
    requires Inv(w)
    ensures var v := Perform(w, e, retention);
            Inv(v) && v.now >= w.now && v.accepted == (if TakenIn(w, e) then w.accepted + {e.s.claim}
                                                       else w.accepted) &&
            (TakenIn(w, e) ==> e.s.claim.expires > w.now) &&
            forall c :: (c in Held(w.rows) || (TakenIn(w, e) && c == e.s.claim)) && c !in Held(v.rows) ==>
              c.expires < w.now - retention || Sha(c) in Dropped(e)
  {
    match e
    case Offered(s, topic, _, dropped) =>
      if TakenIn(w, e) {
        InsertedInv(w, e);
        PrunedInv(w.(rows := Inserted(w.rows, s, topic, w.now), accepted := w.accepted + {s.claim}), retention,
                  dropped);
      }
    case Swept(dropped) => PrunedInv(w, retention, dropped);
    case Read => RefreshedInv(w, w.revoked);
    case Revoked(id) => RefreshedInv(w, w.revoked + {id});
    case Restored(id) => RefreshedInv(w, w.revoked - {id});
    case Waited(_) =>
  }

  lemma PerformForgotten(w: World, e: Event, retention: nat)
    requires Inv(w) && Forgotten(w) && Tame(w.now, e) && retention >= DAY - 3
    ensures Inv(Perform(w, e, retention)) && Forgotten(Perform(w, e, retention))
  {
    var v := Perform(w, e, retention);
    PerformHolds(w, e, retention);
    forall c | c in v.accepted - Held(v.rows)
      ensures !Touches(c, v.now)
    {
      if Touches(c, v.now) {
        assert Touches(c, w.now);
        if c.expires < w.now - retention { OldUntouching(c, w.now, retention); }
      }
    }
  }

  lemma PerformAging(w: World, e: Event, retention: nat)
    requires Inv(w) && Aging(w, retention) && Dropped(e) == {}
    ensures Inv(Perform(w, e, retention)) && Aging(Perform(w, e, retention), retention)
  {
    PerformHolds(w, e, retention);
  }

  lemma {:induction false} RunInv(es: seq<Event>, retention: nat)
    ensures Inv(Run(es, retention))
    ensures retention >= DAY - 3 && TameRun(es, retention) ==> Forgotten(Run(es, retention))
    ensures Roomy(es) ==> Aging(Run(es, retention), retention)
    decreases |es|
  {
    if es != [] {
      var front, e := es[..|es| - 1], es[|es| - 1];
      var w := Run(front, retention);
      assert forall i :: 0 <= i <= |front| ==> front[..i] == es[..i];
      assert forall i :: 0 <= i < |front| ==> front[i] == es[i];
      assert es[..|front|] == front;
      RunInv(front, retention);
      PerformHolds(w, e, retention);
      if retention >= DAY - 3 && TameRun(es, retention) { PerformForgotten(w, e, retention); }
      if Roomy(es) { PerformAging(w, e, retention); }
    }
  }

  /** A claim arrived in a run, under its own digest and signature, while it was current. */
  ghost predicate ArrivedIn(es: seq<Event>, retention: nat, c: Claim) {
    exists i :: 0 <= i < |es| && es[i].Offered? && es[i].admitted && es[i].s.claim == c && WellFormed(c) &&
                Current(es[i].s, Run(es[..i], retention).now)
  }

  /** Over every run, every claim ever taken in, and so every claim held and every relation between them, arrived so. */
  lemma {:induction false} AcceptedArrived(es: seq<Event>, retention: nat, c: Claim)
    requires c in Run(es, retention).accepted
    ensures ArrivedIn(es, retention, c)
    decreases |es|
  {
    var front, e := es[..|es| - 1], es[|es| - 1];
    if c in Run(front, retention).accepted {
      AcceptedArrived(front, retention, c);
      var i :| 0 <= i < |front| && front[i].Offered? && front[i].admitted && front[i].s.claim == c &&
               Current(front[i].s, Run(front[..i], retention).now);
      assert es[i] == front[i] && es[..i] == front[..i];
    } else {
      assert TakenIn(Run(front, retention), e) && e.s.claim == c;
      assert es[..|front|] == front;
    }
  }

  /** After any run, now or later, overflow included: while nothing is dropped that has a live target, the claims still
      held have the states they would have if nothing had ever been deleted. */
  lemma EveryRun(es: seq<Event>, retention: nat, t: int, c: Claim)
    requires retention >= DAY - 3 && TameRun(es, retention)
    requires var w := Run(es, retention); c in Held(w.rows) && t >= w.now
    ensures var w := Run(es, retention);
            StateOf(Held(w.rows), w.revoked, t, c) == StateOf(w.accepted, w.revoked, t, c)
  {
    var w := Run(es, retention);
    RunInv(es, retention);
    var deleted := w.accepted - Held(w.rows);
    assert w.accepted - deleted == Held(w.rows) && w.accepted * deleted == deleted;
    StateUntouched(w.accepted, deleted, w.now, w.revoked, t, c);
  }

  /** After any run at all: exactly when the claims held have those states at a given time. */
  lemma EveryRunExactly(es: seq<Event>, retention: nat, t: int)
    ensures var w := Run(es, retention);
            (forall c :: c in Held(w.rows) ==>
              StateOf(Held(w.rows), w.revoked, t, c) == StateOf(w.accepted, w.revoked, t, c)) <==>
            Covered(w.accepted, w.accepted - Held(w.rows), w.revoked, t)
  {
    var w := Run(es, retention);
    RunInv(es, retention);
    assert w.accepted - (w.accepted - Held(w.rows)) == Held(w.rows);
    DropKeepsExactly(w.accepted, w.accepted - Held(w.rows), w.revoked, t);
  }

  /** In a store that never overflows, a deleted claim would not be active either. */
  lemma DeletedInactive(es: seq<Event>, retention: nat, t: int, c: Claim)
    requires Roomy(es)
    requires var w := Run(es, retention); c in w.accepted && c !in Held(w.rows) && t >= w.now
    ensures !StateOf(Run(es, retention).accepted, Run(es, retention).revoked, t, c).Active?
  {
    RunInv(es, retention);
  }

  lemma RoomyIsTame(es: seq<Event>, retention: nat)
    requires Roomy(es)
    ensures TameRun(es, retention)
  {
  }

  /** Arrival order, and when each store swept, do not matter: two stores that took in the same claims and revoked the
      same ones agree on every state and on what is active. */
  lemma Converges(es: seq<Event>, fs: seq<Event>, retention: nat, t: int, c: Claim)
    requires retention >= DAY - 3 && Roomy(es) && Roomy(fs)
    requires var v, w := Run(es, retention), Run(fs, retention);
             v.accepted == w.accepted && v.revoked == w.revoked && t >= v.now && t >= w.now
    ensures var v, w := Run(es, retention), Run(fs, retention);
            c in Held(v.rows) && c in Held(w.rows) ==>
            StateOf(Held(v.rows), v.revoked, t, c) == StateOf(Held(w.rows), w.revoked, t, c)
    ensures var v, w := Run(es, retention), Run(fs, retention);
            (c in Held(v.rows) && StateOf(Held(v.rows), v.revoked, t, c).Active?) <==>
            (c in Held(w.rows) && StateOf(Held(w.rows), w.revoked, t, c).Active?)
  {
    RunInv(es, retention);
    RunInv(fs, retention);
    RoomyIsTame(es, retention);
    RoomyIsTame(fs, retention);
    var v, w := Run(es, retention), Run(fs, retention);
    if c in Held(v.rows) { EveryRun(es, retention, t, c); }
    if c in Held(w.rows) { EveryRun(fs, retention, t, c); }
    if c in v.accepted && c !in Held(v.rows) { DeletedInactive(es, retention, t, c); }
    if c in w.accepted && c !in Held(w.rows) { DeletedInactive(fs, retention, t, c); }
  }

  // ------------------------------------------------------------ deleting on overflow

  const OLDER := Claim(Observation, 0, 0, 0, 100, None, 0)
  const NEWEST := Claim(Observation, 0, 0, 1, 10, Some(Sha(OLDER)), 0)
  const ANOTHER := Claim(Observation, 1, 0, 0, 100, None, 0)

  const SMALL := Limits(2, 0, 86_400_000_000)

  lemma Then(es: seq<Event>, e: Event) returns (fs: seq<Event>)
    requires LegalRun(es, SMALL) && Legal(Run(es, SMALL.retention), e, SMALL)
    ensures LegalRun(fs, SMALL) && Run(fs, SMALL.retention) == Perform(Run(es, SMALL.retention), e, SMALL.retention)
    ensures fs == es + [e]
  {
    fs := es + [e];
    assert fs[..|fs| - 1] == es == fs[..|es|];
    assert forall i :: 0 <= i < |es| ==> fs[..i] == es[..i] && fs[i] == es[i];
  }

  /** A sweep that deletes nothing only refreshes. */
  lemma SweptIs(rows: map<ClaimId, Row>, now: int, after: map<ClaimId, Row>)
    requires after.Keys == rows.Keys && now < SMALL.retention
    requires forall id :: id in rows ==>
               rows[id].claim.expires >= 0 && after[id] ==
                   Stamped(rows[id], StateOf(Held(rows), {}, now, rows[id].claim), now)
    ensures PeerStore.Swept(rows, {}, now, SMALL.retention) == after
  {
    assert Refreshed(rows, {}, now) == after;
    assert Aged(after, now - SMALL.retention) == after;
  }

  /** An offer that the store takes in, and the rows it leads to. */
  lemma ThenOffered(es: seq<Event>, c: Claim, after: map<ClaimId, Row>, dropped: set<ClaimId>)
    returns (fs: seq<Event>)
    requires LegalRun(es, SMALL) && WellFormed(c) && c.expires >= 0
    requires var w := Run(es, SMALL.retention);
             w.revoked == {} && c.issued <= w.now < c.expires && w.now < SMALL.retention && Sha(c) !in w.rows &&
             (forall id :: id in w.rows ==> w.rows[id].claim.expires >= 0) &&
             var rows := Inserted(w.rows, Wire(c), 0, w.now);
             after.Keys == rows.Keys && OverflowOf(after, dropped, SMALL.maxClaims) &&
             forall id :: id in rows ==>
               after[id] == Stamped(rows[id], StateOf(Held(rows), {}, w.now, rows[id].claim), w.now)
    ensures var w, v := Run(es, SMALL.retention), Run(fs, SMALL.retention);
            LegalRun(fs, SMALL) && v.rows == Shrunk(after, {}, w.now, dropped) && v.revoked == {} && v.now == w.now &&
            fs == es + [Offered(Wire(c), 0, true, dropped)]
  {
    var w := Run(es, SMALL.retention);
    SweptIs(Inserted(w.rows, Wire(c), 0, w.now), w.now, after);
    fs := Then(es, Offered(Wire(c), 0, true, dropped));
  }

  const FIRST_ROWS := map[Sha(NEWEST) := Row(NEWEST, 0, 2, Active, 2)]
  const SECOND_ROWS := FIRST_ROWS[Sha(OLDER) := Row(OLDER, 0, 3, Superseded, 3)]
  const THIRD_ROWS := map[Sha(NEWEST) := Row(NEWEST, 0, 2, Expired, 20), Sha(OLDER) := Row(OLDER, 0, 3, Superseded, 3),
                          Sha(ANOTHER) := Row(ANOTHER, 0, 20, Active, 20)]

  lemma RowsHeld()
    ensures Keyed(FIRST_ROWS) && Held(FIRST_ROWS) == {NEWEST}
    ensures Keyed(SECOND_ROWS) && Held(SECOND_ROWS) == {NEWEST, OLDER}
  {
    assert FIRST_ROWS[Sha(NEWEST)].claim == NEWEST;
    assert SECOND_ROWS[Sha(NEWEST)].claim == NEWEST && SECOND_ROWS[Sha(OLDER)].claim == OLDER;
  }

  lemma FirstArrives() returns (es: seq<Event>)
    ensures LegalRun(es, SMALL)
    ensures var w := Run(es, SMALL.retention); w.rows == FIRST_ROWS && w.revoked == {} && w.now == 2
  {
    es := Then([], Waited(2));
    RowsHeld();
    assert Inserted(map[], Wire(NEWEST), 0, 2) == FIRST_ROWS;
    es := ThenOffered(es, NEWEST, FIRST_ROWS, {});
  }

  lemma SecondArrives() returns (es: seq<Event>)
    ensures LegalRun(es, SMALL)
    ensures var w := Run(es, SMALL.retention); w.rows == SECOND_ROWS && w.revoked == {} && w.now == 3
  {
    es := FirstArrives();
    es := Then(es, Waited(1));
    RowsHeld();
    HeldInserted(FIRST_ROWS, OLDER, 3, {NEWEST});
    NewestReplaces({NEWEST, OLDER}, 3);
    assert SECOND_ROWS.Keys == {Sha(NEWEST), Sha(OLDER)};
    es := ThenOffered(es, OLDER, SECOND_ROWS, {});
  }

  lemma HeldInserted(rows: map<ClaimId, Row>, c: Claim, now: int, claims: set<Claim>)
    requires Keyed(rows) && Held(rows) == claims && Sha(c) !in rows
    ensures Held(Inserted(rows, Wire(c), 0, now)) == claims + {c} && Keyed(Inserted(rows, Wire(c), 0, now))
  {
    var more := Inserted(rows, Wire(c), 0, now);
    forall d | d in claims
      ensures d in Held(more)
    {
      assert more[Sha(d)].claim == d;
    }
    assert more[Sha(c)].claim == c;
  }

  lemma NewestReplaces(claims: set<Claim>, now: int)
    requires NEWEST in claims && claims <= {NEWEST, OLDER, ANOTHER} && now < 100
    ensures StateOf(claims, {}, now, OLDER).Superseded?
    ensures StateOf(claims, {}, now, NEWEST) == (if now < 10 then Active else Expired)
    ensures StateOf(claims, {}, now, ANOTHER).Active?
  {
    assert Sha(NEWEST) !in {} && Replaces(NEWEST, OLDER);
    assert Replaced(claims, {}, OLDER);
  }

  lemma ThirdRefresh()
    ensures var rows := Inserted(SECOND_ROWS, Wire(ANOTHER), 0, 20);
            THIRD_ROWS.Keys == rows.Keys &&
            forall id :: id in rows ==>
              THIRD_ROWS[id] == Stamped(rows[id], StateOf(Held(rows), {}, 20, rows[id].claim), 20)
  {
    RowsHeld();
    HeldInserted(SECOND_ROWS, ANOTHER, 20, {NEWEST, OLDER});
    NewestReplaces({NEWEST, OLDER, ANOTHER}, 20);
  }

  lemma ThirdOverflow()
    ensures OverflowOf(THIRD_ROWS, {Sha(NEWEST)}, 2)
  {
    assert THIRD_ROWS.Keys == {Sha(NEWEST), Sha(OLDER), Sha(ANOTHER)};
    assert |THIRD_ROWS.Keys| == 3;
  }

  lemma NewestTouches()
    ensures Touches(NEWEST, 20)
  {
  }

  lemma RevivedRows()
    ensures var rows := Shrunk(THIRD_ROWS, {}, 20, {Sha(NEWEST)}); Sha(OLDER) in rows && rows[Sha(OLDER)].state.Active?
  {
    var left := THIRD_ROWS - {Sha(NEWEST)};
    assert forall id :: id in left ==> left[id].claim in {OLDER, ANOTHER};
    assert StateOf(Held(left), {}, 20, OLDER).Active?;
  }

  /** Deleting on overflow is not invisible. In a store of two claims, the older claim is superseded by one that then
      runs out; the next arrival pushes that one out, and the older claim becomes active again. */
  lemma OverflowRevives() returns (es: seq<Event>, e: Event)
    ensures LegalRun(es + [e], SMALL) && Dropped(e) == {Sha(NEWEST)} && !Tame(Run(es, SMALL.retention).now, e)
    ensures var rows := Run(es, SMALL.retention).rows; Sha(OLDER) in rows && rows[Sha(OLDER)].state.Superseded?
    ensures var rows := Run(es + [e], SMALL.retention).rows; Sha(OLDER) in rows && rows[Sha(OLDER)].state.Active?
  {
    es := SecondArrives();
    es := Then(es, Waited(17));
    ThirdRefresh();
    ThirdOverflow();
    e := Offered(Wire(ANOTHER), 0, true, {Sha(NEWEST)});
    NewestTouches();
    var fs := ThenOffered(es, ANOTHER, THIRD_ROWS, {Sha(NEWEST)});
    RevivedRows();
  }
}
