/** Claims received from peers and their derived states (src/runner_swarm/peer_store.py), with the relations
    between signed claims that the states must agree with (src/runner_swarm/signed_claim.py).
    Times are whole microseconds. A claim identifier is the digest of the claim's content. */
module PeerStore {
  import opened Wrappers

  datatype Kind = Observation | Retraction

  /** `relation` names the claim to supersede or to retract; `rest` stands for all other content. */
  datatype Claim = Claim(kind: Kind, issuer: nat, instrument: nat, issued: int, expires: int,
                         relation: Option<ClaimId>, rest: nat)

  datatype ClaimId = Sha(claim: Claim) | Foreign(digest: nat)

  datatype Signed = Signed(claim: Claim, id: ClaimId, signatureOk: bool)

  datatype State = Active | Expired | Superseded | Retracted | Revoked

  datatype Row = Row(claim: Claim, topic: nat, received: int, state: State, changed: int)

  datatype Limits = Limits(maxClaims: nat, maxControl: nat, retention: nat)

  datatype Outcome = Accepted(state: State) | Duplicate(state: State) | Banned | RateLimited

  datatype Error = NotAuthentic | FromTheFuture | ClaimExpired | ControlFull | BanAlreadyOver

  const SKEW: int := 300_000_000
  const DAY: int := 86_400_000_000

  // ------------------------------------------------------------ one claim, and two

  /** What the content model of a claim accepts: it lives, and not for longer than a day or a week. */
  predicate WellFormed(c: Claim) {
    c.issued < c.expires <= c.issued + (if c.kind.Observation? then DAY else 7 * DAY)
  }

  function Verify(s: Signed, at: int, current: bool): Result<(), Error> {
    if s.id != Sha(s.claim) || !s.signatureOk then Err(NotAuthentic)
    else if s.claim.issued > at + SKEW then Err(FromTheFuture)
    else if current && at >= s.claim.expires then Err(ClaimExpired)
    else Ok(())
  }

  predicate Retracts(self: Signed, other: Signed, at: int) {
    self.claim.kind.Retraction? && Verify(self, at, true).Ok? && Verify(other, at, false).Ok? &&
    self.claim.relation == Some(other.id) && self.claim.issuer == other.claim.issuer
  }

  predicate Supersedes(self: Signed, other: Signed, at: int) {
    self.claim.kind.Observation? && Verify(self, at, true).Ok? && Verify(other, at, false).Ok? &&
    self.claim.relation == Some(other.id) && self.claim.issuer == other.claim.issuer &&
    other.claim.kind.Observation? && self.claim.instrument == other.claim.instrument &&
    self.claim.issued > other.claim.issued
  }

  // ------------------------------------------------------------ the derived state

  predicate Withdraws(r: Claim, target: ClaimId, issuer: nat, now: int) {
    r.kind.Retraction? && r.relation == Some(target) && r.issuer == issuer && r.expires > now
  }

  predicate Replaces(s: Claim, c: Claim) {
    s.kind.Observation? && s.relation == Some(Sha(c)) && s.issuer == c.issuer &&
    s.instrument == c.instrument && s.issued > c.issued
  }

  predicate Withdrawn(claims: set<Claim>, revoked: set<ClaimId>, now: int, c: Claim) {
    exists r :: r in claims && Sha(r) !in revoked && Withdraws(r, Sha(c), c.issuer, now)
  }

  predicate Replaced(claims: set<Claim>, revoked: set<ClaimId>, c: Claim) {
    exists s :: s in claims && Sha(s) !in revoked && Replaces(s, c)
  }

  /** The state of a claim among the claims held, the local revocations, and the time. */
  function StateOf(claims: set<Claim>, revoked: set<ClaimId>, now: int, c: Claim): State {
    if Sha(c) in revoked then Revoked
    else if c.expires <= now then Expired
    else if c.kind.Retraction? then Active
    else if Withdrawn(claims, revoked, now, c) then Retracted
    else if Replaced(claims, revoked, c) then Superseded
    else Active
  }

  predicate Keyed(rows: map<ClaimId, Row>) { forall id :: id in rows ==> id == Sha(rows[id].claim) }

  function Held(rows: map<ClaimId, Row>): set<Claim> { set id | id in rows :: rows[id].claim }

  function Stamped(row: Row, state: State, now: int): Row {
    if row.state == state then row else row.(state := state, changed := now)
  }

  ghost function Refreshed(rows: map<ClaimId, Row>, revoked: set<ClaimId>, now: int): map<ClaimId, Row> {
    var claims := Held(rows);
    map id | id in rows :: Stamped(rows[id], StateOf(claims, revoked, now, rows[id].claim), now)
  }

  predicate Old(row: Row, cutoff: int) { !row.state.Active? && row.claim.expires < cutoff }

  ghost function Aged(rows: map<ClaimId, Row>, cutoff: int): map<ClaimId, Row> {
    map id | id in rows && !Old(rows[id], cutoff) :: rows[id]
  }

  /** Inactive rows go before active ones, and rows received earlier before later ones. */
  predicate GoesFirst(a: Row, b: Row) {
    (!a.state.Active? && b.state.Active?) || (a.state.Active? == b.state.Active? && a.received <= b.received)
  }

  ghost predicate OverflowOf(rows: map<ClaimId, Row>, dropped: set<ClaimId>, maxClaims: nat) {
    dropped <= rows.Keys &&
    |dropped| == (if |rows| > maxClaims then |rows| - maxClaims else 0) &&
    forall d, k :: d in dropped && k in rows && k !in dropped ==> GoesFirst(rows[d], rows[k])
  }

  ghost function Shrunk(rows: map<ClaimId, Row>, revoked: set<ClaimId>, now: int, dropped: set<ClaimId>):
    map<ClaimId, Row>
  {
    if dropped == {} then rows else Refreshed(rows - dropped, revoked, now)
  }

  ghost function Swept(rows: map<ClaimId, Row>, revoked: set<ClaimId>, now: int, retention: nat): map<ClaimId, Row> {
    Aged(Refreshed(rows, revoked, now), now - retention)
  }

  ghost function Pruned(rows: map<ClaimId, Row>, revoked: set<ClaimId>, now: int, retention: nat,
                        dropped: set<ClaimId>):
    map<ClaimId, Row>
  {
    Shrunk(Swept(rows, revoked, now, retention), revoked, now, dropped)
  }

  // ------------------------------------------------------------ the store

  function At<K, V>(m: map<K, set<V>>, k: K): set<V> { if k in m then m[k] else {} }

  predicate Newer(candidates: set<Claim>, c: Claim) {
    exists s :: s in candidates && s.issuer == c.issuer && s.instrument == c.instrument && s.issued > c.issued
  }

  predicate Bans(bans: map<nat, Option<int>>, issuer: nat, now: int) {
    issuer in bans && (bans[issuer].None? || bans[issuer].value > now)
  }

  function Usable(rows: map<ClaimId, Row>, revoked: set<ClaimId>): set<Claim> {
    set id | id in rows && id !in revoked :: rows[id].claim
  }

  ghost predicate Withdrawals(claims: set<Claim>, now: int, retractions: map<ClaimId, set<nat>>) {
    forall t: ClaimId, issuer: nat :: issuer in At(retractions, t) <==> Withdrawing(claims, t, issuer, now)
  }

  predicate Withdrawing(claims: set<Claim>, t: ClaimId, issuer: nat, now: int) {
    exists r :: r in claims && Withdraws(r, t, issuer, now)
  }

  ghost predicate Candidates(claims: set<Claim>, superseders: map<ClaimId, set<Claim>>) {
    forall t: ClaimId, s: Claim :: s in At(superseders, t) <==>
      s in claims && s.kind.Observation? && s.relation == Some(t)
  }

  /** A claim that names no target, or a retraction that has run out, adds to neither index. */
  lemma AddNeither(claims: set<Claim>, now: int, retractions: map<ClaimId, set<nat>>, c: Claim)
    requires Withdrawals(claims, now, retractions)
    requires c.relation.None? || c.kind.Observation? || c.expires <= now
    ensures Withdrawals(claims + {c}, now, retractions)
  {
    forall u: ClaimId, issuer: nat
      ensures issuer in At(retractions, u) <==> Withdrawing(claims + {c}, u, issuer, now)
    {
      if Withdrawing(claims, u, issuer, now) {
        var r :| r in claims && Withdraws(r, u, issuer, now);
        assert r in claims + {c};
      }
    }
  }

  lemma AddCandidate(claims: set<Claim>, superseders: map<ClaimId, set<Claim>>, c: Claim)
    requires Candidates(claims, superseders)
    ensures c.kind.Observation? && c.relation.Some? ==>
              Candidates(claims + {c}, superseders[c.relation.value := At(superseders, c.relation.value) + {c}])
    ensures c.kind.Retraction? || c.relation.None? ==> Candidates(claims + {c}, superseders)
  {
    if c.kind.Observation? && c.relation.Some? {
      var more := superseders[c.relation.value := At(superseders, c.relation.value) + {c}];
      forall t: ClaimId, s: Claim
        ensures s in At(more, t) <==> s in claims + {c} && s.kind.Observation? && s.relation == Some(t)
      {
        assert s in At(superseders, t) <==> s in claims && s.kind.Observation? && s.relation == Some(t);
      }
    }
  }

  lemma AddWithdrawal(claims: set<Claim>, now: int, retractions: map<ClaimId, set<nat>>, c: Claim)
    requires Withdrawals(claims, now, retractions) && c.relation.Some? && Withdraws(c, c.relation.value, c.issuer, now)
    ensures Withdrawals(claims + {c}, now,
                        retractions[c.relation.value := At(retractions, c.relation.value) + {c.issuer}])
  {
    var t := c.relation.value;
    var more := retractions[t := At(retractions, t) + {c.issuer}];
    assert Withdraws(c, t, c.issuer, now) && c in claims + {c};
    forall u: ClaimId, issuer: nat
      ensures issuer in At(more, u) <==> Withdrawing(claims + {c}, u, issuer, now)
    {
      if Withdrawing(claims, u, issuer, now) {
        var r :| r in claims && Withdraws(r, u, issuer, now);
        assert r in claims + {c};
      }
    }
  }

  /** The two indexes give the state of every claim. */
  lemma IndexedState(rows: map<ClaimId, Row>, revoked: set<ClaimId>, now: int, retractions: map<ClaimId, set<nat>>,
                     superseders: map<ClaimId, set<Claim>>, c: Claim)
    requires Keyed(rows) && Withdrawals(Usable(rows, revoked), now, retractions) &&
             Candidates(Usable(rows, revoked), superseders)
    ensures c.issuer in At(retractions, Sha(c)) <==> Withdrawn(Held(rows), revoked, now, c)
    ensures c.kind.Observation? ==> (Newer(At(superseders, Sha(c)), c) <==> Replaced(Held(rows), revoked, c))
  {
    var usable := Usable(rows, revoked);
    forall d
      ensures d in usable <==> d in Held(rows) && Sha(d) !in revoked
    {
      if d in Held(rows) && Sha(d) !in revoked {
        var id :| id in rows && rows[id].claim == d;
        assert id == Sha(d);
      }
    }
    if Withdrawn(Held(rows), revoked, now, c) {
      var r :| r in Held(rows) && Sha(r) !in revoked && Withdraws(r, Sha(c), c.issuer, now);
      assert r in usable && Withdrawing(usable, Sha(c), c.issuer, now);
    }
    if Replaced(Held(rows), revoked, c) {
      var s :| s in Held(rows) && Sha(s) !in revoked && Replaces(s, c);
      assert s in usable && s in At(superseders, Sha(c));
    }
    if Newer(At(superseders, Sha(c)), c) {
      var s :| s in At(superseders, Sha(c)) && s.issuer == c.issuer && s.instrument == c.instrument &&
          s.issued > c.issued;
      assert Replaces(s, c);
    }
  }

  /** The state of a claim as the refresh decides it, from the two indexes. */
  function StateBy(retractions: map<ClaimId, set<nat>>, superseders: map<ClaimId, set<Claim>>, revoked: set<ClaimId>,
                   now: int, c: Claim): State
  {
    if Sha(c) in revoked then Revoked
    else if c.expires <= now then Expired
    else if c.kind.Retraction? then Active
    else if c.issuer in At(retractions, Sha(c)) then Retracted
    else if Newer(At(superseders, Sha(c)), c) then Superseded
    else Active
  }

  lemma StateByIndexes(rows: map<ClaimId, Row>, revoked: set<ClaimId>, now: int, retractions: map<ClaimId, set<nat>>,
                       superseders: map<ClaimId, set<Claim>>, c: Claim)
    requires Keyed(rows) && Withdrawals(Usable(rows, revoked), now, retractions) &&
             Candidates(Usable(rows, revoked), superseders)
    ensures StateBy(retractions, superseders, revoked, now, c) == StateOf(Held(rows), revoked, now, c)
  {
    IndexedState(rows, revoked, now, retractions, superseders, c);
  }

  /** The bans without an end, and those that have not ended before the cutoff. */
  ghost function KeptBans(bans: map<nat, Option<int>>, cutoff: int): map<nat, Option<int>> {
    map issuer | issuer in bans && (bans[issuer].None? || bans[issuer].value >= cutoff) :: bans[issuer]
  }

  /** Exactly the bans that can still hold somewhere after the cutoff are kept; who is banned then does not change. */
  lemma KeptBansHold(bans: map<nat, Option<int>>, cutoff: int, t: int, issuer: nat)
    requires t >= cutoff
    ensures Bans(KeptBans(bans, cutoff), issuer, t) <==> Bans(bans, issuer, t)
  {
  }

  lemma RefreshedKeyed(rows: map<ClaimId, Row>, revoked: set<ClaimId>, now: int)
    requires Keyed(rows)
    ensures Keyed(Refreshed(rows, revoked, now))
  {
  }

  /** A row of the refreshed table, from the two indexes. */
  lemma RefreshedAt(rows: map<ClaimId, Row>, revoked: set<ClaimId>, now: int, id: ClaimId,
                    retractions: map<ClaimId, set<nat>>, superseders: map<ClaimId, set<Claim>>)
    requires Keyed(rows) && id in rows
    requires Withdrawals(Usable(rows, revoked), now, retractions) && Candidates(Usable(rows, revoked), superseders)
    ensures Refreshed(rows, revoked, now)[id] ==
            Stamped(rows[id], StateBy(retractions, superseders, revoked, now, rows[id].claim), now)
  {
    StateByIndexes(rows, revoked, now, retractions, superseders, rows[id].claim);
  }

  /** The update of the rows whose state has changed, one after the other. */
  method StampRows(rows: map<ClaimId, Row>, revoked: set<ClaimId>, now: int, retractions: map<ClaimId, set<nat>>,
                   superseders: map<ClaimId, set<Claim>>) returns (stamped: map<ClaimId, Row>)
    requires Keyed(rows)
    requires Withdrawals(Usable(rows, revoked), now, retractions) && Candidates(Usable(rows, revoked), superseders)
    ensures stamped == Refreshed(rows, revoked, now)
  {
    stamped := rows;
    var rest := rows.Keys;
    ghost var target := Refreshed(rows, revoked, now);
    while rest != {}
      invariant rest <= stamped.Keys == rows.Keys == target.Keys
      invariant forall id :: id in rows ==> stamped[id] == if id in rest then rows[id] else target[id]
      decreases |rest|
    {
      var id :| id in rest;
      rest := rest - {id};
      var row := rows[id];
      var state := StateBy(retractions, superseders, revoked, now, row.claim);
      RefreshedAt(rows, revoked, now, id, retractions, superseders);
      if row.state != state {
        stamped := stamped[id := row.(state := state, changed := now)];
      }
    }
  }

  class PeerClaimStore {
    const limits: Limits
    var rows: map<ClaimId, Row>
    var revoked: map<ClaimId, int>
    var bans: map<nat, Option<int>>

    constructor (limits: Limits)
      ensures this.limits == limits && rows == map[] && revoked == map[] && bans == map[]
    {
      this.limits, rows, revoked, bans := limits, map[], map[], map[];
    }

    /** The claims that may relate to others, by target: live retractions, and replacing observations. */
    method Relations(now: int) returns (retractions: map<ClaimId, set<nat>>, superseders: map<ClaimId, set<Claim>>)
      ensures Withdrawals(Usable(rows, revoked.Keys), now, retractions)
      ensures Candidates(Usable(rows, revoked.Keys), superseders)
    {
      retractions, superseders := map[], map[];
      var usable := Usable(rows, revoked.Keys);
      var rest := usable;
      while rest != {}
        invariant rest <= usable
        invariant Withdrawals(usable - rest, now, retractions)
        invariant Candidates(usable - rest, superseders)
        decreases |rest|
      {
        var c :| c in rest;
        ghost var done := usable - rest;
        assert usable - (rest - {c}) == done + {c};
        rest := rest - {c};
        AddCandidate(done, superseders, c);
        if c.kind.Observation? || c.relation.None? || c.expires <= now { AddNeither(done, now, retractions, c); }
        if c.kind.Retraction? && c.relation.Some? && c.expires > now {
          AddWithdrawal(done, now, retractions, c);
          retractions := retractions[c.relation.value := At(retractions, c.relation.value) + {c.issuer}];
        } else if c.kind.Observation? && c.relation.Some? {
          superseders := superseders[c.relation.value := At(superseders, c.relation.value) + {c}];
        }
      }
      assert usable - rest == usable;
    }

    method RefreshStates(now: int)
      requires Keyed(rows)
      modifies this`rows
      ensures Keyed(rows) && rows == Refreshed(old(rows), revoked.Keys, now)
    {
      var retractions, superseders := Relations(now);
      RefreshedKeyed(rows, revoked.Keys, now);
      rows := StampRows(rows, revoked.Keys, now, retractions, superseders);
    }

    method DropAged(cutoff: int)
      requires Keyed(rows)
      modifies this`rows
      ensures Keyed(rows) && rows == Aged(old(rows), cutoff)
    {
      rows := map id | id in rows && !Old(rows[id], cutoff) :: rows[id];
    }

    method DropOverflow(now: int) returns (dropped: set<ClaimId>)
      requires Keyed(rows)
      modifies this`rows
      ensures Keyed(rows) && OverflowOf(old(rows), dropped, limits.maxClaims)
      ensures rows == Shrunk(old(rows), revoked.Keys, now, dropped)
    {
      dropped := {};
      if |rows| > limits.maxClaims {
        dropped := FirstToGo(|rows| - limits.maxClaims);
        rows := rows - dropped;
        RefreshStates(now);
      }
    }

    method DropBans(cutoff: int)
      modifies this`bans
      ensures bans == KeptBans(old(bans), cutoff)
    {
      bans := map issuer | issuer in bans && (bans[issuer].None? || bans[issuer].value >= cutoff) :: bans[issuer];
    }

    method Sweep(now: int)
      requires Keyed(rows)
      modifies this`rows
      ensures Keyed(rows) && rows == Swept(old(rows), revoked.Keys, now, limits.retention)
    {
      RefreshStates(now);
      DropAged(now - limits.retention);
    }

    method Prune(now: int) returns (dropped: set<ClaimId>)
      requires Keyed(rows)
      modifies this`rows, this`bans
      ensures Keyed(rows) && rows == Pruned(old(rows), revoked.Keys, now, limits.retention, dropped)
      ensures OverflowOf(Swept(old(rows), revoked.Keys, now, limits.retention), dropped, limits.maxClaims)
      ensures bans == KeptBans(old(bans), now - limits.retention)
    {
      Sweep(now);
      dropped := DropOverflow(now);
      DropBans(now - limits.retention);
    }

    /** The first n rows in the order of deletion; ties may fall either way. */
    method FirstToGo(n: nat) returns (dropped: set<ClaimId>)
      requires n <= |rows|
      ensures dropped <= rows.Keys && |dropped| == n
      ensures forall d, k :: d in dropped && k in rows && k !in dropped ==> GoesFirst(rows[d], rows[k])
    {
      dropped := {};
      while |dropped| < n
        invariant dropped <= rows.Keys && |dropped| <= n
        invariant forall d, k :: d in dropped && k in rows && k !in dropped ==> GoesFirst(rows[d], rows[k])
      {
        assert rows.Keys - dropped == {} ==> dropped == rows.Keys;
        var first :| first in rows.Keys - dropped;
        var rest := rows.Keys - dropped - {first};
        while rest != {}
          invariant first in rows.Keys - dropped && rest <= rows.Keys - dropped
          invariant forall k :: k in rows && k !in dropped && k !in rest ==> GoesFirst(rows[first], rows[k])
          decreases |rest|
        {
          var k :| k in rest;
          rest := rest - {k};
          if !GoesFirst(rows[first], rows[k]) { first := k; }
        }
        dropped := dropped + {first};
      }
    }

    /** The rate limiter's answer comes in as `slot`. */
    method Ingest(s: Signed, topic: nat, now: int, slot: bool)
      returns (r: Result<Outcome, Error>, dropped: set<ClaimId>)
      requires Keyed(rows)
      modifies this`rows, this`bans
      ensures Keyed(rows)
      ensures r == Answer(old(rows), revoked.Keys, old(bans), s, topic, now, slot)
      ensures rows == if r.Ok? && r.value.Accepted?
                      then Pruned(Inserted(old(rows), s, topic, now), revoked.Keys, now, limits.retention, dropped)
                      else old(rows)
      ensures dropped != {} ==> |old(rows)| + 1 > limits.maxClaims
      ensures bans == if r.Ok? && r.value.Accepted? then KeptBans(old(bans), now - limits.retention) else old(bans)
    {
      dropped := {};
      var verified := Verify(s, now, true);
      if verified.Err? { return Err(verified.error), {}; }
      if s.claim.issuer in bans && (bans[s.claim.issuer].None? || bans[s.claim.issuer].value > now) {
        return Ok(Banned), {};
      }
      if !slot { return Ok(RateLimited), {}; }
      if s.id in rows { return Ok(Duplicate(rows[s.id].state)), {}; }
      var state: State;
      state, dropped := Admit(s, topic, now);
      return Ok(Accepted(state)), dropped;
    }

    /** The new row, its state at once, and what the prune after it leaves. */
    method Admit(s: Signed, topic: nat, now: int) returns (state: State, dropped: set<ClaimId>)
      requires Keyed(rows) && s.id == Sha(s.claim)
      modifies this`rows, this`bans
      ensures Keyed(rows)
      ensures state == StateOf(Held(Inserted(old(rows), s, topic, now)), revoked.Keys, now, s.claim)
      ensures rows == Pruned(Inserted(old(rows), s, topic, now), revoked.Keys, now, limits.retention, dropped)
      ensures |Inserted(old(rows), s, topic, now)| <= limits.maxClaims ==> dropped == {}
      ensures bans == KeptBans(old(bans), now - limits.retention)
    {
      ghost var inserted := Inserted(rows, s, topic, now);
      state := InsertRow(s, topic, now);
      PrunedTwice(inserted, revoked.Keys, now, limits.retention);
      dropped := Prune(now);
      PruneKeeps(inserted, revoked.Keys, now, limits, dropped);
    }

    method InsertRow(s: Signed, topic: nat, now: int) returns (state: State)
      requires Keyed(rows) && s.id == Sha(s.claim)
      modifies this`rows
      ensures Keyed(rows) && rows == Refreshed(Inserted(old(rows), s, topic, now), revoked.Keys, now)
      ensures state == StateOf(Held(Inserted(old(rows), s, topic, now)), revoked.Keys, now, s.claim)
    {
      rows := rows[s.id := Row(s.claim, topic, now, Active, now)];
      RefreshStates(now);
      state := rows[s.id].state;
    }

    /** The observations that readers see: active ones, from issuers not banned. */
    method CurrentClaims(now: int) returns (found: set<Claim>)
      requires Keyed(rows)
      modifies this`rows
      ensures Keyed(rows) && rows == Refreshed(old(rows), revoked.Keys, now)
      ensures forall c :: c in found <==>
                c in Held(old(rows)) && c.kind.Observation? && StateOf(Held(old(rows)), revoked.Keys, now, c).Active? &&
                !Bans(bans, c.issuer, now)
    {
      ghost var was := rows;
      RefreshStates(now);
      found := set id | id in rows && rows[id].state.Active? && rows[id].claim.kind.Observation? &&
                        !Bans(bans, rows[id].claim.issuer, now) :: rows[id].claim;
      forall c | c in Held(was)
        ensures Sha(c) in rows && rows[Sha(c)].claim == c &&
                rows[Sha(c)].state == StateOf(Held(was), revoked.Keys, now, c)
      {
      }
    }

    /** A ban replaces an earlier one; a new one needs room. */
    method BanPeer(issuer: nat, until: Option<int>, now: int) returns (r: Result<(), Error>)
      modifies this`bans
      ensures until.Some? && until.value <= now ==> r == Err(BanAlreadyOver)
      ensures r.Ok? <==> (until.None? || now < until.value) && (issuer in old(bans) || |old(bans)| < limits.maxControl)
      ensures bans == if r.Ok? then old(bans)[issuer := until] else old(bans)
      ensures r.Ok? ==> forall t :: t >= now ==> (Bans(bans, issuer, t) <==> until.None? || t < until.value)
    {
      if until.Some? && until.value <= now { return Err(BanAlreadyOver); }
      if issuer !in bans && |bans| >= limits.maxControl { return Err(ControlFull); }
      bans := bans[issuer := until];
      return Ok(());
    }

    method UnbanPeer(issuer: nat) returns (removed: bool)
      modifies this`bans
      ensures removed <==> issuer in old(bans)
      ensures bans == old(bans) - {issuer}
      ensures forall t :: !Bans(bans, issuer, t)
    {
      removed := issuer in bans;
      bans := bans - {issuer};
    }

    method RevokeClaim(id: ClaimId, now: int) returns (r: Result<(), Error>)
      requires Keyed(rows)
      modifies this`rows, this`revoked
      ensures Keyed(rows)
      ensures r.Ok? <==> id in old(revoked) || |old(revoked)| < limits.maxControl
      ensures revoked == if r.Ok? then old(revoked)[id := now] else old(revoked)
      ensures rows == if r.Ok? then Refreshed(old(rows), revoked.Keys, now) else old(rows)
    {
      if id !in revoked && |revoked| >= limits.maxControl { return Err(ControlFull); }
      revoked := revoked[id := now];
      RefreshStates(now);
      return Ok(());
    }

    method RestoreClaim(id: ClaimId, now: int) returns (removed: bool)
      requires Keyed(rows)
      modifies this`rows, this`revoked
      ensures Keyed(rows)
      ensures removed <==> id in old(revoked)
      ensures revoked == old(revoked) - {id}
      ensures rows == Refreshed(old(rows), revoked.Keys, now)
    {
      removed := id in revoked;
      revoked := revoked - {id};
      RefreshStates(now);
    }
  }

  ghost function Inserted(rows: map<ClaimId, Row>, s: Signed, topic: nat, now: int): map<ClaimId, Row> {
    rows[s.id := Row(s.claim, topic, now, Active, now)]
  }

  /** What a call to ingest reports. */
  ghost function Answer(rows: map<ClaimId, Row>, revoked: set<ClaimId>, bans: map<nat, Option<int>>, s: Signed,
                        topic: nat, now: int, slot: bool): Result<Outcome, Error> {
    if Verify(s, now, true).Err? then Err(Verify(s, now, true).error)
    else if Bans(bans, s.claim.issuer, now) then Ok(Banned)
    else if !slot then Ok(RateLimited)
    else if s.id in rows then Ok(Duplicate(rows[s.id].state))
    else Ok(Accepted(StateOf(Held(Inserted(rows, s, topic, now)), revoked, now, s.claim)))
  }

  /** Signed, and under its own digest; and besides that, neither issued too late nor run out. */
  predicate Authentic(s: Signed) { s.id == Sha(s.claim) && s.signatureOk }

  /** What one claim can do to another: only an issuer itself withdraws its claims, or replaces an observation by a
      later one of the same instrument; with a current claim, on one that is authentic and was not issued too late. */
  lemma RelationsExactly(self: Signed, other: Signed, at: int)
    ensures var named := self.claim.relation == Some(other.id) && self.claim.issuer == other.claim.issuer &&
                         Current(self, at) && Authentic(other) && other.claim.issued <= at + 300_000_000;
            (Retracts(self, other, at) <==> self.claim.kind.Retraction? && named) &&
            (Supersedes(self, other, at) <==>
             named && self.claim.kind.Observation? && other.claim.kind.Observation? &&
             self.claim.instrument == other.claim.instrument && other.claim.issued < self.claim.issued)
  {
  }

  /** A local revocation comes before everything, and the end of its life before every relation; a retraction is never
      itself retracted or superseded. */
  lemma PlainStates(claims: set<Claim>, revoked: set<ClaimId>, now: int, c: Claim)
    ensures var state := StateOf(claims, revoked, now, c);
            (state.Revoked? <==> Sha(c) in revoked) &&
            (state.Expired? <==> Sha(c) !in revoked && now >= c.expires) &&
            (c.kind.Retraction? ==> !state.Retracted? && !state.Superseded?)
  {
  }

  /** A refresh stamps a row with the time exactly when its state changes, and touches nothing else of it. */
  lemma RefreshStamps(rows: map<ClaimId, Row>, revoked: set<ClaimId>, now: int, id: ClaimId)
    requires id in rows
    ensures var (row, after) := (rows[id], Refreshed(rows, revoked, now)[id]);
            after.state == StateOf(Held(rows), revoked, now, row.claim) && after.claim == row.claim &&
            after.topic == row.topic && after.received == row.received &&
            after.changed == if after.state == row.state then row.changed else now
  {
  }

  /** Overflow takes active claims only when no other is left, and of each kind the earliest arrivals. */
  lemma OverflowOrder(rows: map<ClaimId, Row>, dropped: set<ClaimId>, maxClaims: nat, d: ClaimId, k: ClaimId)
    requires OverflowOf(rows, dropped, maxClaims) && d in dropped && k in rows && k !in dropped
    ensures rows[d].state.Active? ==> rows[k].state.Active?
    ensures rows[d].state.Active? == rows[k].state.Active? ==> rows[d].received <= rows[k].received
    ensures |rows| > maxClaims
  {
  }

  /** What must hold of a claim for it to be taken in: it is under its own digest, its signature is over it, it was not
      issued more than five minutes from now, and it has not run out. */
  predicate Current(s: Signed, now: int) {
    s.id == Sha(s.claim) && s.signatureOk && s.claim.issued <= now + 300_000_000 && now < s.claim.expires
  }

  /** A claim is accepted if and only if it is current, its issuer is not banned and within its rate, and it is not
      held; of the reasons not to, a ban comes before the rate, and the rate before a duplicate. */
  lemma AnswerExactly(rows: map<ClaimId, Row>, revoked: set<ClaimId>, bans: map<nat, Option<int>>, s: Signed,
                      topic: nat, now: int, slot: bool)
    ensures var r := Answer(rows, revoked, bans, s, topic, now, slot);
            (r.Err? <==> !Current(s, now)) &&
            (r == Ok(Banned) <==> Current(s, now) && Bans(bans, s.claim.issuer, now)) &&
            (r == Ok(RateLimited) <==> Current(s, now) && !Bans(bans, s.claim.issuer, now) && !slot) &&
            (r.Ok? && r.value.Duplicate? <==>
              Current(s, now) && !Bans(bans, s.claim.issuer, now) && slot && s.id in rows) &&
            (r.Ok? && r.value.Accepted? <==>
              Current(s, now) && !Bans(bans, s.claim.issuer, now) && slot && s.id !in rows)
  {
  }

  /** The new row holds the claim, its topic and its time of arrival, unless the overflow takes it; all other rows that
      stay keep theirs. */
  lemma AcceptedRow(rows: map<ClaimId, Row>, s: Signed, topic: nat, revoked: set<ClaimId>, now: int, retention: nat,
                    dropped: set<ClaimId>)
    requires Keyed(rows) && Current(s, now) && s.id !in rows
    ensures var after := Pruned(Inserted(rows, s, topic, now), revoked, now, retention, dropped);
            (s.id in after <==> s.id !in dropped) &&
            (s.id in after ==>
              after[s.id].claim == s.claim && after[s.id].topic == topic && after[s.id].received == now) &&
            forall id :: id in after && id != s.id ==>
              id in rows && after[id].claim == rows[id].claim && after[id].topic == rows[id].topic &&
              after[id].received == rows[id].received
  {
  }

  lemma HeldAfterRefresh(rows: map<ClaimId, Row>, revoked: set<ClaimId>, now: int)
    ensures Held(Refreshed(rows, revoked, now)) == Held(rows)
  {
    var after := Refreshed(rows, revoked, now);
    forall c | c in Held(rows)
      ensures c in Held(after)
    {
      var id :| id in rows && rows[id].claim == c;
      assert after[id].claim == c;
    }
  }

  lemma RefreshedTwice(rows: map<ClaimId, Row>, revoked: set<ClaimId>, now: int)
    ensures Refreshed(Refreshed(rows, revoked, now), revoked, now) == Refreshed(rows, revoked, now)
  {
    HeldAfterRefresh(rows, revoked, now);
  }

  /** Pruning starts with a refresh, so one before it makes no difference. */
  lemma PrunedTwice(rows: map<ClaimId, Row>, revoked: set<ClaimId>, now: int, retention: nat)
    ensures Swept(Refreshed(rows, revoked, now), revoked, now, retention) == Swept(rows, revoked, now, retention)
  {
    RefreshedTwice(rows, revoked, now);
  }

  /** Nothing is dropped from a store within its limit. */
  lemma PruneKeeps(rows: map<ClaimId, Row>, revoked: set<ClaimId>, now: int, limits: Limits, dropped: set<ClaimId>)
    requires OverflowOf(Swept(rows, revoked, now, limits.retention), dropped, limits.maxClaims)
    ensures |rows| <= limits.maxClaims ==> dropped == {}
  {
    Included(Swept(rows, revoked, now, limits.retention).Keys, rows.Keys);
  }

  lemma {:induction false} Included<T>(a: set<T>, b: set<T>)
    requires a <= b
    ensures |a| <= |b|
  {
    if a != {} {
      var x :| x in a;
      Included(a - {x}, b - {x});
    }
  }
}
