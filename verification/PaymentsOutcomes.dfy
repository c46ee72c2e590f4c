/** Exactly when a settlement call starts and what its transactions change; and what every run owes to the terms that an
    order offered and to the answers of the payment service. */
module PaymentsOutcomes {
  import opened Wrappers
  import opened Sums
  import opened Payments
  import opened PaymentsProofs
  import opened PaymentsOverrun

  /** Nothing changes but one order's row. */
  predicate OnlyRow(s: Db, t: Db, id: nat, row: Topup) {
    id in t.topups && t.topups[id] == row && t.topups.Keys == s.topups.Keys &&
    (forall o :: o in s.topups && o != id ==> t.topups[o] == s.topups[o]) && t.paid == s.paid
  }

  /** The claims are the old ones and one more. */
  predicate OneClaim(s: Db, t: Db, c: ClaimId, id: nat) {
    c in t.claims && t.claims[c] == id && t.claims.Keys == s.claims.Keys + {c} &&
    forall d :: d in s.claims && d != c ==> t.claims[d] == s.claims[d]
  }

  // ------------------------------------------------------------ starting

  /** The user's own order, still to be paid. */
  predicate OwnOpen(s: Db, id: nat, user: nat) {
    id in s.topups && s.topups[id].user == user && !s.topups[id].status.Complete?
  }

  /** Another call is at work on the order and its lease has not run out. */
  predicate Leased(row: Topup, now: int) { (row.status.Verifying? || row.status.Settling?) && now < row.lease }

  /** All that the first transaction asks for: the protocol's version, terms that the order offered, its own resource,
      the payment it began with, terms at most ten minutes old on a first try, no call at work, and a payment that no
      other order has. */
  predicate MayStart(s: Db, id: nat, user: nat, p: Payload, now: int) {
    OwnOpen(s, id, user) &&
    var row := s.topups[id];
    p.version == 2 && (exists i :: 0 <= i < |row.requirements| && row.requirements[i] == p.terms) &&
    p.resource == Some(row.resource) && (row.proof.None? || row.proof.value == p.proof) &&
    (row.status.Open? ==> now - row.created <= 600) && !Leased(row, now) &&
    (OfProof(p.proof) in s.claims ==> s.claims[OfProof(p.proof)] == id) &&
    (forall o :: o in s.topups && o != id ==> s.topups[o].proof != Some(p.proof))
  }

  /** A call starts if and only if all of that holds. It then has the payment's claim and the lease for ninety seconds,
      and goes straight to settling when an earlier call had come so far. A complete order needs nothing, and everything
      else is refused; neither changes anything. */
  lemma BeginExactly(s: Db, id: nat, user: nat, p: Payload, now: int)
    ensures var (t, r) := Begin(s, id, user, p, now);
            if MayStart(s, id, user, p, now) then
              var row := s.topups[id];
              var retry := row.status.Settling? || row.status.Pending?;
              r == Ok(Started(retry)) && OneClaim(s, t, OfProof(p.proof), id) &&
              OnlyRow(s, t, id, row.(status := if retry then Settling else Verifying, proof := Some(p.proof),
                                     lease := now + 90, updated := now))
            else
              t == s && (r == Ok(AlreadyComplete) <==>
                         id in s.topups && s.topups[id].user == user && s.topups[id].status.Complete?) &&
              (r.Err? || r == Ok(AlreadyComplete))
  {
  }

  // ------------------------------------------------------------ finishing

  /** The last transaction completes and credits exactly an own order that is not complete, for a transaction that no
      other order has; it claims the transaction for an order that is there, and refuses one that another order has. */
  lemma FinishExactly(s: Db, id: nat, user: nat, credits: nat, tx: Tx, now: int)
    requires forall o :: o in s.topups && o != id && s.topups[o].tx == Some(tx) ==>
               OfTx(tx) in s.claims && s.claims[OfTx(tx)] == o
    ensures var (t, r) := Finish(s, id, user, credits, tx, now);
            var free := OfTx(tx) in s.claims ==> s.claims[OfTx(tx)] == id;
            (r.Ok? <==> free && id in s.topups) && (r.Err? ==> t == s) &&
            (r.Ok? ==>
              OneClaim(s, t, OfTx(tx), id) &&
              if OwnOpen(s, id, user) then
                OnlyRow(s, t.(paid := s.paid), id, s.topups[id].(status := Complete, tx := Some(tx), updated := now)) &&
                t.paid == s.paid[user := Paid(s, user) + credits]
              else t.topups == s.topups && t.paid == s.paid)
  {
  }

  // ------------------------------------------------------------ a whole call

  /** The order is with this call: its payment is claimed, and credits and transactions are as they were. */
  ghost predicate Underway(s: Db, t: Db, id: nat, user: nat, p: Payload) {
    SoundDb(t) && OwnOpen(t, id, user) && id in s.topups && t.topups[id].credits == s.topups[id].credits &&
    t.topups[id].proof == Some(p.proof) && t.paid == s.paid &&
    (forall tx :: OfTx(tx) in t.claims <==> OfTx(tx) in s.claims) &&
    forall tx :: OfTx(tx) in s.claims ==> t.claims[OfTx(tx)] == s.claims[OfTx(tx)]
  }

  function IsRetry(s: Db, id: nat): bool
    requires id in s.topups
  {
    s.topups[id].status.Settling? || s.topups[id].status.Pending?
  }

  lemma BegunUnderway(s: Db, id: nat, user: nat, p: Payload, now: int)
    requires SoundDb(s) && MayStart(s, id, user, p, now)
    ensures var (t, r) := Begin(s, id, user, p, now);
            Underway(s, t, id, user, p) && r == Ok(Started(IsRetry(s, id))) &&
            t.topups[id].status == if IsRetry(s, id) then Settling else Verifying
  {
    BeginExactly(s, id, user, p, now);
    BeginSound(s, id, user, p, now);
  }

  lemma WriteUnderway(s: Db, t: Db, id: nat, user: nat, p: Payload, status: Status, now: int)
    requires Underway(s, t, id, user, p) && !status.Complete?
    ensures var u := Write(t, id, status, now); Underway(s, u, id, user, p) && u.topups[id].status == status
  {
    WriteSound(t, id, status, now);
  }

  /** The end of a call that the service confirms. */
  predicate PaidUp(s: Db, t: Db, r: Outcome, id: nat, user: nat, tx: Tx) {
    id in s.topups &&
    if OfTx(tx) in s.claims && s.claims[OfTx(tx)] != id then
      r == Refused(TransactionTaken) && t.paid == s.paid && id in t.topups && t.topups[id].status.Settling?
    else
      r == Outcome.Confirmed && id in t.topups && t.topups[id].status.Complete? && t.topups[id].tx == Some(tx) &&
      t.paid == s.paid[user := Paid(s, user) + s.topups[id].credits] && OfTx(tx) in t.claims &&
      t.claims[OfTx(tx)] == id
  }

  lemma FinishUnderway(s: Db, u: Db, id: nat, user: nat, p: Payload, tx: Tx, now: int)
    requires Underway(s, u, id, user, p) && u.topups[id].status.Settling?
    ensures var (t, r) := Finish(u, id, user, s.topups[id].credits, tx, now);
            PaidUp(s, t, if r.Err? then Refused(r.error) else Outcome.Confirmed, id, user, tx)
  {
    FinishExactly(u, id, user, s.topups[id].credits, tx, now);
  }

  /** The service has settled the payment on the network that was agreed. */
  predicate Agreed(p: Payload, settled: Option<(bool, Tx)>) {
    settled.Some? && settled.value.0 && settled.value.1.network == p.terms.network
  }

  lemma EndsUnsettled(s: Db, id: nat, user: nat, p: Payload, now: int, d: Delays, valid: Option<bool>,
                      settled: Option<(bool, Tx)>)
    requires SoundDb(s) && MayStart(s, id, user, p, now) && !IsRetry(s, id) && valid != Some(true)
    ensures var (t, r) := Alone(s, id, user, p, now, d, valid, settled);
            Underway(s, t, id, user, p) && r == (if valid.None? then Waiting else Declined) &&
            t.topups[id].status == if valid.None? then Pending else Rejected
  {
    BegunUnderway(s, id, user, p, now);
    WriteUnderway(s, Begin(s, id, user, p, now).0, id, user, p, if valid.None? then Pending else Rejected,
                  now + d.verify);
  }

  /** The tables when a call comes to settle. */
  lemma ToSettle(s: Db, id: nat, user: nat, p: Payload, now: int, d: Delays) returns (u: Db, at: int)
    requires SoundDb(s) && MayStart(s, id, user, p, now)
    ensures var (t, r) := Begin(s, id, user, p, now);
            at == (if IsRetry(s, id) then now else now + d.verify) && r == Ok(Started(IsRetry(s, id))) &&
            u == (if IsRetry(s, id) then t else Write(t, id, Settling, at)) && id in t.topups &&
            t.topups[id].credits == s.topups[id].credits
    ensures Underway(s, u, id, user, p) && u.topups[id].status.Settling?
  {
    BegunUnderway(s, id, user, p, now);
    u := Begin(s, id, user, p, now).0;
    at := if IsRetry(s, id) then now else now + d.verify;
    if !IsRetry(s, id) {
      WriteUnderway(s, u, id, user, p, Settling, at);
      u := Write(u, id, Settling, at);
    }
  }

  lemma EndsPending(s: Db, id: nat, user: nat, p: Payload, now: int, d: Delays, valid: Option<bool>,
                    settled: Option<(bool, Tx)>)
    requires SoundDb(s) && MayStart(s, id, user, p, now) && (IsRetry(s, id) || valid == Some(true)) &&
             !Agreed(p, settled)
    ensures var (t, r) := Alone(s, id, user, p, now, d, valid, settled);
            Underway(s, t, id, user, p) && r == Waiting && t.topups[id].status.Pending?
  {
    var u, at := ToSettle(s, id, user, p, now, d);
    WriteUnderway(s, u, id, user, p, Pending, at + d.settle);
  }

  lemma EndsPaid(s: Db, id: nat, user: nat, p: Payload, now: int, d: Delays, valid: Option<bool>,
                 settled: Option<(bool, Tx)>)
    requires SoundDb(s) && MayStart(s, id, user, p, now) && (IsRetry(s, id) || valid == Some(true)) &&
             Agreed(p, settled)
    ensures var (t, r) := Alone(s, id, user, p, now, d, valid, settled);
            PaidUp(s, t, r, id, user, settled.value.1)
  {
    var u, at := ToSettle(s, id, user, p, now, d);
    FinishUnderway(s, u, id, user, p, settled.value.1, at + d.settle);
  }

  /** What a call comes to, once it has started: a payment that the service declines is rejected; one whose verification
      or settlement it does not confirm, on the network that was agreed, stays pending; one whose transaction another
      order has is refused; and only a confirmed one completes its order and adds its credits. */
  lemma SettleExactly(s: Db, id: nat, user: nat, p: Payload, now: int, d: Delays, valid: Option<bool>,
                      settled: Option<(bool, Tx)>)
    requires SoundDb(s) && MayStart(s, id, user, p, now)
    ensures var (t, r) := Alone(s, id, user, p, now, d, valid, settled);
            if !IsRetry(s, id) && valid == Some(false) then
              r == Declined && Underway(s, t, id, user, p) && t.topups[id].status.Rejected?
            else if (!IsRetry(s, id) && valid.None?) || !Agreed(p, settled) then
              r == Waiting && Underway(s, t, id, user, p) && t.topups[id].status.Pending?
            else PaidUp(s, t, r, id, user, settled.value.1)
  {
    if !IsRetry(s, id) && valid != Some(true) {
      EndsUnsettled(s, id, user, p, now, d, valid, settled);
    } else if Agreed(p, settled) {
      EndsPaid(s, id, user, p, now, d, valid, settled);
    } else {
      EndsPending(s, id, user, p, now, d, valid, settled);
    }
  }

  // ------------------------------------------------------------ orders

  /** A new order is open, unpaid and free for any call; an identifier in use is left alone. */
  lemma CreateOutcome(s: Db, id: nat, user: nat, credits: nat, requirements: seq<Terms>, resource: nat, now: int)
    ensures var t := Create(s, id, user, credits, requirements, resource, now);
            if id in s.topups then t == s
            else
              var row := Topup(user, credits, requirements, resource, Open, None, now, now, now, None);
              t.topups == s.topups[id := row] && t.claims == s.claims && t.paid == s.paid
  {
  }

  /** Pruning deletes an order if and only if it is open or rejected and untouched for a week, with its claims and
      nothing else. */
  lemma PruneExactly(s: Db, id: nat, now: int)
    ensures var t := Prune(s, id, now);
            t.paid == s.paid &&
            if id in s.topups && (s.topups[id].status.Open? || s.topups[id].status.Rejected?) &&
               s.topups[id].updated < now - 604_800 then
              t.topups == s.topups - {id} && forall c :: c in t.claims <==> c in s.claims && s.claims[c] != id
            else t == s
  {
  }

  // ------------------------------------------------------------ terms, over every run

  predicate Offers(row: Topup, network: nat) {
    exists i :: 0 <= i < |row.requirements| && row.requirements[i].network == network
  }

  /** Calls are on networks that their orders offer, and so are the transactions on record. */
  predicate OnOfferedNetworks(w: World) {
    (forall k :: k in w.calls && w.calls[k].order in w.db.topups ==>
      Offers(w.db.topups[w.calls[k].order], w.calls[k].network)) &&
    (forall o :: o in w.db.topups && w.db.topups[o].tx.Some? ==>
      Offers(w.db.topups[o], w.db.topups[o].tx.value.network))
  }

  lemma BeganOffered(w: World, e: Event)
    requires OnOfferedNetworks(w) && e.Began?
    ensures OnOfferedNetworks(Perform(w, e))
  {
    BeginExactly(w.db, e.id, e.user, e.payload, w.now);
    var row, c := BeganCases(w, e);
    if Perform(w, e) != w {
      assert row.requirements == w.db.topups[e.id].requirements;
      assert MayStart(w.db, e.id, e.user, e.payload, w.now);
      assert Offers(row, c.network);
    }
  }

  lemma WrittenOffered(w: World, o: nat, status: Status, calls: map<nat, Call>)
    requires OnOfferedNetworks(w)
    requires forall k :: k in calls ==>
               k in w.calls && calls[k].order == w.calls[k].order && calls[k].network == w.calls[k].network
    ensures OnOfferedNetworks(w.(db := Write(w.db, o, status, w.now), calls := calls))
  {
    var v := w.(db := Write(w.db, o, status, w.now), calls := calls);
    forall p | p in v.db.topups
      ensures p in w.db.topups && v.db.topups[p].requirements == w.db.topups[p].requirements &&
              v.db.topups[p].tx == w.db.topups[p].tx
    {
    }
  }

  lemma SettledOffered(w: World, k: nat, tx: Tx)
    requires OnOfferedNetworks(w) && k in w.calls && w.calls[k].stage.Paying? && tx.network == w.calls[k].network
    ensures OnOfferedNetworks(Perform(w, Settled(k, true, tx)))
  {
    SettledCases(w, k, tx);
    if Grants(w.db, w.calls[k], tx) {
      var o := w.calls[k].order;
      assert Offers(w.db.topups[o], tx.network);
      var v := GrantedWorld(w, k, tx);
      forall p | p in v.db.topups
        ensures p in w.db.topups && v.db.topups[p].requirements == w.db.topups[p].requirements
      {
      }
    }
  }

  lemma PerformOffered(w: World, e: Event)
    requires OnOfferedNetworks(w)
    requires e.Ordered? ==> forall k :: k in w.calls ==> w.calls[k].order != e.id
    ensures OnOfferedNetworks(Perform(w, e))
  {
    match e
    case Ordered(_, _, _, _, _) =>
    case Began(_, _, _, _) => BeganOffered(w, e);
    case Verified(k, valid) =>
      if StatusWrite(w, e) {
        var status := if valid then Settling else Rejected;
        WrittenOffered(w, w.calls[k].order, status,
                       if valid then w.calls[k := w.calls[k].(stage := Paying)] else w.calls - {k});
      }
    case Unsure(k) => if k in w.calls { WrittenOffered(w, w.calls[k].order, Pending, w.calls - {k}); }
    case Settled(k, success, tx) =>
      if StatusWrite(w, e) {
        WrittenOffered(w, w.calls[k].order, Pending, w.calls - {k});
      } else if k in w.calls && w.calls[k].stage.Paying? {
        SettledOffered(w, k, tx);
      }
    case Crashed(_) =>
    case Pruned(_) =>
    case Waited(_) =>
  }

  /** Over every run, late calls included: a call pays on a network that its order offers, and so has every complete
      order been paid. */
  lemma {:induction false} OfferedRun(es: seq<Event>, i: nat)
    requires NoReuse(es) && i <= |es|
    ensures OnOfferedNetworks(Run(OPENING, es[..i]))
    decreases i
  {
    if i > 0 {
      OfferedRun(es, i - 1);
      var front := es[..i - 1];
      assert es[..i][..i - 1] == front;
      var n := i - 1;
      if es[n].Ordered? { NewOrder(es, n); }
      PerformOffered(Run(OPENING, front), es[i - 1]);
    }
  }

  // ------------------------------------------------------------ the service's answers, over every run

  /** Somewhere in the run the service has answered that this transaction settled, and the network was the call's. */
  predicate Confirmed(es: seq<Event>, tx: Tx) {
    exists i :: 0 <= i < |es| && es[i].Settled? && es[i].success && es[i].tx == tx
  }

  /** Every transaction on record was confirmed by the service, and there are no more grants than confirmations. */
  lemma {:induction false} GrantsConfirmed(es: seq<Event>)
    ensures var w := Run(OPENING, es);
            forall o :: o in w.db.topups && w.db.topups[o].tx.Some? ==> Confirmed(es, w.db.topups[o].tx.value)
    ensures |Run(OPENING, es).granted| <= Count(es)
    decreases |es|
  {
    if es != [] {
      var front, e := es[..|es| - 1], es[|es| - 1];
      var w, v := Run(OPENING, front), Run(OPENING, es);
      GrantsConfirmed(front);
      TxFrom(w, e);
      forall o | o in v.db.topups && v.db.topups[o].tx.Some?
        ensures Confirmed(es, v.db.topups[o].tx.value)
      {
        if o in w.db.topups && w.db.topups[o].tx == v.db.topups[o].tx {
          var i :| 0 <= i < |front| && front[i].Settled? && front[i].success && front[i].tx == v.db.topups[o].tx.value;
          assert es[i] == front[i];
        } else {
          assert es[|es| - 1] == e;
        }
      }
    }
  }

  /** The confirmations in a run. */
  function Count(es: seq<Event>): nat
    decreases |es|
  {
    if es == [] then 0
    else Count(es[..|es| - 1]) + if es[|es| - 1].Settled? && es[|es| - 1].success then 1 else 0
  }

  /** Only a confirmation writes a transaction, its own, and adds credits, once. */
  lemma TxFrom(w: World, e: Event)
    ensures var v := Perform(w, e);
            forall o :: o in v.db.topups && v.db.topups[o].tx.Some? ==>
              (o in w.db.topups && w.db.topups[o].tx == v.db.topups[o].tx) ||
              (e.Settled? && e.success && e.tx == v.db.topups[o].tx.value)
    ensures var v := Perform(w, e);
            (v.granted == w.granted && (forall u: nat :: Paid(v.db, u) == Paid(w.db, u))) ||
            (e.Settled? && e.success && |v.granted| == |w.granted| + 1)
  {
  }

  /** Within the leases, no two calls are at work on one order. */
  lemma OneAtWork(es: seq<Event>, j: nat, k: nat)
    requires Timely(es)
    requires var w := Run(OPENING, es);
             j in w.calls && k in w.calls && w.calls[j].order == w.calls[k].order &&
             w.now < w.calls[j].deadline && w.now < w.calls[k].deadline
    ensures j == k
  {
    RunInv(es, |es|);
    assert es[..|es|] == es;
    var w := Run(OPENING, es);
    assert CallOk(w.db.topups, w.calls[j], w.now) && CallOk(w.db.topups, w.calls[k], w.now);
  }
}
