/** Settlement of credit top-ups (src/runner_web/api_payments.py): a leased call that runs several
    separate transactions around the payment service, and may crash or be retried anywhere between. */
module Payments {
  import opened Wrappers
  import opened Sums

  datatype Status = Open | Verifying | Settling | Pending | Rejected | Complete
  datatype Tx = Tx(network: nat, id: nat)
  datatype Terms = Terms(network: nat, details: nat)
  datatype Payload = Payload(version: nat, terms: Terms, resource: Option<nat>, proof: nat)

  datatype Topup = Topup(user: nat, credits: nat, requirements: seq<Terms>, resource: nat, status: Status,
                         proof: Option<nat>, lease: int, created: int, updated: int, tx: Option<Tx>)

  /** Claim rows are keyed by a digest of a payment proof or of a settled transaction. */
  datatype ClaimId = OfProof(proof: nat) | OfTx(tx: Tx)

  datatype Db = Db(topups: map<nat, Topup>, claims: map<ClaimId, nat>, paid: map<nat, int>)

  datatype Error = Unknown | OtherTerms | OtherResource | OtherProof | TermsTooOld | InProgress | ProofTaken
                 | TransactionTaken | Integrity

  const TERMS_AGE := 600
  const LEASE := 90
  const WEEK := 604_800

  /** Whether the call goes on, and if so whether it skips verification. */
  datatype Begun = AlreadyComplete | Started(retry: bool)

  predicate ProofElsewhere(s: Db, id: nat, proof: nat) {
    exists o :: o in s.topups && o != id && s.topups[o].proof == Some(proof)
  }

  predicate TxElsewhere(s: Db, id: nat, tx: Tx) {
    exists o :: o in s.topups && o != id && s.topups[o].tx == Some(tx)
  }

  function Paid(s: Db, user: nat): int { if user in s.paid then s.paid[user] else 0 }

  /** The first transaction: check the order, claim the proof, take the lease. */
  function Begin(s: Db, id: nat, user: nat, p: Payload, now: int): (Db, Result<Begun, Error>) {
    if id !in s.topups || s.topups[id].user != user then (s, Err(Unknown))
    else
      var row := s.topups[id];
      if row.status.Complete? then (s, Ok(AlreadyComplete))
      else if p.version != 2 || p.terms !in row.requirements then (s, Err(OtherTerms))
      else if p.resource != Some(row.resource) then (s, Err(OtherResource))
      else if row.proof.Some? && row.proof.value != p.proof then (s, Err(OtherProof))
      else if row.status.Open? && now - row.created > TERMS_AGE then (s, Err(TermsTooOld))
      else if (row.status.Verifying? || row.status.Settling?) && row.lease > now then (s, Err(InProgress))
      else if OfProof(p.proof) in s.claims && s.claims[OfProof(p.proof)] != id then (s, Err(ProofTaken))
      else if ProofElsewhere(s, id, p.proof) then (s, Err(Integrity))
      else
        var retry := row.status.Settling? || row.status.Pending?;
        (s.(claims := s.claims[OfProof(p.proof) := id],
            topups := s.topups[id := row.(status := if retry then Settling else Verifying, proof := Some(p.proof),
                                          lease := now + LEASE, updated := now)]),
         Ok(Started(retry)))
  }

  /** The three status writes in between do not look at the row they write. */
  function Write(s: Db, id: nat, status: Status, now: int): Db {
    if id in s.topups then s.(topups := s.topups[id := s.topups[id].(status := status, updated := now)]) else s
  }

  /** The last transaction: claim the settled transaction, complete the order, add the credits. */
  function Finish(s: Db, id: nat, user: nat, credits: nat, tx: Tx, now: int): (Db, Result<(), Error>) {
    if OfTx(tx) in s.claims && s.claims[OfTx(tx)] != id then (s, Err(TransactionTaken))
    else if id !in s.topups then (s, Err(Integrity))
    else
      var t := s.(claims := s.claims[OfTx(tx) := id]);
      var row := s.topups[id];
      if row.user != user || row.status.Complete? then (t, Ok(()))
      else if TxElsewhere(s, id, tx) then (s, Err(Integrity))
      else (t.(topups := s.topups[id := row.(status := Complete, tx := Some(tx), updated := now)],
               paid := s.paid[user := Paid(s, user) + credits]), Ok(()))
  }

  /** A new order under a fresh identifier. */
  function Create(s: Db, id: nat, user: nat, credits: nat, requirements: seq<Terms>, resource: nat, now: int): Db {
    if id in s.topups then s
    else s.(topups := s.topups[id := Topup(user, credits, requirements, resource, Open, None, now, now, now, None)])
  }

  predicate Prunable(row: Topup, now: int) { (row.status.Open? || row.status.Rejected?) && row.updated < now - WEEK }

  /** Deleting an old unpaid order deletes its claims with it. */
  ghost function Prune(s: Db, id: nat, now: int): Db {
    if id in s.topups && Prunable(s.topups[id], now)
    then s.(topups := s.topups - {id}, claims := map c | c in s.claims && s.claims[c] != id :: s.claims[c])
    else s
  }

  // ------------------------------------------------------------ the tables

  class PaymentsDb {
    var topups: map<nat, Topup>
    var claims: map<ClaimId, nat>
    var paid: map<nat, int>

    ghost function Snapshot(): Db
      reads this
    {
      Db(topups, claims, paid)
    }

    constructor ()
      ensures Snapshot() == Db(map[], map[], map[])
    {
      topups, claims, paid := map[], map[], map[];
    }

    method BeginCall(id: nat, user: nat, p: Payload, now: int) returns (r: Result<Begun, Error>)
      modifies this
      ensures (Snapshot(), r) == Begin(old(Snapshot()), id, user, p, now)
    {
      if id !in topups || topups[id].user != user { return Err(Unknown); }
      var row := topups[id];
      if row.status.Complete? { return Ok(AlreadyComplete); }
      if p.version != 2 || p.terms !in row.requirements { return Err(OtherTerms); }
      if p.resource != Some(row.resource) { return Err(OtherResource); }
      if row.proof.Some? && row.proof.value != p.proof { return Err(OtherProof); }
      if row.status.Open? && now - row.created > TERMS_AGE { return Err(TermsTooOld); }
      if (row.status.Verifying? || row.status.Settling?) && row.lease > now { return Err(InProgress); }
      var claim := if OfProof(p.proof) in claims then claims[OfProof(p.proof)] else id;
      if claim != id { return Err(ProofTaken); }
      if exists o :: o in topups && o != id && topups[o].proof == Some(p.proof) { return Err(Integrity); }
      claims := claims[OfProof(p.proof) := claim];
      var retry := row.status == Settling || row.status == Pending;
      topups := topups[id := row.(status := if retry then Settling else Verifying, proof := Some(p.proof),
                                  lease := now + LEASE, updated := now)];
      return Ok(Started(retry));
    }

    method WriteStatus(id: nat, status: Status, now: int)
      modifies this`topups
      ensures Snapshot() == Write(old(Snapshot()), id, status, now)
    {
      if id in topups {
        topups := topups[id := topups[id].(status := status, updated := now)];
      }
    }

    method FinishCall(id: nat, user: nat, credits: nat, tx: Tx, now: int) returns (r: Result<(), Error>)
      modifies this
      ensures (Snapshot(), r) == Finish(old(Snapshot()), id, user, credits, tx, now)
    {
      var claimed := if OfTx(tx) in claims then claims[OfTx(tx)] else id;
      if claimed != id { return Err(TransactionTaken); }
      if id !in topups { return Err(Integrity); }
      var row := topups[id];
      var changes := row.user == user && !row.status.Complete?;
      if changes && exists o :: o in topups && o != id && topups[o].tx == Some(tx) { return Err(Integrity); }
      claims := claims[OfTx(tx) := claimed];
      if changes {
        topups := topups[id := row.(status := Complete, tx := Some(tx), updated := now)];
        paid := paid[user := (if user in paid then paid[user] else 0) + credits];
      }
      return Ok(());
    }
  }
}
