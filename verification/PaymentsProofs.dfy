/** Any interleaving of settlement calls, with crashes and retries: an order is credited once, a payment
    proof and a settled transaction belong to one order, and a completed order never changes again. */
module PaymentsProofs {
  import opened Wrappers
  import opened Sums
  import opened Payments

  /** Between its transactions a call talks to the payment service: first to verify, then to settle. */
  datatype Stage = Checking | Paying

  datatype Call = Call(order: nat, user: nat, credits: nat, network: nat, deadline: int, stage: Stage)

  /** `granted` lists the orders whose credits were added, in the order they were. */
  datatype World = World(db: Db, calls: map<nat, Call>, granted: seq<nat>, now: int)

  datatype Event =
    | Ordered(id: nat, user: nat, credits: nat, requirements: seq<Terms>, resource: nat)
    | Began(k: nat, id: nat, user: nat, payload: Payload)
    | Verified(k: nat, valid: bool)
    | Unsure(k: nat)
    | Settled(k: nat, success: bool, tx: Tx)
    | Crashed(k: nat)
    | Pruned(id: nat)
    | Waited(time: nat)

  const OPENING := World(Db(map[], map[], map[]), map[], [], 0)

  function StatusOf(stage: Stage): Status { if stage.Checking? then Verifying else Settling }

  ghost function Perform(w: World, e: Event): World {
    match e
    case Ordered(id, user, credits, requirements, resource) =>
      if credits > 0 then w.(db := Create(w.db, id, user, credits, requirements, resource, w.now)) else w
    case Began(k, id, user, p) =>
      var (db, r) := Begin(w.db, id, user, p, w.now);
      if k in w.calls || r.Err? || r.value.AlreadyComplete? then w
      else w.(db := db, calls := w.calls[k := Call(id, user, w.db.topups[id].credits, p.terms.network, w.now + LEASE,
                                                   if r.value.retry then Paying else Checking)])
    case Verified(k, valid) =>
      if k !in w.calls || w.calls[k].stage.Paying? then w
      else if valid then
        w.(db := Write(w.db, w.calls[k].order, Settling, w.now), calls := w.calls[k := w.calls[k].(stage := Paying)])
      else w.(db := Write(w.db, w.calls[k].order, Rejected, w.now), calls := w.calls - {k})
    case Unsure(k) =>
      if k !in w.calls then w
      else w.(db := Write(w.db, w.calls[k].order, Pending, w.now), calls := w.calls - {k})
    case Settled(k, success, tx) =>
      if k !in w.calls || w.calls[k].stage.Checking? then w
      else if !success || tx.network != w.calls[k].network then
        w.(db := Write(w.db, w.calls[k].order, Pending, w.now), calls := w.calls - {k})
      else
        var c := w.calls[k];
        var (db, r) := Finish(w.db, c.order, c.user, c.credits, tx, w.now);
        w.(db := db, calls := w.calls - {k},
           granted := if Grants(w.db, c, tx) then w.granted + [c.order] else w.granted)
    case Crashed(k) => w.(calls := w.calls - {k})
    case Pruned(id) => w.(db := Prune(w.db, id, w.now))
    case Waited(time) => w.(now := w.now + time)
  }

  /** The update of the order changed a row, so the credits were added. */
  predicate Grants(s: Db, c: Call, tx: Tx) {
    Finish(s, c.order, c.user, c.credits, tx, 0).1.Ok? && c.order in s.topups &&
    s.topups[c.order].user == c.user && !s.topups[c.order].status.Complete?
  }

  ghost function Run(w: World, es: seq<Event>): World
    decreases |es|
  {
    if es == [] then w else Perform(Run(w, es[..|es| - 1]), es[|es| - 1])
  }

  /** The call that an event writes for. */
  function Writer(e: Event): Option<nat> {
    match e
    case Verified(k, _) => Some(k)
    case Unsure(k) => Some(k)
    case Settled(k, _, _) => Some(k)
    case _ => None
  }

  /** The assumption of the design: a call is over before its lease is. */
  predicate InTime(w: World, e: Event) {
    var k := Writer(e); k.Some? && k.value in w.calls ==> w.now < w.calls[k.value].deadline
  }

  /** What it is needed for: no other call has taken the order over since. */
  predicate Unclaimed(w: World, e: Event) {
    var k := Writer(e); k.Some? && k.value in w.calls ==> Holds(w.db.topups, w.calls[k.value])
  }

  predicate IsComplete(topups: map<nat, Topup>, o: nat) { o in topups && topups[o].status.Complete? }

  predicate Holds(topups: map<nat, Topup>, c: Call) {
    c.order in topups && topups[c.order].lease == c.deadline && topups[c.order].status == StatusOf(c.stage)
  }

  ghost predicate Timely(es: seq<Event>) {
    forall i :: 0 <= i < |es| ==> InTime(Run(OPENING, es[..i]), es[i])
  }

  // ------------------------------------------------------------ one call, from its start to its end

  /** What the service says, or nothing when the request to it failed. */
  function Verdict(k: nat, valid: Option<bool>): Event { if valid.Some? then Verified(k, valid.value) else Unsure(k) }

  function Reply(k: nat, settled: Option<(bool, Tx)>): Event {
    if settled.Some? then Settled(k, settled.value.0, settled.value.1) else Unsure(k)
  }

  /** The seconds that the service took to verify, and then to settle. */
  datatype Delays = Delays(verify: nat, settle: nat)

  /** The events of one call that runs to its end; after the call is over they change nothing. */
  ghost function CallRun(w: World, k: nat, id: nat, user: nat, p: Payload, d: Delays, valid: Option<bool>,
                         settled: Option<(bool, Tx)>): World {
    var begun := Perform(w, Began(k, id, user, p));
    var checked := if k in begun.calls && begun.calls[k].stage.Checking?
                   then Perform(Perform(begun, Waited(d.verify)), Verdict(k, valid)) else begun;
    Perform(Perform(checked, Waited(d.settle)), Reply(k, settled))
  }

  datatype Outcome = Refused(error: Error) | Confirmed | Declined | Waiting

  /** The same call on the tables alone. */
  function Alone(s: Db, id: nat, user: nat, p: Payload, now: int, d: Delays, valid: Option<bool>,
                 settled: Option<(bool, Tx)>): (Db, Outcome)
  {
    var (t, b) := Begin(s, id, user, p, now);
    if b.Err? then (t, Refused(b.error))
    else if b.value.AlreadyComplete? then (t, Confirmed)
    else
      var checked := if b.value.retry then now else now + d.verify;
      if !b.value.retry && valid.None? then (Write(t, id, Pending, checked), Waiting)
      else if !b.value.retry && !valid.value then (Write(t, id, Rejected, checked), Declined)
      else
        var u := if b.value.retry then t else Write(t, id, Settling, checked);
        if settled.None? || !settled.value.0 || settled.value.1.network != p.terms.network
        then (Write(u, id, Pending, checked + d.settle), Waiting)
        else
          var (v, f) := Finish(u, id, user, t.topups[id].credits, settled.value.1, checked + d.settle);
          (v, if f.Err? then Refused(f.error) else Confirmed)
  }

  /** A call that retries skips verification. */
  lemma RetryIsARun(w: World, k: nat, id: nat, user: nat, p: Payload, d: Delays, valid: Option<bool>,
                    settled: Option<(bool, Tx)>)
    requires k !in w.calls && Begin(w.db, id, user, p, w.now).1 == Ok(Started(true))
    ensures CallRun(w, k, id, user, p, d, valid, settled).db == Alone(w.db, id, user, p, w.now, d, valid, settled).0
  {
    var t := Begin(w.db, id, user, p, w.now).0;
    assert t.topups[id].credits == w.db.topups[id].credits;
  }

  lemma FreshIsARun(w: World, k: nat, id: nat, user: nat, p: Payload, d: Delays, valid: Option<bool>,
                    settled: Option<(bool, Tx)>)
    requires k !in w.calls && Begin(w.db, id, user, p, w.now).1 == Ok(Started(false))
    ensures CallRun(w, k, id, user, p, d, valid, settled).db == Alone(w.db, id, user, p, w.now, d, valid, settled).0
  {
    var t := Begin(w.db, id, user, p, w.now).0;
    assert t.topups[id].credits == w.db.topups[id].credits;
    var begun := Perform(w, Began(k, id, user, p));
    var checked := Perform(Perform(begun, Waited(d.verify)), Verdict(k, valid));
    assert begun.calls[k] == Call(id, user, w.db.topups[id].credits, p.terms.network, w.now + LEASE, Checking);
    assert valid == Some(true) || k !in checked.calls;
  }

  lemma AloneIsARun(w: World, k: nat, id: nat, user: nat, p: Payload, d: Delays, valid: Option<bool>,
                    settled: Option<(bool, Tx)>)
    requires k !in w.calls
    ensures CallRun(w, k, id, user, p, d, valid, settled).db == Alone(w.db, id, user, p, w.now, d, valid, settled).0
  {
    var b := Begin(w.db, id, user, p, w.now).1;
    if b == Ok(Started(true)) {
      RetryIsARun(w, k, id, user, p, d, valid, settled);
    } else if b == Ok(Started(false)) {
      FreshIsARun(w, k, id, user, p, d, valid, settled);
    }
  }

  method Settle(db: PaymentsDb, id: nat, user: nat, p: Payload, now: int, d: Delays, valid: Option<bool>,
                settled: Option<(bool, Tx)>) returns (r: Outcome)
    modifies db
    ensures (db.Snapshot(), r) == Alone(old(db.Snapshot()), id, user, p, now, d, valid, settled)
  {
    var time := now;
    var b := db.BeginCall(id, user, p, time);
    if b.Err? { return Refused(b.error); }
    if b.value.AlreadyComplete? { return Confirmed; }
    var credits := db.topups[id].credits;
    if !b.value.retry {
      time := time + d.verify;
      if valid == None {
        db.WriteStatus(id, Pending, time);
        return Waiting;
      }
      if !valid.value {
        db.WriteStatus(id, Rejected, time);
        return Declined;
      }
      db.WriteStatus(id, Settling, time);
    }
    time := time + d.settle;
    if settled == None || !settled.value.0 || settled.value.1.network != p.terms.network {
      db.WriteStatus(id, Pending, time);
      return Waiting;
    }
    var f := db.FinishCall(id, user, credits, settled.value.1, time);
    if f.Err? { return Refused(f.error); }
    return Confirmed;
  }

  // ------------------------------------------------------------ what every run keeps

  function Earned(user: nat): Topup -> int {
    (row: Topup) => if row.user == user && row.status.Complete? then row.credits else 0
  }

  ghost predicate Books(topups: map<nat, Topup>, paid: map<nat, int>) {
    forall u: nat :: (if u in paid then paid[u] else 0) == Sum(topups, Earned(u))
  }

  predicate Proofs(topups: map<nat, Topup>, claims: map<ClaimId, nat>) {
    forall o :: o in topups && topups[o].proof.Some? ==>
      OfProof(topups[o].proof.value) in claims && claims[OfProof(topups[o].proof.value)] == o
  }

  predicate Txs(topups: map<nat, Topup>, claims: map<ClaimId, nat>) {
    forall o :: o in topups && topups[o].tx.Some? ==>
      OfTx(topups[o].tx.value) in claims && claims[OfTx(topups[o].tx.value)] == o
  }

  predicate RowOk(row: Topup, now: int) {
    (row.tx.Some? <==> row.status.Complete?) && row.lease <= row.updated + LEASE && row.updated <= now &&
        row.credits > 0
  }

  predicate Rows(topups: map<nat, Topup>, now: int) { forall o :: o in topups ==> RowOk(topups[o], now) }

  predicate CallOk(topups: map<nat, Topup>, c: Call, now: int) {
    (if c.order in topups then c.deadline <= topups[c.order].lease else c.deadline < now) &&
    (c.order in topups && c.deadline == topups[c.order].lease ==>
      Holds(topups, c) && topups[c.order].user == c.user && topups[c.order].credits == c.credits) &&
    (now < c.deadline ==> Holds(topups, c))
  }

  predicate Calls(topups: map<nat, Topup>, calls: map<nat, Call>, now: int) {
    (forall k :: k in calls ==> CallOk(topups, calls[k], now)) &&
    (forall j, k :: j in calls && k in calls && j != k && calls[j].order == calls[k].order ==>
      calls[j].deadline != calls[k].deadline)
  }

  ghost predicate Granted(topups: map<nat, Topup>, granted: seq<nat>) {
    (forall o :: o in granted <==> o in topups && topups[o].status.Complete?) &&
    (forall i, j :: 0 <= i < j < |granted| ==> granted[i] != granted[j])
  }

  ghost predicate Inv(w: World) {
    Books(w.db.topups, w.db.paid) && Proofs(w.db.topups, w.db.claims) && Txs(w.db.topups, w.db.claims) &&
    Rows(w.db.topups, w.now) && Calls(w.db.topups, w.calls, w.now) && Granted(w.db.topups, w.granted)
  }

  /** With every proof and transaction claimed, the unique indexes are never hit. */
  lemma IndexesUnused(w: World, id: nat, proof: nat, tx: Tx)
    requires Inv(w)
    requires OfProof(proof) in w.db.claims ==> w.db.claims[OfProof(proof)] == id
    requires OfTx(tx) in w.db.claims ==> w.db.claims[OfTx(tx)] == id
    ensures !ProofElsewhere(w.db, id, proof) && !TxElsewhere(w.db, id, tx)
  {
  }

  lemma Rewrite(topups: map<nat, Topup>, paid: map<nat, int>, id: nat, row: Topup)
    requires Books(topups, paid) && (id in topups ==> topups[id].user == row.user && !topups[id].status.Complete?)
    ensures var u := row.user;
            Books(topups[id := row],
                  if row.status.Complete? then paid[u := (if u in paid then paid[u] else 0) + row.credits] else paid)
  {
    forall u: nat
      ensures Sum(topups[id := row], Earned(u)) == Sum(topups, Earned(u)) + Earned(u)(row)
    {
      SumPut(topups, Earned(u), id, row);
    }
  }

  lemma Deleted(topups: map<nat, Topup>, paid: map<nat, int>, id: nat)
    requires Books(topups, paid) && id in topups && !topups[id].status.Complete?
    ensures Books(topups - {id}, paid)
  {
    forall u: nat
      ensures Sum(topups - {id}, Earned(u)) == Sum(topups, Earned(u))
    {
      SumRemove(topups, Earned(u), id);
    }
  }

  /** The row and the call that a begin writes. */
  ghost predicate Begins(w: World, v: World, e: Event, row: Topup, c: Call) {
    e.Began? && e.id in w.db.topups &&
    var was := w.db.topups[e.id];
    var proof := e.payload.proof;
    !was.status.Complete? && !((was.status.Verifying? || was.status.Settling?) && was.lease > w.now) &&
    (was.proof.Some? ==> was.proof == Some(proof)) &&
    (OfProof(proof) in w.db.claims ==> w.db.claims[OfProof(proof)] == e.id) && e.k !in w.calls &&
    row == was.(status := StatusOf(c.stage), proof := Some(proof), lease := w.now + LEASE, updated := w.now) &&
    c == Call(e.id, was.user, was.credits, e.payload.terms.network, w.now + LEASE, c.stage) &&
    v == w.(db := w.db.(topups := w.db.topups[e.id := row], claims := w.db.claims[OfProof(proof) := e.id]),
            calls := w.calls[e.k := c])
  }

  /** A begin changes nothing, or writes its row and its call. */
  lemma BeganCases(w: World, e: Event) returns (row: Topup, c: Call)
    requires e.Began?
    ensures Perform(w, e) == w || Begins(w, Perform(w, e), e, row, c)
  {
    var v := Perform(w, e);
    row, c := Topup(0, 0, [], 0, Open, None, 0, 0, 0, None), Call(0, 0, 0, 0, 0, Checking);
    var r := Begin(w.db, e.id, e.user, e.payload, w.now).1;
    if e.k !in w.calls && r.Ok? && r.value.Started? {
      row, c := v.db.topups[e.id], v.calls[e.k];
    }
  }

  lemma BeganCalls(w: World, e: Event, row: Topup, c: Call)
    requires Rows(w.db.topups, w.now) && Calls(w.db.topups, w.calls, w.now) && Begins(w, Perform(w, e), e, row, c)
    ensures Calls(w.db.topups[e.id := row], w.calls[e.k := c], w.now)
  {
    forall k | k in w.calls && w.calls[k].order == e.id
      ensures w.calls[k].deadline < w.now + LEASE && w.calls[k].deadline <= w.now
    {
      assert CallOk(w.db.topups, w.calls[k], w.now) && RowOk(w.db.topups[e.id], w.now);
    }
  }

  lemma BeganInv(w: World, e: Event)
    requires Inv(w) && e.Began?
    ensures Inv(Perform(w, e))
  {
    var row, c := BeganCases(w, e);
    if Perform(w, e) != w {
      Rewrite(w.db.topups, w.db.paid, e.id, row);
      BeganCalls(w, e, row, c);
      assert RowOk(w.db.topups[e.id], w.now);
    }
  }

  /** A status write of the call that holds the order. */
  lemma WriteInv(w: World, k: nat, status: Status, stays: bool)
    requires Inv(w) && k in w.calls && Holds(w.db.topups, w.calls[k])
    requires if stays then w.calls[k].stage.Checking? && status.Settling? else status.Rejected? || status.Pending?
    ensures Inv(w.(db := Write(w.db, w.calls[k].order, status, w.now),
                   calls := if stays then w.calls[k := w.calls[k].(stage := Paying)] else w.calls - {k}))
  {
    var c := w.calls[k];
    Rewrite(w.db.topups, w.db.paid, c.order, w.db.topups[c.order].(status := status, updated := w.now));
    OthersBehind(w, k);
  }

  /** Every other call on the order began before this one, and is past its lease. */
  lemma OthersBehind(w: World, k: nat)
    requires Rows(w.db.topups, w.now) && Calls(w.db.topups, w.calls, w.now) && k in w.calls &&
             Holds(w.db.topups, w.calls[k])
    ensures forall j :: j in w.calls && j != k && w.calls[j].order == w.calls[k].order ==>
              w.calls[j].deadline < w.db.topups[w.calls[k].order].lease && w.calls[j].deadline <= w.now
  {
    forall j | j in w.calls && j != k && w.calls[j].order == w.calls[k].order
      ensures w.calls[j].deadline < w.db.topups[w.calls[k].order].lease && w.calls[j].deadline <= w.now
    {
      assert CallOk(w.db.topups, w.calls[j], w.now);
    }
  }

  function Completed(row: Topup, tx: Tx, now: int): Topup { row.(status := Complete, tx := Some(tx), updated := now) }

  lemma GrantCalls(w: World, k: nat, tx: Tx)
    requires Rows(w.db.topups, w.now) && Calls(w.db.topups, w.calls, w.now) && k in w.calls &&
             Holds(w.db.topups, w.calls[k])
    ensures var o := w.calls[k].order;
            Calls(w.db.topups[o := Completed(w.db.topups[o], tx, w.now)], w.calls - {k}, w.now)
  {
    OthersBehind(w, k);
  }

  lemma GrantClaims(w: World, o: nat, tx: Tx)
    requires Proofs(w.db.topups, w.db.claims) && Txs(w.db.topups, w.db.claims) && o in w.db.topups
    requires OfTx(tx) in w.db.claims ==> w.db.claims[OfTx(tx)] == o
    ensures var topups, claims := w.db.topups[o := Completed(w.db.topups[o], tx, w.now)], w.db.claims[OfTx(tx) := o];
            Proofs(topups, claims) && Txs(topups, claims)
  {
  }

  lemma GrantedAppend(topups: map<nat, Topup>, granted: seq<nat>, o: nat, tx: Tx, now: int)
    requires o in topups && !topups[o].status.Complete? && Granted(topups, granted)
    ensures Granted(topups[o := Completed(topups[o], tx, now)], granted + [o])
  {
    var more := granted + [o];
    assert forall p :: p in more <==> p in granted || p == o;
  }

  /** The world in which a call has completed its order. */
  ghost function GrantedWorld(w: World, k: nat, tx: Tx): World
    requires k in w.calls && w.calls[k].order in w.db.topups
  {
    var c := w.calls[k];
    World(Db(w.db.topups[c.order := Completed(w.db.topups[c.order], tx, w.now)], w.db.claims[OfTx(tx) := c.order],
             w.db.paid[c.user := Paid(w.db, c.user) + c.credits]),
          w.calls - {k}, w.granted + [c.order], w.now)
  }

  /** A settled payment completes the order and grants its credits, or at most claims its transaction. */
  lemma SettledCases(w: World, k: nat, tx: Tx)
    requires k in w.calls && w.calls[k].stage.Paying? && tx.network == w.calls[k].network
    ensures var c, v := w.calls[k], Perform(w, Settled(k, true, tx));
            if Grants(w.db, c, tx) then
              (OfTx(tx) in w.db.claims ==> w.db.claims[OfTx(tx)] == c.order) && v == GrantedWorld(w, k, tx)
            else v == w.(db := w.db.(claims := v.db.claims), calls := w.calls - {k}) &&
                 (v.db.claims == w.db.claims || IsComplete(w.db.topups, c.order) ||
                  (c.order in w.db.topups && w.db.topups[c.order].user != c.user))
  {
  }

  lemma GrantInv(w: World, k: nat, tx: Tx)
    requires Inv(w) && k in w.calls && Holds(w.db.topups, w.calls[k])
    requires OfTx(tx) in w.db.claims ==> w.db.claims[OfTx(tx)] == w.calls[k].order
    ensures Inv(GrantedWorld(w, k, tx))
  {
    var c := w.calls[k];
    assert CallOk(w.db.topups, c, w.now);
    var row := w.db.topups[c.order];
    assert row.user == c.user && row.credits == c.credits && RowOk(row, w.now);
    Rewrite(w.db.topups, w.db.paid, c.order, Completed(row, tx, w.now));
    GrantCalls(w, k, tx);
    GrantClaims(w, c.order, tx);
    GrantedAppend(w.db.topups, w.granted, c.order, tx, w.now);
  }

  lemma FinishInv(w: World, k: nat, tx: Tx)
    requires Inv(w) && k in w.calls && Holds(w.db.topups, w.calls[k]) && w.calls[k].stage.Paying?
    requires tx.network == w.calls[k].network
    ensures Inv(Perform(w, Settled(k, true, tx)))
  {
    SettledCases(w, k, tx);
    if Grants(w.db, w.calls[k], tx) {
      GrantInv(w, k, tx);
    } else {
      assert CallOk(w.db.topups, w.calls[k], w.now);
    }
  }

  lemma PrunedInv(w: World, id: nat)
    requires Inv(w)
    ensures Inv(Perform(w, Pruned(id)))
  {
    if id in w.db.topups && Prunable(w.db.topups[id], w.now) {
      Deleted(w.db.topups, w.db.paid, id);
      assert RowOk(w.db.topups[id], w.now);
    }
  }

  lemma PerformInv(w: World, e: Event)
    requires Inv(w) && Unclaimed(w, e)
    ensures Inv(Perform(w, e))
  {
    match e
    case Ordered(id, user, credits, requirements, resource) =>
      if credits > 0 && id !in w.db.topups {
        Rewrite(w.db.topups, w.db.paid, id, Perform(w, e).db.topups[id]);
      }
    case Began(_, _, _, _) => BeganInv(w, e);
    case Verified(k, valid) =>
      if k in w.calls && w.calls[k].stage.Checking? {
        WriteInv(w, k, if valid then Settling else Rejected, valid);
      }
    case Unsure(k) => if k in w.calls { WriteInv(w, k, Pending, false); }
    case Settled(k, success, tx) =>
      if k in w.calls && w.calls[k].stage.Paying? {
        if !success || tx.network != w.calls[k].network {
          WriteInv(w, k, Pending, false);
        } else {
          FinishInv(w, k, tx);
        }
      }
    case Crashed(k) =>
    case Pruned(id) => PrunedInv(w, id);
    case Waited(_) =>
  }

  /** A call still within its lease holds its order. */
  lemma InTimeHolds(w: World, e: Event)
    requires Inv(w) && InTime(w, e)
    ensures Unclaimed(w, e)
  {
  }

  predicate Done(w: World, o: nat, row: Topup) { row.status.Complete? && o in w.db.topups && w.db.topups[o] == row }

  /** A completed order is never written again, whatever happens to the others. */
  lemma CompleteStays(w: World, e: Event, o: nat, row: Topup)
    requires Inv(w) && Unclaimed(w, e) && Done(w, o, row)
    ensures Done(Perform(w, e), o, row)
  {
    if e.Settled? && e.k in w.calls {
      assert w.calls[e.k].order != o;
    } else if e.Verified? && e.k in w.calls {
      assert w.calls[e.k].order != o;
    }
  }

  lemma {:induction false} RunInv(es: seq<Event>, i: nat)
    requires Timely(es) && i <= |es|
    ensures Inv(Run(OPENING, es[..i]))
    decreases i
  {
    if i > 0 {
      RunInv(es, i - 1);
      var w := Run(OPENING, es[..i - 1]);
      assert es[..i][..i - 1] == es[..i - 1];
      InTimeHolds(w, es[i - 1]);
      PerformInv(w, es[i - 1]);
    }
  }

  /** Any interleaving, crash and retry of calls that end within their lease. */
  lemma EveryRun(es: seq<Event>)
    requires Timely(es)
    ensures var w := Run(OPENING, es);
            (forall u: nat :: Paid(w.db, u) == Sum(w.db.topups, Earned(u))) &&
            (forall i, j :: 0 <= i < j < |w.granted| ==> w.granted[i] != w.granted[j]) &&
            (forall o :: o in w.granted <==> o in w.db.topups && w.db.topups[o].status.Complete?) &&
            (forall o, p :: o in w.db.topups && p in w.db.topups && o != p && w.db.topups[o].proof.Some? ==>
              w.db.topups[o].proof != w.db.topups[p].proof) &&
            (forall o, p :: o in w.db.topups && p in w.db.topups && o != p && w.db.topups[o].status.Complete? ==>
              w.db.topups[o].tx.Some? && w.db.topups[o].tx != w.db.topups[p].tx)
  {
    RunInv(es, |es|);
    assert es[..|es|] == es;
  }

  /** Once complete, an order keeps every field for the rest of the run. */
  lemma {:induction false} CompleteIsFinal(es: seq<Event>, i: nat, j: nat, o: nat, row: Topup)
    requires Timely(es) && i <= j <= |es| && Done(Run(OPENING, es[..i]), o, row)
    ensures Done(Run(OPENING, es[..j]), o, row)
    decreases j
  {
    if i < j {
      CompleteIsFinal(es, i, j - 1, o, row);
      RunInv(es, j - 1);
      var w := Run(OPENING, es[..j - 1]);
      assert es[..j][..j - 1] == es[..j - 1];
      InTimeHolds(w, es[j - 1]);
      CompleteStays(w, es[j - 1], o, row);
    }
  }
}
