/** The race between recovery and the chain: any number of leased workers, each reading the chain at
    its own pace, against a chain in which a signed transaction may land while the height is within
    its limit. */
module LiveProofs {
  import opened Wrappers
  import opened Sums
  import opened Ledger
  import opened LedgerProofs
  import opened LedgerOutcomes
  import opened Live

  // ------------------------------------------------- when "expired" is safe

  predicate LandedBy(landing: Option<Receipt>, view: int) { landing.Some? && landing.value.height <= view }

  /** What a node at the given views answers about a transaction that lands (or never lands) like this. */
  function Answers(landing: Option<Receipt>, slot: int, height: int, context: int, last: int): Replies {
    Replies(slot, height, context, LandedBy(landing, context), if LandedBy(landing, last) then landing else None)
  }

  ghost predicate ExpirySafe(slot: int, height: int, context: int, last: int) {
    forall landing: Option<Receipt>, lastValid: int ::
      (landing.Some? ==> landing.value.height <= lastValid)
      && Decide(lastValid, Answers(landing, slot, height, context, last)).Expire?
      ==> landing == None
  }

  /** The code only compares the status reply's slot with the slot it read first. "Expired" is right for
      every transaction exactly when a read made after the height reply is not older than it by more
      than the block that ends it. */
  lemma ExpirySafeExactly(slot: int, height: int, context: int, last: int)
    requires context >= slot
    ensures ExpirySafe(slot, height, context, last) <==> height <= context + 1 || height <= last + 1
  {
    if context + 1 < height && last + 1 < height {
      var h := if context < last then last + 1 else context + 1;
      var landing := Some(Receipt(h, false, 0, true, 0, 0, 0, true));
      assert Decide(h, Answers(landing, slot, height, context, last)).Expire?;
      assert !ExpirySafe(slot, height, context, last);
    }
  }

  // ------------------------------------------------------------- the world

  /** landed holds every transaction in a block so far; tip is the height of the last block. */
  datatype Chain = Chain(tip: int, landed: map<OrderId, Receipt>)

  /** A worker between fetching an order's row and writing its result. A recovering worker has read
      some of its four replies; a dropping one gives up a queued order. */
  datatype Call = Recovering(id: OrderId, row: Order, views: seq<int>, heard: bool)
                | Dropping(id: OrderId, row: Order)

  datatype World = World(db: Db, chain: Chain, calls: map<nat, Call>, tokens: set<nat>)

  datatype Event = Worker(step: Step)                                   // a ledger transaction of an idle worker
                 | Begin(token: nat, id: OrderId, recovering: bool)     // fetch a row under the lease
                 | Read(token: nat, view: int, heard: bool)             // one RPC reply
                 | Finish(token: nat, at: int)                          // act on the replies
                 | Crash(token: nat)
                 | Block(added: map<OrderId, Receipt>)                  // the chain grows

  function RepliesOf(c: Chain, call: Call): Replies
    requires call.Recovering? && |call.views| == 4
  {
    var landing := if call.id in c.landed then Some(c.landed[call.id]) else None;
    var r := Answers(landing, call.views[0], call.views[1], call.views[2], call.views[3]);
    r.(seen := r.seen || call.heard)
  }

  predicate TokenOf(step: Step, token: nat) {
    match step
    case Acquiring(t, _) => t == token
    case Releasing(t) => t == token
    case Reserving(t, _, _, _) => t == token
    case Exiting(t, _, _, _, _) => t == token
    case Failing(t, _, _, _, _) => t == token
    case Filling(t, _, _, _, _, _, _) => t == token
    case Preparing(t, _, _, _) => t == token
    case Marking(t, _, _, _) => t == token
    case Pausing(_) => false
  }

  predicate Signed(s: Db, id: OrderId) { id in s.orders && s.orders[id].saved.Some? }

  /** A transaction lands once, in the new block, if it was signed and has not expired. */
  ghost predicate MayLand(w: World, id: OrderId, r: Receipt) {
    && Signed(w.db, id) && id !in w.chain.landed
    && r.height == w.chain.tip + 1 <= w.db.orders[id].saved.value.lastValid
    && r.buy == w.db.orders[id].side.BuySide? && r.mint == w.db.orders[id].mint
  }

  ghost predicate Enabled(w: World, e: Event) {
    match e
    case Worker(step) =>
      // A worker is sequential, a lease token is new each time, and live orders settle only in Finish.
      && (forall t :: t in w.calls ==> !TokenOf(step, t))
      && (step.Acquiring? ==> step.token !in w.tokens)
      && !step.Failing? && !step.Filling? && !step.Marking? && Called(w.db, step)
    case Begin(token, id, recovering) =>
      && token !in w.calls && token in w.tokens && id in w.db.orders
      && Active(w.db.orders[id]) && (recovering <==> !w.db.orders[id].status.Queued?)
    case Read(token, view, _) =>
      && token in w.calls && w.calls[token].Recovering? && |w.calls[token].views| < 4
      && view <= w.chain.tip
      && (forall i :: 0 <= i < |w.calls[token].views| ==> w.calls[token].views[i] <= view)
    case Finish(token, _) =>
      token in w.calls && (w.calls[token].Recovering? ==> |w.calls[token].views| == 4)
    case Crash(token) => true
    case Block(added) => forall id :: id in added ==> MayLand(w, id, added[id])
  }

  ghost function Finished(p: Policy, w: World, token: nat, at: int): (Db, Reply)
    requires Enabled(w, Finish(token, at))
  {
    var call := w.calls[token];
    if call.Recovering? then Recover(p, w.db, token, call.id, call.row, RepliesOf(w.chain, call), at)
    else FailOrder(w.db, token, call.id, 0, 0, at)
  }

  ghost function Next(p: Policy, w: World, e: Event): World
    requires Enabled(w, e)
  {
    match e
    case Worker(step) =>
      w.(db := Apply(p, w.db, step), tokens := if step.Acquiring? then w.tokens + {step.token} else w.tokens)
    case Begin(token, id, recovering) =>
      var row := w.db.orders[id];
      w.(calls := w.calls[token := if recovering then Recovering(id, row, [], false) else Dropping(id, row)])
    case Read(token, view, heard) =>
      var c := w.calls[token];
      w.(calls := w.calls[token := c.(views := c.views + [view], heard := c.heard || heard)])
    case Finish(token, at) => w.(db := Finished(p, w, token, at).0, calls := w.calls - {token})
    case Crash(token) => w.(calls := w.calls - {token})
    case Block(added) => w.(chain := Chain(w.chain.tip + 1, w.chain.landed + added))
  }

  // -------------------------------------------------------------- invariant

  /** Exactly the queued orders are unsigned, among the active ones. */
  ghost predicate SigningOk(s: Db) {
    forall id :: id in s.orders && Active(s.orders[id]) ==>
        (s.orders[id].status.Queued? <==> s.orders[id].saved == None)
  }

  ghost predicate LandedOk(s: Db, c: Chain) {
    forall id :: id in c.landed ==>
      && Signed(s, id) && c.landed[id].height <= c.tip && c.landed[id].height <= s.orders[id].saved.value.lastValid
      && c.landed[id].buy == s.orders[id].side.BuySide? && c.landed[id].mint == s.orders[id].mint
  }

  function CashMoved(r: Receipt): int { if r.err then 0 else if r.buy then -r.debit else r.credit }
  function SolMoved(r: Receipt): int { -r.fee }
  function TokensMoved(r: Receipt): int { if r.err then 0 else if r.buy then r.credit else -r.debit }
  function TokenMovedOf(mint: nat): Receipt -> int { (r: Receipt) => if r.mint == mint then TokensMoved(r) else 0 }

  /** The entry books what the receipt did to the wallet. */
  ghost predicate Books(p: Policy, e: Entry, r: Receipt) {
    && FeeInScope(p, r.fee) && e.sol == SolMoved(r) && e.cash == CashMoved(r)
    && (if r.err then e.mint == None else e.mint == Some(r.mint) && e.quantity == TokensMoved(r))
  }

  /** Why an order is resolved: a fill needs its exact success receipt; a failure needs a failed
      receipt, or a transaction that was never signed, or one that has not landed and never can. */
  ghost predicate Evidence(p: Policy, id: OrderId, o: Order, e: Entry, c: Chain) {
    if o.status.Filled? then id in c.landed && !c.landed[id].err && Exact(o, c.landed[id]) && Books(p, e, c.landed[id])
    else if id in c.landed then c.landed[id].err && Books(p, e, c.landed[id])
    else (o.saved.Some? ==> c.tip >= o.saved.value.lastValid) && e.cash == 0 && e.sol == 0 && e.mint == None
  }

  ghost predicate EvidenceOk(p: Policy, s: Db, c: Chain) {
    forall id :: id in s.orders && Resolved(s.orders[id]) ==>
      Settled(id) in s.entries && Evidence(p, id, s.orders[id], s.entries[Settled(id)], c)
  }

  ghost predicate Nondecreasing(v: seq<int>, tip: int) {
    (forall i, j :: 0 <= i < j < |v| ==> v[i] <= v[j]) && (forall i :: 0 <= i < |v| ==> v[i] <= tip)
  }

  ghost predicate CallOk(w: World, token: nat, call: Call) {
    && token in w.tokens
    && Active(call.row)
    && (call.Recovering? ==> call.row.saved.Some? && !call.row.status.Queued? && Nondecreasing(call.views, w.chain.tip))
    && (call.Dropping? ==> call.row.status.Queued? && call.row.saved == None)
    && call.id in w.db.orders
    && w.db.orders[call.id].input == call.row.input && w.db.orders[call.id].side == call.row.side
    && w.db.orders[call.id].mint == call.row.mint
    && (call.Recovering? ==> w.db.orders[call.id].saved == call.row.saved)
    && (w.db.leaseToken == Some(token) ==> w.db.orders[call.id] == call.row)
  }

  ghost predicate CallsOk(w: World) {
    && (w.db.leaseToken.Some? ==> w.db.leaseToken.value in w.tokens)
    && (forall t :: t in w.calls ==> CallOk(w, t, w.calls[t]))
  }

  ghost predicate WorldInv(p: Policy, w: World) {
    Inv(p, w.db) && SigningOk(w.db) && LandedOk(w.db, w.chain) && EvidenceOk(p, w.db, w.chain) && CallsOk(w)
  }

  // ------------------------------------------------------------ transitions

  ghost predicate SameOrSigned(o: Order, n: Order) {
    n == o || (o.status.Queued? && n == o.(status := Prepared, saved := n.saved) && n.saved.Some?)
  }

  /** Nothing but new queued orders and fresh signatures on queued orders. */
  ghost predicate OnlySigns(s: Db, t: Db) {
    && t.entries == s.entries
    && (forall id :: id in s.orders ==> id in t.orders && SameOrSigned(s.orders[id], t.orders[id]))
    && (forall id :: id in t.orders && id !in s.orders ==> t.orders[id].status.Queued? && t.orders[id].saved == None)
  }

  /** What an idle worker's transaction can do; without the lease it can do nothing to the orders. */
  lemma StepFrame(p: Policy, s: Db, step: Step)
    requires !step.Failing? && !step.Filling? && !step.Marking?
    ensures OnlySigns(s, Apply(p, s, step))
    ensures LeaseKept(s, Apply(p, s, step), step)
  {
    match step
    case Acquiring(token, at) =>
    case Releasing(token) =>
    case Reserving(token, signal, mint, at) => ReserveFrame(p, s, token, signal, mint, at);
    case Exiting(token, random, q, mint, at) => ExitFrame(p, s, token, random, q, mint, at);
    case Preparing(token, id, saved, at) => PrepareFrame(p, s, token, id, saved, at);
    case Pausing(_) =>
  }

  ghost predicate LeaseKept(s: Db, t: Db, step: Step) {
    (forall k :: t.leaseToken == Some(k) && !TokenOf(step, k) ==> s.leaseToken == Some(k) && t.orders == s.orders) &&
    (t.leaseToken in {s.leaseToken, None} || step.Acquiring?) &&
    (step.Acquiring? ==> t.leaseToken in {s.leaseToken, Some(step.token)})
  }

  lemma ReserveFrame(p: Policy, s: Db, token: nat, signal: nat, mint: nat, at: int)
    ensures var t := Apply(p, s, Reserving(token, signal, mint, at));
            OnlySigns(s, t) && LeaseKept(s, t, Reserving(token, signal, mint, at))
  {
  }

  lemma ExitFrame(p: Policy, s: Db, token: nat, random: nat, q: OrderId, mint: nat, at: int)
    ensures var t := Apply(p, s, Exiting(token, random, q, mint, at));
            OnlySigns(s, t) && LeaseKept(s, t, Exiting(token, random, q, mint, at))
  {
  }

  lemma PrepareFrame(p: Policy, s: Db, token: nat, id: OrderId, saved: Saved, at: int)
    ensures var t := Apply(p, s, Preparing(token, id, saved, at));
            OnlySigns(s, t) && LeaseKept(s, t, Preparing(token, id, saved, at))
  {
  }

  lemma SigningKeeps(p: Policy, s: Db, t: Db, c: Chain)
    requires SigningOk(s) && LandedOk(s, c) && EvidenceOk(p, s, c) && OnlySigns(s, t)
    ensures SigningOk(t) && LandedOk(t, c) && EvidenceOk(p, t, c)
  {
    forall id | id in c.landed
      ensures Signed(t, id) && SameOrSigned(s.orders[id], t.orders[id]) && s.orders[id].saved == t.orders[id].saved
    {
      assert Signed(s, id);
    }
    forall id | id in t.orders && Resolved(t.orders[id])
      ensures Settled(id) in t.entries && Evidence(p, id, t.orders[id], t.entries[Settled(id)], c)
    {
      assert SameOrSigned(s.orders[id], t.orders[id]);
    }
  }

  lemma WorkerCalls(p: Policy, w: World, step: Step)
    requires CallsOk(w) && SigningOk(w.db) && Enabled(w, Worker(step))
    ensures CallsOk(Next(p, w, Worker(step)))
  {
    StepFrame(p, w.db, step);
    var v := Next(p, w, Worker(step));
    forall t | t in v.calls ensures CallOk(v, t, v.calls[t]) {
      assert CallOk(w, t, w.calls[t]);
      assert SameOrSigned(w.db.orders[w.calls[t].id], v.db.orders[w.calls[t].id]);
    }
  }

  lemma WorkerInv(p: Policy, w: World, step: Step)
    requires WorldInv(p, w) && Enabled(w, Worker(step))
    ensures WorldInv(p, Next(p, w, Worker(step)))
  {
    StepInv(p, w.db, step);
    StepFrame(p, w.db, step);
    SigningKeeps(p, w.db, Apply(p, w.db, step), w.chain);
    WorkerCalls(p, w, step);
  }

  lemma BlockInv(p: Policy, w: World, added: map<OrderId, Receipt>)
    requires WorldInv(p, w) && Enabled(w, Block(added))
    ensures WorldInv(p, Next(p, w, Block(added)))
  {
    var c := Next(p, w, Block(added)).chain;
    forall id | id in w.db.orders && Resolved(w.db.orders[id])
      ensures Settled(id) in w.db.entries && Evidence(p, id, w.db.orders[id], w.db.entries[Settled(id)], c)
    {
      assert Evidence(p, id, w.db.orders[id], w.db.entries[Settled(id)], w.chain);
      assert id in added ==> MayLand(w, id, added[id]);
    }
    forall t | t in w.calls ensures CallOk(Next(p, w, Block(added)), t, w.calls[t]) {
      assert CallOk(w, t, w.calls[t]);
    }
  }

  /** What a call relies on is in the ledger, the chain and the lease tokens, not in the other calls. */
  lemma CallStays(w: World, v: World, token: nat, call: Call)
    requires CallOk(w, token, call) && v.db == w.db && v.chain == w.chain && v.tokens == w.tokens
    ensures CallOk(v, token, call)
  {
  }

  lemma BeginOk(p: Policy, w: World, token: nat, id: OrderId, recovering: bool)
    requires WorldInv(p, w) && Enabled(w, Begin(token, id, recovering))
    ensures CallOk(w, token, Next(p, w, Begin(token, id, recovering)).calls[token])
  {
  }

  lemma CallInv(p: Policy, w: World, e: Event)
    requires WorldInv(p, w) && Enabled(w, e) && (e.Begin? || e.Read? || e.Crash?)
    ensures WorldInv(p, Next(p, w, e))
  {
    var v := Next(p, w, e);
    assert v.db == w.db && v.chain == w.chain;
    if e.Begin? { BeginOk(p, w, e.token, e.id, e.recovering); }
    forall t | t in v.calls ensures CallOk(v, t, v.calls[t]) {
      if t in w.calls { assert CallOk(w, t, w.calls[t]); }
      if t != e.token { CallStays(w, v, t, v.calls[t]); }
    }
  }

  // Finishing a call.

  /** One order's status is rewritten, and it is still active or its resolution has evidence. */
  lemma WriteKeeps(p: Policy, s: Db, t: Db, c: Chain, id: OrderId, n: Order)
    requires SigningOk(s) && LandedOk(s, c) && EvidenceOk(p, s, c) && Settlements(p, s.orders, s.entries)
    requires id in s.orders && Active(s.orders[id]) && n == s.orders[id].(status := n.status)
    requires t.orders == s.orders[id := n]
    requires if Active(n) then t.entries == s.entries && !n.status.Queued? && !s.orders[id].status.Queued?
             else Settled(id) in t.entries && t.entries == s.entries[Settled(id) := t.entries[Settled(id)]]
                  && Evidence(p, id, n, t.entries[Settled(id)], c)
    ensures SigningOk(t) && LandedOk(t, c) && EvidenceOk(p, t, c)
  {
    forall k | k in t.orders && Resolved(t.orders[k])
      ensures Settled(k) in t.entries && Evidence(p, k, t.orders[k], t.entries[Settled(k)], c)
    {
      if k != id { assert Settled(k) in s.entries; }
    }
  }

  lemma FinishCalls(w: World, t: Db, token: nat, n: Order)
    requires CallsOk(w) && token in w.calls && w.calls[token].id in w.db.orders
    requires w.db.leaseToken == Some(token) && t.leaseToken == w.db.leaseToken
    requires n == w.db.orders[w.calls[token].id].(status := n.status) && t.orders == w.db.orders[w.calls[token].id := n]
    ensures CallsOk(w.(db := t, calls := w.calls - {token}))
  {
    var v := w.(db := t, calls := w.calls - {token});
    forall k | k in v.calls ensures CallOk(v, k, v.calls[k]) {
      assert CallOk(w, k, w.calls[k]);
    }
  }

  /** A transaction reported expired has not landed and never can: the status reply is at least as
      recent as the height that passed the limit. */
  lemma ExpiredNeverLands(w: World, token: nat)
    requires LandedOk(w.db, w.chain) && token in w.calls && CallOk(w, token, w.calls[token])
    requires w.calls[token].Recovering? && |w.calls[token].views| == 4
    requires Decide(w.calls[token].row.saved.value.lastValid, RepliesOf(w.chain, w.calls[token])).Expire?
    ensures w.calls[token].id !in w.chain.landed && w.chain.tip >= w.calls[token].row.saved.value.lastValid
  {
    var call := w.calls[token];
    assert call.views[1] <= call.views[2] && call.views[1] <= w.chain.tip;
  }

  /** The result of one finished call: the ledger is as it was, or one order's row is rewritten. */
  ghost predicate Rewrites(p: Policy, w: World, token: nat, t: Db) {
    && token in w.calls && w.calls[token].id in w.db.orders
    && var id := w.calls[token].id;
       var o := w.db.orders[id];
    && id in t.orders && Active(o) && w.db.leaseToken == Some(token) == t.leaseToken
    && t.orders[id] == o.(status := t.orders[id].status) && t.orders == w.db.orders[id := t.orders[id]]
    && if Active(t.orders[id]) then t.entries == w.db.entries && !t.orders[id].status.Queued? && !o.status.Queued?
       else Settled(id) in t.entries && t.entries == w.db.entries[Settled(id) := t.entries[Settled(id)]]
            && Evidence(p, id, t.orders[id], t.entries[Settled(id)], w.chain)
  }

  lemma DropResult(p: Policy, w: World, token: nat, at: int)
    requires LandedOk(w.db, w.chain) && Enabled(w, Finish(token, at))
    requires CallOk(w, token, w.calls[token]) && w.calls[token].Dropping?
    ensures var t := Finished(p, w, token, at).0; t == w.db || Rewrites(p, w, token, t)
    ensures Finished(p, w, token, at).0.leaseToken == w.db.leaseToken
  {
    if w.calls[token].id in w.chain.landed { assert Signed(w.db, w.calls[token].id); }
  }

  /** What is known when a recovering call acts, and holds its lease. */
  ghost predicate Acting(w: World, token: nat, at: int) {
    LandedOk(w.db, w.chain) && Enabled(w, Finish(token, at)) && CallOk(w, token, w.calls[token]) &&
    w.calls[token].Recovering?
  }

  ghost function VerdictOf(w: World, token: nat): Verdict
    requires token in w.calls && w.calls[token].Recovering? && |w.calls[token].views| == 4
    requires w.calls[token].row.saved.Some?
  {
    Decide(w.calls[token].row.saved.value.lastValid, RepliesOf(w.chain, w.calls[token]))
  }

  lemma ExpireResult(p: Policy, w: World, token: nat, at: int)
    requires Acting(w, token, at) && VerdictOf(w, token).Expire?
    ensures var t := Finished(p, w, token, at).0; t == w.db || Rewrites(p, w, token, t)
  {
    ExpiredNeverLands(w, token);
  }

  lemma SettleResult(p: Policy, w: World, token: nat, at: int)
    requires Acting(w, token, at) && VerdictOf(w, token).Settle?
    ensures var t := Finished(p, w, token, at).0; t == w.db || Rewrites(p, w, token, t)
  {
    var call := w.calls[token];
    assert call.id in w.chain.landed;
    assert VerdictOf(w, token) == Settle(w.chain.landed[call.id]);
    assert Finished(p, w, token, at) == SettleOrder(p, w.db, token, call.id, call.row, w.chain.landed[call.id], at);
  }

  lemma RecoverResult(p: Policy, w: World, token: nat, at: int)
    requires LandedOk(w.db, w.chain) && Enabled(w, Finish(token, at))
    requires CallOk(w, token, w.calls[token]) && w.calls[token].Recovering?
    ensures var t := Finished(p, w, token, at).0; t == w.db || Rewrites(p, w, token, t)
  {
    var verdict := VerdictOf(w, token);
    if verdict.Expire? {
      ExpireResult(p, w, token, at);
    } else if verdict.Settle? {
      SettleResult(p, w, token, at);
    }
  }

  lemma SettleInv(p: Policy, s: Db, token: nat, id: OrderId, o: Order, r: Receipt, at: int)
    requires Inv(p, s) && (Holds(s, token, at) && id in s.orders ==> Active(s.orders[id]))
    ensures Inv(p, SettleOrder(p, s, token, id, o, r, at).0)
  {
    var gas := Gas(r.fee, if o.saved.Some? then o.saved.value.solPrice else 0);
    if !FeeInScope(p, r.fee) {
      CheckInv(p, s, token, id, true, at);
    } else if r.err {
      FailOrderInv(p, s, token, id, r.fee, gas, at);
    } else if !Exact(o, r) {
      CheckInv(p, s, token, id, true, at);
    } else {
      FillInv(p, s, token, id, r.debit, r.credit, r.fee, gas, at);
    }
  }

  lemma RecoverInv(p: Policy, s: Db, token: nat, id: OrderId, o: Order, r: Replies, at: int)
    requires Inv(p, s) && (Holds(s, token, at) && id in s.orders ==> Active(s.orders[id]))
    ensures Inv(p, Recover(p, s, token, id, o, r, at).0)
  {
    match Decide(if o.saved.Some? then o.saved.value.lastValid else 0, r)
    case Settle(receipt) => SettleInv(p, s, token, id, o, receipt, at);
    case Expire => FailOrderInv(p, s, token, id, 0, 0, at);
    case Resend => CheckInv(p, s, token, id, false, at);
    case _ =>
  }

  lemma FinishedInv(p: Policy, w: World, token: nat, at: int)
    requires Inv(p, w.db) && Enabled(w, Finish(token, at)) && CallOk(w, token, w.calls[token])
    ensures Inv(p, Finished(p, w, token, at).0)
  {
    var call := w.calls[token];
    if call.Recovering? {
      RecoverInv(p, w.db, token, call.id, call.row, RepliesOf(w.chain, call), at);
    } else {
      FailOrderInv(p, w.db, token, call.id, 0, 0, at);
    }
  }

  lemma FinishInv(p: Policy, w: World, token: nat, at: int)
    requires WorldInv(p, w) && Enabled(w, Finish(token, at))
    ensures WorldInv(p, Next(p, w, Finish(token, at)))
  {
    var t := Finished(p, w, token, at).0;
    FinishedInv(p, w, token, at);
    assert CallOk(w, token, w.calls[token]);
    if w.calls[token].Recovering? {
      RecoverResult(p, w, token, at);
    } else {
      DropResult(p, w, token, at);
    }
    if Rewrites(p, w, token, t) {
      var id := w.calls[token].id;
      WriteKeeps(p, w.db, t, w.chain, id, t.orders[id]);
      FinishCalls(w, t, token, t.orders[id]);
    } else {
      CallInv(p, w, Crash(token));
    }
  }

  lemma EventInv(p: Policy, w: World, e: Event)
    requires WorldInv(p, w) && Enabled(w, e)
    ensures WorldInv(p, Next(p, w, e))
  {
    match e
    case Worker(step) => WorkerInv(p, w, step);
    case Finish(token, at) => FinishInv(p, w, token, at);
    case Block(added) => BlockInv(p, w, added);
    case _ => CallInv(p, w, e);
  }

  ghost predicate WorldRun(p: Policy, w: World, events: seq<Event>)
    decreases |events|
  {
    events == [] || (Enabled(w, events[0]) && WorldRun(p, Next(p, w, events[0]), events[1..]))
  }

  ghost function After(p: Policy, w: World, events: seq<Event>): World
    requires WorldRun(p, w, events)
    decreases |events|
  {
    if events == [] then w else After(p, Next(p, w, events[0]), events[1..])
  }

  lemma {:induction false} WorldRunInv(p: Policy, w: World, events: seq<Event>)
    requires WorldInv(p, w) && WorldRun(p, w, events)
    ensures WorldInv(p, After(p, w, events))
    decreases |events|
  {
    if events != [] {
      EventInv(p, w, events[0]);
      WorldRunInv(p, Next(p, w, events[0]), events[1..]);
    }
  }

  ghost function Start(p: Policy, tip: int): World { World(Opening(p, Mode.Live), Chain(tip, map[]), map[], {}) }

  /** Over every run of workers, crashes, lagging reads and blocks: the ledger invariant holds, an order
      is filled only on its exact success receipt, and failed only if its transaction failed on chain,
      was never signed, or has not landed and never can. */
  lemma EveryWorld(p: Policy, tip: int, events: seq<Event>)
    requires p.Valid() && WorldRun(p, Start(p, tip), events)
    ensures var w := After(p, Start(p, tip), events);
            WorldInv(p, w) && Inv(p, w.db) && EvidenceOk(p, w.db, w.chain)
  {
    OpeningInv(p, Mode.Live);
    WorldRunInv(p, Start(p, tip), events);
  }

  /** The row and the settlement of a resolved order. */
  predicate ResolvedAs(s: Db, id: OrderId, o: Order, e: Entry) {
    id in s.orders && s.orders[id] == o && Resolved(o) && Settled(id) in s.entries && s.entries[Settled(id)] == e
  }

  lemma NextKeepsResolved(p: Policy, w: World, event: Event, id: OrderId, o: Order, e: Entry)
    requires WorldInv(p, w) && Enabled(w, event) && ResolvedAs(w.db, id, o, e)
    ensures ResolvedAs(Next(p, w, event).db, id, o, e)
  {
    match event
    case Worker(step) => ResolvedFinal(p, w.db, step, id);
    case Finish(token, at) =>
      if w.calls[token].Recovering? { RecoverResult(p, w, token, at); } else { DropResult(p, w, token, at); }
    case _ =>
  }

  /** Each order is resolved at most once: from then on, whatever the workers and the chain do, it keeps its row and its
      entry. */
  lemma {:induction false} ResolvedForGood(p: Policy, w: World, events: seq<Event>, id: OrderId, o: Order, e: Entry)
    requires WorldInv(p, w) && WorldRun(p, w, events) && ResolvedAs(w.db, id, o, e)
    ensures ResolvedAs(After(p, w, events).db, id, o, e)
    decreases |events|
  {
    if events != [] {
      EventInv(p, w, events[0]);
      NextKeepsResolved(p, w, events[0], id, o, e);
      ResolvedForGood(p, Next(p, w, events[0]), events[1..], id, o, e);
    }
  }

  ghost predicate SettlesAs(s: Db, t: Db, id: OrderId, status: Status) {
    id in t.orders && t.orders[id].status == status && Settled(id) !in s.entries &&
        t.entries.Keys == s.entries.Keys + {Settled(id)}
  }

  lemma FillSettlesOrKeeps(s: Db, token: nat, id: OrderId, input: int, output: int, fee: int, gas: int, at: int)
    requires id in s.orders && Settled(id) !in s.entries
    ensures var t := Fill(s, token, id, input, output, fee, gas, at).0; SameMoney(s, t) || SettlesAs(s, t, id, Filled)
  {
  }

  lemma FailSettlesOrKeeps(s: Db, token: nat, id: OrderId, fee: int, gas: int, at: int)
    requires id in s.orders && Settled(id) !in s.entries
    ensures var t := FailOrder(s, token, id, fee, gas, at).0; SameMoney(s, t) || SettlesAs(s, t, id, Failed)
  {
  }

  /** Recovery either settles the order, with one new entry, or keeps its reservation and every other amount; it
      fills only on a receipt without an error. */
  lemma RecoverSettlesOrKeeps(p: Policy, s: Db, token: nat, id: OrderId, o: Order, r: Replies, at: int)
    requires Settlements(p, s.orders, s.entries) && id in s.orders && Active(s.orders[id])
    ensures var t := Recover(p, s, token, id, o, r, at).0;
            SameMoney(s, t) || SettlesAs(s, t, id, Failed) ||
            (SettlesAs(s, t, id, Filled) && r.receipt.Some? && !r.receipt.value.err && Exact(o, r.receipt.value))
  {
    var gas := Gas(if r.receipt.Some? then r.receipt.value.fee else 0,
                   if o.saved.Some? then o.saved.value.solPrice else 0);
    FailSettlesOrKeeps(s, token, id, 0, 0, at);
    if r.receipt.Some? {
      var c := r.receipt.value;
      FailSettlesOrKeeps(s, token, id, c.fee, gas, at);
      FillSettlesOrKeeps(s, token, id, c.debit, c.credit, c.fee, gas, at);
    }
  }

  // ---------------------------------------------------------- reconciliation

  /** The entries, apart from the opening capital, sum to the receipts when they agree order by order. */
  lemma {:induction false} EntriesMatchReceipts(es: map<EntryId, Entry>, f: Entry -> int, rs: map<OrderId, Receipt>,
                                                g: Receipt -> int)
    requires Capital !in es
    requires forall id :: Part(es, f, Settled(id)) == Part(rs, g, id)
    ensures Sum(es, f) == Sum(rs, g)
    decreases |es| + |rs|
  {
    if es == map[] && rs == map[] { return; }
    var id: OrderId;
    if es != map[] { id := Pick(es).order; } else { id := Pick(rs); }
    var es', rs' := es - {Settled(id)}, rs - {id};
    assert es'.Keys == es.Keys - {Settled(id)} && rs'.Keys == rs.Keys - {id};
    forall k ensures Part(es', f, Settled(k)) == Part(rs', g, k) {
      assert Part(es, f, Settled(k)) == Part(rs, g, k);
    }
    SumRemove(es, f, Settled(id));
    SumRemove(rs, g, id);
    EntriesMatchReceipts(es', f, rs', g);
  }

  ghost predicate Quiet(s: Db) { forall id :: id in s.orders && Active(s.orders[id]) ==> s.orders[id].status.Queued? }

  /** With no signed order outstanding, each order's entry is its receipt, and there are no others. */
  lemma QuietEntry(p: Policy, w: World, id: OrderId)
    requires WorldInv(p, w) && Quiet(w.db)
    ensures Settled(id) !in w.db.entries ==> id !in w.chain.landed
    ensures Settled(id) in w.db.entries ==>
              if id in w.chain.landed then Books(p, w.db.entries[Settled(id)], w.chain.landed[id])
              else var e := w.db.entries[Settled(id)]; e.cash == 0 && e.sol == 0 && e.mint == None
  {
    if id in w.chain.landed { assert Signed(w.db, id) && RowOk(p, id, w.db.orders[id]); }
    if Settled(id) in w.db.entries { assert Evidence(p, id, w.db.orders[id], w.db.entries[Settled(id)], w.chain); }
  }

  lemma QuietColumn(p: Policy, w: World, f: Entry -> int, g: Receipt -> int)
    requires WorldInv(p, w) && Quiet(w.db)
    requires forall id :: Part(w.db.entries, f, Settled(id)) == Part(w.chain.landed, g, id)
    ensures Sum(w.db.entries, f) == f(w.db.entries[Capital]) + Sum(w.chain.landed, g)
  {
    var es := w.db.entries - {Capital};
    forall id ensures Part(es, f, Settled(id)) == Part(w.chain.landed, g, id) {
      assert Part(w.db.entries, f, Settled(id)) == Part(w.chain.landed, g, id);
    }
    SumRemove(w.db.entries, f, Capital);
    EntriesMatchReceipts(es, f, w.chain.landed, g);
  }

  /** The guard under which reconcile compares balances (src/runner_trading/live.py:464-467): with no
      signed order outstanding, the ledger is exactly what the landed transactions did to the wallet. */
  lemma Reconciled(p: Policy, w: World)
    requires WorldInv(p, w) && Quiet(w.db)
    ensures w.db.cash == p.initialUsdc + Sum(w.chain.landed, CashMoved)
    ensures w.db.sol == p.initialSol + Sum(w.chain.landed, SolMoved)
    ensures forall mint: nat :: Sum(w.db.positions, HeldOf(mint)) == Sum(w.chain.landed, TokenMovedOf(mint))
  {
    forall id ensures Part(w.db.entries, CashDelta, Settled(id)) == Part(w.chain.landed, CashMoved, id)
                   && Part(w.db.entries, SolDelta, Settled(id)) == Part(w.chain.landed, SolMoved, id) {
      QuietEntry(p, w, id);
    }
    QuietColumn(p, w, CashDelta, CashMoved);
    QuietColumn(p, w, SolDelta, SolMoved);
    forall mint: nat ensures Sum(w.db.positions, HeldOf(mint)) == Sum(w.chain.landed, TokenMovedOf(mint)) {
      forall id ensures Part(w.db.entries, MovedOf(mint), Settled(id)) == Part(w.chain.landed, TokenMovedOf(mint), id) {
        QuietEntry(p, w, id);
      }
      QuietColumn(p, w, MovedOf(mint), TokenMovedOf(mint));
    }
  }
}
