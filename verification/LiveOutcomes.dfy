/** What recovery answers to every combination of replies, and what a receipt that cannot be settled means for the runs
    after it. */
module LiveOutcomes {
  import opened Wrappers
  import opened Ledger
  import opened LedgerProofs
  import opened LedgerOutcomes
  import opened Live
  import opened LiveProofs

  /** The fee in USDC is the least amount that covers the lamports at their price. */
  lemma GasRoundsUp(fee: int, solPrice: int)
    ensures (Gas(fee, solPrice) - 1) * 1_000_000_000 < fee * solPrice <= Gas(fee, solPrice) * 1_000_000_000
    ensures fee >= 0 && solPrice >= 0 ==> Gas(fee, solPrice) >= 0
  {
    if fee >= 0 && solPrice >= 0 { assert fee * solPrice >= 0; }
  }

  // ------------------------------------------------------------ one receipt

  /** A success that is exactly the checked order: its input, at least its minimum, nothing else moved, a fee in scope.
      */
  predicate Fills(p: Policy, o: Order, c: Receipt) {
    !c.err && 0 <= c.fee <= p.maxFee && c.debit == o.input && o.saved.Some? &&
    o.saved.value.minimum <= c.credit && c.clean
  }

  /** A failure with a fee in scope. */
  predicate Fails(p: Policy, c: Receipt) { c.err && 0 <= c.fee <= p.maxFee }

  /** Every other receipt is for a person to look at. */
  predicate NeedsReview(p: Policy, o: Order, c: Receipt) { !Fills(p, o, c) && !Fails(p, c) }

  /** The order waits for review, the account is paused, and no amount and no entry has changed. */
  predicate Reviewed(s: Db, t: Db, id: OrderId) {
    id in s.orders && OneRow(s, t, id, s.orders[id].(status := Checking)) && t.paused && SameMoney(s, t)
  }

  function GasOf(o: Order, c: Receipt): int { Gas(c.fee, if o.saved.Some? then o.saved.value.solPrice else 0) }

  /** The order is filled for what the receipt says it bought or sold. */
  predicate FilledOnly(s: Db, t: Db, id: OrderId, c: Receipt) {
    id in s.orders && OneFill(s, t, id, s.orders[id]) &&
    (if s.orders[id].side.BuySide? then BuyFilled(s, t, id, s.orders[id], c.credit, c.fee, GasOf(s.orders[id], c))
     else SaleFilled(s, t, id, s.orders[id], c.credit, c.fee, GasOf(s.orders[id], c)))
  }

  /** The whole answer to a receipt. The last two refusals are the ledger's own row checks. */
  predicate SettledRight(p: Policy, s: Db, t: Db, reply: Reply, id: OrderId, c: Receipt)
    requires id in s.orders
  {
    var o := s.orders[id];
    if NeedsReview(p, o, c) then reply == Done(None) && Reviewed(s, t, id)
    else if c.fee > s.sol || GasOf(o, c) < 0 || (!c.err && c.credit <= 0) then reply.Raised? && t == s
    else reply == Done(None) && if c.err then FailedOnly(s, t, id, c.fee, GasOf(o, c)) else FilledOnly(s, t, id, c)
  }

  lemma ReviewOutcome(p: Policy, s: Db, token: nat, id: OrderId, c: Receipt, at: int)
    requires Holds(s, token, at) && id in s.orders && NeedsReview(p, s.orders[id], c)
    ensures var (t, reply) := SettleOrder(p, s, token, id, s.orders[id], c, at);
            reply == Done(None) && Reviewed(s, t, id)
  {
    CheckOutcome(s, token, id, true, at);
  }

  lemma FailsByStep(p: Policy, s: Db, token: nat, id: OrderId, o: Order, c: Receipt, at: int)
    requires Fails(p, c)
    ensures SettleOrder(p, s, token, id, o, c, at) == FailOrder(s, token, id, c.fee, GasOf(o, c), at)
  {
  }

  lemma FailedOutcome(p: Policy, s: Db, token: nat, id: OrderId, c: Receipt, at: int)
    requires Inv(p, s) && Holds(s, token, at) && id in s.orders && Active(s.orders[id]) && Fails(p, c)
    ensures var (t, reply) := SettleOrder(p, s, token, id, s.orders[id], c, at); SettledRight(p, s, t, reply, id, c)
  {
    var gas := GasOf(s.orders[id], c);
    FailsByStep(p, s, token, id, s.orders[id], c, at);
    if gas >= 0 {
      FailOutcome(p, s, token, id, c.fee, gas, at);
      if c.fee <= s.sol {
        RowsCovered(p, s, id);
        FailEffects(s, token, id, c.fee, gas, at);
      }
    }
  }

  /** The invariant gives what the row checks of a failure ask for. */
  lemma RowsCovered(p: Policy, s: Db, id: OrderId)
    requires Inv(p, s) && id in s.orders && Active(s.orders[id])
    ensures 0 <= s.orders[id].reserved <= s.reserved && Settled(id) !in s.entries
  {
    SumBoundsActive(p, s, id);
    assert RowOk(p, id, s.orders[id]);
  }

  lemma FilledOutcome(p: Policy, s: Db, token: nat, id: OrderId, c: Receipt, at: int)
    requires Inv(p, s) && s.mode.Live? && Holds(s, token, at) && id in s.orders && Active(s.orders[id])
    requires Fills(p, s.orders[id], c)
    ensures var (t, reply) := SettleOrder(p, s, token, id, s.orders[id], c, at); SettledRight(p, s, t, reply, id, c)
  {
    var gas := GasOf(s.orders[id], c);
    if gas < 0 || c.credit <= 0 {
      FillRefused(s, token, id, c.debit, c.credit, c.fee, gas, at);
    } else {
      FillOutcome(p, s, token, id, c.credit, c.fee, gas, at);
      if c.fee <= s.sol { FillEffects(p, s, token, id, c.credit, c.fee, gas, at); }
    }
  }

  /** Under its worker's lease, an order at work is filled, failed or reviewed as its receipt says. */
  lemma ReceiptOutcome(p: Policy, s: Db, token: nat, id: OrderId, c: Receipt, at: int)
    requires Inv(p, s) && s.mode.Live? && Holds(s, token, at) && id in s.orders && Active(s.orders[id])
    ensures var (t, reply) := SettleOrder(p, s, token, id, s.orders[id], c, at); SettledRight(p, s, t, reply, id, c)
  {
    if NeedsReview(p, s.orders[id], c) {
      ReviewOutcome(p, s, token, id, c, at);
    } else if c.err {
      FailedOutcome(p, s, token, id, c, at);
    } else {
      FilledOutcome(p, s, token, id, c, at);
    }
  }

  // ------------------------------------------------------------ all replies

  lemma PassedByOutcome(p: Policy, s: Db, token: nat, id: OrderId, at: int)
    requires Inv(p, s) && Holds(s, token, at) && id in s.orders && Active(s.orders[id])
    ensures var (t, reply) := FailOrder(s, token, id, 0, 0, at); reply == Done(None) && FailedOnly(s, t, id, 0, 0)
  {
    FailOutcome(p, s, token, id, 0, 0, at);
    RowsCovered(p, s, id);
    FailEffects(s, token, id, 0, 0, at);
  }

  /** Which transaction each combination of replies leads to. */
  lemma RecoverCases(p: Policy, s: Db, token: nat, id: OrderId, o: Order, r: Replies, at: int)
    requires o.saved.Some?
    ensures Recover(p, s, token, id, o, r, at) ==
            if r.context < r.slot then (s, Raised(StaleRead))
            else if r.receipt.Some? then SettleOrder(p, s, token, id, o, r.receipt.value, at)
            else if r.seen then (s, Done(None))
            else if r.height > o.saved.value.lastValid then FailOrder(s, token, id, 0, 0, at)
            else Check(s, token, id, false, at)
  {
  }

  /** The order is only marked, to be sent again. */
  predicate MarkedOnly(s: Db, t: Db, id: OrderId) {
    id in s.orders && OneRow(s, t, id, s.orders[id].(status := Checking)) && SameMoney(s, t) && t.paused == s.paused
  }

  /** The whole answer to four replies. */
  predicate AnsweredRight(p: Policy, s: Db, t: Db, reply: Reply, id: OrderId, r: Replies)
    requires id in s.orders && s.orders[id].saved.Some?
  {
    if r.context < r.slot then t == s && reply == Raised(StaleRead)
    else if r.receipt.Some? then SettledRight(p, s, t, reply, id, r.receipt.value)
    else if r.seen then t == s && reply == Done(None)
    else if r.height > s.orders[id].saved.value.lastValid then reply == Done(None) && FailedOnly(s, t, id, 0, 0)
    else reply == Done(None) && MarkedOnly(s, t, id)
  }

  /** For an order at work, under its worker's lease: which receipts fill, which fail, and that every other one pauses
      the account; that without a receipt, an order passed by is released, one seen is left alone, and one unseen is
      only marked and sent again; and that inconsistent replies change nothing. */
  lemma RecoverOutcome(p: Policy, s: Db, token: nat, id: OrderId, r: Replies, at: int)
    requires Inv(p, s) && s.mode.Live? && Holds(s, token, at)
    requires id in s.orders && Active(s.orders[id]) && s.orders[id].saved.Some?
    ensures var (t, reply) := Recover(p, s, token, id, s.orders[id], r, at); AnsweredRight(p, s, t, reply, id, r)
  {
    RecoverCases(p, s, token, id, s.orders[id], r, at);
    if r.context >= r.slot {
      if r.receipt.Some? {
        ReceiptOutcome(p, s, token, id, r.receipt.value, at);
      } else if !r.seen && r.height > s.orders[id].saved.value.lastValid {
        PassedByOutcome(p, s, token, id, at);
      } else if !r.seen {
        CheckOutcome(s, token, id, false, at);
      }
    }
  }

  /** A worker that has lost its lease changes nothing at all. */
  lemma RecoverWithoutLease(p: Policy, s: Db, token: nat, id: OrderId, o: Order, r: Replies, at: int)
    requires !Holds(s, token, at)
    ensures Recover(p, s, token, id, o, r, at).0 == s
  {
  }

  // ------------------------------------------------------------ every run after it

  /** The receipt of a finished call that nobody can settle. */
  ghost predicate Unsettled(p: Policy, w: World, token: nat, at: int) {
    Enabled(w, Finish(token, at)) && w.calls[token].Recovering? && w.calls[token].row.saved.Some? &&
    Holds(w.db, token, at) && VerdictOf(w, token).Settle? &&
    NeedsReview(p, w.calls[token].row, VerdictOf(w, token).receipt)
  }

  lemma ReviewPauses(p: Policy, w: World, token: nat, at: int)
    requires WorldInv(p, w) && Unsettled(p, w, token, at)
    ensures var v := Next(p, w, Finish(token, at)); Reviewed(w.db, v.db, w.calls[token].id) && v.db.paused
  {
    var call := w.calls[token];
    assert CallOk(w, token, call);
    ReviewOutcome(p, w.db, token, call.id, VerdictOf(w, token).receipt, at);
  }

  predicate UnpausesEvent(e: Event) { e.Worker? && Unpauses(e.step) }

  lemma PausedEvent(p: Policy, w: World, e: Event)
    requires w.db.paused && Enabled(w, e) && !UnpausesEvent(e)
    ensures var v := Next(p, w, e); v.db.paused && NoNewBuys(w.db, v.db)
  {
    match e
    case Worker(step) => PausedStep(p, w.db, step);
    case Finish(token, at) => PausedFinish(p, w, token, at);
    case _ =>
  }

  /** No settlement of a receipt ends a pause or adds a buy. */
  lemma PausedSettle(p: Policy, s: Db, token: nat, id: OrderId, o: Order, c: Receipt, at: int)
    requires s.paused
    ensures var t := SettleOrder(p, s, token, id, o, c, at).0; t.paused && NoNewBuys(s, t)
  {
    var gas := GasOf(o, c);
    if !FeeInScope(p, c.fee) || (!c.err && !Exact(o, c)) {
      PausedStep(p, s, Marking(token, id, true, at));
    } else if c.err {
      PausedFail(s, token, id, c.fee, gas, at);
    } else {
      PausedFill(s, token, id, c.debit, c.credit, c.fee, gas, at);
    }
  }

  lemma PausedRecover(p: Policy, s: Db, token: nat, id: OrderId, o: Order, r: Replies, at: int)
    requires s.paused
    ensures var t := Recover(p, s, token, id, o, r, at).0; t.paused && NoNewBuys(s, t)
  {
    if r.receipt.Some? { PausedSettle(p, s, token, id, o, r.receipt.value, at); }
    PausedFail(s, token, id, 0, 0, at);
    PausedStep(p, s, Marking(token, id, false, at));
  }

  lemma PausedFinish(p: Policy, w: World, token: nat, at: int)
    requires w.db.paused && Enabled(w, Finish(token, at))
    ensures var t := Finished(p, w, token, at).0; t.paused && NoNewBuys(w.db, t)
  {
    var call := w.calls[token];
    if call.Recovering? {
      PausedRecover(p, w.db, token, call.id, call.row, RepliesOf(w.chain, call), at);
    } else {
      PausedStep(p, w.db, Failing(token, call.id, 0, 0, at));
    }
  }

  /** While a live account is paused, and until it is told otherwise, it stays paused, no buy is queued and none is
      signed, whatever the workers and the chain do. */
  lemma {:induction false} PausedWorld(p: Policy, w: World, events: seq<Event>)
    requires w.db.paused && WorldRun(p, w, events)
    requires forall i :: 0 <= i < |events| ==> !UnpausesEvent(events[i])
    ensures var v := After(p, w, events); v.db.paused && NoNewBuys(w.db, v.db)
    decreases |events|
  {
    if events != [] {
      PausedEvent(p, w, events[0]);
      PausedWorld(p, Next(p, w, events[0]), events[1..]);
    }
  }

  lemma ReviewAddsNone(s: Db, t: Db, id: OrderId)
    requires Reviewed(s, t, id)
    ensures NoNewBuys(s, t)
  {
  }

  lemma NoBuysBetween(s: Db, t: Db, u: Db)
    requires NoNewBuys(s, t) && NoNewBuys(t, u)
    ensures NoNewBuys(s, u)
  {
  }

  /** So one receipt that cannot be settled stops all entries until somebody has looked at it. */
  lemma UnsettledStops(p: Policy, w: World, token: nat, at: int, events: seq<Event>)
    requires WorldInv(p, w) && Unsettled(p, w, token, at)
    requires WorldRun(p, Next(p, w, Finish(token, at)), events)
    requires forall i :: 0 <= i < |events| ==> !UnpausesEvent(events[i])
    ensures var v := After(p, Next(p, w, Finish(token, at)), events); v.db.paused && NoNewBuys(w.db, v.db)
  {
    ReviewPauses(p, w, token, at);
    var n := Next(p, w, Finish(token, at));
    ReviewAddsNone(w.db, n.db, w.calls[token].id);
    PausedWorld(p, n, events);
    NoBuysBetween(w.db, n.db, After(p, n, events).db);
  }
}
