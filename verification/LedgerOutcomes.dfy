/** What each ledger transaction answers, and exactly what it changes; and what a pause means over every run. */
module LedgerOutcomes {
  import opened Wrappers
  import opened Sums
  import opened Ledger
  import opened LedgerProofs

  /** Nothing but the lease has changed. */
  predicate OnlyRenewed(s: Db, t: Db, at: int) { t == s.(leaseUntil := at + LEASE) }

  predicate SameMoney(s: Db, t: Db) {
    t.cash == s.cash && t.reserved == s.reserved && t.sol == s.sol && t.gas == s.gas && t.realized == s.realized &&
    t.positions == s.positions && t.entries == s.entries
  }

  /** One order's row is new or rewritten, and no other order's. */
  predicate OneRow(s: Db, t: Db, id: OrderId, row: Order) {
    id in t.orders && t.orders[id] == row && t.orders.Keys == s.orders.Keys + {id} &&
    forall k :: k in s.orders && k != id ==> t.orders[k] == s.orders[k]
  }

  // ------------------------------------------------------------ the lease

  /** A lease is taken exactly when nobody has it or it has run out, and then for three minutes. */
  lemma AcquireOutcome(s: Db, token: nat, at: int)
    ensures var (t, got) := Acquire(s, token, at);
            (got <==> s.leaseToken.None? || s.leaseUntil < at) &&
            (got ==> Holds(t, token, at + 180) && !Holds(t, token, at + 181)) && (!got ==> t == s) &&
            SameMoney(s, t) && t.orders == s.orders && t.paused == s.paused
  {
  }

  /** Only its holder gives a lease back, and then anybody can take it. */
  lemma ReleaseOutcome(s: Db, token: nat, other: nat, at: int)
    ensures var t := Release(s, token);
            (s.leaseToken == Some(token) ==> Acquire(t, other, at).1) && (s.leaseToken != Some(token) ==> t == s) &&
            SameMoney(s, t) && t.orders == s.orders && t.paused == s.paused
  {
  }

  // ------------------------------------------------------------ reserving and queueing

  /** Every gate in front of a buy. */
  ghost predicate EntryOpen(p: Policy, s: Db, signal: nat, mint: nat) {
    !s.paused &&
    Sum(s.positions, OpenOne) + Sum(s.orders, PendingBuy) < p.maxPositions &&
    p.entry <= s.cash - s.reserved &&
    Sum(s.positions, OpenCost) + s.reserved + p.entry <= p.maxExposure &&
    p.minSol + (Sum(s.orders, PendingBuy) + 1) * p.maxFee <= s.sol &&
    (forall q :: q in s.positions && s.positions[q].mint == mint ==> !s.positions[q].open) &&
    (forall k :: k in s.orders && s.orders[k].mint == mint ==> !Active(s.orders[k])) &&
    Buy(signal) !in s.orders
  }

  /** Under a lease, a reservation succeeds if and only if every gate is open; it then queues one order at the fixed
      entry and holds its money, and a refusal changes nothing but the lease. */
  lemma ReserveOutcome(p: Policy, s: Db, token: nat, signal: nat, mint: nat, at: int)
    ensures var (t, reply) := ReserveBuy(p, s, token, signal, mint, at);
            if !Holds(s, token, at) then t == s && reply == Raised(LeaseExpired)
            else if !EntryOpen(p, s, signal, mint) then OnlyRenewed(s, t, at) && reply == Done(None)
            else
              reply == Done(Some(Buy(signal))) && t.reserved == s.reserved + p.entry && t.paused == s.paused &&
              OneRow(s, t, Buy(signal), Order(mint, BuySide, Queued, p.entry, p.entry, None, None)) &&
              SameMoney(s, t.(reserved := s.reserved)) && t.leaseToken == s.leaseToken && t.leaseUntil == at + LEASE
  {
  }

  /** Under a lease, the sale of a position is queued if and only if it is open and its mint has no order at work; it is
      for the whole position, and holds no money. A pause does not stop it. */
  lemma ExitOutcome(s: Db, token: nat, random: nat, q: OrderId, mint: nat, at: int)
    ensures var (t, reply) := QueueExit(s, token, random, q, mint, at);
            if !Holds(s, token, at) then t == s && reply == Raised(LeaseExpired)
            else if !(q in s.positions && s.positions[q].open && Exit(random) !in s.orders && !PendingMint(s, mint))
            then OnlyRenewed(s, t, at) && reply == Done(None)
            else
              reply == Done(Some(Exit(random))) && SameMoney(s, t) && t.paused == s.paused &&
              OneRow(s, t, Exit(random),
                     Order(mint, SellSide, Queued, s.positions[q].quantity, 0, Some(q), None)) &&
              t.leaseToken == s.leaseToken && t.leaseUntil == at + LEASE
  {
  }

  /** A signature is saved if and only if the order is queued and, for a buy, the account is not paused. */
  lemma PrepareOutcome(s: Db, token: nat, id: OrderId, saved: Saved, at: int)
    ensures var (t, reply) := Prepare(s, token, id, saved, at);
            if !Holds(s, token, at) then t == s && reply == Raised(LeaseExpired)
            else if id in s.orders && s.orders[id].side.BuySide? && s.paused then
              t == s && reply == Raised(EntriesPaused)
            else if !(id in s.orders && s.orders[id].status.Queued?) then OnlyRenewed(s, t, at) && reply == Done(None)
            else
              reply == Done(None) && SameMoney(s, t) && t.paused == s.paused &&
              OneRow(s, t, id, s.orders[id].(status := Prepared, saved := Some(saved))) &&
              t.leaseToken == s.leaseToken && t.leaseUntil == at + 180
  {
  }

  /** A review marks the order and pauses the account; a resend only marks it. Neither touches any amount. */
  lemma CheckOutcome(s: Db, token: nat, id: OrderId, pausing: bool, at: int)
    requires Holds(s, token, at) && id in s.orders
    ensures var (t, reply) := Check(s, token, id, pausing, at);
            reply == Done(None) && SameMoney(s, t) && t.paused == (s.paused || pausing) &&
            OneRow(s, t, id, s.orders[id].(status := Checking)) &&
            t.leaseToken == s.leaseToken && t.leaseUntil == at + 180
  {
  }

  // ------------------------------------------------------------ settling

  /** A buy that fills: the reservation is spent, and a position of its cost is open. */
  predicate BuyFilled(s: Db, t: Db, id: OrderId, o: Order, output: int, fee: int, gas: int) {
    t.cash == s.cash - o.input && t.reserved == s.reserved - o.reserved && t.sol == s.sol - fee &&
    t.gas == s.gas + gas &&
    t.realized == s.realized && id !in s.positions && t.positions.Keys == s.positions.Keys + {id} &&
    t.positions[id] == Position(o.mint, true, output, o.input, gas, 0) &&
    (forall q :: q in s.positions ==> t.positions[q] == s.positions[q]) &&
    Settled(id) in t.entries && t.entries[Settled(id)] == Entry(BuyKind, -o.input, -fee, gas, Some(o.mint), output)
  }

  /** A sale that fills: its position is closed, with what it gained after all fees. */
  predicate SaleFilled(s: Db, t: Db, id: OrderId, o: Order, output: int, fee: int, gas: int) {
    o.position.Some? && o.position.value in s.positions && o.position.value in t.positions &&
    var q, r := s.positions[o.position.value], t.positions[o.position.value];
    q.open && !r.open && r.pnl == output - q.cost - q.entryFee - gas && r == q.(open := false, pnl := r.pnl) &&
    (forall k :: k in s.positions && k != o.position.value ==> k in t.positions && t.positions[k] == s.positions[k]) &&
    t.positions.Keys == s.positions.Keys &&
    t.cash == s.cash + output && t.reserved == s.reserved && t.sol == s.sol - fee && t.gas == s.gas + gas &&
    t.realized == s.realized + r.pnl &&
    Settled(id) in t.entries && t.entries[Settled(id)] == Entry(SellKind, output, -fee, gas, Some(o.mint), -o.input)
  }

  /** Whatever the side, one order row and one entry. */
  predicate OneFill(s: Db, t: Db, id: OrderId, o: Order) {
    OneRow(s, t, id, o.(status := Filled)) && t.entries.Keys == s.entries.Keys + {Settled(id)} &&
    (forall k :: k in s.entries && k != Settled(id) ==> t.entries[k] == s.entries[k]) && t.paused == s.paused
  }

  lemma BoughtEffects(s: Db, t: Db, id: OrderId, output: int, fee: int, gas: int)
    requires Bought(s, t, id, output, fee, gas) && id !in s.positions
    ensures OneFill(s, t, id, s.orders[id]) && BuyFilled(s, t, id, s.orders[id], output, fee, gas)
  {
  }

  lemma SoldEffects(s: Db, t: Db, id: OrderId, output: int, fee: int, gas: int)
    requires Sold(s, t, id, output, fee, gas) && ExitMatches(s.positions, s.orders[id]) && s.orders[id].reserved == 0
    ensures OneFill(s, t, id, s.orders[id]) && SaleFilled(s, t, id, s.orders[id], output, fee, gas)
  {
  }

  /** What filling an active order changes, to the last field; FillOutcome says when it succeeds. */
  lemma FillEffects(p: Policy, s: Db, token: nat, id: OrderId, output: int, fee: int, gas: int, at: int)
    requires Inv(p, s) && id in s.orders && Active(s.orders[id])
    requires Fill(s, token, id, s.orders[id].input, output, fee, gas, at).1 == Done(None)
    ensures var (t, o) := (Fill(s, token, id, s.orders[id].input, output, fee, gas, at).0, s.orders[id]);
            OneFill(s, t, id, o) && (if o.side.BuySide? then BuyFilled(s, t, id, o, output, fee, gas)
                                     else SaleFilled(s, t, id, o, output, fee, gas))
  {
    FillCases(s, token, id, s.orders[id].input, output, fee, gas, at);
    var t := Fill(s, token, id, s.orders[id].input, output, fee, gas, at).0;
    assert RowOk(p, id, s.orders[id]);
    if s.orders[id].side.BuySide? {
      BoughtEffects(s, t, id, output, fee, gas);
    } else {
      SoldEffects(s, t, id, output, fee, gas);
    }
  }

  /** A fill of anything but the reserved amount, or of a resolved order, changes nothing but the lease. */
  lemma FillRefused(s: Db, token: nat, id: OrderId, input: int, output: int, fee: int, gas: int, at: int)
    requires Holds(s, token, at)
    ensures var (t, reply) := Fill(s, token, id, input, output, fee, gas, at);
            (input <= 0 || output <= 0 || fee < 0 || gas < 0 ==> t == s && reply == Raised(BadAmounts)) &&
            (id in s.orders && Active(s.orders[id]) && input != s.orders[id].input ==> t == s && reply.Raised?) &&
            (id in s.orders && s.orders[id].status.Failed? ==> t == s && reply.Raised?) &&
            (id !in s.orders ==> t == s && reply.Raised?)
  {
  }

  /** What the account can pay and release, on any tables. */
  predicate Affordable(s: Db, cash: int, released: int, fee: int) {
    0 <= s.reserved - released <= s.cash + cash && fee <= s.sol
  }

  /** On any tables at all, an active buy fills if and only if the paper gate is open, its position is new and its mint
      not held, the account can pay, and it has no entry yet; otherwise nothing changes. */
  lemma FillBuyGuards(s: Db, token: nat, id: OrderId, output: int, fee: int, gas: int, at: int)
    requires Holds(s, token, at) && id in s.orders && Active(s.orders[id]) && s.orders[id].side.BuySide?
    requires s.orders[id].input > 0 && output > 0 && fee >= 0 && gas >= 0
    ensures var o := s.orders[id];
            var (t, reply) := Fill(s, token, id, o.input, output, fee, gas, at);
            if !(s.mode.Paper? && s.paused) && id !in s.positions &&
               (forall q :: q in s.positions && s.positions[q].open ==> s.positions[q].mint != o.mint) &&
               Affordable(s, -o.input, o.reserved, fee) && Settled(id) !in s.entries
            then reply == Done(None) && Bought(s, t, id, output, fee, gas)
            else reply.Raised? && t == s
  {
  }

  /** On any tables at all, an active sale fills if and only if its position is open and the sale is for all of it, the
      account can pay, and it has no entry yet; otherwise nothing changes. */
  lemma FillSellGuards(s: Db, token: nat, id: OrderId, output: int, fee: int, gas: int, at: int)
    requires Holds(s, token, at) && id in s.orders && Active(s.orders[id]) && s.orders[id].side.SellSide?
    requires s.orders[id].input > 0 && output > 0 && fee >= 0 && gas >= 0
    ensures var o := s.orders[id];
            var (t, reply) := Fill(s, token, id, o.input, output, fee, gas, at);
            if o.position.Some? && o.position.value in s.positions && s.positions[o.position.value].open &&
               s.positions[o.position.value].quantity == o.input &&
               Affordable(s, output, o.reserved, fee) && Settled(id) !in s.entries
            then reply == Done(None) && Sold(s, t, id, output, fee, gas)
            else reply.Raised? && t == s
  {
  }

  /** On any tables at all, an active order fails if and only if the amounts are in range, the account can pay and it
      has no entry yet; a resolved one is left alone. */
  lemma FailGuards(s: Db, token: nat, id: OrderId, fee: int, gas: int, at: int)
    requires Holds(s, token, at)
    ensures var (t, reply) := FailOrder(s, token, id, fee, gas, at);
            if fee < 0 || gas < 0 then t == s && reply == Raised(BadAmounts)
            else if id !in s.orders || !Active(s.orders[id]) then OnlyRenewed(s, t, at) && reply == Done(None)
            else if Affordable(s, 0, s.orders[id].reserved, fee) && Settled(id) !in s.entries then
              reply == Done(None) && FailedOnly(s, t, id, fee, gas)
            else t == s && reply.Raised?
  {
  }

  /** The order has failed: its reservation is free again, and only the fee is paid. */
  predicate FailedOnly(s: Db, t: Db, id: OrderId, fee: int, gas: int) {
    id in s.orders && OneRow(s, t, id, s.orders[id].(status := Failed)) && t.positions == s.positions &&
    t.cash == s.cash && t.reserved == s.reserved - s.orders[id].reserved && t.sol == s.sol - fee &&
    t.gas == s.gas + gas &&
    t.realized == s.realized && t.paused == s.paused && t.entries.Keys == s.entries.Keys + {Settled(id)} &&
    t.entries[Settled(id)] == Entry(FailedKind, 0, -fee, gas, None, 0) &&
    forall k :: k in s.entries && k != Settled(id) ==> t.entries[k] == s.entries[k]
  }

  /** What failing an active order changes; FailOutcome says when it succeeds. */
  lemma FailEffects(s: Db, token: nat, id: OrderId, fee: int, gas: int, at: int)
    requires id in s.orders && Active(s.orders[id]) && Holds(s, token, at) && Settled(id) !in s.entries
    requires fee >= 0 && gas >= 0 && AccountRow(s.cash, s.reserved - s.orders[id].reserved, s.sol - fee)
    ensures FailedOnly(s, FailOrder(s, token, id, fee, gas, at).0, id, fee, gas)
  {
  }

  // ------------------------------------------------------------ a pause

  /** No buy but those there were, and none of them signed that was not. */
  predicate NoNewBuys(s: Db, t: Db) {
    forall id :: id in t.orders && t.orders[id].side.BuySide? ==>
      id in s.orders && s.orders[id].side.BuySide? && (s.orders[id].saved.None? ==> t.orders[id].saved.None?)
  }

  predicate Unpauses(step: Step) { step == Pausing(false) }

  lemma PausedFill(s: Db, token: nat, id: OrderId, input: int, output: int, fee: int, gas: int, at: int)
    requires s.paused
    ensures var t := Fill(s, token, id, input, output, fee, gas, at).0; t.paused && NoNewBuys(s, t)
  {
    FillCases(s, token, id, input, output, fee, gas, at);
  }

  lemma PausedFail(s: Db, token: nat, id: OrderId, fee: int, gas: int, at: int)
    requires s.paused
    ensures var t := FailOrder(s, token, id, fee, gas, at).0; t.paused && NoNewBuys(s, t)
  {
    FailCases(s, token, id, fee, gas, at);
  }

  lemma PausedStep(p: Policy, s: Db, step: Step)
    requires s.paused && !Unpauses(step)
    ensures Apply(p, s, step).paused && NoNewBuys(s, Apply(p, s, step))
  {
    match step
    case Reserving(token, signal, mint, at) => ReserveOutcome(p, s, token, signal, mint, at);
    case Exiting(token, random, q, mint, at) => ExitOutcome(s, token, random, q, mint, at);
    case Preparing(token, id, saved, at) => PrepareOutcome(s, token, id, saved, at);
    case Failing(token, id, fee, gas, at) => PausedFail(s, token, id, fee, gas, at);
    case Filling(token, id, input, output, fee, gas, at) => PausedFill(s, token, id, input, output, fee, gas, at);
    case _ =>
  }

  /** While the account is paused, and until it is told otherwise, it stays paused, no buy is queued and none is signed.
      */
  lemma {:induction false} PausedRun(p: Policy, s: Db, steps: seq<Step>)
    requires s.paused && forall i :: 0 <= i < |steps| ==> !Unpauses(steps[i])
    ensures Run(p, s, steps).paused && NoNewBuys(s, Run(p, s, steps))
    decreases |steps|
  {
    if steps != [] {
      PausedStep(p, s, steps[0]);
      PausedRun(p, Apply(p, s, steps[0]), steps[1..]);
    }
  }
}
