/** What every run of ledger transactions keeps: the books balance, the limits hold, and the
    unique indexes and quantity checks are never hit by an active order. */
module LedgerProofs {
  import opened Wrappers
  import opened Sums
  import opened Ledger

  type Orders = map<OrderId, Order>
  type Positions = map<OrderId, Position>
  type Entries = map<EntryId, Entry>

  // --------------------------------------------------------------- structure

  ghost predicate RowOk(p: Policy, id: OrderId, o: Order) {
    && !o.status.Cancelled?
    && match id
       case Buy(_) => o.side.BuySide? && o.input == o.reserved == p.entry
       case Exit(_) => o.side.SellSide? && o.reserved == 0 && o.input > 0
  }

  ghost predicate OrdersOk(p: Policy, orders: Orders) {
    forall id :: id in orders ==> RowOk(p, id, orders[id])
  }

  /** At most one active order per mint. */
  ghost predicate OnePending(orders: Orders) {
    forall a, b :: a in orders && b in orders && Active(orders[a]) && Active(orders[b])
      ==> a == b || orders[a].mint != orders[b].mint
  }

  /** At most one open position per mint. */
  ghost predicate OneOpen(positions: Positions) {
    forall a, b :: a in positions && b in positions && positions[a].open && positions[b].open
      ==> a == b || positions[a].mint != positions[b].mint
  }

  /** A mint that is held is never being bought. */
  ghost predicate NeverBuyHeld(orders: Orders, positions: Positions) {
    forall a, q :: a in orders && q in positions && PendingBuy(orders[a]) == 1 && positions[q].open
      ==> orders[a].mint != positions[q].mint
  }

  ghost predicate ExitMatches(positions: Positions, o: Order) {
    && o.position.Some? && o.position.value in positions
    && var q := positions[o.position.value]; q.open && q.quantity == o.input && q.mint == o.mint
  }

  /** Every active exit sells exactly one open position, whole. */
  ghost predicate ExitsMatch(orders: Orders, positions: Positions) {
    forall a :: a in orders && Active(orders[a]) && orders[a].side.SellSide? ==> ExitMatches(positions, orders[a])
  }

  /** The positions are the filled buys, at the fixed entry cost. */
  ghost predicate Filed(p: Policy, orders: Orders, positions: Positions) {
    && (forall q :: q in positions <==> q.Buy? && q in orders && orders[q].status.Filled?)
    && (forall q :: q in positions ==> positions[q].cost == p.entry && positions[q].quantity > 0)
  }

  predicate Resolved(o: Order) { o.status.Filled? || o.status.Failed? }

  /** One entry for the opening capital and one per resolved order, none for the others. */
  ghost predicate Settlements(p: Policy, orders: Orders, entries: Entries) {
    && Capital in entries && entries[Capital] == Entry(CapitalKind, p.initialUsdc, p.initialSol, 0, None, 0)
    && (forall id :: Settled(id) in entries <==> id in orders && Resolved(orders[id]))
  }

  ghost predicate Structure(p: Policy, s: Db) {
    && OrdersOk(p, s.orders) && OnePending(s.orders) && OneOpen(s.positions)
    && NeverBuyHeld(s.orders, s.positions) && ExitsMatch(s.orders, s.positions)
    && Filed(p, s.orders, s.positions) && Settlements(p, s.orders, s.entries)
  }

  // ------------------------------------------------------------------- money

  /** The reservation is exactly what the active orders hold, and it is covered by cash. */
  ghost predicate Funded(s: Db) {
    AccountRow(s.cash, s.reserved, s.sol) && s.reserved == Sum(s.orders, ActiveReserved)
  }

  ghost predicate WithinLimits(p: Policy, s: Db) {
    && Sum(s.positions, OpenCost) + s.reserved <= p.maxExposure
    && Sum(s.positions, OpenOne) + Sum(s.orders, PendingBuy) <= p.maxPositions
  }

  /** Cash, SOL and gas are the sums of their ledger columns. */
  ghost predicate Booked(s: Db) {
    s.cash == Sum(s.entries, CashDelta) && s.sol == Sum(s.entries, SolDelta) && s.gas == Sum(s.entries, GasPaid)
  }

  ghost predicate Conserved(p: Policy, s: Db) {
    s.cash + Sum(s.positions, OpenCost) - s.gas
      == p.initialUsdc + s.realized - Sum(s.positions, OpenFee) - Sum(s.entries, FailedGas)
  }

  /** For every mint, the ledger's quantity column adds up to what is held open. */
  ghost predicate Inventory(s: Db) {
    forall mint: nat :: Sum(s.entries, MovedOf(mint)) == Sum(s.positions, HeldOf(mint))
  }

  /** What is realized is what the closed positions gained or lost. */
  ghost predicate Profits(s: Db) { s.realized == Sum(s.positions, ClosedPnl) }

  ghost predicate Money(p: Policy, s: Db) {
    Funded(s) && WithinLimits(p, s) && Booked(s) && Conserved(p, s) && Inventory(s) && Profits(s)
  }

  ghost predicate Inv(p: Policy, s: Db) {
    p.Valid() && Structure(p, s) && Money(p, s)
  }

  // -------------------------------------------------------------- transitions

  lemma OpeningInv(p: Policy, mode: Mode)
    requires p.Valid()
    ensures Inv(p, Opening(p, mode))
  {
    var s := Opening(p, mode);
    var e := s.entries[Capital];
    assert s.entries == map[][Capital := e];
    SumPut(map[], CashDelta, Capital, e);
    SumPut(map[], SolDelta, Capital, e);
    SumPut(map[], GasPaid, Capital, e);
    SumPut(map[], FailedGas, Capital, e);
    forall mint: nat ensures Sum(s.entries, MovedOf(mint)) == Sum(s.positions, HeldOf(mint)) {
      SumPut(map[], MovedOf(mint), Capital, e);
    }
  }

  // Adding an order.

  lemma AddOrder(p: Policy, s: Db, id: OrderId, o: Order)
    requires Structure(p, s)
    requires id !in s.orders && !PendingMint(s, o.mint) && RowOk(p, id, o) && o.status.Queued?
    requires o.side.BuySide? ==> !HeldMint(s, o.mint)
    requires o.side.SellSide? ==> ExitMatches(s.positions, o)
    ensures Structure(p, s.(orders := s.orders[id := o]))
  {
  }

  lemma ReserveBuyInv(p: Policy, s: Db, token: nat, signal: nat, mint: nat, at: int)
    requires Inv(p, s)
    ensures Inv(p, ReserveBuy(p, s, token, signal, mint, at).0)
  {
    var r := ReserveBuy(p, s, token, signal, mint, at);
    if r.1.Done? && r.1.id.Some? {
      var row := Order(mint, BuySide, Queued, p.entry, p.entry, None, None);
      AddOrder(p, s, Buy(signal), row);
      SumPut(s.orders, ActiveReserved, Buy(signal), row);
      SumPut(s.orders, PendingBuy, Buy(signal), row);
    }
  }

  lemma QueueExitInv(p: Policy, s: Db, token: nat, random: nat, q: OrderId, mint: nat, at: int)
    requires Inv(p, s)
    requires q in s.positions ==> s.positions[q].mint == mint
    ensures Inv(p, QueueExit(s, token, random, q, mint, at).0)
  {
    var r := QueueExit(s, token, random, q, mint, at);
    if r.1.Done? && r.1.id.Some? {
      var row := Order(mint, SellSide, Queued, s.positions[q].quantity, 0, Some(q), None);
      AddOrder(p, s, Exit(random), row);
      SumPut(s.orders, ActiveReserved, Exit(random), row);
      SumPut(s.orders, PendingBuy, Exit(random), row);
    }
  }

  // Moving an active order between active statuses.

  /** An order moves on in its life, with nothing else changed. */
  predicate Moved(orders: Orders, id: OrderId, o: Order) {
    id in orders && Active(orders[id]) && !o.status.Cancelled? &&
    o == orders[id].(status := o.status, saved := o.saved)
  }

  lemma MovedPending(p: Policy, orders: Orders, id: OrderId, o: Order)
    requires OrdersOk(p, orders) && OnePending(orders) && Moved(orders, id, o)
    ensures OrdersOk(p, orders[id := o]) && OnePending(orders[id := o])
  {
  }

  lemma MovedHeld(orders: Orders, positions: Positions, id: OrderId, o: Order)
    requires NeverBuyHeld(orders, positions) && ExitsMatch(orders, positions) && Moved(orders, id, o)
    ensures NeverBuyHeld(orders[id := o], positions) && ExitsMatch(orders[id := o], positions)
  {
  }

  /** Selling a position touches no other exit: no two active orders are for one mint. */
  lemma SoldHeld(orders: Orders, positions: Positions, id: OrderId, q: OrderId, profit: int)
    requires OnePending(orders) && OneOpen(positions)
    requires NeverBuyHeld(orders, positions) && ExitsMatch(orders, positions)
    requires id in orders && Active(orders[id]) && orders[id].side.SellSide? && orders[id].position == Some(q)
    ensures q in positions &&
            var after := positions[q := positions[q].(open := false, pnl := profit)];
            OneOpen(after) && NeverBuyHeld(orders[id := orders[id].(status := Filled)], after) &&
            ExitsMatch(orders[id := orders[id].(status := Filled)], after)
  {
  }

  lemma BoughtHeld(orders: Orders, positions: Positions, id: OrderId, q: Position)
    requires OnePending(orders) && OneOpen(positions)
    requires NeverBuyHeld(orders, positions) && ExitsMatch(orders, positions)
    requires id in orders && PendingBuy(orders[id]) == 1 && q.open && q.mint == orders[id].mint && id !in positions
    ensures OneOpen(positions[id := q]) &&
            NeverBuyHeld(orders[id := orders[id].(status := Filled)], positions[id := q]) &&
            ExitsMatch(orders[id := orders[id].(status := Filled)], positions[id := q])
  {
  }

  lemma MovedFiled(p: Policy, orders: Orders, positions: Positions, entries: Entries, id: OrderId, o: Order)
    requires Filed(p, orders, positions) && Settlements(p, orders, entries) && Moved(orders, id, o) && Active(o)
    ensures Filed(p, orders[id := o], positions) && Settlements(p, orders[id := o], entries)
  {
  }

  lemma SoldFiled(p: Policy, orders: Orders, positions: Positions, id: OrderId, q: OrderId, profit: int)
    requires Filed(p, orders, positions) && OrdersOk(p, orders) && id in orders && orders[id].side.SellSide?
    requires q in positions
    ensures Filed(p, orders[id := orders[id].(status := Filled)],
                  positions[q := positions[q].(open := false, pnl := profit)])
  {
    assert RowOk(p, id, orders[id]);
  }

  lemma RewriteOrder(p: Policy, s: Db, id: OrderId, o: Order)
    requires Structure(p, s)
    requires id in s.orders && Active(s.orders[id]) && Active(o)
    requires o == s.orders[id].(status := o.status, saved := o.saved)
    ensures Structure(p, s.(orders := s.orders[id := o]))
  {
    MovedPending(p, s.orders, id, o);
    MovedHeld(s.orders, s.positions, id, o);
    MovedFiled(p, s.orders, s.positions, s.entries, id, o);
  }

  lemma RewriteInv(p: Policy, s: Db, id: OrderId, o: Order)
    requires Inv(p, s)
    requires id in s.orders && Active(s.orders[id]) && Active(o)
    requires o == s.orders[id].(status := o.status, saved := o.saved)
    ensures Inv(p, s.(orders := s.orders[id := o]))
  {
    RewriteOrder(p, s, id, o);
    OrderSums(s, id, o);
  }

  lemma CheckInv(p: Policy, s: Db, token: nat, id: OrderId, pausing: bool, at: int)
    requires Inv(p, s)
    requires Holds(s, token, at) && id in s.orders ==> Active(s.orders[id])
    ensures Inv(p, Check(s, token, id, pausing, at).0)
  {
    if Holds(s, token, at) && id in s.orders {
      RewriteInv(p, s, id, s.orders[id].(status := Status.Checking));
    }
  }

  lemma PrepareInv(p: Policy, s: Db, token: nat, id: OrderId, saved: Saved, at: int)
    requires Inv(p, s)
    ensures Inv(p, Prepare(s, token, id, saved, at).0)
  {
    if Holds(s, token, at) && id in s.orders && s.orders[id].status.Queued? {
      var o := s.orders[id].(status := Prepared, saved := Some(saved));
      RewriteInv(p, s, id, o);
      LeaseInv(p, s.(orders := s.orders[id := o]), at + LEASE);
    }
  }

  // Resolving an order.

  /** The order columns after one order's row is rewritten. */
  lemma OrderSums(s: Db, id: OrderId, o: Order)
    requires id in s.orders
    ensures Sum(s.orders[id := o], ActiveReserved)
            == Sum(s.orders, ActiveReserved) - ActiveReserved(s.orders[id]) + ActiveReserved(o)
    ensures Sum(s.orders[id := o], PendingBuy)
            == Sum(s.orders, PendingBuy) - PendingBuy(s.orders[id]) + PendingBuy(o)
  {
    SumPut(s.orders, ActiveReserved, id, o);
    SumPut(s.orders, PendingBuy, id, o);
  }

  /** The entry columns after one settlement entry is appended. */
  lemma EntrySums(s: Db, id: OrderId, e: Entry)
    requires Settled(id) !in s.entries
    ensures Sum(s.entries[Settled(id) := e], CashDelta) == Sum(s.entries, CashDelta) + e.cash
    ensures Sum(s.entries[Settled(id) := e], SolDelta) == Sum(s.entries, SolDelta) + e.sol
    ensures Sum(s.entries[Settled(id) := e], GasPaid) == Sum(s.entries, GasPaid) + e.gas
    ensures Sum(s.entries[Settled(id) := e], FailedGas) == Sum(s.entries, FailedGas) + FailedGas(e)
    ensures forall m: nat :: Sum(s.entries[Settled(id) := e], MovedOf(m)) == Sum(s.entries, MovedOf(m)) + MovedOf(m)(e)
  {
    SumPut(s.entries, CashDelta, Settled(id), e);
    SumPut(s.entries, SolDelta, Settled(id), e);
    SumPut(s.entries, GasPaid, Settled(id), e);
    SumPut(s.entries, FailedGas, Settled(id), e);
    forall m: nat ensures Sum(s.entries[Settled(id) := e], MovedOf(m)) == Sum(s.entries, MovedOf(m)) + MovedOf(m)(e) {
      SumPut(s.entries, MovedOf(m), Settled(id), e);
    }
  }

  /** The position columns after one position's row is written. */
  lemma PositionSums(s: Db, id: OrderId, q: Position)
    ensures Sum(s.positions[id := q], OpenOne) ==
            Sum(s.positions, OpenOne) - Part(s.positions, OpenOne, id) + OpenOne(q)
    ensures Sum(s.positions[id := q], OpenCost) ==
            Sum(s.positions, OpenCost) - Part(s.positions, OpenCost, id) + OpenCost(q)
    ensures Sum(s.positions[id := q], OpenFee) ==
            Sum(s.positions, OpenFee) - Part(s.positions, OpenFee, id) + OpenFee(q)
    ensures Sum(s.positions[id := q], ClosedPnl) ==
            Sum(s.positions, ClosedPnl) - Part(s.positions, ClosedPnl, id) + ClosedPnl(q)
    ensures forall m: nat :: Sum(s.positions[id := q], HeldOf(m))
                             == Sum(s.positions, HeldOf(m)) - Part(s.positions, HeldOf(m), id) + HeldOf(m)(q)
  {
    SumPut(s.positions, OpenOne, id, q);
    SumPut(s.positions, OpenCost, id, q);
    SumPut(s.positions, OpenFee, id, q);
    SumPut(s.positions, ClosedPnl, id, q);
    forall m: nat ensures Sum(s.positions[id := q], HeldOf(m))
                          == Sum(s.positions, HeldOf(m)) - Part(s.positions, HeldOf(m), id) + HeldOf(m)(q) {
      SumPut(s.positions, HeldOf(m), id, q);
    }
  }

  /** What the three ways of resolving an order do to the structure. */
  lemma ResolveFailed(p: Policy, s: Db, id: OrderId, e: Entry)
    requires Structure(p, s) && id in s.orders && Active(s.orders[id])
    ensures Structure(p, s.(orders := s.orders[id := s.orders[id].(status := Failed)],
                            entries := s.entries[Settled(id) := e]))
  {
    var o := s.orders[id].(status := Failed);
    MovedPending(p, s.orders, id, o);
    MovedHeld(s.orders, s.positions, id, o);
  }

  lemma ResolveBought(p: Policy, s: Db, id: OrderId, e: Entry, q: Position)
    requires Structure(p, s) && id in s.orders && Active(s.orders[id]) && s.orders[id].side.BuySide?
    requires q.open && q.cost == p.entry && q.quantity > 0 && q.mint == s.orders[id].mint
    ensures Structure(p, s.(orders := s.orders[id := s.orders[id].(status := Filled)],
                            positions := s.positions[id := q], entries := s.entries[Settled(id) := e]))
  {
    MovedPending(p, s.orders, id, s.orders[id].(status := Filled));
    BoughtHeld(s.orders, s.positions, id, q);
  }

  lemma ResolveSold(p: Policy, s: Db, t: Db, id: OrderId, q: OrderId, e: Entry, profit: int)
    requires Structure(p, s) && id in s.orders && Active(s.orders[id]) && s.orders[id].side.SellSide?
    requires s.orders[id].position == Some(q) && q in s.positions
    requires t.orders == s.orders[id := s.orders[id].(status := Filled)]
    requires t.positions == s.positions[q := s.positions[q].(open := false, pnl := profit)]
    requires t.entries == s.entries[Settled(id) := e]
    ensures Structure(p, t)
  {
    MovedPending(p, s.orders, id, s.orders[id].(status := Filled));
    SoldHeld(s.orders, s.positions, id, q, profit);
    SoldFiled(p, s.orders, s.positions, id, q, profit);
  }

  /** One settlement: an order row, a position row and an entry are written, and the account moves with the entry. */
  lemma SettleMoney(p: Policy, s: Db, t: Db, id: OrderId, o: Order, k: OrderId, q: Position, e: Entry)
    requires Money(p, s) && id in s.orders && Settled(id) !in s.entries
    requires t.orders == s.orders[id := o] && t.positions == s.positions[k := q] &&
             t.entries == s.entries[Settled(id) := e]
    requires t.cash == s.cash + e.cash && t.sol == s.sol + e.sol && t.gas == s.gas + e.gas
    requires t.reserved == s.reserved - ActiveReserved(s.orders[id]) + ActiveReserved(o)
    requires AccountRow(t.cash, t.reserved, t.sol)
    requires OpenCost(q) - Part(s.positions, OpenCost, k) <= s.reserved - t.reserved
    requires OpenOne(q) - Part(s.positions, OpenOne, k) <= PendingBuy(s.orders[id]) - PendingBuy(o)
    requires e.cash + OpenCost(q) - Part(s.positions, OpenCost, k) - e.gas
             == t.realized - s.realized - (OpenFee(q) - Part(s.positions, OpenFee, k)) - FailedGas(e)
    requires ClosedPnl(q) - Part(s.positions, ClosedPnl, k) == t.realized - s.realized
    requires forall m: nat :: MovedOf(m)(e) == HeldOf(m)(q) - Part(s.positions, HeldOf(m), k)
    ensures Money(p, t)
  {
    OrderSums(s, id, o);
    EntrySums(s, id, e);
    PositionSums(s, k, q);
    forall m: nat ensures Sum(t.entries, MovedOf(m)) == Sum(t.positions, HeldOf(m)) {
      assert MovedOf(m)(e) == HeldOf(m)(q) - Part(s.positions, HeldOf(m), k);
    }
  }

  /** An active order that fails: its row and entry, and the account that pays the fee. */
  ghost predicate Dropped(s: Db, t: Db, id: OrderId, fee: int, gas: int) {
    id in s.orders && Active(s.orders[id]) && Settled(id) !in s.entries && AccountRow(t.cash, t.reserved, t.sol) &&
    var o := s.orders[id];
    t == s.(leaseUntil := t.leaseUntil, orders := s.orders[id := o.(status := Failed)],
            reserved := s.reserved - o.reserved, sol := s.sol - fee, gas := s.gas + gas,
            entries := s.entries[Settled(id) := Entry(FailedKind, 0, -fee, gas, None, 0)])
  }

  /** Apart from the lease, a failure changes nothing or drops an active order. */
  lemma FailCases(s: Db, token: nat, id: OrderId, fee: int, gas: int, at: int)
    ensures var t := FailOrder(s, token, id, fee, gas, at).0;
            t == s || t == s.(leaseUntil := at + LEASE) || Dropped(s, t, id, fee, gas)
  {
  }

  lemma DroppedMoney(p: Policy, s: Db, t: Db, id: OrderId, fee: int, gas: int)
    requires Money(p, s) && Dropped(s, t, id, fee, gas) && s.orders[id].reserved >= 0
    ensures Money(p, t)
  {
    EntrySums(s, id, Entry(FailedKind, 0, -fee, gas, None, 0));
    OrderSums(s, id, s.orders[id].(status := Failed));
  }

  lemma FailOrderInv(p: Policy, s: Db, token: nat, id: OrderId, fee: int, gas: int, at: int)
    requires Inv(p, s)
    ensures Inv(p, FailOrder(s, token, id, fee, gas, at).0)
  {
    FailCases(s, token, id, fee, gas, at);
    var t := FailOrder(s, token, id, fee, gas, at).0;
    if Dropped(s, t, id, fee, gas) {
      assert RowOk(p, id, s.orders[id]);
      DroppedMoney(p, s, t, id, fee, gas);
      ResolveFailed(p, s, id, Entry(FailedKind, 0, -fee, gas, None, 0));
    }
  }

  /** An active buy that fills: its row, position and entry, and the account that results. */
  ghost predicate Bought(s: Db, t: Db, id: OrderId, output: int, fee: int, gas: int) {
    id in s.orders && Active(s.orders[id]) && s.orders[id].side.BuySide? && output > 0 &&
        AccountRow(t.cash, t.reserved, t.sol) &&
    var o := s.orders[id];
    t == s.(leaseUntil := t.leaseUntil, positions := s.positions[id := Position(o.mint, true, output, o.input, gas, 0)],
            orders := s.orders[id := o.(status := Filled)],
            cash := s.cash - o.input, reserved := s.reserved - o.reserved, sol := s.sol - fee, gas := s.gas + gas,
            entries := s.entries[Settled(id) := Entry(BuyKind, -o.input, -fee, gas, Some(o.mint), output)])
  }

  /** An active exit that fills: the same for its position, and the profit realized. */
  ghost predicate Sold(s: Db, t: Db, id: OrderId, output: int, fee: int, gas: int) {
    id in s.orders && Active(s.orders[id]) && s.orders[id].side.SellSide? && output > 0 &&
        AccountRow(t.cash, t.reserved, t.sol) &&
    var o := s.orders[id];
    o.position.Some? && o.position.value in s.positions &&
    var q := s.positions[o.position.value];
    var profit := output - q.cost - q.entryFee - gas;
    t == s.(leaseUntil := t.leaseUntil, positions := s.positions[o.position.value := q.(open := false, pnl := profit)],
            orders := s.orders[id := o.(status := Filled)],
            cash := s.cash + output, reserved := s.reserved - o.reserved, sol := s.sol - fee, gas := s.gas + gas,
            realized := s.realized + profit,
            entries := s.entries[Settled(id) := Entry(SellKind, output, -fee, gas, Some(o.mint), -o.input)])
  }

  lemma FillBuyInv(p: Policy, s: Db, t: Db, id: OrderId, output: int, fee: int, gas: int)
    requires Inv(p, s) && Bought(s, t, id, output, fee, gas)
    ensures Inv(p, t)
  {
    var o := s.orders[id];
    var e := Entry(BuyKind, -o.input, -fee, gas, Some(o.mint), output);
    var q := Position(o.mint, true, output, o.input, gas, 0);
    assert RowOk(p, id, o) && Settled(id) !in s.entries && id !in s.positions;
    SettleMoney(p, s, t, id, o.(status := Filled), id, q, e);
    ResolveBought(p, s, id, e, q);
  }

  lemma SellMatches(p: Policy, s: Db, id: OrderId)
    requires p.Valid() && Structure(p, s) && id in s.orders && Active(s.orders[id]) && s.orders[id].side.SellSide?
    ensures RowOk(p, id, s.orders[id]) && Settled(id) !in s.entries && ExitMatches(s.positions, s.orders[id])
    ensures s.positions[s.orders[id].position.value].cost >= 0
  {
  }

  lemma SoldMoney(p: Policy, s: Db, t: Db, id: OrderId, output: int, fee: int, gas: int)
    requires Money(p, s) && Sold(s, t, id, output, fee, gas)
    requires RowOk(p, id, s.orders[id]) && Settled(id) !in s.entries && ExitMatches(s.positions, s.orders[id])
    requires s.positions[s.orders[id].position.value].cost >= 0
    ensures Money(p, t)
  {
    var o := s.orders[id];
    var e := Entry(SellKind, output, -fee, gas, Some(o.mint), -o.input);
    var q := s.positions[o.position.value];
    var profit := output - q.cost - q.entryFee - gas;
    SettleMoney(p, s, t, id, o.(status := Filled), o.position.value, q.(open := false, pnl := profit), e);
  }

  lemma FillSellInv(p: Policy, s: Db, t: Db, id: OrderId, output: int, fee: int, gas: int)
    requires Inv(p, s) && Sold(s, t, id, output, fee, gas)
    ensures Inv(p, t)
  {
    SellMatches(p, s, id);
    SoldMoney(p, s, t, id, output, fee, gas);
    var q := s.orders[id].position.value;
    ResolveSold(p, s, t, id, q, t.entries[Settled(id)], t.positions[q].pnl);
  }

  lemma LeaseInv(p: Policy, s: Db, until: int)
    requires Inv(p, s)
    ensures Inv(p, s.(leaseUntil := until))
  {
  }

  /** Apart from the lease, a fill changes nothing or settles an active order. */
  lemma FillCases(s: Db, token: nat, id: OrderId, input: int, output: int, fee: int, gas: int, at: int)
    ensures var (t, reply) := Fill(s, token, id, input, output, fee, gas, at);
            if reply.Raised? || !Active(s.orders[id]) then t == s || t == s.(leaseUntil := at + LEASE)
            else if s.orders[id].side.BuySide? then Bought(s, t, id, output, fee, gas)
            else Sold(s, t, id, output, fee, gas)
  {
  }

  lemma FillInv(p: Policy, s: Db, token: nat, id: OrderId, input: int, output: int, fee: int, gas: int, at: int)
    requires Inv(p, s)
    ensures Inv(p, Fill(s, token, id, input, output, fee, gas, at).0)
  {
    FillCases(s, token, id, input, output, fee, gas, at);
    var (t, reply) := Fill(s, token, id, input, output, fee, gas, at);
    if reply.Raised? || !Active(s.orders[id]) {
      LeaseInv(p, s, at + LEASE);
    } else if s.orders[id].side.BuySide? {
      FillBuyInv(p, s, t, id, output, fee, gas);
    } else {
      FillSellInv(p, s, t, id, output, fee, gas);
    }
  }

  // ------------------------------------------------------------ whole runs

  datatype Step = Acquiring(token: nat, at: int)
                | Releasing(token: nat)
                | Reserving(token: nat, signal: nat, mint: nat, at: int)
                | Exiting(token: nat, random: nat, position: OrderId, mint: nat, at: int)
                | Failing(token: nat, id: OrderId, fee: int, gas: int, at: int)
                | Filling(token: nat, id: OrderId, input: int, output: int, fee: int, gas: int, at: int)
                | Preparing(token: nat, id: OrderId, saved: Saved, at: int)
                | Marking(token: nat, id: OrderId, pausing: bool, at: int)
                | Pausing(paused: bool)

  ghost function Apply(p: Policy, s: Db, step: Step): Db {
    match step
    case Acquiring(token, at) => Acquire(s, token, at).0
    case Releasing(token) => Release(s, token)
    case Reserving(token, signal, mint, at) => ReserveBuy(p, s, token, signal, mint, at).0
    case Exiting(token, random, q, mint, at) => QueueExit(s, token, random, q, mint, at).0
    case Failing(token, id, fee, gas, at) => FailOrder(s, token, id, fee, gas, at).0
    case Filling(token, id, input, output, fee, gas, at) => Fill(s, token, id, input, output, fee, gas, at).0
    case Preparing(token, id, saved, at) => Prepare(s, token, id, saved, at).0
    case Marking(token, id, pausing, at) => Check(s, token, id, pausing, at).0
    case Pausing(paused) => s.(paused := paused)
  }

  /** How the engine calls the ledger: exits name a stored position's own mint, and the unguarded
      status writes of recover and review are made for an order that is still active. */
  ghost predicate Called(s: Db, step: Step) {
    match step
    case Exiting(_, _, q, mint, _) => q in s.positions ==> s.positions[q].mint == mint
    case Marking(token, id, _, at) => Holds(s, token, at) && id in s.orders ==> Active(s.orders[id])
    case _ => true
  }

  lemma StepInv(p: Policy, s: Db, step: Step)
    requires Inv(p, s) && Called(s, step)
    ensures Inv(p, Apply(p, s, step))
  {
    match step
    case Acquiring(token, at) =>
    case Releasing(token) =>
    case Reserving(token, signal, mint, at) => ReserveBuyInv(p, s, token, signal, mint, at);
    case Exiting(token, random, q, mint, at) => QueueExitInv(p, s, token, random, q, mint, at);
    case Failing(token, id, fee, gas, at) => FailOrderInv(p, s, token, id, fee, gas, at);
    case Filling(token, id, input, output, fee, gas, at) => FillInv(p, s, token, id, input, output, fee, gas, at);
    case Preparing(token, id, saved, at) => PrepareInv(p, s, token, id, saved, at);
    case Marking(token, id, pausing, at) => CheckInv(p, s, token, id, pausing, at);
    case Pausing(paused) =>
  }

  ghost function Run(p: Policy, s: Db, steps: seq<Step>): Db
    decreases |steps|
  {
    if steps == [] then s else Run(p, Apply(p, s, steps[0]), steps[1..])
  }

  ghost predicate RunCalled(p: Policy, s: Db, steps: seq<Step>)
    decreases |steps|
  {
    steps == [] || (Called(s, steps[0]) && RunCalled(p, Apply(p, s, steps[0]), steps[1..]))
  }

  lemma {:induction false} RunInv(p: Policy, s: Db, steps: seq<Step>)
    requires Inv(p, s) && RunCalled(p, s, steps)
    ensures Inv(p, Run(p, s, steps))
    decreases |steps|
  {
    if steps != [] {
      StepInv(p, s, steps[0]);
      RunInv(p, Apply(p, s, steps[0]), steps[1..]);
    }
  }

  /** Conservation and capacity over every run from the opening capital. */
  lemma EveryRun(p: Policy, mode: Mode, steps: seq<Step>)
    requires p.Valid() && RunCalled(p, Opening(p, mode), steps)
    ensures Inv(p, Run(p, Opening(p, mode), steps))
  {
    OpeningInv(p, mode);
    RunInv(p, Opening(p, mode), steps);
  }

  // --------------------------------------------------------- consequences

  /** For an active order, a fill of the reserved amount succeeds exactly when the paper entry gate
      is open and the fee is covered: no unique index, quantity check or other row check is hit. */
  lemma FillOutcome(p: Policy, s: Db, token: nat, id: OrderId, output: int, fee: int, gas: int, at: int)
    requires Inv(p, s) && id in s.orders && Active(s.orders[id])
    requires Holds(s, token, at) && output > 0 && fee >= 0 && gas >= 0
    ensures var o := s.orders[id];
            var r := Fill(s, token, id, o.input, output, fee, gas, at);
            && (r.1 == Done(None) <==> !(s.mode.Paper? && s.paused && o.side.BuySide?) && fee <= s.sol)
            && (r.1 == Done(None) ==>
                r.0.orders[id].status.Filled? && r.0.entries.Keys == s.entries.Keys + {Settled(id)})
            && (r.1 != Done(None) ==> r.0 == s)
  {
    var o := s.orders[id];
    SumBoundsActive(p, s, id);
    if o.side.BuySide? {
      assert RowOk(p, id, o);
    } else {
      assert ExitMatches(s.positions, o);
    }
  }

  lemma SumBoundsActive(p: Policy, s: Db, id: OrderId)
    requires Inv(p, s) && id in s.orders && Active(s.orders[id])
    ensures s.orders[id].reserved <= s.reserved
  {
    forall k | k in s.orders ensures ActiveReserved(s.orders[k]) >= 0 { assert RowOk(p, k, s.orders[k]); }
    SumBoundsRow(s.orders, ActiveReserved, id);
  }

  /** Failing an active order succeeds exactly when its fee is covered. */
  lemma FailOutcome(p: Policy, s: Db, token: nat, id: OrderId, fee: int, gas: int, at: int)
    requires Inv(p, s) && id in s.orders && Active(s.orders[id])
    requires Holds(s, token, at) && fee >= 0 && gas >= 0
    ensures var r := FailOrder(s, token, id, fee, gas, at);
            && (r.1 == Done(None) <==> fee <= s.sol)
            && (r.1 == Done(None) ==> r.0.orders[id].status.Failed? && Settled(id) in r.0.entries)
            && (r.1 != Done(None) ==> r.0 == s)
  {
    SumBoundsActive(p, s, id);
    assert RowOk(p, id, s.orders[id]);
  }

  /** A resolved order is final: no call of the engine changes its row or its settlement entry. */
  lemma ResolvedFinal(p: Policy, s: Db, step: Step, id: OrderId)
    requires Settlements(p, s.orders, s.entries) && Called(s, step) && id in s.orders && Resolved(s.orders[id])
    ensures var t := Apply(p, s, step);
            && id in t.orders && t.orders[id] == s.orders[id]
            && Settled(id) in s.entries && Settled(id) in t.entries && t.entries[Settled(id)] == s.entries[Settled(id)]
  {
    assert Settled(id) in s.entries;
    if step.Filling? {
      FillCases(s, step.token, step.id, step.input, step.output, step.fee, step.gas, step.at);
    }
  }
}
