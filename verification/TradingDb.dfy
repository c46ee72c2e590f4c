/** The account row and its tables as the ledger's transactions update them in place. Each method is
    one transaction; returning early with an error leaves every field as it was, as a rollback does. */
module TradingDb {
  import opened Wrappers
  import opened Sums
  import opened Ledger

  class Account {
    const policy: Policy
    const mode: Mode
    var paused: bool
    var cash: int
    var reserved: int
    var sol: int
    var gas: int
    var realized: int
    var leaseToken: Option<nat>
    var leaseUntil: int
    var orders: map<OrderId, Order>
    var positions: map<OrderId, Position>
    var entries: map<EntryId, Entry>

    ghost function Snapshot(): Db
      reads this
    {
      Db(mode, paused, cash, reserved, sol, gas, realized, leaseToken, leaseUntil, orders, positions, entries)
    }

    /** ensure_account on an account that does not exist yet. */
    constructor (policy: Policy, mode: Mode)
      ensures this.policy == policy && Snapshot() == Opening(policy, mode)
    {
      this.policy, this.mode := policy, mode;
      paused, leaseToken, leaseUntil := false, None, 0;
      cash, reserved, sol, gas, realized := policy.initialUsdc, 0, policy.initialSol, 0, 0;
      orders, positions := map[], map[];
      entries := map[Capital := Entry(CapitalKind, policy.initialUsdc, policy.initialSol, 0, None, 0)];
    }

    method AcquireLease(token: nat, at: int) returns (got: bool)
      modifies this
      ensures (Snapshot(), got) == Acquire(old(Snapshot()), token, at)
    {
      got := leaseToken == None || leaseUntil < at;
      if got {
        leaseToken, leaseUntil := Some(token), at + LEASE;
      }
    }

    method ReleaseLease(token: nat)
      modifies this
      ensures Snapshot() == Release(old(Snapshot()), token)
    {
      if leaseToken == Some(token) {
        leaseToken := None;
      }
    }

    /** The guarded lease extension that opens every transaction. */
    method Locked(token: nat, at: int) returns (held: bool)
      modifies this`leaseUntil
      ensures held == Holds(old(Snapshot()), token, at)
      ensures leaseUntil == if held then at + LEASE else old(leaseUntil)
    {
      held := leaseToken == Some(token) && leaseUntil >= at;
      if held {
        leaseUntil := at + LEASE;
      }
    }

    method ReserveEntry(token: nat, signal: nat, mint: nat, at: int) returns (reply: Reply)
      modifies this
      ensures (Snapshot(), reply) == ReserveBuy(policy, old(Snapshot()), token, signal, mint, at)
    {
      var held := Locked(token, at);
      if !held { return Raised(LeaseExpired); }
      var open := SumRows(positions, OpenOne);
      var cost := SumRows(positions, OpenCost);
      var pending := SumRows(orders, PendingBuy);
      if paused || open + pending >= policy.maxPositions || cash - reserved < policy.entry
         || cost + reserved + policy.entry > policy.maxExposure
         || sol < policy.minSol + (pending + 1) * policy.maxFee {
        return Done(None);
      }
      if exists q :: q in positions && positions[q].open && positions[q].mint == mint { return Done(None); }
      var id := Buy(signal);
      if id in orders || exists o :: o in orders && Active(orders[o]) && orders[o].mint == mint { return Done(None); }
      orders := orders[id := Order(mint, BuySide, Queued, policy.entry, policy.entry, None, None)];
      reserved := reserved + policy.entry;
      return Done(Some(id));
    }

    method QueueSale(token: nat, random: nat, position: OrderId, mint: nat, at: int) returns (reply: Reply)
      modifies this
      ensures (Snapshot(), reply) == QueueExit(old(Snapshot()), token, random, position, mint, at)
    {
      var held := Locked(token, at);
      if !held { return Raised(LeaseExpired); }
      if position !in positions || !positions[position].open { return Done(None); }
      var id := Exit(random);
      if id in orders || exists o :: o in orders && Active(orders[o]) && orders[o].mint == mint { return Done(None); }
      orders := orders[id := Order(mint, SellSide, Queued, positions[position].quantity, 0, Some(position), None)];
      return Done(Some(id));
    }

    method Fail(token: nat, id: OrderId, fee: int, gasPaid: int, at: int) returns (reply: Reply)
      modifies this
      ensures (Snapshot(), reply) == FailOrder(old(Snapshot()), token, id, fee, gasPaid, at)
    {
      if fee < 0 || gasPaid < 0 { return Raised(BadAmounts); }
      var before := leaseUntil;
      var held := Locked(token, at);
      if !held { return Raised(LeaseExpired); }
      if id !in orders || orders[id].status in {Filled, Failed, Cancelled} { return Done(None); }
      var order := orders[id];
      if !AccountRow(cash, reserved - order.reserved, sol - fee) || Settled(id) in entries {
        leaseUntil := before;
        return Raised(Integrity);
      }
      orders := orders[id := order.(status := Failed)];
      reserved, sol, gas := reserved - order.reserved, sol - fee, gas + gasPaid;
      entries := entries[Settled(id) := Entry(FailedKind, 0, -fee, gasPaid, None, 0)];
      return Done(None);
    }

    method FillOrder(token: nat, id: OrderId, input: int, output: int, fee: int, gasPaid: int, at: int)
      returns (reply: Reply)
      modifies this
      ensures (Snapshot(), reply) == Fill(old(Snapshot()), token, id, input, output, fee, gasPaid, at)
    {
      if input <= 0 || output <= 0 || fee < 0 || gasPaid < 0 { return Raised(BadAmounts); }
      if leaseToken != Some(token) || leaseUntil < at { return Raised(LeaseExpired); }
      if id !in orders { return Raised(OrderMissing); }
      var order := orders[id];
      if order.status.Filled? {
        leaseUntil := at + LEASE;
        return Done(None);
      }
      if !Active(order) { return Raised(AlreadyResolved); }
      if input != order.input { return Raised(InputDiffers); }
      if order.side.BuySide? {
        reply := OpenPosition(id, order, input, output, fee, gasPaid, at);
      } else {
        reply := ClosePosition(id, order, input, output, fee, gasPaid, at);
      }
    }

    /** The half that both sides share: the account, the order and its entry, unless a row check fails. */
    method Book(id: OrderId, order: Order, cashDelta: int, fee: int, gasPaid: int, profit: int, entry: Entry, at: int)
      returns (ok: bool)
      modifies this
      ensures ok <==> AccountRow(old(cash) + cashDelta, old(reserved) - order.reserved, old(sol) - fee) &&
                      Settled(id) !in old(entries)
      ensures Snapshot() ==
              if !ok then old(Snapshot())
              else old(Snapshot()).(leaseUntil := at + LEASE, cash := old(cash) + cashDelta,
                                    reserved := old(reserved) - order.reserved, sol := old(sol) - fee,
                                    gas := old(gas) + gasPaid, realized := old(realized) + profit,
                                    orders := old(orders)[id := order.(status := Filled)],
                                    entries := old(entries)[Settled(id) := entry])
    {
      if !AccountRow(cash + cashDelta, reserved - order.reserved, sol - fee) || Settled(id) in entries { return false; }
      leaseUntil := at + LEASE;
      cash, reserved, sol, gas := cash + cashDelta, reserved - order.reserved, sol - fee, gas + gasPaid;
      realized := realized + profit;
      orders := orders[id := order.(status := Filled)];
      entries := entries[Settled(id) := entry];
      return true;
    }

    /** The buying half of a fill: a new position row. */
    method OpenPosition(id: OrderId, order: Order, input: int, output: int, fee: int, gasPaid: int, at: int)
      returns (reply: Reply)
      modifies this
      ensures (Snapshot(), reply) == FillBuy(old(Snapshot()).(leaseUntil := at + LEASE), old(Snapshot()),
                                             id, order, input, output, fee, gasPaid)
    {
      if mode.Paper? && paused { return Raised(EntriesPaused); }
      if id in positions || exists q :: q in positions && positions[q].open && positions[q].mint == order.mint {
        return Raised(Integrity);
      }
      var entry := Entry(BuyKind, -input, -fee, gasPaid, Some(order.mint), output);
      var ok := Book(id, order, -input, fee, gasPaid, 0, entry, at);
      if !ok { return Raised(Integrity); }
      positions := positions[id := Position(order.mint, true, output, input, gasPaid, 0)];
      return Done(None);
    }

    /** The selling half: the position row closes with its profit. */
    method ClosePosition(id: OrderId, order: Order, input: int, output: int, fee: int, gasPaid: int, at: int)
      returns (reply: Reply)
      modifies this
      ensures (Snapshot(), reply) == FillSell(old(Snapshot()).(leaseUntil := at + LEASE), old(Snapshot()),
                                              id, order, input, output, fee, gasPaid)
    {
      if order.position == None || order.position.value !in positions || !positions[order.position.value].open
         || positions[order.position.value].quantity != input { return Raised(QuantityDiffers); }
      var row := positions[order.position.value];
      var profit := output - row.cost - row.entryFee - gasPaid;
      var entry := Entry(SellKind, output, -fee, gasPaid, Some(order.mint), -input);
      var ok := Book(id, order, output, fee, gasPaid, profit, entry, at);
      if !ok { return Raised(Integrity); }
      positions := positions[order.position.value := row.(open := false, pnl := profit)];
      return Done(None);
    }

    method SavePrepared(token: nat, id: OrderId, saved: Saved, at: int) returns (reply: Reply)
      modifies this
      ensures (Snapshot(), reply) == Prepare(old(Snapshot()), token, id, saved, at)
    {
      var before := leaseUntil;
      var held := Locked(token, at);
      if !held { return Raised(LeaseExpired); }
      if id in orders && orders[id].side.BuySide? && paused {
        leaseUntil := before;
        return Raised(EntriesPaused);
      }
      if id in orders && orders[id].status.Queued? {
        orders := orders[id := orders[id].(status := Prepared, saved := Some(saved))];
      }
      return Done(None);
    }

    method MarkChecking(token: nat, id: OrderId, pausing: bool, at: int) returns (reply: Reply)
      modifies this
      ensures (Snapshot(), reply) == Check(old(Snapshot()), token, id, pausing, at)
    {
      var held := Locked(token, at);
      if !held { return Raised(LeaseExpired); }
      if id in orders {
        orders := orders[id := orders[id].(status := Checking)];
      }
      if pausing {
        paused := true;
      }
      return Done(None);
    }
  }
}
