/** The trading ledger: one account row, its orders, positions and append-only entries, as the
    transactions of src/runner_trading/ledger.py change them. Every transaction is atomic and an
    exception rolls it back. Amounts, times and identifiers are integers; an order identifier is
    the digest of its signal ("buy") or a fresh random token ("sell"), which never coincide. */
module Ledger {
  import opened Wrappers
  import opened Sums

  datatype Mode = Paper | Live
  datatype Side = BuySide | SellSide
  datatype Status = Queued | Prepared | Submitted | Checking | Filled | Failed | Cancelled
  datatype OrderId = Buy(signal: nat) | Exit(token: nat)
  datatype EntryId = Capital | Settled(order: OrderId)
  datatype Kind = CapitalKind | BuyKind | SellKind | FailedKind

  /** What prepare stores beside the signature: the expiry height, the quote's minimum and the price of SOL. */
  datatype Saved = Saved(lastValid: int, minimum: int, solPrice: int)

  datatype Order = Order(mint: nat, side: Side, status: Status, input: int, reserved: int,
                         position: Option<OrderId>, saved: Option<Saved>)
  datatype Position = Position(mint: nat, open: bool, quantity: int, cost: int, entryFee: int, pnl: int)
  datatype Entry = Entry(kind: Kind, cash: int, sol: int, gas: int, mint: Option<nat>, quantity: int)

  datatype Policy = Policy(initialUsdc: int, initialSol: int, entry: int, maxPositions: int,
                           maxExposure: int, minSol: int, maxFee: int)
  {
    predicate Valid() {
      && 0 < entry <= maxExposure <= initialUsdc
      && 0 < minSol <= initialSol
      && 0 < maxPositions && 0 < maxFee
    }
  }

  datatype Db = Db(mode: Mode, paused: bool, cash: int, reserved: int, sol: int, gas: int, realized: int,
                   leaseToken: Option<nat>, leaseUntil: int,
                   orders: map<OrderId, Order>, positions: map<OrderId, Position>, entries: map<EntryId, Entry>)

  datatype Error = StaleRead | LeaseExpired | BadAmounts | OrderMissing | AlreadyResolved | InputDiffers
                 | EntriesPaused | QuantityDiffers | Integrity
  datatype Reply = Done(id: Option<OrderId>) | Raised(error: Error)

  const LEASE := 180

  // ---------------------------------------------------------------- columns

  predicate Active(o: Order) { o.status.Queued? || o.status.Prepared? || o.status.Submitted? || o.status.Checking? }
  function ActiveReserved(o: Order): int { if Active(o) then o.reserved else 0 }
  function PendingBuy(o: Order): int { if Active(o) && o.side.BuySide? then 1 else 0 }
  function OpenOne(q: Position): int { if q.open then 1 else 0 }
  function OpenCost(q: Position): int { if q.open then q.cost else 0 }
  function ClosedPnl(q: Position): int { if q.open then 0 else q.pnl }
  function OpenFee(q: Position): int { if q.open then q.entryFee else 0 }
  function CashDelta(e: Entry): int { e.cash }
  function SolDelta(e: Entry): int { e.sol }
  function GasPaid(e: Entry): int { e.gas }
  function FailedGas(e: Entry): int { if e.kind.FailedKind? then e.gas else 0 }
  function MovedOf(mint: nat): Entry -> int { (e: Entry) => if e.mint == Some(mint) then e.quantity else 0 }
  function HeldOf(mint: nat): Position -> int { (q: Position) => if q.open && q.mint == mint then q.quantity else 0 }

  predicate HeldMint(s: Db, mint: nat) {
    exists q :: q in s.positions && s.positions[q].open && s.positions[q].mint == mint
  }

  predicate PendingMint(s: Db, mint: nat) {
    exists id :: id in s.orders && Active(s.orders[id]) && s.orders[id].mint == mint
  }

  // ----------------------------------------------------------- transactions

  predicate Holds(s: Db, token: nat, at: int) { s.leaseToken == Some(token) && s.leaseUntil >= at }

  function Acquire(s: Db, token: nat, at: int): (Db, bool) {
    if s.leaseToken == None || s.leaseUntil < at
    then (s.(leaseToken := Some(token), leaseUntil := at + LEASE), true)
    else (s, false)
  }

  function Release(s: Db, token: nat): Db {
    if s.leaseToken == Some(token) then s.(leaseToken := None) else s
  }

  ghost predicate EntryRefused(p: Policy, s: Db) {
    var pending := Sum(s.orders, PendingBuy);
    || s.paused
    || Sum(s.positions, OpenOne) + pending >= p.maxPositions
    || s.cash - s.reserved < p.entry
    || Sum(s.positions, OpenCost) + s.reserved + p.entry > p.maxExposure
    || s.sol < p.minSol + (pending + 1) * p.maxFee
  }

  ghost function ReserveBuy(p: Policy, s: Db, token: nat, signal: nat, mint: nat, at: int): (Db, Reply) {
    if !Holds(s, token, at) then (s, Raised(LeaseExpired))
    else
      var t := s.(leaseUntil := at + LEASE);
      if EntryRefused(p, s) || HeldMint(s, mint) || Buy(signal) in s.orders || PendingMint(s, mint) then (t, Done(None))
      else
        var row := Order(mint, BuySide, Queued, p.entry, p.entry, None, None);
        (t.(orders := s.orders[Buy(signal) := row], reserved := s.reserved + p.entry), Done(Some(Buy(signal))))
  }

  function QueueExit(s: Db, token: nat, random: nat, position: OrderId, mint: nat, at: int): (Db, Reply) {
    if !Holds(s, token, at) then (s, Raised(LeaseExpired))
    else
      var t := s.(leaseUntil := at + LEASE);
      if position !in s.positions || !s.positions[position].open then (t, Done(None))
      else if Exit(random) in s.orders || PendingMint(s, mint) then (t, Done(None))
      else
        var row := Order(mint, SellSide, Queued, s.positions[position].quantity, 0, Some(position), None);
        (t.(orders := s.orders[Exit(random) := row]), Done(Some(Exit(random))))
  }

  /** The CHECK constraints of the account row. */
  predicate AccountRow(cash: int, reserved: int, sol: int) { 0 <= reserved <= cash && 0 <= sol }

  function FailOrder(s: Db, token: nat, id: OrderId, fee: int, gas: int, at: int): (Db, Reply) {
    if fee < 0 || gas < 0 then (s, Raised(BadAmounts))
    else if !Holds(s, token, at) then (s, Raised(LeaseExpired))
    else
      var t := s.(leaseUntil := at + LEASE);
      if id !in s.orders || s.orders[id].status in {Filled, Failed, Cancelled} then (t, Done(None))
      else
        var o := s.orders[id];
        if !AccountRow(s.cash, s.reserved - o.reserved, s.sol - fee) || Settled(id) in s.entries
        then (s, Raised(Integrity))
        else (t.(orders := s.orders[id := o.(status := Failed)],
                 reserved := s.reserved - o.reserved, sol := s.sol - fee, gas := s.gas + gas,
                 entries := s.entries[Settled(id) := Entry(FailedKind, 0, -fee, gas, None, 0)]), Done(None))
  }

  function Fill(s: Db, token: nat, id: OrderId, input: int, output: int, fee: int, gas: int, at: int): (Db, Reply) {
    if input <= 0 || output <= 0 || fee < 0 || gas < 0 then (s, Raised(BadAmounts))
    else if !Holds(s, token, at) then (s, Raised(LeaseExpired))
    else if id !in s.orders then (s, Raised(OrderMissing))
    else
      var o := s.orders[id];
      var t := s.(leaseUntil := at + LEASE);
      if o.status.Filled? then (t, Done(None))
      else if !Active(o) then (s, Raised(AlreadyResolved))
      else if input != o.input then (s, Raised(InputDiffers))
      else if o.side.BuySide? then FillBuy(t, s, id, o, input, output, fee, gas)
      else FillSell(t, s, id, o, input, output, fee, gas)
  }

  /** t is the state the transaction works on, s the one it rolls back to. */
  function FillBuy(t: Db, s: Db, id: OrderId, o: Order, input: int, output: int, fee: int, gas: int): (Db, Reply) {
    if s.mode.Paper? && s.paused then (s, Raised(EntriesPaused))
    else if id in s.positions || HeldMint(s, o.mint) then (s, Raised(Integrity))
    else if !AccountRow(s.cash - input, s.reserved - o.reserved, s.sol - fee) || Settled(id) in s.entries
    then (s, Raised(Integrity))
    else (t.(positions := s.positions[id := Position(o.mint, true, output, input, gas, 0)],
             orders := s.orders[id := o.(status := Filled)],
             cash := s.cash - input, reserved := s.reserved - o.reserved,
             sol := s.sol - fee, gas := s.gas + gas,
             entries := s.entries[Settled(id) := Entry(BuyKind, -input, -fee, gas, Some(o.mint), output)]), Done(None))
  }

  function FillSell(t: Db, s: Db, id: OrderId, o: Order, input: int, output: int, fee: int, gas: int): (Db, Reply) {
    if o.position == None || o.position.value !in s.positions
       || !s.positions[o.position.value].open || s.positions[o.position.value].quantity != input
    then (s, Raised(QuantityDiffers))
    else
      var q := s.positions[o.position.value];
      var profit := output - q.cost - q.entryFee - gas;
      if !AccountRow(s.cash + output, s.reserved - o.reserved, s.sol - fee) || Settled(id) in s.entries
      then (s, Raised(Integrity))
      else (t.(positions := s.positions[o.position.value := q.(open := false, pnl := profit)],
               orders := s.orders[id := o.(status := Filled)],
               cash := s.cash + output, reserved := s.reserved - o.reserved,
               sol := s.sol - fee, gas := s.gas + gas, realized := s.realized + profit,
               entries := s.entries[Settled(id) := Entry(SellKind, output, -fee, gas, Some(o.mint), -input)]),
            Done(None))
  }

  /** An unguarded status write, as recover and review make (src/runner_trading/live.py:340-345,442-449). */
  function Check(s: Db, token: nat, id: OrderId, pausing: bool, at: int): (Db, Reply) {
    if !Holds(s, token, at) then (s, Raised(LeaseExpired))
    else
      var orders := if id in s.orders then s.orders[id := s.orders[id].(status := Checking)] else s.orders;
      (s.(leaseUntil := at + LEASE, orders := orders, paused := s.paused || pausing), Done(None))
  }

  /** The durable half of prepare (src/runner_trading/live.py:282-302). */
  function Prepare(s: Db, token: nat, id: OrderId, saved: Saved, at: int): (Db, Reply) {
    if !Holds(s, token, at) then (s, Raised(LeaseExpired))
    else if id in s.orders && s.orders[id].side.BuySide? && s.paused then (s, Raised(EntriesPaused))
    else if id !in s.orders || !s.orders[id].status.Queued? then (s.(leaseUntil := at + LEASE), Done(None))
    else (s.(leaseUntil := at + LEASE,
             orders := s.orders[id := s.orders[id].(status := Prepared, saved := Some(saved))]), Done(None))
  }

  function Opening(p: Policy, mode: Mode): Db {
    Db(mode, false, p.initialUsdc, 0, p.initialSol, 0, 0, None, 0, map[], map[],
       map[Capital := Entry(CapitalKind, p.initialUsdc, p.initialSol, 0, None, 0)])
  }
}
