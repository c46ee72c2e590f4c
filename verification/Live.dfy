/** Recovery of a signed order from chain evidence, as src/runner_trading/live.py does it. A chain view
    is the height of the block it ends at; one signed transaction exists per order. */
module Live {
  import opened Wrappers
  import opened Ledger
  import opened TradingDb

  /** A landed transaction: what it did to the dedicated wallet. A failed one only costs its fee. */
  datatype Receipt = Receipt(height: int, err: bool, fee: int, buy: bool, mint: nat, debit: int, credit: int,
                             clean: bool)

  /** The four replies recover reads, in the order it asks for them. */
  datatype Replies = Replies(slot: int, height: int, context: int, seen: bool, receipt: Option<Receipt>)

  datatype Verdict = Inconsistent | Settle(receipt: Receipt) | Expire | Leave | Resend

  function Decide(lastValid: int, r: Replies): Verdict {
    if r.context < r.slot then Inconsistent
    else if r.receipt.Some? then Settle(r.receipt.value)
    else if !r.seen && r.height > lastValid then Expire
    else if r.seen then Leave
    else Resend
  }

  const LAMPORTS := 1_000_000_000

  /** The fee in USDC, rounded up. */
  function Gas(fee: int, solPrice: int): int { (fee * solPrice + LAMPORTS - 1) / LAMPORTS }

  predicate FeeInScope(p: Policy, fee: int) { 0 <= fee <= p.maxFee }

  /** The finalized balance changes are exactly the checked order. */
  predicate Exact(o: Order, r: Receipt) {
    o.saved.Some? && r.debit == o.input && r.credit >= o.saved.value.minimum && r.clean
  }

  function SettleOrder(p: Policy, s: Db, token: nat, id: OrderId, o: Order, r: Receipt, at: int): (Db, Reply) {
    var gas := Gas(r.fee, if o.saved.Some? then o.saved.value.solPrice else 0);
    if !FeeInScope(p, r.fee) then Check(s, token, id, true, at)
    else if r.err then FailOrder(s, token, id, r.fee, gas, at)
    else if !Exact(o, r) then Check(s, token, id, true, at)
    else Fill(s, token, id, r.debit, r.credit, r.fee, gas, at)
  }

  /** The ledger after recover, called with a row o fetched earlier and given the four replies. */
  function Recover(p: Policy, s: Db, token: nat, id: OrderId, o: Order, r: Replies, at: int): (Db, Reply) {
    match Decide(if o.saved.Some? then o.saved.value.lastValid else 0, r)
    case Inconsistent => (s, Raised(StaleRead))
    case Settle(receipt) => SettleOrder(p, s, token, id, o, receipt, at)
    case Expire => FailOrder(s, token, id, 0, 0, at)
    case Leave => (s, Done(None))
    case Resend => Check(s, token, id, false, at)
  }

  class Executor {
    const account: Account

    constructor (account: Account)
      ensures this.account == account
    {
      this.account := account;
    }

    method RecoverOrder(token: nat, id: OrderId, row: Order, r: Replies, at: int) returns (reply: Reply)
      requires row.saved.Some?
      modifies account
      ensures (account.Snapshot(), reply) == Recover(account.policy, old(account.Snapshot()), token, id, row, r, at)
    {
      if r.context < r.slot { return Raised(StaleRead); }
      if r.receipt.Some? {
        reply := SettleReceipt(token, id, row, r.receipt.value, at);
        return;
      }
      if !r.seen && r.height > row.saved.value.lastValid {
        reply := account.Fail(token, id, 0, 0, at);
        return;
      }
      if r.seen { return Done(None); }
      reply := account.MarkChecking(token, id, false, at);
    }

    method SettleReceipt(token: nat, id: OrderId, row: Order, receipt: Receipt, at: int) returns (reply: Reply)
      requires row.saved.Some?
      modifies account
      ensures (account.Snapshot(), reply) == SettleOrder(account.policy, old(account.Snapshot()), token, id, row,
                                                         receipt, at)
    {
      var gas := (receipt.fee * row.saved.value.solPrice + LAMPORTS - 1) / LAMPORTS;
      if receipt.fee < 0 || receipt.fee > account.policy.maxFee {
        reply := account.MarkChecking(token, id, true, at);
      } else if receipt.err {
        reply := account.Fail(token, id, receipt.fee, gas, at);
      } else if receipt.debit != row.input || receipt.credit < row.saved.value.minimum || !receipt.clean {
        reply := account.MarkChecking(token, id, true, at);
      } else {
        reply := account.FillOrder(token, id, receipt.debit, receipt.credit, receipt.fee, gas, at);
      }
    }
  }
}
