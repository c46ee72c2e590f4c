/** API credits (src/runner_web/api_credits.py): an account with paid credits and free monthly and daily allowances,
    charged by requests that are reserved once and refunded when they fail. */
module Credits {
  import opened Wrappers
  import opened Sums

  datatype Operation = Snapshot | Tokens | Analysis | Wallet | History | TokenCheck | WalletScan

  function Price(op: Operation): nat {
    match op
    case Snapshot => 1
    case Tokens => 5
    case Analysis => 10
    case Wallet => 10
    case History => 25
    case TokenCheck => 25
    case WalletScan => 100
  }

  const FREE_MONTH := 1000
  const FREE_DAY := 100
  const QUEUE_LIMIT := 20
  const RUNNING_LIMIT := 2

  /** A calendar day: months are counted through the years, days within the month. */
  datatype Date = Date(month: nat, day: nat)

  predicate NotAfter(a: Date, b: Date) { a.month < b.month || (a.month == b.month && a.day <= b.day) }

  datatype Account = Account(paid: int, month: nat, day: Date, monthUsed: int, dayUsed: int)

  /** A request is known by its user and idempotency key. */
  datatype Id = Id(user: nat, key: nat)

  datatype Status = Reserved | Queued | Running | Complete | Failed

  datatype Request = Request(user: nat, fingerprint: nat, op: Operation, status: Status, free: int, paid: int,
                             month: nat, day: Date)

  datatype Db = Db(accounts: map<nat, Account>, requests: map<Id, Request>)

  datatype Error = OtherDetails | QueueBusy | BudgetBusy | JobRunning | NeedCredits(cost: int, available: int)

  predicate IsOpen(status: Status) { status.Reserved? || status.Queued? || status.Running? }

  predicate IsJob(status: Status) { status.Queued? || status.Running? }

  function Jobs(): Request -> int { (r: Request) => if IsJob(r.status) then 1 else 0 }

  function RunningJobs(): Request -> int { (r: Request) => if r.status.Running? then 1 else 0 }

  /** What a user is shown. */
  datatype Balance = Balance(paid: int, free: int, monthLeft: int, dayLeft: int, paidTier: bool, month: nat, day: Date)

  function Max(a: int, b: int): (m: int)
    ensures m >= a && m >= b && (m == a || m == b)
  {
    if a < b then b else a
  }

  function Min(a: int, b: int): (m: int)
    ensures m <= a && m <= b && (m == a || m == b)
  {
    if a < b then a else b
  }

  /** The account as of a day: a new month or a new day starts its allowance afresh. */
  function Rolled(s: Db, user: nat, at: Date): Account {
    if user !in s.accounts then Account(0, at.month, at, 0, 0)
    else
      var a := s.accounts[user];
      Account(a.paid, at.month, at, if a.month == at.month then a.monthUsed else 0,
              if a.day == at then a.dayUsed else 0)
  }

  function Roll(s: Db, user: nat, at: Date): Db { s.(accounts := s.accounts[user := Rolled(s, user, at)]) }

  predicate Busy(s: Db, user: nat) {
    exists i :: i in s.requests && s.requests[i].user == user && IsJob(s.requests[i].status)
  }

  /** What the allowances cover of a cost. */
  function FreePart(a: Account, cost: int, paidOnly: bool): int {
    if paidOnly then 0 else Min(cost, Min(FREE_MONTH - a.monthUsed, FREE_DAY - a.dayUsed))
  }

  ghost function JobRefusal(s: Db, user: nat, budget: bool): Option<Error> {
    if Sum(s.requests, Jobs()) >= QUEUE_LIMIT then Some(QueueBusy)
    else if !budget then Some(BudgetBusy)
    else if Busy(s, user) then Some(JobRunning)
    else None
  }

  /** The request that a charge writes. */
  function NewRequest(a: Account, id: Id, fingerprint: nat, op: Operation, paidOnly: bool): Request {
    var free := FreePart(a, Price(op), paidOnly);
    Request(id.user, fingerprint, op, if paidOnly then Queued else Reserved, free, Price(op) - free, a.month, a.day)
  }

  function Charged(s: Db, id: Id, fingerprint: nat, op: Operation, paidOnly: bool): Db
    requires id.user in s.accounts
  {
    var a := s.accounts[id.user];
    var r := NewRequest(a, id, fingerprint, op, paidOnly);
    Db(s.accounts[id.user := a.(paid := a.paid - r.paid, monthUsed := a.monthUsed + r.free,
                                dayUsed := a.dayUsed + r.free)],
       s.requests[id := r])
  }

  function ChargeAnswer(s: Db, id: Id, fingerprint: nat, op: Operation, paidOnly: bool): Result<(Request, bool), Error>
    requires id.user in s.accounts
  {
    var a := s.accounts[id.user];
    var r := NewRequest(a, id, fingerprint, op, paidOnly);
    if a.paid < r.paid then Err(NeedCredits(Price(op), a.paid + r.free)) else Ok((r, true))
  }

  /** A reservation; `budget` says that the shared provider budget allows the job. */
  ghost function Reserve(s: Db, id: Id, fingerprint: nat, op: Operation, paidOnly: bool, budget: bool, at: Date):
    (Db, Result<(Request, bool), Error>)
  {
    var t := Roll(s, id.user, at);
    if id in s.requests then
      if s.requests[id].fingerprint != fingerprint then (s, Err(OtherDetails)) else (t, Ok((s.requests[id], false)))
    else if paidOnly && JobRefusal(s, id.user, budget).Some? then (s, Err(JobRefusal(s, id.user, budget).value))
    else
      var answer := ChargeAnswer(t, id, fingerprint, op, paidOnly);
      (if answer.Ok? then Charged(t, id, fingerprint, op, paidOnly) else s, answer)
  }

  function Refunded(a: Account, r: Request): Account {
    a.(paid := a.paid + r.paid, monthUsed := a.monthUsed - (if a.month == r.month then r.free else 0),
       dayUsed := a.dayUsed - (if a.day == r.day then r.free else 0))
  }

  function Finish(s: Db, id: Id, failed: bool, at: Date): Db {
    if id !in s.requests then s
    else
      var r, t := s.requests[id], Roll(s, s.requests[id].user, at);
      if !IsOpen(r.status) then t
      else Db(if failed then t.accounts[r.user := Refunded(t.accounts[r.user], r)] else t.accounts,
              s.requests[id := r.(status := if failed then Failed else Complete)])
  }

  ghost function Start(s: Db, id: Id): Db {
    if id in s.requests && s.requests[id].status.Queued? && Sum(s.requests, RunningJobs()) < RUNNING_LIMIT
    then s.(requests := s.requests[id := s.requests[id].(status := Running)]) else s
  }

  /** Completed top-ups add their credits to the rolled account. */
  function AddCredits(s: Db, user: nat, credits: nat, at: Date): Db {
    var a := Rolled(s, user, at);
    s.(accounts := s.accounts[user := a.(paid := a.paid + credits)])
  }

  function Available(a: Account): int {
    var free := Min(FREE_MONTH - a.monthUsed, FREE_DAY - a.dayUsed);
    if free < 0 then 0 else free
  }

  // ------------------------------------------------------------ the tables

  class CreditsDb {
    var accounts: map<nat, Account>
    var requests: map<Id, Request>

    ghost function Snapshot(): Db
      reads this
    {
      Db(accounts, requests)
    }

    constructor ()
      ensures Snapshot() == Db(map[], map[])
    {
      accounts, requests := map[], map[];
    }

    method RollAccount(user: nat, at: Date) returns (a: Account)
      modifies this`accounts
      ensures Snapshot() == Roll(old(Snapshot()), user, at)
      ensures a == Rolled(old(Snapshot()), user, at)
    {
      if user !in accounts {
        accounts := accounts[user := Account(0, at.month, at, 0, 0)];
      }
      a := accounts[user];
      a := a.(monthUsed := if a.month == at.month then a.monthUsed else 0,
              dayUsed := if a.day == at then a.dayUsed else 0, month := at.month, day := at);
      accounts := accounts[user := a];
    }

    method CheckJobs(user: nat, budget: bool) returns (refusal: Option<Error>)
      ensures refusal == JobRefusal(Snapshot(), user, budget)
    {
      var jobs := SumRows(requests, Jobs());
      if jobs >= QUEUE_LIMIT { return Some(QueueBusy); }
      if !budget { return Some(BudgetBusy); }
      if exists i :: i in requests && requests[i].user == user && IsJob(requests[i].status) { return Some(JobRunning); }
      return None;
    }

    /** A refusal undoes the whole transaction. */
    method ReserveRequest(id: Id, fingerprint: nat, op: Operation, paidOnly: bool, budget: bool, at: Date)
      returns (r: Result<(Request, bool), Error>)
      modifies this
      ensures (Snapshot(), r) == Reserve(old(Snapshot()), id, fingerprint, op, paidOnly, budget, at)
    {
      var before := accounts;
      var a := RollAccount(id.user, at);
      if id in requests {
        if requests[id].fingerprint != fingerprint {
          accounts := before;
          return Err(OtherDetails);
        }
        return Ok((requests[id], false));
      }
      if paidOnly {
        var refusal := CheckJobs(id.user, budget);
        if refusal.Some? {
          accounts := before;
          return Err(refusal.value);
        }
      }
      r := Charge(id, fingerprint, op, paidOnly);
      if r.Err? { accounts := before; }
    }

    /** The charge, over an account rolled to today. */
    method Charge(id: Id, fingerprint: nat, op: Operation, paidOnly: bool) returns (r: Result<(Request, bool), Error>)
      requires id.user in accounts
      modifies this
      ensures Snapshot() == (if r.Ok? then Charged(old(Snapshot()), id, fingerprint, op, paidOnly) else old(Snapshot()))
      ensures r == ChargeAnswer(old(Snapshot()), id, fingerprint, op, paidOnly)
    {
      var a := accounts[id.user];
      var cost := Price(op);
      var free := FreePart(a, cost, paidOnly);
      var paid := cost - free;
      if a.paid < paid { return Err(NeedCredits(cost, a.paid + free)); }
      accounts := accounts[id.user := a.(paid := a.paid - paid, monthUsed := a.monthUsed + free,
                                         dayUsed := a.dayUsed + free)];
      var row := Request(id.user, fingerprint, op, if paidOnly then Queued else Reserved, free, paid, a.month, a.day);
      requests := requests[id := row];
      return Ok((row, true));
    }

    method FinishRequest(id: Id, failed: bool, at: Date)
      modifies this
      ensures Snapshot() == Finish(old(Snapshot()), id, failed, at)
    {
      if id !in requests { return; }
      var row := requests[id];
      var a := RollAccount(row.user, at);
      if IsOpen(row.status) {
        requests := requests[id := row.(status := if failed then Failed else Complete)];
        if failed {
          accounts := accounts[row.user := a.(paid := a.paid + row.paid,
                                              monthUsed := a.monthUsed - (if a.month == row.month then row.free else 0),
                                              dayUsed := a.dayUsed - (if a.day == row.day then row.free else 0))];
        }
      }
    }

    method StartJob(id: Id)
      modifies this`requests
      ensures Snapshot() == Start(old(Snapshot()), id)
    {
      var running := SumRows(requests, RunningJobs());
      if running < RUNNING_LIMIT && id in requests && requests[id].status.Queued? {
        requests := requests[id := requests[id].(status := Running)];
      }
    }

    method GetBalance(user: nat, at: Date) returns (b: Balance)
      modifies this`accounts
      ensures Snapshot() == Roll(old(Snapshot()), user, at)
      ensures var a := Rolled(old(Snapshot()), user, at);
              b == Balance(a.paid, Available(a), Max(0, FREE_MONTH - a.monthUsed), Max(0, FREE_DAY - a.dayUsed),
                           a.paid > 0,
                           at.month, at)
    {
      var a := RollAccount(user, at);
      var free := Max(0, Min(FREE_MONTH - a.monthUsed, FREE_DAY - a.dayUsed));
      return Balance(a.paid, free, Max(0, FREE_MONTH - a.monthUsed), Max(0, FREE_DAY - a.dayUsed), a.paid > 0,
                     a.month, a.day);
    }
  }
}
