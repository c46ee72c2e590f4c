/** Conservation of credits over every run, and what the calendar has to do with it. */
module CreditsProofs {
  import opened Wrappers
  import opened Sums
  import opened Credits

  /** `archive` keeps the `pruned` requests, `topped` every user's completed top-ups, `today` the calendar. */
  datatype World = World(db: Db, archive: map<nat, Request>, pruned: nat, topped: map<nat, int>, today: Date)

  datatype Event =
    | Reserved(id: Id, fingerprint: nat, op: Operation, paidOnly: bool, budget: bool)
    | Finished(id: Id, failed: bool)
    | Started(id: Id)
    | ToppedUp(user: nat, credits: nat)
    | Looked(user: nat)
    | Pruned(id: Id)
    | Turned(today: Date)

  const OPENING := World(Db(map[], map[]), map[], 0, map[], Date(0, 0))

  function Topped(topped: map<nat, int>, user: nat): int { if user in topped then topped[user] else 0 }

  ghost function Perform(w: World, e: Event): World {
    match e
    case Reserved(id, fingerprint, op, paidOnly, budget) =>
      w.(db := Reserve(w.db, id, fingerprint, op, paidOnly, budget, w.today).0)
    case Finished(id, failed) => w.(db := Finish(w.db, id, failed, w.today))
    case Started(id) => w.(db := Start(w.db, id))
    case ToppedUp(user, credits) =>
      w.(db := AddCredits(w.db, user, credits, w.today), topped := w.topped[user := Topped(w.topped, user) + credits])
    case Looked(user) => RolledWorld(w, user)
    case Pruned(id) =>
      if id in w.db.requests && !IsOpen(w.db.requests[id].status) then
        w.(db := w.db.(requests := w.db.requests - {id}), archive := w.archive[w.pruned := w.db.requests[id]],
           pruned := w.pruned + 1)
      else w
    case Turned(today) => w.(today := today)
  }

  ghost function Run(es: seq<Event>): World
    decreases |es|
  {
    if es == [] then OPENING else Perform(Run(es[..|es| - 1]), es[|es| - 1])
  }

  // ------------------------------------------------------------ what every run keeps

  predicate Kept(r: Request, user: nat) { r.user == user && !r.status.Failed? }

  function Charged(user: nat): Request -> int { (r: Request) => if Kept(r, user) then r.paid else 0 }

  function InMonth(user: nat, month: nat): Request -> int {
    (r: Request) => if Kept(r, user) && r.month == month then r.free else 0
  }

  function InDay(user: nat, day: Date): Request -> int {
    (r: Request) => if Kept(r, user) && r.day == day then r.free else 0
  }

  /** A user's own jobs. */
  function JobsOf(user: nat): Request -> int { (r: Request) => if r.user == user && IsJob(r.status) then 1 else 0 }

  ghost function Total(w: World, f: Request -> int): int { Sum(w.db.requests, f) + Sum(w.archive, f) }

  predicate RowOk(r: Request, accounts: map<nat, Account>) {
    r.free >= 0 && r.paid >= 0 && r.free + r.paid == Price(r.op) && r.month == r.day.month &&
    r.user in accounts && (IsJob(r.status) ==> r.free == 0)
  }

  predicate Rows(requests: map<Id, Request>, accounts: map<nat, Account>) {
    forall id :: id in requests ==> RowOk(requests[id], accounts) && requests[id].user == id.user
  }

  predicate Archived(archive: map<nat, Request>, pruned: nat, accounts: map<nat, Account>) {
    forall n :: n in archive ==> n < pruned && RowOk(archive[n], accounts)
  }

  predicate Limits(accounts: map<nat, Account>) {
    forall u :: u in accounts ==>
      var a := accounts[u];
      a.paid >= 0 && 0 <= a.monthUsed <= FREE_MONTH && 0 <= a.dayUsed <= FREE_DAY && a.month == a.day.month
  }

  /** The account agrees with the user's requests, the pruned ones included. */
  ghost predicate Balanced(w: World, user: nat) {
    if user in w.db.accounts then
      var a := w.db.accounts[user];
      a.paid + Total(w, Charged(user)) == Topped(w.topped, user) &&
      a.monthUsed == Total(w, InMonth(user, a.month)) &&
      a.dayUsed == Total(w, InDay(user, a.day))
    else Topped(w.topped, user) == 0
  }

  ghost predicate Queues(requests: map<Id, Request>) {
    Sum(requests, Jobs()) <= QUEUE_LIMIT && Sum(requests, RunningJobs()) <= RUNNING_LIMIT &&
    forall u :: Sum(requests, JobsOf(u)) <= 1
  }

  ghost predicate Tables(w: World) {
    Rows(w.db.requests, w.db.accounts) && Archived(w.archive, w.pruned, w.db.accounts) && Limits(w.db.accounts)
  }

  ghost predicate Balances(w: World) { forall u :: Balanced(w, u) }

  ghost predicate Inv(w: World) { Tables(w) && Balances(w) && Queues(w.db.requests) }

  /** With no rows that count, a sum is nothing. */
  lemma SumNothing<K>(m: map<K, Request>, f: Request -> int)
    requires forall k :: k in m ==> f(m[k]) == 0
    ensures Sum(m, f) == 0
  {
    var none: map<K, Request> := map[];
    SumAgree(m, f, none, f);
  }

  /** A roll starts an allowance afresh only where nothing has been used yet. */
  ghost predicate Opens(w: World, user: nat) {
    user in w.db.accounts ==>
      var a := w.db.accounts[user];
      (w.today.month == a.month || Total(w, InMonth(user, w.today.month)) == 0) &&
      (w.today == a.day || Total(w, InDay(user, w.today)) == 0)
  }

  ghost function RolledWorld(w: World, user: nat): World { w.(db := Roll(w.db, user, w.today)) }

  /** Exactly when rolling an account keeps it in agreement with its requests, whichever way the calendar went. */
  lemma RollBalancedExactly(w: World, user: nat)
    requires user in w.db.accounts && Balanced(w, user)
    ensures Balanced(RolledWorld(w, user), user) <==> Opens(w, user)
  {
  }

  lemma NewAccount(w: World, user: nat)
    requires Tables(w) && Balanced(w, user) && user !in w.db.accounts
    ensures Balanced(RolledWorld(w, user), user)
  {
    var a := Rolled(w.db, user, w.today);
    NoRequests(w, user, Charged(user));
    NoRequests(w, user, InMonth(user, a.month));
    NoRequests(w, user, InDay(user, a.day));
  }

  lemma NoRequests(w: World, user: nat, f: Request -> int)
    requires Rows(w.db.requests, w.db.accounts) && Archived(w.archive, w.pruned, w.db.accounts)
    requires user !in w.db.accounts && forall r: Request :: r.user != user ==> f(r) == 0
    ensures Total(w, f) == 0
  {
    SumNothing(w.db.requests, f);
    SumNothing(w.archive, f);
  }

  lemma RollInv(w: World, user: nat)
    requires Tables(w) && Balances(w) && Opens(w, user)
    ensures Tables(RolledWorld(w, user)) && Balances(RolledWorld(w, user))
  {
    forall u
      ensures Balanced(RolledWorld(w, user), u)
    {
      assert Balanced(w, u);
      if u == user {
        if user in w.db.accounts { RollBalancedExactly(w, user); } else { NewAccount(w, user); }
      }
    }
  }

  /** What writing a request does to its user's account, and what the account may then be. */
  ghost predicate Settles(requests: map<Id, Request>, id: Id, r: Request, was: Account, a: Account) {
    a.month == was.month && a.day == was.day &&
    a.paid - was.paid == Part(requests, Charged(id.user), id) - Charged(id.user)(r) &&
    a.monthUsed - was.monthUsed == InMonth(id.user, a.month)(r) - Part(requests, InMonth(id.user, a.month), id) &&
    a.dayUsed - was.dayUsed == InDay(id.user, a.day)(r) - Part(requests, InDay(id.user, a.day), id)
  }

  lemma WriteBalanced(w: World, id: Id, r: Request, a: Account, u: nat)
    requires id.user in w.db.accounts && Rows(w.db.requests, w.db.accounts) && r.user == id.user
    requires Settles(w.db.requests, id, r, w.db.accounts[id.user], a) && Balanced(w, u)
    ensures Balanced(w.(db := Db(w.db.accounts[id.user := a], w.db.requests[id := r])), u)
  {
    SumPut(w.db.requests, Charged(u), id, r);
    if u in w.db.accounts {
      SumPut(w.db.requests, InMonth(u, w.db.accounts[u].month), id, r);
      SumPut(w.db.requests, InDay(u, w.db.accounts[u].day), id, r);
    }
  }

  /** Writing one request, and the account of its user, when the three sums move with the account. */
  lemma WriteInv(w: World, id: Id, r: Request, a: Account)
    requires Tables(w) && Balances(w) && Queues(w.db.requests[id := r])
    requires id.user in w.db.accounts && r.user == id.user && RowOk(r, w.db.accounts)
    requires Settles(w.db.requests, id, r, w.db.accounts[id.user], a)
    requires a.paid >= 0 && 0 <= a.monthUsed <= FREE_MONTH && 0 <= a.dayUsed <= FREE_DAY
    ensures Inv(w.(db := Db(w.db.accounts[id.user := a], w.db.requests[id := r])))
  {
    var v := w.(db := Db(w.db.accounts[id.user := a], w.db.requests[id := r]));
    forall u
      ensures Balanced(v, u)
    {
      assert Balanced(w, u);
      WriteBalanced(w, id, r, a, u);
    }
  }

  /** Starting a job, or finishing anything, never adds a job; a reservation adds one only where there is room. */
  lemma QueuesPut(requests: map<Id, Request>, id: Id, r: Request)
    requires Queues(requests) && r.user == id.user && (id in requests ==> requests[id].user == id.user)
    requires IsJob(r.status) ==>
               (id in requests && IsJob(requests[id].status)) ||
               (Sum(requests, Jobs()) < QUEUE_LIMIT && Sum(requests, JobsOf(id.user)) <= 0)
    requires r.status.Running? ==> Sum(requests, RunningJobs()) < RUNNING_LIMIT
    ensures Queues(requests[id := r])
  {
    SumPut(requests, Jobs(), id, r);
    SumPut(requests, RunningJobs(), id, r);
    forall u
      ensures Sum(requests[id := r], JobsOf(u)) <= 1
    {
      SumPut(requests, JobsOf(u), id, r);
      assert Sum(requests, JobsOf(u)) <= 1;
    }
  }

  /** A request as a reservation writes it, and its account, over one already rolled to today. */
  ghost predicate Charges(s: Db, id: Id, r: Request, a: Account, today: Date) {
    id !in s.requests && id.user in s.accounts && s.accounts[id.user].day == today &&
    r.user == id.user && r.month == today.month && r.day == today && r.free + r.paid == Price(r.op) &&
    (if r.status.Queued? then Sum(s.requests, Jobs()) < QUEUE_LIMIT && !Busy(s, id.user) else r.status.Reserved?) &&
    var was := s.accounts[id.user];
    r.free == FreePart(was, Price(r.op), r.status.Queued?) && r.paid <= was.paid &&
    a == was.(paid := was.paid - r.paid, monthUsed := was.monthUsed + r.free, dayUsed := was.dayUsed + r.free)
  }

  /** A reservation changes nothing, rolls the account, or charges it. */
  lemma ReserveCases(s: Db, id: Id, fingerprint: nat, op: Operation, paidOnly: bool, budget: bool, today: Date)
    ensures var (db, r) := Reserve(s, id, fingerprint, op, paidOnly, budget, today);
            var t := Roll(s, id.user, today);
            db == s || db == t ||
            (id in db.requests && id.user in db.accounts &&
             Charges(t, id, db.requests[id], db.accounts[id.user], today) &&
             db == Db(t.accounts[id.user := db.accounts[id.user]], t.requests[id := db.requests[id]]))
  {
  }

  lemma ChargeInv(w: World, id: Id, r: Request, a: Account)
    requires Inv(w) && Charges(w.db, id, r, a, w.today)
    ensures Inv(w.(db := Db(w.db.accounts[id.user := a], w.db.requests[id := r])))
  {
    assert w.db.accounts[id.user].month == w.today.month;
    if r.status.Queued? { SumNothing(w.db.requests, JobsOf(id.user)); }
    QueuesPut(w.db.requests, id, r);
    WriteInv(w, id, r, a);
  }

  lemma ReserveInv(w: World, id: Id, fingerprint: nat, op: Operation, paidOnly: bool, budget: bool)
    requires Inv(w) && Opens(w, id.user)
    ensures Inv(Perform(w, Event.Reserved(id, fingerprint, op, paidOnly, budget)))
  {
    RollInv(w, id.user);
    ReserveCases(w.db, id, fingerprint, op, paidOnly, budget, w.today);
    var t := RolledWorld(w, id.user);
    var db := Reserve(w.db, id, fingerprint, op, paidOnly, budget, w.today).0;
    if db != w.db && db != t.db {
      ChargeInv(t, id, db.requests[id], db.accounts[id.user]);
    }
  }

  /** Ending an open request, over an account already rolled to today. */
  lemma EndInv(w: World, id: Id, failed: bool)
    requires Inv(w) && id in w.db.requests && IsOpen(w.db.requests[id].status)
    ensures var r, a := w.db.requests[id], w.db.accounts[id.user];
            Inv(w.(db := Db(w.db.accounts[id.user := if failed then Refunded(a, r) else a],
                            w.db.requests[id := r.(status := if failed then Failed else Complete)])))
  {
    var r, a := w.db.requests[id], w.db.accounts[id.user];
    var ended := r.(status := if failed then Failed else Complete);
    assert Balanced(w, id.user);
    UsedCovers(w, id);
    QueuesPut(w.db.requests, id, ended);
    WriteInv(w, id, ended, if failed then Refunded(a, r) else a);
  }

  lemma FinishInv(w: World, id: Id, failed: bool)
    requires Inv(w) && Opens(w, id.user)
    ensures Inv(Perform(w, Finished(id, failed)))
  {
    if id in w.db.requests {
      RollInv(w, id.user);
      var t := RolledWorld(w, id.user);
      if IsOpen(w.db.requests[id].status) {
        EndInv(t, id, failed);
        Rewritten(t.db.accounts, id.user);
      }
    }
  }

  /** A request that has not failed is part of what its user has used, so a refund cannot go below nothing. */
  lemma UsedCovers(w: World, id: Id)
    requires Rows(w.db.requests, w.db.accounts) && Archived(w.archive, w.pruned, w.db.accounts)
    requires id in w.db.requests && IsOpen(w.db.requests[id].status)
    requires var a := w.db.accounts[id.user];
             a.monthUsed == Total(w, InMonth(id.user, a.month)) && a.dayUsed == Total(w, InDay(id.user, a.day))
    ensures var r, a := w.db.requests[id], w.db.accounts[id.user];
            (a.month == r.month ==> r.free <= a.monthUsed) && (a.day == r.day ==> r.free <= a.dayUsed)
  {
    var a := w.db.accounts[id.user];
    Covers(w.db.requests, w.archive, InMonth(id.user, a.month), id);
    Covers(w.db.requests, w.archive, InDay(id.user, a.day), id);
  }

  lemma Covers(requests: map<Id, Request>, archive: map<nat, Request>, f: Request -> int, id: Id)
    requires id in requests && (forall i :: i in requests ==> f(requests[i]) >= 0) &&
             (forall n :: n in archive ==> f(archive[n]) >= 0)
    ensures f(requests[id]) <= Sum(requests, f) + Sum(archive, f)
  {
    SumBoundsRow(requests, f, id);
    SumNonNegative(archive, f);
  }

  lemma StartInv(w: World, id: Id)
    requires Inv(w)
    ensures Inv(Perform(w, Started(id)))
  {
    if id in w.db.requests && w.db.requests[id].status.Queued? && Sum(w.db.requests, RunningJobs()) < RUNNING_LIMIT {
      var r := w.db.requests[id].(status := Running);
      QueuesPut(w.db.requests, id, r);
      WriteInv(w, id, r, w.db.accounts[id.user]);
      Rewritten(w.db.accounts, id.user);
    }
  }

  lemma Rewritten(accounts: map<nat, Account>, user: nat)
    requires user in accounts
    ensures accounts[user := accounts[user]] == accounts
  {
  }

  ghost function PaidIn(w: World, user: nat, credits: nat): World
    requires user in w.db.accounts
  {
    var a := w.db.accounts[user];
    w.(db := w.db.(accounts := w.db.accounts[user := a.(paid := a.paid + credits)]),
       topped := w.topped[user := Topped(w.topped, user) + credits])
  }

  lemma TopUpTables(w: World, user: nat, credits: nat)
    requires user in w.db.accounts && Tables(w)
    ensures Tables(PaidIn(w, user, credits))
  {
  }

  /** Credits that are paid in are there to spend. */
  lemma TopUpBalances(w: World, user: nat, credits: nat)
    requires user in w.db.accounts && Balances(w)
    ensures Balances(PaidIn(w, user, credits))
  {
    forall u
      ensures Balanced(PaidIn(w, user, credits), u)
    {
      assert Balanced(w, u);
    }
  }

  /** A top-up rolls the account and pays in. */
  lemma TopUpIsPaidIn(w: World, user: nat, credits: nat)
    ensures Perform(w, ToppedUp(user, credits)) == PaidIn(RolledWorld(w, user), user, credits)
  {
    var t := RolledWorld(w, user);
    var a := t.db.accounts[user];
    assert w.db.accounts[user := a.(paid := a.paid + credits)] == t.db.accounts[user := a.(paid := a.paid + credits)];
  }

  lemma TopUpInv(w: World, user: nat, credits: nat)
    requires Inv(w) && Opens(w, user)
    ensures Inv(Perform(w, ToppedUp(user, credits)))
  {
    TopUpIsPaidIn(w, user, credits);
    RollInv(w, user);
    var t := RolledWorld(w, user);
    TopUpTables(t, user, credits);
    TopUpBalances(t, user, credits);
  }

  /** Moving a request into the archive changes no total. */
  lemma MoveTotal(w: World, v: World, id: Id, f: Request -> int)
    requires id in w.db.requests && w.pruned !in w.archive
    requires v.db.requests == w.db.requests - {id} && v.archive == w.archive[w.pruned := w.db.requests[id]]
    ensures Total(v, f) == Total(w, f)
  {
    SumRemove(w.db.requests, f, id);
    SumPut<nat, Request>(w.archive, f, w.pruned, w.db.requests[id]);
  }

  lemma QueuesDrop(requests: map<Id, Request>, id: Id)
    requires Queues(requests)
    ensures Queues(requests - {id})
  {
    SumRemove(requests, Jobs(), id);
    SumRemove(requests, RunningJobs(), id);
    forall u
      ensures Sum(requests - {id}, JobsOf(u)) <= 1
    {
      SumRemove(requests, JobsOf(u), id);
      assert Sum(requests, JobsOf(u)) <= 1;
    }
  }

  /** Pruning moves a finished request into the archive, where it still counts. */
  lemma PruneInv(w: World, id: Id)
    requires Inv(w)
    ensures Inv(Perform(w, Pruned(id)))
  {
    if id in w.db.requests && !IsOpen(w.db.requests[id].status) {
      var v := Perform(w, Pruned(id));
      QueuesDrop(w.db.requests, id);
      PruneBalances(w, v, id);
    }
  }

  lemma PruneBalances(w: World, v: World, id: Id)
    requires Archived(w.archive, w.pruned, w.db.accounts) && Balances(w) && id in w.db.requests
    requires v == w.(db := w.db.(requests := w.db.requests - {id}), archive := w.archive[w.pruned := w.db.requests[id]],
                    pruned := w.pruned + 1)
    ensures Balances(v)
  {
    forall u
      ensures Balanced(v, u)
    {
      assert Balanced(w, u);
      MoveTotal(w, v, id, Charged(u));
      if u in w.db.accounts {
        MoveTotal(w, v, id, InMonth(u, w.db.accounts[u].month));
        MoveTotal(w, v, id, InDay(u, w.db.accounts[u].day));
      }
    }
  }

  /** The user whose account an event rolls. */
  function RolledBy(w: World, e: Event): Option<nat> {
    match e
    case Reserved(id, _, _, _, _) => Some(id.user)
    case Finished(id, _) => if id in w.db.requests then Some(id.user) else None
    case ToppedUp(user, _) => Some(user)
    case Looked(user) => Some(user)
    case _ => None
  }

  ghost predicate OpensAt(w: World, e: Event) { RolledBy(w, e).Some? ==> Opens(w, RolledBy(w, e).value) }

  lemma PerformInv(w: World, e: Event)
    requires Inv(w) && OpensAt(w, e)
    ensures Inv(Perform(w, e))
  {
    match e
    case Reserved(id, fingerprint, op, paidOnly, budget) => ReserveInv(w, id, fingerprint, op, paidOnly, budget);
    case Finished(id, failed) => if id in w.db.requests { FinishInv(w, id, failed); }
    case Started(id) => StartInv(w, id);
    case ToppedUp(user, credits) => TopUpInv(w, user, credits);
    case Looked(user) => RollInv(w, user);
    case Pruned(id) => PruneInv(w, id);
    case Turned(today) => TurnInv(w, today);
  }

  lemma TurnInv(w: World, today: Date)
    requires Inv(w)
    ensures Inv(Perform(w, Turned(today)))
  {
    forall u
      ensures Balanced(Perform(w, Turned(today)), u)
    {
      assert Balanced(w, u);
    }
  }

  lemma {:induction false} RunInv(es: seq<Event>, i: nat)
    requires i <= |es| && forall j :: 0 <= j < i ==> OpensAt(Run(es[..j]), es[j])
    ensures Inv(Run(es[..i]))
    decreases i
  {
    if i == 0 {
      OpeningInv();
    } else {
      RunInv(es, i - 1);
      assert es[..i][..i - 1] == es[..i - 1];
      PerformInv(Run(es[..i - 1]), es[i - 1]);
    }
  }

  // ------------------------------------------------------------ a calendar that goes forward

  predicate Forward(today: Date, e: Event) { e.Turned? ==> NotAfter(today, e.today) }

  ghost predicate ForwardRun(es: seq<Event>) { forall i :: 0 <= i < |es| ==> Forward(Run(es[..i]).today, es[i]) }

  predicate Dated(r: Request, accounts: map<nat, Account>) {
    r.user in accounts && r.month == r.day.month && NotAfter(r.day, accounts[r.user].day)
  }

  /** No request is later than its account, and no account later than today. */
  predicate AllDated(w: World) {
    (forall id :: id in w.db.requests ==> Dated(w.db.requests[id], w.db.accounts)) &&
    (forall n :: n in w.archive ==> Dated(w.archive[n], w.db.accounts)) &&
    (forall u :: u in w.db.accounts ==> NotAfter(w.db.accounts[u].day, w.today))
  }

  lemma RollDated(w: World, user: nat)
    requires AllDated(w)
    ensures AllDated(RolledWorld(w, user))
  {
  }

  /** Writing a request of today, or one that was there, beside an account that keeps its day. */
  lemma WriteDated(w: World, id: Id, r: Request, a: Account)
    requires AllDated(w) && id.user in w.db.accounts && a.day == w.db.accounts[id.user].day
    requires Dated(r, w.db.accounts)
    ensures AllDated(w.(db := Db(w.db.accounts[id.user := a], w.db.requests[id := r])))
  {
  }

  lemma ReserveDated(w: World, id: Id, fingerprint: nat, op: Operation, paidOnly: bool, budget: bool)
    requires AllDated(w)
    ensures AllDated(Perform(w, Event.Reserved(id, fingerprint, op, paidOnly, budget)))
  {
    RollDated(w, id.user);
    ReserveCases(w.db, id, fingerprint, op, paidOnly, budget, w.today);
    var t := RolledWorld(w, id.user);
    var db := Reserve(w.db, id, fingerprint, op, paidOnly, budget, w.today).0;
    if db != w.db && db != t.db { WriteDated(t, id, db.requests[id], db.accounts[id.user]); }
  }

  lemma FinishDated(w: World, id: Id, failed: bool)
    requires AllDated(w) && id in w.db.requests && w.db.requests[id].user == id.user
    ensures AllDated(Perform(w, Finished(id, failed)))
  {
    RollDated(w, id.user);
    var t, db := RolledWorld(w, id.user), Finish(w.db, id, failed, w.today);
    if IsOpen(w.db.requests[id].status) {
      WriteDated(t, id, db.requests[id], db.accounts[id.user]);
      if !failed { Rewritten(t.db.accounts, id.user); }
    }
  }

  lemma ToppedUpDated(w: World, user: nat, credits: nat)
    requires AllDated(w)
    ensures AllDated(Perform(w, ToppedUp(user, credits)))
  {
  }

  lemma PrunedDated(w: World, id: Id)
    requires AllDated(w)
    ensures AllDated(Perform(w, Pruned(id)))
  {
  }

  lemma PerformDated(w: World, e: Event)
    requires AllDated(w) && Forward(w.today, e) && Rows(w.db.requests, w.db.accounts)
    ensures AllDated(Perform(w, e))
  {
    match e
    case Reserved(id, fingerprint, op, paidOnly, budget) => ReserveDated(w, id, fingerprint, op, paidOnly, budget);
    case Finished(id, failed) => if id in w.db.requests { FinishDated(w, id, failed); }
    case Started(id) => if id in w.db.requests {
        WriteDated(w, id, w.db.requests[id].(status := Running), w.db.accounts[id.user]);
        Rewritten(w.db.accounts, id.user);
      }
    case ToppedUp(user, credits) => ToppedUpDated(w, user, credits);
    case Looked(user) => RollDated(w, user);
    case Pruned(id) => PrunedDated(w, id);
    case Turned(_) =>
  }

  /** Then every new month or day is empty when it is opened. */
  lemma DatedOpens(w: World, user: nat)
    requires Tables(w) && AllDated(w)
    ensures Opens(w, user)
  {
    if user in w.db.accounts {
      var a := w.db.accounts[user];
      if w.today.month != a.month { NothingIn(w, InMonth(user, w.today.month)); }
      if w.today != a.day { NothingIn(w, InDay(user, w.today)); }
    }
  }

  lemma NothingIn(w: World, f: Request -> int)
    requires (forall id :: id in w.db.requests ==> f(w.db.requests[id]) == 0) &&
             (forall n :: n in w.archive ==> f(w.archive[n]) == 0)
    ensures Total(w, f) == 0
  {
    SumNothing(w.db.requests, f);
    SumNothing(w.archive, f);
  }

  lemma {:induction false} RunForward(es: seq<Event>, i: nat)
    requires ForwardRun(es) && i <= |es|
    ensures Inv(Run(es[..i])) && AllDated(Run(es[..i]))
    decreases i
  {
    if i == 0 {
      OpeningInv();
    } else {
      RunForward(es, i - 1);
      var w := Run(es[..i - 1]);
      assert es[..i][..i - 1] == es[..i - 1];
      if RolledBy(w, es[i - 1]).Some? { DatedOpens(w, RolledBy(w, es[i - 1]).value); }
      PerformInv(w, es[i - 1]);
      PerformDated(w, es[i - 1]);
    }
  }

  lemma OpeningInv()
    ensures Inv(OPENING)
  {
    SumNothing(OPENING.db.requests, Jobs());
    SumNothing(OPENING.db.requests, RunningJobs());
    forall u
      ensures Sum(OPENING.db.requests, JobsOf(u)) == 0
    {
      SumNothing(OPENING.db.requests, JobsOf(u));
    }
  }

  /** What an account promises its user. */
  ghost predicate Promised(w: World, user: nat)
    requires user in w.db.accounts
  {
    var a := w.db.accounts[user];
    a.paid + Sum(w.db.requests, Charged(user)) + Sum(w.archive, Charged(user)) == Topped(w.topped, user) &&
    a.monthUsed == Sum(w.db.requests, InMonth(user, a.month)) + Sum(w.archive, InMonth(user, a.month)) &&
    a.dayUsed == Sum(w.db.requests, InDay(user, a.day)) + Sum(w.archive, InDay(user, a.day)) &&
    0 <= a.paid && 0 <= a.monthUsed <= FREE_MONTH && 0 <= a.dayUsed <= FREE_DAY &&
    Sum(w.db.requests, JobsOf(user)) <= 1
  }

  ghost predicate AllPromised(w: World) {
    (forall user :: user in w.db.accounts ==> Promised(w, user)) &&
    Sum(w.db.requests, Jobs()) <= QUEUE_LIMIT && Sum(w.db.requests, RunningJobs()) <= RUNNING_LIMIT
  }

  lemma InvPromises(w: World)
    requires Inv(w)
    ensures AllPromised(w)
  {
    forall user | user in w.db.accounts
      ensures Promised(w, user)
    {
      assert Balanced(w, user);
    }
  }

  /** After every run of a calendar that goes forward, for every account: what was paid in is what is left and what
      was charged; the free allowances used are those of this month's and this day's requests, and within their
      limits; and a user has at most one job. */
  lemma EveryRun(es: seq<Event>)
    requires ForwardRun(es)
    ensures AllPromised(Run(es))
  {
    RunForward(es, |es|);
    assert es[..|es|] == es;
    InvPromises(Run(es));
  }

  /** The same whichever way the calendar goes, while no roll opens a month or a day in which something was used. */
  lemma EveryOpenRun(es: seq<Event>)
    requires forall i :: 0 <= i < |es| ==> OpensAt(Run(es[..i]), es[i])
    ensures AllPromised(Run(es))
  {
    RunInv(es, |es|);
    assert es[..|es|] == es;
    InvPromises(Run(es));
  }

  // ------------------------------------------------------------ a calendar that goes back

  /** Exactly when a day back and forth leaves an account as it would have been. */
  lemma BackAndForthExactly(s: Db, user: nat, back: Date, today: Date)
    requires user in s.accounts
    ensures var a := s.accounts[user];
            Rolled(Roll(s, user, back), user, today) == Rolled(s, user, today) <==>
            (back.month == today.month || a.month != today.month || a.monthUsed == 0) &&
            (back == today || a.day != today || a.dayUsed == 0)
  {
  }

  lemma Then(es: seq<Event>, e: Event) returns (fs: seq<Event>)
    ensures Run(fs) == Perform(Run(es), e) && fs == es + [e]
  {
    fs := es + [e];
    assert fs[..|fs| - 1] == es;
  }

  const DAY_ONE := Date(1, 1)
  const DAY_TWO := Date(1, 2)

  function Read(key: nat): Event { Event.Reserved(Id(0, key), 0, History, false, true) }

  /** The user's n requests of 25 credits each, on the second day, of which the account shows some. */
  ghost predicate Spent(w: World, n: nat, shown: nat) {
    w.today == DAY_TWO && (forall key: nat :: Id(0, key) in w.db.requests ==> key < n) &&
    (forall id :: id in w.db.requests ==> IsOpen(w.db.requests[id].status)) && w.archive == map[] &&
    Sum(w.db.requests, InDay(0, DAY_TWO)) == 25 * n &&
    0 in w.db.accounts && w.db.accounts[0] == Account(0, 1, DAY_TWO, 25 * n, 25 * shown)
  }

  lemma SpendsMore(es: seq<Event>, n: nat, shown: nat) returns (fs: seq<Event>)
    requires Spent(Run(es), n, shown) && shown < 4 && n < 8
    ensures fs == es + [Read(n)] && Spent(Run(fs), n + 1, shown + 1)
  {
    fs := Then(es, Read(n));
    var r := Run(fs).db.requests[Id(0, n)];
    SumPut(Run(es).db.requests, InDay(0, DAY_TWO), Id(0, n), r);
  }

  lemma SpendsAll() returns (es: seq<Event>)
    ensures Spent(Run(es), 4, 4)
  {
    es := Then([], Turned(DAY_TWO));
    es := Then(es, Looked(0));
    SumNothing(Run(es).db.requests, InDay(0, DAY_TWO));
    es := SpendsMore(es, 0, 0);
    es := SpendsMore(es, 1, 1);
    es := SpendsMore(es, 2, 2);
    es := SpendsMore(es, 3, 3);
  }

  lemma DayReturns(es: seq<Event>) returns (fs: seq<Event>)
    requires Spent(Run(es), 4, 4)
    ensures Spent(Run(fs), 4, 0) && |fs| > |es| && fs[|es|] == Turned(DAY_ONE) && fs[..|es|] == es
  {
    fs := Then(es, Turned(DAY_ONE));
    fs := Then(fs, Looked(0));
    fs := Then(fs, Turned(DAY_TWO));
    fs := Then(fs, Looked(0));
  }

  /** A run that needs the calendar to go forward: one day back and forth, and a fifth request is free on a day whose
      allowance covers four. */
  lemma BackwardClockGivesMore() returns (es: seq<Event>)
    ensures !ForwardRun(es)
    ensures var w := Run(es);
            Sum(w.db.requests, InDay(0, DAY_TWO)) > FREE_DAY && 0 in w.db.accounts && w.db.accounts[0].day == DAY_TWO &&
            w.db.accounts[0].dayUsed < Sum(w.db.requests, InDay(0, DAY_TWO))
  {
    var spent := SpendsAll();
    es := DayReturns(spent);
    ghost var returned := es;
    es := SpendsMore(es, 4, 0);
    assert es[..|spent|] == spent && es[|spent|] == Turned(DAY_ONE);
    assert !Forward(Run(es[..|spent|]).today, es[|spent|]);
  }

  // ------------------------------------------------------------ one request

  /** What a request keeps from its reservation on. */
  predicate SameCharge(r: Request, s: Request) { s == r.(status := s.status) }

  lemma PerformKeeps(w: World, e: Event, id: Id)
    requires id in w.db.requests && e != Pruned(id)
    ensures var v := Perform(w, e);
            id in v.db.requests && SameCharge(w.db.requests[id], v.db.requests[id]) &&
            (!IsOpen(w.db.requests[id].status) ==> v.db.requests[id] == w.db.requests[id])
  {
    if e.Reserved? { ReserveCases(w.db, e.id, e.fingerprint, e.op, e.paidOnly, e.budget, w.today); }
  }

  /** Until it is pruned, a request keeps its charge, and once it has ended, its status. */
  lemma {:induction false} RequestStays(es: seq<Event>, i: nat, j: nat, id: Id)
    requires i <= j <= |es| && id in Run(es[..i]).db.requests && forall n :: i <= n < j ==> es[n] != Pruned(id)
    ensures var (r, later) := (Run(es[..i]).db.requests[id], Run(es[..j]).db.requests);
            id in later && SameCharge(r, later[id]) && (!IsOpen(r.status) ==> later[id] == r)
    decreases j
  {
    if i < j {
      RequestStays(es, i, j - 1, id);
      assert es[..j][..j - 1] == es[..j - 1];
      PerformKeeps(Run(es[..j - 1]), es[j - 1], id);
    }
  }

  /** Reserving again under a request's key, at any later moment of the run before it is pruned, returns that request
      and charges nothing; with other details it is refused. */
  lemma ReservedOnce(es: seq<Event>, i: nat, j: nat, id: Id, fingerprint: nat, op: Operation, paidOnly: bool,
                     budget: bool)
    requires i <= j <= |es| && id in Run(es[..i]).db.requests && forall n :: i <= n < j ==> es[n] != Pruned(id)
    ensures var (r, w) := (Run(es[..i]).db.requests[id], Run(es[..j]));
            var (db, answer) := Reserve(w.db, id, fingerprint, op, paidOnly, budget, w.today);
            if fingerprint == r.fingerprint then
              answer.Ok? && !answer.value.1 && SameCharge(r, answer.value.0) && db == Roll(w.db, id.user, w.today)
            else answer == Err(OtherDetails) && db == w.db
  {
    RequestStays(es, i, j, id);
  }

  /** What a failed request gives back, and that it has then ended. */
  lemma RefundMoves(w: World, id: Id)
    requires id in w.db.requests && IsOpen(w.db.requests[id].status) && Rows(w.db.requests, w.db.accounts)
    ensures var v := Perform(w, Finished(id, true));
            var (r, a) := (w.db.requests[id], Rolled(w.db, id.user, w.today));
            v.db.accounts == w.db.accounts[id.user := Refunded(a, r)] &&
            id in v.db.requests && v.db.requests[id] == r.(status := Failed) && r.user == id.user
  {
  }

  /** Ending it once more moves nothing. */
  lemma EndsOnce(es: seq<Event>, i: nat, j: nat, id: Id, again: bool)
    requires i <= j <= |es| && forall n :: i <= n < j ==> es[n] != Pruned(id)
    requires var w := Run(es[..i]);
             id in w.db.requests && !IsOpen(w.db.requests[id].status) && w.db.requests[id].user == id.user
    ensures var w := Run(es[..j]); Finish(w.db, id, again, w.today) == Roll(w.db, id.user, w.today)
  {
    RequestStays(es, i, j, id);
  }

  /** A failure, whenever it comes, gives back exactly the paid part, and the free part to the month and the day it was
      taken from while they last; after that no end of the request moves anything again. */
  lemma RefundedOnce(es: seq<Event>, i: nat, j: nat, id: Id, again: bool)
    requires i < j <= |es| && forall n :: i <= n < j ==> es[n] != Pruned(id)
    requires id in Run(es[..i]).db.requests && IsOpen(Run(es[..i]).db.requests[id].status) &&
             es[i] == Finished(id, true)
    requires Rows(Run(es[..i]).db.requests, Run(es[..i]).db.accounts)
    ensures var (w, v) := (Run(es[..i]), Run(es[..i + 1]));
            var (r, a) := (w.db.requests[id], Rolled(w.db, id.user, w.today));
            v.db.accounts ==
            w.db.accounts[id.user := a.(paid := a.paid + r.paid,
                                    monthUsed := a.monthUsed - (if a.month == r.month then r.free else 0),
                                    dayUsed := a.dayUsed - (if a.day == r.day then r.free else 0))]
    ensures var w := Run(es[..j]); Finish(w.db, id, again, w.today) == Roll(w.db, id.user, w.today)
  {
    assert es[..i + 1][..i] == es[..i];
    RefundMoves(Run(es[..i]), id);
    EndsOnce(es, i + 1, j, id, again);
  }

  /** A request that does not have to be paid is refused for lack of credits exactly when its price is more than the
      paid credits and what the balance reports as free. */
  lemma AffordsExactly(w: World, id: Id, fingerprint: nat, op: Operation, budget: bool)
    requires Inv(w) && id !in w.db.requests
    ensures var a := Rolled(w.db, id.user, w.today);
            Reserve(w.db, id, fingerprint, op, false, budget, w.today).1.Err? <==> Price(op) > a.paid + Available(a)
  {
  }

  /** The money and the allowances of an account after a charge, and the request that shows it. */
  predicate ChargedFor(s: Db, t: Db, id: Id, a: Account, r: Request) {
    id in t.requests && t.requests[id] == r && t.requests.Keys == s.requests.Keys + {id} &&
    (forall i :: i in s.requests && i != id ==> t.requests[i] == s.requests[i]) && id.user in t.accounts &&
    t.accounts[id.user] ==
      a.(paid := a.paid - r.paid, monthUsed := a.monthUsed + r.free, dayUsed := a.dayUsed + r.free) &&
    forall u :: u in s.accounts && u != id.user ==> u in t.accounts && t.accounts[u] == s.accounts[u]
  }

  /** A read is charged to the free allowances as far as both of them reach, and to the paid credits beyond. */
  lemma ReadOutcome(w: World, id: Id, fingerprint: nat, op: Operation, budget: bool)
    requires Inv(w) && id !in w.db.requests
    ensures var a := Rolled(w.db, id.user, w.today);
            var answer := Reserve(w.db, id, fingerprint, op, false, budget, w.today);
            var free := if Price(op) <= Available(a) then Price(op) else Available(a);
            if Price(op) > a.paid + Available(a) then
              answer.1 == Err(NeedCredits(Price(op), a.paid + free)) && answer.0 == w.db
            else
              answer.1.Ok? && answer.1.value.1 &&
              answer.1.value.0 ==
                Request(id.user, fingerprint, op, Status.Reserved, free, Price(op) - free, w.today.month, w.today) &&
              ChargedFor(w.db, answer.0, id, a, answer.1.value.0)
  {
  }

  /** A job is queued, and paid in full, if and only if fewer than twenty wait or run, the provider's budget allows it,
      its user has none, and the paid credits cover it. */
  lemma JobOutcome(w: World, id: Id, fingerprint: nat, op: Operation, budget: bool)
    requires Inv(w) && id !in w.db.requests
    ensures var a := Rolled(w.db, id.user, w.today);
            var answer := Reserve(w.db, id, fingerprint, op, true, budget, w.today);
            (answer.1.Ok? <==>
              Sum(w.db.requests, Jobs()) < 20 && budget && a.paid >= Price(op) &&
              forall i :: i in w.db.requests && w.db.requests[i].user == id.user ==>
                !w.db.requests[i].status.Queued? && !w.db.requests[i].status.Running?) &&
            (answer.1.Err? ==> answer.0 == w.db) &&
            (answer.1.Ok? ==>
              answer.1.value.1 &&
              answer.1.value.0 == Request(id.user, fingerprint, op, Queued, 0, Price(op), w.today.month, w.today) &&
              ChargedFor(w.db, answer.0, id, a, answer.1.value.0))
  {
  }

  /** An open request ends as it was told; only a failure moves the account, and no other request is touched. */
  lemma FinishOutcome(s: Db, id: Id, failed: bool, at: Date)
    requires id in s.requests && s.requests[id].user == id.user
    ensures var (t, r) := (Finish(s, id, failed, at), s.requests[id]);
            var begun := r.status.Reserved? || r.status.Queued? || r.status.Running?;
            t.requests.Keys == s.requests.Keys &&
            (forall i :: i in s.requests && i != id ==> t.requests[i] == s.requests[i]) &&
            (begun ==> t.requests[id] == r.(status := if failed then Failed else Complete)) &&
            (!begun ==> t.requests[id] == r) &&
            (!failed || !begun ==> t.accounts == Roll(s, id.user, at).accounts) &&
            (failed && begun ==>
              t.accounts == Roll(s, id.user, at).accounts[id.user := Refunded(Rolled(s, id.user, at), r)])
  {
  }

  /** A job starts if and only if it waits and fewer than two run; nothing else changes. */
  lemma StartOutcome(s: Db, id: Id)
    ensures var t := Start(s, id);
            if id in s.requests && s.requests[id].status.Queued? && Sum(s.requests, RunningJobs()) < 2 then
              t.accounts == s.accounts && t.requests.Keys == s.requests.Keys &&
              t.requests[id] == s.requests[id].(status := Running) &&
              forall i :: i in s.requests && i != id ==> t.requests[i] == s.requests[i]
            else t == s
  {
  }

  /** A request that has ended stays as it is until it is pruned, and then counts in the archive. */
  lemma EndedStays(w: World, e: Event, id: Id)
    requires id in w.db.requests && !IsOpen(w.db.requests[id].status)
    ensures var v := Perform(w, e);
            if id in v.db.requests then v.db.requests[id] == w.db.requests[id]
            else e == Pruned(id) && v.archive[w.pruned] == w.db.requests[id]
  {
    if e != Pruned(id) { PerformKeeps(w, e, id); }
  }
}
