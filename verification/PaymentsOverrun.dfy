/** Settlement calls that may outlive their leases: what still holds, exactly when the books balance, and two runs in
    which one order is credited twice. */
module PaymentsOverrun {
  import opened Wrappers
  import opened Sums
  import opened Payments
  import opened PaymentsProofs

  /** What no run can break, however late its calls are. */
  predicate SoundDb(s: Db) {
    Proofs(s.topups, s.claims) && Txs(s.topups, s.claims) && forall o :: o in s.topups ==> s.topups[o].credits > 0
  }

  predicate Sound(w: World) { SoundDb(w.db) }

  lemma BeginSound(s: Db, id: nat, user: nat, p: Payload, now: int)
    requires SoundDb(s)
    ensures SoundDb(Begin(s, id, user, p, now).0)
  {
  }

  lemma WriteSound(s: Db, id: nat, status: Status, now: int)
    requires SoundDb(s)
    ensures SoundDb(Write(s, id, status, now))
  {
  }

  lemma FinishSound(s: Db, id: nat, user: nat, credits: nat, tx: Tx, now: int)
    requires SoundDb(s)
    ensures SoundDb(Finish(s, id, user, credits, tx, now).0)
  {
  }

  lemma PruneSound(s: Db, id: nat, now: int)
    requires SoundDb(s)
    ensures SoundDb(Prune(s, id, now))
  {
  }

  lemma PerformSound(w: World, e: Event)
    requires Sound(w)
    ensures Sound(Perform(w, e))
  {
    match e
    case Ordered(_, _, _, _, _) =>
    case Began(_, id, user, p) => BeginSound(w.db, id, user, p, w.now);
    case Verified(k, valid) =>
      if k in w.calls { WriteSound(w.db, w.calls[k].order, if valid then Settling else Rejected, w.now); }
    case Unsure(k) => if k in w.calls { WriteSound(w.db, w.calls[k].order, Pending, w.now); }
    case Settled(k, _, tx) =>
      if k in w.calls {
        WriteSound(w.db, w.calls[k].order, Pending, w.now);
        FinishSound(w.db, w.calls[k].order, w.calls[k].user, w.calls[k].credits, tx, w.now);
      }
    case Crashed(_) =>
    case Pruned(id) => PruneSound(w.db, id, w.now);
    case Waited(_) =>
  }

  lemma {:induction false} RunSound(es: seq<Event>)
    ensures Sound(Run(OPENING, es))
    decreases |es|
  {
    if es != [] {
      RunSound(es[..|es| - 1]);
      PerformSound(Run(OPENING, es[..|es| - 1]), es[|es| - 1]);
    }
  }

  /** Over every run at all, no payment proof and no transaction belongs to two orders. */
  lemma OneOrderEach(es: seq<Event>, o: nat, p: nat)
    requires var t := Run(OPENING, es).db.topups; o in t && p in t && o != p
    ensures var t := Run(OPENING, es).db.topups;
            (t[o].proof.Some? ==> t[o].proof != t[p].proof) && (t[o].tx.Some? ==> t[o].tx != t[p].tx)
  {
    RunSound(es);
  }

  /** The event writes a status without looking at the row. */
  predicate StatusWrite(w: World, e: Event) {
    match e
    case Verified(k, _) => k in w.calls && w.calls[k].stage.Checking?
    case Unsure(k) => k in w.calls
    case Settled(k, success, tx) =>
      k in w.calls && w.calls[k].stage.Paying? && (!success || tx.network != w.calls[k].network)
    case _ => false
  }

  /** A status write finds its row not complete. */
  predicate Clean(w: World, e: Event) {
    StatusWrite(w, e) ==> !IsComplete(w.db.topups, w.calls[Writer(e).value].order)
  }

  ghost predicate CleanRun(es: seq<Event>) { forall i :: 0 <= i < |es| ==> Clean(Run(OPENING, es[..i]), es[i]) }

  /** Identifiers of orders are random and never come back. */
  predicate NoReuse(es: seq<Event>) {
    forall i, j :: 0 <= i < j < |es| && es[i].Ordered? && es[j].Ordered? ==> es[i].id != es[j].id
  }

  predicate Seen(es: seq<Event>, id: nat) { exists i :: 0 <= i < |es| && es[i].Ordered? && es[i].id == id }

  /** What a call remembers of its order. */
  predicate Remembered(topups: map<nat, Topup>, calls: map<nat, Call>) {
    forall k :: k in calls && calls[k].order in topups ==>
      topups[calls[k].order].user == calls[k].user && topups[calls[k].order].credits == calls[k].credits
  }

  /** A transaction is recorded exactly for the complete orders. */
  predicate TxRows(topups: map<nat, Topup>) {
    forall o :: o in topups ==> (topups[o].tx.Some? <==> topups[o].status.Complete?)
  }

  ghost predicate CleanInv(w: World) {
    Sound(w) && Books(w.db.topups, w.db.paid) && Granted(w.db.topups, w.granted) &&
    Remembered(w.db.topups, w.calls) && TxRows(w.db.topups)
  }

  lemma RestatusRemembered(topups: map<nat, Topup>, calls: map<nat, Call>, later: map<nat, Call>, o: nat,
                           status: Status, now: int)
    requires o in topups && Remembered(topups, calls)
    requires forall j :: j in later ==> j in calls && later[j] == calls[j].(stage := later[j].stage)
    ensures Remembered(topups[o := topups[o].(status := status, updated := now)], later)
  {
    forall j | j in later
      ensures later[j].order == calls[j].order && later[j].user == calls[j].user && later[j].credits == calls[j].credits
    {
    }
  }

  lemma StatusClean(w: World, k: nat, status: Status, calls: map<nat, Call>)
    requires CleanInv(w) && k in w.calls && !status.Complete? && !IsComplete(w.db.topups, w.calls[k].order)
    requires forall j :: j in calls ==> j in w.calls && calls[j] == w.calls[j].(stage := calls[j].stage)
    ensures CleanInv(w.(db := Write(w.db, w.calls[k].order, status, w.now), calls := calls))
  {
    var o := w.calls[k].order;
    WriteSound(w.db, o, status, w.now);
    if o in w.db.topups {
      var row := w.db.topups[o].(status := status, updated := w.now);
      Rewrite(w.db.topups, w.db.paid, o, row);
      OpenRow(w.db.topups, w.granted, o, row);
      RestatusRemembered(w.db.topups, w.calls, calls, o, status, w.now);
    }
  }

  lemma GrantClean(w: World, k: nat, tx: Tx)
    requires CleanInv(w) && k in w.calls && w.calls[k].order in w.db.topups
    requires !IsComplete(w.db.topups, w.calls[k].order) && SoundDb(GrantedWorld(w, k, tx).db)
    ensures CleanInv(GrantedWorld(w, k, tx))
  {
    var c := w.calls[k];
    var row := Completed(w.db.topups[c.order], tx, w.now);
    assert row.user == c.user && row.credits == c.credits;
    Rewrite(w.db.topups, w.db.paid, c.order, row);
    GrantedAppend(w.db.topups, w.granted, c.order, tx, w.now);
    RememberedRow(w.db.topups, w.calls, w.calls - {k}, c.order, row);
  }

  lemma SettledClean(w: World, k: nat, tx: Tx)
    requires CleanInv(w) && k in w.calls && w.calls[k].stage.Paying? && tx.network == w.calls[k].network
    ensures CleanInv(Perform(w, Settled(k, true, tx)))
  {
    SettledCases(w, k, tx);
    PerformSound(w, Settled(k, true, tx));
    if Grants(w.db, w.calls[k], tx) { GrantClean(w, k, tx); }
  }

  lemma RememberedRow(topups: map<nat, Topup>, calls: map<nat, Call>, later: map<nat, Call>, o: nat, row: Topup)
    requires o in topups && row.user == topups[o].user && row.credits == topups[o].credits && Remembered(topups, calls)
    requires forall j :: j in later ==>
               (j in calls && later[j] == calls[j]) ||
               (later[j].order == o && later[j].user == row.user && later[j].credits == row.credits)
    ensures Remembered(topups[o := row], later)
  {
  }

  lemma BeganClean(w: World, e: Event)
    requires CleanInv(w) && e.Began?
    ensures CleanInv(Perform(w, e))
  {
    var row, c := BeganCases(w, e);
    PerformSound(w, e);
    if Perform(w, e) != w {
      Rewrite(w.db.topups, w.db.paid, e.id, row);
      RememberedRow(w.db.topups, w.calls, w.calls[e.k := c], e.id, row);
      OpenRow(w.db.topups, w.granted, e.id, row);
    }
  }

  /** Rewriting a row that is not complete and does not become so. */
  lemma OpenRow(topups: map<nat, Topup>, granted: seq<nat>, o: nat, row: Topup)
    requires o in topups && Granted(topups, granted) && TxRows(topups)
    requires !row.status.Complete? && !topups[o].status.Complete? && row.tx == topups[o].tx
    ensures Granted(topups[o := row], granted) && TxRows(topups[o := row])
  {
  }

  lemma OrderedClean(w: World, e: Event)
    requires CleanInv(w) && e.Ordered? && forall k :: k in w.calls ==> w.calls[k].order != e.id
    ensures CleanInv(Perform(w, e))
  {
    if e.credits > 0 && e.id !in w.db.topups {
      Rewrite(w.db.topups, w.db.paid, e.id, Perform(w, e).db.topups[e.id]);
    }
  }

  lemma PrunedClean(w: World, id: nat)
    requires CleanInv(w)
    ensures CleanInv(Perform(w, Pruned(id)))
  {
    PruneSound(w.db, id, w.now);
    if id in w.db.topups && Prunable(w.db.topups[id], w.now) {
      Deleted(w.db.topups, w.db.paid, id);
    }
  }

  lemma PerformClean(w: World, e: Event)
    requires CleanInv(w) && Clean(w, e)
    requires e.Ordered? ==> forall k :: k in w.calls ==> w.calls[k].order != e.id
    ensures CleanInv(Perform(w, e))
  {
    match e
    case Ordered(_, _, _, _, _) => OrderedClean(w, e);
    case Began(_, _, _, _) => BeganClean(w, e);
    case Verified(k, valid) =>
      if StatusWrite(w, e) {
        var status := if valid then Settling else Rejected;
        StatusClean(w, k, status, if valid then w.calls[k := w.calls[k].(stage := Paying)] else w.calls - {k});
      }
    case Unsure(k) => if k in w.calls { StatusClean(w, k, Pending, w.calls - {k}); }
    case Settled(k, success, tx) =>
      if StatusWrite(w, e) {
        StatusClean(w, k, Pending, w.calls - {k});
      } else if k in w.calls && w.calls[k].stage.Paying? {
        SettledClean(w, k, tx);
      }
    case Crashed(k) =>
    case Pruned(id) => PrunedClean(w, id);
    case Waited(_) =>
  }

  lemma {:induction false} RunSeen(es: seq<Event>)
    ensures forall o :: o in Run(OPENING, es).db.topups ==> Seen(es, o)
    ensures forall k :: k in Run(OPENING, es).calls ==> Seen(es, Run(OPENING, es).calls[k].order)
    decreases |es|
  {
    if es != [] {
      var front, e := es[..|es| - 1], es[|es| - 1];
      var w := Run(OPENING, front);
      RunSeen(front);
      forall o | Seen(front, o)
        ensures Seen(es, o)
      {
        var i :| 0 <= i < |front| && front[i].Ordered? && front[i].id == o;
        assert es[i] == front[i];
      }
      PerformOrders(w, e);
    }
  }

  /** Only an order event adds an order, and a call is for an order that is there. */
  lemma PerformOrders(w: World, e: Event)
    ensures forall o :: o in Perform(w, e).db.topups ==> o in w.db.topups || (e.Ordered? && o == e.id)
    ensures forall k :: k in Perform(w, e).calls ==>
              var o := Perform(w, e).calls[k].order;
              o in w.db.topups || (k in w.calls && w.calls[k].order == o)
  {
  }

  /** A new order's identifier is not one that a call remembers. */
  lemma NewOrder(es: seq<Event>, i: nat)
    requires NoReuse(es) && i < |es| && es[i].Ordered?
    ensures forall k :: k in Run(OPENING, es[..i]).calls ==> Run(OPENING, es[..i]).calls[k].order != es[i].id
  {
    RunSeen(es[..i]);
    var w := Run(OPENING, es[..i]);
    forall k | k in w.calls
      ensures w.calls[k].order != es[i].id
    {
      var j :| 0 <= j < i && es[..i][j].Ordered? && es[..i][j].id == w.calls[k].order;
      assert es[j] == es[..i][j];
    }
  }

  lemma {:induction false} RunClean(es: seq<Event>, i: nat)
    requires NoReuse(es) && i <= |es| && forall j :: 0 <= j < i ==> Clean(Run(OPENING, es[..j]), es[j])
    ensures CleanInv(Run(OPENING, es[..i]))
    decreases i
  {
    if i > 0 {
      RunClean(es, i - 1);
      var front := es[..i - 1];
      assert es[..i][..i - 1] == front;
      var n := i - 1;
      if es[n].Ordered? { NewOrder(es, n); }
      PerformClean(Run(OPENING, front), es[i - 1]);
    }
  }

  /** However late the calls are: while every status write finds its row not complete, a user's credits are those of the
      complete orders, and no order is granted twice. */
  lemma EveryCleanRun(es: seq<Event>)
    requires NoReuse(es) && CleanRun(es)
    ensures var w := Run(OPENING, es);
            Books(w.db.topups, w.db.paid) &&
            (forall i, j :: 0 <= i < j < |w.granted| ==> w.granted[i] != w.granted[j]) &&
            (forall o :: o in w.granted <==> IsComplete(w.db.topups, o))
  {
    RunClean(es, |es|);
    assert es[..|es|] == es;
  }

  /** Exactly when an unguarded status write leaves the books balanced: the order it writes is not complete. */
  lemma WriteBalancesExactly(s: Db, id: nat, status: Status, now: int)
    requires Books(s.topups, s.paid) && !status.Complete? && (id in s.topups ==> s.topups[id].credits > 0)
    ensures var v := Write(s, id, status, now); Books(v.topups, v.paid) <==> !IsComplete(s.topups, id)
  {
    if id in s.topups {
      var row := s.topups[id].(status := status, updated := now);
      if IsComplete(s.topups, id) {
        SumPut(s.topups, Earned(row.user), id, row);
        assert Earned(row.user)(row) == 0;
        assert Paid(s, row.user) == Sum(s.topups, Earned(row.user));
        assert Sum(s.topups[id := row], Earned(row.user)) != Sum(s.topups, Earned(row.user));
        assert Write(s, id, status, now).topups == s.topups[id := row];
      } else {
        Rewrite(s.topups, s.paid, id, row);
      }
    }
  }

  ghost predicate BooksAlways(es: seq<Event>) {
    forall i :: 0 <= i <= |es| ==> Books(Run(OPENING, es[..i]).db.topups, Run(OPENING, es[..i]).db.paid)
  }

  /** A status write changes the tables as Write does, for some status that is not complete. */
  lemma StatusWrites(w: World, e: Event) returns (status: Status)
    requires StatusWrite(w, e)
    ensures !status.Complete? && Perform(w, e).db == Write(w.db, w.calls[Writer(e).value].order, status, w.now)
  {
    status := if e.Verified? then if e.valid then Settling else Rejected else Pending;
  }

  /** Over every run, late or not: the books balance at every moment if and only if every status write finds its row not
      complete, which the write could ask for. */
  lemma BooksExactly(es: seq<Event>)
    requires NoReuse(es)
    ensures BooksAlways(es) <==> CleanRun(es)
  {
    if CleanRun(es) {
      forall i | 0 <= i <= |es|
        ensures Books(Run(OPENING, es[..i]).db.topups, Run(OPENING, es[..i]).db.paid)
      {
        RunClean(es, i);
      }
    }
    if BooksAlways(es) {
      forall i | 0 <= i < |es|
        ensures Clean(Run(OPENING, es[..i]), es[i])
      {
        var w := Run(OPENING, es[..i]);
        RunSound(es[..i]);
        assert es[..i + 1][..i] == es[..i];
        assert Books(Run(OPENING, es[..i + 1]).db.topups, Run(OPENING, es[..i + 1]).db.paid);
        if StatusWrite(w, es[i]) {
          var status := StatusWrites(w, es[i]);
          WriteBalancesExactly(w.db, w.calls[Writer(es[i]).value].order, status, w.now);
        }
      }
    }
  }

  /** Calls within their leases write no complete row. */
  lemma TimelyIsClean(es: seq<Event>)
    requires Timely(es)
    ensures CleanRun(es)
  {
    forall i | 0 <= i < |es|
      ensures Clean(Run(OPENING, es[..i]), es[i])
    {
      RunInv(es, i);
      InTimeHolds(Run(OPENING, es[..i]), es[i]);
    }
  }

  // ------------------------------------------------------------ two runs with a late write

  const TERMS := Terms(0, 0)
  const PAYMENT := Payload(2, TERMS, Some(0), 7)
  const SETTLED := Tx(0, 9)
  const CALL_1 := Call(1, 5, 100, 0, 90, Checking)
  const CALL_2 := Call(1, 5, 100, 0, 180, Checking)
  const RETRY := CALL_2.(stage := Paying)

  function LateDb(status: Status, lease: int, updated: int, settled: bool): Db {
    Db(map[1 := Topup(5, 100, [TERMS], 0, status, Some(7), lease, 0, updated, if settled then Some(SETTLED) else None)],
       if settled then map[OfProof(7) := 1, OfTx(SETTLED) := 1] else map[OfProof(7) := 1],
       if settled then map[5 := 100] else map[])
  }

  function LateWorld(status: Status, settled: bool, calls: map<nat, Call>): World {
    World(LateDb(status, 180, 90, settled), calls, if settled then [1] else [], 90)
  }

  /** Call 1 has outlived its lease. */
  lemma Overdue(late: nat, unclean: nat) returns (es: seq<Event>)
    requires late >= 3 && unclean >= 3
    ensures Marked(es, late, unclean) && |es| == 3
    ensures Run(OPENING, es) == World(LateDb(Verifying, 90, 0, false), map[1 := CALL_1], [], 90)
  {
    es := Then([], Ordered(1, 5, 100, [TERMS], 0), late, unclean);
    es := Then(es, Began(1, 1, 5, PAYMENT), late, unclean);
    es := Then(es, Waited(90), late, unclean);
  }

  lemma TakesOver()
    ensures Perform(World(LateDb(Verifying, 90, 0, false), map[1 := CALL_1], [], 90), Began(2, 1, 5, PAYMENT)) ==
            LateWorld(Verifying, false, map[1 := CALL_1, 2 := CALL_2])
  {
    var w := World(LateDb(Verifying, 90, 0, false), map[1 := CALL_1], [], 90);
    assert Perform(w, Began(2, 1, 5, PAYMENT)).calls == map[1 := CALL_1, 2 := CALL_2];
  }

  /** Begin as a retry of the pending payment. */
  lemma Retries(k: nat, settled: bool, calls: map<nat, Call>)
    requires k !in calls
    ensures Perform(LateWorld(Pending, settled, calls), Began(k, 1, 5, PAYMENT)) ==
            LateWorld(Settling, settled, calls[k := RETRY])
  {
  }

  lemma Verifies(calls: map<nat, Call>)
    requires 2 in calls && calls[2] == CALL_2
    ensures Perform(LateWorld(if 3 in calls then Settling else Verifying, false, calls), Verified(2, true)) ==
            LateWorld(Settling, false, calls[2 := RETRY])
  {
  }

  lemma Completes(calls: map<nat, Call>)
    requires 2 in calls && calls[2] == RETRY
    ensures Perform(LateWorld(Settling, false, calls), Settled(2, true, SETTLED)) ==
            LateWorld(Complete, true, calls - {2})
  {
    var w, v := Perform(LateWorld(Settling, false, calls), Settled(2, true, SETTLED)), LateDb(Complete, 180, 90, true);
    assert w.db.topups == v.topups;
    assert w.db.claims == v.claims;
    assert w.db.paid == v.paid;
  }

  lemma MarksPending(k: nat, status: Status, settled: bool, calls: map<nat, Call>)
    requires k in calls && calls[k].order == 1
    ensures Perform(LateWorld(status, settled, calls), Unsure(k)) == LateWorld(Pending, settled, calls - {k})
  {
  }

  lemma CompletesAgain(k: nat)
    ensures var w := Perform(LateWorld(Settling, true, map[k := RETRY]), Settled(k, true, SETTLED));
            w.granted == [1, 1] && Paid(w.db, 5) == 200 && w.db.topups.Keys == {1} && w.db.topups[1].credits == 100
  {
    var w := Perform(LateWorld(Settling, true, map[k := RETRY]), Settled(k, true, SETTLED));
    assert w.db.paid == map[5 := 200];
  }

  /** The one late event of a run, and the one status write that finds a complete row. */
  ghost predicate Marked(es: seq<Event>, late: nat, unclean: nat) {
    forall i :: 0 <= i < |es| ==> MarkedAt(Run(OPENING, es[..i]), es[i], i, late, unclean)
  }

  predicate MarkedAt(w: World, e: Event, i: nat, late: nat, unclean: nat) {
    (InTime(w, e) <==> i != late) && (Clean(w, e) <==> i != unclean)
  }

  lemma Then(es: seq<Event>, e: Event, late: nat, unclean: nat) returns (fs: seq<Event>)
    requires Marked(es, late, unclean) && MarkedAt(Run(OPENING, es), e, |es|, late, unclean)
    ensures Marked(fs, late, unclean) && Run(OPENING, fs) == Perform(Run(OPENING, es), e) && |fs| == |es| + 1
  {
    fs := es + [e];
    assert fs[..|fs| - 1] == es;
    forall i | 0 <= i < |fs|
      ensures MarkedAt(Run(OPENING, fs[..i]), fs[i], i, late, unclean)
    {
      if i < |es| {
        assert fs[..i] == es[..i] && fs[i] == es[i];
      } else {
        assert fs[..i] == es;
      }
    }
  }

  predicate CreditedTwice(w: World) {
    w.granted == [1, 1] && Paid(w.db, 5) == 200 && w.db.topups.Keys == {1} && w.db.topups[1].credits == 100
  }

  lemma TakenOver(late: nat, unclean: nat) returns (es: seq<Event>)
    requires late >= 4 && unclean >= 4
    ensures Marked(es, late, unclean) && |es| == 4
    ensures Run(OPENING, es) == LateWorld(Verifying, false, map[1 := CALL_1, 2 := CALL_2])
  {
    es := Overdue(late, unclean);
    TakesOver();
    es := Then(es, Began(2, 1, 5, PAYMENT), late, unclean);
  }

  /** Call 2 verifies and completes, whatever other call is there. */
  lemma SecondCompletes(es: seq<Event>, late: nat, unclean: nat, calls: map<nat, Call>) returns (fs: seq<Event>)
    requires (|es| + 1 < late || late < |es|) && |es| + 1 < unclean
    requires Marked(es, late, unclean) && calls.Keys <= {1, 2, 3} && 2 in calls && calls[2] == CALL_2
    requires Run(OPENING, es) == LateWorld(if 3 in calls then Settling else Verifying, false, calls)
    ensures Marked(fs, late, unclean) && |fs| == |es| + 2
    ensures Run(OPENING, fs) == LateWorld(Complete, true, calls - {2})
  {
    Verifies(calls);
    fs := Then(es, Verified(2, true), late, unclean);
    Completes(calls[2 := RETRY]);
    assert calls[2 := RETRY] - {2} == calls - {2};
    fs := Then(fs, Settled(2, true, SETTLED), late, unclean);
  }

  /** A retry of the pending payment, by a new call. */
  lemma RetriedAgain(es: seq<Event>, k: nat, late: nat, unclean: nat) returns (fs: seq<Event>)
    requires Marked(es, late, unclean) && late < |es| && unclean < |es|
    requires Run(OPENING, es) == LateWorld(Pending, true, map[])
    ensures Marked(fs, late, unclean) && |fs| == |es| + 2 && CreditedTwice(Run(OPENING, fs))
  {
    Retries(k, true, map[]);
    fs := Then(es, Began(k, 1, 5, PAYMENT), late, unclean);
    CompletesAgain(k);
    fs := Then(fs, Settled(k, true, SETTLED), late, unclean);
  }

  /** Call 1 outlives its lease, call 2 completes the order, call 1 then marks it pending, and call 3 settles the same
      payment again: one order, credited twice, by one late write. */
  lemma OverrunCreditsTwice() returns (es: seq<Event>)
    ensures CreditedTwice(Run(OPENING, es)) && Marked(es, 6, 6) && |es| == 9
  {
    es := TakenOver(6, 6);
    es := SecondCompletes(es, 6, 6, map[1 := CALL_1, 2 := CALL_2]);
    MarksPending(1, Complete, true, map[1 := CALL_1]);
    es := Then(es, Unsure(1), 6, 6);
    es := RetriedAgain(es, 3, 6, 6);
  }

  /** The first late write finds the order not complete. */
  lemma SharedOrder() returns (es: seq<Event>)
    ensures Marked(es, 4, 8) && |es| == 6
    ensures Run(OPENING, es) == LateWorld(Settling, false, map[2 := CALL_2, 3 := RETRY])
  {
    es := TakenOver(4, 8);
    MarksPending(1, Verifying, false, map[1 := CALL_1, 2 := CALL_2]);
    assert map[1 := CALL_1, 2 := CALL_2] - {1} == map[2 := CALL_2];
    es := Then(es, Unsure(1), 4, 8);
    Retries(3, false, map[2 := CALL_2]);
    assert map[2 := CALL_2][3 := RETRY] == map[2 := CALL_2, 3 := RETRY];
    es := Then(es, Began(3, 1, 5, PAYMENT), 4, 8);
  }

  /** The late write itself may be clean and still undo the lease: call 1 marks the order pending while call 2 holds
      it, so call 3 can start, and within its lease it marks the order pending after call 2 has completed it. */
  lemma OverrunCreditsTwiceLater() returns (es: seq<Event>)
    ensures CreditedTwice(Run(OPENING, es)) && Marked(es, 4, 8) && |es| == 11
  {
    es := SharedOrder();
    es := SecondCompletes(es, 4, 8, map[2 := CALL_2, 3 := RETRY]);
    MarksPending(3, Complete, true, map[3 := RETRY]);
    es := Then(es, Unsure(3), 4, 8);
    es := RetriedAgain(es, 4, 4, 8);
  }
}
