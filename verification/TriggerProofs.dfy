/** Any interleaving of requests and timer ticks: when recorded starts keep their distance, and that no submission is
    forgotten. */
module TriggerProofs {
  import opened Wrappers
  import opened Trigger

  /** The process has taken a turn and not yet learned that it started, nor given the turn back. */
  predicate Holding(p: Process) { p.phase.Dispatching? || p.phase.Returning? }

  /** The process has a start on record. */
  predicate Recorded(p: Process) { Holding(p) || p.phase.Started? || p.phase.Lost? }

  predicate Serving(procs: map<nat, Process>, k: nat) {
    k in procs && (procs[k].phase.Started? || Holding(procs[k]))
  }

  predicate Fresh(b: Bucket, p: Process) { p.seen.Some? && p.seen.value.tag == Tag(b) }

  // ------------------------------------------------------------ the recorded starts

  function LastStart(starts: seq<Start>): int { if starts == [] then 0 else starts[|starts| - 1].at }

  predicate Spaced(starts: seq<Start>) {
    forall i, j :: 0 <= i < j < |starts| ==> starts[j].at - starts[i].at >= WINDOW
  }

  predicate Has(starts: seq<Start>, s: Start) { exists i :: 0 <= i < |starts| && starts[i] == s }

  /** The time of the start before a process's own. */
  function Before(starts: seq<Start>, k: nat): int
    decreases |starts|
  {
    if starts == [] then 0
    else if starts[|starts| - 1].who == k then LastStart(starts[..|starts| - 1])
    else Before(starts[..|starts| - 1], k)
  }

  /** Spaced, and a window after the epoch. */
  predicate Regular(starts: seq<Start>) { Spaced(starts) && (starts != [] ==> starts[0].at >= WINDOW) }

  lemma RegularFront(starts: seq<Start>)
    requires Regular(starts) && starts != []
    ensures Regular(starts[..|starts| - 1]) && LastStart(starts) - LastStart(starts[..|starts| - 1]) >= WINDOW
  {
  }

  lemma RegularAppend(starts: seq<Start>, next: Start)
    requires Regular(starts) && next.at - LastStart(starts) >= WINDOW
    ensures Regular(starts + [next])
  {
    forall i | 0 <= i < |starts|
      ensures next.at - starts[i].at >= WINDOW
    {
      if i < |starts| - 1 { assert starts[|starts| - 1].at - starts[i].at >= WINDOW; }
    }
  }

  /** A start on record is a window after the one before it, and no later than the last. */
  lemma {:induction false} BeforeEarlier(starts: seq<Start>, s: Start)
    requires Regular(starts) && Has(starts, s)
    ensures Before(starts, s.who) + WINDOW <= LastStart(starts) && s.at <= LastStart(starts)
    decreases |starts|
  {
    RegularFront(starts);
    if starts[|starts| - 1].who != s.who {
      var i :| 0 <= i < |starts| && starts[i] == s;
      assert starts[..|starts| - 1][i] == s;
      BeforeEarlier(starts[..|starts| - 1], s);
    }
  }

  /** Only the last start is at the last time. */
  lemma LastIsOwn(starts: seq<Start>, s: Start)
    requires Regular(starts) && Has(starts, s)
    ensures LastStart(starts) == s.at <==> starts[|starts| - 1] == s
    ensures LastStart(starts) != s.at ==> LastStart(starts) - s.at >= WINDOW
  {
    var i :| 0 <= i < |starts| && starts[i] == s;
  }

  /** Taking back a start that is not the last leaves the last time as it is. */
  lemma WithoutEarlier(starts: seq<Start>, k: nat)
    requires starts != [] && starts[|starts| - 1].who != k
    ensures LastStart(Without(starts, k)) == LastStart(starts)
  {
  }

  // ------------------------------------------------------------ what every run keeps

  predicate Tags(b: Bucket, procs: map<nat, Process>) {
    b.etag <= b.counter &&
    forall k :: k in procs && procs[k].seen.Some? ==>
      Active(procs[k]) && (procs[k].seen.value.tag.Some? ==> procs[k].seen.value.tag.value <= b.counter)
  }

  /** A write that would win writes what its change makes of the object as it is now. */
  predicate Views(b: Bucket, procs: map<nat, Process>) {
    forall k :: k in procs && Fresh(b, procs[k]) ==>
      var p := procs[k];
      Change(p.phase, p.now, p.previous, Current(b)) == Some(p.seen.value.next) &&
      (p.phase.Taking? ==> p.previous == Current(b).last)
  }

  predicate Clocks(procs: map<nat, Process>, time: int) { forall k :: k in procs ==> procs[k].now <= time }

  /** Every recorded start is its process's own, at that process's time. */
  predicate Owned(procs: map<nat, Process>, starts: seq<Start>) {
    forall i :: 0 <= i < |starts| ==>
      starts[i].who in procs && Recorded(procs[starts[i].who]) && starts[i].at == procs[starts[i].who].now
  }

  /** A turn in flight is on record, and its process remembers the start before. */
  predicate HeldTurns(procs: map<nat, Process>, starts: seq<Start>) {
    forall k :: k in procs && Holding(procs[k]) ==>
      Has(starts, Start(k, procs[k].now)) && procs[k].previous == Before(starts, k)
  }

  predicate Turns(procs: map<nat, Process>, starts: seq<Start>, last: int) {
    last == LastStart(starts) && Regular(starts) && Owned(procs, starts) && HeldTurns(procs, starts)
  }

  predicate Kept(w: World) {
    Tags(w.bucket, w.procs) && Views(w.bucket, w.procs) && Clocks(w.procs, w.time) &&
    Turns(w.procs, w.starts, Current(w.bucket).last)
  }

  // ------------------------------------------------------------ give-backs, exactly

  /** Giving a turn back leaves the object's last start the last one on record exactly when the object still shows the
      process's own start, which the change could look at before it writes. */
  lemma GiveBackExactly(w: World, k: nat)
    requires Kept(w) && k in w.procs && w.procs[k].phase.Returning? && Fresh(w.bucket, w.procs[k])
    ensures var v := Writing(w, k);
            Current(v.bucket).last == LastStart(v.starts) <==> Current(w.bucket).last == w.procs[k].now
  {
    var own := Start(k, w.procs[k].now);
    assert Has(w.starts, own);
    LastIsOwn(w.starts, own);
    BeforeEarlier(w.starts, own);
    if w.starts[|w.starts| - 1] != own {
      if w.starts[|w.starts| - 1].who != k { WithoutEarlier(w.starts, k); }
    }
  }

  /** The condition, on an event. */
  predicate OwnTurn(w: World, e: Event) {
    e.Wrote? && e.p in w.procs && w.procs[e.p].phase.Returning? && Fresh(w.bucket, w.procs[e.p]) ==>
      Current(w.bucket).last == w.procs[e.p].now
  }

  predicate OwnTurns(es: seq<Event>) {
    forall i :: 0 <= i < |es| ==> OwnTurn(Run(OPENING, es[..i]), es[i])
  }

  /** A process moves on without writing: its time stays, and it neither gains nor loses a start. */
  lemma TurnsStay(procs: map<nat, Process>, starts: seq<Start>, last: int, k: nat, p: Process)
    requires Turns(procs, starts, last)
    requires k in procs ==> p.now == procs[k].now && (Recorded(procs[k]) ==> Recorded(p))
    requires Holding(p) ==> k in procs && Holding(procs[k]) && p.previous == procs[k].previous
    ensures Turns(procs[k := p], starts, last)
  {
  }

  lemma TagsStay(b: Bucket, procs: map<nat, Process>, k: nat, p: Process)
    requires Tags(b, procs) && Views(b, procs)
    requires p.seen.None? ||
             (Active(p) && p.seen.value.tag == Tag(b) &&
              Change(p.phase, p.now, p.previous, Current(b)) == Some(p.seen.value.next) &&
              (p.phase.Taking? ==> p.previous == Current(b).last))
    ensures Tags(b, procs[k := p]) && Views(b, procs[k := p])
  {
  }

  /** A winning write makes every other view stale. */
  lemma WriteStales(b: Bucket, procs: map<nat, Process>, k: nat, p: Process, next: Control)
    requires Tags(b, procs) && p.seen.None?
    ensures var after := Bucket(Some(next), b.counter + 1, b.counter + 1);
            Tags(after, procs[k := p]) && Views(after, procs[k := p]) &&
            forall j :: j in procs && j != k ==> !Fresh(after, procs[j])
  {
  }

  lemma ReadKept(w: World, k: nat)
    requires Kept(w) && k in w.procs && Active(w.procs[k]) && w.procs[k].seen.None?
    ensures Kept(Reading(w, k))
  {
    var p := Reading(w, k).procs[k];
    TagsStay(w.bucket, w.procs, k, p);
    TurnsStay(w.procs, w.starts, Current(w.bucket).last, k, p);
  }

  lemma MarkedKept(w: World, k: nat)
    requires Kept(w) && k in w.procs && w.procs[k].phase.Marking? && Fresh(w.bucket, w.procs[k])
    ensures Kept(Writing(w, k)) && Current(Writing(w, k).bucket) == Current(w.bucket).(pending := true)
  {
    var p := After(w.procs[k], true);
    WriteStales(w.bucket, w.procs, k, p, w.procs[k].seen.value.next);
    TurnsStay(w.procs, w.starts, Current(w.bucket).last, k, p);
  }

  lemma OwnedAppend(procs: map<nat, Process>, starts: seq<Start>, k: nat, p: Process)
    requires Owned(procs, starts) && p.phase.Dispatching? && k in procs && !Recorded(procs[k])
    ensures Owned(procs[k := p], starts + [Start(k, p.now)])
  {
  }

  lemma HeldAppend(procs: map<nat, Process>, starts: seq<Start>, k: nat, p: Process)
    requires HeldTurns(procs, starts) && p.previous == LastStart(starts) && k in procs && !Recorded(procs[k])
    ensures HeldTurns(procs[k := p], starts + [Start(k, p.now)])
  {
    var more := starts + [Start(k, p.now)];
    assert more[..|more| - 1] == starts && more[|more| - 1] == Start(k, p.now);
    forall j | j in procs && j != k && Holding(procs[j])
      ensures Has(more, Start(j, procs[j].now)) && procs[j].previous == Before(more, j)
    {
      var i :| 0 <= i < |starts| && starts[i] == Start(j, procs[j].now);
      assert more[i] == Start(j, procs[j].now);
    }
  }

  /** The new turn is the last start, a window after the one before. */
  lemma TakenTurns(procs: map<nat, Process>, starts: seq<Start>, last: int, k: nat, p: Process)
    requires Turns(procs, starts, last) && p.phase.Dispatching? && p.previous == last && p.now - last >= WINDOW
    requires k in procs && !Recorded(procs[k])
    ensures Turns(procs[k := p], starts + [Start(k, p.now)], p.now)
  {
    RegularAppend(starts, Start(k, p.now));
    OwnedAppend(procs, starts, k, p);
    HeldAppend(procs, starts, k, p);
  }

  lemma TakenKept(w: World, k: nat)
    requires Kept(w) && k in w.procs && w.procs[k].phase.Taking? && Fresh(w.bucket, w.procs[k])
    ensures Kept(Writing(w, k)) && Current(Writing(w, k).bucket) == Control(false, w.procs[k].now)
  {
    var p := After(w.procs[k], true);
    WriteStales(w.bucket, w.procs, k, p, w.procs[k].seen.value.next);
    TakenTurns(w.procs, w.starts, Current(w.bucket).last, k, p);
  }

  lemma OwnedFront(procs: map<nat, Process>, starts: seq<Start>, k: nat, p: Process)
    requires Regular(starts) && Owned(procs, starts) && starts != [] && starts[|starts| - 1].who == k
    ensures Owned(procs[k := p], starts[..|starts| - 1])
  {
    var front := starts[..|starts| - 1];
    assert forall i :: 0 <= i < |front| ==> front[i] == starts[i] && front[i].who != k;
  }

  /** Taking back the last start restores what its process remembers. */
  lemma ReturnedTurns(procs: map<nat, Process>, starts: seq<Start>, k: nat, p: Process)
    requires k in procs && Turns(procs, starts, procs[k].now) && procs[k].phase.Returning? && p.phase.Over?
    ensures Turns(procs[k := p], Without(starts, k), procs[k].previous)
  {
    var own := Start(k, procs[k].now);
    assert Has(starts, own);
    LastIsOwn(starts, own);
    RegularFront(starts);
    var front := starts[..|starts| - 1];
    OwnedFront(procs, starts, k, p);
    forall j | j in procs && j != k && Holding(procs[j])
      ensures Has(front, Start(j, procs[j].now)) && procs[j].previous == Before(front, j)
    {
      var i :| 0 <= i < |starts| && starts[i] == Start(j, procs[j].now);
      assert front[i] == starts[i];
    }
  }

  lemma ReturnedKept(w: World, k: nat)
    requires Kept(w) && k in w.procs && w.procs[k].phase.Returning? && Fresh(w.bucket, w.procs[k])
    requires Current(w.bucket).last == w.procs[k].now
    ensures Kept(Writing(w, k)) && Current(Writing(w, k).bucket) == Control(true, w.procs[k].previous)
  {
    var p := After(w.procs[k], true);
    WriteStales(w.bucket, w.procs, k, p, w.procs[k].seen.value.next);
    ReturnedTurns(w.procs, w.starts, k, p);
  }

  lemma LostKept(w: World, k: nat)
    requires Kept(w) && k in w.procs && w.procs[k].seen.Some? && !Fresh(w.bucket, w.procs[k])
    ensures Kept(Writing(w, k))
  {
    var p := Writing(w, k).procs[k];
    TagsStay(w.bucket, w.procs, k, p);
    TurnsStay(w.procs, w.starts, Current(w.bucket).last, k, p);
  }

  lemma WroteKept(w: World, k: nat)
    requires Kept(w) && OwnTurn(w, Wrote(k)) && k in w.procs && Active(w.procs[k]) && w.procs[k].seen.Some?
    ensures Kept(Writing(w, k))
  {
    if !Fresh(w.bucket, w.procs[k]) {
      LostKept(w, k);
    } else if w.procs[k].phase.Marking? {
      MarkedKept(w, k);
    } else if w.procs[k].phase.Taking? {
      TakenKept(w, k);
    } else {
      ReturnedKept(w, k);
    }
  }

  lemma MovedKept(w: World, e: Event)
    requires Kept(w) && (e.Notified? || e.Ticked? || e.Dispatched? || e.Waited?)
    ensures Kept(Perform(w, e))
  {
    var v := Perform(w, e);
    if !e.Waited? && e.p in v.procs {
      TurnsStay(w.procs, w.starts, Current(w.bucket).last, e.p, v.procs[e.p]);
      assert w.procs[e.p := v.procs[e.p]] == v.procs;
    }
  }

  lemma PerformKept(w: World, e: Event)
    requires Kept(w) && OwnTurn(w, e)
    ensures Kept(Perform(w, e))
  {
    match e
    case Read(k) => if k in w.procs && Active(w.procs[k]) && w.procs[k].seen.None? { ReadKept(w, k); }
    case Wrote(k) => if k in w.procs && Active(w.procs[k]) && w.procs[k].seen.Some? { WroteKept(w, k); }
    case _ => MovedKept(w, e);
  }

  lemma {:induction false} RunKept(es: seq<Event>, i: nat)
    requires i <= |es| && forall j :: 0 <= j < i ==> OwnTurn(Run(OPENING, es[..j]), es[j])
    ensures Kept(Run(OPENING, es[..i]))
    decreases i
  {
    if i > 0 {
      RunKept(es, i - 1);
      assert es[..i][..i - 1] == es[..i - 1];
      PerformKept(Run(OPENING, es[..i - 1]), es[i - 1]);
    }
  }

  /** However slow the turns are: recorded starts stay a window apart while every give-back finds its own start. */
  lemma OwnTurnsSpaced(es: seq<Event>)
    requires OwnTurns(es)
    ensures Spaced(Run(OPENING, es).starts)
  {
    RunKept(es, |es|);
    assert es[..|es|] == es;
  }

  /** A give-back that does not, while the window of the last start is still open, lets the next tick start at once. */
  lemma MissedTurnBreaks(w: World, k: nat, n: nat)
    requires Kept(w) && k in w.procs && w.procs[k].phase.Returning? && Fresh(w.bucket, w.procs[k]) && n !in w.procs
    requires Current(w.bucket).last != w.procs[k].now && w.time - Current(w.bucket).last < WINDOW
    ensures !Spaced(Perform(Perform(Perform(Writing(w, k), Ticked(n)), Read(n)), Wrote(n)).starts)
  {
    var own := Start(k, w.procs[k].now);
    assert Has(w.starts, own);
    LastIsOwn(w.starts, own);
    BeforeEarlier(w.starts, own);
    var last := w.starts[|w.starts| - 1];
    assert last.who != k by { assert Owned(w.procs, w.starts); }
    var v := Writing(w, k);
    assert v.starts[|v.starts| - 1] == last && Current(v.bucket) == Control(true, w.procs[k].previous);
    assert last.at <= w.time by { assert Clocks(w.procs, w.time) && Owned(w.procs, w.starts); }
    var more := v.starts + [Start(n, w.time)];
    assert more[|more| - 2] == last && more[|more| - 1].at - last.at < WINDOW;
    TickTakes(v, n, w.procs[k].previous);
  }

  /** A tick on its own takes a turn that is due. */
  lemma TickTakes(w: World, n: nat, last: int)
    requires n !in w.procs && Current(w.bucket) == Control(true, last) && w.time - last >= WINDOW
    ensures Perform(Perform(Perform(w, Ticked(n)), Read(n)), Wrote(n)).starts == w.starts + [Start(n, w.time)]
  {
  }

  // ------------------------------------------------------------ prompt turns

  /** The assumption: a turn is over within the window, counted from the process's own start. */
  predicate Prompt(w: World) {
    forall k :: k in w.procs && Holding(w.procs[k]) ==> w.time < w.procs[k].now + WINDOW
  }

  predicate AlwaysPrompt(es: seq<Event>) { forall i :: 0 <= i <= |es| ==> Prompt(Run(OPENING, es[..i])) }

  /** While turns are prompt, the turn in flight is the last start, so there is one at most. */
  lemma PromptIsLast(w: World, k: nat)
    requires Kept(w) && Prompt(w) && k in w.procs && Holding(w.procs[k])
    ensures w.starts != [] && w.starts[|w.starts| - 1].who == k && Current(w.bucket).last == w.procs[k].now
  {
    var own := Start(k, w.procs[k].now);
    assert Has(w.starts, own);
    LastIsOwn(w.starts, own);
    var last := w.starts[|w.starts| - 1];
    assert last.at <= w.time by { assert Clocks(w.procs, w.time) && Owned(w.procs, w.starts); }
  }

  /** So every give-back finds its own start. */
  lemma PromptOwns(w: World, e: Event)
    requires Kept(w) && Prompt(w)
    ensures OwnTurn(w, e)
  {
    if e.Wrote? && e.p in w.procs && w.procs[e.p].phase.Returning? { PromptIsLast(w, e.p); }
  }

  /** A give-back can only lose to the one mark that makes work pending again. */
  predicate Returns(b: Bucket, procs: map<nat, Process>) {
    forall k :: k in procs ==> ReturnOk(b, procs[k])
  }

  predicate ReturnOk(b: Bucket, p: Process) {
    !p.phase.Lost? &&
    (p.phase.Returning? ==>
      p.failed <= 1 && (p.failed == 1 ==> Current(b).pending) &&
      (p.seen.Some? && (p.failed == 1 || !Current(b).pending) ==> Fresh(b, p))) &&
    (p.phase.Dispatching? ==> p.failed == 0 && p.seen.None?)
  }

  /** The mark at position i of the log is still pending, or a turn taken after it runs or has started. */
  ghost predicate Served(procs: map<nat, Process>, log: seq<Entry>, pending: bool, i: nat) {
    pending || exists j :: i < j < |log| && log[j].Taken? && Serving(procs, log[j].who)
  }

  ghost predicate Marks(procs: map<nat, Process>, log: seq<Entry>, pending: bool) {
    forall i :: 0 <= i < |log| && log[i].Marked? ==> Served(procs, log, pending, i)
  }

  ghost predicate Inv(w: World) {
    Kept(w) && Returns(w.bucket, w.procs) && Marks(w.procs, w.log, Current(w.bucket).pending)
  }

  /** While a turn is held nobody else can win one. */
  lemma NoSecondTurn(w: World, k: nat, h: nat)
    requires Kept(w) && Prompt(w) && k in w.procs && h in w.procs && Holding(w.procs[h])
    ensures !(w.procs[k].phase.Taking? && Fresh(w.bucket, w.procs[k]))
  {
    PromptIsLast(w, h);
  }

  /** A log that grows at its end, over processes that keep serving, serves every earlier mark. */
  lemma MarksStay(procs: map<nat, Process>, log: seq<Entry>, pending: bool, procs': map<nat, Process>,
                  log': seq<Entry>)
    requires Marks(procs, log, pending) && |log| <= |log'| && log == log'[..|log|]
    requires forall k :: Serving(procs, k) ==> Serving(procs', k)
    requires forall i :: |log| <= i < |log'| ==> log'[i].Marked? && pending
    ensures Marks(procs', log', pending)
  {
    forall i | 0 <= i < |log'| && log'[i].Marked?
      ensures Served(procs', log', pending, i)
    {
      if i < |log| && !pending {
        assert Served(procs, log, pending, i);
        var j :| i < j < |log| && log[j].Taken? && Serving(procs, log[j].who);
        assert log'[j] == log[j];
      }
    }
  }

  lemma ReadInv(w: World, k: nat)
    requires Inv(w) && k in w.procs && Active(w.procs[k]) && w.procs[k].seen.None?
    ensures Inv(Reading(w, k))
  {
    var v := Reading(w, k);
    ReadKept(w, k);
    assert ReturnOk(w.bucket, w.procs[k]) && ReturnOk(v.bucket, v.procs[k]);
    assert forall j :: Serving(w.procs, j) ==> Serving(v.procs, j);
    MarksStay(w.procs, w.log, Current(w.bucket).pending, v.procs, v.log);
  }

  lemma MarkedInv(w: World, k: nat)
    requires Inv(w) && k in w.procs && w.procs[k].phase.Marking? && Fresh(w.bucket, w.procs[k])
    ensures Inv(Writing(w, k))
  {
    MarkedKept(w, k);
    assert !Current(w.bucket).pending;
    forall j | j in w.procs
      ensures ReturnOk(Writing(w, k).bucket, Writing(w, k).procs[j])
    {
      assert ReturnOk(w.bucket, w.procs[j]);
    }
  }

  lemma TakenInv(w: World, k: nat)
    requires Inv(w) && Prompt(w) && k in w.procs && w.procs[k].phase.Taking? && Fresh(w.bucket, w.procs[k])
    ensures Inv(Writing(w, k))
  {
    TakenKept(w, k);
    var v := Writing(w, k);
    forall j | j in v.procs
      ensures ReturnOk(v.bucket, v.procs[j])
    {
      assert ReturnOk(w.bucket, w.procs[j]);
      if Holding(w.procs[j]) { NoSecondTurn(w, k, j); }
    }
    assert v.log[|w.log|] == Taken(k) && Serving(v.procs, k);
  }

  lemma ReturnedInv(w: World, k: nat)
    requires Inv(w) && Prompt(w) && k in w.procs && w.procs[k].phase.Returning? && Fresh(w.bucket, w.procs[k])
    ensures Inv(Writing(w, k))
  {
    PromptIsLast(w, k);
    ReturnedKept(w, k);
    var v := Writing(w, k);
    forall j | j in v.procs
      ensures ReturnOk(v.bucket, v.procs[j])
    {
      assert ReturnOk(w.bucket, w.procs[j]);
      if j != k && Holding(w.procs[j]) { PromptIsLast(w, j); }
    }
  }

  lemma LostInv(w: World, k: nat)
    requires Inv(w) && k in w.procs && w.procs[k].seen.Some? && !Fresh(w.bucket, w.procs[k])
    ensures Inv(Writing(w, k))
  {
    var v := Writing(w, k);
    LostKept(w, k);
    assert ReturnOk(w.bucket, w.procs[k]);
    MarksStay(w.procs, w.log, Current(w.bucket).pending, v.procs, v.log);
  }

  lemma WroteInv(w: World, k: nat)
    requires Inv(w) && Prompt(w) && k in w.procs && Active(w.procs[k]) && w.procs[k].seen.Some?
    ensures Inv(Writing(w, k))
  {
    if !Fresh(w.bucket, w.procs[k]) {
      LostInv(w, k);
    } else if w.procs[k].phase.Marking? {
      MarkedInv(w, k);
    } else if w.procs[k].phase.Taking? {
      TakenInv(w, k);
    } else {
      ReturnedInv(w, k);
    }
  }

  lemma DispatchedInv(w: World, k: nat, accepted: bool)
    requires Inv(w)
    ensures Inv(Perform(w, Dispatched(k, accepted)))
  {
    var v := Perform(w, Dispatched(k, accepted));
    MovedKept(w, Dispatched(k, accepted));
    if k in w.procs { assert ReturnOk(w.bucket, w.procs[k]); }
    MarksStay(w.procs, w.log, Current(w.bucket).pending, v.procs, v.log);
  }

  lemma ArrivedInv(w: World, e: Event)
    requires Inv(w) && (e.Notified? || e.Ticked? || e.Waited?)
    ensures Inv(Perform(w, e))
  {
    var v := Perform(w, e);
    MovedKept(w, e);
    MarksStay(w.procs, w.log, Current(w.bucket).pending, v.procs, v.log);
  }

  lemma PerformInv(w: World, e: Event)
    requires Inv(w) && Prompt(w)
    ensures Inv(Perform(w, e))
  {
    match e
    case Read(k) => if k in w.procs && Active(w.procs[k]) && w.procs[k].seen.None? { ReadInv(w, k); }
    case Wrote(k) => if k in w.procs && Active(w.procs[k]) && w.procs[k].seen.Some? { WroteInv(w, k); }
    case Dispatched(k, accepted) => DispatchedInv(w, k, accepted);
    case _ => ArrivedInv(w, e);
  }

  lemma {:induction false} RunInv(es: seq<Event>)
    requires AlwaysPrompt(es)
    ensures Inv(Run(OPENING, es))
    decreases |es|
  {
    if es != [] {
      var front := es[..|es| - 1];
      assert forall i :: 0 <= i <= |front| ==> front[..i] == es[..i];
      assert es[..|front|] == front;
      RunInv(front);
      PerformInv(Run(OPENING, front), es[|es| - 1]);
    }
  }

  /** Any interleaving of requests and ticks: recorded starts are a window apart, at most one is in flight,
      no turn given back is lost, and no marked submission is forgotten. */
  lemma EveryRun(es: seq<Event>)
    requires AlwaysPrompt(es)
    ensures var w := Run(OPENING, es);
            Spaced(w.starts) &&
            (forall h, k :: h in w.procs && k in w.procs && Holding(w.procs[h]) && Holding(w.procs[k]) ==> h == k) &&
            (forall k :: k in w.procs ==> !w.procs[k].phase.Lost?) &&
            (forall i :: 0 <= i < |w.log| && w.log[i].Marked? ==>
              Served(w.procs, w.log, Current(w.bucket).pending, i))
  {
    RunInv(es);
    var w := Run(OPENING, es);
    assert es[..|es|] == es;
    forall h, k | h in w.procs && k in w.procs && Holding(w.procs[h]) && Holding(w.procs[k])
      ensures h == k
    {
      PromptIsLast(w, h);
      PromptIsLast(w, k);
    }
    assert forall k :: k in w.procs ==> ReturnOk(w.bucket, w.procs[k]);
  }

  /** When everything is quiet, every marked submission has a workflow start after its mark. */
  lemma QuietMeansStarted(es: seq<Event>, i: nat)
    requires AlwaysPrompt(es)
    requires var w := Run(OPENING, es);
             !Current(w.bucket).pending && i < |w.log| && w.log[i].Marked? &&
             (forall k :: k in w.procs ==> !Holding(w.procs[k]))
    ensures var w := Run(OPENING, es);
            exists j :: i < j < |w.log| && w.log[j].Taken? && w.log[j].who in w.procs &&
                        w.procs[w.log[j].who].phase.Started?
  {
    var w := Run(OPENING, es);
    EveryRun(es);
    assert Served(w.procs, w.log, Current(w.bucket).pending, i);
    var j :| i < j < |w.log| && w.log[j].Taken? && Serving(w.procs, w.log[j].who);
    assert w.procs[w.log[j].who].phase.Started?;
  }

  // ------------------------------------------------------------ a turn that outlives its window

  lemma Then(es: seq<Event>, e: Event) returns (fs: seq<Event>)
    ensures Run(OPENING, fs) == Perform(Run(OPENING, es), e)
  {
    fs := es + [e];
    assert fs[..|fs| - 1] == es;
  }

  /** A read and a write with nothing in between. */
  lemma ThenUpdate(es: seq<Event>, k: nat, next: Control) returns (fs: seq<Event>)
    requires var w := Run(OPENING, es);
             k in w.procs && Active(w.procs[k]) && w.procs[k].seen.None? && Tags(w.bucket, w.procs) &&
             Change(w.procs[k].phase, w.procs[k].now, w.procs[k].previous, Current(w.bucket)) == Some(next)
    ensures var w, v := Run(OPENING, es), Run(OPENING, fs);
            var p := w.procs[k];
            v.bucket == Bucket(Some(next), w.bucket.counter + 1, w.bucket.counter + 1) && v.time == w.time &&
            v.procs == w.procs[k := After(p.(previous := if p.phase.Taking? then Current(w.bucket).last
                                                         else p.previous), true)] &&
            v.starts == (if p.phase.Taking? then w.starts + [Start(k, p.now)]
                         else if p.phase.Returning? then Without(w.starts, k) else w.starts)
  {
    fs := Then(es, Read(k));
    fs := Then(fs, Wrote(k));
  }

  lemma SlowFirst() returns (es: seq<Event>)
    ensures var w := Run(OPENING, es);
            w.bucket == Bucket(Some(Control(false, 600_000)), 2, 2) &&
            w.procs == map[1 := Process(600_000, Returning, 0, None, 0)] &&
            w.starts == [Start(1, 600_000)] && w.time == 600_000
  {
    es := Then([], Waited(600_000));
    es := Then(es, Notified(1));
    es := ThenUpdate(es, 1, Control(true, 0));
    es := ThenUpdate(es, 1, Control(false, 600_000));
    es := Then(es, Dispatched(1, false));
  }

  lemma SlowMark() returns (es: seq<Event>)
    ensures var w := Run(OPENING, es);
            w.bucket == Bucket(Some(Control(true, 600_000)), 3, 3) && w.time == 1_200_000 &&
            w.procs == map[1 := Process(600_000, Returning, 0, None, 0), 2 := Process(1_200_000, Taking, 0, None, 0)] &&
            w.starts == [Start(1, 600_000)]
  {
    es := SlowFirst();
    es := Then(es, Waited(600_000));
    es := Then(es, Notified(2));
    es := ThenUpdate(es, 2, Control(true, 600_000));
  }

  lemma SlowSecond() returns (es: seq<Event>)
    ensures var w := Run(OPENING, es);
            w.bucket == Bucket(Some(Control(false, 1_200_000)), 4, 4) && w.time == 1_200_000 &&
            w.procs == map[1 := Process(600_000, Returning, 0, None, 0),
                           2 := Process(1_200_000, Started, 0, None, 600_000)] &&
            w.starts == [Start(1, 600_000), Start(2, 1_200_000)]
  {
    es := SlowMark();
    es := ThenUpdate(es, 2, Control(false, 1_200_000));
    es := Then(es, Dispatched(2, true));
  }

  /** Such a run. A turn given back after its window erases the turn taken since, and the next tick starts the workflow
      again at once. */
  lemma SlowTurnBreaksSpacing() returns (es: seq<Event>)
    ensures Run(OPENING, es).starts == [Start(2, 1_200_000), Start(3, 1_200_000)]
    ensures !OwnTurns(es)
  {
    es := SlowSecond();
    es := ThenUpdate(es, 1, Control(true, 0));
    assert Run(OPENING, es).starts == [Start(2, 1_200_000)];
    es := Then(es, Ticked(3));
    es := ThenUpdate(es, 3, Control(false, 1_200_000));
    if OwnTurns(es) { OwnTurnsSpaced(es); }
  }
}
