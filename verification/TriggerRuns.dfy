/** A turn and a notification, with everything that others write around them, are runs of the interleaved machine: what
    holds over its runs holds of these methods. */
module TriggerRuns {
  import opened Wrappers
  import opened Trigger
  import opened TriggerProofs

  lemma {:induction false} RunAppend(w: World, a: seq<Event>, b: seq<Event>)
    ensures Run(w, a + b) == Run(Run(w, a), b)
    decreases |b|
  {
    if b == [] {
      assert a + b == a;
    } else {
      assert (a + b)[..|a + b| - 1] == a + b[..|b| - 1];
      RunAppend(w, a, b[..|b| - 1]);
    }
  }

  lemma RunOne(w: World, a: seq<Event>, e: Event)
    ensures Run(w, a + [e]) == Perform(Run(w, a), e)
  {
    assert (a + [e])[..|a + [e]| - 1] == a;
  }

  // ------------------------------------------------------------ what others do meanwhile

  /** The event is not one of the given process. */
  predicate NotBy(e: Event, k: nat) { e.Waited? || e.p != k }

  predicate AllNotBy(es: seq<Event>, k: nat) { forall i :: 0 <= i < |es| ==> NotBy(es[i], k) }

  /** The objects that the winning writes of some events put, in their order. */
  function Writes(w: World, es: seq<Event>): seq<Control>
    decreases |es|
  {
    if es == [] then []
    else
      var before := Run(w, es[..|es| - 1]);
      var after := Perform(before, es[|es| - 1]);
      Writes(w, es[..|es| - 1]) + (if after.bucket == before.bucket then [] else [Current(after.bucket)])
  }

  /** One event of another process leaves a process alone, and the bucket as it was or newly written. */
  lemma OtherEvent(w: World, e: Event, k: nat)
    requires Tags(w.bucket, w.procs) && k in w.procs && NotBy(e, k)
    ensures var v := Perform(w, e);
            Tags(v.bucket, v.procs) && k in v.procs && v.procs[k] == w.procs[k] &&
            (v.bucket == w.bucket ||
             (v.bucket.stored.Some? && v.bucket.etag == v.bucket.counter == w.bucket.counter + 1))
  {
  }

  /** Events of other processes leave a process alone; the object is as their last write left it, under a new tag. */
  lemma {:induction false} OthersWrite(w: World, es: seq<Event>, k: nat)
    requires Tags(w.bucket, w.procs) && k in w.procs && AllNotBy(es, k)
    ensures var (v, writes) := (Run(w, es), Writes(w, es));
            Tags(v.bucket, v.procs) && k in v.procs && v.procs[k] == w.procs[k] &&
            v.bucket.stored == Latest(w.bucket.stored, writes) && v.bucket.counter >= w.bucket.counter &&
            (if writes == [] then v.bucket == w.bucket else v.bucket.etag > w.bucket.counter)
    decreases |es|
  {
    if es != [] {
      var front, e := es[..|es| - 1], es[|es| - 1];
      OthersWrite(w, front, k);
      OtherEvent(Run(w, front), e, k);
    }
  }

  // ------------------------------------------------------------ one update

  /** What an update makes of its process: the phase moves on, or all attempts were lost. */
  predicate Ended(p: Process, q: Process, tried: Tried) {
    match tried
    case Written(c, _) =>
      q == After(p.(previous := if p.phase.Taking? then c.last else p.previous), true)
    case _ => q == After(p.(previous := q.previous), false)
  }

  /** The change that a process asks for. */
  function AskOf(p: Process): Control -> Option<Control> { Ask(p.phase, p.now, p.previous) }

  /** A read that finds nothing to write ends the update. */
  lemma ReadEnds(w: World, k: nat)
    requires k in w.procs && Active(w.procs[k]) && w.procs[k].seen.None? && Tags(w.bucket, w.procs)
    requires AskOf(w.procs[k])(Current(w.bucket)).None?
    ensures var v := Perform(w, Read(k));
            v.bucket == w.bucket && v.procs == w.procs[k := After(w.procs[k], false)] && v.starts == w.starts &&
            Tags(v.bucket, v.procs)
  {
  }

  /** A read that finds something to write remembers what it saw. */
  lemma ReadSees(w: World, k: nat)
    requires k in w.procs && Active(w.procs[k]) && w.procs[k].seen.None? && Tags(w.bucket, w.procs)
    requires AskOf(w.procs[k])(Current(w.bucket)).Some?
    ensures var v := Perform(w, Read(k));
            var p := w.procs[k];
            v.bucket == w.bucket && Tags(v.bucket, v.procs) && k in v.procs &&
            v.procs[k] == p.(seen := Some(Seen(Tag(w.bucket), AskOf(p)(Current(w.bucket)).value)),
                             previous := if p.phase.Taking? then Current(w.bucket).last else p.previous)
  {
  }

  /** A write to an object that has not changed since wins. */
  lemma WriteWins(w: World, k: nat)
    requires k in w.procs && Active(w.procs[k]) && Fresh(w.bucket, w.procs[k]) && Tags(w.bucket, w.procs)
    ensures var v := Perform(w, Wrote(k));
            v.bucket.stored == Some(w.procs[k].seen.value.next) && k in v.procs &&
            v.procs[k] == After(w.procs[k], true) && Tags(v.bucket, v.procs)
  {
  }

  /** A write to one that has loses, and the process tries again while it has attempts left. */
  lemma WriteLoses(w: World, k: nat)
    requires k in w.procs && Active(w.procs[k]) && w.procs[k].seen.Some? && Tags(w.bucket, w.procs)
    requires w.procs[k].seen.value.tag != Tag(w.bucket)
    ensures var (v, p) := (Perform(w, Wrote(k)), w.procs[k]);
            v.bucket == w.bucket && k in v.procs && Tags(v.bucket, v.procs) &&
            v.procs[k] == if p.failed + 1 < ATTEMPTS then p.(failed := p.failed + 1, seen := None) else After(p, false)
  {
  }

  /** Meanwhile has one sequence of others' events for each attempt that is left. */
  predicate Meanwhile(p: Process, k: nat, meanwhile: seq<seq<Event>>) {
    p.failed + |meanwhile| == ATTEMPTS && forall i :: 0 <= i < |meanwhile| ==> AllNotBy(meanwhile[i], k)
  }

  /** A process at the start of an attempt. */
  predicate Ready(w: World, k: nat) {
    Tags(w.bucket, w.procs) && k in w.procs && Active(w.procs[k]) && w.procs[k].seen.None? &&
    w.procs[k].failed < ATTEMPTS
  }

  /** The events of an update, attempt by attempt, and what the others wrote in each. They lead where the update does.
      */
  lemma {:induction false} UpdateIsARun(w: World, k: nat, meanwhile: seq<seq<Event>>)
    returns (es: seq<Event>, others: seq<seq<Control>>)
    requires Ready(w, k) && Meanwhile(w.procs[k], k, meanwhile)
    ensures |others| == |meanwhile|
    ensures var v := Run(w, es);
            var (held, tried) := Tries(w.bucket.stored, AskOf(w.procs[k]), others);
            Tags(v.bucket, v.procs) && k in v.procs && v.bucket.stored == held && Ended(w.procs[k], v.procs[k], tried)
    decreases |meanwhile|
  {
    var p := w.procs[k];
    assert Run(w, []) == w;
    RunOne(w, [], Read(k));
    assert [] + [Read(k)] == [Read(k)];
    var r := Perform(w, Read(k));
    if AskOf(p)(Current(w.bucket)).None? {
      ReadEnds(w, k);
      es, others := [Read(k)], seq(|meanwhile|, i => []);
    } else {
      ReadSees(w, k);
      var m := Run(r, meanwhile[0]);
      OthersWrite(r, meanwhile[0], k);
      RunAppend(w, [Read(k)], meanwhile[0]);
      var tried := [Read(k)] + meanwhile[0] + [Wrote(k)];
      RunOne(w, [Read(k)] + meanwhile[0], Wrote(k));
      var writes := Writes(r, meanwhile[0]);
      if writes == [] {
        WriteWins(m, k);
        es, others := tried, seq(|meanwhile|, i => []);
      } else {
        WriteLoses(m, k);
        es, others := AgainIsARun(w, k, meanwhile, tried, writes);
      }
    }
  }

  /** After a lost attempt, the rest of the update. */
  lemma {:induction false} AgainIsARun(w: World, k: nat, meanwhile: seq<seq<Event>>, tried: seq<Event>,
                                       writes: seq<Control>)
    returns (es: seq<Event>, others: seq<seq<Control>>)
    requires Ready(w, k) && Meanwhile(w.procs[k], k, meanwhile) && writes != []
    requires AskOf(w.procs[k])(Current(w.bucket)).Some?
    requires var (v, p) := (Run(w, tried), w.procs[k]);
             var q := p.(previous := if p.phase.Taking? then Current(w.bucket).last else p.previous);
             Tags(v.bucket, v.procs) && k in v.procs && v.bucket.stored == Some(Last(writes)) &&
             v.procs[k] == if p.failed + 1 < ATTEMPTS then q.(failed := p.failed + 1, seen := None) else After(q, false)
    ensures |others| == |meanwhile|
    ensures var v := Run(w, es);
            var (held, tried) := Tries(w.bucket.stored, AskOf(w.procs[k]), others);
            Tags(v.bucket, v.procs) && k in v.procs && v.bucket.stored == held && Ended(w.procs[k], v.procs[k], tried)
    decreases |meanwhile|, 0
  {
    var p, v := w.procs[k], Run(w, tried);
    if p.failed + 1 < ATTEMPTS {
      SameAsk(p, v.procs[k]);
      var more, rest := UpdateIsARun(v, k, meanwhile[1..]);
      SameTries(v.bucket.stored, AskOf(p), AskOf(v.procs[k]), rest);
      es, others := tried + more, [writes] + rest;
      RunAppend(w, tried, more);
      assert others[1..] == rest;
    } else {
      es, others := tried, [writes];
      assert others[1..] == [];
    }
  }

  /** Only a give-back asks for what its process remembers, and it remembers it throughout. */
  lemma SameAsk(p: Process, q: Process)
    requires q.phase == p.phase && q.now == p.now && (p.phase.Taking? || q.previous == p.previous)
    ensures forall c :: AskOf(p)(c) == AskOf(q)(c)
  {
  }

  lemma {:induction false} SameTries(stored: Option<Control>, f: Control -> Option<Control>,
                                     g: Control -> Option<Control>, others: seq<seq<Control>>)
    requires forall c :: f(c) == g(c)
    ensures Tries(stored, f, others) == Tries(stored, g, others)
    decreases |others|
  {
    if others != [] && others[0] != [] { SameTries(Some(Last(others[0])), f, g, others[1..]); }
  }

  // ------------------------------------------------------------ a turn

  /** What others do around a turn: while it is taken, while the workflow is asked for, and while it is given back. */
  datatype Meanwhiles = Meanwhiles(taking: seq<seq<Event>>, asking: seq<Event>, returning: seq<seq<Event>>)

  predicate AroundTurn(k: nat, m: Meanwhiles) {
    |m.taking| == ATTEMPTS && |m.returning| == ATTEMPTS && AllNotBy(m.asking, k) &&
    (forall i :: 0 <= i < |m.taking| ==> AllNotBy(m.taking[i], k)) &&
    (forall i :: 0 <= i < |m.returning| ==> AllNotBy(m.returning[i], k))
  }

  /** The process has started its workflow, or is over without one, as the outcome says. */
  predicate Finished(p: Process, outcome: Outcome) {
    (outcome.StartAccepted? <==> p.phase.Started?) &&
    (p.phase.Started? || p.phase.Over? || (outcome.StartRefused? && p.phase.Lost?))
  }

  /** A process about to take its turn, for the first time. */
  predicate AboutTo(w: World, k: nat, phase: Phase) {
    Ready(w, k) && w.procs[k].phase == phase && w.procs[k].failed == 0
  }

  /** Asking for the workflow, and when it is refused, giving the turn back. */
  lemma AskIsARun(w: World, k: nat, m: Meanwhiles, accepted: bool, last: int)
    returns (es: seq<Event>, during: seq<Control>, later: seq<seq<Control>>)
    requires Tags(w.bucket, w.procs) && k in w.procs && w.procs[k].phase.Dispatching? && AroundTurn(k, m)
    requires w.procs[k].failed == 0 && w.procs[k].seen.None? && w.procs[k].previous == last
    ensures |later| == ATTEMPTS
    ensures var v := Run(w, es);
            var after := Latest(w.bucket.stored, during);
            Tags(v.bucket, v.procs) && k in v.procs &&
            (if accepted then v.bucket.stored == after && v.procs[k].phase.Started?
             else v.bucket.stored == Tries(after, Ask(Returning, w.procs[k].now, last), later).0 &&
                  (v.procs[k].phase.Over? || v.procs[k].phase.Lost?))
  {
    OthersWrite(w, m.asking, k);
    during := Writes(w, m.asking);
    var asked := Run(w, m.asking);
    es := m.asking + [Dispatched(k, accepted)];
    RunOne(w, m.asking, Dispatched(k, accepted));
    var told := Perform(asked, Dispatched(k, accepted));
    later := seq(ATTEMPTS, i => []);
    if !accepted {
      var more: seq<Event>;
      more, later := UpdateIsARun(told, k, m.returning);
      RunAppend(w, es, more);
      es := es + more;
    }
  }

  /** The turn of a request or a tick, whatever the others do around it, is a run in which the object ends as the turn
      says, and the process has started exactly when the outcome says so. */
  lemma DueIsARun(w: World, k: nat, m: Meanwhiles, accepted: bool) returns (es: seq<Event>, around: Around)
    requires AboutTo(w, k, Taking) && AroundTurn(k, m)
    ensures |around.others| == ATTEMPTS && |around.later| == ATTEMPTS
    ensures var v := Run(w, es);
            var (left, outcome) := Due(w.bucket.stored, w.procs[k].now, around, accepted);
            Tags(v.bucket, v.procs) && k in v.procs && v.bucket.stored == left && Finished(v.procs[k], outcome)
  {
    var p := w.procs[k];
    var others: seq<seq<Control>>;
    es, others := UpdateIsARun(w, k, m.taking);
    AskWithout(p, w.bucket.stored, others);
    var v := Run(w, es);
    var tried := Tries(w.bucket.stored, AskOf(p), others).1;
    around := Around(others, [], seq(ATTEMPTS, i => []));
    if tried.Written? {
      var more, during, later := AskIsARun(v, k, m, accepted, tried.state.last);
      RunAppend(w, es, more);
      es := es + more;
      around := Around(others, during, later);
    }
  }

  /** Taking a turn does not depend on what its process remembers. */
  lemma AskWithout(p: Process, stored: Option<Control>, others: seq<seq<Control>>)
    requires p.phase.Taking? || p.phase.Marking?
    ensures Tries(stored, AskOf(p), others) == Tries(stored, Ask(p.phase, p.now, 0), others)
  {
    SameTries(stored, AskOf(p), Ask(p.phase, p.now, 0), others);
  }

  /** And so is a notification: the mark, what others do after it, and the turn. */
  lemma NotifyIsARun(w: World, k: nat, marking: seq<seq<Event>>, between: seq<Event>, m: Meanwhiles, accepted: bool)
    returns (es: seq<Event>, marks: seq<seq<Control>>, writes: seq<Control>, around: Around)
    requires AboutTo(w, k, Marking) && AroundTurn(k, m) && AllNotBy(between, k)
    requires |marking| == ATTEMPTS && forall i :: 0 <= i < |marking| ==> AllNotBy(marking[i], k)
    ensures |marks| == ATTEMPTS && |around.others| == ATTEMPTS && |around.later| == ATTEMPTS
    ensures var v := Run(w, es);
            var (left, outcome) := NotifyEnds(w.bucket.stored, w.procs[k].now, marks, writes, around, accepted);
            k in v.procs && v.bucket.stored == left && Finished(v.procs[k], outcome)
  {
    es, marks := UpdateIsARun(w, k, marking);
    AskWithout(w.procs[k], w.bucket.stored, marks);
    var marked := Run(w, es);
    OthersWrite(marked, between, k);
    writes := Writes(marked, between);
    RunAppend(w, es, between);
    var more: seq<Event>;
    more, around := DueIsARun(Run(marked, between), k, m, accepted);
    RunAppend(w, es + between, more);
    es := es + between + more;
  }
}
