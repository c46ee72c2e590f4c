/** Starting the sync workflow (cloudflare-router/src/trigger.js). Every request and every timer tick is a
    process of its own; they share one small control object, changed only by compare-and-swap. */
module Trigger {
  import opened Wrappers

  const WINDOW: int := 600_000
  const ATTEMPTS: nat := 5

  /** An absent object reads as no pending work and no recorded start. */
  datatype Control = Control(pending: bool, last: int)

  /** The bucket gives every write a new tag. */
  datatype Bucket = Bucket(stored: Option<Control>, etag: nat, counter: nat)

  function Current(b: Bucket): Control { if b.stored.Some? then b.stored.value else Control(false, 0) }

  function Tag(b: Bucket): Option<nat> { if b.stored.Some? then Some(b.etag) else None }

  /** A put that asks for the tag it read, or for no object where it read none. */
  function Put(b: Bucket, tag: Option<nat>, next: Control): Bucket {
    if Tag(b) == tag then Bucket(Some(next), b.counter + 1, b.counter + 1) else b
  }

  /** What a process is doing. The first three change the control object. */
  datatype Phase = Marking | Taking | Returning | Dispatching | Started | Over | Lost

  /** The change a phase asks for; nothing when it has nothing to write. */
  function Change(phase: Phase, now: int, previous: int, c: Control): Option<Control> {
    match phase
    case Marking => if c.pending then None else Some(c.(pending := true))
    case Taking => if !c.pending || now - c.last < WINDOW then None else Some(Control(false, now))
    case Returning => Some(c.(pending := true, last := previous))
    case _ => None
  }

  // ------------------------------------------------------------ one update, with the others writing in between

  function Last(writes: seq<Control>): Control
    requires writes != []
  {
    writes[|writes| - 1]
  }

  /** How an update ended, and the state that its change last saw. */
  datatype Tried = GaveUp | Unchanged(state: Control) | Written(state: Control, next: Control)

  /** The five attempts, each losing to the writes that others put between its read and its own write. */
  function Tries(stored: Option<Control>, change: Control -> Option<Control>, others: seq<seq<Control>>):
    (Option<Control>, Tried)
    decreases |others|
  {
    var state := if stored.Some? then stored.value else Control(false, 0);
    if others == [] then (stored, GaveUp)
    else if change(state).None? then (stored, Unchanged(state))
    else if others[0] == [] then (change(state), Written(state, change(state).value))
    else Tries(Some(Last(others[0])), change, others[1..])
  }

  /** An update that gives up lost every attempt to another process's write. */
  lemma {:induction false} GivesUpExactly(stored: Option<Control>, change: Control -> Option<Control>,
                                          others: seq<seq<Control>>)
    requires forall c :: change(c).Some?
    ensures Tries(stored, change, others).1.GaveUp? <==> forall i :: 0 <= i < |others| ==> others[i] != []
    decreases |others|
  {
    if others != [] && others[0] != [] {
      GivesUpExactly(Some(Last(others[0])), change, others[1..]);
      assert forall i :: 1 <= i < |others| ==> others[i] == others[1..][i - 1];
    }
  }

  /** An update ends with its change of the state it saw; what it writes is what the bucket then holds. */
  lemma {:induction false} EndsWithChange(stored: Option<Control>, change: Control -> Option<Control>,
                                           others: seq<seq<Control>>)
    ensures var (held, tried) := Tries(stored, change, others);
            (tried.Written? ==> change(tried.state) == Some(tried.next) && held == Some(tried.next)) &&
            (tried.Unchanged? ==> change(tried.state).None?)
    decreases |others|
  {
    if others != [] && others[0] != [] {
      EndsWithChange(Some(Last(others[0])), change, others[1..]);
    }
  }

  datatype Outcome = NotRecorded | NothingPending | WaitingForWindow | StartAccepted | StartRefused

  function Ask(phase: Phase, now: int, previous: int): Control -> Option<Control> {
    (c: Control) => Change(phase, now, previous, c)
  }

  /** The object once others have written. */
  function Latest(stored: Option<Control>, writes: seq<Control>): Option<Control> {
    if writes == [] then stored else Some(Last(writes))
  }

  function StateIn(stored: Option<Control>): Control { if stored.Some? then stored.value else Control(false, 0) }

  /** What others write around a turn: before each swap that takes it, while the workflow is asked for, and before each
      swap that gives it back. */
  datatype Around = Around(others: seq<seq<Control>>, during: seq<Control>, later: seq<seq<Control>>)

  /** Taking the turn, starting the workflow, and giving the turn back when that fails. */
  function Due(stored: Option<Control>, now: int, around: Around, accepted: bool): (Option<Control>, Outcome) {
    var (held, tried) := Tries(stored, Ask(Taking, now, 0), around.others);
    match tried
    case GaveUp => (held, NotRecorded)
    case Unchanged(state) => (held, if !state.pending then NothingPending else WaitingForWindow)
    case Written(state, _) =>
      var after := Latest(held, around.during);
      if accepted then (after, StartAccepted)
      else (Tries(after, Ask(Returning, now, state.last), around.later).0, StartRefused)
  }

  /** Marking work as pending, then the turn. */
  function NotifyEnds(stored: Option<Control>, now: int, marks: seq<seq<Control>>, between: seq<Control>,
                      around: Around, accepted: bool): (Option<Control>, Outcome) {
    Due(Latest(Tries(stored, Ask(Marking, now, 0), marks).0, between), now, around, accepted)
  }

  // ------------------------------------------------------------ what a turn leaves behind

  /** The object before attempt i, when the attempts before it have lost. */
  function HeldAt(stored: Option<Control>, others: seq<seq<Control>>, i: nat): Option<Control>
    requires i <= |others|
  {
    if i == 0 then stored else Latest(stored, others[i - 1])
  }

  predicate LostBefore(others: seq<seq<Control>>, i: nat)
    requires i <= |others|
  {
    forall j :: 0 <= j < i ==> others[j] != []
  }

  /** The attempt at which an update ends, and what that attempt saw and did. */
  lemma {:induction false} TriesShape(stored: Option<Control>, change: Control -> Option<Control>,
                                      others: seq<seq<Control>>) returns (i: nat)
    ensures i <= |others| && LostBefore(others, i)
    ensures var (held, tried) := Tries(stored, change, others);
            match tried
            case GaveUp => i == |others| && held == HeldAt(stored, others, i)
            case Unchanged(c) =>
              i < |others| && c == StateIn(HeldAt(stored, others, i)) && change(c).None? &&
              held == HeldAt(stored, others, i)
            case Written(c, next) =>
              i < |others| && others[i] == [] && c == StateIn(HeldAt(stored, others, i)) && change(c) == Some(next) &&
              held == Some(next)
    decreases |others|
  {
    i := 0;
    if others != [] && change(StateIn(stored)).Some? && others[0] != [] {
      var j := TriesShape(Some(Last(others[0])), change, others[1..]);
      i := j + 1;
      assert HeldAt(stored, others, i) == HeldAt(Some(Last(others[0])), others[1..], j);
      assert forall k :: 1 <= k < |others| ==> others[k] == others[1..][k - 1];
    }
  }

  /** A turn was there to take: work was pending, and the last start a window old. */
  predicate WasDue(c: Control, now: int) { c.pending && now - c.last >= 600_000 }

  /** For each outcome of a turn, the state it saw and the object it leaves: an accepted start leaves the turn taken at
      its own time, a refused one leaves the work pending and the start before it, unless all its swaps lost, and all
      other outcomes leave the object as the others left it, for the reason they give. */
  lemma DueOutcome(stored: Option<Control>, now: int, around: Around, accepted: bool) returns (i: nat)
    ensures i <= |around.others| && LostBefore(around.others, i)
    ensures var (left, outcome) := Due(stored, now, around, accepted);
            var held := HeldAt(stored, around.others, i);
            var c := StateIn(held);
            match outcome
            case NotRecorded => i == |around.others| && left == held
            case NothingPending => i < |around.others| && !c.pending && left == held
            case WaitingForWindow => i < |around.others| && c.pending && now - c.last < 600_000 && left == held
            case StartAccepted =>
              i < |around.others| && around.others[i] == [] && accepted && WasDue(c, now) &&
              left == Latest(Some(Control(false, now)), around.during)
            case StartRefused =>
              i < |around.others| && around.others[i] == [] && !accepted && WasDue(c, now) &&
              (if LostBefore(around.later, |around.later|)
               then left == HeldAt(Latest(Some(Control(false, now)), around.during), around.later, |around.later|)
               else left == Some(Control(true, c.last)))
  {
    i := TriesShape(stored, Ask(Taking, now, 0), around.others);
    var (held, tried) := Tries(stored, Ask(Taking, now, 0), around.others);
    if tried.Written? && !accepted {
      var j := TriesShape(Latest(held, around.during), Ask(Returning, now, tried.state.last), around.later);
    }
  }

  /** A mark that does not give up leaves work pending, with the last start as it was. */
  lemma MarkOutcome(stored: Option<Control>, now: int, marks: seq<seq<Control>>) returns (i: nat)
    ensures i <= |marks| && LostBefore(marks, i)
    ensures var (left, tried) := Tries(stored, Ask(Marking, now, 0), marks);
            if tried.GaveUp? then i == |marks| && left == HeldAt(stored, marks, i)
            else left == Some(Control(true, StateIn(HeldAt(stored, marks, i)).last))
  {
    i := TriesShape(stored, Ask(Marking, now, 0), marks);
  }

  /** With nobody else writing, exactly what a turn does: it depends on the stored state and on the answer alone. */
  lemma QuietDue(stored: Option<Control>, now: int, around: Around, accepted: bool)
    requires |around.others| > 0 && |around.later| > 0
    requires around.others[0] == [] && around.during == [] && around.later[0] == []
    ensures var c := StateIn(stored);
            Due(stored, now, around, accepted) ==
            if !c.pending then (stored, NothingPending)
            else if now - c.last < 600_000 then (stored, WaitingForWindow)
            else if accepted then (Some(Control(false, now)), StartAccepted)
            else (Some(Control(true, c.last)), StartRefused)
  {
  }

  class CasBucket {
    var stored: Option<Control>
    var etag: nat
    var counter: nat

    ghost function Snapshot(): Bucket
      reads this
    {
      Bucket(stored, etag, counter)
    }

    constructor (stored: Option<Control>)
      ensures Snapshot() == Bucket(stored, 0, 0)
    {
      this.stored, etag, counter := stored, 0, 0;
    }

    method Get() returns (state: Control, tag: Option<nat>)
      ensures state == Current(Snapshot()) && tag == Tag(Snapshot())
    {
      if stored.Some? { return stored.value, Some(etag); }
      return Control(false, 0), None;
    }

    method PutIf(next: Control, tag: Option<nat>) returns (written: bool)
      modifies this
      ensures Snapshot() == Put(old(Snapshot()), tag, next)
      ensures written <==> Tag(old(Snapshot())) == tag
    {
      if tag.Some? && (stored.None? || etag != tag.value) { return false; }
      if tag.None? && stored.Some? { return false; }
      counter := counter + 1;
      stored, etag := Some(next), counter;
      return true;
    }

    /** Other processes' winning writes, one after the other. */
    method Interfere(writes: seq<Control>)
      requires etag <= counter
      modifies this
      ensures counter == old(counter) + |writes|
      ensures if writes == [] then stored == old(stored) && etag == old(etag)
              else stored == Some(Last(writes)) && etag == counter
    {
      for i := 0 to |writes|
        invariant counter == old(counter) + i
        invariant if i == 0 then stored == old(stored) && etag == old(etag)
                  else stored == Some(writes[i - 1]) && etag == counter
      {
        counter := counter + 1;
        stored, etag := Some(writes[i]), counter;
      }
    }

    method Update(change: Control -> Option<Control>, others: seq<seq<Control>>) returns (r: Tried)
      requires etag <= counter && |others| == ATTEMPTS
      modifies this
      ensures etag <= counter
      ensures (stored, r) == Tries(old(stored), change, others)
    {
      for attempt := 0 to ATTEMPTS
        invariant etag <= counter
        invariant Tries(stored, change, others[attempt..]) == Tries(old(stored), change, others)
      {
        var state, tag := Get();
        var next := change(state);
        if next.None? { return Unchanged(state); }
        Interfere(others[attempt]);
        var written := PutIf(next.value, tag);
        if written { return Written(state, next.value); }
        assert others[attempt..][1..] == others[attempt + 1..];
      }
      return GaveUp;
    }

    method StartIfDue(now: int, around: Around, accepted: bool) returns (r: Outcome)
      requires etag <= counter && |around.others| == ATTEMPTS && |around.later| == ATTEMPTS
      modifies this
      ensures etag <= counter
      ensures (stored, r) == Due(old(stored), now, around, accepted)
    {
      var taken := Update(Ask(Taking, now, 0), around.others);
      match taken {
        case GaveUp => return NotRecorded;
        case Unchanged(state) =>
          return if !state.pending then NothingPending else WaitingForWindow;
        case Written(state, _) =>
          Interfere(around.during);
          if accepted { return StartAccepted; }
          var back := Update(Ask(Returning, now, state.last), around.later);
          return StartRefused;
      }
    }

    /** A mark that gives up is not noticed: the start is tried all the same. */
    method Notify(now: int, marks: seq<seq<Control>>, between: seq<Control>, around: Around, accepted: bool)
      returns (started: bool)
      requires etag <= counter && |marks| == ATTEMPTS && |around.others| == ATTEMPTS && |around.later| == ATTEMPTS
      modifies this
      ensures etag <= counter
      ensures var (left, outcome) := NotifyEnds(old(stored), now, marks, between, around, accepted);
              stored == left && (started <==> outcome.StartAccepted?)
    {
      var marked := Update(Ask(Marking, now, 0), marks);
      Interfere(between);
      var r := StartIfDue(now, around, accepted);
      return r.StartAccepted?;
    }
  }

  // ------------------------------------------------------------ all processes together

  datatype Seen = Seen(tag: Option<nat>, next: Control)

  datatype Process = Process(now: int, phase: Phase, failed: nat, seen: Option<Seen>, previous: int)

  datatype Start = Start(who: nat, at: int)

  datatype Entry = Marked(who: nat) | Taken(who: nat)

  /** `starts` are the recorded starts not given back; `log` orders the marks and the turns. */
  datatype World = World(bucket: Bucket, procs: map<nat, Process>, starts: seq<Start>, log: seq<Entry>, time: int)

  datatype Event =
    | Notified(p: nat)
    | Ticked(p: nat)
    | Read(p: nat)
    | Wrote(p: nat)
    | Dispatched(p: nat, accepted: bool)
    | Waited(ms: nat)

  const OPENING := World(Bucket(None, 0, 0), map[], [], [], 0)

  predicate Active(p: Process) { p.phase.Marking? || p.phase.Taking? || p.phase.Returning? }

  /** Where a phase leads when its update is over. */
  function After(p: Process, wrote: bool): Process {
    var phase := match p.phase
                 case Marking => Taking
                 case Taking => if wrote then Dispatching else Over
                 case Returning => if wrote then Over else Lost
                 case other => other;
    p.(phase := phase, failed := 0, seen := None)
  }

  function Reading(w: World, k: nat): World
    requires k in w.procs
  {
    var p, c := w.procs[k], Current(w.bucket);
    var next := Change(p.phase, p.now, p.previous, c);
    if next.Some? then
      w.(procs := w.procs[k := p.(seen := Some(Seen(Tag(w.bucket), next.value)),
                                  previous := if p.phase.Taking? then c.last else p.previous)])
    else
      w.(procs := w.procs[k := After(p, false)], log := if p.phase.Marking? then w.log + [Marked(k)] else w.log)
  }

  function Writing(w: World, k: nat): World
    requires k in w.procs && w.procs[k].seen.Some?
  {
    var p := w.procs[k];
    if Tag(w.bucket) != p.seen.value.tag then
      w.(procs := w.procs[k := if p.failed + 1 < ATTEMPTS then p.(failed := p.failed + 1, seen := None)
                               else After(p, false)])
    else
      World(Put(w.bucket, p.seen.value.tag, p.seen.value.next), w.procs[k := After(p, true)],
            if p.phase.Taking? then w.starts + [Start(k, p.now)]
            else if p.phase.Returning? then Without(w.starts, k) else w.starts,
            if p.phase.Marking? then w.log + [Marked(k)] else if p.phase.Taking? then w.log + [Taken(k)] else w.log,
            w.time)
  }

  function Without(starts: seq<Start>, k: nat): seq<Start>
    decreases |starts|
  {
    if starts == [] then []
    else if starts[|starts| - 1].who == k then starts[..|starts| - 1]
    else Without(starts[..|starts| - 1], k) + [starts[|starts| - 1]]
  }

  function Perform(w: World, e: Event): World {
    match e
    case Notified(k) => if k in w.procs then w else w.(procs := w.procs[k := Process(w.time, Marking, 0, None, 0)])
    case Ticked(k) => if k in w.procs then w else w.(procs := w.procs[k := Process(w.time, Taking, 0, None, 0)])
    case Read(k) => if k in w.procs && Active(w.procs[k]) && w.procs[k].seen.None? then Reading(w, k) else w
    case Wrote(k) => if k in w.procs && Active(w.procs[k]) && w.procs[k].seen.Some? then Writing(w, k) else w
    case Dispatched(k, accepted) =>
      if k in w.procs && w.procs[k].phase.Dispatching?
      then w.(procs := w.procs[k := w.procs[k].(phase := if accepted then Started else Returning)]) else w
    case Waited(ms) => w.(time := w.time + ms)
  }

  function Run(w: World, es: seq<Event>): World
    decreases |es|
  {
    if es == [] then w else Perform(Run(w, es[..|es| - 1]), es[|es| - 1])
  }
}
