/** The rotation log of the local trust store (src/runner_swarm/local_trust_store.py): every decision is
    appended once, and the registry is rebuilt by replaying the log through the same checks. A decision's
    own identifier is the digest of its bytes, so two rows are the same row exactly when they are equal. */
module TrustStore {
  import opened Wrappers
  import opened KeyRotation
  import opened Forest
  import R = Reputation

  datatype Store = Store(artifacts: map<ContentId, Signed>, decisions: seq<Decision>)

  datatype StoreError = Refused(error: Error) | IndexMismatch | ArtifactMissing | Inconsistent | ArtifactDiffers
                      | LimitReached

  predicate IndexOk(artifacts: map<ContentId, Signed>) {
    forall c :: c in artifacts ==> artifacts[c].content == c
  }

  ghost function Redo(r: Registry, signed: Signed, d: Decision): Result<(Registry, Decision), Error> {
    match d.status
    case Accepted => Accept(r, signed, d.at, d.reason)
    case Rejected => Reject(r, signed, d.at, d.reason)
    case Revoked => Revoke(r, signed.content, d.at, d.reason)
  }

  ghost function ReplayOne(r: Registry, artifacts: map<ContentId, Signed>, d: Decision): Result<Registry, StoreError> {
    if d.content !in artifacts then Err(ArtifactMissing)
    else match Redo(r, artifacts[d.content], d)
      case Err(e) => Err(Refused(e))
      case Ok((after, made)) => if made != d then Err(Inconsistent) else Ok(after)
  }

  ghost function Replay(artifacts: map<ContentId, Signed>, log: seq<Decision>): Result<Registry, StoreError>
    decreases |log|
  {
    if log == [] then Ok(FRESH)
    else match Replay(artifacts, log[..|log| - 1])
      case Err(e) => Err(e)
      case Ok(r) => ReplayOne(r, artifacts, log[|log| - 1])
  }

  ghost function Load(s: Store): Result<Registry, StoreError> {
    if !IndexOk(s.artifacts) then Err(IndexMismatch) else Replay(s.artifacts, s.decisions)
  }

  function Persist(s: Store, cap: nat, signed: Signed, d: Decision): Result<Store, StoreError> {
    if signed.content in s.artifacts && s.artifacts[signed.content] != signed then Err(ArtifactDiffers)
    else
      var artifacts := s.artifacts[signed.content := signed];
      if d in s.decisions then Ok(Store(artifacts, s.decisions))
      else if |s.decisions| >= cap then Err(LimitReached)
      else Ok(Store(artifacts, s.decisions + [d]))
  }

  /** The artifact that is stored with a decision; a revocation names one that must be stored already. */
  function ArtifactOf(s: Store, op: Op): Result<Signed, StoreError> {
    match op
    case AcceptOp(signed, _, _) => Ok(signed)
    case RejectOp(signed, _, _) => Ok(signed)
    case RevokeOp(content, _, _) => if content in s.artifacts then Ok(s.artifacts[content]) else Err(ArtifactMissing)
  }

  /** One transaction: load, decide, persist. */
  ghost function Transact(s: Store, cap: nat, op: Op): Result<(Store, Decision), StoreError> {
    match Load(s)
    case Err(e) => Err(e)
    case Ok(r) =>
      match Perform(r, op)
      case Err(e) => Err(Refused(e))
      case Ok((after, d)) =>
        match ArtifactOf(s, op)
        case Err(e) => Err(e)
        case Ok(signed) =>
          match Persist(s, cap, signed, d)
          case Err(e) => Err(e)
          case Ok(t) => Ok((t, d))
  }

  // --------------------------------------------------------------- replaying

  lemma {:induction false} ReplayInv(artifacts: map<ContentId, Signed>, log: seq<Decision>)
    requires Replay(artifacts, log).Ok?
    ensures RegistryInv(Replay(artifacts, log).value)
    decreases |log|
  {
    if log == [] {
      KeyRotation.EveryRun([]);
    } else {
      var d := log[|log| - 1];
      ReplayInv(artifacts, log[..|log| - 1]);
      var r := Replay(artifacts, log[..|log| - 1]).value;
      match d.status
      case Accepted => AcceptInv(r, artifacts[d.content], d.at, d.reason);
      case Rejected => RejectInv(r, artifacts[d.content], d.at, d.reason);
      case Revoked => RevokeInv(r, artifacts[d.content].content, d.at, d.reason);
    }
  }

  /** The artifacts of a replayed registry are the stored ones. */
  lemma {:induction false} ReplayArtifacts(artifacts: map<ContentId, Signed>, log: seq<Decision>, c: ContentId)
    requires IndexOk(artifacts) && Replay(artifacts, log).Ok? && c in Replay(artifacts, log).value.artifacts
    ensures c in artifacts && artifacts[c] == Replay(artifacts, log).value.artifacts[c]
    decreases |log|
  {
    if log != [] {
      var r := Replay(artifacts, log[..|log| - 1]).value;
      var d := log[|log| - 1];
      if c in r.artifacts { ReplayArtifacts(artifacts, log[..|log| - 1], c); }
      if d.status.Revoked? && artifacts[d.content].content in r.artifacts {
        ReplayArtifacts(artifacts, log[..|log| - 1], artifacts[d.content].content);
      }
    }
  }

  /** Storing further artifacts does not change how a log that replays is replayed. */
  lemma {:induction false} ReplayMore(artifacts: map<ContentId, Signed>, more: map<ContentId, Signed>,
                                      log: seq<Decision>)
    requires Replay(artifacts, log).Ok?
    requires forall c :: c in artifacts ==> c in more && more[c] == artifacts[c]
    ensures Replay(more, log) == Replay(artifacts, log)
    decreases |log|
  {
    if log != [] { ReplayMore(artifacts, more, log[..|log| - 1]); }
  }

  ghost predicate StoreInv(s: Store) { Load(s).Ok? }

  /** The artifact a transaction stores is the one its operation decided on, and redoing the decision repeats it. */
  lemma RedoRepeats(s: Store, op: Op)
    requires StoreInv(s) && Perform(Load(s).value, op).Ok? && ArtifactOf(s, op).Ok?
    ensures var (r, signed) := (Load(s).value, ArtifactOf(s, op).value);
            var (after, d) := Perform(r, op).value;
            d.content == signed.content && Redo(r, signed, d) == Ok((after, d)) && |after.history| == |r.history| + 1
  {
    var r, signed := Load(s).value, ArtifactOf(s, op).value;
    if op.RevokeOp? { ReplayArtifacts(s.artifacts, s.decisions, op.content); }
    var (after, d) := Perform(r, op).value;
    assert d == Decide(signed, d.status, d.at, d.reason);
  }

  lemma ReplayAppended(t: Store, log: seq<Decision>, d: Decision, r: Registry, after: Registry)
    requires IndexOk(t.artifacts) && t.decisions == log + [d] && d.content in t.artifacts
    requires Replay(t.artifacts, log) == Ok(r) && Redo(r, t.artifacts[d.content], d) == Ok((after, d))
    ensures Load(t) == Ok(after)
  {
    assert t.decisions[..|t.decisions| - 1] == log;
  }

  /** After every accepted transaction the store loads again. Loading gives exactly the registry the
      decision produced, unless the log already held an identical decision: then the store, and what it
      loads, are as they were. */
  lemma TransactReloads(s: Store, cap: nat, op: Op)
    requires StoreInv(s) && Transact(s, cap, op).Ok?
    ensures var (t, d) := Transact(s, cap, op).value;
            var (after, made) := Perform(Load(s).value, op).value;
            && StoreInv(t) && made == d
            && (Load(t) == Ok(after) <==> d !in s.decisions)
            && (d in s.decisions ==> Load(t) == Load(s))
  {
    var (t, d) := Transact(s, cap, op).value;
    RedoRepeats(s, op);
    ReplayMore(s.artifacts, t.artifacts, s.decisions);
    if d !in s.decisions {
      ReplayAppended(t, s.decisions, d, Load(s).value, Perform(Load(s).value, op).value.0);
    }
  }

  lemma PerformLatest(r: Registry, op: Op)
    requires Perform(r, op).Ok?
    ensures var (after, d) := Perform(r, op).value; after.latest == r.latest[d.content := d]
  {
  }

  lemma SameLatest(latest: map<ContentId, Decision>, d: Decision)
    ensures latest == latest[d.content := d] <==> d.content in latest && latest[d.content] == d
  {
    assert d.content in latest[d.content := d] && latest[d.content := d][d.content] == d;
    if d.content in latest && latest[d.content] == d { assert latest == latest[d.content := d]; }
  }

  /** The mapping survives a reload exactly when the decision is new to the log or is already the latest
      one for its rotation. */
  lemma MappingReloads(s: Store, cap: nat, op: Op)
    requires StoreInv(s) && Transact(s, cap, op).Ok?
    ensures var (t, d) := Transact(s, cap, op).value;
            var latest := Load(s).value.latest;
            && Load(t).Ok?
            && (Load(t).value.latest == Perform(Load(s).value, op).value.0.latest
                <==> d !in s.decisions || (d.content in latest && latest[d.content] == d))
  {
    TransactReloads(s, cap, op);
    PerformLatest(Load(s).value, op);
    SameLatest(Load(s).value.latest, Transact(s, cap, op).value.1);
  }

  ghost function Run(s: Store, cap: nat, ops: seq<Op>): Store
    decreases |ops|
  {
    if ops == [] then s
    else Run(if Transact(s, cap, ops[0]).Ok? then Transact(s, cap, ops[0]).value.0 else s, cap, ops[1..])
  }

  lemma {:induction false} RunReloads(s: Store, cap: nat, ops: seq<Op>)
    requires StoreInv(s)
    ensures StoreInv(Run(s, cap, ops)) && RegistryInv(Load(Run(s, cap, ops)).value)
    decreases |ops|
  {
    if ops == [] {
      ReplayInv(s.artifacts, s.decisions);
    } else {
      if Transact(s, cap, ops[0]).Ok? { TransactReloads(s, cap, ops[0]); }
      RunReloads(if Transact(s, cap, ops[0]).Ok? then Transact(s, cap, ops[0]).value.0 else s, cap, ops[1..]);
    }
  }

  /** Every store reachable from an empty one loads without error, and its mapping has no cycle. */
  lemma EveryStore(cap: nat, ops: seq<Op>)
    ensures StoreInv(Run(Store(map[], []), cap, ops)) && RegistryInv(Load(Run(Store(map[], []), cap, ops)).value)
  {
    RunReloads(Store(map[], []), cap, ops);
  }

  const ROTATION := Rotation(1, 2, 1, 0, 0, 1000)
  const SIGNED := Signed(ROTATION, Sha(ROTATION), 0, true)
  const ACCEPT := AcceptOp(SIGNED, 10, 7)
  const UNDO := RevokeOp(Sha(ROTATION), 10, 8)

  function Accepting(): Decision { KeyRotation.Decide(SIGNED, Accepted, 10, 7) }

  function Revoking(): Decision { KeyRotation.Decide(SIGNED, Revoked, 10, 8) }

  /** With no accepted rotation, the first one can be accepted. */
  lemma AcceptsFirst(r: Registry)
    requires RegistryInv(r) && (forall x :: !Active(r.latest, x))
    requires forall d :: d in r.history ==> d.content == SIGNED.content
    ensures Perform(r, ACCEPT) == Ok((Record(r, SIGNED, Accepted, 10, 7).0, Accepting()))
  {
    assert Forward(r.latest) == map[];
    RootStep(Forward(r.latest), 2);
    assert Root(Forward(r.latest), SIGNED.rotation.newId) == 2;
    assert !Active(r.latest, SIGNED.rotation.oldId);
    assert KeyRotation.Verify(SIGNED, 10, true).Ok?;
    assert forall d :: d in r.history ==> !Conflicts(d, SIGNED);
  }

  lemma FirstTransaction()
    ensures Transact(Store(map[], []), 10, ACCEPT) ==
            Ok((Store(map[SIGNED.content := SIGNED], [Accepting()]), Accepting()))
  {
    KeyRotation.EveryRun([]);
    AcceptsFirst(FRESH);
    assert Load(Store(map[], [])) == Ok(FRESH);
    assert [] + [Accepting()] == [Accepting()];
  }

  lemma FirstAccept() returns (s: Store)
    ensures Transact(Store(map[], []), 10, ACCEPT) == Ok((s, Accepting())) && StoreInv(s)
    ensures s == Store(map[SIGNED.content := SIGNED], [Accepting()])
    ensures Load(s) == Ok(Record(FRESH, SIGNED, Accepted, 10, 7).0) && RegistryInv(Load(s).value)
  {
    s := Store(map[SIGNED.content := SIGNED], [Accepting()]);
    FirstTransaction();
    KeyRotation.EveryRun([]);
    AcceptsFirst(FRESH);
    var empty := Store(map[], []);
    assert Load(empty) == Ok(FRESH);
    TransactReloads(empty, 10, ACCEPT);
    ReplayInv(s.artifacts, s.decisions);
  }

  lemma ThenRevoke(s: Store) returns (t: Store)
    requires s == Store(map[SIGNED.content := SIGNED], [Accepting()])
    requires Load(s) == Ok(Record(FRESH, SIGNED, Accepted, 10, 7).0)
    ensures Transact(s, 10, UNDO) == Ok((t, Revoking())) && StoreInv(t)
    ensures t == Store(map[SIGNED.content := SIGNED], [Accepting(), Revoking()])
    ensures Load(t) == Ok(Record(Load(s).value, SIGNED, Revoked, 10, 8).0) && RegistryInv(Load(t).value)
  {
    t := Store(map[SIGNED.content := SIGNED], [Accepting(), Revoking()]);
    assert Perform(Load(s).value, UNDO) == Ok((Record(Load(s).value, SIGNED, Revoked, 10, 8).0, Revoking()));
    assert [Accepting()] + [Revoking()] == t.decisions;
    assert s.artifacts[SIGNED.content := SIGNED] == t.artifacts;
    TransactReloads(s, 10, UNDO);
    ReplayInv(t.artifacts, t.decisions);
  }

  /** Accepting again finds its decision in the log, so the revocation stays the latest one that loads. */
  lemma ThenReaccept(s: Store)
    requires StoreInv(s) && s == Store(map[SIGNED.content := SIGNED], [Accepting(), Revoking()])
    requires RegistryInv(Load(s).value) && Load(s).value.latest == map[SIGNED.content := Revoking()]
    requires forall d :: d in Load(s).value.history ==> d.content == SIGNED.content
    ensures Transact(s, 10, ACCEPT) == Ok((s, Accepting()))
  {
    var r := Load(s).value;
    assert forall x :: !Active(r.latest, x);
    AcceptsFirst(r);
    assert s.artifacts[SIGNED.content := SIGNED] == s.artifacts;
    assert Accepting() == s.decisions[0];
  }

  lemma AfterBoth(s: Store) returns (t: Store)
    requires s == Store(map[SIGNED.content := SIGNED], [Accepting()])
    requires Load(s) == Ok(Record(FRESH, SIGNED, Accepted, 10, 7).0)
    ensures Transact(s, 10, UNDO) == Ok((t, Revoking())) && StoreInv(t) && RegistryInv(Load(t).value)
    ensures t == Store(map[SIGNED.content := SIGNED], [Accepting(), Revoking()])
    ensures Load(t).value.latest == map[SIGNED.content := Revoking()]
    ensures forall d :: d in Load(t).value.history ==> d.content == SIGNED.content
  {
    t := ThenRevoke(s);
  }

  /** A concrete store where the mapping does not survive: accept, revoke, then the very same accept. */
  lemma ReacceptReloadsRevoked() returns (s: Store)
    ensures s == Run(Store(map[], []), 10, [ACCEPT, UNDO])
    ensures StoreInv(s) && Transact(s, 10, ACCEPT).Ok?
    ensures var (t, d) := Transact(s, 10, ACCEPT).value;
            d.status.Accepted? && Load(t).Ok? && d.content in Load(t).value.latest
            && Load(t).value.latest[d.content].status.Revoked?
  {
    var one := FirstAccept();
    s := AfterBoth(one);
    RunTwo(Store(map[], []), one, s, ACCEPT, UNDO);
    ThenReaccept(s);
  }

  lemma RunTwo(a: Store, b: Store, c: Store, op: Op, undo: Op)
    requires Transact(a, 10, op).Ok? && Transact(a, 10, op).value.0 == b
    requires Transact(b, 10, undo).Ok? && Transact(b, 10, undo).value.0 == c
    ensures Run(a, 10, [op, undo]) == c
  {
    assert [op, undo][1..] == [undo] && [undo][1..] == [];
    assert Run(b, 10, [undo]) == Run(c, 10, []);
  }

  // ------------------------------------------------- scores and bans by class

  /** The outcome table: one row per claim, each with distinct families. */
  ghost predicate Measured(outcomes: seq<R.Outcome>) {
    && !R.RepeatsClaim(outcomes)
    && forall i :: 0 <= i < |outcomes| ==> R.Distinct(outcomes[i].families)
  }

  /** The outcomes of one continuity class, relabelled with the identity the class ends at. */
  ghost function Own(f: Links, end: nat, outcomes: seq<R.Outcome>): seq<R.Outcome>
    requires Acyclic(f)
  {
    if outcomes == [] then []
    else
      var last := outcomes[|outcomes| - 1];
      Own(f, end, outcomes[..|outcomes| - 1]) + if Root(f, last.peer) == end then [last.(peer := end)] else []
  }

  lemma {:induction false} OwnRecords(f: Links, end: nat, outcomes: seq<R.Outcome>)
    requires Acyclic(f) && Measured(outcomes)
    ensures forall o :: o in Own(f, end, outcomes) ==>
              o.peer == end && exists q :: q in outcomes && o == q.(peer := end)
    ensures Measured(Own(f, end, outcomes))
  {
    if outcomes != [] {
      var init, last := outcomes[..|outcomes| - 1], outcomes[|outcomes| - 1];
      OwnRecords(f, end, init);
      forall o | o in Own(f, end, init) ensures o.claim != last.claim {
        var q :| q in init && o == q.(peer := end);
        var i :| 0 <= i < |init| && init[i] == q;
        assert outcomes[i].claim != outcomes[|outcomes| - 1].claim;
      }
    }
  }

  ghost function ClassScore(p: R.Policy, r: Registry, outcomes: seq<R.Outcome>, peer: nat): R.PeerReputation
    requires p.Valid() && RegistryInv(r)
  {
    var end := Root(Forward(r.latest), peer);
    R.Assess(p, end, Own(Forward(r.latest), end, outcomes))
  }

  /** The rows of the outcome table that measure a class with a given verdict. */
  ghost function Measures(f: Links, end: nat, outcomes: seq<R.Outcome>, v: R.Verdict): set<nat>
    requires Acyclic(f)
  {
    set i: nat | i < |outcomes| && Root(f, outcomes[i].peer) == end && outcomes[i].verdict == v
  }

  /** The rows of resolved outcomes of a class that rest on a source family. */
  ghost function Resting(f: Links, end: nat, outcomes: seq<R.Outcome>, family: nat): set<nat>
    requires Acyclic(f)
  {
    set i: nat | i < |outcomes| && Root(f, outcomes[i].peer) == end && !outcomes[i].verdict.Inconclusive? &&
                 family in outcomes[i].families
  }

  /** A set of rows that gains the row after it, or does not. */
  lemma LastRow(s: set<nat>, t: set<nat>, n: nat)
    requires forall i: nat :: i in s <==> i in t && i < n
    requires forall i :: i in t ==> i <= n
    ensures |t| == |s| + if n in t then 1 else 0
  {
    assert t == if n in t then s + {n} else s;
  }

  /** What the last row of the table adds to each count of a class. */
  lemma LastMeasured(f: Links, end: nat, outcomes: seq<R.Outcome>, v: R.Verdict)
    requires Acyclic(f) && outcomes != []
    ensures var n := |outcomes| - 1;
            |Measures(f, end, outcomes, v)| == |Measures(f, end, outcomes[..n], v)| +
              if Root(f, outcomes[n].peer) == end && outcomes[n].verdict == v then 1 else 0
  {
    var n := |outcomes| - 1;
    LastRow(Measures(f, end, outcomes[..n], v), Measures(f, end, outcomes, v), n);
  }

  lemma LastResting(f: Links, end: nat, outcomes: seq<R.Outcome>, family: nat)
    requires Acyclic(f) && outcomes != []
    ensures var n := |outcomes| - 1;
            |Resting(f, end, outcomes, family)| == |Resting(f, end, outcomes[..n], family)| +
              if Root(f, outcomes[n].peer) == end && !outcomes[n].verdict.Inconclusive? &&
                 family in outcomes[n].families then 1 else 0
  {
    var n := |outcomes| - 1;
    LastRow(Resting(f, end, outcomes[..n], family), Resting(f, end, outcomes, family), n);
  }

  lemma OwnLast(f: Links, end: nat, outcomes: seq<R.Outcome>, v: R.Verdict, family: nat)
    requires Acyclic(f) && outcomes != []
    ensures var n := |outcomes| - 1;
            var last := outcomes[n];
            var own, init := Own(f, end, outcomes), Own(f, end, outcomes[..n]);
            R.Count(own, v) == R.Count(init, v) + (if Root(f, last.peer) == end && last.verdict == v then 1 else 0) &&
            R.Uses(own, family) == R.Uses(init, family) +
              if Root(f, last.peer) == end && !last.verdict.Inconclusive? && family in last.families then 1 else 0
  {
    var n := |outcomes| - 1;
    var own, init := Own(f, end, outcomes), Own(f, end, outcomes[..n]);
    if Root(f, outcomes[n].peer) == end {
      assert own == init + [outcomes[n].(peer := end)];
      assert own[..|own| - 1] == init && own[|own| - 1] == outcomes[n].(peer := end);
    } else {
      assert own == init;
    }
  }

  lemma {:induction false} OwnCounts(f: Links, end: nat, outcomes: seq<R.Outcome>, v: R.Verdict)
    requires Acyclic(f)
    ensures R.Count(Own(f, end, outcomes), v) == |Measures(f, end, outcomes, v)|
  {
    if outcomes == [] {
      assert Measures(f, end, outcomes, v) == {};
    } else {
      OwnCounts(f, end, outcomes[..|outcomes| - 1], v);
      LastMeasured(f, end, outcomes, v);
      OwnLast(f, end, outcomes, v, 0);
    }
  }

  lemma {:induction false} OwnUses(f: Links, end: nat, outcomes: seq<R.Outcome>, family: nat)
    requires Acyclic(f)
    ensures R.Uses(Own(f, end, outcomes), family) == |Resting(f, end, outcomes, family)|
  {
    if outcomes == [] {
      assert Resting(f, end, outcomes, family) == {};
    } else {
      OwnUses(f, end, outcomes[..|outcomes| - 1], family);
      LastResting(f, end, outcomes, family);
      OwnLast(f, end, outcomes, R.Confirmed, family);
    }
  }

  /** A score counts every outcome of the class, whichever of its identities it names, once: by verdict, and with the
      families that the diversity is taken from. */
  lemma ClassScoreExactly(p: R.Policy, r: Registry, outcomes: seq<R.Outcome>, peer: nat)
    requires p.Valid() && RegistryInv(r)
    ensures var f := Forward(r.latest);
            var end, score := Root(f, peer), ClassScore(p, r, outcomes, peer);
            score.peer == end &&
            score.confirmed == |Measures(f, end, outcomes, R.Confirmed)| &&
            score.refuted == |Measures(f, end, outcomes, R.Refuted)| &&
            score.inconclusive == |Measures(f, end, outcomes, R.Inconclusive)| &&
            forall family: nat :: R.Uses(Own(f, end, outcomes), family) == |Resting(f, end, outcomes, family)|
  {
    var f := Forward(r.latest);
    var end := Root(f, peer);
    OwnCounts(f, end, outcomes, R.Confirmed);
    OwnCounts(f, end, outcomes, R.Refuted);
    OwnCounts(f, end, outcomes, R.Inconclusive);
    forall family: nat ensures R.Uses(Own(f, end, outcomes), family) == |Resting(f, end, outcomes, family)| {
      OwnUses(f, end, outcomes, family);
    }
  }

  class LocalTrustStore {
    const cap: nat
    var artifacts: map<ContentId, Signed>
    var decisions: seq<Decision>
    var outcomes: seq<R.Outcome>

    ghost function Snapshot(): Store
      reads this
    {
      Store(artifacts, decisions)
    }

    constructor (cap: nat)
      ensures this.cap == cap && Snapshot() == Store(map[], []) && outcomes == []
    {
      this.cap := cap;
      artifacts, decisions, outcomes := map[], [], [];
    }

    /** Rebuild the registry from the log; any inconsistency is an error. */
    method LoadRegistry() returns (r: Result<LocalKeyRotationRegistry, StoreError>)
      ensures match Load(Snapshot())
              case Err(e) => r == Err(e)
              case Ok(registry) => r.Ok? && fresh(r.value) && r.value.Valid() && r.value.Snapshot() == registry
    {
      if exists c :: c in artifacts && artifacts[c].content != c { return Err(IndexMismatch); }
      var registry := new LocalKeyRotationRegistry();
      for i := 0 to |decisions|
        invariant fresh(registry) && registry.Valid()
        invariant Replay(artifacts, decisions[..i]) == Ok(registry.Snapshot())
      {
        var d := decisions[i];
        ReplayPrefix(artifacts, decisions, i);
        if d.content !in artifacts { return Err(ArtifactMissing); }
        var signed := artifacts[d.content];
        var made: Result<Decision, Error>;
        match d.status {
          case Accepted => made := registry.AcceptRotation(signed, d.at, d.reason);
          case Rejected => made := registry.RejectRotation(signed, d.at, d.reason);
          case Revoked => made := registry.RevokeRotation(signed.content, d.at, d.reason);
        }
        if made.Err? { return Err(Refused(made.error)); }
        if made.value != d { return Err(Inconsistent); }
      }
      assert decisions[..|decisions|] == decisions;
      return Ok(registry);
    }

    /** accept_rotation, reject_rotation and revoke_rotation: an error leaves both tables as they were. */
    method Decide(op: Op) returns (r: Result<Decision, StoreError>)
      modifies this
      ensures outcomes == old(outcomes)
      ensures match Transact(old(Snapshot()), cap, op)
              case Err(e) => r == Err(e) && Snapshot() == old(Snapshot())
              case Ok((t, d)) => r == Ok(d) && Snapshot() == t
    {
      var loaded := LoadRegistry();
      if loaded.Err? { return Err(loaded.error); }
      var registry := loaded.value;
      var made: Result<Decision, Error>;
      match op {
        case AcceptOp(signed, at, reason) => made := registry.AcceptRotation(signed, at, reason);
        case RejectOp(signed, at, reason) => made := registry.RejectRotation(signed, at, reason);
        case RevokeOp(content, at, reason) => made := registry.RevokeRotation(content, at, reason);
      }
      if made.Err? { return Err(Refused(made.error)); }
      var signed := ArtifactOf(Store(artifacts, decisions), op);
      if signed.Err? { return Err(signed.error); }
      var c := signed.value.content;
      if c in artifacts && artifacts[c] != signed.value { return Err(ArtifactDiffers); }
      if made.value !in decisions {
        if |decisions| >= cap { return Err(LimitReached); }
        decisions := decisions + [made.value];
      }
      artifacts := artifacts[c := signed.value];
      return Ok(made.value);
    }

    /** The rows whose peer continues as the given end, in their stored order. */
    method ClassRows(registry: LocalKeyRotationRegistry, end: nat) returns (rows: seq<R.Outcome>)
      requires registry.Valid()
      ensures rows == Own(Forward(registry.latest), end, outcomes)
    {
      rows := [];
      for i := 0 to |outcomes|
        invariant rows == Own(Forward(registry.latest), end, outcomes[..i])
      {
        assert outcomes[..i + 1][..i] == outcomes[..i];
        var other := registry.Resolve(outcomes[i].peer);
        if other == Ok(end) {
          rows := rows + [outcomes[i].(peer := end)];
        }
      }
      assert outcomes[..|outcomes|] == outcomes;
    }

    /** A peer's score is the score of its continuity class. */
    method ScoreOf(peer: nat, p: R.Policy) returns (r: Result<R.PeerReputation, StoreError>)
      requires p.Valid() && Measured(outcomes)
      ensures Load(Snapshot()).Ok? ==> RegistryInv(Load(Snapshot()).value)
      ensures r == if Load(Snapshot()).Err? then Err(Load(Snapshot()).error)
                   else Ok(ClassScore(p, Load(Snapshot()).value, outcomes, peer))
    {
      var loaded := LoadRegistry();
      if loaded.Err? { return Err(loaded.error); }
      var registry := loaded.value;
      var end := registry.Resolve(peer);
      var rows := ClassRows(registry, end.value);
      OwnRecords(Forward(registry.latest), end.value, outcomes);
      var scored := R.ScorePeer(p, end.value, rows);
      return Ok(scored.value);
    }

    /** The ban check of the runtime: a peer is banned when any member of its continuity class is. */
    method PeerIsBanned(peer: nat, banned: set<nat>) returns (r: Result<bool, StoreError>)
      ensures Load(Snapshot()).Ok? ==> RegistryInv(Load(Snapshot()).value)
      ensures r == if Load(Snapshot()).Err? then Err(Load(Snapshot()).error)
                   else Ok(exists y: nat :: y in banned && Continues(Load(Snapshot()).value, y, peer))
    {
      var loaded := LoadRegistry();
      if loaded.Err? { return Err(loaded.error); }
      var members := loaded.value.ContinuityNodeIds(peer);
      var found := exists y :: y in members.value && y in banned;
      return Ok(found);
    }
  }

  /** Scores and continuity bans are the same for every member of a class. */
  lemma ClassShares(p: R.Policy, r: Registry, outcomes: seq<R.Outcome>, banned: set<nat>, x: nat, y: nat)
    requires p.Valid() && RegistryInv(r) && Continues(r, x, y)
    ensures ClassScore(p, r, outcomes, x) == ClassScore(p, r, outcomes, y)
    ensures (exists z: nat :: z in banned && Continues(r, z, x)) <==>
            (exists z: nat :: z in banned && Continues(r, z, y))
  {
    if z: nat :| z in banned && Continues(r, z, x) { assert Continues(r, z, y); }
    if z: nat :| z in banned && Continues(r, z, y) { assert Continues(r, z, x); }
  }

  /** A log whose prefix fails to replay, or whose next decision fails, fails the same way. */
  lemma {:induction false} ReplayPrefix(artifacts: map<ContentId, Signed>, log: seq<Decision>, i: nat)
    requires i < |log| && Replay(artifacts, log[..i]).Ok?
    ensures Replay(artifacts, log[..i + 1]) == ReplayOne(Replay(artifacts, log[..i]).value, artifacts, log[i])
    ensures Replay(artifacts, log[..i + 1]).Err? ==>
              Replay(artifacts, log) == Err(Replay(artifacts, log[..i + 1]).error)
  {
    assert log[..i + 1][..i] == log[..i];
    ReplayError(artifacts, log, i + 1);
  }

  lemma {:induction false} ReplayError(artifacts: map<ContentId, Signed>, log: seq<Decision>, i: nat)
    requires i <= |log|
    ensures Replay(artifacts, log[..i]).Err? ==> Replay(artifacts, log) == Err(Replay(artifacts, log[..i]).error)
    decreases |log| - i
  {
    if i == |log| {
      assert log[..i] == log;
    } else {
      assert log[..i + 1][..i] == log[..i];
      ReplayError(artifacts, log, i + 1);
    }
  }
}
