/** Exactly when a rotation is accepted, rejected or revoked, and what every registry and every store has admitted. */
module RotationLaws {
  import opened Wrappers
  import opened Forest
  import opened KeyRotation
  import T = TrustStore

  // ------------------------------------------------------------ one decision

  /** The artifact is under the digest of its rotation, and both signatures are over that rotation. */
  predicate Genuine(signed: Signed) { signed.content == Sha(signed.rotation) && signed.authentic }

  /** A rotation that can be accepted at a time: issued by then, clocks being at most five minutes apart, in effect, and
      not run out. */
  predicate InForce(rotation: Rotation, at: int) {
    rotation.issued <= at + 300 && rotation.effective <= at && at < rotation.expires
  }

  /** No other rotation of the identity is accepted. */
  predicate FreeToRotate(r: Registry, signed: Signed) {
    forall c :: c in r.latest && r.latest[c].status.Accepted? && r.latest[c].oldId == signed.rotation.oldId ==>
      c == signed.content
  }

  /** No earlier decision on another rotation of the identity has its sequence number or a higher one. */
  predicate NewestSequence(r: Registry, signed: Signed) {
    forall i :: 0 <= i < |r.history| && r.history[i].oldId == signed.rotation.oldId &&
                r.history[i].content != signed.content
      ==> r.history[i].sequence < signed.rotation.sequence
  }

  /** What accepting asks for: a genuine rotation in force, no other rotation of the identity accepted, no cycle of
      identities, and a sequence number above that of every earlier decision on another rotation of the identity. */
  ghost predicate MayAccept(r: Registry, signed: Signed, at: int) {
    var (a, b) := (signed.rotation.oldId, signed.rotation.newId);
    Genuine(signed) && InForce(signed.rotation, at) &&
    FreeToRotate(r, signed) &&
    Acyclic(Forward(r.latest)[a := b]) && NewestSequence(r, signed)
  }

  /** The registry with one more decision, and its artifact. */
  predicate Decided(r: Registry, n: Registry, d: Decision, signed: Signed, status: Status, at: int, reason: nat) {
    d.content == signed.content && d.oldId == signed.rotation.oldId && d.newId == signed.rotation.newId &&
    d.sequence == signed.rotation.sequence && d.status == status && d.at == at && d.reason == reason &&
    n.history == r.history + [d] && n.latest == r.latest[signed.content := d] &&
    n.artifacts == r.artifacts[signed.content := signed]
  }

  /** Then the registry's walk from the new identity finds a cycle exactly when the new link makes one. */
  lemma CycleClause(r: Registry, signed: Signed)
    requires RegistryInv(r) && Genuine(signed) && FreeToRotate(r, signed)
    ensures var (f, a, b) := (Forward(r.latest), signed.rotation.oldId, signed.rotation.newId);
            Root(f, b) != a <==> Acyclic(f[a := b])
  {
    var f, a, b := Forward(r.latest), signed.rotation.oldId, signed.rotation.newId;
    if a in f {
      var c := ForwardFrom(r.latest, a);
      RootOutside(f, b);
      assert c == signed.content && f[a := b] == f;
    } else {
      LinkExactly(f, a, b);
    }
  }

  lemma SequenceClause(r: Registry, signed: Signed)
    ensures (exists d :: d in r.history && Conflicts(d, signed)) <==> !NewestSequence(r, signed)
  {
    if d :| d in r.history && Conflicts(d, signed) {
      var i :| 0 <= i < |r.history| && r.history[i] == d;
      assert r.history[i].sequence >= signed.rotation.sequence;
    } else {
      forall i | 0 <= i < |r.history| && r.history[i].oldId == signed.rotation.oldId &&
                 r.history[i].content != signed.content
        ensures r.history[i].sequence < signed.rotation.sequence
      {
        assert r.history[i] in r.history && !Conflicts(r.history[i], signed);
      }
    }
  }

  lemma AcceptExactly(r: Registry, signed: Signed, at: int, reason: nat)
    requires RegistryInv(r)
    ensures var made := Accept(r, signed, at, reason);
            (made.Ok? <==> MayAccept(r, signed, at)) &&
            (made.Ok? ==> Decided(r, made.value.0, made.value.1, signed, Accepted, at, reason))
  {
    SequenceClause(r, signed);
    if Genuine(signed) && FreeToRotate(r, signed) { CycleClause(r, signed); }
  }

  /** Rejecting asks for a genuine rotation that is issued and not accepted now; it may have run out. */
  lemma RejectExactly(r: Registry, signed: Signed, at: int, reason: nat)
    requires RegistryInv(r)
    ensures var made := Reject(r, signed, at, reason);
            (made.Ok? <==>
             Genuine(signed) && signed.rotation.issued <= at + 300 &&
             !(signed.content in r.latest && r.latest[signed.content].status.Accepted?)) &&
            (made.Ok? ==> Decided(r, made.value.0, made.value.1, signed, Rejected, at, reason))
  {
  }

  /** Revoking asks for an accepted rotation and a time not before its acceptance. */
  lemma RevokeExactly(r: Registry, content: ContentId, at: int, reason: nat)
    requires RegistryInv(r)
    ensures var made := Revoke(r, content, at, reason);
            (made.Ok? <==> content in r.latest && r.latest[content].status.Accepted? && r.latest[content].at <= at) &&
            (made.Ok? ==> content in r.artifacts &&
                          Decided(r, made.value.0, made.value.1, r.artifacts[content], Revoked, at, reason))
  {
  }

  // ------------------------------------------------------------ every registry

  /** Every artifact is genuine. */
  predicate GenuineAll(artifacts: map<ContentId, Signed>) {
    forall c :: c in artifacts ==> artifacts[c].content == c && Genuine(artifacts[c])
  }

  /** The decision is about its rotation, was timely, and if it revokes, revokes an earlier acceptance. */
  predicate Sound(h: seq<Decision>, i: nat)
    requires i < |h|
  {
    var d := h[i];
    var rotation := d.content.rotation;
    d.oldId == rotation.oldId && d.newId == rotation.newId && d.sequence == rotation.sequence &&
    (d.status.Accepted? ==> InForce(rotation, d.at)) &&
    (d.status.Rejected? ==> rotation.issued <= d.at + 300) &&
    (d.status.Revoked? ==>
      exists j :: 0 <= j < i && h[j].content == d.content && h[j].status.Accepted? && h[j].at <= d.at)
  }

  /** All decisions are, and the latest ones are among them. */
  ghost predicate Admitted(r: Registry) {
    GenuineAll(r.artifacts) &&
    (forall i :: 0 <= i < |r.history| ==> r.history[i].content in r.artifacts && Sound(r.history, i)) &&
    (forall c :: c in r.latest ==> r.latest[c] in r.history && r.latest[c].content == c)
  }

  lemma SoundLonger(h: seq<Decision>, d: Decision, i: nat)
    requires i < |h| && Sound(h, i)
    ensures Sound(h + [d], i)
  {
    var g := h + [d];
    assert g[i] == h[i];
    if h[i].status.Revoked? {
      var j :| 0 <= j < i && h[j].content == h[i].content && h[j].status.Accepted? && h[j].at <= h[i].at;
      assert g[j] == h[j];
    }
  }

  lemma DecidedAdmitted(r: Registry, n: Registry, d: Decision, signed: Signed, status: Status, at: int, reason: nat)
    requires Admitted(r) && Decided(r, n, d, signed, status, at, reason) && Genuine(signed)
    requires status.Accepted? ==> InForce(signed.rotation, at)
    requires status.Rejected? ==> signed.rotation.issued <= at + 300
    requires status.Revoked? ==>
               signed.content in r.latest && r.latest[signed.content].status.Accepted? &&
               r.latest[signed.content].at <= at
    ensures Admitted(n)
  {
    forall i | 0 <= i < |n.history|
      ensures n.history[i].content in n.artifacts && Sound(n.history, i)
    {
      if i < |r.history| {
        SoundLonger(r.history, d, i);
      } else if status.Revoked? {
        var j :| 0 <= j < |r.history| && r.history[j] == r.latest[signed.content];
        assert n.history[j] == r.history[j];
      }
    }
    forall c | c in n.latest
      ensures n.latest[c] in n.history && n.latest[c].content == c
    {
      if c == signed.content {
        assert n.history[|r.history|] == d;
      } else {
        var j :| 0 <= j < |r.history| && r.history[j] == r.latest[c];
        assert n.history[j] == r.history[j];
      }
    }
  }

  lemma PerformAdmitted(r: Registry, op: Op)
    requires RegistryInv(r) && Admitted(r) && Perform(r, op).Ok?
    ensures RegistryInv(Perform(r, op).value.0) && Admitted(Perform(r, op).value.0)
  {
    PerformInv(r, op);
    var (n, d) := Perform(r, op).value;
    match op
    case AcceptOp(signed, at, reason) =>
      AcceptExactly(r, signed, at, reason);
      DecidedAdmitted(r, n, d, signed, Accepted, at, reason);
    case RejectOp(signed, at, reason) =>
      RejectExactly(r, signed, at, reason);
      DecidedAdmitted(r, n, d, signed, Rejected, at, reason);
    case RevokeOp(content, at, reason) =>
      RevokeExactly(r, content, at, reason);
      DecidedAdmitted(r, n, d, r.artifacts[content], Revoked, at, reason);
  }

  lemma {:induction false} RunAdmitted(r: Registry, ops: seq<Op>)
    requires RegistryInv(r) && Admitted(r)
    ensures RegistryInv(Run(r, ops)) && Admitted(Run(r, ops))
    decreases |ops|
  {
    if ops != [] {
      if Perform(r, ops[0]).Ok? { PerformAdmitted(r, ops[0]); }
      RunAdmitted(if Perform(r, ops[0]).Ok? then Perform(r, ops[0]).value.0 else r, ops[1..]);
    }
  }

  /** After any run of accept, reject and revoke: every artifact is genuine, every acceptance was of a rotation in force
      at its time, every rejection of one that had been issued, and every revocation of an earlier acceptance. */
  lemma EveryRegistryAdmitted(ops: seq<Op>)
    ensures Admitted(Run(FRESH, ops))
  {
    KeyRotation.EveryRun([]);
    RunAdmitted(FRESH, ops);
  }

  /** So an identity resolves to another only through genuine rotations that were in force when they were accepted. */
  lemma LinksAdmitted(r: Registry, x: nat) returns (signed: Signed, at: int)
    requires RegistryInv(r) && Admitted(r) && x in Forward(r.latest)
    ensures Genuine(signed) && signed in r.artifacts.Values && InForce(signed.rotation, at)
    ensures signed.rotation.oldId == x && signed.rotation.newId == Forward(r.latest)[x]
  {
    var c := ForwardFrom(r.latest, x);
    var i :| 0 <= i < |r.history| && r.history[i] == r.latest[c];
    assert Sound(r.history, i) && r.history[i].content in r.artifacts;
    signed, at := r.artifacts[c], r.latest[c].at;
    assert r.artifacts[c] in r.artifacts.Values;
  }

  // ------------------------------------------------------------ every store

  /** One logged decision, made again. */
  lemma RedoneAdmitted(r: Registry, artifacts: map<ContentId, Signed>, d: Decision)
    requires RegistryInv(r) && Admitted(r) && T.ReplayOne(r, artifacts, d).Ok?
    ensures var n := T.ReplayOne(r, artifacts, d).value;
            RegistryInv(n) && Admitted(n) && n.history == r.history + [d]
  {
    var signed := artifacts[d.content];
    match d.status
    case Accepted =>
      PerformAdmitted(r, AcceptOp(signed, d.at, d.reason));
      AcceptExactly(r, signed, d.at, d.reason);
    case Rejected =>
      PerformAdmitted(r, RejectOp(signed, d.at, d.reason));
      RejectExactly(r, signed, d.at, d.reason);
    case Revoked =>
      PerformAdmitted(r, RevokeOp(signed.content, d.at, d.reason));
      RevokeExactly(r, signed.content, d.at, d.reason);
  }

  lemma Rejoined(log: seq<Decision>)
    requires log != []
    ensures log[..|log| - 1] + [log[|log| - 1]] == log
  {
  }

  lemma RedoneLog(r: Registry, artifacts: map<ContentId, Signed>, d: Decision, log: seq<Decision>)
    requires RegistryInv(r) && Admitted(r) && log != [] && r.history == log[..|log| - 1] && d == log[|log| - 1]
    requires T.ReplayOne(r, artifacts, d).Ok?
    ensures var n := T.ReplayOne(r, artifacts, d).value; RegistryInv(n) && Admitted(n) && n.history == log
  {
    Rejoined(log);
    RedoneAdmitted(r, artifacts, d);
  }

  /** The replayed registry has exactly the logged decisions, and has admitted what the log says. */
  lemma {:induction false} ReplayAdmitted(artifacts: map<ContentId, Signed>, log: seq<Decision>)
    requires T.Replay(artifacts, log).Ok?
    ensures var r := T.Replay(artifacts, log).value; RegistryInv(r) && Admitted(r) && r.history == log
    decreases |log|
  {
    if log == [] {
      KeyRotation.EveryRun([]);
    } else {
      var front, d := log[..|log| - 1], log[|log| - 1];
      ReplayAdmitted(artifacts, front);
      RedoneLog(T.Replay(artifacts, front).value, artifacts, d, log);
    }
  }

  predicate Distinct(log: seq<Decision>) { forall i, j :: 0 <= i < j < |log| ==> log[i] != log[j] }

  /** The store keeps genuine artifacts, no decision twice, and no more decisions than its limit. */
  predicate Tidy(s: T.Store, cap: nat) { GenuineAll(s.artifacts) && Distinct(s.decisions) && |s.decisions| <= cap }

  /** A decision is stored if and only if the registry makes it, its artifact is not another one under the same content,
      and it is in the log already or the log has room. */
  lemma TransactExactly(s: T.Store, cap: nat, op: Op)
    requires T.StoreInv(s)
    ensures var r := T.Load(s).value;
            T.Transact(s, cap, op).Ok? <==>
            Perform(r, op).Ok? && T.ArtifactOf(s, op).Ok? &&
            var (signed, d) := (T.ArtifactOf(s, op).value, Perform(r, op).value.1);
            (signed.content in s.artifacts ==> s.artifacts[signed.content] == signed) &&
            (d in s.decisions || |s.decisions| < cap)
  {
  }

  /** What is stored with a decision is genuine. */
  lemma ArtifactGenuine(s: T.Store, op: Op)
    requires T.StoreInv(s) && GenuineAll(s.artifacts)
    requires Perform(T.Load(s).value, op).Ok? && T.ArtifactOf(s, op).Ok?
    ensures Genuine(T.ArtifactOf(s, op).value)
  {
    var r := T.Load(s).value;
    ReplayAdmitted(s.artifacts, s.decisions);
    match op
    case AcceptOp(signed, at, reason) => AcceptExactly(r, signed, at, reason);
    case RejectOp(signed, at, reason) => RejectExactly(r, signed, at, reason);
    case RevokeOp(_, _, _) =>
  }

  lemma PersistTidy(s: T.Store, cap: nat, signed: Signed, d: Decision)
    requires Tidy(s, cap) && Genuine(signed) && T.Persist(s, cap, signed, d).Ok?
    ensures Tidy(T.Persist(s, cap, signed, d).value, cap)
  {
  }

  lemma TransactTidy(s: T.Store, cap: nat, op: Op)
    requires T.StoreInv(s) && Tidy(s, cap) && T.Transact(s, cap, op).Ok?
    ensures Tidy(T.Transact(s, cap, op).value.0, cap)
  {
    ArtifactGenuine(s, op);
    PersistTidy(s, cap, T.ArtifactOf(s, op).value, Perform(T.Load(s).value, op).value.1);
  }

  lemma {:induction false} RunTidy(s: T.Store, cap: nat, ops: seq<Op>)
    requires T.StoreInv(s) && Tidy(s, cap)
    ensures T.StoreInv(T.Run(s, cap, ops)) && Tidy(T.Run(s, cap, ops), cap)
    decreases |ops|
  {
    if ops != [] {
      if T.Transact(s, cap, ops[0]).Ok? {
        T.TransactReloads(s, cap, ops[0]);
        TransactTidy(s, cap, ops[0]);
      }
      RunTidy(if T.Transact(s, cap, ops[0]).Ok? then T.Transact(s, cap, ops[0]).value.0 else s, cap, ops[1..]);
    }
  }

  /** Every reachable store: its artifacts are genuine, its log is within its limit and repeats nothing, and it reloads
      to the registry of exactly that log, with every acceptance of a rotation in force. */
  lemma EveryStoreAdmitted(cap: nat, ops: seq<Op>)
    ensures var s := T.Run(T.Store(map[], []), cap, ops);
            Tidy(s, cap) && T.Load(s).Ok? && Admitted(T.Load(s).value) && T.Load(s).value.history == s.decisions
  {
    RunTidy(T.Store(map[], []), cap, ops);
    var s := T.Run(T.Store(map[], []), cap, ops);
    ReplayAdmitted(s.artifacts, s.decisions);
  }
}
