/** The local registry of key rotations (src/runner_swarm/key_rotation.py). Node identifiers are
    numbers; a content identifier is the digest of its rotation, so it determines the rotation. */
module KeyRotation {
  import opened Wrappers
  import opened Forest

  datatype Rotation = Rotation(oldId: nat, newId: nat, sequence: nat, issued: int, effective: int, expires: int)
  datatype ContentId = Sha(rotation: Rotation)

  /** authentic: both signatures verify over the rotation's bytes; signatures: their own bytes. */
  datatype Signed = Signed(rotation: Rotation, content: ContentId, signatures: nat, authentic: bool)

  datatype Status = Accepted | Rejected | Revoked
  datatype Decision = Decision(content: ContentId, oldId: nat, newId: nat, sequence: nat, status: Status, at: int,
                               reason: nat)

  datatype Registry = Registry(artifacts: map<ContentId, Signed>, history: seq<Decision>,
                               latest: map<ContentId, Decision>)

  datatype Error = WrongContentId | BadSignature | IssuedInFuture | RotationExpired | NotYetEffective | AlreadyAccepted
                 | WouldCycle | StaleSequence | RevokeInstead | OnlyAcceptedRevocable | PredatesAcceptance
                 | MissingArtifact | Cycle

  const SKEW := 300

  function Verify(signed: Signed, at: int, current: bool): Result<(), Error> {
    if signed.content != Sha(signed.rotation) then Err(WrongContentId)
    else if !signed.authentic then Err(BadSignature)
    else if signed.rotation.issued > at + SKEW then Err(IssuedInFuture)
    else if current && at >= signed.rotation.expires then Err(RotationExpired)
    else Ok(())
  }

  // --------------------------------------------------- the accepted mapping

  predicate ActiveAs(d: Decision, node: nat) { d.status.Accepted? && d.oldId == node }

  predicate Active(latest: map<ContentId, Decision>, node: nat) {
    exists c :: c in latest && ActiveAs(latest[c], node)
  }

  ghost function Successor(latest: map<ContentId, Decision>, node: nat): nat
    requires Active(latest, node)
  {
    var c :| c in latest && ActiveAs(latest[c], node);
    latest[c].newId
  }

  ghost function Forward(latest: map<ContentId, Decision>): Links {
    map node | node in (set c | c in latest :: latest[c].oldId) && Active(latest, node) :: Successor(latest, node)
  }

  /** The accepted mapping is a partial function: at most one accepted rotation per old identity. */
  ghost predicate OneActive(latest: map<ContentId, Decision>) {
    forall c, d :: c in latest && d in latest && ActiveAs(latest[c], latest[d].oldId) &&
        ActiveAs(latest[d], latest[d].oldId)
      ==> c == d
  }

  // ------------------------------------------------------------- operations

  function Decide(signed: Signed, status: Status, at: int, reason: nat): Decision {
    Decision(signed.content, signed.rotation.oldId, signed.rotation.newId, signed.rotation.sequence, status, at, reason)
  }

  function Record(r: Registry, signed: Signed, status: Status, at: int, reason: nat): (Registry, Decision) {
    var d := Decide(signed, status, at, reason);
    (Registry(r.artifacts[signed.content := signed], r.history + [d], r.latest[signed.content := d]), d)
  }

  predicate Conflicts(d: Decision, signed: Signed) {
    d.oldId == signed.rotation.oldId && d.content != signed.content && d.sequence >= signed.rotation.sequence
  }

  ghost function Accept(r: Registry, signed: Signed, at: int, reason: nat): Result<(Registry, Decision), Error> {
    var v := Verify(signed, at, true);
    if v.Err? then Err(v.error)
    else if at < signed.rotation.effective then Err(NotYetEffective)
    else if exists c :: c in r.latest && ActiveAs(r.latest[c], signed.rotation.oldId) && c != signed.content
    then Err(AlreadyAccepted)
    else if !Acyclic(Forward(r.latest)) then Err(Cycle)
    else if Root(Forward(r.latest), signed.rotation.newId) == signed.rotation.oldId then Err(WouldCycle)
    else if exists d :: d in r.history && Conflicts(d, signed) then Err(StaleSequence)
    else Ok(Record(r, signed, Accepted, at, reason))
  }

  function Reject(r: Registry, signed: Signed, at: int, reason: nat): Result<(Registry, Decision), Error> {
    var v := Verify(signed, at, false);
    if v.Err? then Err(v.error)
    else if signed.content in r.latest && ActiveAs(r.latest[signed.content], signed.rotation.oldId)
    then Err(RevokeInstead)
    else Ok(Record(r, signed, Rejected, at, reason))
  }

  function Revoke(r: Registry, content: ContentId, at: int, reason: nat): Result<(Registry, Decision), Error> {
    if content !in r.latest || !r.latest[content].status.Accepted? then Err(OnlyAcceptedRevocable)
    else if at < r.latest[content].at then Err(PredatesAcceptance)
    else if content !in r.artifacts then Err(MissingArtifact)
    else Ok(Record(r, r.artifacts[content], Revoked, at, reason))
  }

  const FRESH := Registry(map[], [], map[])

  // -------------------------------------------------------------- invariant

  ghost predicate ContentOk(r: Registry) {
    forall c :: c in r.latest ==>
      && r.latest[c].content == c && r.latest[c].oldId == c.rotation.oldId && r.latest[c].newId == c.rotation.newId
      && c in r.artifacts && r.artifacts[c].content == c == Sha(r.artifacts[c].rotation)
  }

  /** For one old identity, an accepted rotation is newer than every earlier decision on other content. */
  ghost predicate SequencesRise(h: seq<Decision>) {
    forall i, j :: 0 <= i < j < |h| && h[j].status.Accepted? && h[i].oldId == h[j].oldId && h[i].content != h[j].content
      ==> h[i].sequence < h[j].sequence
  }

  ghost predicate RegistryInv(r: Registry) {
    ContentOk(r) && OneActive(r.latest) && Acyclic(Forward(r.latest)) && SequencesRise(r.history)
  }

  predicate Link(d: Decision, x: nat, y: nat) { ActiveAs(d, x) && d.newId == y }

  lemma ForwardAt(latest: map<ContentId, Decision>, c: ContentId)
    requires OneActive(latest) && c in latest && latest[c].status.Accepted?
    ensures latest[c].oldId in Forward(latest) && Forward(latest)[latest[c].oldId] == latest[c].newId
  {
    assert ActiveAs(latest[c], latest[c].oldId);
  }

  lemma ForwardFrom(latest: map<ContentId, Decision>, x: nat) returns (c: ContentId)
    requires x in Forward(latest)
    ensures c in latest && Link(latest[c], x, Forward(latest)[x])
  {
    c :| c in latest && ActiveAs(latest[c], x) && latest[c].newId == Forward(latest)[x];
  }

  /** A map that links exactly what the accepted decisions link is the forward map. */
  lemma ForwardIs(latest: map<ContentId, Decision>, f: Links)
    requires OneActive(latest)
    requires forall c :: c in latest && latest[c].status.Accepted? ==>
               latest[c].oldId in f && f[latest[c].oldId] == latest[c].newId
    requires forall x :: x in f ==> Active(latest, x)
    ensures Forward(latest) == f
  {
    forall x | x in f ensures x in Forward(latest) {}
    forall x | x in Forward(latest) ensures x in f && f[x] == Forward(latest)[x] {
      var c := ForwardFrom(latest, x);
    }
  }

  /** Accepting c writes exactly the link of its rotation. */
  lemma ForwardAccept(latest: map<ContentId, Decision>, c: ContentId, d: Decision)
    requires OneActive(latest) && d.status.Accepted?
    requires forall k :: k in latest && ActiveAs(latest[k], d.oldId) ==> k == c
    requires c in latest && latest[c].status.Accepted? ==> latest[c].oldId == d.oldId
    ensures OneActive(latest[c := d])
    ensures Forward(latest[c := d]) == Forward(latest)[d.oldId := d.newId]
  {
    var after, f := latest[c := d], Forward(latest)[d.oldId := d.newId];
    assert OneActive(after);
    forall k | k in after && after[k].status.Accepted?
      ensures after[k].oldId in f && f[after[k].oldId] == after[k].newId
    {
      if k != c {
        ForwardAt(latest, k);
        assert ActiveAs(latest[k], latest[k].oldId);
      }
    }
    forall x | x in f ensures Active(after, x) {
      if x == d.oldId {
        assert ActiveAs(after[c], x);
      } else {
        var k := ForwardFrom(latest, x);
        assert ActiveAs(after[k], x);
      }
    }
    ForwardIs(after, f);
  }

  /** Any other decision on c removes the link of c, if it had one. */
  lemma ForwardDrop(latest: map<ContentId, Decision>, c: ContentId, d: Decision)
    requires OneActive(latest) && !d.status.Accepted?
    ensures OneActive(latest[c := d])
    ensures Forward(latest[c := d])
            == if c in latest && latest[c].status.Accepted? then Forward(latest) - {latest[c].oldId}
               else Forward(latest)
  {
    var after := latest[c := d];
    var dropped := c in latest && latest[c].status.Accepted?;
    var f := if dropped then Forward(latest) - {latest[c].oldId} else Forward(latest);
    assert OneActive(after);
    forall k | k in after && after[k].status.Accepted?
      ensures after[k].oldId in f && f[after[k].oldId] == after[k].newId
    {
      ForwardAt(latest, k);
      assert dropped && latest[c].oldId == latest[k].oldId ==> ActiveAs(latest[c], latest[k].oldId);
      assert ActiveAs(latest[k], latest[k].oldId);
    }
    forall x | x in f ensures Active(after, x) {
      var k := ForwardFrom(latest, x);
      assert ActiveAs(after[k], x);
    }
    ForwardIs(after, f);
  }

  // ------------------------------------------------------------ transitions

  lemma RecordHistory(r: Registry, signed: Signed, status: Status, at: int, reason: nat)
    requires SequencesRise(r.history)
    requires status.Accepted? ==> !exists d :: d in r.history && Conflicts(d, signed)
    ensures SequencesRise(Record(r, signed, status, at, reason).0.history)
  {
    var h := Record(r, signed, status, at, reason).0.history;
    forall i, j | 0 <= i < j < |h| && h[j].status.Accepted? && h[i].oldId == h[j].oldId && h[i].content != h[j].content
      ensures h[i].sequence < h[j].sequence
    {
      if j == |r.history| { assert r.history[i] in r.history && !Conflicts(r.history[i], signed); }
    }
  }

  /** An accepted rotation adds its link, or was accepted already; every other walk keeps its end. */
  lemma AcceptInv(r: Registry, signed: Signed, at: int, reason: nat)
    requires RegistryInv(r) && Accept(r, signed, at, reason).Ok?
    ensures var n := Accept(r, signed, at, reason).value.0;
            var f := Forward(r.latest);
            var (a, b) := (signed.rotation.oldId, signed.rotation.newId);
            && RegistryInv(n) && Forward(n.latest) == f[a := b]
            && (forall x: nat :: Root(Forward(n.latest), x) == if Root(f, x) == a then Root(f, b) else Root(f, x))
  {
    var f := Forward(r.latest);
    var a, b := signed.rotation.oldId, signed.rotation.newId;
    var d := Decide(signed, Accepted, at, reason);
    ForwardAccept(r.latest, signed.content, d);
    RecordHistory(r, signed, Accepted, at, reason);
    if a in f {
      var c := ForwardFrom(r.latest, a);
      assert f[a := b] == f;
      forall x: nat ensures Root(f, x) != a { RootOutside(f, x); }
    } else {
      Forest.Link(f, a, b);
    }
  }

  lemma RejectInv(r: Registry, signed: Signed, at: int, reason: nat)
    requires RegistryInv(r) && Reject(r, signed, at, reason).Ok?
    ensures var n := Reject(r, signed, at, reason).value.0;
            RegistryInv(n) && Forward(n.latest) == Forward(r.latest)
  {
    ForwardDrop(r.latest, signed.content, Decide(signed, Rejected, at, reason));
    RecordHistory(r, signed, Rejected, at, reason);
  }

  lemma RevokeInv(r: Registry, content: ContentId, at: int, reason: nat)
    requires RegistryInv(r) && Revoke(r, content, at, reason).Ok?
    ensures var n := Revoke(r, content, at, reason).value.0;
            RegistryInv(n) && Forward(n.latest) == Forward(r.latest) - {content.rotation.oldId}
  {
    var signed := r.artifacts[content];
    ForwardDrop(r.latest, content, Decide(signed, Revoked, at, reason));
    RecordHistory(r, signed, Revoked, at, reason);
    Unlink(Forward(r.latest), content.rotation.oldId);
  }

  /** The cycle test refuses exactly the rotations whose link would close a cycle. */
  lemma CycleTestExact(r: Registry, signed: Signed, at: int, reason: nat)
    requires RegistryInv(r) && !Active(r.latest, signed.rotation.oldId)
    requires Verify(signed, at, true).Ok? && at >= signed.rotation.effective
    ensures Accept(r, signed, at, reason) == Err(WouldCycle)
            <==> !Acyclic(Forward(r.latest)[signed.rotation.oldId := signed.rotation.newId])
  {
    LinkExactly(Forward(r.latest), signed.rotation.oldId, signed.rotation.newId);
  }

  // -------------------------------------------------------------- whole runs

  datatype Op = AcceptOp(signed: Signed, at: int, reason: nat)
              | RejectOp(signed: Signed, at: int, reason: nat)
              | RevokeOp(content: ContentId, at: int, reason: nat)

  ghost function Perform(r: Registry, op: Op): Result<(Registry, Decision), Error> {
    match op
    case AcceptOp(signed, at, reason) => Accept(r, signed, at, reason)
    case RejectOp(signed, at, reason) => Reject(r, signed, at, reason)
    case RevokeOp(content, at, reason) => Revoke(r, content, at, reason)
  }

  lemma PerformInv(r: Registry, op: Op)
    requires RegistryInv(r) && Perform(r, op).Ok?
    ensures RegistryInv(Perform(r, op).value.0)
  {
    match op
    case AcceptOp(signed, at, reason) => AcceptInv(r, signed, at, reason);
    case RejectOp(signed, at, reason) => RejectInv(r, signed, at, reason);
    case RevokeOp(content, at, reason) => RevokeInv(r, content, at, reason);
  }

  /** A refused operation raises and leaves the registry as it was. */
  ghost function Run(r: Registry, ops: seq<Op>): Registry
    decreases |ops|
  {
    if ops == [] then r
    else Run(if Perform(r, ops[0]).Ok? then Perform(r, ops[0]).value.0 else r, ops[1..])
  }

  lemma {:induction false} RunInv(r: Registry, ops: seq<Op>)
    requires RegistryInv(r)
    ensures RegistryInv(Run(r, ops))
    decreases |ops|
  {
    if ops != [] {
      if Perform(r, ops[0]).Ok? { PerformInv(r, ops[0]); }
      RunInv(if Perform(r, ops[0]).Ok? then Perform(r, ops[0]).value.0 else r, ops[1..]);
    }
  }

  /** Every run keeps the accepted mapping a partial function without a cycle, and accepted sequence
      numbers of one old identity rising. */
  lemma EveryRun(ops: seq<Op>)
    ensures RegistryInv(Run(FRESH, ops))
  {
    assert Forward(FRESH.latest) == map[];
    assert Bounded(map[], 0);
    RunInv(FRESH, ops);
  }

  // --------------------------------------------------------------- the class

  /** Two identities continue each other when their walks end together. */
  ghost predicate Continues(r: Registry, x: nat, y: nat)
    requires RegistryInv(r)
  {
    Root(Forward(r.latest), x) == Root(Forward(r.latest), y)
  }

  /** A set that holds the end of a walk and the predecessors of its members holds the walk. */
  lemma {:induction false} Backward(f: Links, end: nat, closed: set<nat>, x: nat)
    requires Acyclic(f) && Root(f, x) == end && end in closed
    requires forall y :: y in f && f[y] in closed ==> y in closed
    ensures x in closed
    decreases Depth(f, x)
  {
    RootStep(f, x);
    if x in f { Backward(f, end, closed, f[x]); }
  }

  /** The inner loop of the backward search: members of found that are new join both collections. */
  method AddPredecessors(found: set<nat>, members: set<nat>, todo: seq<nat>)
    returns (continuity: set<nat>, pending: seq<nat>)
    ensures continuity == members + found
    ensures forall x :: x in pending <==> x in todo || (x in found && x !in members)
    ensures found <= members ==> pending == todo
  {
    continuity, pending := members, todo;
    var rest := found;
    while rest != {}
      invariant rest <= found && continuity == members + (found - rest)
      invariant forall x :: x in pending <==> x in todo || (x in found && x !in rest && x !in members)
      invariant found <= members ==> pending == todo
      decreases |rest|
    {
      var x :| x in rest;
      rest := rest - {x};
      if x !in continuity {
        pending := pending + [x];
      }
      continuity := continuity + {x};
    }
  }

  /** The table from node to the identities rotated into it. */
  method Predecessors(links: map<nat, nat>) returns (preds: map<nat, set<nat>>)
    ensures forall x, y :: (y in preds && x in preds[y]) <==> (x in links && links[x] == y)
  {
    preds := map[];
    var rest := links.Keys;
    while rest != {}
      invariant rest <= links.Keys
      invariant forall x, y :: (y in preds && x in preds[y]) <==> (x in links && x !in rest && links[x] == y)
      decreases |rest|
    {
      var x :| x in rest;
      rest := rest - {x};
      var y := links[x];
      preds := preds[y := (if y in preds then preds[y] else {}) + {x}];
    }
  }

  method WalkForward(links: map<nat, nat>, node: nat) returns (r: Result<nat, Error>)
    requires Acyclic(links)
    ensures r == Ok(Root(links, node))
  {
    var current := node;
    var seen: set<nat> := {};
    while current in links
      invariant Root(links, current) == Root(links, node)
      invariant forall s :: s in seen ==> Depth(links, s) > Depth(links, current)
      decreases Depth(links, current)
    {
      RootStep(links, current);
      if current in seen { return Err(Cycle); }
      seen := seen + {current};
      current := links[current];
    }
    RootStep(links, current);
    return Ok(current);
  }

  method SearchBackward(links: map<nat, nat>, end: nat) returns (continuity: set<nat>)
    requires Acyclic(links) && end !in links
    ensures forall x: nat :: x in continuity <==> Root(links, x) == end
  {
    var preds := Predecessors(links);
    continuity := {end};
    var pending := [end];
    RootStep(links, end);
    while pending != []
      invariant forall x: nat :: x in continuity ==> Root(links, x) == end
      invariant forall x: nat :: x in pending ==> x in continuity
      invariant end in continuity && continuity <= links.Keys + {end}
      invariant forall x :: x in links && links[x] in continuity && links[x] !in pending ==> x in continuity
      decreases links.Keys + {end} - continuity, |pending|
    {
      var descendant := pending[|pending| - 1];
      var todo := pending[..|pending| - 1];
      assert forall x :: x in pending ==> x in todo || x == descendant;
      var found := if descendant in preds then preds[descendant] else {};
      forall x | x in found ensures Root(links, x) == end {
        RootStep(links, x);
      }
      ghost var before := continuity;
      continuity, pending := AddPredecessors(found, continuity, todo);
      if !(found <= before) {
        var x :| x in found && x !in before;
        assert x in links.Keys + {end} - before;
      }
    }
    forall x: nat | Root(links, x) == end ensures x in continuity {
      Backward(links, end, continuity, x);
    }
  }

  class LocalKeyRotationRegistry {
    var artifacts: map<ContentId, Signed>
    var history: seq<Decision>
    var latest: map<ContentId, Decision>

    ghost function Snapshot(): Registry
      reads this
    {
      Registry(artifacts, history, latest)
    }

    ghost predicate Valid()
      reads this
    {
      RegistryInv(Snapshot())
    }

    constructor ()
      ensures Snapshot() == FRESH && Valid()
    {
      artifacts, history, latest := map[], [], map[];
      new;
      EveryRun([]);
    }

    method RecordDecision(signed: Signed, status: Status, at: int, reason: nat) returns (d: Decision)
      modifies this
      ensures (Snapshot(), d) == Record(old(Snapshot()), signed, status, at, reason)
    {
      d := Decide(signed, status, at, reason);
      artifacts := artifacts[signed.content := signed];
      history := history + [d];
      latest := latest[signed.content := d];
    }

    method AcceptRotation(signed: Signed, at: int, reason: nat) returns (r: Result<Decision, Error>)
      requires Valid()
      modifies this
      ensures Valid()
      ensures match Accept(old(Snapshot()), signed, at, reason)
              case Err(e) => r == Err(e) && Snapshot() == old(Snapshot())
              case Ok((after, d)) => r == Ok(d) && Snapshot() == after
    {
      var v := Verify(signed, at, true);
      if v.Err? { return Err(v.error); }
      if at < signed.rotation.effective { return Err(NotYetEffective); }
      if exists c :: c in latest && ActiveAs(latest[c], signed.rotation.oldId) && c != signed.content {
        return Err(AlreadyAccepted);
      }
      var root := Resolve(signed.rotation.newId);
      if root == Ok(signed.rotation.oldId) { return Err(WouldCycle); }
      if exists d :: d in history && Conflicts(d, signed) { return Err(StaleSequence); }
      AcceptInv(Snapshot(), signed, at, reason);
      var d := RecordDecision(signed, Accepted, at, reason);
      return Ok(d);
    }

    method RejectRotation(signed: Signed, at: int, reason: nat) returns (r: Result<Decision, Error>)
      requires Valid()
      modifies this
      ensures Valid()
      ensures match Reject(old(Snapshot()), signed, at, reason)
              case Err(e) => r == Err(e) && Snapshot() == old(Snapshot())
              case Ok((after, d)) => r == Ok(d) && Snapshot() == after
    {
      var v := Verify(signed, at, false);
      if v.Err? { return Err(v.error); }
      if signed.content in latest && ActiveAs(latest[signed.content], signed.rotation.oldId) {
        return Err(RevokeInstead);
      }
      RejectInv(Snapshot(), signed, at, reason);
      var d := RecordDecision(signed, Rejected, at, reason);
      return Ok(d);
    }

    method RevokeRotation(content: ContentId, at: int, reason: nat) returns (r: Result<Decision, Error>)
      requires Valid()
      modifies this
      ensures Valid()
      ensures match Revoke(old(Snapshot()), content, at, reason)
              case Err(e) => r == Err(e) && Snapshot() == old(Snapshot())
              case Ok((after, d)) => r == Ok(d) && Snapshot() == after
    {
      if content !in latest || !latest[content].status.Accepted? { return Err(OnlyAcceptedRevocable); }
      if at < latest[content].at { return Err(PredatesAcceptance); }
      RevokeInv(Snapshot(), content, at, reason);
      var d := RecordDecision(artifacts[content], Revoked, at, reason);
      return Ok(d);
    }

    /** The pointer walk: it never meets a node twice, so the cycle error is never raised. */
    method Resolve(node: nat) returns (r: Result<nat, Error>)
      requires Valid()
      ensures r == Ok(Root(Forward(latest), node))
    {
      ghost var f := Forward(latest);
      var current := node;
      var seen: set<nat> := {};
      while current !in seen
        invariant Root(f, current) == Root(f, node)
        invariant forall s :: s in seen ==> Depth(f, s) > Depth(f, current)
        decreases Depth(f, current), if current in seen then 0 else 1
      {
        seen := seen + {current};
        RootStep(f, current);
        if c :| c in latest && ActiveAs(latest[c], current) {
          ForwardAt(latest, c);
          current := latest[c].newId;
        } else {
          return Ok(current);
        }
      }
      return Err(Cycle);
    }

    method IsContinuation(original: nat, presented: nat) returns (same: bool)
      requires Valid()
      ensures same <==> Continues(Snapshot(), original, presented)
    {
      var a := Resolve(original);
      var b := Resolve(presented);
      same := a == b;
    }

    /** The table of accepted links, built decision by decision. */
    method ActiveForward() returns (links: map<nat, nat>)
      requires Valid()
      ensures links == Forward(latest)
    {
      links := map[];
      var rest := latest.Keys;
      while rest != {}
        invariant rest <= latest.Keys
        invariant forall c :: c in latest && c !in rest && latest[c].status.Accepted?
                    ==> latest[c].oldId in links && links[latest[c].oldId] == latest[c].newId
        invariant forall x :: x in links ==> Active(latest, x)
        decreases |rest|
      {
        var c :| c in rest;
        rest := rest - {c};
        if latest[c].status.Accepted? {
          assert ActiveAs(latest[c], latest[c].oldId);
          links := links[latest[c].oldId := latest[c].newId];
        }
      }
      ForwardIs(latest, links);
    }

    /** Walk forward to the end, then search backward: the result is the whole continuity class. */
    method ContinuityNodeIds(node: nat) returns (r: Result<set<nat>, Error>)
      requires Valid()
      ensures r.Ok?
      ensures forall x: nat :: x in r.value <==> Continues(Snapshot(), x, node)
    {
      var links := ActiveForward();
      var end := WalkForward(links, node);
      RootOutside(links, node);
      var continuity := SearchBackward(links, end.value);
      return Ok(continuity);
    }
  }
}
