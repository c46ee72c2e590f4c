/** Walks along a partial map from node to successor: the accepted key rotations seen as a graph. */
module Forest {

  type Links = map<nat, nat>

  /** The walk from x leaves the map within n steps. */
  ghost predicate Ends(f: Links, x: nat, n: nat)
    decreases n
  {
    x !in f || (n > 0 && Ends(f, f[x], n - 1))
  }

  ghost function End(f: Links, x: nat, n: nat): nat
    requires Ends(f, x, n)
    decreases n
  {
    if x !in f then x else End(f, f[x], n - 1)
  }

  ghost function Steps(f: Links, x: nat, n: nat): nat
    requires Ends(f, x, n)
    decreases n
  {
    if x !in f then 0 else 1 + Steps(f, f[x], n - 1)
  }

  lemma {:induction false} EndsStable(f: Links, x: nat, n: nat, m: nat)
    requires Ends(f, x, n) && (n <= m || Ends(f, x, m))
    ensures Ends(f, x, m) && End(f, x, m) == End(f, x, n) && Steps(f, x, m) == Steps(f, x, n)
    decreases n
  {
    if x in f {
      EndsStable(f, f[x], n - 1, m - 1);
    }
  }

  ghost predicate Bounded(f: Links, n: nat) { forall x: nat :: Ends(f, x, n) }

  /** Every walk ends: the map has no cycle. */
  ghost predicate Acyclic(f: Links) { exists n: nat :: Bounded(f, n) }

  ghost function Bound(f: Links): (n: nat)
    requires Acyclic(f)
    ensures Bounded(f, n)
  {
    var n: nat :| Bounded(f, n);
    n
  }

  /** Where the walk from x ends. */
  ghost function Root(f: Links, x: nat): nat
    requires Acyclic(f)
  {
    assert Ends(f, x, Bound(f));
    End(f, x, Bound(f))
  }

  ghost function Depth(f: Links, x: nat): nat
    requires Acyclic(f)
  {
    assert Ends(f, x, Bound(f));
    Steps(f, x, Bound(f))
  }

  lemma RootStep(f: Links, x: nat)
    requires Acyclic(f)
    ensures x in f ==> Root(f, x) == Root(f, f[x]) && Depth(f, x) == Depth(f, f[x]) + 1
    ensures x !in f ==> Root(f, x) == x
  {
    var n := Bound(f);
    assert Ends(f, x, n);
    if x in f {
      assert Ends(f, f[x], n);
      EndsStable(f, f[x], n - 1, n);
    }
  }

  lemma {:induction false} RootOutside(f: Links, x: nat)
    requires Acyclic(f)
    ensures Root(f, x) !in f
    decreases Depth(f, x)
  {
    RootStep(f, x);
    if x in f { RootOutside(f, f[x]); }
  }

  lemma RootByEnd(f: Links, x: nat, n: nat)
    requires Acyclic(f) && Ends(f, x, n)
    ensures Root(f, x) == End(f, x, n)
  {
    assert Ends(f, x, Bound(f));
    EndsStable(f, x, n, Bound(f));
  }

  // Adding a link a -> b to a map in which a has none and b's walk does not end at a.

  /** A walk that does not end at a is not changed by a link from a. */
  lemma {:induction false} LinkMisses(f: Links, a: nat, b: nat, x: nat, n: nat)
    requires a !in f && Ends(f, x, n) && End(f, x, n) != a
    ensures Ends(f[a := b], x, n) && End(f[a := b], x, n) == End(f, x, n)
    decreases n
  {
    if x in f { LinkMisses(f, a, b, f[x], n - 1); }
  }

  lemma {:induction false} LinkWalk(f: Links, a: nat, b: nat, x: nat, k: nat, n: nat)
    requires a !in f && Ends(f, x, k) && Ends(f, b, n) && End(f, b, n) != a
    ensures var g := f[a := b];
            && Ends(g, x, k + n + 1)
            && End(g, x, k + n + 1) == if End(f, x, k) == a then End(f, b, n) else End(f, x, k)
    decreases k
  {
    if x == a {
      LinkMisses(f, a, b, b, n);
      EndsStable(f[a := b], b, n, k + n);
    } else if x in f {
      LinkWalk(f, a, b, f[x], k - 1, n);
    }
  }

  /** Such a link keeps the map acyclic and moves exactly the walks that ended at a to b's end. */
  lemma Link(f: Links, a: nat, b: nat)
    requires Acyclic(f) && a !in f && Root(f, b) != a
    ensures Acyclic(f[a := b])
    ensures forall x: nat :: Root(f[a := b], x) == if Root(f, x) == a then Root(f, b) else Root(f, x)
  {
    var n := Bound(f);
    var g, m := f[a := b], n + n + 1;
    forall x: nat
      ensures Ends(g, x, m) && Ends(f, x, n) && End(g, x, m) == if End(f, x, n) == a then Root(f, b) else End(f, x, n)
    {
      assert Ends(f, x, n) && Ends(f, b, n);
      LinkWalk(f, a, b, x, n, n);
    }
    assert Bounded(g, m);
    forall x: nat ensures Root(g, x) == if Root(f, x) == a then Root(f, b) else Root(f, x) {
      RootByEnd(g, x, m);
    }
  }

  lemma {:induction false} CycleDepth(f: Links, a: nat, b: nat, x: nat, n: nat)
    requires a !in f && Ends(f, x, n) && End(f, x, n) == a && Acyclic(f[a := b])
    ensures Depth(f[a := b], x) >= Depth(f[a := b], a)
    decreases n
  {
    if x != a {
      RootStep(f[a := b], x);
      CycleDepth(f, a, b, f[x], n - 1);
    }
  }

  /** The test is exact: a link to a node whose walk ends at a closes a cycle. */
  lemma LinkExactly(f: Links, a: nat, b: nat)
    requires Acyclic(f) && a !in f
    ensures Acyclic(f[a := b]) <==> Root(f, b) != a
  {
    if Root(f, b) != a {
      Link(f, a, b);
    } else if Acyclic(f[a := b]) {
      RootStep(f[a := b], a);
      assert Ends(f, b, Bound(f));
      CycleDepth(f, a, b, b, Bound(f));
    }
  }

  lemma {:induction false} UnlinkWalk(f: Links, a: nat, x: nat, n: nat)
    requires Ends(f, x, n)
    ensures Ends(f - {a}, x, n)
    decreases n
  {
    if x in f - {a} { UnlinkWalk(f, a, f[x], n - 1); }
  }

  /** Removing a link keeps the map acyclic. */
  lemma Unlink(f: Links, a: nat)
    requires Acyclic(f)
    ensures Acyclic(f - {a})
  {
    var n := Bound(f);
    forall x: nat ensures Ends(f - {a}, x, n) {
      assert Ends(f, x, n);
      UnlinkWalk(f, a, x, n);
    }
    assert Bounded(f - {a}, n);
  }
}
