/** Peer reputation from local outcome measurements (src/runner_swarm/reputation.py), in parts per million. */
module Reputation {
  import opened Sums

  const PPM := 1_000_000

  datatype Verdict = Confirmed | Refuted | Inconclusive
  datatype Outcome = Outcome(claim: nat, peer: nat, verdict: Verdict, families: seq<nat>)
  datatype Policy = Policy(priorConfirmed: nat, priorRefuted: nat, minimumOutcomes: nat, minimumReputation: nat,
                           maximumInfluence: nat, targetFamilies: nat)
  {
    predicate Valid() {
      && priorConfirmed <= 1000 && 1 <= priorRefuted <= 1000 && 1 <= minimumOutcomes
      && minimumReputation <= PPM && maximumInfluence <= PPM && 1 <= targetFamilies <= 32
    }
  }

  datatype PeerReputation = PeerReputation(peer: nat, confirmed: nat, refuted: nat, inconclusive: nat, reliability: int,
                                           diversity: int, reputation: int, influence: int, eligible: bool)
  datatype Scored = Score(value: PeerReputation) | OtherPeer | RepeatedClaim

  function Count(rs: seq<Outcome>, v: Verdict): nat {
    if rs == [] then 0 else Count(rs[..|rs| - 1], v) + if rs[|rs| - 1].verdict == v then 1 else 0
  }

  predicate RepeatsClaim(rs: seq<Outcome>) { exists i, j :: 0 <= i < j < |rs| && rs[i].claim == rs[j].claim }

  /** How many resolved outcomes rest on a source family. */
  function Uses(rs: seq<Outcome>, family: nat): nat {
    if rs == [] then 0
    else
      var last := rs[|rs| - 1];
      Uses(rs[..|rs| - 1], family) + if !last.verdict.Inconclusive? && family in last.families then 1 else 0
  }

  /** The families of a record are distinct, as its validator demands. */
  predicate Distinct(s: seq<nat>) { forall i, j :: 0 <= i < j < |s| ==> s[i] != s[j] }

  /** The table of families in use with their counts. */
  ghost predicate Tabulates(counts: map<nat, nat>, rs: seq<Outcome>) {
    forall f: nat :: (f in counts <==> Uses(rs, f) > 0) && (f in counts ==> counts[f] == Uses(rs, f))
  }

  ghost function Counts(rs: seq<Outcome>): (counts: map<nat, nat>)
    ensures Tabulates(counts, rs)
  {
    if rs == [] then map[]
    else
      var m, last := Counts(rs[..|rs| - 1]), rs[|rs| - 1];
      if last.verdict.Inconclusive? then m
      else map f | f in m.Keys + (set x | x in last.families) ::
             (if f in m then m[f] else 0) + if f in last.families then 1 else 0
  }

  lemma CountsUnique(counts: map<nat, nat>, rs: seq<Outcome>)
    requires Tabulates(counts, rs)
    ensures counts == Counts(rs)
  {
    assert Tabulates(Counts(rs), rs);
  }

  function Same(n: nat): int { n }
  function Square(n: nat): int { n * n }

  function Reliability(p: Policy, confirmed: nat, refuted: nat): int
    requires p.Valid()
  {
    (confirmed + p.priorConfirmed) * PPM / (confirmed + refuted + p.priorConfirmed + p.priorRefuted)
  }

  function Scale(a: int, ppm: int): int { a * ppm / PPM }

  /** Inverse concentration of the family uses, relative to the target number of families. */
  function Diversity(total: nat, concentration: nat, target: nat): int
    requires target > 0 && (total > 0 ==> concentration > 0)
  {
    if total == 0 then 0
    else
      var d := total * total * PPM / concentration / target;
      if d < PPM then d else PPM
  }

  ghost function Assess(p: Policy, peer: nat, rs: seq<Outcome>): PeerReputation
    requires p.Valid()
  {
    var counts := Counts(rs);
    assert Tabulates(counts, rs);
    TotalsPositive(counts);
    var c, r := Count(rs, Confirmed), Count(rs, Refuted);
    var reliability := Reliability(p, c, r);
    var diversity := Diversity(Sum(counts, Same), Sum(counts, Square), p.targetFamilies);
    var reputation := Scale(reliability, diversity);
    var eligible := c + r >= p.minimumOutcomes && reputation >= p.minimumReputation;
    PeerReputation(peer, c, r, Count(rs, Inconclusive), reliability, diversity, reputation,
                   if eligible then Scale(p.maximumInfluence, reputation) else 0, eligible)
  }

  lemma {:induction false} TotalsPositive(counts: map<nat, nat>)
    requires forall f :: f in counts ==> counts[f] > 0
    ensures Sum(counts, Same) >= 0 && Sum(counts, Square) >= Sum(counts, Same)
    decreases |counts|
  {
    if counts != map[] {
      var k := Pick(counts);
      TotalsPositive(counts - {k});
      assert counts[k] * counts[k] >= counts[k];
    }
  }

  // ------------------------------------------------------------ computation

  lemma {:induction false} UsesStep(rs: seq<Outcome>, i: nat)
    requires i < |rs|
    ensures forall f: nat :: Uses(rs[..i + 1], f)
                             == Uses(rs[..i], f) + if !rs[i].verdict.Inconclusive? && f in rs[i].families then 1 else 0
    ensures forall v :: Count(rs[..i + 1], v) == Count(rs[..i], v) + if rs[i].verdict == v then 1 else 0
  {
    assert rs[..i + 1][..i] == rs[..i];
  }

  /** Each family of a resolved outcome adds one to its count. */
  method AddFamilies(counts: map<nat, nat>, families: seq<nat>) returns (more: map<nat, nat>)
    requires Distinct(families)
    ensures forall f: nat :: f in more <==> f in counts || f in families
    ensures forall f: nat :: f in more ==>
              more[f] == (if f in counts then counts[f] else 0) + if f in families then 1 else 0
  {
    more := counts;
    for i := 0 to |families|
      invariant forall f: nat :: f in more <==> f in counts || f in families[..i]
      invariant forall f: nat :: f in more ==>
                  more[f] == (if f in counts then counts[f] else 0) + if f in families[..i] then 1 else 0
    {
      assert families[i] !in families[..i];
      more := more[families[i] := (if families[i] in more then more[families[i]] else 0) + 1];
    }
    assert families[..|families|] == families;
  }

  method ScorePeer(p: Policy, peer: nat, rs: seq<Outcome>) returns (result: Scored)
    requires p.Valid() && forall i :: 0 <= i < |rs| ==> Distinct(rs[i].families)
    ensures result == if exists i :: 0 <= i < |rs| && rs[i].peer != peer then OtherPeer
                      else if RepeatsClaim(rs) then RepeatedClaim
                      else Score(Assess(p, peer, rs))
  {
    var table: map<nat, nat> := map[];
    var confirmed, refuted, inconclusive := 0, 0, 0;
    for i := 0 to |rs|
      invariant Tabulates(table, rs[..i])
      invariant confirmed == Count(rs[..i], Confirmed) && refuted == Count(rs[..i], Refuted)
      invariant inconclusive == Count(rs[..i], Inconclusive)
    {
      UsesStep(rs, i);
      match rs[i].verdict {
        case Confirmed => confirmed := confirmed + 1;
        case Refuted => refuted := refuted + 1;
        case Inconclusive => inconclusive := inconclusive + 1;
      }
      if !rs[i].verdict.Inconclusive? {
        table := AddFamilies(table, rs[i].families);
      }
    }
    assert rs[..|rs|] == rs;
    CountsUnique(table, rs);
    if exists i :: 0 <= i < |rs| && rs[i].peer != peer { return OtherPeer; }
    if RepeatsClaim(rs) { return RepeatedClaim; }
    var total := SumRows(table, Same);
    var concentration := SumRows(table, Square);
    TotalsPositive(table);
    var reliability := Reliability(p, confirmed, refuted);
    var diversity := Diversity(total, concentration, p.targetFamilies);
    var reputation := Scale(reliability, diversity);
    var eligible := confirmed + refuted >= p.minimumOutcomes && reputation >= p.minimumReputation;
    var influence := if eligible then Scale(p.maximumInfluence, reputation) else 0;
    result := Score(PeerReputation(peer, confirmed, refuted, inconclusive, reliability, diversity, reputation,
                                   influence, eligible));
  }

  // ------------------------------------------------------------- properties

  /** The sum over a table of (count - c) squared, expanded, is not negative. */
  lemma {:induction false} Spread(counts: map<nat, nat>, c: int)
    ensures Sum(counts, Square) - 2 * c * Sum(counts, Same) + |counts| * (c * c) >= 0
    decreases |counts|
  {
    if counts != map[] {
      var k := Pick(counts);
      var rest := counts - {k};
      Spread(rest, c);
      assert rest.Keys == counts.Keys - {k};
      SpreadStep(Sum(rest, Square), Sum(rest, Same), |rest|, counts[k], c);
    }
  }

  /** Cauchy-Schwarz: the square of a sum of n counts is at most n times the sum of their squares. */
  lemma {:induction false} CauchySchwarz(counts: map<nat, nat>)
    ensures Sum(counts, Same) * Sum(counts, Same) <= |counts| * Sum(counts, Square)
    decreases |counts|
  {
    if counts != map[] {
      var k := Pick(counts);
      var rest := counts - {k};
      CauchySchwarz(rest);
      Spread(rest, counts[k]);
      assert rest.Keys == counts.Keys - {k};
      CauchyStep(Sum(rest, Square), Sum(rest, Same), |rest|, counts[k]);
    }
  }

  lemma ReliabilityRange(p: Policy, c: nat, r: nat)
    requires p.Valid()
    ensures 0 <= Reliability(p, c, r) <= PPM
  {
    MulLe(c + p.priorConfirmed, c + r + p.priorConfirmed + p.priorRefuted, PPM);
    QuotientLe((c + p.priorConfirmed) * PPM, c + r + p.priorConfirmed + p.priorRefuted, PPM);
  }

  lemma ScaleRange(a: nat, ppm: nat)
    requires ppm <= PPM
    ensures 0 <= Scale(a, ppm) <= a
  {
    MulLe(ppm, PPM, a);
    QuotientLe(a * ppm, PPM, a);
  }

  /** With total squared at most n times the concentration, diversity is at most n over the target. */
  lemma DiversityRange(total: nat, concentration: nat, n: nat, target: nat)
    requires target > 0 && (total > 0 ==> concentration > 0) && total * total <= n * concentration
    ensures 0 <= Diversity(total, concentration, target) <= PPM
    ensures Diversity(total, concentration, target) <= n * PPM / target
  {
    if total > 0 {
      MulLe(total * total, n * concentration, PPM);
      Reorder(n, concentration, PPM);
      QuotientLe(total * total * PPM, concentration, n * PPM);
      QuotientMonotone(total * total * PPM / concentration, n * PPM, target);
    }
  }

  /** All scores are parts per million, influence never exceeds its limit, and diversity is at most the
      share of the target that the distinct families could reach. */
  lemma ScoresInRange(p: Policy, peer: nat, rs: seq<Outcome>)
    requires p.Valid()
    ensures var r := Assess(p, peer, rs);
            && 0 <= r.reliability <= PPM && 0 <= r.diversity <= PPM && 0 <= r.reputation <= PPM
            && r.reputation <= r.reliability && r.reputation <= r.diversity && 0 <= r.influence <= p.maximumInfluence
            && r.diversity <= |Counts(rs)| * PPM / p.targetFamilies
  {
    var r := Assess(p, peer, rs);
    var counts := Counts(rs);
    assert Tabulates(counts, rs);
    TotalsPositive(counts);
    CauchySchwarz(counts);
    ReliabilityRange(p, r.confirmed, r.refuted);
    DiversityRange(Sum(counts, Same), Sum(counts, Square), |counts|, p.targetFamilies);
    ScaleRange(r.reliability, r.diversity);
    ScaleCommutes(r.reliability, r.diversity);
    ScaleRange(r.diversity, r.reliability);
    ScaleRange(p.maximumInfluence, r.reputation);
  }

  lemma ScaleCommutes(a: int, b: int)
    ensures Scale(a, b) == Scale(b, a)
  {
    assert a * b == b * a;
  }

  /** No amount of confirmation makes a peer eligible without enough distinct source families. */
  lemma EligibleNeedsFamilies(p: Policy, peer: nat, rs: seq<Outcome>)
    requires p.Valid() && Assess(p, peer, rs).eligible
    ensures |Counts(rs)| * PPM >= p.targetFamilies * p.minimumReputation
    ensures Count(rs, Confirmed) + Count(rs, Refuted) >= p.minimumOutcomes
  {
    ScoresInRange(p, peer, rs);
    QuotientAtLeast(|Counts(rs)| * PPM, p.targetFamilies, p.minimumReputation);
  }

  /** Enough resolved outcomes and enough reputation are all that a peer needs, and what it needs; then it has influence
      in proportion to its reputation, and otherwise none. Every outcome is counted once. */
  lemma EligibleExactly(p: Policy, peer: nat, rs: seq<Outcome>)
    requires p.Valid()
    ensures var r := Assess(p, peer, rs);
            r.peer == peer && r.confirmed + r.refuted + r.inconclusive == |rs| &&
            (r.eligible <==> r.confirmed + r.refuted >= p.minimumOutcomes && r.reputation >= p.minimumReputation) &&
            (r.eligible ==> r.influence == p.maximumInfluence * r.reputation / 1_000_000) &&
            (!r.eligible ==> r.influence == 0)
  {
    CountsAll(rs);
  }

  lemma {:induction false} CountsAll(rs: seq<Outcome>)
    ensures Count(rs, Confirmed) + Count(rs, Refuted) + Count(rs, Inconclusive) == |rs|
    decreases |rs|
  {
    if rs != [] { CountsAll(rs[..|rs| - 1]); }
  }

  function Claims(rs: seq<Outcome>): set<nat> { set i | 0 <= i < |rs| :: rs[i].claim }

  /** A claim is repeated if and only if there are fewer claims than records. */
  lemma {:induction false} RepeatsExactly(rs: seq<Outcome>)
    ensures |Claims(rs)| <= |rs| && (RepeatsClaim(rs) <==> |Claims(rs)| < |rs|)
    decreases |rs|
  {
    if rs != [] {
      var init, o := rs[..|rs| - 1], rs[|rs| - 1];
      RepeatsExactly(init);
      ClaimsLonger(init, o);
      if o.claim in Claims(init) { RepeatsAgain(init, o); } else { RepeatsLonger(init, o); }
      assert init + [o] == rs;
    }
  }

  lemma ClaimsLonger(rs: seq<Outcome>, o: Outcome)
    ensures |Claims(rs + [o])| == |Claims(rs)| + if o.claim in Claims(rs) then 0 else 1
  {
    var longer := rs + [o];
    assert Claims(longer) == Claims(rs) + {o.claim} by {
      assert longer[|rs|] == o;
      forall c | c in Claims(rs) ensures c in Claims(longer) {
        var i :| 0 <= i < |rs| && rs[i].claim == c;
        assert longer[i].claim == c;
      }
    }
    if o.claim in Claims(rs) { assert Claims(rs) + {o.claim} == Claims(rs); }
  }

  lemma RepeatsAgain(rs: seq<Outcome>, o: Outcome)
    requires o.claim in Claims(rs)
    ensures RepeatsClaim(rs + [o])
  {
    var i :| 0 <= i < |rs| && rs[i].claim == o.claim;
    assert (rs + [o])[i].claim == (rs + [o])[|rs|].claim;
  }

  lemma RepeatsLonger(rs: seq<Outcome>, o: Outcome)
    requires o.claim !in Claims(rs)
    ensures RepeatsClaim(rs + [o]) <==> RepeatsClaim(rs)
  {
    var longer := rs + [o];
    if RepeatsClaim(longer) {
      var i, j :| 0 <= i < j < |longer| && longer[i].claim == longer[j].claim;
      assert rs[i].claim in Claims(rs);
      assert rs[i].claim == rs[j].claim;
    }
    if RepeatsClaim(rs) {
      var i, j :| 0 <= i < j < |rs| && rs[i].claim == rs[j].claim;
      assert longer[i].claim == longer[j].claim;
    }
  }

  /** With every family used equally often, diversity is all that the number of families allows. */
  lemma EqualUsesAreDiverse(counts: map<nat, nat>, n: nat, target: nat)
    requires n > 0 && target > 0 && counts != map[] && forall f :: f in counts ==> counts[f] == n
    ensures Sum(counts, Same) > 0 && Sum(counts, Square) > 0
    ensures Diversity(Sum(counts, Same), Sum(counts, Square), target) ==
            if |counts| * PPM / target < PPM then |counts| * PPM / target else PPM
  {
    EqualSums(counts, n);
    var k := |counts|;
    assert k > 0 by { assert counts.Keys != {}; }
    EqualQuotient(k, n);
  }

  lemma OneMore(k: int, n: int)
    ensures k * n == (k - 1) * n + n
  {
  }

  lemma {:induction false} EqualSums(counts: map<nat, nat>, n: nat)
    requires forall f :: f in counts ==> counts[f] == n
    ensures Sum(counts, Same) == |counts| * n && Sum(counts, Square) == |counts| * (n * n)
    decreases |counts|
  {
    if counts != map[] {
      var f := Pick(counts);
      EqualSums(counts - {f}, n);
      assert (counts - {f}).Keys == counts.Keys - {f};
      OneMore(|counts|, n);
      OneMore(|counts|, n * n);
    }
  }

  lemma EqualQuotient(k: nat, n: nat)
    requires k > 0 && n > 0
    ensures k * n > 0 && k * (n * n) > 0 && k * n * (k * n) * PPM / (k * (n * n)) == k * PPM
  {
    var d := k * (n * n);
    assert n * n > 0 && d > 0;
    assert k * n * (k * n) == k * d by { assert k * n * (k * n) == k * (k * (n * n)); }
    Reorder(k, d, PPM);
    assert k * n * (k * n) * PPM == k * PPM * d;
    QuotientLe(k * PPM * d, d, k * PPM);
    QuotientGe(k * PPM * d, d, k * PPM);
  }

  /** A further confirmation never lowers reliability and a further refutation never raises it. */
  lemma ReliabilityMonotone(p: Policy, peer: nat, rs: seq<Outcome>, o: Outcome)
    requires p.Valid()
    ensures var before, after := Assess(p, peer, rs).reliability, Assess(p, peer, rs + [o]).reliability;
            && (o.verdict.Confirmed? ==> before <= after)
            && (o.verdict.Refuted? ==> after <= before)
            && (o.verdict.Inconclusive? ==> after == before)
  {
    assert (rs + [o])[..|rs|] == rs;
    var c, r := Count(rs, Confirmed) + p.priorConfirmed, Count(rs, Refuted) + p.priorRefuted;
    FractionsCompare(c, c + r, c + 1, c + 1 + r, PPM);
    FractionsCompare(c, c + r + 1, c, c + r, PPM);
  }

  // ------------------------------------------- what one more outcome does to diversity

  function Get(counts: map<nat, nat>, family: nat): nat { if family in counts then counts[family] else 0 }

  /** The uses so far of the families of an outcome. */
  function PriorUses(counts: map<nat, nat>, families: seq<nat>): nat
    decreases |families|
  {
    if families == [] then 0
    else PriorUses(counts, families[..|families| - 1]) + Get(counts, families[|families| - 1])
  }

  function Bumped(counts: map<nat, nat>, families: seq<nat>): map<nat, nat>
    decreases |families|
  {
    if families == [] then counts
    else
      var m, f := Bumped(counts, families[..|families| - 1]), families[|families| - 1];
      m[f := Get(m, f) + 1]
  }

  lemma {:induction false} BumpedCounts(counts: map<nat, nat>, families: seq<nat>)
    requires Distinct(families)
    ensures var m := Bumped(counts, families);
            forall f: nat :: (f in m <==> f in counts || f in families) &&
                             (f in m ==> m[f] == Get(counts, f) + if f in families then 1 else 0)
    decreases |families|
  {
    if families != [] {
      var front, last := families[..|families| - 1], families[|families| - 1];
      BumpedCounts(counts, front);
      assert families == front + [last] && last !in front;
    }
  }

  /** Counting one family. */
  lemma BumpedOne(counts: map<nat, nat>, f: nat)
    ensures var m := counts[f := Get(counts, f) + 1];
            Sum(m, Same) == Sum(counts, Same) + 1 &&
            Sum(m, Square) == Sum(counts, Square) + 2 * Get(counts, f) + 1
  {
    var n := Get(counts, f);
    SumPut(counts, Same, f, n + 1);
    SumPut(counts, Square, f, n + 1);
    assert Square(n + 1) == Square(n) + 2 * n + 1;
  }

  /** Counting k families adds k to the total, and twice their prior uses and k to the concentration. */
  lemma {:induction false} BumpedSums(counts: map<nat, nat>, families: seq<nat>)
    requires Distinct(families)
    ensures Sum(Bumped(counts, families), Same) == Sum(counts, Same) + |families|
    ensures Sum(Bumped(counts, families), Square) ==
            Sum(counts, Square) + 2 * PriorUses(counts, families) + |families|
    decreases |families|
  {
    if families != [] {
      var front, last := families[..|families| - 1], families[|families| - 1];
      BumpedSums(counts, front);
      NotYetBumped(counts, families);
      BumpedOne(Bumped(counts, front), last);
    }
  }

  lemma NotYetBumped(counts: map<nat, nat>, families: seq<nat>)
    requires Distinct(families) && families != []
    ensures var front, last := families[..|families| - 1], families[|families| - 1];
            Get(Bumped(counts, front), last) == Get(counts, last)
  {
    var front, last := families[..|families| - 1], families[|families| - 1];
    BumpedCounts(counts, front);
    assert last !in front;
  }

  lemma OutcomeBumps(rs: seq<Outcome>, o: Outcome)
    requires Distinct(o.families) && !o.verdict.Inconclusive?
    ensures Counts(rs + [o]) == Bumped(Counts(rs), o.families)
  {
    assert (rs + [o])[..|rs|] == rs;
    BumpedCounts(Counts(rs), o.families);
  }

  /** The condition under which an outcome does not concentrate the sources: on k families with prior uses s, at total t
      and concentration q. */
  predicate Spreads(t: nat, q: nat, k: nat, s: nat) { (2 * t * k + k * k) * q >= t * t * (2 * s + k) }

  predicate OutcomeSpreads(counts: map<nat, nat>, total: nat, concentration: nat, o: Outcome) {
    Spreads(total, concentration, |o.families|, PriorUses(counts, o.families))
  }

  lemma SpreadsCross(t: nat, q: nat, k: nat, s: nat, u: nat, r: nat)
    requires u == t + k && r == q + 2 * s + k
    ensures u * u * q >= t * t * r <==> Spreads(t, q, k, s)
  {
    assert u * u == t * t + (2 * t * k + k * k);
    assert (t * t + (2 * t * k + k * k)) * q == t * t * q + (2 * t * k + k * k) * q;
    assert t * t * r == t * t * q + t * t * (2 * s + k);
  }

  lemma SumsAfter(rs: seq<Outcome>, o: Outcome)
    requires Distinct(o.families) && !o.verdict.Inconclusive?
    ensures var (m, n) := (Counts(rs), Counts(rs + [o]));
            Sum(m, Same) >= 0 && Sum(m, Square) >= 0 && Sum(n, Same) == Sum(m, Same) + |o.families| &&
            Sum(n, Square) == Sum(m, Square) + 2 * PriorUses(m, o.families) + |o.families|
  {
    var m := Counts(rs);
    assert Tabulates(m, rs);
    TotalsPositive(m);
    OutcomeBumps(rs, o);
    BumpedSums(m, o.families);
  }

  /** Exactly when a further resolved outcome does not lower the diversity before rounding, which is the square of the
      total over the concentration; the test is on the counts before the outcome. */
  lemma DiversityExactly(rs: seq<Outcome>, o: Outcome)
    requires Distinct(o.families) && !o.verdict.Inconclusive?
    ensures var (m, n) := (Counts(rs), Counts(rs + [o]));
            var (t, q) := (Sum(m, Same), Sum(m, Square));
            var (u, r) := (Sum(n, Same), Sum(n, Square));
            t >= 0 && q >= 0 && (u * u * q >= t * t * r <==> OutcomeSpreads(m, t, q, o))
  {
    SumsAfter(rs, o);
    var m, n := Counts(rs), Counts(rs + [o]);
    SpreadsCross(Sum(m, Same), Sum(m, Square), |o.families|, PriorUses(m, o.families), Sum(n, Same), Sum(n, Square));
  }

  /** Rounding keeps the order of the fractions. */
  lemma DiversityMonotone(t: nat, q: nat, u: nat, r: nat, target: nat)
    requires target > 0 && (t > 0 ==> q > 0) && (u > 0 ==> r > 0) && t <= u && u * u * q >= t * t * r
    ensures Diversity(t, q, target) <= Diversity(u, r, target)
  {
    if t > 0 {
      FractionsCompare(t * t, q, u * u, r, PPM);
      QuotientMonotone(t * t * PPM / q, u * u * PPM / r, target);
    } else {
      if u > 0 { MulLe(1, r, u * u); }
      DiversityRange(u, r, u * u, target);
    }
  }

  lemma ScaleMonotone(a: nat, b: nat, c: nat, d: nat)
    requires a <= c && b <= d
    ensures Scale(a, b) <= Scale(c, d)
  {
    MulLe(a, c, b);
    MulLe(b, d, c);
    QuotientMonotone(a * b, c * d, PPM);
  }

  /** Through both roundings: a confirmation that does not concentrate the sources never lowers diversity or
      reputation. */
  lemma ConfirmationKeeps(p: Policy, peer: nat, rs: seq<Outcome>, o: Outcome)
    requires p.Valid() && Distinct(o.families) && o.verdict.Confirmed?
    requires var m := Counts(rs);
             Sum(m, Same) >= 0 && Sum(m, Square) >= 0 && OutcomeSpreads(m, Sum(m, Same), Sum(m, Square), o)
    ensures var (before, after) := (Assess(p, peer, rs), Assess(p, peer, rs + [o]));
            before.diversity <= after.diversity && before.reputation <= after.reputation
  {
    var (m, n) := (Counts(rs), Counts(rs + [o]));
    assert Tabulates(m, rs) && Tabulates(n, rs + [o]);
    TotalsPositive(m);
    TotalsPositive(n);
    DiversityExactly(rs, o);
    SumsAfter(rs, o);
    DiversityMonotone(Sum(m, Same), Sum(m, Square), Sum(n, Same), Sum(n, Square), p.targetFamilies);
    ReliabilityMonotone(p, peer, rs, o);
    ScoresInRange(p, peer, rs);
    var (before, after) := (Assess(p, peer, rs), Assess(p, peer, rs + [o]));
    ScaleMonotone(before.reliability, before.diversity, after.reliability, after.diversity);
  }

  const SMALL_POLICY := Policy(1000, 1, 1, 0, PPM, 2)

  /** A reputation from its four numbers. */
  lemma ReputationOf(rs: seq<Outcome>, confirmed: nat, total: nat, concentration: nat)
    requires Count(rs, Confirmed) == confirmed && Count(rs, Refuted) == 0
    requires Sum(Counts(rs), Same) == total && Sum(Counts(rs), Square) == concentration && concentration > 0
    ensures Assess(SMALL_POLICY, 0, rs).reputation ==
            Scale(Reliability(SMALL_POLICY, confirmed, 0), Diversity(total, concentration, 2))
  {
  }

  lemma SmallNumbers()
    ensures Scale(Reliability(SMALL_POLICY, 1, 0), Diversity(2, 2, 2)) == 999_001
    ensures Scale(Reliability(SMALL_POLICY, 2, 0), Diversity(3, 5, 2)) == 899_101
  {
    assert Reliability(SMALL_POLICY, 1, 0) == 999_001 && Reliability(SMALL_POLICY, 2, 0) == 999_002;
    assert Diversity(2, 2, 2) == PPM && Diversity(3, 5, 2) == 900_000;
    assert Scale(999_001, PPM) == 999_001 && Scale(999_002, 900_000) == 899_101;
  }

  /** Reputation itself is not monotone: confirming a second claim on one of two families lowers it. */
  lemma ConfirmationMayLower() returns (p: Policy, rs: seq<Outcome>, o: Outcome)
    ensures p.Valid() && o.verdict.Confirmed?
    ensures Assess(p, 0, rs + [o]).reputation < Assess(p, 0, rs).reputation
  {
    p := SMALL_POLICY;
    o := Outcome(1, 0, Confirmed, [1]);
    rs := [Outcome(0, 0, Confirmed, [1, 2])];
    SmallCounts(rs, o);
    TwoFamilies(1, 1);
    TwoFamilies(2, 1);
    ReputationOf(rs, 1, 2, 2);
    ReputationOf(rs + [o], 2, 3, 5);
    SmallNumbers();
  }

  lemma SmallCounts(rs: seq<Outcome>, o: Outcome)
    requires rs == [Outcome(0, 0, Confirmed, [1, 2])] && o == Outcome(1, 0, Confirmed, [1])
    ensures Counts(rs) == map[1 := 1][2 := 1] && Counts(rs + [o]) == map[1 := 2][2 := 1]
    ensures Count(rs, Confirmed) == 1 && Count(rs + [o], Confirmed) == 2
    ensures Count(rs, Refuted) == 0 && Count(rs + [o], Refuted) == 0
  {
    assert rs[..0] == [] && (rs + [o])[..1] == rs;
    assert Counts(rs[..0]) == map[];
    assert (set x | x in rs[0].families) == {1, 2} by { assert rs[0].families[0] == 1 && rs[0].families[1] == 2; }
    assert Counts(rs).Keys == {1, 2};
    assert (set x | x in o.families) == {1};
    assert Counts(rs + [o]).Keys == {1, 2};
  }

  lemma TwoFamilies(a: nat, b: nat)
    ensures Sum<nat, nat>(map[1 := a][2 := b], Same) == a + b
    ensures Sum<nat, nat>(map[1 := a][2 := b], Square) == Square(a) + Square(b)
  {
    SumPut<nat, nat>(map[1 := a], Same, 2, b);
    SumPut<nat, nat>(map[1 := a], Square, 2, b);
    SumPut<nat, nat>(map[], Same, 1, a);
    SumPut<nat, nat>(map[], Square, 1, a);
    assert map[][1 := a] == map[1 := a];
  }

  // ------------------------------------------------------------- arithmetic

  lemma SpreadStep(q: int, t: int, n: int, x: int, c: int)
    requires q - 2 * c * t + n * (c * c) >= 0
    ensures (q + x * x) - 2 * c * (t + x) + (n + 1) * (c * c) >= 0
  {
    assert (x - c) * (x - c) == x * x - 2 * c * x + c * c;
    assert (n + 1) * (c * c) == n * (c * c) + c * c;
    assert 2 * c * (t + x) == 2 * c * t + 2 * c * x;
    assert (x - c) * (x - c) >= 0;
  }

  lemma CauchyStep(q: int, t: int, n: int, x: int)
    requires t * t <= n * q && q - 2 * x * t + n * (x * x) >= 0
    ensures (t + x) * (t + x) <= (n + 1) * (q + x * x)
  {
    assert (t + x) * (t + x) == t * t + 2 * x * t + x * x;
    assert (n + 1) * (q + x * x) == n * q + n * (x * x) + q + x * x;
  }

  lemma MulLe(a: int, b: int, c: int)
    requires a <= b && c >= 0
    ensures a * c <= b * c && c * a <= c * b
  {
  }

  lemma Reorder(a: int, b: int, c: int)
    ensures a * b * c == a * c * b
  {
  }

  lemma QuotientLe(a: int, b: int, n: int)
    requires b > 0 && (a <= n * b || a <= b * n)
    ensures a / b <= n && (a >= 0 ==> a / b >= 0)
  {
    if a / b >= n + 1 { MulLe(n + 1, a / b, b); }
  }

  lemma QuotientMonotone(a: int, b: int, d: int)
    requires d > 0 && a <= b
    ensures a / d <= b / d
  {
    if a / d > b / d { MulLe(b / d + 1, a / d, d); }
  }

  lemma QuotientAtLeast(a: int, b: int, n: int)
    requires b > 0 && n <= a / b
    ensures a >= b * n
  {
    MulLe(n, a / b, b);
  }

  /** Cross-multiplied fractions compare after scaling and rounding down. */
  lemma FractionsCompare(a: nat, b: nat, c: nat, d: nat, m: nat)
    requires b > 0 && d > 0 && a * d <= c * b
    ensures a * m / b <= c * m / d
  {
    var x := a * m / b;
    assert x * b <= a * m;
    MulLe(x * b, a * m, d);
    MulLe(a * d, c * b, m);
    assert x * b * d == x * d * b;
    assert a * m * d == a * d * m && c * b * m == c * m * b;
    assert x * d * b <= c * m * b;
    CancelLe(x * d, c * m, b);
    QuotientGe(c * m, d, x);
  }

  lemma CancelLe(a: int, b: int, c: int)
    requires c > 0 && a * c <= b * c
    ensures a <= b
  {
    if a > b { MulLe(b + 1, a, c); }
  }

  lemma QuotientGe(a: int, b: int, n: int)
    requires b > 0 && n * b <= a
    ensures n <= a / b
  {
    if a / b + 1 <= n { MulLe(a / b + 1, n, b); }
  }
}
