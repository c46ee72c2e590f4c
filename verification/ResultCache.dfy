/** The byte-bounded cache of API results (the CACHE_PUT script of src/runner_web/api_limits.py): one key per result,
    a sorted set of expiry times, a hash of sizes and a byte counter, each with its own expiry. Time is in seconds. */
module ResultCache {
  import opened Wrappers
  import opened Sums

  const MAX_BYTES: int := 33_554_432
  const MAX_RAW := 262_144
  const SWEEP_LIMIT: nat := 256
  const RESULT_LIFE := 3600
  const INDEX_LIFE := 7200

  datatype Stored = Stored(size: nat, until: int)

  /** `scores` and `sizes` expire together, at `indexUntil`; the counter expires at `bytesUntil`, or never. */
  datatype Cache = Cache(results: map<nat, Stored>, scores: map<nat, int>, sizes: map<nat, nat>, indexUntil: int,
                         bytes: Option<int>, bytesUntil: Option<int>)

  const EMPTY := Cache(map[], map[], map[], 0, None, None)

  function Size(): nat -> int { (size: nat) => size }

  function Bytes(bytes: Option<int>): int { if bytes.Some? then bytes.value else 0 }

  function Max(a: int, b: int): int { if a < b then b else a }

  /** The lowest scores that have come, 256 of them at most. */
  ghost predicate Lowest(scores: map<nat, int>, now: int, swept: set<nat>) {
    swept <= scores.Keys && (forall id :: id in swept ==> scores[id] <= now) && |swept| <= SWEEP_LIMIT &&
    (forall id, k :: id in swept && k in scores && k !in swept ==> scores[id] <= scores[k]) &&
    (|swept| < SWEEP_LIMIT ==> forall k :: k in scores && scores[k] <= now ==> k in swept)
  }

  /** The counter once the swept sizes are taken off. */
  ghost function Used(c: Cache, swept: set<nat>): int {
    Max(0, Bytes(c.bytes) - (Sum(c.sizes, Size()) - Sum(c.sizes - swept, Size())))
  }

  ghost function Fits(c: Cache, size: nat, swept: set<nat>): bool { Used(c, swept) + size <= MAX_BYTES }

  /** The script. Writing the counter drops its expiry, which only a put that fits sets again. */
  ghost function Put(c: Cache, id: nat, size: nat, now: int, swept: set<nat>): Cache {
    var used := Used(c, swept);
    var left := c.(scores := c.scores - swept, sizes := c.sizes - swept, bytes := Some(used), bytesUntil := None);
    if !Fits(c, size, swept) then left
    else Cache(c.results[id := Stored(size, now + RESULT_LIFE)], left.scores[id := now + RESULT_LIFE],
               left.sizes[id := size], now + INDEX_LIFE, Some(used + size), Some(now + INDEX_LIFE))
  }

  /** What the server has dropped by a given time. */
  function Expire(c: Cache, now: int): Cache {
    Cache(map id | id in c.results && now < c.results[id].until :: c.results[id],
          if now < c.indexUntil then c.scores else map[], if now < c.indexUntil then c.sizes else map[], c.indexUntil,
          if c.bytesUntil.Some? && c.bytesUntil.value <= now then None else c.bytes,
          if c.bytesUntil.Some? && c.bytesUntil.value <= now then None else c.bytesUntil)
  }

  // ------------------------------------------------------------ the server's keys

  datatype Saved = TooLarge | Full | Kept

  /** The bound that zlib gives for a compressed text, and its length in base 64. */
  function EncodedLimit(raw: nat): nat { (raw + raw / 4096 + raw / 16384 + raw / 33_554_432 + 13 + 2) / 3 * 4 }

  const MAX_ENCODED: nat := 349_652

  /** So no stored result is longer than this. */
  lemma EncodedAtMost(raw: nat)
    requires raw <= MAX_RAW
    ensures EncodedLimit(raw) <= EncodedLimit(MAX_RAW) == MAX_ENCODED
  {
  }

  /** The sweeping loop: one entry after the other leaves both indexes. */
  method DropEach(scores: map<nat, int>, sizes: map<nat, nat>, swept: set<nat>)
    returns (leftScores: map<nat, int>, leftSizes: map<nat, nat>, total: int)
    ensures leftScores == scores - swept && leftSizes == sizes - swept
    ensures total == Sum(sizes, Size()) - Sum(leftSizes, Size())
  {
    leftScores, leftSizes, total := scores, sizes, 0;
    var rest := swept;
    while rest != {}
      invariant leftSizes - rest == sizes - swept && leftScores - rest == scores - swept
      invariant total == Sum(sizes, Size()) - Sum(leftSizes, Size())
      decreases |rest|
    {
      var k :| k in rest;
      SumRemove(leftSizes, Size(), k);
      DropOne(leftSizes, rest, k);
      DropOne(leftScores, rest, k);
      total := total + (if k in leftSizes then leftSizes[k] else 0);
      leftSizes, leftScores := leftSizes - {k}, leftScores - {k};
      rest := rest - {k};
    }
    DropNone(leftSizes);
    DropNone(leftScores);
  }

  lemma DropOne<V>(m: map<nat, V>, rest: set<nat>, k: nat)
    requires k in rest
    ensures m - {k} - (rest - {k}) == m - rest
  {
  }

  lemma DropNone<V>(m: map<nat, V>)
    ensures m - {} == m
  {
  }

  method LeastScore(scores: map<nat, int>, due: set<nat>) returns (first: nat)
    requires due <= scores.Keys && due != {}
    ensures first in due && forall k :: k in due ==> scores[first] <= scores[k]
  {
    first :| first in due;
    var rest := due - {first};
    while rest != {}
      invariant first in due && rest <= due
      invariant forall k :: k in due && k !in rest ==> scores[first] <= scores[k]
      decreases |rest|
    {
      var k :| k in rest;
      rest := rest - {k};
      if scores[k] < scores[first] { first := k; }
    }
  }

  class Server {
    var results: map<nat, Stored>
    var scores: map<nat, int>
    var sizes: map<nat, nat>
    var indexUntil: int
    var bytes: Option<int>
    var bytesUntil: Option<int>

    ghost function Snapshot(): Cache
      reads this
    {
      Cache(results, scores, sizes, indexUntil, bytes, bytesUntil)
    }

    constructor ()
      ensures Snapshot() == EMPTY
    {
      results, scores, sizes, indexUntil, bytes, bytesUntil := map[], map[], map[], 0, None, None;
    }

    method LowestScores(now: int) returns (swept: set<nat>)
      ensures Lowest(scores, now, swept)
    {
      swept := {};
      var due := set id | id in scores && scores[id] <= now;
      while |swept| < SWEEP_LIMIT && due != {}
        invariant due == set id | id in scores && scores[id] <= now && id !in swept
        invariant swept <= scores.Keys && |swept| <= SWEEP_LIMIT && forall id :: id in swept ==> scores[id] <= now
        invariant forall id, k :: id in swept && k in scores && k !in swept ==> scores[id] <= scores[k]
        decreases |due|
      {
        var first := LeastScore(scores, due);
        swept := swept + {first};
        due := due - {first};
      }
    }

    method DropSwept(swept: set<nat>) returns (total: int)
      modifies this`scores, this`sizes
      ensures scores == old(scores) - swept && sizes == old(sizes) - swept
      ensures total == Sum(old(sizes), Size()) - Sum(sizes, Size())
    {
      scores, sizes, total := DropEach(scores, sizes, swept);
    }

    method CachePut(id: nat, size: nat, now: int) returns (stored: bool, swept: set<nat>)
      modifies this
      ensures Lowest(old(scores), now, swept)
      ensures Snapshot() == Put(old(Snapshot()), id, size, now, swept)
      ensures stored <==> Fits(old(Snapshot()), size, swept)
    {
      ghost var was := Snapshot();
      swept := LowestScores(now);
      var total := DropSwept(swept);
      var used := Max(0, Bytes(bytes) - total);
      assert used == Used(was, swept);
      bytes, bytesUntil := Some(used), None;
      if used + size > MAX_BYTES { return false, swept; }
      results := results[id := Stored(size, now + RESULT_LIFE)];
      sizes := sizes[id := size];
      scores := scores[id := now + RESULT_LIFE];
      bytes := Some(used + size);
      indexUntil, bytesUntil := now + INDEX_LIFE, Some(now + INDEX_LIFE);
      return true, swept;
    }

    method SaveResult(id: nat, raw: nat, encoded: nat, now: int) returns (r: Saved)
      requires encoded <= EncodedLimit(raw)
      modifies this
      ensures r.Kept? ==> id in results && results[id].size <= MAX_ENCODED
      ensures r.TooLarge? <==> raw > MAX_RAW
      ensures r.TooLarge? ==> Snapshot() == old(Snapshot())
      ensures !r.TooLarge? ==>
                exists swept :: Lowest(old(scores), now, swept) &&
                    Snapshot() == Put(old(Snapshot()), id, encoded, now, swept) &&
                                (r.Kept? <==> Fits(old(Snapshot()), encoded, swept))
    {
      if raw > MAX_RAW { return TooLarge; }
      EncodedAtMost(raw);
      var stored, swept := CachePut(id, encoded, now);
      return if stored then Kept else Full;
    }
  }

  // ------------------------------------------------------------ every run

  datatype World = World(cache: Cache, now: int)

  datatype Event = Saves(id: nat, size: nat, swept: set<nat>) | Waits(seconds: nat)

  ghost function Perform(w: World, e: Event): World {
    match e
    case Saves(id, size, swept) => w.(cache := Put(w.cache, id, size, w.now, swept))
    case Waits(seconds) => World(Expire(w.cache, w.now + seconds), w.now + seconds)
  }

  ghost function Run(es: seq<Event>): World
    decreases |es|
  {
    if es == [] then World(EMPTY, 0) else Perform(Run(es[..|es| - 1]), es[|es| - 1])
  }

  /** Each put sweeps what its script would. */
  ghost predicate Sweeps(es: seq<Event>) {
    forall i :: 0 <= i < |es| && es[i].Saves? ==> Lowest(Run(es[..i]).cache.scores, Run(es[..i]).now, es[i].swept)
  }

  function Bytesize(): Stored -> int { (s: Stored) => s.size }

  /** Every result that is still there is indexed, under its size and its expiry. */
  predicate Indexed(c: Cache, now: int) {
    c.sizes.Keys == c.scores.Keys &&
    forall id :: id in c.results ==>
      now < c.results[id].until <= now + RESULT_LIFE && c.results[id].until < c.indexUntil && id in c.sizes &&
          c.sizes[id] == c.results[id].size &&
      c.scores[id] == c.results[id].until
  }

  ghost predicate Counted(c: Cache) {
    Sum(c.sizes, Size()) <= Bytes(c.bytes) <= MAX_BYTES
  }

  predicate Lives(c: Cache, now: int) {
    (c.bytesUntil.Some? ==> c.bytes.Some? && c.bytesUntil.value == c.indexUntil) &&
    (c.sizes != map[] ==> c.bytes.Some? && now < c.indexUntil)
  }

  ghost predicate Inv(w: World) { Indexed(w.cache, w.now) && Counted(w.cache) && Lives(w.cache, w.now) }

  /** What a sweep takes off is there to take: the counter never has to be held at nothing. */
  lemma SweepKeeps(c: Cache, now: int, swept: set<nat>)
    requires Counted(c)
    ensures Used(c, swept) == Bytes(c.bytes) - (Sum(c.sizes, Size()) - Sum(c.sizes - swept, Size()))
    ensures Sum(c.sizes - swept, Size()) <= Used(c, swept) <= Bytes(c.bytes)
  {
    SumNonNegative(c.sizes - swept, Size());
    SumShrinks(c.sizes, swept);
  }

  lemma {:induction false} SumShrinks(sizes: map<nat, nat>, swept: set<nat>)
    ensures Sum(sizes - swept, Size()) <= Sum(sizes, Size())
    decreases |swept|
  {
    if swept == {} {
      assert sizes - swept == sizes;
    } else {
      var k :| k in swept;
      SumRemove(sizes, Size(), k);
      SumShrinks(sizes - {k}, swept - {k});
      assert sizes - swept == sizes - {k} - (swept - {k});
    }
  }

  lemma PutInv(w: World, id: nat, size: nat, swept: set<nat>)
    requires Inv(w) && Lowest(w.cache.scores, w.now, swept)
    ensures Inv(Perform(w, Saves(id, size, swept)))
  {
    var c := w.cache;
    SweepKeeps(c, w.now, swept);
    SumPut(c.sizes - swept, Size(), id, size);
    assert forall k :: k in c.results ==> k !in swept;
  }

  lemma WaitInv(w: World, seconds: nat)
    requires Inv(w)
    ensures Inv(Perform(w, Waits(seconds)))
  {
    var none: map<nat, nat> := map[];
    assert Sum(none, Size()) == 0;
    SumNonNegative(w.cache.sizes, Size());
  }

  lemma {:induction false} RunInv(es: seq<Event>)
    requires Sweeps(es)
    ensures Inv(Run(es))
    decreases |es|
  {
    if es != [] {
      var front, e := es[..|es| - 1], es[|es| - 1];
      assert forall i :: 0 <= i <= |front| ==> front[..i] == es[..i];
      assert front[..|front|] == front;
      RunInv(front);
      match e
      case Saves(id, size, swept) => PutInv(Run(front), id, size, swept);
      case Waits(seconds) => WaitInv(Run(front), seconds);
    }
  }

  /** Over every run of puts, sweeps and expiries, the results that can still be read take no more bytes than the
      counter says, and the counter never says more than the limit. */
  lemma EveryRun(es: seq<Event>)
    requires Sweeps(es)
    ensures var w := Run(es);
            Sum(w.cache.results, Bytesize()) <= Sum(w.cache.sizes, Size()) <= Bytes(w.cache.bytes) <= MAX_BYTES &&
            (forall id :: id in w.cache.results ==> w.now < w.cache.results[id].until)
  {
    RunInv(es);
    ResultsCounted(Run(es).cache, Run(es).now);
  }

  lemma ResultsCounted(c: Cache, now: int)
    requires Indexed(c, now)
    ensures Sum(c.results, Bytesize()) <= Sum(c.sizes, Size())
  {
    var gone := c.sizes.Keys - c.results.Keys;
    SumAgree(c.results, Bytesize(), c.sizes - gone, Size());
    SumShrinks(c.sizes, gone);
  }

  /** A put that fits keeps the new result for an hour beside all the others, and indexes and counts it; one that does
      not leaves all results alone. Either way what was swept is in no index, and the counter is less by its size. */
  lemma PutOutcome(c: Cache, id: nat, size: nat, now: int, swept: set<nat>)
    requires Counted(c)
    ensures var v := Put(c, id, size, now, swept);
            var used := Bytes(c.bytes) - (Sum(c.sizes, Size()) - Sum(c.sizes - swept, Size()));
            if used + size > 33_554_432 then
              v.results == c.results && v.scores == c.scores - swept && v.sizes == c.sizes - swept &&
              v.indexUntil == c.indexUntil && v.bytes == Some(used) && v.bytesUntil == None
            else
              id in v.results && v.results[id] == Stored(size, now + 3600) &&
              v.results.Keys == c.results.Keys + {id} &&
              (forall k :: k in c.results && k != id ==> v.results[k] == c.results[k]) &&
              v.scores == (c.scores - swept)[id := now + 3600] && v.sizes == (c.sizes - swept)[id := size] &&
              v.indexUntil == now + 7200 && v.bytes == Some(used + size) && v.bytesUntil == Some(now + 7200)
  {
    SweepKeeps(c, now, swept);
  }

  /** The sweep takes only entries that are due, none before a lower one, and leaves a due one only when it has taken
      256. */
  lemma SweepOutcome(scores: map<nat, int>, now: int, swept: set<nat>, k: nat)
    requires Lowest(scores, now, swept) && k in scores
    ensures k in swept ==> scores[k] <= now
    ensures k !in swept && scores[k] <= now ==> |swept| == 256 && forall id :: id in swept ==> scores[id] <= scores[k]
    ensures |swept| <= 256
  {
  }

  /** Every key is there until its own expiry and no longer; a counter without one stays. */
  lemma ExpireOutcome(c: Cache, now: int, id: nat)
    ensures var v := Expire(c, now);
            (id in v.results <==> id in c.results && now < c.results[id].until) &&
            (id in v.results ==> v.results[id] == c.results[id]) &&
            (if now < c.indexUntil then v.scores == c.scores && v.sizes == c.sizes
             else v.scores == map[] && v.sizes == map[]) &&
            (if c.bytesUntil.Some? && c.bytesUntil.value <= now then v.bytes.None? && v.bytesUntil.None?
             else v.bytes == c.bytes && v.bytesUntil == c.bytesUntil)
  {
  }

  /** It fits if and only if it is within 32 MiB together with what the counter says, less what the sweep takes off. */
  lemma FitsExactly(c: Cache, now: int, size: nat, swept: set<nat>)
    requires Counted(c)
    ensures Fits(c, size, swept) <==>
            Bytes(c.bytes) - (Sum(c.sizes, Size()) - Sum(c.sizes - swept, Size())) + size <= 33_554_432
  {
    SweepKeeps(c, now, swept);
  }

  /** One event of a run keeps a result that it does not replace, until its hour is over and no longer. */
  lemma ResultStays(w: World, e: Event, id: nat)
    requires id in w.cache.results && !(e.Saves? && e.id == id)
    ensures var (v, r) := (Perform(w, e), w.cache.results[id]);
            if v.now < r.until || e.Saves? then id in v.cache.results && v.cache.results[id] == r
            else id !in v.cache.results
  {
  }

  /** And so does a run. */
  lemma {:induction false} ResultReadable(es: seq<Event>, i: nat, id: nat, r: Stored)
    requires i <= |es| && id in Run(es[..i]).cache.results && Run(es[..i]).cache.results[id] == r
    requires forall j :: i <= j < |es| ==> !(es[j].Saves? && es[j].id == id)
    requires forall j :: i <= j <= |es| ==> Run(es[..j]).now < r.until
    ensures id in Run(es).cache.results && Run(es).cache.results[id] == r
    decreases |es|
  {
    if i == |es| {
      assert es[..i] == es;
    } else {
      var front := es[..|es| - 1];
      assert forall j :: 0 <= j <= |front| ==> front[..j] == es[..j];
      assert forall j :: 0 <= j < |front| ==> front[j] == es[j];
      ResultReadable(front, i, id, r);
      assert front == es[..|front|] && es[..|es|] == es;
      ResultStays(Run(front), es[|es| - 1], id);
    }
  }

  /** The counter stays exact exactly when a stored result's name is not already counted, or was counted as empty. */
  lemma ExactExactly(w: World, id: nat, size: nat, swept: set<nat>)
    requires Inv(w) && Lowest(w.cache.scores, w.now, swept) && Fits(w.cache, size, swept)
    requires Bytes(w.cache.bytes) == Sum(w.cache.sizes, Size())
    ensures var c := Put(w.cache, id, size, w.now, swept);
            Bytes(c.bytes) == Sum(c.sizes, Size()) <==>
            id in swept || id !in w.cache.sizes || w.cache.sizes[id] == 0
  {
    SweepKeeps(w.cache, w.now, swept);
    SumPut(w.cache.sizes - swept, Size(), id, size);
  }

  /** When the index has expired, the counter is exact again exactly when it expires with it, or was zero. */
  lemma ExpiryExactly(w: World, seconds: nat)
    requires Inv(w) && w.now + seconds >= w.cache.indexUntil
    ensures var c := Perform(w, Waits(seconds)).cache;
            Bytes(c.bytes) == Sum(c.sizes, Size()) <==> w.cache.bytesUntil.Some? || Bytes(w.cache.bytes) == 0
  {
    var none: map<nat, nat> := map[];
    assert Sum(none, Size()) == 0;
  }

  // ------------------------------------------------------------ a counter without its index

  /** The index is gone and the counter stays. */
  predicate Stuck(c: Cache, used: int) {
    c.scores == map[] && c.sizes == map[] && c.bytes == Some(used) && c.bytesUntil.None? && used >= 0
  }

  /** From then on a put is refused, and the counter stays, exactly while it does not fit beside the stale count. */
  lemma StuckExactly(w: World, e: Event, used: int)
    requires Stuck(w.cache, used) && (e.Saves? ==> Lowest(w.cache.scores, w.now, e.swept))
    ensures Stuck(Perform(w, e).cache, used) <==> e.Waits? || used + e.size > MAX_BYTES
    ensures e.Saves? ==> (Fits(w.cache, e.size, e.swept) <==> used + e.size <= MAX_BYTES)
  {
    if e.Saves? {
      assert e.swept == {};
      assert w.cache.sizes - e.swept == w.cache.sizes;
    }
  }

  /** A put that does fit gives the counter an expiry again, and when that has passed the counter is exact. */
  lemma StuckEnds(w: World, id: nat, size: nat, seconds: nat, used: int)
    requires Stuck(w.cache, used) && used + size <= MAX_BYTES && seconds >= INDEX_LIFE
    ensures var v := Perform(Perform(w, Saves(id, size, {})), Waits(seconds));
            v.cache.bytes.None? && v.cache.sizes == map[] && v.cache.results.Keys <= w.cache.results.Keys
  {
    StuckExactly(w, Saves(id, size, {}), used);
  }

  lemma Then(es: seq<Event>, e: Event) returns (fs: seq<Event>)
    requires Sweeps(es) && (e.Saves? ==> Lowest(Run(es).cache.scores, Run(es).now, e.swept))
    ensures Sweeps(fs) && Run(fs) == Perform(Run(es), e) && fs == es + [e]
  {
    fs := es + [e];
    assert fs[..|fs| - 1] == es == fs[..|es|];
    assert forall i :: 0 <= i < |es| ==> fs[..i] == es[..i] && fs[i] == es[i];
  }

  /** Every put is of a size that a result can have. */
  predicate Sized(es: seq<Event>) { forall i :: 0 <= i < |es| && es[i].Saves? ==> es[i].size <= MAX_ENCODED }

  const PIECE: nat := 131_072

  /** The cache after n results of 128 KiB each, all put at time 0. */
  ghost predicate Filled(c: Cache, n: nat) {
    (forall id: nat :: id in c.sizes <==> id < n) && (forall id: nat :: id in c.scores <==> id < n) &&
    (forall id :: id in c.sizes ==> c.sizes[id] == PIECE) &&
        (forall id :: id in c.scores ==> c.scores[id] == RESULT_LIFE) &&
    (forall id :: id in c.results ==> c.results[id].until == RESULT_LIFE) &&
    Sum(c.sizes, Size()) == n * PIECE && Bytes(c.bytes) == n * PIECE && (n > 0 ==> c.indexUntil == INDEX_LIFE)
  }

  lemma PutPiece(c: Cache, n: nat)
    requires Filled(c, n) && n < 256
    ensures Filled(Put(c, n, PIECE, 0, {}), n + 1)
  {
    assert c.sizes - {} == c.sizes && c.scores - {} == c.scores;
    SumPut(c.sizes, Size(), n, PIECE);
  }

  lemma {:induction false} FillsCache(n: nat) returns (es: seq<Event>)
    requires n <= 256
    ensures Sweeps(es) && Sized(es) && Filled(Run(es).cache, n) && Run(es).now == 0
  {
    if n == 0 {
      es := [];
      var none: map<nat, nat> := map[];
      assert Sum(none, Size()) == 0;
    } else {
      es := FillsCache(n - 1);
      PutPiece(Run(es).cache, n - 1);
      es := Then(es, Saves(n - 1, PIECE, {}));
    }
  }

  lemma RefusedPiece(c: Cache)
    requires Filled(c, 256)
    ensures var v := Put(c, 256, PIECE, 0, {});
            !Fits(c, PIECE, {}) && v == c.(bytes := Some(MAX_BYTES), bytesUntil := None)
  {
    assert c.sizes - {} == c.sizes && c.scores - {} == c.scores;
  }

  /** It is reached with results of ordinary size: a refused put removes the counter's expiry, and the index then
      expires without it. */
  lemma RefusedPutSticks() returns (es: seq<Event>)
    ensures Sweeps(es) && Sized(es) && Stuck(Run(es).cache, MAX_BYTES) && Run(es).cache.results == map[]
  {
    es := FillsCache(256);
    RefusedPiece(Run(es).cache);
    es := Then(es, Saves(256, PIECE, {}));
    es := Then(es, Waits(7200));
  }
}
