/** The token bucket in front of a metered provider (src/runner_watch/massive_data.py), in exact arithmetic.
    Clock readings are parameters; each attempt holds the lock, so attempts of all callers form one sequence. */
module RateLimiter {
  import opened Wrappers

  datatype Error = TooFewCalls

  datatype Outcome = Granted | Refused(wait: real) | ClockEnded

  function Min(a: real, b: real): real { if a < b then a else b }

  function Refilled(capacity: real, rate: real, tokens: real, elapsed: real): real {
    Min(capacity, tokens + elapsed * rate)
  }

  // ------------------------------------------------------------ a sequence of attempts

  predicate Forward(times: seq<real>) { forall i, j :: 0 <= i < j < |times| ==> times[i] <= times[j] }

  /** The tokens there are at attempt k, once refilled. */
  function Level(capacity: real, rate: real, times: seq<real>, k: nat): real
    requires k < |times|
    decreases k, 0
  {
    if k == 0 then capacity
    else Refilled(capacity, rate, Left(capacity, rate, times, k - 1), times[k] - times[k - 1])
  }

  /** The tokens that attempt k leaves. */
  function Left(capacity: real, rate: real, times: seq<real>, k: nat): real
    requires k < |times|
    decreases k, 1
  {
    Level(capacity, rate, times, k) - (if Level(capacity, rate, times, k) >= 1.0 then 1.0 else 0.0)
  }

  /** The calls granted by attempts i up to but not including k. */
  function Grants(capacity: real, rate: real, times: seq<real>, i: nat, k: nat): nat
    requires i <= k <= |times|
    decreases k
  {
    if i == k then 0
    else Grants(capacity, rate, times, i, k - 1) + (if Level(capacity, rate, times, k - 1) >= 1.0 then 1 else 0)
  }

  /** What a window that opens at attempt i still allows at attempt k. */
  function Room(capacity: real, rate: real, times: seq<real>, i: nat, k: nat): real
    requires i <= k < |times|
  {
    capacity + rate * (times[k] - times[i]) - Grants(capacity, rate, times, i, k) as real
  }

  /** The bucket's level is the least room that any window leaves. */
  lemma {:induction false} LevelIsLeastRoom(capacity: real, rate: real, times: seq<real>, k: nat) returns (i: nat)
    requires k < |times|
    ensures i <= k && Level(capacity, rate, times, k) == Room(capacity, rate, times, i, k)
    ensures forall j :: 0 <= j <= k ==> Level(capacity, rate, times, k) <= Room(capacity, rate, times, j, k)
    decreases k
  {
    i := k;
    RoomNow(capacity, rate, times, k);
    if k > 0 {
      var before := LevelIsLeastRoom(capacity, rate, times, k - 1);
      var level, refill := Level(capacity, rate, times, k), Refill(capacity, rate, times, k);
      assert level == Min(capacity, refill);
      RoomStep(capacity, rate, times, before, k);
      if level < capacity { i := before; }
      forall j | 0 <= j <= k
        ensures level <= Room(capacity, rate, times, j, k)
      {
        if j < k { RoomStep(capacity, rate, times, j, k); }
      }
    }
  }

  /** A window that opens now allows the whole capacity. */
  lemma RoomNow(capacity: real, rate: real, times: seq<real>, k: nat)
    requires k < |times|
    ensures Room(capacity, rate, times, k, k) == capacity
  {
    assert times[k] - times[k] == 0.0;
  }

  /** The level before it is capped. */
  function Refill(capacity: real, rate: real, times: seq<real>, k: nat): real
    requires 0 < k < |times|
  {
    Left(capacity, rate, times, k - 1) + (times[k] - times[k - 1]) * rate
  }

  /** From one attempt to the next, every window's room changes as the level does. */
  lemma RoomStep(capacity: real, rate: real, times: seq<real>, j: nat, k: nat)
    requires j < k < |times|
    ensures Room(capacity, rate, times, j, k) - Refill(capacity, rate, times, k) ==
            Room(capacity, rate, times, j, k - 1) - Level(capacity, rate, times, k - 1)
  {
    Longer(rate, times[k], times[k - 1], times[j]);
  }

  lemma Longer(rate: real, now: real, before: real, start: real)
    ensures rate * (now - start) == rate * (before - start) + (now - before) * rate
  {
  }

  /** An attempt is granted exactly when no window that ends with it has used up its allowance. */
  lemma GrantedExactly(capacity: real, rate: real, times: seq<real>, k: nat)
    requires k < |times|
    ensures Level(capacity, rate, times, k) >= 1.0 <==>
            forall i :: 0 <= i <= k ==> Room(capacity, rate, times, i, k) >= 1.0
  {
    var i := LevelIsLeastRoom(capacity, rate, times, k);
  }

  /** The calls granted in any window are at most the capacity and what the window's length refills. */
  lemma WindowBound(capacity: real, rate: real, times: seq<real>, i: nat, k: nat)
    requires i <= k < |times| && capacity >= 1.0 && rate >= 0.0 && Forward(times)
    ensures Grants(capacity, rate, times, i, k + 1) as real <= capacity + rate * (times[k] - times[i])
    ensures 0.0 <= Left(capacity, rate, times, k) <= Level(capacity, rate, times, k) <= capacity
  {
    var least := LevelIsLeastRoom(capacity, rate, times, k);
    TokensInRange(capacity, rate, times, k);
    assert Level(capacity, rate, times, k) <= Room(capacity, rate, times, i, k);
  }

  lemma {:induction false} TokensInRange(capacity: real, rate: real, times: seq<real>, k: nat)
    requires k < |times| && capacity >= 0.0 && rate >= 0.0 && Forward(times)
    ensures 0.0 <= Left(capacity, rate, times, k) && 0.0 <= Level(capacity, rate, times, k) <= capacity
    decreases k
  {
    if k > 0 {
      TokensInRange(capacity, rate, times, k - 1);
      assert times[k - 1] <= times[k];
      RefilledInRange(capacity, rate, Left(capacity, rate, times, k - 1), times[k] - times[k - 1]);
    }
  }

  lemma RefilledInRange(capacity: real, rate: real, tokens: real, elapsed: real)
    requires capacity >= 0.0 && rate >= 0.0 && tokens >= 0.0 && elapsed >= 0.0
    ensures 0.0 <= Refilled(capacity, rate, tokens, elapsed) <= capacity
  {
    Grows(rate, elapsed);
  }

  lemma Grows(rate: real, elapsed: real)
    requires rate >= 0.0 && elapsed >= 0.0
    ensures elapsed * rate >= 0.0
  {
  }

  // ------------------------------------------------------------ the object

  class Limiter {
    const capacity: real
    const rate: real
    var tokens: real
    var last: real

    ghost predicate Valid()
      reads this
    {
      capacity >= 1.0 && rate == capacity / 60.0 && 0.0 <= tokens <= capacity
    }

    constructor (callsPerMinute: int, now: real)
      requires callsPerMinute >= 1
      ensures Valid() && capacity == callsPerMinute as real && tokens == capacity && last == now
    {
      capacity, rate := callsPerMinute as real, callsPerMinute as real / 60.0;
      tokens, last := callsPerMinute as real, now;
    }

    /** One pass of the loop, under the lock; `wait` is how long to sleep when it is not granted. */
    method Attempt(now: real) returns (granted: bool, wait: real)
      requires Valid() && now >= last
      modifies this
      ensures Valid() && last == now
      ensures var level := Refilled(capacity, rate, old(tokens), now - old(last));
              granted == (level >= 1.0) && tokens == (if granted then level - 1.0 else level) &&
              (!granted ==> wait == (1.0 - level) / rate)
    {
      Grows(rate, now - last);
      tokens := Min(capacity, tokens + (now - last) * rate);
      last := now;
      if tokens >= 1.0 {
        tokens := tokens - 1.0;
        return true, 0.0;
      }
      wait := (1.0 - tokens) / rate;
      return false, wait;
    }

    /** The caller's readings of the clock, one a pass, and the readings of other callers while it sleeps after each. */
    method Acquire(maxWait: real, clock: seq<real>, others: seq<seq<real>>) returns (r: Outcome, used: nat)
      requires Valid() && |others| == |clock| && Interleaved(last, clock, others)
      modifies this
      ensures Valid()
      ensures (r, used) == Passes(capacity, rate, old(tokens), old(last), maxWait, clock, others)
    {
      used := 0;
      while used < |clock|
        invariant used <= |clock| && Valid() && Interleaved(last, clock[used..], others[used..])
        invariant Passes(capacity, rate, old(tokens), old(last), maxWait, clock, others) ==
                  Later(Passes(capacity, rate, tokens, last, maxWait, clock[used..], others[used..]), used)
      {
        ghost var before, since := tokens, last;
        assert clock[used..][0] == clock[used] && others[used..][0] == others[used];
        var granted, wait := Attempt(clock[used]);
        used := used + 1;
        if granted { return Granted, used; }
        if wait > maxWait { return Refused(wait), used; }
        ServeOthers(others[used - 1]);
        assert clock[used - 1..][1..] == clock[used..] && others[used - 1..][1..] == others[used..];
      }
      return ClockEnded, used;
    }

    method ServeOthers(times: seq<real>)
      requires Valid() && Onward(last, times)
      modifies this
      ensures Valid() && last == LastOf(old(last), times)
      ensures tokens == TokensAfter(capacity, rate, old(tokens), old(last), times)
    {
      for k := 0 to |times|
        invariant Valid() && Onward(last, times[k..])
        invariant LastOf(old(last), times) == LastOf(last, times[k..])
        invariant TokensAfter(capacity, rate, old(tokens), old(last), times) ==
                  TokensAfter(capacity, rate, tokens, last, times[k..])
      {
        assert times[k..][0] == times[k] && times[k..][1..] == times[k + 1..];
        var granted, wait := Attempt(times[k]);
      }
    }
  }

  predicate Onward(last: real, times: seq<real>)
    decreases |times|
  {
    times == [] || (last <= times[0] && Onward(times[0], times[1..]))
  }

  function LastOf(last: real, times: seq<real>): real
    decreases |times|
  {
    if times == [] then last else LastOf(times[0], times[1..])
  }

  /** The tokens that other callers leave. */
  function TokensAfter(capacity: real, rate: real, tokens: real, last: real, times: seq<real>): real
    decreases |times|
  {
    if times == [] then tokens
    else
      var level := Refilled(capacity, rate, tokens, times[0] - last);
      TokensAfter(capacity, rate, if level >= 1.0 then level - 1.0 else level, times[0], times[1..])
  }

  /** All readings in the order they are taken. */
  predicate Interleaved(last: real, clock: seq<real>, others: seq<seq<real>>)
    requires |clock| == |others|
    decreases |clock|
  {
    clock == [] ||
    (last <= clock[0] && Onward(clock[0], others[0]) &&
     Interleaved(LastOf(clock[0], others[0]), clock[1..], others[1..]))
  }

  function Later(result: (Outcome, nat), passes: nat): (Outcome, nat) { (result.0, result.1 + passes) }

  /** The loop, pass by pass. */
  function Passes(capacity: real, rate: real, tokens: real, last: real, maxWait: real, clock: seq<real>,
                  others: seq<seq<real>>): (Outcome, nat)
    requires |clock| == |others| && rate > 0.0
    decreases |clock|
  {
    if clock == [] then (ClockEnded, 0)
    else
      var level := Refilled(capacity, rate, tokens, clock[0] - last);
      if level >= 1.0 then (Granted, 1)
      else if (1.0 - level) / rate > maxWait then (Refused((1.0 - level) / rate), 1)
      else Later(Passes(capacity, rate, TokensAfter(capacity, rate, level, clock[0], others[0]),
                        LastOf(clock[0], others[0]), maxWait, clock[1..], others[1..]), 1)
  }

  // ------------------------------------------------------------ callers in one sequence

  lemma {:induction false} LevelPrefix(capacity: real, rate: real, times: seq<real>, more: seq<real>, k: nat)
    requires k < |times|
    ensures Level(capacity, rate, times + more, k) == Level(capacity, rate, times, k)
    ensures Left(capacity, rate, times + more, k) == Left(capacity, rate, times, k)
    decreases k
  {
    if k > 0 { LevelPrefix(capacity, rate, times, more, k - 1); }
  }

  /** The tokens after the last of some attempts. */
  function LeftLast(capacity: real, rate: real, times: seq<real>): real
    requires times != []
  {
    Left(capacity, rate, times, |times| - 1)
  }

  /** One more attempt. */
  lemma LevelNext(capacity: real, rate: real, times: seq<real>, now: real)
    requires times != []
    ensures Level(capacity, rate, times + [now], |times|) ==
            Refilled(capacity, rate, LeftLast(capacity, rate, times), now - times[|times| - 1])
  {
    LevelPrefix(capacity, rate, times, [now], |times| - 1);
  }

  /** What other callers leave is what the one sequence of all attempts leaves. */
  lemma {:induction false} OthersFollow(capacity: real, rate: real, times: seq<real>, more: seq<real>)
    requires times != []
    ensures TokensAfter(capacity, rate, LeftLast(capacity, rate, times), times[|times| - 1], more) ==
            LeftLast(capacity, rate, times + more)
    ensures LastOf(times[|times| - 1], more) == (times + more)[|times + more| - 1]
    decreases |more|
  {
    if more == [] {
      assert times + more == times;
    } else {
      LevelNext(capacity, rate, times, more[0]);
      OthersFollow(capacity, rate, times + [more[0]], more[1..]);
      assert times + [more[0]] + more[1..] == times + more;
    }
  }

  /** All attempts, of the caller and of others, up to the caller's own n-th. */
  function Attempts(clock: seq<real>, others: seq<seq<real>>, n: nat): seq<real>
    requires 1 <= n <= |clock| == |others|
    decreases n
  {
    if n == 1 then [clock[0]] else [clock[0]] + others[0] + Attempts(clock[1..], others[1..], n - 1)
  }

  /** However many callers take part, a caller is granted its call exactly by the level that the one sequence of all
      attempts gives, and is refused for the wait that this level asks for; so the bound on every window is on all
      callers together. */
  lemma {:induction false} PassesFollow(capacity: real, rate: real, times: seq<real>, maxWait: real, clock: seq<real>,
                                        others: seq<seq<real>>)
    requires times != [] && |clock| == |others| && rate > 0.0
    ensures var (r, n) := Passes(capacity, rate, LeftLast(capacity, rate, times), times[|times| - 1], maxWait, clock,
                                 others);
            n <= |clock| && (r.ClockEnded? ==> n == |clock|) &&
            (!r.ClockEnded? ==>
              n > 0 &&
              var all := times + Attempts(clock, others, n);
              var level := Level(capacity, rate, all, |all| - 1);
              (r.Granted? <==> level >= 1.0) && (r.Refused? ==> r.wait == (1.0 - level) / rate && r.wait > maxWait))
    decreases |clock|
  {
    if clock != [] {
      LevelNext(capacity, rate, times, clock[0]);
      var first := times + [clock[0]];
      var (r, n) := Passes(capacity, rate, LeftLast(capacity, rate, times), times[|times| - 1], maxWait, clock, others);
      var level := Level(capacity, rate, first, |times|);
      if level < 1.0 && (1.0 - level) / rate <= maxWait {
        OthersFollow(capacity, rate, first, others[0]);
        PassesFollow(capacity, rate, first + others[0], maxWait, clock[1..], others[1..]);
        if !r.ClockEnded? {
          assert first + others[0] + Attempts(clock[1..], others[1..], n - 1) == times + Attempts(clock, others, n);
        }
      }
    }
  }

  /** A caller that nobody interrupts is granted at once, refused when the wait is too long, or granted after the one
      sleep that the loop takes. */
  lemma AloneIsServed(capacity: real, rate: real, tokens: real, last: real, maxWait: real, clock: seq<real>,
                      others: seq<seq<real>>)
    requires |clock| == |others| >= 2 && others[0] == [] && capacity >= 1.0 && rate > 0.0
    requires var level := Refilled(capacity, rate, tokens, clock[0] - last);
             level < 1.0 ==> clock[1] >= clock[0] + (1.0 - level) / rate + 0.05
    ensures var level := Refilled(capacity, rate, tokens, clock[0] - last);
            Passes(capacity, rate, tokens, last, maxWait, clock, others) ==
            if level >= 1.0 then (Granted, 1)
            else if (1.0 - level) / rate > maxWait then (Refused((1.0 - level) / rate), 1)
            else (Granted, 2)
  {
    var level := Refilled(capacity, rate, tokens, clock[0] - last);
    if level < 1.0 {
      Slept(capacity, rate, level, clock[1] - clock[0]);
      assert clock[1..][0] == clock[1];
    }
  }

  /** Sleeping for what was missing makes a token. */
  lemma Slept(capacity: real, rate: real, level: real, elapsed: real)
    requires capacity >= 1.0 && rate > 0.0 && level < 1.0 && elapsed >= (1.0 - level) / rate + 0.05
    ensures Refilled(capacity, rate, level, elapsed) >= 1.0
  {
    Quotient(1.0 - level, rate);
    var wait := (1.0 - level) / rate;
    Grows(rate, elapsed - wait);
    assert elapsed * rate == wait * rate + (elapsed - wait) * rate;
  }

  lemma Quotient(a: real, b: real)
    requires a > 0.0 && b > 0.0
    ensures a / b > 0.0 && a / b * b == a
  {
  }

  /** The limiter is not made for fewer than one call a minute. */
  method Create(callsPerMinute: int, now: real) returns (r: Result<Limiter, Error>)
    ensures r.Ok? <==> callsPerMinute >= 1
    ensures r.Ok? ==> fresh(r.value) && r.value.Valid() && r.value.tokens == r.value.capacity == callsPerMinute as real
  {
    if callsPerMinute < 1 { return Err(TooFewCalls); }
    var l := new Limiter(callsPerMinute, now);
    return Ok(l);
  }

  /** Attempts at the given times are granted as the levels say. */
  method Serve(l: Limiter, times: seq<real>) returns (granted: seq<bool>)
    requires l.Valid() && l.tokens == l.capacity && Forward(times) && (times != [] ==> l.last <= times[0])
    modifies l
    ensures |granted| == |times|
    ensures forall k :: 0 <= k < |times| ==> (granted[k] <==> Level(l.capacity, l.rate, times, k) >= 1.0)
  {
    granted := [];
    for k := 0 to |times|
      invariant |granted| == k && l.Valid()
      invariant forall j :: 0 <= j < k ==> (granted[j] <==> Level(l.capacity, l.rate, times, j) >= 1.0)
      invariant if k == 0 then l.tokens == l.capacity && l.last == old(l.last)
                else l.last == times[k - 1] && l.tokens == Left(l.capacity, l.rate, times, k - 1)
    {
      if k == 0 { Grows(l.rate, times[0] - l.last); }
      var ok, wait := l.Attempt(times[k]);
      granted := granted + [ok];
    }
  }
}
