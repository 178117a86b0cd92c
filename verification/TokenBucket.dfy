/** The relay's token-bucket rate limiter.

    `RateLimiter` is the mutable object of the relay; `Take` is the value it computes. The main
    result, `GrantedIffEveryWindowHasRoom`, characterises the bucket without mentioning tokens: a
    request is granted exactly when every earlier window still has room for it. */
module TokenBucket {

  datatype Bucket = Bucket(tokens: real, rate: real, burst: real, last: real)

  function Fresh(rate: real, burst: real, now: real): Bucket {
    Bucket(burst, rate, burst, now)
  }

  /** Time since `last`; an instant that lies before `last` counts as no time at all. */
  function Elapsed(last: real, now: real): real {
    if now < last then 0.0 else now - last
  }

  /** What the clock earns between two instants. */
  function Gain(last: real, now: real, rate: real): real {
    Elapsed(last, now) * rate
  }

  function Refill(tokens: real, burst: real, gain: real): real {
    if tokens + gain < burst then tokens + gain else burst
  }

  /** Refill by `gain`, then spend one token if there is one. */
  function Spend(tokens: real, burst: real, gain: real): (real, bool) {
    var t := Refill(tokens, burst, gain);
    if t >= 1.0 then (t - 1.0, true) else (t, false)
  }

  /** One request at `now`: the bucket afterwards, and whether the request is granted. */
  function Take(b: Bucket, now: real): (Bucket, bool) {
    var (tokens, granted) := Spend(b.tokens, b.burst, Gain(b.last, now, b.rate));
    (b.(tokens := tokens, last := now), granted)
  }

  class RateLimiter {
    var tokens: real
    const rate: real
    const burst: real
    var last: real

    function View(): Bucket
      reads this
    {
      Bucket(tokens, rate, burst, last)
    }

    constructor (rate: real, burst: real, now: real)
      ensures View() == Fresh(rate, burst, now)
    {
      this.tokens, this.rate, this.burst, this.last := burst, rate, burst, now;
    }

    method Allow(now: real) returns (granted: bool)
      modifies this
      ensures (View(), granted) == Take(old(View()), now)
    {
      var dt := Elapsed(last, now);
      last := now;
      var refilled := tokens + dt * rate;
      tokens := if refilled < burst then refilled else burst;
      if tokens >= 1.0 {
        tokens := tokens - 1.0;
        granted := true;
      } else {
        granted := false;
      }
    }
  }

  // ---- Sequences of requests to one bucket ----

  /** The bucket after the first `k` requests. */
  function After(b: Bucket, times: seq<real>, k: nat): Bucket
    requires k <= |times|
  {
    if k == 0 then b else Take(After(b, times, k - 1), times[k - 1]).0
  }

  predicate Granted(b: Bucket, times: seq<real>, k: nat)
    requires k < |times|
  {
    Take(After(b, times, k), times[k]).1
  }

  /** How many of the requests i, .., j-1 are granted. */
  function Grants(b: Bucket, times: seq<real>, i: nat, j: nat): nat
    requires i <= j <= |times|
    decreases j
  {
    if i == j then 0 else Grants(b, times, i, j - 1) + if Granted(b, times, j - 1) then 1 else 0
  }

  /** What the sustained rate allows between two instants. */
  function Allowance(rate: real, from: real, to: real): real {
    rate * (to - from)
  }

  /** What the budget of the window from request i to request k still holds when k arrives. */
  function Room(b: Bucket, times: seq<real>, i: nat, k: nat): real
    requires i <= k < |times|
  {
    b.burst + Allowance(b.rate, times[i], times[k]) - Grants(b, times, i, k) as real
  }

  /** The tokens request `k` finds. */
  function Level(b: Bucket, times: seq<real>, k: nat): real
    requires k < |times|
  {
    Refill(After(b, times, k).tokens, b.burst, Gain(After(b, times, k).last, times[k], b.rate))
  }

  /** A clock that does not run backwards, and a bucket no younger than the first request. */
  predicate Regular(b: Bucket, times: seq<real>) {
    && b.rate >= 0.0
    && (forall i, j :: 0 <= i <= j < |times| ==> times[i] <= times[j])
    && (|times| > 0 ==> b.last <= times[0])
  }

  lemma {:induction false} AfterShape(b: Bucket, times: seq<real>, k: nat)
    requires k <= |times|
    ensures After(b, times, k).rate == b.rate && After(b, times, k).burst == b.burst
    ensures After(b, times, k).last == if k == 0 then b.last else times[k - 1]
  {
    hide Gain;
    if k > 0 { AfterShape(b, times, k - 1); }
  }

  lemma LevelDecides(b: Bucket, times: seq<real>, k: nat)
    requires k < |times|
    ensures Granted(b, times, k) <==> Level(b, times, k) >= 1.0
  {
    hide Gain;
    AfterShape(b, times, k);
  }

  /** The level of the next request: what this one leaves, refilled. */
  lemma LevelStep(b: Bucket, times: seq<real>, k: nat)
    requires 0 < k < |times|
    ensures Level(b, times, k)
            == Refill(Level(b, times, k - 1) - (if Granted(b, times, k - 1) then 1.0 else 0.0),
                      b.burst, Gain(times[k - 1], times[k], b.rate))
  {
    hide Gain;
    AfterShape(b, times, k - 1);
    AfterShape(b, times, k);
  }

  lemma AllowanceExtends(rate: real, from: real, mid: real, to: real)
    requires mid <= to
    ensures Allowance(rate, from, mid) + Gain(mid, to, rate) == Allowance(rate, from, to)
    ensures Allowance(rate, from, from) == 0.0
  {
  }

  /** Moving the right end of a window by one request changes its room by the refill, less a grant. */
  lemma RoomStep(b: Bucket, times: seq<real>, i: nat, k: nat)
    requires Regular(b, times) && i < k < |times|
    ensures Room(b, times, i, k) == Room(b, times, i, k - 1) + Gain(times[k - 1], times[k], b.rate)
                                    - if Granted(b, times, k - 1) then 1.0 else 0.0
  {
    hide Gain, Allowance, Granted;
    AllowanceExtends(b.rate, times[i], times[k - 1], times[k]);
  }

  lemma RoomAtOwnRequest(b: Bucket, times: seq<real>, k: nat)
    requires k < |times|
    ensures Room(b, times, k, k) == b.burst
  {
    hide Gain, Allowance, Granted;
    AllowanceExtends(b.rate, times[k], times[k], times[k]);
  }

  lemma {:induction false} LevelAtMostRoom(b: Bucket, times: seq<real>, i: nat, k: nat)
    requires Regular(b, times) && i <= k < |times|
    ensures Level(b, times, k) <= Room(b, times, i, k)
    decreases k
  {
    if i == k {
      hide Gain, Allowance, Granted, Room, After;
      RoomAtOwnRequest(b, times, k);
    } else {
      hide Gain, Allowance, Granted, Room, Level;
      LevelAtMostRoom(b, times, i, k - 1);
      LevelStep(b, times, k);
      RoomStep(b, times, i, k);
    }
  }

  lemma GainNonNegative(last: real, now: real, rate: real)
    requires rate >= 0.0
    ensures Gain(last, now, rate) >= 0.0
  {
  }

  /** The level is not only below every window's room: for a bucket that starts full it is one of them. */
  lemma {:induction false} LevelIsSomeRoom(b: Bucket, times: seq<real>, k: nat) returns (i: nat)
    requires Regular(b, times) && b.tokens == b.burst && k < |times|
    ensures i <= k && Level(b, times, k) == Room(b, times, i, k)
  {
    if Level(b, times, k) == b.burst {
      i := k;
      RoomAtOwnRequest(b, times, k);
    } else if k == 0 {
      i := 0;
      RoomAtOwnRequest(b, times, 0);
      GainNonNegative(b.last, times[0], b.rate);
      hide Gain, Allowance, Granted, Room;
    } else {
      hide Gain, Allowance, Granted, Room, Level;
      i := LevelIsSomeRoom(b, times, k - 1);
      LevelStep(b, times, k);
      RoomStep(b, times, i, k);
    }
  }

  /** The bucket admits a request exactly when no window ending at it would exceed
      burst + rate * length: it is the greedy solution of the sliding-window limit. */
  lemma GrantedIffEveryWindowHasRoom(b: Bucket, times: seq<real>, k: nat)
    requires Regular(b, times) && b.tokens == b.burst && k < |times|
    ensures Granted(b, times, k) <==>
            forall i: nat {:trigger Grants(b, times, i, k)} | i <= k ::
              Grants(b, times, i, k) as real + 1.0 <= b.burst + Allowance(b.rate, times[i], times[k])
  {
    hide Gain, Allowance, Granted, Grants, Level;
    LevelDecides(b, times, k);
    var least := LevelIsSomeRoom(b, times, k);
    forall i: nat {:trigger Grants(b, times, i, k)} | i <= k
      ensures Level(b, times, k) <= Room(b, times, i, k)
    {
      LevelAtMostRoom(b, times, i, k);
    }
    assert Granted(b, times, k) <==> Grants(b, times, least, k) as real + 1.0
                                     <= b.burst + Allowance(b.rate, times[least], times[k]);
  }

  /** Whatever the starting level: grants in any window are at most burst + rate * its length. */
  lemma {:induction false} WindowBound(b: Bucket, times: seq<real>, i: nat, j: nat)
    requires Regular(b, times) && b.burst >= 0.0 && i < j <= |times|
    ensures Grants(b, times, i, j) as real <= b.burst + Allowance(b.rate, times[i], times[j - 1])
    decreases j
  {
    hide Gain, Allowance, Granted, Level;
    if Granted(b, times, j - 1) {
      LevelDecides(b, times, j - 1);
      LevelAtMostRoom(b, times, i, j - 1);
    } else if i < j - 1 {
      WindowBound(b, times, i, j - 1);
      AllowanceExtends(b.rate, times[i], times[j - 2], times[j - 1]);
      GainNonNegative(times[j - 2], times[j - 1], b.rate);
    } else {
      AllowanceExtends(b.rate, times[i], times[i], times[i]);
    }
  }

  lemma {:induction false} GrantsSplit(b: Bucket, times: seq<real>, i: nat, m: nat, j: nat)
    requires i <= m <= j <= |times|
    ensures Grants(b, times, i, j) == Grants(b, times, i, m) + Grants(b, times, m, j)
    decreases j
  {
    hide Granted;
    if m < j { GrantsSplit(b, times, i, m, j - 1); }
  }

  /** n requests at one instant to a full bucket of whole burst: exactly min(n, burst) are granted. */
  lemma {:induction false} BurstIsExact(b: Bucket, times: seq<real>, burst: nat, n: nat)
    requires Regular(b, times) && b.tokens == b.burst == burst as real && n <= |times|
    requires forall i, j :: 0 <= i < j < |times| ==> times[i] == times[j]
    ensures Grants(b, times, 0, n) == if n < burst then n else burst
  {
    hide Gain, Allowance, Granted;
    if n > 0 {
      BurstIsExact(b, times, burst, n - 1);
      forall i: nat {:trigger Grants(b, times, i, n - 1)} | i <= n - 1
        ensures Grants(b, times, i, n - 1) <= Grants(b, times, 0, n - 1)
        ensures Allowance(b.rate, times[i], times[n - 1]) == 0.0
      {
        GrantsSplit(b, times, 0, i, n - 1);
        AllowanceExtends(b.rate, times[i], times[i], times[n - 1]);
      }
      GrantedIffEveryWindowHasRoom(b, times, n - 1);
    }
  }

  /** A bucket that has served a request is never full again at that instant. */
  lemma TakeLeavesLessThanBurst(b: Bucket, now: real)
    requires b.burst >= 1.0
    ensures Take(b, now).0.tokens < Take(b, now).0.burst == b.burst
  {
  }
}
