/** The gate in front of prekey fetches: one token bucket per fetched user, shared by all
    connections, created on first use. `AnswersAsIndependentBuckets` shows that laziness and pruning
    are invisible; `GateKeepsEveryTarget` shows that pruning never frees an entry. */
module FetchGate {
  import opened TokenBucket

  const FETCH_RATE := 4.0
  const FETCH_BURST := 30.0
  const FETCH_GATE_CAP := 50_000

  type Gate = map<string, Bucket>

  function NewBucket(now: real): Bucket {
    Fresh(FETCH_RATE, FETCH_BURST, now)
  }

  /** Past the cap, full buckets are dropped. */
  function Pruned(gate: Gate): Gate {
    if |gate| > FETCH_GATE_CAP then map t | t in gate && gate[t].tokens < gate[t].burst :: gate[t] else gate
  }

  /** One fetch of `target` at `now`. */
  function Ask(gate: Gate, target: string, now: real): (Gate, bool) {
    var kept := Pruned(gate);
    var (b, granted) := Take(if target in kept then kept[target] else NewBucket(now), now);
    (kept[target := b], granted)
  }

  class SharedGate {
    var limiters: map<string, RateLimiter>

    /** Each target owns its limiter. */
    ghost predicate Valid()
      reads this
    {
      forall t, u :: t in limiters && u in limiters && t != u ==> limiters[t] != limiters[u]
    }

    ghost function View(): Gate
      reads this, limiters.Values
    {
      map t | t in limiters :: limiters[t].View()
    }

    constructor ()
      ensures Valid() && View() == map[]
    {
      limiters := map[];
    }

    /** Drop the full buckets once the map has outgrown its cap. */
    method Prune()
      requires Valid()
      modifies this
      ensures Valid() && limiters.Values <= old(limiters.Values)
      ensures View() == Pruned(old(View()))
    {
      assert View().Keys == limiters.Keys;
      assert |View()| == |View().Keys| && |limiters| == |limiters.Keys|;
      if |limiters| > FETCH_GATE_CAP {
        limiters := map t | t in limiters && limiters[t].tokens < limiters[t].burst :: limiters[t];
      }
    }

    /** The target's limiter, created full if there is none. */
    method EntryFor(target: string, now: real) returns (entry: RateLimiter)
      requires Valid()
      modifies this
      ensures Valid() && limiters == old(limiters)[target := entry]
      ensures target in old(limiters) ==> entry == old(limiters)[target]
      ensures target !in old(limiters) ==> fresh(entry)
      ensures entry.View() == old(if target in View() then View()[target] else NewBucket(now))
      ensures View() == old(View())[target := entry.View()]
    {
      if target !in limiters {
        entry := new RateLimiter(FETCH_RATE, FETCH_BURST, now);
        limiters := limiters[target := entry];
      } else {
        entry := limiters[target];
      }
    }

    method SpendAt(target: string, now: real) returns (granted: bool)
      requires Valid() && target in limiters
      modifies limiters[target]
      ensures Valid() && View() == old(View())[target := Take(old(View())[target], now).0]
      ensures granted == Take(old(View())[target], now).1
    {
      hide Take;
      granted := limiters[target].Allow(now);
      assert forall t :: t in limiters && t != target ==> limiters[t].View() == old(limiters[t].View());
    }

    method FetchAllowed(target: string, now: real) returns (granted: bool)
      requires Valid()
      modifies this, limiters.Values
      ensures Valid() && fresh(limiters.Values - old(limiters.Values))
      ensures View() == Ask(old(View()), target, now).0 && granted == Ask(old(View()), target, now).1
    {
      hide Take, Pruned, RateLimiter.View, NewBucket;
      ghost var gate := View();
      Prune();
      ghost var kept := View();
      var entry := EntryFor(target, now);
      ghost var found := entry.View();
      granted := SpendAt(target, now);
      assert View() == kept[target := found][target := Take(found, now).0] == kept[target := Take(found, now).0];
      assert Ask(gate, target, now) == (kept[target := Take(found, now).0], Take(found, now).1);
    }
  }

  // ---- Runs of the gate ----

  datatype Request = Request(target: string, time: real)

  function GateAfter(requests: seq<Request>, k: nat): Gate
    requires k <= |requests|
  {
    if k == 0 then map[] else Ask(GateAfter(requests, k - 1), requests[k - 1].target, requests[k - 1].time).0
  }

  predicate Allowed(requests: seq<Request>, k: nat)
    requires k < |requests|
  {
    Ask(GateAfter(requests, k), requests[k].target, requests[k].time).1
  }

  /** The times at which one target was asked for, in order. */
  function TimesOf(requests: seq<Request>, target: string): seq<real> {
    if requests == [] then []
    else
      var last := requests[|requests| - 1];
      TimesOf(requests[..|requests| - 1], target) + if last.target == target then [last.time] else []
  }

  lemma TimesOfExtends(requests: seq<Request>, k: nat, target: string)
    requires k < |requests|
    ensures TimesOf(requests[..k + 1], target)
            == if requests[k].target == target then TimesOf(requests[..k], target) + [requests[k].time]
               else TimesOf(requests[..k], target)
  {
    assert requests[..k + 1][..k] == requests[..k];
    assert TimesOf(requests[..k], target) + [] == TimesOf(requests[..k], target);
  }

  predicate InOrder(requests: seq<Request>, start: real) {
    && (forall i, j :: 0 <= i <= j < |requests| ==> requests[i].time <= requests[j].time)
    && (forall i :: 0 <= i < |requests| ==> start <= requests[i].time)
  }

  /** The reference: a bucket of the target's own, full when the server starts and never dropped. */
  function OwnBucket(requests: seq<Request>, target: string, start: real): Bucket {
    After(Bucket(30.0, 4.0, 30.0, start), TimesOf(requests, target), |TimesOf(requests, target)|)
  }

  lemma {:induction false} TimesInOrder(requests: seq<Request>, target: string, start: real)
    requires InOrder(requests, start)
    ensures Regular(NewBucket(start), TimesOf(requests, target))
    ensures forall i :: 0 <= i < |TimesOf(requests, target)| ==>
              start <= TimesOf(requests, target)[i] <= requests[|requests| - 1].time
  {
    if requests != [] {
      var front := requests[..|requests| - 1];
      TimesInOrder(front, target, start);
      assert front != [] ==> front[|front| - 1] == requests[|requests| - 2];
    }
  }

  lemma {:induction false} AfterOfPrefix(b: Bucket, times: seq<real>, more: seq<real>, k: nat)
    requires k <= |times|
    ensures After(b, times + more, k) == After(b, times, k)
  {
    hide Take;
    if k > 0 { AfterOfPrefix(b, times, more, k - 1); }
  }

  /** A bucket first seen now answers like one that has been full all along. */
  lemma FullBucketsAgree(start: real, now: real)
    requires start <= now
    ensures Take(NewBucket(start), now) == Take(NewBucket(now), now)
  {
  }

  lemma OwnBucketStep(requests: seq<Request>, k: nat, target: string, start: real)
    requires k < |requests|
    ensures OwnBucket(requests[..k + 1], target, start)
            == if requests[k].target == target then Take(OwnBucket(requests[..k], target, start), requests[k].time).0
               else OwnBucket(requests[..k], target, start)
  {
    hide Take;
    TimesOfExtends(requests, k, target);
    var times, now := TimesOf(requests[..k], target), requests[k].time;
    AfterOfPrefix(NewBucket(start), times, [now], |times|);
    assert After(NewBucket(start), times + [now], |times| + 1)
        == Take(After(NewBucket(start), times + [now], |times|), now).0;
  }

  /** What the gate stores, in terms of the reference: exactly the targets asked for, each with its
      own bucket, each strictly below burst. */
  ghost predicate Mirrors(gate: Gate, requests: seq<Request>, start: real) {
    && (forall t :: t in gate <==> TimesOf(requests, t) != [])
    && (forall t :: t in gate ==> gate[t] == OwnBucket(requests, t, start))
    && (forall t :: t in gate ==> gate[t].tokens < gate[t].burst == 30.0)
  }

  lemma AskMirrors(gate: Gate, requests: seq<Request>, start: real, k: nat)
    requires k < |requests| && InOrder(requests, start) && Mirrors(gate, requests[..k], start)
    ensures Mirrors(Ask(gate, requests[k].target, requests[k].time).0, requests[..k + 1], start)
  {
    hide Take, TimesOf, OwnBucket;
    var r := requests[k];
    NothingToPrune(gate);
    forall t
      ensures OwnBucket(requests[..k + 1], t, start)
              == if r.target == t then Take(OwnBucket(requests[..k], t, start), r.time).0 else OwnBucket(requests[..k], t, start)
      ensures TimesOf(requests[..k + 1], t) != [] <==> TimesOf(requests[..k], t) != [] || t == r.target
    {
      OwnBucketStep(requests, k, t, start);
      TimesOfExtends(requests, k, t);
    }
    if r.target !in gate { UnaskedIsNew(requests[..k], r.target, start); }
    FullBucketsAgree(start, r.time);
    TakeLeavesLessThanBurst(if r.target in gate then gate[r.target] else NewBucket(r.time), r.time);
  }

  lemma UnaskedIsNew(requests: seq<Request>, target: string, start: real)
    requires TimesOf(requests, target) == []
    ensures OwnBucket(requests, target, start) == NewBucket(start)
  {
  }

  lemma {:induction false} GateInvariant(requests: seq<Request>, start: real, k: nat)
    requires InOrder(requests, start) && k <= |requests|
    ensures Mirrors(GateAfter(requests, k), requests[..k], start)
  {
    hide Ask, Mirrors;
    if k == 0 {
      assert requests[..0] == [];
      NothingMirrors(start);
    } else {
      GateInvariant(requests, start, k - 1);
      AskMirrors(GateAfter(requests, k - 1), requests, start, k - 1);
    }
  }

  lemma NothingMirrors(start: real)
    ensures Mirrors(map[], [], start)
  {
  }

  lemma NothingToPrune(gate: Gate)
    requires forall t :: t in gate ==> gate[t].tokens < gate[t].burst
    ensures Pruned(gate) == gate
  {
  }

  /** The shared, lazily filled, pruned gate answers every request as the target's own bucket would. */
  lemma AnswersAsIndependentBuckets(requests: seq<Request>, start: real, k: nat)
    requires InOrder(requests, start) && k < |requests|
    ensures Allowed(requests, k)
            <==> Take(OwnBucket(requests[..k], requests[k].target, start), requests[k].time).1
  {
    GateInvariant(requests, start, k);
    NothingToPrune(GateAfter(requests, k));
    FullBucketsAgree(start, requests[k].time);
  }

  /** The gate holds every target ever asked for, whatever the cap: pruning frees nothing. */
  lemma GateKeepsEveryTarget(requests: seq<Request>, start: real)
    requires InOrder(requests, start)
    ensures GateAfter(requests, |requests|).Keys == set r | r in requests :: r.target
  {
    GateInvariant(requests, start, |requests|);
    assert requests[..|requests|] == requests;
    forall t ensures TimesOf(requests, t) != [] <==> exists r :: r in requests && r.target == t {
      AskedIffTimes(requests, t);
    }
  }

  lemma {:induction false} AskedIffTimes(requests: seq<Request>, target: string)
    ensures TimesOf(requests, target) != [] <==> exists r :: r in requests && r.target == target
  {
    if requests != [] {
      var front, last := requests[..|requests| - 1], requests[|requests| - 1];
      AskedIffTimes(front, target);
      assert forall r :: r in requests <==> r in front || r == last;
    }
  }

  /** Grants to one target among the requests i, .., j-1. */
  function GrantsTo(requests: seq<Request>, target: string, i: nat, j: nat): nat
    requires i <= j <= |requests|
    decreases j
  {
    if i == j then 0
    else GrantsTo(requests, target, i, j - 1)
         + if requests[j - 1].target == target && Allowed(requests, j - 1) then 1 else 0
  }

  lemma {:induction false} GrantsOfPrefix(b: Bucket, times: seq<real>, more: seq<real>, i: nat, j: nat)
    requires i <= j <= |times|
    ensures Grants(b, times + more, i, j) == Grants(b, times, i, j)
    decreases j
  {
    hide Take;
    if i < j {
      GrantsOfPrefix(b, times, more, i, j - 1);
      AfterOfPrefix(b, times, more, j - 1);
    }
  }

  lemma GrantsExtend(b: Bucket, times: seq<real>, now: real, i: nat)
    requires i <= |times|
    ensures Grants(b, times + [now], i, |times| + 1)
            == Grants(b, times, i, |times|) + if Take(After(b, times, |times|), now).1 then 1 else 0
  {
    hide Take;
    GrantsOfPrefix(b, times, [now], i, |times|);
    AfterOfPrefix(b, times, [now], |times|);
    assert (times + [now])[|times|] == now;
  }

  lemma {:induction false} GrantsToAreGrants(requests: seq<Request>, target: string, start: real, i: nat, j: nat)
    requires InOrder(requests, start) && i <= j <= |requests|
    ensures TimesOf(requests[..i], target) <= TimesOf(requests[..j], target)
    ensures GrantsTo(requests, target, i, j)
            == Grants(NewBucket(start), TimesOf(requests[..j], target),
                      |TimesOf(requests[..i], target)|, |TimesOf(requests[..j], target)|)
    decreases j
  {
    hide Take, Ask, After, TimesOf;
    if i < j {
      GrantsToAreGrants(requests, target, start, i, j - 1);
      TimesOfExtends(requests, j - 1, target);
      if requests[j - 1].target == target {
        AnswersAsIndependentBuckets(requests, start, j - 1);
        GrantsExtend(NewBucket(start), TimesOf(requests[..j - 1], target), requests[j - 1].time,
                     |TimesOf(requests[..i], target)|);
      }
    }
  }

  /** Over all connections together, the fetches of one target that are let through in a window
      number at most 30 + 4 per second. */
  lemma FetchesOfOneTargetBounded(requests: seq<Request>, target: string, start: real, i: nat, j: nat)
    requires InOrder(requests, start) && i < j <= |requests|
    ensures GrantsTo(requests, target, i, j) as real
            <= 30.0 + Allowance(4.0, requests[i].time, requests[j - 1].time)
  {
    GrantsToAreGrants(requests, target, start, i, j);
    TimesInOrder(requests[..j], target, start);
    var times := TimesOf(requests[..j], target);
    var from := |TimesOf(requests[..i], target)|;
    if from < |times| {
      WindowBound(NewBucket(start), times, from, |times|);
      LaterThanPrefix(requests, target, start, i, j);
    }
  }

  /** Entries added to a target's times by the requests i, .., j-1 carry those requests' times. */
  lemma {:induction false} LaterThanPrefix(requests: seq<Request>, target: string, start: real, i: nat, j: nat)
    requires InOrder(requests, start) && i < j <= |requests|
    ensures forall n :: |TimesOf(requests[..i], target)| <= n < |TimesOf(requests[..j], target)| ==>
              requests[i].time <= TimesOf(requests[..j], target)[n] <= requests[j - 1].time
    decreases j
  {
    TimesOfExtends(requests, j - 1, target);
    if i < j - 1 { LaterThanPrefix(requests, target, start, i, j - 1); }
  }
}
