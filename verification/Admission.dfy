/** Admission of connections: a permit from a global pool, then a slot of the source address; both are
    given back when the connection's task ends, the slot first. */
module Admission {

  const MAX_CONNECTIONS := 4096
  const MAX_PER_IP := 64

  datatype Ip = Ip(address: string)

  /** One more live connection from `ip`, if its count allows. */
  function AdmitIp(counts: map<Ip, int>, ip: Ip): (map<Ip, int>, bool) {
    var n := if ip in counts then counts[ip] else 0;
    if n >= MAX_PER_IP then (counts, false) else (counts[ip := n + 1], true)
  }

  function ReleaseIp(counts: map<Ip, int>, ip: Ip): map<Ip, int> {
    if ip !in counts then counts
    else if counts[ip] == 1 then counts - {ip}
    else counts[ip := counts[ip] - 1]
  }

  /** The shared counter of live connections by address. */
  class IpCounts {
    var counts: map<Ip, int>

    constructor ()
      ensures counts == map[]
    {
      counts := map[];
    }

    /** The entry is created before its count is compared with the cap. */
    method Admit(ip: Ip) returns (admitted: bool)
      modifies this
      ensures (counts, admitted) == AdmitIp(old(counts), ip)
    {
      if ip !in counts { counts := counts[ip := 0]; }
      if counts[ip] >= MAX_PER_IP { return false; }
      counts := counts[ip := counts[ip] + 1];
      assert counts == old(counts)[ip := counts[ip]];
      return true;
    }

    /** Dropping a guard. The count is unsigned in the program: it must not be zero here. */
    method Drop(ip: Ip)
      requires forall i :: i in counts ==> counts[i] > 0
      modifies this
      ensures counts == ReleaseIp(old(counts), ip)
      ensures forall i :: i in counts ==> counts[i] > 0
    {
      if ip in counts {
        counts := counts[ip := counts[ip] - 1];
        if counts[ip] == 0 { counts := counts - {ip}; }
      }
    }
  }

  // ---- The accept loop and the tasks it spawns ----

  /** `guards` are the live guards; `pending`: the accept loop holds a permit and has no guard yet;
      `closing` tasks have dropped their guard but not their permit. */
  datatype Desk = Desk(counts: map<Ip, int>, permits: int, guards: multiset<Ip>, pending: bool, closing: int)

  const OPEN := Desk(map[], 0, multiset{}, false, 0)

  datatype Step = Acquire | Admit(ip: Ip) | DropGuard(ip: Ip) | DropPermit

  function Next(d: Desk, step: Step): Desk {
    match step
    case Acquire => if d.pending || d.permits >= MAX_CONNECTIONS then d else d.(permits := d.permits + 1, pending := true)
    case Admit(ip) =>
      if !d.pending then d
      else
        var (counts, admitted) := AdmitIp(d.counts, ip);
        if admitted then d.(counts := counts, guards := d.guards + multiset{ip}, pending := false)
        else d.(permits := d.permits - 1, pending := false)
    case DropGuard(ip) =>
      if ip !in d.guards then d
      else d.(counts := ReleaseIp(d.counts, ip), guards := d.guards - multiset{ip}, closing := d.closing + 1)
    case DropPermit => if d.closing <= 0 then d else d.(permits := d.permits - 1, closing := d.closing - 1)
  }

  function Run(steps: seq<Step>): Desk {
    if steps == [] then OPEN else Next(Run(steps[..|steps| - 1]), steps[|steps| - 1])
  }

  /** The map counts the live guards, nothing else, and every guard is backed by a permit. */
  ghost predicate Consistent(d: Desk) {
    && (forall ip :: ip in d.counts <==> ip in d.guards)
    && (forall ip :: ip in d.counts ==> d.counts[ip] == d.guards[ip] && 1 <= d.counts[ip] <= 64)
    && d.closing >= 0
    && d.permits == |d.guards| + d.closing + (if d.pending then 1 else 0)
    && d.permits <= 4096
  }

  lemma AdmitKeepsConsistent(d: Desk, ip: Ip)
    requires Consistent(d)
    ensures Consistent(Next(d, Admit(ip)))
  {
    assert ip !in d.guards ==> d.guards[ip] == 0;
  }

  lemma DropKeepsConsistent(d: Desk, ip: Ip)
    requires Consistent(d)
    ensures Consistent(Next(d, DropGuard(ip)))
  {
    if ip in d.guards {
      var rest := d.guards - multiset{ip};
      assert rest[ip] == d.guards[ip] - 1 && |rest| == |d.guards| - 1;
      assert forall i :: i != ip ==> rest[i] == d.guards[i];
    }
  }

  lemma StepKeepsConsistent(d: Desk, step: Step)
    requires Consistent(d)
    ensures Consistent(Next(d, step))
  {
    match step {
      case Admit(ip) => hide Consistent, Next; AdmitKeepsConsistent(d, ip);
      case DropGuard(ip) => hide Consistent, Next; DropKeepsConsistent(d, ip);
      case Acquire =>
      case DropPermit =>
    }
  }

  lemma {:induction false} CountsAreLiveConnections(steps: seq<Step>)
    ensures Consistent(Run(steps))
  {
    if steps != [] {
      CountsAreLiveConnections(steps[..|steps| - 1]);
      StepKeepsConsistent(Run(steps[..|steps| - 1]), steps[|steps| - 1]);
    }
  }

  /** A connection with a permit is turned away exactly when its address has 64 live ones; and a guard
      that is dropped finds its count above zero. */
  lemma AdmittedIffBelowCap(steps: seq<Step>, ip: Ip)
    ensures AdmitIp(Run(steps).counts, ip).1 <==> Run(steps).guards[ip] < 64
    ensures ip in Run(steps).guards ==> ip in Run(steps).counts && Run(steps).counts[ip] > 0
  {
    CountsAreLiveConnections(steps);
    assert ip !in Run(steps).guards ==> Run(steps).guards[ip] == 0;
  }

  lemma RunNext(steps: seq<Step>, x: Step)
    ensures Run(steps + [x]) == Next(Run(steps), x)
  {
    hide Next;
    assert (steps + [x])[..|steps|] == steps;
  }

  /** With a permit to spare a connection is admitted below 64 of its address, and else leaves no trace. */
  lemma TakeSlot(d: Desk, ip: Ip)
    requires Consistent(d) && !d.pending && d.permits < 4096
    ensures Next(Next(d, Acquire), Admit(ip))
            == if d.guards[ip] < 64
               then d.(counts := d.counts[ip := d.guards[ip] + 1], permits := d.permits + 1, guards := d.guards + multiset{ip})
               else d
  {
    assert ip !in d.guards ==> d.guards[ip] == 0;
  }

  lemma GiveBack(d: Desk, taken: Desk, ip: Ip)
    requires Consistent(d) && !d.pending && d.guards[ip] < 64
    requires taken == d.(counts := d.counts[ip := d.guards[ip] + 1], permits := d.permits + 1, guards := d.guards + multiset{ip})
    ensures Next(Next(taken, DropGuard(ip)), DropPermit) == d
  {
    assert ip !in d.guards ==> d.guards[ip] == 0;
    assert d.guards + multiset{ip} - multiset{ip} == d.guards;
    if ip in d.counts {
      assert d.counts[ip := d.counts[ip] + 1][ip := d.counts[ip]] == d.counts;
    } else {
      assert d.counts[ip := 1] - {ip} == d.counts;
    }
    assert ReleaseIp(taken.counts, ip) == d.counts;
    hide ReleaseIp, Consistent;
  }

  /** A connection comes and goes: with a permit to spare and fewer than 64 live connections of its address
      it is admitted, counted, and when its guard and permit are dropped everything is as it was. With 64 it
      is turned away, and everything is as it was too. */
  lemma ConnectionLeavesNoTrace(steps: seq<Step>, ip: Ip)
    requires var d := Run(steps); !d.pending && d.permits < 4096
    ensures var d, taken := Run(steps), Run(steps + [Acquire] + [Admit(ip)]);
            if d.guards[ip] < 64 then
              && taken.guards == d.guards + multiset{ip} && taken.permits == d.permits + 1 && !taken.pending
              && Run(steps + [Acquire] + [Admit(ip)] + [DropGuard(ip)] + [DropPermit]) == d
            else taken == d
  {
    CountsAreLiveConnections(steps);
    RunNext(steps, Acquire);
    RunNext(steps + [Acquire], Admit(ip));
    RunNext(steps + [Acquire] + [Admit(ip)], DropGuard(ip));
    RunNext(steps + [Acquire] + [Admit(ip)] + [DropGuard(ip)], DropPermit);
    hide Run, Next, Consistent;
    TakeSlot(Run(steps), ip);
    if Run(steps).guards[ip] < 64 { GiveBack(Run(steps), Run(steps + [Acquire] + [Admit(ip)]), ip); }
  }

  function Total(counts: map<Ip, int>, ips: seq<Ip>): int {
    if ips == [] then 0
    else
      var last := ips[|ips| - 1];
      Total(counts, ips[..|ips| - 1]) + if last in counts then counts[last] else 0
  }

  lemma {:induction false} TotalWithinGuards(counts: map<Ip, int>, guards: multiset<Ip>, ips: seq<Ip>)
    requires forall i, j :: 0 <= i < j < |ips| ==> ips[i] != ips[j]
    requires forall i :: 0 <= i < |ips| ==> guards[ips[i]] == if ips[i] in counts then counts[ips[i]] else 0
    ensures Total(counts, ips) <= |guards|
  {
    if ips != [] {
      var last := ips[|ips| - 1];
      var others := guards[last := 0];
      assert |others| == |guards| - guards[last];
      TotalWithinGuards(counts, others, ips[..|ips| - 1]);
    }
  }

  /** Over any addresses together, at most 4096 connections are live. */
  lemma AllAddressesWithinPool(steps: seq<Step>, ips: seq<Ip>)
    requires forall i, j :: 0 <= i < j < |ips| ==> ips[i] != ips[j]
    ensures Total(Run(steps).counts, ips) <= 4096
  {
    CountsAreLiveConnections(steps);
    TotalWithinGuards(Run(steps).counts, Run(steps).guards, ips);
  }
}
