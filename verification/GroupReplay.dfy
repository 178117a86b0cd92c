/** The Megolm replay guard over whole runs of a client: within one lifetime of a group, a frame that
    opens takes effect exactly when its number exceeds that of every earlier frame that opened under
    the same sender and session, be it a message, a leave notice or an event. */
module GroupReplay {
  import opened Wrappers
  import opened Groups

  type Slot = (User, Sid)

  /** The step brings a Megolm frame to the guard: it opens and, under the leave tag, is a leave. */
  predicate Offers(g: Group, step: Step) {
    && step.Recv? && step.frame.MegolmIn? && Opens(g, step.frame.from, step.frame.cipher)
    && (step.frame.tag.System? ==> step.frame.cipher.plain.Sentinel?)
  }

  function SlotOf(step: Step): Slot
    requires step.Recv? && step.frame.MegolmIn?
  {
    (step.frame.from, step.frame.cipher.sid)
  }

  /** The group's rows are thrown away: we leave, or the owner removes or bans us. */
  predicate Tears(g: Group, me: User, step: Step) {
    match step
    case Recv(MegolmIn(from, GroupEvent, c), _) =>
      && Opens(g, from, c) && Fresh(g, from, c) && OwnedBy(g, from)
      && AsEvent(c.plain).Some? && Expels(AsEvent(c.plain).value, me)
    case Recv(_, _) => false
    case Do(cmd, _) => cmd.Leave? && g.chat
  }

  lemma MegolmGuards(g: Group, me: User, from: User, tag: Tag, c: Cipher, env: Env)
    requires !Tears(g, me, Recv(MegolmIn(from, tag, c), env))
    ensures var h := match tag
                     case Message => HandleMessage(g, from, c)
                     case System => HandleSystem(g, from, c)
                     case GroupEvent => HandleEvent(g, me, from, c);
            if Offers(g, Recv(MegolmIn(from, tag, c), env)) && Fresh(g, from, c) then h.seen == g.seen[(from, c.sid) := c.index]
            else h == g
  {
    hide ValidMode, Opens, Evicts;
  }

  lemma SharesDoNotGuard(g: Group, from: User, s: Share, env: Env)
    ensures HandleShare(g, from, s, env).seen == g.seen
  {
    hide ValidKey, ValidMode, OwnerShare;
  }

  lemma JoinsDoNotGuard(g: Group, next: Sid, me: User, from: User, key: string, env: Env)
    ensures HandleJoin(g, next, me, from, key, env).g.seen == g.seen
  {
    AdmitMemberSeats(Expire(g, from, env.now), next, me, from, env);
    hide AdmitMember, ValidKey, DecideJoin;
  }

  /** Only frames that pass the guard write to it, and a frame that does not pass does nothing. */
  lemma ReceiveGuards(g: Group, next: Sid, me: User, frame: Frame, env: Env)
    requires !Tears(g, me, Recv(frame, env))
    ensures var step, e := Recv(frame, env), Receive(g, next, me, frame, env);
            if Offers(g, step) && Fresh(g, frame.from, frame.cipher)
            then e.g.seen == g.seen[SlotOf(step) := frame.cipher.index]
            else e.g.seen == g.seen && (frame.MegolmIn? ==> e == Effect(g, next, []))
  {
    hide HandleShare, HandleJoin, HandleMessage, HandleSystem, HandleEvent, Tears, Opens, Fresh;
    match frame {
      case MegolmIn(from, tag, c) => MegolmGuards(g, me, from, tag, c, env);
      case ShareIn(from, Some(s)) => SharesDoNotGuard(g, from, s, env);
      case ShareIn(from, None) =>
      case JoinIn(from, key) => JoinsDoNotGuard(g, next, me, from, key, env);
      case DeniedIn(_) =>
    }
  }

  lemma CommandsDoNotGuard(g: Group, next: Sid, me: User, cmd: Command, env: Env)
    requires !Tears(g, me, Do(cmd, env))
    ensures Execute(g, next, me, cmd, env).g.seen == g.seen
  {
    hide AdmitMember, Moderate;
    match cmd {
      case Invite(u) => AdmitMemberSeats(Expire(g, u, env.now), next, me, u, env);
      case Accept(u) => AdmitMemberSeats(Expire(g, u, env.now), next, me, u, env);
      case Remove(u) => ModerateDrops(g, next, me, Event(Removed, u, None, None), env);
      case Ban(u) => ModerateDrops(g.(bans := g.bans + {u}), next, me, Event(Banned, u, None, None), env);
      case Suspend(u, duration) =>
        if duration.Some? {
          var until := env.now + duration.value;
          ModerateDrops(g.(suspended := g.suspended[u := until]), next, me, Event(Suspended, u, None, Some(until)), env);
        }
      case _ =>
    }
  }

  lemma StepGuards(g: Group, next: Sid, me: User, step: Step)
    requires !Tears(g, me, step)
    ensures Apply(g, next, me, step).g.seen
            == if step.Recv? && step.frame.MegolmIn? && Offers(g, step) && Fresh(g, step.frame.from, step.frame.cipher)
               then g.seen[SlotOf(step) := step.frame.cipher.index] else g.seen
  {
    match step {
      case Recv(frame, env) => ReceiveGuards(g, next, me, frame, env); hide Receive, Opens, Fresh, Tears;
      case Do(cmd, env) => CommandsDoNotGuard(g, next, me, cmd, env); hide Execute, Tears;
    }
  }

  function StateAt(g: Group, next: Sid, me: User, steps: seq<Step>, k: nat): Group
    requires k <= |steps|
  {
    Run(g, next, me, steps[..k]).g
  }

  /** The rows survive the first `n` steps. */
  ghost predicate OneLifetime(g: Group, next: Sid, me: User, steps: seq<Step>, n: nat)
    requires n <= |steps|
  {
    forall k: nat :: k < n ==> !Tears(StateAt(g, next, me, steps, k), me, steps[k])
  }

  predicate OffersAt(g: Group, next: Sid, me: User, steps: seq<Step>, k: nat, slot: Slot)
    requires k < |steps|
  {
    steps[k].Recv? && steps[k].frame.MegolmIn? && Offers(StateAt(g, next, me, steps, k), steps[k]) && SlotOf(steps[k]) == slot
  }

  lemma StateStep(g: Group, next: Sid, me: User, steps: seq<Step>, k: nat) returns (n: Sid)
    requires k < |steps|
    ensures StateAt(g, next, me, steps, k + 1) == Apply(StateAt(g, next, me, steps, k), n, me, steps[k]).g
  {
    hide Apply;
    assert steps[..k + 1][..k] == steps[..k];
    n := Run(g, next, me, steps[..k]).next;
  }

  /** What the guard remembers of a slot after `n` steps is the largest number offered to it. */
  lemma {:induction false} GuardIsMaximum(g: Group, next: Sid, me: User, steps: seq<Step>, n: nat, slot: Slot)
    requires n <= |steps| && g.seen == map[] && OneLifetime(g, next, me, steps, n)
    ensures var seen := StateAt(g, next, me, steps, n).seen;
            if slot in seen then
              && (forall k: nat :: k < n && OffersAt(g, next, me, steps, k, slot) ==> steps[k].frame.cipher.index <= seen[slot])
              && (exists k: nat :: k < n && OffersAt(g, next, me, steps, k, slot) && steps[k].frame.cipher.index == seen[slot])
            else forall k: nat :: k < n ==> !OffersAt(g, next, me, steps, k, slot)
  {
    hide Apply, Offers, Tears, Run;
    if n == 0 {
      assert steps[..0] == [];
      RunOfNothing(g, next, me);
    } else {
      GuardIsMaximum(g, next, me, steps, n - 1, slot);
      var m := StateStep(g, next, me, steps, n - 1);
      var before := StateAt(g, next, me, steps, n - 1);
      assert !Tears(before, me, steps[n - 1]);
      StepGuards(before, m, me, steps[n - 1]);
      hide StateAt;
      var seen := StateAt(g, next, me, steps, n).seen;
      if OffersAt(g, next, me, steps, n - 1, slot) && Fresh(before, steps[n - 1].frame.from, steps[n - 1].frame.cipher) {
        assert seen[slot] == steps[n - 1].frame.cipher.index;
      } else {
        assert slot in seen <==> slot in before.seen;
        assert slot in seen ==> seen[slot] == before.seen[slot];
      }
    }
  }

  lemma RunOfNothing(g: Group, next: Sid, me: User)
    ensures Run(g, next, me, []) == Effect(g, next, [])
  {
  }

  /** The frame of step `n` passes the guard exactly when its number is above all that came before it
      under the same sender and session. */
  lemma FreshIffRunningMaximum(g: Group, next: Sid, me: User, steps: seq<Step>, n: nat)
    requires n < |steps| && g.seen == map[] && OneLifetime(g, next, me, steps, n)
    requires steps[n].Recv? && steps[n].frame.MegolmIn? && Offers(StateAt(g, next, me, steps, n), steps[n])
    ensures Fresh(StateAt(g, next, me, steps, n), steps[n].frame.from, steps[n].frame.cipher)
            <==> forall k: nat :: k < n && OffersAt(g, next, me, steps, k, SlotOf(steps[n])) ==>
                   steps[k].frame.cipher.index < steps[n].frame.cipher.index
  {
    GuardIsMaximum(g, next, me, steps, n, SlotOf(steps[n]));
    hide StateAt, Offers;
  }

  /** No Megolm ciphertext takes effect twice: a frame that repeats an earlier session and number of
      the same sender changes nothing and sends nothing, whatever tag it comes under. */
  lemma NoEffectTwice(g: Group, next: Sid, me: User, steps: seq<Step>, i: nat, j: nat)
    requires i < j < |steps| && g.seen == map[] && OneLifetime(g, next, me, steps, j + 1)
    requires Offers(StateAt(g, next, me, steps, i), steps[i])
    requires steps[j].Recv? && steps[j].frame.MegolmIn? && steps[j].frame.from == steps[i].frame.from
    requires steps[j].frame.cipher.sid == steps[i].frame.cipher.sid
    requires steps[j].frame.cipher.index <= steps[i].frame.cipher.index
    ensures StateAt(g, next, me, steps, j + 1) == StateAt(g, next, me, steps, j)
  {
    var now := StateAt(g, next, me, steps, j);
    GuardIsMaximum(g, next, me, steps, j, SlotOf(steps[i]));
    assert OffersAt(g, next, me, steps, i, SlotOf(steps[i]));
    var m := StateStep(g, next, me, steps, j);
    assert !Tears(now, me, steps[j]);
    ReceiveGuards(now, m, me, steps[j].frame, steps[j].env);
    hide StateAt, Receive, Offers, Tears;
  }
}
