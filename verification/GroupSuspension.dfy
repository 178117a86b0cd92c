/** Bans and suspensions at the owner, over whole runs: a suspension keeps its user out until the very moment
    it was set to end, and no longer; a ban lasts exactly until it is lifted. */
module GroupSuspension {
  import opened Wrappers
  import opened Groups
  import opened GroupOwner
  import opened GroupKeys
  import opened GroupAuthority

  /** The step ends or replaces a suspension of `u`. */
  predicate Resets(step: Step, u: User) {
    step.Do? &&
    match step.cmd
    case Unsuspend(who) => who == u
    case Suspend(who, d) => who == u && d.Some? && d.value > 0
    case _ => false
  }

  /** The suspension of `u` stands, with its deadline. */
  predicate Stands(g: Group, h: Group, u: User) {
    u in g.suspended && u in h.suspended && h.suspended[u] == g.suspended[u]
  }

  lemma JoinKeepsSuspension(g: Group, next: Sid, me: User, from: User, key: string, env: Env, u: User)
    requires u in g.suspended && env.now < g.suspended[u]
    ensures Stands(g, HandleJoin(g, next, me, from, key, env).g, u)
  {
    AdmitMemberSeats(Expire(g, from, env.now), next, me, from, env);
    hide ValidKey, AdmitMember, DecideJoin;
  }

  lemma ShareKeepsSuspension(g: Group, from: User, s: Share, env: Env, u: User)
    requires u in g.suspended && env.now < g.suspended[u]
    ensures Stands(g, HandleShare(g, from, s, env), u)
  {
    hide ValidKey, ValidMode, OwnerShare;
  }

  lemma FramesKeepSuspension(g: Group, next: Sid, me: User, frame: Frame, env: Env, u: User)
    requires Governs(g, next, me) && (frame.from != me || frame.MegolmIn?) && u in g.suspended && env.now < g.suspended[u]
    ensures Stands(g, Receive(g, next, me, frame, env).g, u)
  {
    hide HandleJoin, HandleShare, ApplyEvent, ValidMode, Fresh;
    match frame {
      case JoinIn(from, key) => JoinKeepsSuspension(g, next, me, from, key, env, u);
      case ShareIn(from, Some(s)) => ShareKeepsSuspension(g, from, s, env, u);
      case _ =>
    }
  }

  lemma AdmittingKeepsSuspension(g: Group, next: Sid, me: User, cmd: Command, env: Env, u: User)
    requires (cmd.Invite? || cmd.Accept?) && u in g.suspended && env.now < g.suspended[u]
    ensures Stands(g, Execute(g, next, me, cmd, env).g, u)
  {
    AdmitMemberSeats(Expire(g, cmd.user, env.now), next, me, cmd.user, env);
    hide AdmitMember;
  }

  lemma ModeratingKeepsSuspension(g: Group, next: Sid, me: User, cmd: Command, env: Env, u: User)
    requires (cmd.Remove? || cmd.Ban? || cmd.Suspend?) && !Resets(Do(cmd, env), u) && u in g.suspended
    ensures Stands(g, Execute(g, next, me, cmd, env).g, u)
  {
    hide Moderate;
    match cmd {
      case Remove(who) => ModerateDrops(g, next, me, Event(Removed, who, None, None), env);
      case Ban(who) => ModerateDrops(g.(bans := g.bans + {who}), next, me, Event(Banned, who, None, None), env);
      case Suspend(who, d) =>
        if d.Some? {
          var until := env.now + d.value;
          ModerateDrops(g.(suspended := g.suspended[who := until]), next, me, Event(Suspended, who, None, Some(until)), env);
        }
    }
  }

  lemma CommandsKeepSuspension(g: Group, next: Sid, me: User, cmd: Command, env: Env, u: User)
    requires !cmd.Leave? && !Resets(Do(cmd, env), u) && u in g.suspended && env.now < g.suspended[u]
    ensures Stands(g, Execute(g, next, me, cmd, env).g, u)
  {
    if cmd.Invite? || cmd.Accept? {
      hide Execute;
      AdmittingKeepsSuspension(g, next, me, cmd, env, u);
    } else if cmd.Remove? || cmd.Ban? || cmd.Suspend? {
      hide Execute;
      ModeratingKeepsSuspension(g, next, me, cmd, env, u);
    }
  }

  lemma SuspendedHaveNoSeat(g: Group, me: User, step: Step, u: User)
    requires g.meta.Some? && u in g.suspended && step.env.now < g.suspended[u]
    ensures MoveOf(g, me, step) != Move.Seat(u)
  {
    hide ValidKey, ValidMode, Opens, Fresh;
  }

  lemma PlaySparesOutsiders(c: Chair, me: User, move: Move, skip: set<User>, u: User)
    requires u !in c.roster && move != Move.Seat(u)
    ensures u !in Play(c, me, move, skip).0.roster && forall p :: p in Play(c, me, move, skip).1 ==> Spares(p, u)
  {
  }

  /** While the suspension lasts, no handler ends it, seats its user or sends them anything but a refusal. */
  lemma StepSparesSuspended(g: Group, next: Sid, me: User, step: Step, u: User)
    requires Governs(g, next, me) && Staying(me, step) && !Resets(step, u)
    requires u in g.suspended && step.env.now < g.suspended[u] && u !in g.roster
    ensures var e := Apply(g, next, me, step);
            && u in e.g.suspended && e.g.suspended[u] == g.suspended[u] && u !in e.g.roster
            && forall p :: p in e.out ==> Spares(p, u)
  {
    hide Receive, Execute, MoveOf, Play, Resets;
    match step {
      case Recv(frame, env) => FramesKeepSuspension(g, next, me, frame, env, u);
      case Do(cmd, env) => CommandsKeepSuspension(g, next, me, cmd, env, u);
    }
    StepIsMove(g, next, me, step);
    SuspendedHaveNoSeat(g, me, step, u);
    PlaySparesOutsiders(ChairOf(g), me, MoveOf(g, me, step), step.env.skip, u);
    hide Governs;
  }

  lemma SuspendSuspends(g: Group, next: Sid, me: User, u: User, d: int, env: Env)
    requires Governs(g, next, me) && u != me && d > 0
    ensures var e := Apply(g, next, me, Do(Suspend(u, Some(d)), env));
            u in e.g.suspended && e.g.suspended[u] == env.now + d && u !in e.g.roster
  {
    var until := env.now + d;
    ModerateDrops(g.(suspended := g.suspended[u := until]), next, me, Event(Suspended, u, None, Some(until)), env);
    hide Moderate;
  }

  /** The owner suspends `u` for `d` in step `n`, and no later step ends or replaces that suspension or comes
      at its deadline. */
  ghost predicate Serving(f: Founding, steps: seq<Step>, n: nat, u: User, d: int) {
    && n < |steps| && u != f.me && d > 0 && steps[n] == Do(Suspend(u, Some(d)), steps[n].env)
    && forall k :: n < k < |steps| ==> !Resets(steps[k], u) && steps[k].env.now < steps[n].env.now + d
  }

  /** From a suspension until its deadline or its end the user is off the roster and is sent no key, no
      event and no message, whatever joins, invitations and commands come in between. */
  lemma {:induction false} SuspendedGetNothing(f: Founding, steps: seq<Step>, n: nat, u: User, d: int)
    requires Proper(f, steps) && Serving(f, steps, n, u, d)
    ensures var before, e := Current(f, steps[..n + 1]), Current(f, steps);
            && u in e.g.suspended && e.g.suspended[u] == steps[n].env.now + d && u !in e.g.roster
            && before.out <= e.out
            && forall p :: p in e.out[|before.out|..] ==> Spares(p, u)
  {
    hide Current, Apply, Spares, Governs, Proper, Staying, Resets;
    var front, last := steps[..|steps| - 1], steps[|steps| - 1];
    ProperFront(f, steps);
    CurrentStep(f, steps);
    var e := Current(f, front);
    if n == |steps| - 1 {
      assert steps[..n + 1] == steps;
      SuspendSuspends(e.g, e.next, f.me, u, d, last.env);
    } else {
      assert front[..n + 1] == steps[..n + 1];
      SuspendedGetNothing(f, front, n, u, d);
      StepSparesSuspended(e.g, e.next, f.me, last, u);
      var before, more := Current(f, steps[..n + 1]), Apply(e.g, e.next, f.me, last).out;
      assert (e.out + more)[|before.out|..] == e.out[|before.out|..] + more;
    }
  }

  /** In an open group, an unbanned user's request with the group's key. */
  predicate Welcome(g: Group, u: User, key: string) {
    g.meta.Some? && g.meta.value.mode == Open && u !in g.bans && key == g.meta.value.key && ValidKey(key)
  }

  /** And not a moment longer: an otherwise welcome request of the suspended user is granted exactly from the
      deadline on. */
  lemma SuspensionEndsOnTime(f: Founding, steps: seq<Step>, n: nat, u: User, d: int, key: string, env: Env)
    requires Proper(f, steps) && Serving(f, steps, n, u, d) && Welcome(Current(f, steps).g, u, key)
    ensures var e := Current(f, steps + [Recv(JoinIn(u, key), env)]);
            u in e.g.roster <==> env.now >= steps[n].env.now + d
  {
    var more := steps + [Recv(JoinIn(u, key), env)];
    assert more[..|more| - 1] == steps;
    assert forall i :: 0 <= i < |steps| ==> more[i] == steps[i];
    SuspendedGetNothing(f, steps, n, u, d);
    CurrentStep(f, more);
    var e := Current(f, steps);
    JoinOutcome(e.g, e.next, f.me, u, key, env);
    hide Current, HandleJoin, ValidKey;
  }

  lemma LiftingEffects(g: Group, next: Sid, me: User, u: User, env: Env)
    requires Governs(g, next, me)
    ensures Apply(g, next, me, Do(Unban(u), env)) == Effect(g.(bans := g.bans - {u}), next, [])
    ensures Apply(g, next, me, Do(Unsuspend(u), env)) == Effect(g.(suspended := g.suspended - {u}), next, [])
  {
  }

  lemma WelcomeIsSeated(g: Group, next: Sid, me: User, u: User, key: string, env: Env)
    requires Governs(g, next, me) && Welcome(g, u, key) && (u in g.suspended ==> g.suspended[u] <= env.now)
    ensures u in Apply(g, next, me, Recv(JoinIn(u, key), env)).g.roster
  {
    JoinOutcome(g, next, me, u, key, env);
    hide HandleJoin, ValidKey;
  }

  /** An end before the deadline is an end: after Unsuspend the same request is granted at once. */
  lemma UnsuspendedIsWelcome(f: Founding, steps: seq<Step>, u: User, key: string, env: Env, now: Env)
    requires Proper(f, steps) && u != f.me && Welcome(Current(f, steps).g, u, key)
    ensures u in Current(f, steps + [Do(Unsuspend(u), env)] + [Recv(JoinIn(u, key), now)]).g.roster
  {
    hide Current, Apply, Governs, ValidKey, Resets;
    var lifted := steps + [Do(Unsuspend(u), env)];
    var more := lifted + [Recv(JoinIn(u, key), now)];
    assert lifted[..|lifted| - 1] == steps && more[..|more| - 1] == lifted;
    CurrentStep(f, lifted);
    CurrentStep(f, more);
    LiftingEffects(Current(f, steps).g, Current(f, steps).next, f.me, u, env);
    WelcomeIsSeated(Current(f, lifted).g, Current(f, lifted).next, f.me, u, key, now);
  }

  // ---- Bans ----

  /** Banned in step `n` and not unbanned since. */
  predicate BannedSince(me: User, steps: seq<Step>, n: nat, u: User) {
    n < |steps| && u != me && steps[n].Do? && steps[n].cmd == Ban(u)
    && forall k :: n < k < |steps| ==> !(steps[k].Do? && steps[k].cmd == Unban(u))
  }

  lemma StepBans(g: Group, next: Sid, me: User, step: Step)
    requires Governs(g, next, me) && Staying(me, step)
    ensures forall u :: u in Apply(g, next, me, step).g.bans
                        <==> (step.Do? && step.cmd == Ban(u) && u != me) || (u in g.bans && !(step.Do? && step.cmd == Unban(u)))
  {
    hide AdmitMember, Moderate, Broadcast, Receive, Govern, ValidMode;
    match step {
      case Recv(frame, env) => ReceiveIsMove(g, next, me, frame, env); hide Governs, MoveOf;
      case Do(cmd, env) =>
        if cmd.Invite? || cmd.Accept? {
          SeatingIsMove(g, next, me, cmd, env);
          hide Governs, MoveOf;
        } else if cmd.Remove? || cmd.Ban? || cmd.Suspend? {
          ModerationIsMove(g, next, me, cmd, env);
          hide Governs, MoveOf;
        } else {
          LiftingBans(g, next, me, cmd, env);
        }
    }
  }

  lemma LiftingBans(g: Group, next: Sid, me: User, cmd: Command, env: Env)
    requires Governs(g, next, me) && (cmd.Unban? || cmd.Unsuspend? || cmd.SetAccess? || cmd.Say?)
    ensures Execute(g, next, me, cmd, env).g.bans == if cmd.Unban? then g.bans - {cmd.user} else g.bans
  {
  }

  /** At any moment the banned are exactly those banned by command and not unbanned by command since. */
  lemma {:induction false} BannedByCommand(f: Founding, steps: seq<Step>, u: User)
    requires Proper(f, steps)
    ensures u in Current(f, steps).g.bans <==> exists n: nat :: BannedSince(f.me, steps, n, u)
  {
    if steps == [] {
    } else {
      hide Current, Apply, Governs, Proper, Staying;
      var front, last := steps[..|steps| - 1], steps[|steps| - 1];
      ProperFront(f, steps);
      BannedByCommand(f, front, u);
      CurrentStep(f, steps);
      StepBans(Current(f, front).g, Current(f, front).next, f.me, last);
      BannedSinceExtends(f.me, steps, u);
    }
  }

  /** And lifting a ban lifts it: after Unban an otherwise welcome request of somebody not serving a
      suspension is granted. */
  lemma UnbannedIsWelcome(f: Founding, steps: seq<Step>, u: User, key: string, env: Env, now: Env)
    requires Proper(f, steps) && u != f.me
    requires var g := Current(f, steps).g;
             && Welcome(g.(bans := {}), u, key) && (u in g.suspended ==> g.suspended[u] <= now.now)
    ensures u in Current(f, steps + [Do(Unban(u), env)] + [Recv(JoinIn(u, key), now)]).g.roster
  {
    hide Current, Apply, Governs, ValidKey, Resets;
    var lifted := steps + [Do(Unban(u), env)];
    var more := lifted + [Recv(JoinIn(u, key), now)];
    assert lifted[..|lifted| - 1] == steps && more[..|more| - 1] == lifted;
    CurrentStep(f, lifted);
    CurrentStep(f, more);
    LiftingEffects(Current(f, steps).g, Current(f, steps).next, f.me, u, env);
    WelcomeIsSeated(Current(f, lifted).g, Current(f, lifted).next, f.me, u, key, now);
  }

  lemma BannedSinceExtends(me: User, steps: seq<Step>, u: User)
    requires steps != []
    ensures var front, last := steps[..|steps| - 1], steps[|steps| - 1];
            (exists n: nat :: BannedSince(me, steps, n, u))
            <==> (last.Do? && last.cmd == Ban(u) && u != me)
                 || ((exists n: nat :: BannedSince(me, front, n, u)) && !(last.Do? && last.cmd == Unban(u)))
  {
    var front, last := steps[..|steps| - 1], steps[|steps| - 1];
    if last.Do? && last.cmd == Ban(u) && u != me { assert BannedSince(me, steps, |front|, u); }
    if n: nat :| BannedSince(me, front, n, u) && !(last.Do? && last.cmd == Unban(u)) { assert BannedSince(me, steps, n, u); }
    if n: nat :| BannedSince(me, steps, n, u) && n < |front| { assert BannedSince(me, front, n, u); }
  }
}
