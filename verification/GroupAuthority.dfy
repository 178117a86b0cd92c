/** Who may change a group: everything that changes roster, bans, suspensions, mode or the existence
    of a group in a vault traces back to the recorded owner, whatever frames the relay delivers. */
module GroupAuthority {
  import opened Wrappers
  import opened Groups

  datatype Act = Seat(user: User) | Unseat(user: User) | Block(user: User) | Hold(user: User) | Rule(mode: Mode) | Erase

  /** The opened, unreplayed event that `frame` carries from `owner`, if any. */
  function OwnerEvent(g: Group, owner: User, frame: Frame): Option<Event> {
    match frame
    case MegolmIn(from, GroupEvent, c) =>
      if from == owner && Opens(g, from, c) && Fresh(g, from, c) then AsEvent(c.plain) else None
    case _ => None
  }

  function OwnerShareOf(owner: User, frame: Frame): Option<Share> {
    match frame
    case ShareIn(from, content) => if from == owner then content else None
    case _ => None
  }

  // What `step`, taken by `me` in state `g`, has the authority for: a share or event of `owner` or,
  // where we are the owner, our own command or our own verdict on a join request. A leave notice is
  // authority only for its own sender's departure.

  predicate MaySeat(g: Group, me: User, owner: User, step: Step, u: User)
    requires OwnedBy(g, owner)
  {
    match step
    case Recv(frame, env) =>
      var event, share := OwnerEvent(g, owner, frame), OwnerShareOf(owner, frame);
      || (event.Some? && event.value.who == u && event.value.kind.Joined?)
      || (share.Some? && u in share.value.members)
      || (owner == me && frame.JoinIn? && frame.from == u && frame.key == g.meta.value.key
          && u !in g.bans && !IsSuspended(g, u, env.now) && (u in g.roster || g.meta.value.mode == Open))
    case Do(cmd, env) =>
      && owner == me && u !in g.bans && !IsSuspended(g, u, env.now)
      && (cmd == Invite(u) || (cmd == Accept(u) && u in g.requests))
  }

  predicate MayUnseat(g: Group, me: User, owner: User, step: Step, u: User) {
    match step
    case Recv(frame, env) =>
      var event := OwnerEvent(g, owner, frame);
      || (event.Some? && event.value.who == u && u != me
          && (event.value.kind.Removed? || event.value.kind.Banned? || event.value.kind.Suspended?))
      || (frame.MegolmIn? && frame.from == u && frame.tag.System? && frame.cipher.plain.Sentinel?
          && Opens(g, u, frame.cipher) && Fresh(g, u, frame.cipher))
    case Do(cmd, env) =>
      owner == me && u != me && (cmd == Remove(u) || cmd == Ban(u) || (cmd.Suspend? && cmd.user == u))
  }

  predicate MayBlock(g: Group, me: User, owner: User, step: Step, u: User) {
    match step
    case Recv(frame, env) =>
      var event := OwnerEvent(g, owner, frame);
      event.Some? && event.value.who == u && event.value.kind.Banned?
    case Do(cmd, env) => owner == me && u != me && cmd == Ban(u)
  }

  predicate MayHold(g: Group, me: User, owner: User, step: Step, u: User) {
    match step
    case Recv(frame, env) =>
      var event := OwnerEvent(g, owner, frame);
      event.Some? && event.value.who == u && event.value.kind.Suspended?
    case Do(cmd, env) => owner == me && u != me && cmd.Suspend? && cmd.user == u
  }

  predicate MayRule(g: Group, me: User, owner: User, step: Step, mode: Mode) {
    match step
    case Recv(frame, env) =>
      var event, share := OwnerEvent(g, owner, frame), OwnerShareOf(owner, frame);
      || (event.Some? && event.value.kind.Access? && event.value.mode == Some(mode) && ValidMode(mode))
      || (share.Some? && mode == if ValidMode(share.value.mode) then share.value.mode else Open)
    case Do(cmd, env) => owner == me && cmd == SetAccess(mode) && ValidMode(mode)
  }

  predicate MayErase(g: Group, me: User, owner: User, step: Step) {
    match step
    case Recv(frame, env) =>
      var event := OwnerEvent(g, owner, frame);
      event.Some? && Expels(event.value, me)
    case Do(cmd, env) => cmd.Leave?
  }

  predicate Authorizes(g: Group, me: User, owner: User, step: Step, act: Act)
    requires OwnedBy(g, owner)
  {
    match act
    case Seat(u) => MaySeat(g, me, owner, step, u)
    case Unseat(u) => MayUnseat(g, me, owner, step, u)
    case Block(u) => MayBlock(g, me, owner, step, u)
    case Hold(u) => MayHold(g, me, owner, step, u)
    case Rule(mode) => MayRule(g, me, owner, step, mode)
    case Erase => MayErase(g, me, owner, step)
  }

  /** What `step` changed between `g` and `h` was authorised, item by item. */
  ghost predicate Accounted(g: Group, h: Group, me: User, owner: User, step: Step)
    requires OwnedBy(g, owner)
  {
    && OwnedBy(h, owner)
    && (forall u :: u in h.roster && u !in g.roster ==> MaySeat(g, me, owner, step, u))
    && (forall u :: u in g.roster && u !in h.roster ==> MayUnseat(g, me, owner, step, u))
    && (forall u :: u in h.bans && u !in g.bans ==> MayBlock(g, me, owner, step, u))
    && (forall u :: u in h.suspended && (u !in g.suspended || h.suspended[u] != g.suspended[u]) ==>
          MayHold(g, me, owner, step, u))
    && (h.meta.value.mode != g.meta.value.mode ==> MayRule(g, me, owner, step, h.meta.value.mode))
  }

  lemma ShareIsAccounted(g: Group, next: Sid, me: User, owner: User, from: User, s: Share, env: Env)
    requires OwnedBy(g, owner)
    ensures Accounted(g, HandleShare(g, from, s, env), me, owner, Recv(ShareIn(from, Some(s)), env))
  {
    hide ValidKey, MayUnseat, MayBlock, MayHold, OwnerEvent, OwnerShareOf;
    assert OwnerShareOf(owner, ShareIn(from, Some(s))) == if from == owner then Some(s) else None by { OwnShare(owner, from, s); }
  }

  lemma OwnShare(owner: User, from: User, s: Share)
    ensures OwnerShareOf(owner, ShareIn(from, Some(s))) == if from == owner then Some(s) else None
  {
  }

  /** Applying the owner's event: everything follows from the event's kind. */
  lemma AppliedEventIsAccounted(g: Group, recorded: Group, h: Group, me: User, owner: User, ev: Event, step: Step)
    requires OwnedBy(g, owner) && step.Recv? && OwnerEvent(g, owner, step.frame) == Some(ev) && !Expels(ev, me)
    requires recorded == g.(seen := recorded.seen) && h == ApplyEvent(recorded, me, ev)
    ensures Accounted(g, h, me, owner, step)
  {
    hide OwnerEvent, OwnerShareOf, Opens, Fresh, IsSuspended;
  }

  /** An event that is not the owner's reaches the replay guard at most. */
  lemma OtherEventsDoNothing(g: Group, me: User, owner: User, from: User, c: Cipher, env: Env)
    requires OwnedBy(g, owner) && OwnerEvent(g, owner, MegolmIn(from, GroupEvent, c)).None?
    ensures var h := HandleEvent(g, me, from, c);
            h == g.(seen := h.seen) && !MayErase(g, me, owner, Recv(MegolmIn(from, GroupEvent, c), env))
  {
    hide ApplyEvent, Expels, Opens, Fresh;
  }

  lemma UnchangedIsAccounted(g: Group, h: Group, me: User, owner: User, step: Step)
    requires OwnedBy(g, owner) && h == g.(seen := h.seen)
    ensures Accounted(g, h, me, owner, step)
  {
  }

  lemma EventIsAccounted(g: Group, me: User, owner: User, from: User, c: Cipher, env: Env)
    requires OwnedBy(g, owner)
    ensures var step := Recv(MegolmIn(from, GroupEvent, c), env);
            if MayErase(g, me, owner, step) then HandleEvent(g, me, from, c) == NO_GROUP
            else Accounted(g, HandleEvent(g, me, from, c), me, owner, step)
  {
    hide ApplyEvent, Accounted, MaySeat;
    var step := Recv(MegolmIn(from, GroupEvent, c), env);
    var event := OwnerEvent(g, owner, step.frame);
    if event.None? {
      OtherEventsDoNothing(g, me, owner, from, c, env);
      UnchangedIsAccounted(g, HandleEvent(g, me, from, c), me, owner, step);
      hide HandleEvent;
    } else if !Expels(event.value, me) {
      var recorded := Record(g, from, c);
      AppliedEventIsAccounted(g, recorded, ApplyEvent(recorded, me, event.value), me, owner, event.value, step);
      AccountIgnoresLines(g, ApplyEvent(recorded, me, event.value), me, owner, step,
                          g.lines + [Notice(event.value.kind, event.value.who)]);
    } else {
      ExpulsionErases(Record(g, from, c), me, event.value);
    }
  }

  lemma ExpulsionErases(recorded: Group, me: User, ev: Event)
    requires Expels(ev, me)
    ensures ApplyEvent(recorded, me, ev) == NO_GROUP
  {
  }

  lemma AccountIgnoresLines(g: Group, h: Group, me: User, owner: User, step: Step, lines: seq<Line>)
    requires OwnedBy(g, owner) && Accounted(g, h, me, owner, step)
    ensures Accounted(g, h.(lines := lines), me, owner, step)
  {
    hide MaySeat, MayUnseat, MayBlock, MayHold, MayRule;
  }

  lemma SeatingIsAccounted(g: Group, h: Group, me: User, owner: User, step: Step, who: User)
    requires OwnedBy(g, owner) && h.meta == g.meta && h.bans == g.bans
    requires h.suspended.Keys <= g.suspended.Keys && forall u :: u in h.suspended ==> h.suspended[u] == g.suspended[u]
    requires h.roster == g.roster || (h.roster == g.roster + {who} && (who !in g.roster ==> MaySeat(g, me, owner, step, who)))
    ensures Accounted(g, h, me, owner, step)
  {
    hide MaySeat, MayUnseat, MayBlock, MayHold, MayRule;
  }

  lemma AdmissionIsAccounted(g: Group, next: Sid, me: User, owner: User, step: Step, who: User, env: Env)
    requires OwnedBy(g, owner) && (who !in g.roster ==> MaySeat(g, me, owner, step, who))
    ensures Accounted(g, AdmitMember(Expire(g, who, env.now), next, me, who, env).g, me, owner, step)
  {
    AdmitMemberSeats(Expire(g, who, env.now), next, me, who, env);
    hide AdmitMember, Accounted, MaySeat;
    SeatingIsAccounted(g, AdmitMember(Expire(g, who, env.now), next, me, who, env).g, me, owner, step, who);
  }

  lemma JoinIsAccounted(g: Group, next: Sid, me: User, owner: User, from: User, key: string, env: Env)
    requires OwnedBy(g, owner)
    ensures Accounted(g, HandleJoin(g, next, me, from, key, env).g, me, owner, Recv(JoinIn(from, key), env))
  {
    var step, h := Recv(JoinIn(from, key), env), HandleJoin(g, next, me, from, key, env).g;
    hide AdmitMember, ValidKey, Accounted;
    if OwnedBy(g, me) && DecideJoin(g.meta.value.mode, ValidKey(key) && key == g.meta.value.key, from in g.bans,
                                    IsSuspended(g, from, env.now), from in g.roster).Admit? {
      AdmissionIsAccounted(g, next, me, owner, step, from, env);
    } else {
      hide MaySeat, DecideJoin;
      SeatingIsAccounted(g, h, me, owner, step, from);
    }
  }

  /** For reference, what a join request comes to at the owner's: the right key of somebody neither banned
      nor suspended seats members again and, in an open group, anybody; under approval it queues; all else
      is refused. */
  lemma JoinOutcome(g: Group, next: Sid, me: User, from: User, key: string, env: Env)
    requires OwnedBy(g, me)
    ensures var e := HandleJoin(g, next, me, from, key, env);
            var welcome := ValidKey(key) && key == g.meta.value.key && from !in g.bans && !IsSuspended(g, from, env.now);
            && (from in e.g.roster <==> from in g.roster || (welcome && g.meta.value.mode == Open))
            && (from in e.g.requests && from !in g.requests ==>
                  welcome && from !in g.roster && g.meta.value.mode == Approval)
            && (welcome && from !in g.roster && g.meta.value.mode == Approval ==> from in e.g.requests)
            && (e.out == [Denial({from} - env.skip)] <==>
                  !welcome || (from !in g.roster && g.meta.value.mode != Open && g.meta.value.mode != Approval))
  {
    AdmitMemberSeats(Expire(g, from, env.now), next, me, from, env);
    AdmitMemberSpeaks(Expire(g, from, env.now), next, me, from, env);
    hide AdmitMember, ValidKey;
  }

  lemma AdmitMemberSpeaks(g: Group, next: Sid, me: User, who: User, env: Env)
    ensures |AdmitMember(g, next, me, who, env).out| >= 2
  {
  }

  lemma ReceiveIsAccounted(g: Group, next: Sid, me: User, owner: User, frame: Frame, env: Env)
    requires OwnedBy(g, owner)
    ensures var h := Receive(g, next, me, frame, env).g;
            if MayErase(g, me, owner, Recv(frame, env)) then h == NO_GROUP
            else Accounted(g, h, me, owner, Recv(frame, env))
  {
    match frame {
      case ShareIn(from, None) =>
      case ShareIn(from, Some(s)) => ShareIsAccounted(g, next, me, owner, from, s, env); hide HandleShare;
      case MegolmIn(from, Message, c) =>
      case MegolmIn(from, System, c) =>
      case MegolmIn(from, GroupEvent, c) => EventIsAccounted(g, me, owner, from, c, env); hide HandleEvent;
      case JoinIn(from, key) => JoinIsAccounted(g, next, me, owner, from, key, env); hide HandleJoin;
      case DeniedIn(_) =>
    }
  }

  lemma InviteIsAccounted(g: Group, next: Sid, me: User, owner: User, u: User, cmd: Command, env: Env)
    requires OwnedBy(g, owner) && (cmd == Invite(u) || cmd == Accept(u))
    ensures Accounted(g, Govern(g, next, me, cmd, env).g, me, owner, Do(cmd, env))
  {
    AdmitMemberSeats(Expire(g, u, env.now), next, me, u, env);
    hide AdmitMember, Moderate, Broadcast, MayUnseat, MayBlock, MayHold, MayRule;
  }

  lemma ModerateIsAccounted(g: Group, next: Sid, me: User, owner: User, cmd: Command, env: Env)
    requires OwnedBy(g, owner) && (cmd.Remove? || cmd.Ban? || cmd.Suspend?)
    ensures Accounted(g, Govern(g, next, me, cmd, env).g, me, owner, Do(cmd, env))
  {
    hide Moderate, AdmitMember, Broadcast, MaySeat, MayRule;
    match cmd {
      case Remove(u) =>
        ModerateDrops(g, next, me, Event(Removed, u, None, None), env);
        hide MayBlock, MayHold;
      case Ban(u) =>
        ModerateDrops(g.(bans := g.bans + {u}), next, me, Event(Banned, u, None, None), env);
        hide MayHold;
      case Suspend(u, duration) =>
        hide MayBlock;
        if duration.Some? {
          var until := env.now + duration.value;
          ModerateDrops(g.(suspended := g.suspended[u := until]), next, me, Event(Suspended, u, None, Some(until)), env);
        }
    }
  }

  lemma GovernIsAccounted(g: Group, next: Sid, me: User, owner: User, cmd: Command, env: Env)
    requires OwnedBy(g, owner) && !cmd.Say? && !cmd.Leave?
    ensures Accounted(g, Govern(g, next, me, cmd, env).g, me, owner, Do(cmd, env))
  {
    match cmd {
      case Invite(u) => InviteIsAccounted(g, next, me, owner, u, cmd, env); hide Govern;
      case Accept(u) => InviteIsAccounted(g, next, me, owner, u, cmd, env); hide Govern;
      case Unban(u) =>
      case Unsuspend(u) =>
      case SetAccess(mode) =>
        BroadcastOnlySpeaks(g.(meta := Some(g.meta.value.(mode := mode))), next, me, Event(Access, Nobody, Some(mode), None), env);
        hide Broadcast;
      case _ => ModerateIsAccounted(g, next, me, owner, cmd, env); hide Govern;
    }
  }

  lemma ExecuteIsAccounted(g: Group, next: Sid, me: User, owner: User, cmd: Command, env: Env)
    requires OwnedBy(g, owner)
    ensures var h := Execute(g, next, me, cmd, env).g;
            if MayErase(g, me, owner, Do(cmd, env)) then h == NO_GROUP || h == g
            else Accounted(g, h, me, owner, Do(cmd, env))
  {
    if !cmd.Say? && !cmd.Leave? {
      GovernIsAccounted(g, next, me, owner, cmd, env);
      hide Govern;
    }
  }

  /** At some step of the run the owner authorised `act`. */
  ghost predicate Sometime(g: Group, next: Sid, me: User, owner: User, steps: seq<Step>, act: Act) {
    steps != [] &&
    var front, last := steps[..|steps| - 1], steps[|steps| - 1];
    var before := Run(g, next, me, front).g;
    Sometime(g, next, me, owner, front, act) || (OwnedBy(before, owner) && Authorizes(before, me, owner, last, act))
  }

  /** What held of a step's start, or was authorised by it, held sometime up to its end. */
  lemma SometimeExtends(g: Group, next: Sid, me: User, owner: User, steps: seq<Step>, act: Act)
    requires steps != []
    ensures var front, last := steps[..|steps| - 1], steps[|steps| - 1];
            var before := Run(g, next, me, front).g;
            && (Sometime(g, next, me, owner, front, act) ==> Sometime(g, next, me, owner, steps, act))
            && (OwnedBy(before, owner) && Authorizes(before, me, owner, last, act) ==> Sometime(g, next, me, owner, steps, act))
  {
    hide Run, Authorizes;
  }

  /** Owner, roster, bans, suspensions and mode of `h` are as in `g` or as the owner authorised since. */
  ghost predicate Traced(g: Group, h: Group, next: Sid, me: User, owner: User, steps: seq<Step>)
    requires OwnedBy(g, owner)
  {
    && OwnedBy(h, owner)
    && (forall u :: u in h.roster ==> u in g.roster || Sometime(g, next, me, owner, steps, Seat(u)))
    && (forall u :: u in g.roster ==> u in h.roster || Sometime(g, next, me, owner, steps, Unseat(u)))
    && (forall u :: u in h.bans ==> u in g.bans || Sometime(g, next, me, owner, steps, Block(u)))
    && (forall u :: u in h.suspended ==>
          (u in g.suspended && h.suspended[u] == g.suspended[u]) || Sometime(g, next, me, owner, steps, Hold(u)))
    && (h.meta.value.mode == g.meta.value.mode || Sometime(g, next, me, owner, steps, Rule(h.meta.value.mode)))
  }

  lemma TraceExtends(g: Group, before: Group, h: Group, next: Sid, me: User, owner: User, steps: seq<Step>)
    requires OwnedBy(g, owner) && steps != [] && before == Run(g, next, me, steps[..|steps| - 1]).g
    requires Traced(g, before, next, me, owner, steps[..|steps| - 1]) && Accounted(before, h, me, owner, steps[|steps| - 1])
    ensures Traced(g, h, next, me, owner, steps)
  {
    hide Run, Sometime, MaySeat, MayUnseat, MayBlock, MayHold, MayRule, MayErase;
    forall u
      ensures u in h.roster ==> u in g.roster || Sometime(g, next, me, owner, steps, Seat(u))
      ensures u in g.roster ==> u in h.roster || Sometime(g, next, me, owner, steps, Unseat(u))
    {
      SometimeExtends(g, next, me, owner, steps, Seat(u));
      SometimeExtends(g, next, me, owner, steps, Unseat(u));
    }
    forall u
      ensures u in h.bans ==> u in g.bans || Sometime(g, next, me, owner, steps, Block(u))
      ensures u in h.suspended ==>
                (u in g.suspended && h.suspended[u] == g.suspended[u]) || Sometime(g, next, me, owner, steps, Hold(u))
    {
      SometimeExtends(g, next, me, owner, steps, Block(u));
      SometimeExtends(g, next, me, owner, steps, Hold(u));
    }
    SometimeExtends(g, next, me, owner, steps, Rule(h.meta.value.mode));
  }

  /** Over any run, as long as nothing erased the group: the owner is the same, and everybody seated,
      banned or suspended, and the mode in force, is as at the start or was authorised by the owner. */
  lemma {:induction false} OwnerIsTheOnlyAuthority(g: Group, next: Sid, me: User, owner: User, steps: seq<Step>)
    requires OwnedBy(g, owner)
    ensures Sometime(g, next, me, owner, steps, Erase) || Traced(g, Run(g, next, me, steps).g, next, me, owner, steps)
  {
    if steps != [] {
      hide Receive, Execute, MayErase, Traced, Sometime, Accounted;
      var front, last := steps[..|steps| - 1], steps[|steps| - 1];
      OwnerIsTheOnlyAuthority(g, next, me, owner, front);
      SometimeExtends(g, next, me, owner, steps, Erase);
      var before, h := Run(g, next, me, front), Run(g, next, me, steps).g;
      if !Sometime(g, next, me, owner, steps, Erase) {
        assert OwnedBy(before.g, owner) by { TracedIsOwned(g, before.g, next, me, owner, front); }
        match last {
          case Recv(frame, env) => ReceiveIsAccounted(before.g, before.next, me, owner, frame, env);
          case Do(cmd, env) => ExecuteIsAccounted(before.g, before.next, me, owner, cmd, env);
        }
        TraceExtends(g, before.g, h, next, me, owner, steps);
      }
    }
  }

  lemma TracedIsOwned(g: Group, h: Group, next: Sid, me: User, owner: User, steps: seq<Step>)
    requires OwnedBy(g, owner) && Traced(g, h, next, me, owner, steps)
    ensures OwnedBy(h, owner)
  {
  }
}
