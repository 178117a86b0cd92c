/** Whom a client listens to. An inbound session is stored only from a peer in good standing who is on the
    roster, or from the owner; it goes with its holder's removal, ban or suspension. So whoever is heard,
    in any run of any client, was entitled to be when their session was accepted. */
module GroupHearing {
  import opened Wrappers
  import opened Groups
  import opened GroupOwner
  import GroupSpeech

  /** `u` may bring us a session: neither banned nor serving a suspension, and on the roster of a group we
      are in, or its recorded owner, or, for a group we know nothing of, its self-named founder. */
  predicate Entitled(g: Group, u: User, s: Share, now: int) {
    && u !in g.bans && (u in g.suspended ==> g.suspended[u] <= now)
    && (if g.chat then u in g.roster || (g.meta.Some? && g.meta.value.owner == u && u != Nobody)
        else g.meta.None? && s.owner == u && u != Nobody)
  }

  /** The step is a share by which entitled `u` brings session `k`. */
  predicate Brings(g: Group, step: Step, u: User, k: SessionKey) {
    && step.Recv? && step.frame.ShareIn? && step.frame.from == u && step.frame.content.Some?
    && step.frame.content.value.session == Some(k) && Entitled(g, u, step.frame.content.value, step.env.now)
  }

  /** Whoever is heard after the step was heard before it with the same session, or brought this one. */
  ghost predicate HeardByRight(g: Group, h: Group, step: Step) {
    forall u :: u in h.inbound ==> (u in g.inbound && g.inbound[u] == h.inbound[u]) || Brings(g, step, u, h.inbound[u])
  }

  lemma CommandsBringNobody(g: Group, next: Sid, me: User, cmd: Command, env: Env)
    ensures forall u :: u in Execute(g, next, me, cmd, env).g.inbound ==>
              u in g.inbound && Execute(g, next, me, cmd, env).g.inbound[u] == g.inbound[u]
  {
    hide AdmitMember, Moderate, Broadcast, IsSuspended;
    match cmd {
      case Invite(u) => AdmitMemberSeats(Expire(g, u, env.now), next, me, u, env);
      case Accept(u) => AdmitMemberSeats(Expire(g, u, env.now), next, me, u, env);
      case Remove(u) => ModerateDrops(g, next, me, Event(Removed, u, None, None), env);
      case Ban(u) => ModerateDrops(g.(bans := g.bans + {u}), next, me, Event(Banned, u, None, None), env);
      case Suspend(u, duration) =>
        if duration.Some? {
          var until := env.now + duration.value;
          ModerateDrops(g.(suspended := g.suspended[u := until]), next, me, Event(Suspended, u, None, Some(until)), env);
        }
      case SetAccess(mode) =>
        if g.meta.Some? { BroadcastOnlySpeaks(g.(meta := Some(g.meta.value.(mode := mode))), next, me, Event(Access, Nobody, Some(mode), None), env); }
      case _ =>
    }
  }

  lemma ShareIsByRight(g: Group, from: User, s: Share, env: Env)
    ensures HeardByRight(g, HandleShare(g, from, s, env), Recv(ShareIn(from, Some(s)), env))
  {
    hide ValidKey, ValidMode;
  }

  /** An entitled peer's importable share is stored. */
  lemma EntitledAreHeard(g: Group, next: Sid, me: User, step: Step, u: User, k: SessionKey)
    requires Brings(g, step, u, k)
    ensures var h := Apply(g, next, me, step).g; u in h.inbound && h.inbound[u] == k
  {
    hide ValidKey, ValidMode;
  }

  lemma JoinsBringNobody(g: Group, next: Sid, me: User, from: User, key: string, env: Env)
    ensures HandleJoin(g, next, me, from, key, env).g.inbound == g.inbound
  {
    AdmitMemberSeats(Expire(g, from, env.now), next, me, from, env);
    hide AdmitMember, ValidKey, DecideJoin;
  }

  lemma MegolmBringsNobody(g: Group, me: User, from: User, tag: Tag, c: Cipher)
    ensures forall u :: u in HandleEvent(g, me, from, c).inbound ==> u in g.inbound && HandleEvent(g, me, from, c).inbound[u] == g.inbound[u]
    ensures HandleMessage(g, from, c).inbound == g.inbound && HandleSystem(g, from, c).inbound == g.inbound
  {
    hide Opens, Fresh;
    if OwnedBy(g, from) && AsEvent(c.plain).Some? { EventBringsNobody(Record(g, from, c), me, AsEvent(c.plain).value); }
    hide ApplyEvent;
  }

  lemma EventBringsNobody(g: Group, me: User, ev: Event)
    ensures forall u :: u in ApplyEvent(g, me, ev).inbound ==> u in g.inbound && ApplyEvent(g, me, ev).inbound[u] == g.inbound[u]
  {
    hide Evicts, ValidMode;
  }

  lemma StepHearsByRight(g: Group, next: Sid, me: User, step: Step)
    ensures HeardByRight(g, Apply(g, next, me, step).g, step)
  {
    hide Brings, Execute, HandleShare, HandleJoin, HandleMessage, HandleSystem, HandleEvent;
    match step {
      case Do(cmd, env) => CommandsBringNobody(g, next, me, cmd, env);
      case Recv(ShareIn(from, Some(s)), env) => ShareIsByRight(g, from, s, env);
      case Recv(JoinIn(from, key), env) => JoinsBringNobody(g, next, me, from, key, env);
      case Recv(MegolmIn(from, tag, c), env) => MegolmBringsNobody(g, me, from, tag, c);
      case _ =>
    }
  }

  /** Sometime in the run `u` brought session `k`, entitled as things stood then. */
  ghost predicate Brought(g: Group, next: Sid, me: User, steps: seq<Step>, u: User, k: SessionKey) {
    exists i :: 0 <= i < |steps| && Brings(Run(g, next, me, steps[..i]).g, steps[i], u, k)
  }

  lemma BroughtStays(g: Group, next: Sid, me: User, front: seq<Step>, last: Step, u: User, k: SessionKey)
    ensures Brought(g, next, me, front, u, k) ==> Brought(g, next, me, front + [last], u, k)
    ensures Brings(Run(g, next, me, front).g, last, u, k) ==> Brought(g, next, me, front + [last], u, k)
  {
    hide Run, Brings;
    var steps := front + [last];
    if Brought(g, next, me, front, u, k) {
      var i :| 0 <= i < |front| && Brings(Run(g, next, me, front[..i]).g, front[i], u, k);
      assert steps[..i] == front[..i] && steps[i] == front[i];
    }
    if Brings(Run(g, next, me, front).g, last, u, k) {
      assert steps[..|front|] == front && steps[|front|] == last;
    }
  }

  /** Over any run, whoever is heard was from the start with the same session, or brought it when entitled. */
  lemma {:induction false} HeardAreEntitled(g: Group, next: Sid, me: User, steps: seq<Step>, u: User)
    requires u in Run(g, next, me, steps).g.inbound
    ensures var k := Run(g, next, me, steps).g.inbound[u];
            (u in g.inbound && g.inbound[u] == k) || Brought(g, next, me, steps, u, k)
  {
    if steps != [] {
      hide Apply, Brings, Brought;
      var front, last := steps[..|steps| - 1], steps[|steps| - 1];
      var before := Run(g, next, me, front);
      assert front + [last] == steps;
      StepHearsByRight(before.g, before.next, me, last);
      BroughtStays(g, next, me, front, last, u, Run(g, next, me, steps).g.inbound[u]);
      if u in before.g.inbound && before.g.inbound[u] == Run(g, next, me, steps).g.inbound[u] {
        HeardAreEntitled(g, next, me, front, u);
      }
    }
  }

  // ---- Every line was said by somebody heard ----

  lemma AdmitLines(g: Group, next: Sid, me: User, who: User, env: Env)
    ensures AdmitMember(g, next, me, who, env).g.lines == g.lines + [Notice(Joined, who)]
  {
    hide Broadcast, Speaking, Distribute;
  }

  lemma ModerateLines(g: Group, next: Sid, me: User, ev: Event, env: Env)
    ensures Moderate(g, next, me, ev, env).g.lines == g.lines + [Notice(ev.kind, ev.who)]
  {
    hide Broadcast, Distribute;
  }

  lemma JoinLines(g: Group, next: Sid, me: User, from: User, key: string, env: Env)
    ensures var h := HandleJoin(g, next, me, from, key, env).g;
            h.lines == g.lines || h.lines == g.lines + [Notice(Joined, from)] || h.lines == g.lines + [Requested(from)]
  {
    AdmitLines(Expire(g, from, env.now), next, me, from, env);
    hide AdmitMember, ValidKey, DecideJoin;
  }

  lemma CommandLines(g: Group, next: Sid, me: User, cmd: Command, env: Env)
    ensures var h := Execute(g, next, me, cmd, env).g;
            || h.lines == g.lines || h.lines == []
            || (exists line :: h.lines == g.lines + [line] && (line.Said? ==> cmd == Say(line.plain) && line.from == me))
  {
    hide AdmitMember, Moderate, Broadcast, IsSuspended;
    match cmd {
      case Invite(u) => AdmitLines(Expire(g, u, env.now), next, me, u, env);
      case Accept(u) => AdmitLines(Expire(g, u, env.now), next, me, u, env);
      case Remove(u) => ModerateLines(g, next, me, Event(Removed, u, None, None), env);
      case Ban(u) => ModerateLines(g.(bans := g.bans + {u}), next, me, Event(Banned, u, None, None), env);
      case Suspend(u, duration) =>
        if duration.Some? {
          var until := env.now + duration.value;
          ModerateLines(g.(suspended := g.suspended[u := until]), next, me, Event(Suspended, u, None, Some(until)), env);
        }
      case SetAccess(mode) =>
        if OwnedBy(g, me) && ValidMode(mode) {
          assert Execute(g, next, me, cmd, env).g.lines == g.lines + [Notice(Access, Nobody)];
        }
      case Say(plain) =>
        if g.chat { assert Execute(g, next, me, cmd, env).g.lines == g.lines + [Said(me, plain)]; }
      case _ =>
    }
  }

  /** A message of `line.from` that says `line`, opened under the session we hold of them. */
  predicate Speaks(g: Group, me: User, step: Step, line: Line) {
    line.Said? &&
    match step
    case Do(cmd, _) => cmd == Say(line.plain) && line.from == me
    case Recv(frame, _) =>
      && frame.MegolmIn? && frame.tag.Message? && frame.from == line.from && frame.cipher.plain == line.plain
      && line.from in g.inbound && g.inbound[line.from].sid == frame.cipher.sid && g.inbound[line.from].first <= frame.cipher.index
  }

  lemma MegolmLines(g: Group, next: Sid, me: User, from: User, tag: Tag, c: Cipher, env: Env)
    ensures var step := Recv(MegolmIn(from, tag, c), env);
            var h := Apply(g, next, me, step).g;
            || h.lines == g.lines || h.lines == []
            || (exists line :: h.lines == g.lines + [line] && (line.Said? ==> Speaks(g, me, step, line)))
  {
    hide ValidMode, Fresh, Evicts;
    match tag {
      case Message =>
        if Opens(g, from, c) && Fresh(g, from, c) { assert HandleMessage(g, from, c).lines == g.lines + [Said(from, c.plain)]; }
      case System =>
        if HandleSystem(g, from, c) != g { assert HandleSystem(g, from, c).lines == g.lines + [Gone(from)]; }
      case GroupEvent =>
        var h := HandleEvent(g, me, from, c);
        if h.lines != g.lines && h != NO_GROUP {
          var ev := AsEvent(c.plain).value;
          assert h.lines == g.lines + [Notice(ev.kind, ev.who)];
        }
    }
  }

  /** A step adds at most one line, unless it erases the group: a notice, or what we typed, or a message word
      for word, opened under the session we hold of its sender. */
  lemma StepLines(g: Group, next: Sid, me: User, step: Step)
    ensures var h := Apply(g, next, me, step).g;
            || h.lines == g.lines || h.lines == []
            || (exists line :: h.lines == g.lines + [line] && (line.Said? ==> Speaks(g, me, step, line)))
  {
    match step {
      case Do(cmd, env) => CommandLines(g, next, me, cmd, env); hide Execute;
      case Recv(JoinIn(from, key), env) => JoinLines(g, next, me, from, key, env); hide HandleJoin;
      case Recv(MegolmIn(from, tag, c), env) =>
        MegolmLines(g, next, me, from, tag, c, env); hide HandleMessage, HandleSystem, HandleEvent, Speaks;
      case Recv(ShareIn(_, _), _) => hide ValidKey, ValidMode, IsSuspended;
      case _ =>
    }
  }

  /** Sometime in the run `line` was said: typed here, or received under a session held of its sender. */
  ghost predicate Uttered(g: Group, next: Sid, me: User, steps: seq<Step>, line: Line) {
    exists i :: 0 <= i < |steps| && Speaks(Run(g, next, me, steps[..i]).g, me, steps[i], line)
  }

  lemma UtteredStays(g: Group, next: Sid, me: User, front: seq<Step>, last: Step, line: Line)
    ensures Uttered(g, next, me, front, line) ==> Uttered(g, next, me, front + [last], line)
    ensures Speaks(Run(g, next, me, front).g, me, last, line) ==> Uttered(g, next, me, front + [last], line)
  {
    hide Run, Speaks;
    var steps := front + [last];
    if Uttered(g, next, me, front, line) {
      var i :| 0 <= i < |front| && Speaks(Run(g, next, me, front[..i]).g, me, front[i], line);
      assert steps[..i] == front[..i] && steps[i] == front[i];
    }
    if Speaks(Run(g, next, me, front).g, me, last, line) {
      assert steps[..|front|] == front && steps[|front|] == last;
    }
  }

  /** Over any run every stored line that quotes somebody was there before or was said in the run: typed
      here, or received from its sender under a session held of them. */
  lemma {:induction false} LinesWereSaid(g: Group, next: Sid, me: User, steps: seq<Step>, line: Line)
    requires line in Run(g, next, me, steps).g.lines && line.Said?
    ensures line in g.lines || Uttered(g, next, me, steps, line)
  {
    if steps != [] {
      hide Apply, Speaks, Uttered;
      var front, last := steps[..|steps| - 1], steps[|steps| - 1];
      var before := Run(g, next, me, front);
      assert front + [last] == steps;
      StepLines(before.g, before.next, me, last);
      UtteredStays(g, next, me, front, last, line);
      if line in before.g.lines { LinesWereSaid(g, next, me, front, line); }
    }
  }

  lemma BroughtBefore(g: Group, next: Sid, me: User, steps: seq<Step>, n: nat, u: User, k: SessionKey)
    requires n <= |steps|
    ensures Brought(g, next, me, steps[..n], u, k) ==> Brought(g, next, me, steps, u, k)
  {
    hide Run, Brings;
    if Brought(g, next, me, steps[..n], u, k) {
      var j :| 0 <= j < |steps[..n]| && Brings(Run(g, next, me, steps[..n][..j]).g, steps[..n][j], u, k);
      assert steps[..n][..j] == steps[..j] && steps[..n][j] == steps[j];
    }
  }

  /** So nobody is quoted who was not entitled: each received line came under a session its sender had from
      the start or brought when entitled. */
  lemma QuotedAreEntitled(g: Group, next: Sid, me: User, steps: seq<Step>, line: Line)
    requires line in Run(g, next, me, steps).g.lines && line.Said? && line !in g.lines && line.from != me
    ensures line.from in g.inbound || exists k :: Brought(g, next, me, steps, line.from, k)
  {
    hide Run, Brings;
    LinesWereSaid(g, next, me, steps, line);
    var i :| 0 <= i < |steps| && Speaks(Run(g, next, me, steps[..i]).g, me, steps[i], line);
    var held := Run(g, next, me, steps[..i]).g.inbound;
    HeardAreEntitled(g, next, me, steps[..i], line.from);
    BroughtBefore(g, next, me, steps, i, line.from, held[line.from]);
    hide Brought;
  }

  // ---- Eviction ----

  /** The step takes `u` off the group: our command as its owner, or an opened, fresh event of the owner. */
  predicate Ousts(g: Group, me: User, step: Step, u: User) {
    u != me &&
    match step
    case Do(cmd, _) =>
      && g.meta.Some? && g.meta.value.owner == me && me != Nobody
      && (cmd == Remove(u) || cmd == Ban(u) || (cmd.Suspend? && cmd.user == u && cmd.duration.Some? && cmd.duration.value > 0))
    case Recv(frame, _) =>
      && frame.MegolmIn? && frame.tag.GroupEvent? && g.meta.Some? && g.meta.value.owner == frame.from && frame.from != Nobody
      && Opens(g, frame.from, frame.cipher) && Fresh(g, frame.from, frame.cipher)
      && AsEvent(frame.cipher.plain).Some?
      && var ev := AsEvent(frame.cipher.plain).value;
         ev.who == u && (ev.kind.Removed? || ev.kind.Banned? || ev.kind.Suspended?)
  }

  lemma OustedByCommand(g: Group, next: Sid, me: User, cmd: Command, env: Env, u: User)
    requires Ousts(g, me, Do(cmd, env), u)
    ensures var h := Apply(g, next, me, Do(cmd, env)).g;
            && u !in h.roster && u !in h.inbound && (cmd.Ban? ==> u in h.bans)
            && (cmd.Suspend? ==> u in h.suspended && h.suspended[u] == env.now + cmd.duration.value)
  {
    hide Moderate;
    match cmd {
      case Remove(_) => ModerateDrops(g, next, me, Event(Removed, u, None, None), env);
      case Ban(_) => ModerateDrops(g.(bans := g.bans + {u}), next, me, Event(Banned, u, None, None), env);
      case Suspend(_, d) =>
        var until := env.now + d.value;
        ModerateDrops(g.(suspended := g.suspended[u := until]), next, me, Event(Suspended, u, None, Some(until)), env);
    }
  }

  lemma OustedByEvent(g: Group, next: Sid, me: User, from: User, c: Cipher, env: Env, u: User)
    requires Ousts(g, me, Recv(MegolmIn(from, GroupEvent, c), env), u)
    ensures var h, ev := Apply(g, next, me, Recv(MegolmIn(from, GroupEvent, c), env)).g, AsEvent(c.plain).value;
            && u !in h.roster && u !in h.inbound && (ev.kind.Banned? ==> u in h.bans)
            && (ev.kind.Suspended? && ev.until.Some? ==> u in h.suspended && h.suspended[u] == ev.until.value)
  {
    hide Opens, Fresh, ValidMode;
  }

  /** At the owner and at every member that takes the event the target loses seat and session; a ban is
      recorded, and a suspension with its deadline. */
  lemma OustedAreGone(g: Group, next: Sid, me: User, step: Step, u: User)
    requires Ousts(g, me, step, u)
    ensures var h := Apply(g, next, me, step).g;
            && u !in h.roster && u !in h.inbound
            && (match step
                case Do(cmd, env) =>
                  (cmd.Ban? ==> u in h.bans)
                  && (cmd.Suspend? ==> u in h.suspended && h.suspended[u] == env.now + cmd.duration.value)
                case Recv(frame, _) =>
                  var ev := AsEvent(frame.cipher.plain).value;
                  (ev.kind.Banned? ==> u in h.bans)
                  && (ev.kind.Suspended? && ev.until.Some? ==> u in h.suspended && h.suspended[u] == ev.until.value))
  {
    hide Apply;
    if step.Do? {
      OustedByCommand(g, next, me, step.cmd, step.env, u);
    } else {
      OustedByEvent(g, next, me, step.frame.from, step.frame.cipher, step.env, u);
    }
  }

  /** The owner's word that `u` joined makes `u` entitled at once, whatever was held against them: any share
      of theirs that imports is stored. */
  lemma WelcomedAreHeard(g: Group, next: Sid, me: User, from: User, c: Cipher, env: Env, u: User, s: Share, later: Env)
    requires g.chat && g.meta.Some? && g.meta.value.owner == from && from != Nobody && Opens(g, from, c) && Fresh(g, from, c)
    requires AsEvent(c.plain).Some? && AsEvent(c.plain).value.kind.Joined? && AsEvent(c.plain).value.who == u && s.session.Some?
    ensures var e := Run(g, next, me, [Recv(MegolmIn(from, GroupEvent, c), env), Recv(ShareIn(u, Some(s)), later)]);
            u in e.g.roster && u in e.g.inbound && e.g.inbound[u] == s.session.value
  {
    hide Run, ValidKey, ValidMode, Opens, Fresh, HandleJoin, HandleMessage, HandleSystem;
    GroupSpeech.RunOfTwo(g, next, me, Recv(MegolmIn(from, GroupEvent, c), env), Recv(ShareIn(u, Some(s)), later));
    var h := Apply(g, next, me, Recv(MegolmIn(from, GroupEvent, c), env)).g;
    assert h.chat && u in h.roster && u !in h.bans && u !in h.suspended;
  }

  /** A leave notice is no eviction: it takes its sender off the roster, but their session stays, and what they
      say in it afterwards is still stored. */
  lemma LeaversAreStillHeard(g: Group, next: Sid, me: User, from: User, c: Cipher, d: Cipher, env: Env, later: Env)
    requires Opens(g, from, c) && Fresh(g, from, c) && c.plain.Sentinel? && d.sid == c.sid && d.index > c.index
    ensures var h := Run(g, next, me, [Recv(MegolmIn(from, System, c), env), Recv(MegolmIn(from, Message, d), later)]).g;
            from !in h.roster && h.lines == g.lines + [Gone(from), Said(from, d.plain)]
  {
    hide Run, HandleJoin, HandleShare, HandleEvent;
    GroupSpeech.RunOfTwo(g, next, me, Recv(MegolmIn(from, System, c), env), Recv(MegolmIn(from, Message, d), later));
  }

  /** Nobody hears `u` in the state: off the roster, not the owner, and without a session. */
  predicate Unheard(g: Group, u: User) {
    g.chat && u !in g.roster && (g.meta.Some? ==> g.meta.value.owner != u) && u !in g.inbound
  }

  /** From an eviction on, as long as the group lasts and `u` is neither seated again nor its owner: `u` has
      no session, and no line of theirs is added, whatever frames arrive. */
  lemma {:induction false} OustedAreUnheard(g: Group, next: Sid, me: User, steps: seq<Step>, n: nat, u: User)
    requires n < |steps| && Ousts(Run(g, next, me, steps[..n]).g, me, steps[n], u)
    requires forall k :: n < k <= |steps| ==>
               var s := Run(g, next, me, steps[..k]).g; s.chat && u !in s.roster && (s.meta.Some? ==> s.meta.value.owner != u)
    ensures u !in Run(g, next, me, steps).g.inbound
    ensures forall plain :: Said(u, plain) in Run(g, next, me, steps).g.lines ==> Said(u, plain) in Run(g, next, me, steps[..n + 1]).g.lines
  {
    hide Apply, Opens, Fresh, AsEvent;
    var front, last := steps[..|steps| - 1], steps[|steps| - 1];
    var before := Run(g, next, me, front);
    assert steps[..|steps|] == steps;
    if n == |steps| - 1 {
      OustedAreGone(before.g, before.next, me, last, u);
      assert steps[..n + 1] == steps && steps[..n] == front;
    } else {
      assert front[..n] == steps[..n] && front[..n + 1] == steps[..n + 1];
      assert forall k :: n < k <= |front| ==> front[..k] == steps[..k];
      OustedAreUnheard(g, next, me, front, n, u);
      assert steps[..|front|] == front;
      UnheardStay(before.g, before.next, me, last, u);
    }
  }

  lemma UnheardStay(g: Group, next: Sid, me: User, step: Step, u: User)
    requires Unheard(g, u) && u != me
    ensures u !in Apply(g, next, me, step).g.inbound
    ensures forall plain :: Said(u, plain) in Apply(g, next, me, step).g.lines ==> Said(u, plain) in g.lines
  {
    hide Apply;
    StepHearsByRight(g, next, me, step);
    StepLines(g, next, me, step);
  }
}
