/** What each handler comes to, case by case and row by row: the whole of a group's rows after a frame or a
    command, in terms of the rows before and of what arrived. */
module GroupOutcomes {
  import opened Wrappers
  import opened Groups
  import opened GroupOwner

  /** Eight letters or digits. */
  predicate ProperKey(key: string) {
    |key| == 8 && forall i :: 0 <= i < 8 ==> '0' <= key[i] <= '9' || 'a' <= key[i] <= 'z' || 'A' <= key[i] <= 'Z'
  }

  predicate ProperMode(m: Mode) {
    m == Open || m == Approval || m == InviteOnly
  }

  /** Banned, or suspended until some time after `now`. */
  predicate Barred(g: Group, u: User, now: int) {
    u in g.bans || (u in g.suspended && g.suspended[u] > now)
  }

  predicate Owns(g: Group, u: User) {
    g.meta.Some? && g.meta.value.owner == u && u != Nobody
  }

  /** Somebody barred, or with a suspension still on record, loses the record once it has run out. */
  function Lapsed(g: Group, u: User, now: int): map<User, int> {
    if u in g.suspended && g.suspended[u] > now then g.suspended else g.suspended - {u}
  }

  // ---- Frames ----

  /** A key share: its session is stored if its sender is not barred and is the owner, or the self-named
      founder of a group we know nothing of, or on the roster of one we are in. The owner's share also seats
      everybody it lists and, under a proper key that is free, settles owner, mode and key. */
  lemma ShareOutcome(g: Group, from: User, s: Share, env: Env)
    ensures var h := HandleShare(g, from, s, env);
            var byOwner := if g.chat then Owns(g, from) else g.meta.None? && s.owner == from && from != Nobody;
            var heard := !Barred(g, from, env.now) && s.session.Some? && (byOwner || (g.chat && from in g.roster));
            && h == g.(chat := h.chat, roster := h.roster, meta := h.meta, suspended := h.suspended, inbound := h.inbound)
            && h.suspended == (if from in g.bans then g.suspended else Lapsed(g, from, env.now))
            && h.inbound == (if heard then g.inbound[from := s.session.value] else g.inbound)
            && h.chat == (g.chat || (heard && byOwner))
            && h.roster == (if heard && byOwner then g.roster + s.members else g.roster)
            && h.meta == if heard && byOwner && ProperKey(s.key) && !env.keyTaken
                         then Some(Meta(from, if ProperMode(s.mode) then s.mode else Open, s.key)) else g.meta
  {
    KeysAreProper(s.key);
    hide ValidKey, ProperKey;
  }

  lemma KeysAreProper(key: string)
    ensures ValidKey(key) <==> ProperKey(key)
  {
  }

  /** We hold the sender's session, it opens the ciphertext, and its number is above all recorded. */
  predicate Passes(g: Group, from: User, c: Cipher) {
    && from in g.inbound && g.inbound[from].sid == c.sid && g.inbound[from].first <= c.index
    && ((from, c.sid) in g.seen ==> g.seen[(from, c.sid)] < c.index)
  }

  /** A message that passes is one more line, word for word; one that does not is nothing. */
  lemma MessageOutcome(g: Group, from: User, c: Cipher)
    ensures HandleMessage(g, from, c)
            == if Passes(g, from, c) then g.(seen := g.seen[(from, c.sid) := c.index], lines := g.lines + [Said(from, c.plain)]) else g
  {
  }

  /** A leave notice that passes and is genuine takes its sender off the roster, and that is recorded. */
  lemma LeaveOutcome(g: Group, from: User, c: Cipher)
    ensures HandleSystem(g, from, c)
            == if Passes(g, from, c) && c.plain == Sentinel
               then g.(seen := g.seen[(from, c.sid) := c.index], roster := g.roster - {from}, lines := g.lines + [Gone(from)]) else g
  {
  }

  /** The rows after an event of the owner, by its kind. */
  ghost predicate Applied(g: Group, h: Group, me: User, ev: Event) {
    var noted := g.(lines := g.lines + [Notice(ev.kind, ev.who)]);
    match ev.kind
    case Joined => h == noted.(roster := g.roster + {ev.who}, bans := g.bans - {ev.who}, suspended := g.suspended - {ev.who})
    case Removed => if ev.who == me then h == NO_GROUP else h == noted.(roster := g.roster - {ev.who}, inbound := g.inbound - {ev.who})
    case Banned =>
      if ev.who == me then h == NO_GROUP
      else h == noted.(roster := g.roster - {ev.who}, inbound := g.inbound - {ev.who}, bans := g.bans + {ev.who})
    case Suspended =>
      if ev.who == me then h == noted
      else h == noted.(roster := g.roster - {ev.who}, inbound := g.inbound - {ev.who},
                       suspended := if ev.until.Some? then g.suspended[ev.who := ev.until.value] else g.suspended)
    case Access =>
      h == if g.meta.Some? && ev.mode.Some? && ProperMode(ev.mode.value) then noted.(meta := Some(g.meta.value.(mode := ev.mode.value))) else noted
    case UnknownKind(_) => h == g
  }

  /** An event that passes is applied if it comes from the recorded owner and parses; otherwise its number is
      recorded, and that is all. Being suspended oneself changes nothing; being removed or banned erases. */
  lemma EventOutcome(g: Group, me: User, from: User, c: Cipher)
    ensures var h := HandleEvent(g, me, from, c);
            var counted := g.(seen := g.seen[(from, c.sid) := c.index]);
            if !Passes(g, from, c) then h == g
            else if !Owns(g, from) || AsEvent(c.plain).None? then h == counted
            else Applied(counted, h, me, AsEvent(c.plain).value)
  {
    if AsEvent(c.plain).Some? {
      EventByKind(g.(seen := g.seen[(from, c.sid) := c.index]), me, AsEvent(c.plain).value);
    }
    hide ApplyEvent, Applied, Expels;
  }

  lemma EventByKind(g: Group, me: User, ev: Event)
    ensures var h := ApplyEvent(g, me, ev);
            Applied(g, if Expels(ev, me) || ev.kind.UnknownKind? then h else h.(lines := g.lines + [Notice(ev.kind, ev.who)]), me, ev)
  {
  }

  /** A join request at the owner: the right key of somebody not barred admits a member or, in an open group,
      anybody; under approval it is queued; everything else is refused with a denial. */
  lemma RequestOutcome(g: Group, next: Sid, me: User, from: User, key: string, env: Env)
    requires Owns(g, me) && g.outbound.Some?
    ensures var e := HandleJoin(g, next, me, from, key, env);
            var welcome := ProperKey(key) && key == g.meta.value.key && !Barred(g, from, env.now);
            var lapsed := g.(suspended := Lapsed(g, from, env.now));
            if welcome && (from in g.roster || g.meta.value.mode == Open) then
              && e.g == lapsed.(roster := g.roster + {from}, requests := g.requests - {from},
                                outbound := Some(Sender(g.outbound.value.sid, g.outbound.value.index + 1)),
                                lines := g.lines + [Notice(Joined, from)])
              && |e.out| == 2 && e.next == next
            else if welcome && g.meta.value.mode == Approval then
              e == Effect(lapsed.(requests := g.requests + {from}, lines := g.lines + [Requested(from)]), next, [])
            else e == Effect(lapsed, next, [Denial({from} - env.skip)])
  {
    KeysAreProper(key);
    LapsedIsExpired(g, from, env.now);
    hide ValidKey, ProperKey, AdmitMember, Expire, Lapsed, Barred;
    RequestDecision(g, from, key, env.now);
    AdmissionOutcome(Expire(g, from, env.now), next, me, from, env);
    hide DecideJoin, IsSuspended;
  }

  lemma LapsedIsExpired(g: Group, u: User, now: int)
    ensures Expire(g, u, now) == g.(suspended := Lapsed(g, u, now))
    ensures Barred(g, u, now) <==> u in g.bans || IsSuspended(g, u, now)
  {
  }

  lemma RequestDecision(g: Group, from: User, key: string, now: int)
    requires g.meta.Some?
    ensures var welcome := ProperKey(key) && key == g.meta.value.key && !Barred(g, from, now);
            DecideJoin(g.meta.value.mode, ValidKey(key) && key == g.meta.value.key, from in g.bans, IsSuspended(g, from, now), from in g.roster)
            == if welcome && (from in g.roster || g.meta.value.mode == Open) then Decision.Admit
               else if welcome && g.meta.value.mode == Approval then Decision.Queue else Decision.Deny
  {
    KeysAreProper(key);
    hide ValidKey, ProperKey;
  }

  /** Nobody but the owner answers. */
  lemma RequestElsewhere(g: Group, next: Sid, me: User, from: User, key: string, env: Env)
    requires !Owns(g, me)
    ensures HandleJoin(g, next, me, from, key, env) == Effect(g, next, [])
  {
  }

  // ---- Commands of the owner ----

  lemma AdmissionOutcome(g: Group, next: Sid, me: User, who: User, env: Env)
    requires g.outbound.Some? && g.meta.Some?
    ensures var e := AdmitMember(g, next, me, who, env);
            && e.g == g.(roster := g.roster + {who}, requests := g.requests - {who},
                         outbound := Some(Sender(g.outbound.value.sid, g.outbound.value.index + 1)),
                         lines := g.lines + [Notice(Joined, who)])
            && |e.out| == 2 && e.next == next
  {
    var g1 := g.(roster := g.roster + {who}, requests := g.requests - {who});
    BroadcastPlays(g1, next, me, Event(Joined, who, None, None), env);
    BroadcastOnlySpeaks(g1, next, me, Event(Joined, who, None, None), env);
    hide Broadcast;
  }

  lemma ModerationOutcome(g: Group, next: Sid, me: User, ev: Event, env: Env)
    requires g.outbound.Some? && g.meta.Some?
    ensures var e := Moderate(g, next, me, ev, env);
            && e.g == g.(roster := g.roster - {ev.who}, inbound := g.inbound - {ev.who}, outbound := Some(Sender(next, 0)),
                         lines := g.lines + [Notice(ev.kind, ev.who)])
            && |e.out| == 2 && e.next == next + 1
  {
    BroadcastPlays(g, next, me, ev, env);
    BroadcastOnlySpeaks(g, next, me, ev, env);
    hide Broadcast;
  }

  /** The rows after a command of the owner. What it sends is the subject of `StepIsMove`. */
  ghost predicate Commanded(g: Group, h: Group, next: Sid, me: User, cmd: Command, now: int)
    requires g.meta.Some? && g.outbound.Some?
  {
    var advanced := Some(Sender(g.outbound.value.sid, g.outbound.value.index + 1));
    match cmd
    case Invite(u) => h == if u == me || Barred(g, u, now) then g else Seated(g, u, now, advanced)
    case Accept(u) => h == if u !in g.requests || Barred(g, u, now) then g else Seated(g, u, now, advanced)
    case Remove(u) => h == if u == me then g else Expelled(g, u, Removed, next)
    case Ban(u) => h == if u == me then g else Expelled(g, u, Banned, next).(bans := g.bans + {u})
    case Unban(u) => h == g.(bans := g.bans - {u})
    case Suspend(u, d) =>
      h == if u == me || d.None? || d.value <= 0 then g else Expelled(g, u, Suspended, next).(suspended := g.suspended[u := now + d.value])
    case Unsuspend(u) => h == g.(suspended := g.suspended - {u})
    case SetAccess(mode) =>
      h == if !ProperMode(mode) then g
           else g.(meta := Some(g.meta.value.(mode := mode)), outbound := advanced, lines := g.lines + [Notice(Access, Nobody)])
    case Say(plain) => h == if !g.chat then g else g.(outbound := advanced, lines := g.lines + [Said(me, plain)])
    case Leave(_) => h == if !g.chat then g else NO_GROUP
  }

  function Seated(g: Group, u: User, now: int, outbound: Option<Sender>): Group {
    g.(roster := g.roster + {u}, requests := g.requests - {u}, suspended := Lapsed(g, u, now), outbound := outbound,
       lines := g.lines + [Notice(Joined, u)])
  }

  function Expelled(g: Group, u: User, kind: Kind, next: Sid): Group {
    g.(roster := g.roster - {u}, inbound := g.inbound - {u}, outbound := Some(Sender(next, 0)), lines := g.lines + [Notice(kind, u)])
  }

  lemma SeatingOutcome(g: Group, next: Sid, me: User, cmd: Command, env: Env)
    requires Owns(g, me) && g.outbound.Some? && (cmd.Invite? || cmd.Accept?)
    ensures Commanded(g, Execute(g, next, me, cmd, env).g, next, me, cmd, env.now)
  {
    AdmissionOutcome(Expire(g, cmd.user, env.now), next, me, cmd.user, env);
    hide AdmitMember;
  }

  lemma ExpulsionOutcome(g: Group, next: Sid, me: User, cmd: Command, env: Env)
    requires Owns(g, me) && g.outbound.Some? && (cmd.Remove? || cmd.Ban? || cmd.Suspend?)
    ensures Commanded(g, Execute(g, next, me, cmd, env).g, next, me, cmd, env.now)
  {
    hide Moderate;
    match cmd {
      case Remove(u) => ModerationOutcome(g, next, me, Event(Removed, u, None, None), env);
      case Ban(u) => ModerationOutcome(g.(bans := g.bans + {u}), next, me, Event(Banned, u, None, None), env);
      case Suspend(u, d) =>
        if d.Some? {
          var until := env.now + d.value;
          ModerationOutcome(g.(suspended := g.suspended[u := until]), next, me, Event(Suspended, u, None, Some(until)), env);
        }
    }
  }

  /** Every command of an owner with a session leaves exactly the rows it should. */
  lemma CommandOutcome(g: Group, next: Sid, me: User, cmd: Command, env: Env)
    requires Owns(g, me) && g.outbound.Some?
    ensures Commanded(g, Execute(g, next, me, cmd, env).g, next, me, cmd, env.now)
  {
    if cmd.Invite? || cmd.Accept? {
      hide Execute, Commanded;
      SeatingOutcome(g, next, me, cmd, env);
    } else if cmd.Remove? || cmd.Ban? || cmd.Suspend? {
      hide Execute, Commanded;
      ExpulsionOutcome(g, next, me, cmd, env);
    } else if cmd.SetAccess? {
      var ruled := g.(meta := Some(g.meta.value.(mode := cmd.mode)));
      BroadcastPlays(ruled, next, me, Event(Access, Nobody, Some(cmd.mode), None), env);
      BroadcastOnlySpeaks(ruled, next, me, Event(Access, Nobody, Some(cmd.mode), None), env);
      hide Broadcast, AdmitMember, Moderate;
    } else {
      hide Broadcast, AdmitMember, Moderate, Distribute;
    }
  }

  // ---- Commands of anybody ----

  /** What anybody says: with or without a session to begin with, one line here, one message to everybody
      else on the roster under the session's next number, and the share before it if the session is new. */
  lemma SayOutcome(g: Group, next: Sid, me: User, plain: Plain, env: Env)
    requires g.chat
    ensures var e := Execute(g, next, me, Say(plain), env);
            var s := if g.outbound.Some? then g.outbound.value else Sender(next, 0);
            && e.g == g.(outbound := Some(Sender(s.sid, s.index + 1)), lines := g.lines + [Said(me, plain)])
            && e.next == (if g.outbound.Some? then next else next + 1)
            && |e.out| == (if g.outbound.Some? then 1 else 2)
            && e.out[|e.out| - 1] == Megolm(g.roster - {me}, Message, Cipher(s.sid, s.index, plain))
            && (g.outbound.None? ==>
                  && e.out[0].KeyShare? && e.out[0].to == g.roster - {me} - env.skip
                  && e.out[0].share.session == Some(SessionKey(next, 0)) && e.out[0].share.members == g.roster
                  && (if g.meta.Some? then e.out[0].share.owner == g.meta.value.owner && e.out[0].share.mode == g.meta.value.mode
                                           && e.out[0].share.key == g.meta.value.key
                      else e.out[0].share.owner == Nobody && e.out[0].share.mode == Open && e.out[0].share.key == ""))
  {
  }

  /** Leaving erases the group; if connected, the genuine notice goes to everybody else on the roster first. */
  lemma DepartureOutcome(g: Group, next: Sid, me: User, connected: bool, env: Env)
    requires g.chat
    ensures var e := Execute(g, next, me, Leave(connected), env);
            var s := if g.outbound.Some? then g.outbound.value else Sender(next, 0);
            && e.g == NO_GROUP
            && (connected ==> e.out != [] && e.out[|e.out| - 1] == Megolm(g.roster - {me}, System, Cipher(s.sid, s.index, Sentinel)))
            && (!connected ==> e.out == [])
  {
  }

  /** Governing is the owner's alone, and without the group nothing is said. */
  lemma NothingToCommand(g: Group, next: Sid, me: User, cmd: Command, env: Env)
    requires if cmd.Say? || cmd.Leave? then !g.chat else !Owns(g, me)
    ensures Execute(g, next, me, cmd, env) == Effect(g, next, [])
  {
  }

  /** A new group: everybody on the roster, the founder owner, the session shared with all others reachable. */
  lemma FoundingOutcome(me: User, members: set<User>, mode: Mode, key: string, env: Env)
    ensures Create(me, members, mode, key, env)
            == Effect(Group(true, members + {me}, Some(Meta(me, mode, key)), {}, map[], {}, Some(Sender(0, 0)), map[], map[], []), 1,
                      [KeyShare(members - {me} - env.skip, Share(Some(SessionKey(0, 0)), members + {me}, me, mode, key))])
  {
    assert (members + {me}) - {me} - env.skip == members - {me} - env.skip;
  }
}
