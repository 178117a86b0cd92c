/** The owner's side of a group, reduced to its essentials.

    Whatever the relay delivers and whatever the owner commands, each handler of the owner's client
    makes one of seven moves on the roster, the mode and the outbound session (`StepIsMove`). The
    results about keys and about replication are proved over sequences of moves. */
module GroupOwner {
  import opened Wrappers
  import opened Groups

  /** What the owner's vault says about the group: its current session is `sid`, whose next message
      gets number `index`. */
  datatype Chair = Chair(roster: set<User>, mode: Mode, key: string, sid: Sid, index: int)

  datatype Move =
    | Quiet
    | Refuse(who: User)
    | Depart(who: User)
    | Seat(who: User)
    | Speak(plain: Plain)
    | Rule(mode: Mode)
    | Rotate(event: Event)

  function ChairOf(g: Group): Chair
    requires g.meta.Some? && g.outbound.Some?
  {
    Chair(g.roster, g.meta.value.mode, g.meta.value.key, g.outbound.value.sid, g.outbound.value.index)
  }

  function KeyOf(c: Chair, me: User): Share {
    Share(Some(SessionKey(c.sid, c.index)), c.roster, me, c.mode, c.key)
  }

  function Sealed(c: Chair, me: User, tag: Tag, plain: Plain): Packet {
    Megolm(c.roster - {me}, tag, Cipher(c.sid, c.index, plain))
  }

  function Announcement(who: User): Plain {
    Control(Event(Joined, who, None, None))
  }

  function Play(c: Chair, me: User, move: Move, skip: set<User>): (Chair, seq<Packet>) {
    match move
    case Quiet => (c, [])
    case Refuse(who) => (c, [Denial({who} - skip)])
    case Depart(who) => (c.(roster := c.roster - {who}), [])
    case Seat(who) =>
      var seated := c.(roster := c.roster + {who});
      (seated.(index := c.index + 1),
       [KeyShare({who} - {me} - skip, KeyOf(seated, me)), Sealed(seated, me, GroupEvent, Announcement(who))])
    case Speak(plain) => (c.(index := c.index + 1), [Sealed(c, me, Message, plain)])
    case Rule(mode) =>
      (c.(mode := mode, index := c.index + 1),
       [Sealed(c, me, GroupEvent, Control(Event(Access, Nobody, Some(mode), None)))])
    case Rotate(event) =>
      var rotated := c.(roster := c.roster - {event.who}, sid := c.sid + 1, index := 0);
      (rotated,
       [Sealed(c, me, GroupEvent, Control(event)), KeyShare(rotated.roster - {me} - skip, KeyOf(rotated, me))])
  }

  /** Steps of an owner that stays: `Leave` is not among the commands. Olm frames name their true
      sender, who is somebody else; Megolm frames may carry any name, the owner's own included. */
  predicate Staying(me: User, step: Step) {
    match step
    case Recv(frame, _) => frame.from != me || frame.MegolmIn?
    case Do(cmd, _) => !cmd.Leave?
  }

  predicate Governs(g: Group, next: Sid, me: User) {
    && g.chat && OwnedBy(g, me) && ValidMode(g.meta.value.mode)
    && g.outbound.Some? && next == g.outbound.value.sid + 1
    && me in g.roster && me !in g.requests && me !in g.inbound && g.roster !! g.bans
  }

  function MoveOf(g: Group, me: User, step: Step): Move
    requires g.meta.Some?
  {
    match step
    case Recv(ShareIn(_, _), _) => Quiet
    case Recv(DeniedIn(_), _) => Quiet
    case Recv(MegolmIn(from, tag, c), _) =>
      if tag.System? && c.plain.Sentinel? && Opens(g, from, c) && Fresh(g, from, c) then Depart(from) else Quiet
    case Recv(JoinIn(from, key), env) =>
      (match DecideJoin(g.meta.value.mode, ValidKey(key) && key == g.meta.value.key,
                        from in g.bans, IsSuspended(g, from, env.now), from in g.roster)
       case Admit => Seat(from)
       case Queue => Quiet
       case Deny => Refuse(from))
    case Do(cmd, env) =>
      match cmd
      case Invite(u) => if u == me || u in g.bans || IsSuspended(g, u, env.now) then Quiet else Seat(u)
      case Accept(u) => if u !in g.requests || u in g.bans || IsSuspended(g, u, env.now) then Quiet else Seat(u)
      case Remove(u) => if u == me then Quiet else Rotate(Event(Removed, u, None, None))
      case Ban(u) => if u == me then Quiet else Rotate(Event(Banned, u, None, None))
      case Unban(_) => Quiet
      case Suspend(u, d) =>
        if u == me || d.None? || d.value <= 0 then Quiet
        else Rotate(Event(Suspended, u, None, Some(env.now + d.value)))
      case Unsuspend(_) => Quiet
      case SetAccess(mode) => if ValidMode(mode) then Rule(mode) else Quiet
      case Say(plain) => Speak(plain)
      case Leave(_) => Quiet
  }

  /** A move an owner can make: it concerns somebody else, and rotations remove, ban or suspend. */
  predicate Legal(c: Chair, me: User, move: Move) {
    match move
    case Quiet => true
    case Refuse(_) => true
    case Depart(who) => who != me
    case Seat(who) => who != me
    case Speak(_) => true
    case Rule(mode) => ValidMode(mode)
    case Rotate(event) => event.who != me && (event.kind.Removed? || event.kind.Banned? || event.kind.Suspended?)
  }

  /** `e` is a governing owner again, and is what `move` comes to. */
  ghost predicate Realizes(g: Group, me: User, move: Move, skip: set<User>, e: Effect)
    requires g.meta.Some? && g.outbound.Some?
  {
    && Governs(e.g, e.next, me)
    && Legal(ChairOf(g), me, move)
    && ChairOf(e.g) == Play(ChairOf(g), me, move, skip).0
    && e.out == Play(ChairOf(g), me, move, skip).1
  }

  lemma BroadcastPlays(g: Group, next: Sid, me: User, ev: Event, env: Env)
    requires g.outbound.Some? && g.meta.Some?
    ensures var e := Broadcast(g, next, me, ev, env);
            && e.next == next && e.g.meta == g.meta && e.g.roster == g.roster
            && e.g.outbound == Some(Sender(g.outbound.value.sid, g.outbound.value.index + 1))
            && e.out == [Sealed(ChairOf(g), me, GroupEvent, Control(ev))]
  {
  }

  lemma AdmitPlays(g: Group, next: Sid, me: User, who: User, env: Env)
    requires Governs(g, next, me) && who != me && who !in g.bans
    ensures Realizes(g, me, Seat(who), env.skip, AdmitMember(g, next, me, who, env))
    ensures AdmitMember(g, next, me, who, env).g.bans == g.bans
  {
    var g1 := g.(roster := g.roster + {who}, requests := g.requests - {who});
    AdmitMemberSeats(g, next, me, who, env);
    BroadcastPlays(g1, next, me, Event(Joined, who, None, None), env);
    hide Broadcast, ValidMode;
    assert AdmitMember(g, next, me, who, env).out
        == [KeyShare({who} - {me} - env.skip, ShareOf(g1, g.outbound.value)),
            Sealed(ChairOf(g1), me, GroupEvent, Announcement(who))];
  }

  lemma ModeratePlays(g: Group, marked: Group, next: Sid, me: User, ev: Event, env: Env)
    requires Governs(g, next, me) && Legal(ChairOf(g), me, Rotate(ev))
    requires marked == g.(bans := marked.bans, suspended := marked.suspended) && marked.bans <= g.bans + {ev.who}
    ensures Realizes(g, me, Rotate(ev), env.skip, Moderate(marked, next, me, ev, env))
    ensures Moderate(marked, next, me, ev, env).g.bans == marked.bans
  {
    ModerateDrops(marked, next, me, ev, env);
    BroadcastPlays(marked, next, me, ev, env);
    hide Broadcast, ValidMode;
    var s := Sender(next, 0);
    var dropped := Drop(marked, ev.who).(outbound := Some(s));
    assert Moderate(marked, next, me, ev, env).out
        == [Sealed(ChairOf(g), me, GroupEvent, Control(ev)),
            KeyShare(dropped.roster - {me} - env.skip, ShareOf(dropped, s))];
  }

  lemma JoinIsMove(g: Group, next: Sid, me: User, from: User, key: string, env: Env)
    requires Governs(g, next, me) && from != me
    ensures Realizes(g, me, MoveOf(g, me, Recv(JoinIn(from, key), env)), env.skip, HandleJoin(g, next, me, from, key, env))
    ensures HandleJoin(g, next, me, from, key, env).g.bans == g.bans
  {
    hide AdmitMember, ValidMode, ValidKey;
    if DecideJoin(g.meta.value.mode, ValidKey(key) && key == g.meta.value.key, from in g.bans,
                  IsSuspended(g, from, env.now), from in g.roster).Admit? {
      AdmitPlays(Expire(g, from, env.now), next, me, from, env);
      ExpiryIsQuiet(g, next, me, from, env);
      hide DecideJoin, Realizes, Governs, Expire;
    } else {
      hide DecideJoin;
    }
  }

  /** Letting a suspension run out changes nothing that a move depends on. */
  lemma ExpiryIsQuiet(g: Group, next: Sid, me: User, u: User, env: Env)
    requires Governs(g, next, me)
    ensures Governs(Expire(g, u, env.now), next, me) && Expire(g, u, env.now).bans == g.bans
    ensures forall move, skip, e :: Realizes(Expire(g, u, env.now), me, move, skip, e) ==> Realizes(g, me, move, skip, e)
  {
    hide ValidMode, Legal, Play;
  }

  lemma MegolmIsMove(g: Group, next: Sid, me: User, from: User, tag: Tag, c: Cipher, env: Env)
    requires Governs(g, next, me)
    ensures var frame := MegolmIn(from, tag, c);
            && Realizes(g, me, MoveOf(g, me, Recv(frame, env)), env.skip, Receive(g, next, me, frame, env))
            && Receive(g, next, me, frame, env).g.bans == g.bans
  {
    hide HandleJoin, HandleShare, ApplyEvent, ValidMode, Fresh;
    if from == me {
      assert !Opens(g, from, c);
    }
    hide Opens;
  }

  lemma ReceiveIsMove(g: Group, next: Sid, me: User, frame: Frame, env: Env)
    requires Governs(g, next, me) && (frame.from != me || frame.MegolmIn?)
    ensures Realizes(g, me, MoveOf(g, me, Recv(frame, env)), env.skip, Receive(g, next, me, frame, env))
    ensures Receive(g, next, me, frame, env).g.bans == g.bans
  {
    hide AdmitMember, ValidMode, ValidKey;
    match frame {
      case ShareIn(from, None) =>
      case ShareIn(from, Some(s)) => hide HandleJoin;
      case MegolmIn(from, tag, c) => MegolmIsMove(g, next, me, from, tag, c, env); hide HandleEvent, HandleSystem, HandleMessage, Realizes;
      case JoinIn(from, key) => JoinIsMove(g, next, me, from, key, env); hide HandleJoin, Realizes;
      case DeniedIn(_) =>
    }
  }

  lemma SeatingIsMove(g: Group, next: Sid, me: User, cmd: Command, env: Env)
    requires Governs(g, next, me) && (cmd.Invite? || cmd.Accept?)
    ensures Realizes(g, me, MoveOf(g, me, Do(cmd, env)), env.skip, Govern(g, next, me, cmd, env))
    ensures Govern(g, next, me, cmd, env).g.bans == g.bans
  {
    hide AdmitMember, ValidMode;
    var u := cmd.user;
    if u != me && u !in g.bans {
      ExpiryIsQuiet(g, next, me, u, env);
      AdmitPlays(Expire(g, u, env.now), next, me, u, env);
    }
    hide Expire;
  }

  lemma ModerationIsMove(g: Group, next: Sid, me: User, cmd: Command, env: Env)
    requires Governs(g, next, me) && (cmd.Remove? || cmd.Ban? || cmd.Suspend?)
    ensures Realizes(g, me, MoveOf(g, me, Do(cmd, env)), env.skip, Govern(g, next, me, cmd, env))
    ensures Govern(g, next, me, cmd, env).g.bans == if cmd.Ban? && cmd.user != me then g.bans + {cmd.user} else g.bans
  {
    hide Moderate, ValidMode;
    if cmd.user != me {
      match cmd {
        case Remove(u) => ModeratePlays(g, g, next, me, Event(Removed, u, None, None), env);
        case Ban(u) => ModeratePlays(g, g.(bans := g.bans + {u}), next, me, Event(Banned, u, None, None), env);
        case Suspend(u, d) =>
          if d.Some? {
            var until := env.now + d.value;
            ModeratePlays(g, g.(suspended := g.suspended[u := until]), next, me, Event(Suspended, u, None, Some(until)), env);
          }
      }
    }
  }

  lemma CommandIsMove(g: Group, next: Sid, me: User, cmd: Command, env: Env)
    requires Governs(g, next, me) && !cmd.Leave?
    ensures Realizes(g, me, MoveOf(g, me, Do(cmd, env)), env.skip, Execute(g, next, me, cmd, env))
    ensures forall u :: u in g.bans && cmd != Unban(u) ==> u in Execute(g, next, me, cmd, env).g.bans
    ensures cmd.Ban? && cmd.user != me ==> cmd.user in Execute(g, next, me, cmd, env).g.bans
  {
    if cmd.Invite? || cmd.Accept? {
      SeatingIsMove(g, next, me, cmd, env);
      hide Govern, Realizes, MoveOf;
    } else if cmd.Remove? || cmd.Ban? || cmd.Suspend? {
      ModerationIsMove(g, next, me, cmd, env);
      hide Govern, Realizes, MoveOf;
    } else if cmd.SetAccess? {
      hide Broadcast;
      var ruled := g.(meta := Some(g.meta.value.(mode := cmd.mode)));
      BroadcastOnlySpeaks(ruled, next, me, Event(Access, Nobody, Some(cmd.mode), None), env);
      BroadcastPlays(ruled, next, me, Event(Access, Nobody, Some(cmd.mode), None), env);
    } else if cmd.Say? {
      assert Execute(g, next, me, cmd, env).out == [Sealed(ChairOf(g), me, Message, cmd.plain)];
    }
  }

  /** Every handler of a governing owner makes a legal move, and keeps it governing. */
  lemma StepIsMove(g: Group, next: Sid, me: User, step: Step)
    requires Governs(g, next, me) && Staying(me, step)
    ensures Realizes(g, me, MoveOf(g, me, step), step.env.skip, Apply(g, next, me, step))
    ensures forall u :: u in g.bans && step != Do(Unban(u), step.env) ==> u in Apply(g, next, me, step).g.bans
  {
    match step {
      case Recv(frame, env) => ReceiveIsMove(g, next, me, frame, env);
      case Do(cmd, env) => CommandIsMove(g, next, me, cmd, env);
    }
    hide Receive, Execute, MoveOf, Governs, Realizes;
  }
}
