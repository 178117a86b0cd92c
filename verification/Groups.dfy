/** One group as one client's vault sees it, and what each client handler does to it.

    A `Group` gathers the rows that the vault's tables hold for one group id. Every handler is a
    function from the rows before to an `Effect`: the rows after, and the frames it sends. Olm
    messages are authenticated, so a key share carries its true sender; Megolm frames carry a
    symbolic ciphertext, while their sender and tag are whatever the relay says they are. */
module Groups {
  import opened Wrappers
  import opened Text

  /** A username; `Nobody` is the empty name, which stands for an unknown owner. */
  datatype User = Nobody | User(name: string)

  type Sid = int

  // ---- What travels ----

  datatype Mode = Open | Approval | InviteOnly | UnknownMode(text: string)

  datatype Kind = Joined | Removed | Banned | Suspended | Access | UnknownKind(text: string)

  datatype Event = Event(kind: Kind, who: User, mode: Option<Mode>, until: Option<int>)

  /** A Megolm plaintext: the leave sentinel, an event, or typed text (which may itself happen to
      parse as an event). A user who types exactly the sentinel sends `Sentinel`. */
  datatype Plain = Sentinel | Control(event: Event) | Chat(text: string, parsed: Option<Event>)

  function AsEvent(p: Plain): Option<Event> {
    match p
    case Sentinel => None
    case Control(event) => Some(event)
    case Chat(_, parsed) => parsed
  }

  datatype Cipher = Cipher(sid: Sid, index: int, plain: Plain)

  /** An exported session key opens the messages of its session from `first` on. */
  datatype SessionKey = SessionKey(sid: Sid, first: int)

  /** Our own outbound session: the next message gets number `index`. */
  datatype Sender = Sender(sid: Sid, index: int)

  /** A group-key share; `session` is `None` when the key inside cannot be imported. */
  datatype Share = Share(session: Option<SessionKey>, members: set<User>, owner: User, mode: Mode, key: string)

  datatype Tag = Message | System | GroupEvent

  datatype Packet =
    | KeyShare(to: set<User>, share: Share)
    | Megolm(to: set<User>, tag: Tag, cipher: Cipher)
    | Denial(to: set<User>)

  /** A frame handed to the processor; a key share that does not parse carries `None`. */
  datatype Frame =
    | ShareIn(from: User, content: Option<Share>)
    | MegolmIn(from: User, tag: Tag, cipher: Cipher)
    | JoinIn(from: User, key: string)
    | DeniedIn(from: User)

  /** A packet as it arrives. */
  function FrameOf(from: User, p: Packet): Frame {
    match p
    case KeyShare(_, s) => ShareIn(from, Some(s))
    case Megolm(_, tag, c) => MegolmIn(from, tag, c)
    case Denial(_) => DeniedIn(from)
  }

  // ---- What is stored ----

  datatype Meta = Meta(owner: User, mode: Mode, key: string)

  datatype Line = Said(from: User, plain: Plain) | Notice(kind: Kind, who: User) | Requested(who: User) | Gone(who: User)

  datatype Group = Group(
    chat: bool,
    roster: set<User>,
    meta: Option<Meta>,
    bans: set<User>,
    suspended: map<User, int>,
    requests: set<User>,
    outbound: Option<Sender>,
    inbound: map<User, SessionKey>,
    seen: map<(User, Sid), int>,
    lines: seq<Line>)

  const NO_GROUP := Group(false, {}, None, {}, map[], {}, None, map[], map[], [])

  /** What the handler finds around it: the clock, the peers no Olm session can be opened to (they
      have no one-time key left and are skipped), and whether the invite key of an arriving share
      already belongs to another group of this vault. */
  datatype Env = Env(now: int, skip: set<User>, keyTaken: bool)

  /** `next` is the first session id this client has not minted yet. */
  datatype Effect = Effect(g: Group, next: Sid, out: seq<Packet>)

  predicate ValidKey(key: string) {
    |key| == 8 && forall i :: 0 <= i < 8 ==> Alphanumeric(key[i])
  }

  predicate ValidMode(m: Mode) {
    !m.UnknownMode?
  }

  /** The recorded owner is known and is `u`. */
  predicate OwnedBy(g: Group, u: User) {
    g.meta.Some? && g.meta.value.owner != Nobody && g.meta.value.owner == u
  }

  // ---- vault.rs ----

  predicate IsSuspended(g: Group, u: User, now: int) {
    u in g.suspended && g.suspended[u] > now
  }

  /** Asking whether `u` is suspended deletes a suspension that has run out. */
  function Expire(g: Group, u: User, now: int): Group {
    if IsSuspended(g, u, now) then g else g.(suspended := g.suspended - {u})
  }

  predicate Fresh(g: Group, from: User, c: Cipher) {
    (from, c.sid) in g.seen ==> c.index > g.seen[(from, c.sid)]
  }

  function Record(g: Group, from: User, c: Cipher): Group {
    g.(seen := g.seen[(from, c.sid) := c.index])
  }

  // ---- net.rs: frames that arrive ----

  /** We hold the sender's session and it opens this message. */
  predicate Opens(g: Group, from: User, c: Cipher) {
    from in g.inbound && g.inbound[from].sid == c.sid && g.inbound[from].first <= c.index
  }

  /** Whether a share from `from` speaks for the group: a new group believes a sender that names
      itself owner, a known one only its recorded owner. */
  predicate OwnerShare(g: Group, from: User, s: Share) {
    if g.chat then OwnedBy(g, from) else g.meta.None? && s.owner != Nobody && s.owner == from
  }

  /** What an owner's share says: everybody it lists is a member, and, under a proper key that no other
      group has, mode and key are as stated. */
  function Adopt(g: Group, from: User, s: Share, env: Env): Group {
    g.(chat := true, roster := g.roster + s.members,
       meta := if ValidKey(s.key) && !env.keyTaken
               then Some(Meta(from, if ValidMode(s.mode) then s.mode else Open, s.key)) else g.meta)
  }

  function HandleShare(g: Group, from: User, s: Share, env: Env): Group {
    if from in g.bans || IsSuspended(g, from, env.now) then g
    else
      var g1 := Expire(g, from, env.now);
      var owner := OwnerShare(g, from, s);
      if (!owner && (!g.chat || from !in g.roster)) || s.session.None? then g1
      else
        var g2 := g1.(inbound := g1.inbound[from := s.session.value]);
        if owner then Adopt(g2, from, s, env) else g2
  }

  function HandleMessage(g: Group, from: User, c: Cipher): Group {
    if !Opens(g, from, c) || !Fresh(g, from, c) then g
    else Record(g, from, c).(lines := g.lines + [Said(from, c.plain)])
  }

  function HandleSystem(g: Group, from: User, c: Cipher): Group {
    if !Opens(g, from, c) || !c.plain.Sentinel? || !Fresh(g, from, c) then g
    else Record(g, from, c).(roster := g.roster - {from}, lines := g.lines + [Gone(from)])
  }

  /** Our own removal: every row of the group goes. */
  predicate Expels(ev: Event, me: User) {
    ev.who == me && (ev.kind.Removed? || ev.kind.Banned?)
  }

  /** The event takes somebody else off the roster. */
  predicate Evicts(ev: Event, me: User) {
    ev.who != me && (ev.kind.Removed? || ev.kind.Banned? || ev.kind.Suspended?)
  }

  /** The owner's event, table by table. */
  function ApplyEvent(g: Group, me: User, ev: Event): Group {
    if Expels(ev, me) then NO_GROUP
    else g.(
      roster := if ev.kind.Joined? then g.roster + {ev.who} else if Evicts(ev, me) then g.roster - {ev.who} else g.roster,
      inbound := if Evicts(ev, me) then g.inbound - {ev.who} else g.inbound,
      bans := if ev.kind.Joined? then g.bans - {ev.who}
              else if Evicts(ev, me) && ev.kind.Banned? then g.bans + {ev.who} else g.bans,
      suspended := if ev.kind.Joined? then g.suspended - {ev.who}
                   else if Evicts(ev, me) && ev.kind.Suspended? && ev.until.Some? then g.suspended[ev.who := ev.until.value]
                   else g.suspended,
      meta := if ev.kind.Access? && g.meta.Some? && ev.mode.Some? && ValidMode(ev.mode.value)
              then Some(g.meta.value.(mode := ev.mode.value)) else g.meta)
  }

  /** Off the roster, and their inbound session forgotten. */
  function Drop(g: Group, u: User): Group {
    g.(roster := g.roster - {u}, inbound := g.inbound - {u})
  }

  function HandleEvent(g: Group, me: User, from: User, c: Cipher): Group {
    if !Opens(g, from, c) || !Fresh(g, from, c) then g
    else
      var g1 := Record(g, from, c);
      if !OwnedBy(g, from) || AsEvent(c.plain).None? then g1
      else
        var ev := AsEvent(c.plain).value;
        var g2 := ApplyEvent(g1, me, ev);
        if Expels(ev, me) || ev.kind.UnknownKind? then g2
        else g2.(lines := g.lines + [Notice(ev.kind, ev.who)])
  }

  // ---- net.rs: frames that leave ----

  function ShareOf(g: Group, s: Sender): Share {
    match g.meta
    case Some(m) => Share(Some(SessionKey(s.sid, s.index)), g.roster, m.owner, m.mode, m.key)
    case None => Share(Some(SessionKey(s.sid, s.index)), g.roster, Nobody, Open, "")
  }

  function Distribute(g: Group, me: User, to: set<User>, s: Sender, env: Env): seq<Packet> {
    [KeyShare(to - {me} - env.skip, ShareOf(g, s))]
  }

  /** Our outbound session, minted if we never spoke; `audience` gets the key of a minted one. */
  function Speaking(g: Group, next: Sid, me: User, audience: set<User>, env: Env): Effect {
    if g.outbound.Some? then Effect(g, next, [])
    else
      var s := Sender(next, 0);
      Effect(g.(outbound := Some(s)), next + 1, Distribute(g, me, audience, s, env))
  }

  /** Encrypt one plaintext for the group and send it to `to`. */
  function Transmit(e: Effect, to: set<User>, tag: Tag, plain: Plain): Effect
    requires e.g.outbound.Some?
  {
    var s := e.g.outbound.value;
    Effect(e.g.(outbound := Some(s.(index := s.index + 1))), e.next,
           e.out + [Megolm(to, tag, Cipher(s.sid, s.index, plain))])
  }

  function Broadcast(g: Group, next: Sid, me: User, ev: Event, env: Env): Effect {
    Transmit(Speaking(g, next, me, g.roster, env), g.roster - {me}, GroupEvent, Control(ev))
  }

  datatype Decision = Admit | Queue | Deny

  function DecideJoin(mode: Mode, keyOk: bool, banned: bool, suspended: bool, member: bool): Decision {
    if !keyOk || banned || suspended then Deny
    else if member then Admit
    else match mode
      case Open => Admit
      case Approval => Queue
      case InviteOnly => Deny
      case UnknownMode(_) => Deny
  }

  function AdmitMember(g: Group, next: Sid, me: User, who: User, env: Env): Effect {
    var g1 := g.(roster := g.roster + {who}, requests := g.requests - {who});
    var e1 := Speaking(g1, next, me, {}, env);
    var share := Distribute(g1, me, {who}, e1.g.outbound.value, env);
    var e2 := Broadcast(e1.g, e1.next, me, Event(Joined, who, None, None), env);
    Effect(e2.g.(lines := g.lines + [Notice(Joined, who)]), e2.next, e1.out + share + e2.out)
  }

  function HandleJoin(g: Group, next: Sid, me: User, from: User, key: string, env: Env): Effect {
    if !OwnedBy(g, me) then Effect(g, next, [])
    else
      var g1 := Expire(g, from, env.now);
      match DecideJoin(g.meta.value.mode, ValidKey(key) && key == g.meta.value.key,
                       from in g.bans, IsSuspended(g, from, env.now), from in g.roster)
      case Admit => AdmitMember(g1, next, me, from, env)
      case Queue => Effect(g1.(requests := g.requests + {from}, lines := g.lines + [Requested(from)]), next, [])
      case Deny => Effect(g1, next, [Denial({from} - env.skip)])
  }

  function Receive(g: Group, next: Sid, me: User, f: Frame, env: Env): Effect {
    match f
    case ShareIn(from, None) => Effect(g, next, [])
    case ShareIn(from, Some(s)) => Effect(HandleShare(g, from, s, env), next, [])
    case MegolmIn(from, Message, c) => Effect(HandleMessage(g, from, c), next, [])
    case MegolmIn(from, System, c) => Effect(HandleSystem(g, from, c), next, [])
    case MegolmIn(from, GroupEvent, c) => Effect(HandleEvent(g, me, from, c), next, [])
    case JoinIn(from, key) => HandleJoin(g, next, me, from, key, env)
    case DeniedIn(_) => Effect(g, next, [])
  }

  // ---- session.rs: commands ----

  /** Remove, ban and suspend: tell everyone with the current key, drop the target, rotate the key. */
  function Moderate(g: Group, next: Sid, me: User, ev: Event, env: Env): Effect {
    var e := Broadcast(g, next, me, ev, env);
    var s := Sender(e.next, 0);
    var g1 := Drop(e.g, ev.who).(outbound := Some(s));
    Effect(g1.(lines := g.lines + [Notice(ev.kind, ev.who)]), e.next + 1,
           e.out + Distribute(g1, me, g1.roster, s, env))
  }

  datatype Command =
    | Invite(user: User)
    | Accept(user: User)
    | Remove(user: User)
    | Ban(user: User)
    | Unban(user: User)
    | Suspend(user: User, duration: Option<int>)
    | Unsuspend(user: User)
    | SetAccess(mode: Mode)
    | Say(plain: Plain)
    | Leave(connected: bool)

  /** The commands reserved to the recorded owner. */
  function Govern(g: Group, next: Sid, me: User, cmd: Command, env: Env): Effect
    requires !cmd.Say? && !cmd.Leave?
  {
    var nothing := Effect(g, next, []);
    if !OwnedBy(g, me) then nothing
    else match cmd
      case Invite(u) =>
        if u == me || u in g.bans then nothing
        else if IsSuspended(g, u, env.now) then nothing
        else AdmitMember(Expire(g, u, env.now), next, me, u, env)
      case Accept(u) =>
        if u !in g.requests || u in g.bans then nothing
        else if IsSuspended(g, u, env.now) then nothing
        else AdmitMember(Expire(g, u, env.now), next, me, u, env)
      case Remove(u) =>
        if u == me then nothing else Moderate(g, next, me, Event(Removed, u, None, None), env)
      case Ban(u) =>
        if u == me then nothing
        else Moderate(g.(bans := g.bans + {u}), next, me, Event(Banned, u, None, None), env)
      case Unban(u) => Effect(g.(bans := g.bans - {u}), next, [])
      case Suspend(u, duration) =>
        if u == me || duration.None? || duration.value <= 0 then nothing
        else
          var until := env.now + duration.value;
          Moderate(g.(suspended := g.suspended[u := until]), next, me, Event(Suspended, u, None, Some(until)), env)
      case Unsuspend(u) => Effect(g.(suspended := g.suspended - {u}), next, [])
      case SetAccess(mode) =>
        if !ValidMode(mode) then nothing
        else
          var e := Broadcast(g.(meta := Some(g.meta.value.(mode := mode))), next, me, Event(Access, Nobody, Some(mode), None), env);
          e.(g := e.g.(lines := g.lines + [Notice(Access, Nobody)]))
  }

  function Execute(g: Group, next: Sid, me: User, cmd: Command, env: Env): Effect {
    match cmd
    case Say(plain) =>
      if !g.chat then Effect(g, next, [])
      else
        var e := Transmit(Speaking(g, next, me, g.roster, env), g.roster - {me}, Message, plain);
        e.(g := e.g.(lines := g.lines + [Said(me, plain)]))
    case Leave(connected) =>
      if !g.chat then Effect(g, next, [])
      else if !connected then Effect(NO_GROUP, next, [])
      else
        var e := Transmit(Speaking(g, next, me, g.roster, env), g.roster - {me}, System, Sentinel);
        e.(g := NO_GROUP)
    case _ => Govern(g, next, me, cmd, env)
  }

  /** `create_group`: mint a session, seat everybody, share the key. */
  function Create(me: User, members: set<User>, mode: Mode, key: string, env: Env): Effect {
    var s := Sender(0, 0);
    var g := NO_GROUP.(chat := true, roster := members + {me}, meta := Some(Meta(me, mode, key)), outbound := Some(s));
    Effect(g, 1, Distribute(g, me, g.roster, s, env))
  }

  // ---- What the composite handlers come to ----

  /** Everything of a group but its outbound session and its lines. */
  predicate SameButSpeech(g: Group, h: Group) {
    h == g.(outbound := h.outbound, lines := h.lines)
  }

  lemma BroadcastOnlySpeaks(g: Group, next: Sid, me: User, ev: Event, env: Env)
    ensures SameButSpeech(g, Broadcast(g, next, me, ev, env).g)
    ensures Broadcast(g, next, me, ev, env).g.outbound.Some?
  {
  }

  lemma AdmitMemberSeats(g: Group, next: Sid, me: User, who: User, env: Env)
    ensures SameButSpeech(g.(roster := g.roster + {who}, requests := g.requests - {who}),
                          AdmitMember(g, next, me, who, env).g)
    ensures AdmitMember(g, next, me, who, env).g.outbound.Some?
  {
    hide Distribute;
  }

  lemma ModerateDrops(g: Group, next: Sid, me: User, ev: Event, env: Env)
    ensures SameButSpeech(Drop(g, ev.who), Moderate(g, next, me, ev, env).g)
    ensures Moderate(g, next, me, ev, env).g.outbound.Some?
  {
    BroadcastOnlySpeaks(g, next, me, ev, env);
    hide Broadcast, Distribute;
  }

  // ---- Runs of one client ----

  /** One atomic handler: a frame is processed, or a command is carried out. */
  datatype Step = Recv(frame: Frame, env: Env) | Do(cmd: Command, env: Env)

  function Apply(g: Group, next: Sid, me: User, step: Step): Effect {
    match step
    case Recv(frame, env) => Receive(g, next, me, frame, env)
    case Do(cmd, env) => Execute(g, next, me, cmd, env)
  }

  function Run(g: Group, next: Sid, me: User, steps: seq<Step>): Effect {
    if steps == [] then Effect(g, next, [])
    else
      var before := Run(g, next, me, steps[..|steps| - 1]);
      var e := Apply(before.g, before.next, me, steps[|steps| - 1]);
      Effect(e.g, e.next, before.out + e.out)
  }
}
