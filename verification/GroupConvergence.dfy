/** The member's side of replication: consuming the owner's stream, amid everything else. */
module GroupConvergence {
  import opened Wrappers
  import opened Groups
  import opened GroupOwner
  import opened GroupKeys
  import opened GroupReplication

  /** What happens at a member: the owner's next frame arrives, or another frame, or the member gives a
      command of its own. */
  datatype Arrival = Next(env: Env) | Other(frame: Frame, env: Env) | Own(cmd: Command, env: Env)

  /** The member's rows, the next session id it mints, and how much of the stream it has consumed. */
  datatype Member = Member(g: Group, next: Sid, read: nat)

  function Moved(e: Effect, read: nat): Member {
    Member(e.g, e.next, read)
  }

  function Arrive(v: Member, f: Founding, m: User, inbox: seq<Entry>, a: Arrival): Member {
    match a
    case Next(env) =>
      if v.read < |inbox| then Moved(Receive(v.g, v.next, m, FrameOf(f.me, inbox[v.read].packet), env), v.read + 1) else v
    case Other(frame, env) => Moved(Receive(v.g, v.next, m, frame, env), v.read)
    case Own(cmd, env) => Moved(Execute(v.g, v.next, m, cmd, env), v.read)
  }

  function Arrivals(f: Founding, m: User, inbox: seq<Entry>, arrivals: seq<Arrival>): Member {
    if arrivals == [] then Member(NO_GROUP, 0, 0)
    else Arrive(Arrivals(f, m, inbox, arrivals[..|arrivals| - 1]), f, m, inbox, arrivals[|arrivals| - 1])
  }

  /** What may arrive in between: any Megolm frame that does not open or is not fresh, whoever it
      claims to be from; refusals and join requests, the owner's included; and any other frame of
      somebody other than the owner, except a genuine leave notice and, to a user outside the group, a
      share that claims to found it. */
  predicate Harmless(g: Group, f: Founding, frame: Frame) {
    match frame
    case MegolmIn(from, tag, c) =>
      !Opens(g, from, c) || !Fresh(g, from, c) || (from != f.me && !(tag.System? && c.plain.Sentinel?))
    case ShareIn(from, content) =>
      content.None? || (from != f.me && (g.chat || content.value.owner != from))
    case JoinIn(_, _) => true
    case DeniedIn(_) => true
  }

  /** No invite key of an arriving share collides with another group's, other frames are harmless where
      they arrive, and the member does not leave. */
  ghost predicate Admissible(f: Founding, m: User, inbox: seq<Entry>, arrivals: seq<Arrival>) {
    arrivals != [] ==>
      var front, last := arrivals[..|arrivals| - 1], arrivals[|arrivals| - 1];
      && Admissible(f, m, inbox, front)
      && match last
         case Next(env) => !env.keyTaken
         case Other(frame, _) => Harmless(Arrivals(f, m, inbox, front).g, f, frame)
         case Own(cmd, _) => !cmd.Leave?
  }

  /** The member holds the owner's session `sid`, has recorded no number of it from `next` on, and
      none of a later session. */
  ghost predicate InSession(g: Group, owner: User, sid: Sid, next: int) {
    && owner in g.inbound && g.inbound[owner].sid == sid && g.inbound[owner].first <= next
    && forall s :: (owner, s) in g.seen ==> s <= sid && (s == sid ==> g.seen[(owner, s)] < next)
  }

  ghost predicate Synced(g: Group, f: Founding, st: Status) {
    match st
    case Outside => g == NO_GROUP
    case Inside(roster, mode, sid, next) =>
      && g.chat && g.roster == roster && g.meta == Some(Meta(f.me, mode, f.key))
      && f.me !in g.bans && f.me !in g.suspended && InSession(g, f.me, sid, next)
    case Stale(sid, next) =>
      && g.chat && g.meta.Some? && g.meta.value.owner == f.me
      && f.me !in g.bans && f.me !in g.suspended && InSession(g, f.me, sid, next)
  }

  lemma ShareSyncs(g: Group, f: Founding, m: User, st: Status, e: Entry, env: Env)
    requires f.me != Nobody && ValidKey(f.key) && !env.keyTaken
    requires Synced(g, f, st) && Continues(st, f, m, e) && e.packet.KeyShare?
    ensures Synced(HandleShare(g, f.me, e.packet.share, env), f, Follow(st, m, e))
  {
    hide ValidKey, ValidMode;
  }

  /** The owner's next frame opens, is fresh, and brings the session forward. */
  lemma StreamFrameOpens(g: Group, f: Founding, m: User, st: Status, e: Entry)
    requires f.me != Nobody && e.packet.Megolm? && Synced(g, f, st) && Continues(st, f, m, e)
    ensures var c := e.packet.cipher;
            && g.chat && OwnedBy(g, f.me) && Opens(g, f.me, c) && Fresh(g, f.me, c)
            && InSession(Record(g, f.me, c), f.me, c.sid, c.index + 1)
  {
    hide RosterAfter, ModeAfter, Expels, Silences;
  }

  /** An event of the stream, applied to rows in session. */
  lemma AppliedSyncs(g: Group, h: Group, f: Founding, m: User, st: Status, e: Entry)
    requires f.me != Nobody && e.packet.Megolm? && e.packet.tag.GroupEvent?
    requires Synced(g, f, st) && Continues(st, f, m, e) && h == Record(g, f.me, e.packet.cipher)
    requires InSession(h, f.me, e.packet.cipher.sid, e.packet.cipher.index + 1)
    ensures !st.Outside? && e.packet.cipher.plain.Control?
    ensures Expels(e.packet.cipher.plain.event, m) ==> Follow(st, m, e).Outside?
    ensures !Expels(e.packet.cipher.plain.event, m) ==>
              Synced(ApplyEvent(h, m, e.packet.cipher.plain.event), f, Follow(st, m, e))
  {
    hide ValidMode;
    var ev := e.packet.cipher.plain.event;
    if !Expels(ev, m) {
      EventKeepsSession(h, f.me, m, ev, e.packet.cipher.sid, e.packet.cipher.index + 1);
    }
    hide InSession;
  }

  lemma EventKeepsSession(h: Group, owner: User, m: User, ev: Event, sid: Sid, next: int)
    requires InSession(h, owner, sid, next) && ev.who != owner && !Expels(ev, m)
    ensures InSession(ApplyEvent(h, m, ev), owner, sid, next)
  {
    hide ValidMode;
  }

  lemma SyncedIgnoresLines(g: Group, f: Founding, st: Status, lines: seq<Line>)
    requires Synced(g, f, st) && !st.Outside?
    ensures Synced(g.(lines := lines), f, st)
  {
  }

  lemma EventSyncs(g: Group, f: Founding, m: User, st: Status, e: Entry)
    requires f.me != Nobody && e.packet.Megolm? && e.packet.tag.GroupEvent?
    requires Synced(g, f, st) && Continues(st, f, m, e)
    ensures Synced(HandleEvent(g, m, f.me, e.packet.cipher), f, Follow(st, m, e))
  {
    var h := Record(g, f.me, e.packet.cipher);
    StreamFrameOpens(g, f, m, st, e);
    AppliedSyncs(g, h, f, m, st, e);
    var ev := e.packet.cipher.plain.event;
    if Expels(ev, m) {
      SyncedOutside(f);
      hide Synced, Continues, InSession;
    } else {
      FollowStays(st, m, e);
      SyncedIgnoresLines(ApplyEvent(h, m, ev), f, Follow(st, m, e), g.lines + [Notice(ev.kind, ev.who)]);
      hide Synced, Follow, Continues, ApplyEvent, InSession, Opens, Fresh, OwnedBy, Expels;
    }
  }

  lemma FollowStays(st: Status, m: User, e: Entry)
    requires !st.Outside? && e.packet.Megolm? && e.packet.tag.GroupEvent? && e.packet.cipher.plain.Control?
    requires !Expels(e.packet.cipher.plain.event, m)
    ensures !Follow(st, m, e).Outside?
  {
  }

  lemma MessageSyncs(g: Group, f: Founding, m: User, st: Status, e: Entry)
    requires f.me != Nobody && e.packet.Megolm? && e.packet.tag.Message?
    requires Synced(g, f, st) && Continues(st, f, m, e)
    ensures Synced(HandleMessage(g, f.me, e.packet.cipher), f, Follow(st, m, e))
  {
  }

  lemma NextSyncs(g: Group, next: Sid, f: Founding, m: User, st: Status, e: Entry, env: Env)
    requires f.me != Nobody && ValidKey(f.key) && !env.keyTaken
    requires Synced(g, f, st) && Continues(st, f, m, e)
    ensures Synced(Receive(g, next, m, FrameOf(f.me, e.packet), env).g, f, Follow(st, m, e))
  {
    hide Synced, Follow, HandleShare, HandleEvent, HandleMessage, HandleSystem, HandleJoin, ValidKey;
    match e.packet {
      case KeyShare(_, s) => ShareSyncs(g, f, m, st, e, env);
      case Megolm(_, Message, c) => MessageSyncs(g, f, m, st, e);
      case Megolm(_, GroupEvent, c) => EventSyncs(g, f, m, st, e);
      case Megolm(_, System, c) =>
      case Denial(_) =>
    }
  }

  // ---- What else happens ----

  lemma OtherShareKeepsSync(g: Group, f: Founding, st: Status, from: User, s: Share, env: Env)
    requires f.me != Nobody && Synced(g, f, st) && Harmless(g, f, ShareIn(from, Some(s)))
    ensures Synced(HandleShare(g, from, s, env), f, st)
  {
    hide ValidKey, ValidMode;
  }

  lemma OtherMegolmKeepsSync(g: Group, f: Founding, m: User, st: Status, from: User, tag: Tag, c: Cipher)
    requires f.me != Nobody && Synced(g, f, st) && Harmless(g, f, MegolmIn(from, tag, c))
    ensures match tag
            case Message => Synced(HandleMessage(g, from, c), f, st)
            case System => Synced(HandleSystem(g, from, c), f, st)
            case GroupEvent => Synced(HandleEvent(g, m, from, c), f, st)
  {
    hide ApplyEvent;
  }

  lemma OtherKeepsSync(g: Group, next: Sid, f: Founding, m: User, st: Status, frame: Frame, env: Env)
    requires f.me != Nobody && m != f.me && Synced(g, f, st) && Harmless(g, f, frame)
    ensures Synced(Receive(g, next, m, frame, env).g, f, st)
  {
    hide HandleShare, HandleMessage, HandleSystem, HandleEvent, Harmless;
    match frame {
      case ShareIn(from, Some(s)) => hide Synced; OtherShareKeepsSync(g, f, st, from, s, env);
      case ShareIn(from, None) =>
      case MegolmIn(from, tag, c) => hide Synced; OtherMegolmKeepsSync(g, f, m, st, from, tag, c);
      case JoinIn(_, _) =>
      case DeniedIn(_) =>
    }
  }

  /** Nothing a member may do, other than leave, touches what it has of the owner. */
  lemma OwnKeepsSync(g: Group, next: Sid, f: Founding, m: User, st: Status, cmd: Command, env: Env)
    requires f.me != Nobody && m != f.me && Synced(g, f, st) && !cmd.Leave?
    ensures Synced(Execute(g, next, m, cmd, env).g, f, st)
  {
    hide AdmitMember, Moderate, Distribute;
  }

  lemma ContinuesEverywhere(f: Founding, m: User, inbox: seq<Entry>, k: nat)
    requires ContinuesAll(Outside, f, m, inbox) && k <= |inbox|
    ensures ContinuesAll(Outside, f, m, inbox[..k])
    ensures k < |inbox| ==> Continues(FollowAll(Outside, m, inbox[..k]), f, m, inbox[k])
                            && FollowAll(Outside, m, inbox[..k + 1]) == Follow(FollowAll(Outside, m, inbox[..k]), m, inbox[k])
  {
    hide Continues, Follow;
    assert inbox == inbox[..k] + inbox[k..];
    FollowConcat(Outside, f, m, inbox[..k], inbox[k..]);
    if k < |inbox| {
      assert inbox == inbox[..k + 1] + inbox[k + 1..];
      FollowConcat(Outside, f, m, inbox[..k + 1], inbox[k + 1..]);
      assert inbox[..k + 1][..k] == inbox[..k];
    }
  }

  /** Whatever else arrives, whatever the member does, and however far it has read: it is in the state that its part of
      the stream puts it in. */
  lemma {:induction false} MemberFollowsStream(f: Founding, m: User, inbox: seq<Entry>, arrivals: seq<Arrival>)
    requires f.me != Nobody && m != f.me && ValidKey(f.key)
    requires ContinuesAll(Outside, f, m, inbox) && Admissible(f, m, inbox, arrivals)
    ensures var v := Arrivals(f, m, inbox, arrivals);
            v.read <= |inbox| && Synced(v.g, f, FollowAll(Outside, m, inbox[..v.read]))
  {
    hide Synced, Receive, Execute, Follow, Continues, ContinuesAll, Harmless, ValidKey;
    if arrivals != [] {
      var front, last := arrivals[..|arrivals| - 1], arrivals[|arrivals| - 1];
      MemberFollowsStream(f, m, inbox, front);
      var v := Arrivals(f, m, inbox, front);
      var st := FollowAll(Outside, m, inbox[..v.read]);
      match last {
        case Next(env) =>
          if v.read < |inbox| {
            ContinuesEverywhere(f, m, inbox, v.read);
            NextSyncs(v.g, v.next, f, m, st, inbox[v.read], env);
          }
        case Other(frame, env) => OtherKeepsSync(v.g, v.next, f, m, st, frame, env);
        case Own(cmd, env) => OwnKeepsSync(v.g, v.next, f, m, st, cmd, env);
      }
    } else {
      SyncedOutside(f);
      assert inbox[..0] == [];
    }
  }

  lemma SyncedOutside(f: Founding)
    ensures Synced(NO_GROUP, f, Outside)
  {
  }

  // ---- Positions of the stream, and the owner's states ----

  lemma {:induction false} MineIsStamped(m: User, out: seq<Packet>, roster: set<User>, mode: Mode)
    ensures forall e :: e in Mine(m, out, roster, mode) ==> e.packet in out && e.roster == roster && e.mode == mode
  {
    if out != [] { MineIsStamped(m, out[..|out| - 1], roster, mode); }
  }

  /** The owner sent `e` in the `k`-th step of its run (founding the group is the 0-th), after which
      it had the stamped roster and mode. */
  ghost predicate SentAt(f: Founding, steps: seq<Step>, k: nat, e: Entry) {
    && k <= |steps|
    && var now := Current(f, steps[..k]).g;
       && now.meta.Some? && e.roster == now.roster && e.mode == now.meta.value.mode
       && (if k == 0 then e.packet in Founded(f).out
           else
             var before := Current(f, steps[..k - 1]);
             e.packet in Apply(before.g, before.next, f.me, steps[k - 1]).out)
  }

  ghost predicate Stamped(f: Founding, steps: seq<Step>, e: Entry) {
    exists k :: SentAt(f, steps, k, e)
  }

  lemma SentAtExtends(f: Founding, steps: seq<Step>, k: nat, e: Entry)
    requires steps != [] && SentAt(f, steps[..|steps| - 1], k, e)
    ensures SentAt(f, steps, k, e)
  {
    hide Current, Apply;
    var front := steps[..|steps| - 1];
    assert front[..k] == steps[..k] && (k > 0 ==> front[..k - 1] == steps[..k - 1]);
  }

  lemma {:induction false} InboxIsStamped(f: Founding, steps: seq<Step>, m: User, e: Entry)
    requires Proper(f, steps) && e in Inbox(f, steps, m)
    ensures Stamped(f, steps, e)
  {
    if steps == [] {
      MineIsStamped(m, Founded(f).out, Founded(f).g.roster, f.mode);
      hide Mine;
      assert SentAt(f, steps, 0, e);
    } else {
      hide Current, Apply, Proper, Governs, SentAt, Mine;
      var front, last := steps[..|steps| - 1], steps[|steps| - 1];
      ProperFront(f, steps);
      if e in Inbox(f, front, m) {
        InboxIsStamped(f, front, m, e);
        var k :| SentAt(f, front, k, e);
        SentAtExtends(f, steps, k, e);
      } else {
        LastStepStamps(f, steps, m, e);
      }
    }
  }

  lemma LastStepStamps(f: Founding, steps: seq<Step>, m: User, e: Entry)
    requires Proper(f, steps) && steps != [] && e in Inbox(f, steps, m) && e !in Inbox(f, steps[..|steps| - 1], m)
    ensures SentAt(f, steps, |steps|, e)
  {
    hide Current, Apply, Proper, Governs, Mine;
    CurrentStep(f, steps);
    CurrentGoverns(f, steps);
    GovernsMode(Current(f, steps).g, Current(f, steps).next, f.me);
    var before := Current(f, steps[..|steps| - 1]);
    var sent := Apply(before.g, before.next, f.me, steps[|steps| - 1]);
    MineIsStamped(m, sent.out, sent.g.roster, sent.g.meta.value.mode);
    assert steps[..|steps|] == steps;
  }

  /** The last entry read is what an inside member's status says. */
  lemma InsideIsLastEntry(f: Founding, m: User, inbox: seq<Entry>, k: nat)
    requires ContinuesAll(Outside, f, m, inbox) && 0 < k <= |inbox| && FollowAll(Outside, m, inbox[..k]).Inside?
    ensures FollowAll(Outside, m, inbox[..k]).roster == inbox[k - 1].roster
    ensures FollowAll(Outside, m, inbox[..k]).mode == inbox[k - 1].mode
  {
    ContinuesEverywhere(f, m, inbox, k - 1);
    hide ContinuesAll, FollowAll;
  }

  /** A member of good standing at stream position k has the roster and the mode that the owner had
      after the very step in which it sent the frame at that position, and holds its session. */
  lemma MemberFollowsOwner(f: Founding, steps: seq<Step>, m: User, arrivals: seq<Arrival>)
    requires Steady(f, steps, m) && ValidKey(f.key) && Admissible(f, m, Inbox(f, steps, m), arrivals)
    ensures var inbox := Inbox(f, steps, m);
            var v := Arrivals(f, m, inbox, arrivals);
            && v.read <= |inbox|
            && var st := FollowAll(Outside, m, inbox[..v.read]);
               && (st.Outside? ==> v.g == NO_GROUP)
               && (st.Inside? ==>
                     && v.read > 0 && v.g.chat && v.g.meta.Some?
                     && v.g.roster == inbox[v.read - 1].roster
                     && v.g.meta.value == Meta(f.me, inbox[v.read - 1].mode, f.key)
                     && Stamped(f, steps, inbox[v.read - 1]))
  {
    var inbox := Inbox(f, steps, m);
    StreamContinues(f, steps, m);
    assert f.me != Nobody;
    MemberFollowsStream(f, m, inbox, arrivals);
    var v := Arrivals(f, m, inbox, arrivals);
    var st := FollowAll(Outside, m, inbox[..v.read]);
    hide Arrivals, Inbox, Current, ContinuesAll, Admissible, Stamped, Governs, Tracks;
    if st.Inside? {
      assert v.read > 0;
      hide FollowAll;
      InsideIsLastEntry(f, m, inbox, v.read);
      InboxIsStamped(f, steps, m, inbox[v.read - 1]);
    }
  }

  // ---- Catching up ----

  /** The owner never suspends `m`. */
  predicate NeverSuspends(steps: seq<Step>, m: User) {
    forall k :: 0 <= k < |steps| ==> !(steps[k].Do? && steps[k].cmd.Suspend? && steps[k].cmd.user == m)
  }

  predicate Silent(e: Entry, m: User) {
    e.packet.Megolm? && e.packet.tag.GroupEvent? && e.packet.cipher.plain.Control? ==> !Silences(e.packet.cipher.plain.event, m)
  }

  lemma {:induction false} NeverStale(m: User, es: seq<Entry>)
    requires forall e :: e in es ==> Silent(e, m)
    ensures !FollowAll(Outside, m, es).Stale?
  {
    if es != [] {
      NeverStale(m, es[..|es| - 1]);
      assert Silent(es[|es| - 1], m);
    }
  }

  lemma MovesAreSilent(g: Group, next: Sid, me: User, step: Step, m: User)
    requires Governs(g, next, me) && Staying(me, step)
    requires !(step.Do? && step.cmd.Suspend? && step.cmd.user == m)
    ensures forall e :: e in Sent(ChairOf(g), me, MoveOf(g, me, step), step.env.skip, m) ==> Silent(e, m)
  {
    var (d, out) := Play(ChairOf(g), me, MoveOf(g, me, step), step.env.skip);
    MineIsStamped(m, out, d.roster, d.mode);
    hide Governs, Mine, Staying;
  }

  lemma {:induction false} InboxIsSilent(f: Founding, steps: seq<Step>, m: User)
    requires Proper(f, steps) && m != f.me && (m in f.env.skip ==> m !in f.members) && NeverSuspends(steps, m)
    ensures forall e :: e in Inbox(f, steps, m) ==> Silent(e, m)
  {
    if steps == [] {
      OpeningSends(f, m);
      hide Inbox;
    } else {
      hide Current, Proper, Governs, MoveOf, Sent, Inbox, Silent;
      var front, last := steps[..|steps| - 1], steps[|steps| - 1];
      ProperFront(f, steps);
      InboxIsSilent(f, front, m);
      InboxStep(f, steps, m);
      MovesAreSilent(Current(f, front).g, Current(f, front).next, f.me, last, m);
    }
  }

  /** A user the owner never suspended, having read the whole stream, has exactly the owner's roster,
      mode and session if on the roster, and nothing of the group otherwise. */
  lemma CaughtUpMembersAgree(f: Founding, steps: seq<Step>, m: User, arrivals: seq<Arrival>)
    requires Steady(f, steps, m) && ValidKey(f.key) && NeverSuspends(steps, m)
    requires Admissible(f, m, Inbox(f, steps, m), arrivals)
    requires Arrivals(f, m, Inbox(f, steps, m), arrivals).read == |Inbox(f, steps, m)|
    ensures var g, owner := Arrivals(f, m, Inbox(f, steps, m), arrivals).g, Current(f, steps).g;
            if m in owner.roster then
              && g.chat && g.roster == owner.roster && g.meta == owner.meta && owner.outbound.Some?
              && f.me in g.inbound && g.inbound[f.me].sid == owner.outbound.value.sid
              && g.inbound[f.me].first <= owner.outbound.value.index
            else g == NO_GROUP
  {
    var inbox := Inbox(f, steps, m);
    StreamContinues(f, steps, m);
    KeyNeverChanges(f, steps);
    InboxIsSilent(f, steps, m);
    NeverStale(m, inbox);
    MemberFollowsStream(f, m, inbox, arrivals);
    assert inbox[..|inbox|] == inbox;
    hide Arrivals, Inbox, Current, ContinuesAll, Admissible, FollowAll, Steady, Silent;
  }
}
