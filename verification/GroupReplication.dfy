/** Members follow the owner.

    The owner's client, over any run, sends each member a stream of key shares and group events. A
    member that consumes this stream in order, interleaved with commands of its own other than leaving
    and with frames that are harmless to it (`Harmless`, in `GroupConvergence`), has at every position
    the roster and the mode the owner had when it sent the frame at that position
    (`MemberFollowsOwner`), and the owner's present ones once it has caught up
    (`CaughtUpMembersAgree`). Voluntary leaves are excluded, since the owner announces none; a member
    that has been suspended only keeps its session in step until it is removed. */
module GroupReplication {
  import opened Wrappers
  import opened Groups
  import opened GroupOwner
  import opened GroupKeys

  /** A frame of the owner, with the owner's roster and mode after the handler that sent it. */
  datatype Entry = Entry(packet: Packet, roster: set<User>, mode: Mode)

  /** What the stream has made of a member so far: `sid` is the owner's session it holds, and the
      owner's next message in it has at least number `next`. */
  datatype Status =
    | Outside
    | Inside(roster: set<User>, mode: Mode, sid: Sid, next: int)
    | Stale(sid: Sid, next: int)

  function Mine(m: User, out: seq<Packet>, roster: set<User>, mode: Mode): seq<Entry> {
    if out == [] then []
    else
      var last := out[|out| - 1];
      Mine(m, out[..|out| - 1], roster, mode) + if !last.Denial? && m in last.to then [Entry(last, roster, mode)] else []
  }

  /** The frames the owner has addressed to `m`, in order. */
  function Inbox(f: Founding, steps: seq<Step>, m: User): seq<Entry> {
    if steps == [] then Mine(m, Founded(f).out, Founded(f).g.roster, f.mode)
    else
      var front, last := steps[..|steps| - 1], steps[|steps| - 1];
      var before := Current(f, front);
      var e := Apply(before.g, before.next, f.me, last);
      Inbox(f, front, m) + Mine(m, e.out, e.g.roster, if e.g.meta.Some? then e.g.meta.value.mode else Open)
  }

  // ---- The stream a member sees ----

  /** The event suspends `m` itself. */
  predicate Silences(ev: Event, m: User) {
    ev.who == m && ev.kind.Suspended?
  }

  function Follow(st: Status, m: User, e: Entry): Status {
    match e.packet
    case KeyShare(_, s) =>
      if s.session.None? then st
      else if st.Stale? then Stale(s.session.value.sid, s.session.value.first)
      else Inside(e.roster, e.mode, s.session.value.sid, s.session.value.first)
    case Megolm(_, tag, c) =>
      if tag.GroupEvent? && c.plain.Control? && Expels(c.plain.event, m) then Outside
      else if st.Stale? || (tag.GroupEvent? && c.plain.Control? && Silences(c.plain.event, m)) then Stale(c.sid, c.index + 1)
      else Inside(e.roster, e.mode, c.sid, c.index + 1)
    case Denial(_) => st
  }

  function RosterAfter(roster: set<User>, ev: Event, m: User): set<User> {
    if ev.kind.Joined? then roster + {ev.who} else if Evicts(ev, m) then roster - {ev.who} else roster
  }

  function ModeAfter(mode: Mode, ev: Event): Mode {
    if ev.kind.Access? && ev.mode.Some? && ValidMode(ev.mode.value) then ev.mode.value else mode
  }

  /** Entry `e` continues the stream from `st`: shares carry the stamped roster and mode and a session
      no older than the one held, events say exactly what changed, and numbers grow. */
  predicate Continues(st: Status, f: Founding, m: User, e: Entry) {
    match e.packet
    case KeyShare(_, s) =>
      && s.session.Some? && s.members == e.roster && s.owner == f.me && s.mode == e.mode && s.key == f.key
      && ValidMode(e.mode) && (st.Inside? ==> st.roster <= e.roster)
      && (!st.Outside? ==> s.session.value.sid > st.sid || (s.session.value.sid == st.sid && s.session.value.first >= st.next))
    case Megolm(_, tag, c) =>
      && !st.Outside? && c.sid == st.sid && c.index >= st.next
      && (match tag
          case Message => st.Inside? ==> e.roster == st.roster && e.mode == st.mode
          case System => false
          case GroupEvent =>
            && c.plain.Control? && c.plain.event.who != f.me
            && (st.Inside? && !Expels(c.plain.event, m) && !Silences(c.plain.event, m) ==>
                  e.roster == RosterAfter(st.roster, c.plain.event, m) && e.mode == ModeAfter(st.mode, c.plain.event)))
    case Denial(_) => false
  }

  function FollowAll(st: Status, m: User, es: seq<Entry>): Status {
    if es == [] then st else Follow(FollowAll(st, m, es[..|es| - 1]), m, es[|es| - 1])
  }

  predicate ContinuesAll(st: Status, f: Founding, m: User, es: seq<Entry>) {
    es != [] ==>
      var front, last := es[..|es| - 1], es[|es| - 1];
      ContinuesAll(st, f, m, front) && Continues(FollowAll(st, m, front), f, m, last)
  }

  lemma {:induction false} FollowConcat(st: Status, f: Founding, m: User, a: seq<Entry>, b: seq<Entry>)
    ensures FollowAll(st, m, a + b) == FollowAll(FollowAll(st, m, a), m, b)
    ensures ContinuesAll(st, f, m, a + b) <==> ContinuesAll(st, f, m, a) && ContinuesAll(FollowAll(st, m, a), f, m, b)
  {
    hide Follow, Continues;
    if b == [] {
      assert a + b == a;
    } else {
      assert (a + b)[..|a + b| - 1] == a + b[..|b| - 1];
      FollowConcat(st, f, m, a, b[..|b| - 1]);
    }
  }

  /** How the stream's status of `m` relates to the owner's chair. */
  predicate Tracks(c: Chair, m: User, st: Status) {
    && (m in c.roster ==> !st.Outside? && st.sid == c.sid)
    && (!st.Outside? ==> st.sid <= c.sid && (st.sid == c.sid ==> st.next <= c.index))
    && (st.Inside? ==> m in c.roster && st.roster == c.roster && st.mode == c.mode)
  }

  lemma MineOfTwo(m: User, a: Packet, b: Packet, roster: set<User>, mode: Mode)
    ensures Mine(m, [], roster, mode) == []
    ensures Mine(m, [a], roster, mode) == if !a.Denial? && m in a.to then [Entry(a, roster, mode)] else []
    ensures Mine(m, [a, b], roster, mode) == Mine(m, [a], roster, mode) + Mine(m, [b], roster, mode)
    ensures Mine(m, [b], roster, mode) == if !b.Denial? && m in b.to then [Entry(b, roster, mode)] else []
  {
    assert [a][..0] == [] && [b][..0] == [];
    assert [a, b][..1] == [a];
    assert Mine(m, [a], roster, mode) + [] == Mine(m, [a], roster, mode);
  }

  lemma FollowTwo(st: Status, f: Founding, m: User, a: Entry, b: Entry)
    ensures FollowAll(st, m, []) == st && ContinuesAll(st, f, m, [])
    ensures FollowAll(st, m, [a]) == Follow(st, m, a)
    ensures ContinuesAll(st, f, m, [a]) <==> Continues(st, f, m, a)
    ensures FollowAll(st, m, [a, b]) == Follow(Follow(st, m, a), m, b)
    ensures ContinuesAll(st, f, m, [a, b]) <==> Continues(st, f, m, a) && Continues(Follow(st, m, a), f, m, b)
  {
    hide Follow, Continues;
    assert [a][..0] == [];
    assert [a, b][..1] == [a];
    assert FollowAll(st, m, []) == st && ContinuesAll(st, f, m, []);
  }

  /** The chair in force once `ev` has been announced under the current session. */
  function Announced(c: Chair, ev: Event, m: User): Chair {
    c.(roster := RosterAfter(c.roster, ev, m), mode := ModeAfter(c.mode, ev), index := c.index + 1)
  }

  /** An announced event that leaves `m` a member. */
  lemma EventContinues(c: Chair, f: Founding, to: set<User>, ev: Event, m: User, st: Status)
    requires Tracks(c, m, st) && m in c.roster && m != f.me && ev.who != f.me && !Expels(ev, m) && !Silences(ev, m)
    ensures var d := Announced(c, ev, m);
            var e := Entry(Megolm(to, GroupEvent, Cipher(c.sid, c.index, Control(ev))), d.roster, d.mode);
            Continues(st, f, m, e) && Tracks(d, m, Follow(st, m, e))
  {
    hide ValidMode;
  }

  /** An announced event that ends the membership of `m`. */
  lemma EvictionContinues(c: Chair, d: Chair, f: Founding, ev: Event, m: User, st: Status)
    requires Tracks(c, m, st) && m in c.roster && m != f.me && ev.who == m && (Expels(ev, m) || Silences(ev, m))
    requires m !in d.roster && d.sid > c.sid
    ensures var e := Entry(Sealed(c, f.me, GroupEvent, Control(ev)), d.roster, d.mode);
            Continues(st, f, m, e) && Tracks(d, m, Follow(st, m, e))
  {
  }

  /** A key share to `m` of the owner's current chair. */
  lemma ShareContinues(c: Chair, f: Founding, to: set<User>, m: User, st: Status)
    requires m in c.roster && ValidMode(c.mode) && c.key == f.key
    requires !st.Outside? ==> st.sid < c.sid || (st.sid == c.sid && st.next <= c.index)
    requires st.Inside? ==> st.roster <= c.roster
    ensures var e := Entry(KeyShare(to, KeyOf(c, f.me)), c.roster, c.mode);
            Continues(st, f, m, e) && Tracks(c, m, Follow(st, m, e))
  {
  }

  /** The frames a move sends to `m`: at most two, stamped with the chair after it. */
  function Sent(c: Chair, me: User, move: Move, skip: set<User>, m: User): seq<Entry> {
    var (d, out) := Play(c, me, move, skip);
    Mine(m, out, d.roster, d.mode)
  }

  lemma SpeakSends(c: Chair, me: User, move: Move, skip: set<User>, m: User)
    requires move.Speak? || move.Rule? || move.Quiet? || move.Refuse?
    ensures var (d, out) := Play(c, me, move, skip);
            Sent(c, me, move, skip, m)
            == if (move.Speak? || move.Rule?) && m in c.roster && m != me then [Entry(out[0], d.roster, d.mode)] else []
  {
    hide Mine, Sealed, KeyOf;
    var (d, out) := Play(c, me, move, skip);
    if move.Quiet? {
      MineOfTwo(m, Denial({}), Denial({}), d.roster, d.mode);
    } else {
      MineOfTwo(m, out[0], out[0], d.roster, d.mode);
      if !move.Refuse? { SealedTo(c, me, move, skip); }
      assert out == [out[0]];
    }
  }

  lemma SealedTo(c: Chair, me: User, move: Move, skip: set<User>)
    requires move.Speak? || move.Rule?
    ensures var out := Play(c, me, move, skip).1; |out| == 1 && out[0].Megolm? && out[0].to == c.roster - {me}
  {
  }

  lemma SpeakContinues(c: Chair, f: Founding, move: Move, skip: set<User>, m: User, st: Status)
    requires move.Speak? || (move.Rule? && ValidMode(move.mode)) || move.Quiet? || move.Refuse?
    requires f.me != Nobody && m != f.me && Tracks(c, m, st)
    ensures var es := Sent(c, f.me, move, skip, m);
            ContinuesAll(st, f, m, es) && Tracks(Play(c, f.me, move, skip).0, m, FollowAll(st, m, es))
  {
    hide FollowAll, ContinuesAll, Sent;
    SpeakSends(c, f.me, move, skip, m);
    var (d, out) := Play(c, f.me, move, skip);
    if (move.Speak? || move.Rule?) && m in c.roster {
      var e := Entry(out[0], d.roster, d.mode);
      FollowTwo(st, f, m, e, e);
      if move.Rule? {
        EventContinues(c, f, out[0].to, Event(Access, Nobody, Some(move.mode), None), m, st);
        hide Follow, Continues;
      }
    } else {
      FollowTwo(st, f, m, Entry(Denial({}), {}, Open), Entry(Denial({}), {}, Open));
    }
  }

  /** The move shares the session's key with `m`. */
  predicate Due(c: Chair, move: Move, m: User) {
    match move
    case Seat(who) => who == m
    case Rotate(event) => m in c.roster && event.who != m
    case _ => false
  }

  lemma SeatSends(c: Chair, me: User, who: User, skip: set<User>, m: User)
    requires m != me && (m in skip ==> m != who)
    ensures var (d, out) := Play(c, me, Seat(who), skip);
            var share, event := Entry(out[0], d.roster, d.mode), Entry(out[1], d.roster, d.mode);
            Sent(c, me, Seat(who), skip, m) == if m == who then [share, event] else if m in c.roster then [event] else []
  {
    var (d, out) := Play(c, me, Seat(who), skip);
    MineOfTwo(m, out[0], out[1], d.roster, d.mode);
    hide Mine;
  }

  lemma SeatContinues(c: Chair, f: Founding, who: User, skip: set<User>, m: User, st: Status)
    requires who != f.me && ValidMode(c.mode) && c.key == f.key && m != f.me && (m in skip ==> m != who) && Tracks(c, m, st)
    ensures var es := Sent(c, f.me, Seat(who), skip, m);
            ContinuesAll(st, f, m, es) && Tracks(Play(c, f.me, Seat(who), skip).0, m, FollowAll(st, m, es))
  {
    hide FollowAll, ContinuesAll, Sent, ValidMode, Follow, Continues;
    SeatSends(c, f.me, who, skip, m);
    var seated := c.(roster := c.roster + {who});
    var (d, out) := Play(c, f.me, Seat(who), skip);
    var share, event := Entry(out[0], d.roster, d.mode), Entry(out[1], d.roster, d.mode);
    FollowTwo(st, f, m, event, event);
    if m == who {
      FollowTwo(st, f, m, share, event);
      ShareContinues(seated, f, out[0].to, m, st);
      EventContinues(seated, f, out[1].to, Event(Joined, who, None, None), m, Follow(st, m, share));
      assert seated.roster + {who} == seated.roster;
    } else if m in c.roster {
      EventContinues(c, f, out[1].to, Event(Joined, who, None, None), m, st);
    }
  }

  lemma RotateSends(c: Chair, me: User, ev: Event, skip: set<User>, m: User)
    requires m != me && (m in skip ==> m !in c.roster || ev.who == m)
    ensures var (d, out) := Play(c, me, Rotate(ev), skip);
            && |out| == 2 && out[0] == Sealed(c, me, GroupEvent, Control(ev)) && out[1].KeyShare? && out[1].share == KeyOf(d, me)
            && var event, share := Entry(out[0], d.roster, d.mode), Entry(out[1], d.roster, d.mode);
               Sent(c, me, Rotate(ev), skip, m) == if m !in c.roster then [] else if m == ev.who then [event] else [event, share]
  {
    var (d, out) := Play(c, me, Rotate(ev), skip);
    MineOfTwo(m, out[0], out[1], d.roster, d.mode);
    hide Mine;
  }

  lemma RotateContinues(c: Chair, f: Founding, ev: Event, skip: set<User>, m: User, st: Status)
    requires Legal(c, f.me, Rotate(ev)) && ValidMode(c.mode) && c.key == f.key && m != f.me && Tracks(c, m, st)
    requires m in skip ==> !Due(c, Rotate(ev), m)
    ensures var es := Sent(c, f.me, Rotate(ev), skip, m);
            ContinuesAll(st, f, m, es) && Tracks(Play(c, f.me, Rotate(ev), skip).0, m, FollowAll(st, m, es))
  {
    hide FollowAll, ContinuesAll, Sent, Sealed, KeyOf, ValidMode;
    RotateSends(c, f.me, ev, skip, m);
    var (d, out) := Play(c, f.me, Rotate(ev), skip);
    var event, share := Entry(out[0], d.roster, d.mode), Entry(out[1], d.roster, d.mode);
    if m !in c.roster {
      FollowTwo(st, f, m, event, share);
    } else if m == ev.who {
      FollowTwo(st, f, m, event, event);
      EvictionContinues(c, d, f, ev, m, st);
      hide Follow, Continues;
    } else {
      FollowTwo(st, f, m, event, share);
      SealedIs(c, f.me, ev);
      EventContinues(c, f, c.roster - {f.me}, ev, m, st);
      AfterEviction(c, d, ev, m, Follow(st, m, event));
      ShareContinues(d, f, out[1].to, m, Follow(st, m, event));
      hide Continues, Follow;
    }
  }

  lemma SealedIs(c: Chair, me: User, ev: Event)
    ensures Sealed(c, me, GroupEvent, Control(ev)) == Megolm(c.roster - {me}, GroupEvent, Cipher(c.sid, c.index, Control(ev)))
  {
  }

  /** Who has heard of an eviction has a session older than the rotated one, and its roster. */
  lemma AfterEviction(c: Chair, d: Chair, ev: Event, m: User, st: Status)
    requires Tracks(Announced(c, ev, m), m, st) && m in c.roster && m != ev.who
    requires ev.kind.Removed? || ev.kind.Banned? || ev.kind.Suspended?
    requires d.roster == c.roster - {ev.who} && d.sid == c.sid + 1
    ensures !st.Outside? && st.sid < d.sid && (st.Inside? ==> st.roster <= d.roster)
  {
  }

  /** One move of the owner, as `m` sees it. */
  lemma MoveContinues(c: Chair, f: Founding, move: Move, skip: set<User>, m: User, st: Status)
    requires Legal(c, f.me, move) && !move.Depart? && ValidMode(c.mode) && f.me != Nobody && c.key == f.key
    requires m != f.me && (m in skip ==> !Due(c, move, m)) && Tracks(c, m, st)
    ensures var es := Sent(c, f.me, move, skip, m);
            ContinuesAll(st, f, m, es) && Tracks(Play(c, f.me, move, skip).0, m, FollowAll(st, m, es))
  {
    hide Sent, FollowAll, ContinuesAll, Tracks;
    match move {
      case Seat(who) => SeatContinues(c, f, who, skip, m, st);
      case Rotate(ev) => RotateContinues(c, f, ev, skip, m, st);
      case _ => SpeakContinues(c, f, move, skip, m, st);
    }
  }

  // ---- The whole stream ----

  /** The step shares the session's key with `m`. */
  predicate KeyDue(g: Group, me: User, step: Step, m: User) {
    g.meta.Some? && g.outbound.Some? && Due(ChairOf(g), MoveOf(g, me, step), m)
  }

  /** Nobody leaves on their own in this step, and `m` is reached if a key is due to it. */
  predicate SteadyStep(g: Group, me: User, step: Step, m: User) {
    && (g.meta.Some? ==> !MoveOf(g, me, step).Depart?)
    && (m in step.env.skip ==> !KeyDue(g, me, step, m))
  }

  /** What the replication results assume of a run: nobody leaves on their own, and `m` is reached
      whenever a key is due to it. */
  ghost predicate Steady(f: Founding, steps: seq<Step>, m: User) {
    && Proper(f, steps) && m != f.me && (m in f.env.skip ==> m !in f.members)
    && forall k :: 0 <= k < |steps| ==> SteadyStep(Current(f, steps[..k]).g, f.me, steps[k], m)
  }

  lemma SteadyFront(f: Founding, steps: seq<Step>, m: User)
    requires Steady(f, steps, m) && steps != []
    ensures var front, last := steps[..|steps| - 1], steps[|steps| - 1];
            Steady(f, front, m) && SteadyStep(Current(f, front).g, f.me, last, m)
  {
    hide Current, SteadyStep, Staying;
    var front := steps[..|steps| - 1];
    assert forall k :: 0 <= k < |front| ==> front[k] == steps[k] && front[..k] == steps[..k];
  }

  function OpeningChair(f: Founding): Chair {
    Chair(f.members + {f.me}, f.mode, f.key, 0, 0)
  }

  lemma OpeningSends(f: Founding, m: User)
    requires m != f.me && (m in f.env.skip ==> m !in f.members)
    ensures var c := OpeningChair(f);
            var share := KeyShare(c.roster - {f.me} - f.env.skip, KeyOf(c, f.me));
            Inbox(f, [], m) == if m in c.roster then [Entry(share, c.roster, c.mode)] else []
  {
    var c := OpeningChair(f);
    var share := KeyShare(c.roster - {f.me} - f.env.skip, KeyOf(c, f.me));
    assert Founded(f).out == [share];
    MineOfTwo(m, share, share, c.roster, c.mode);
    hide Mine;
  }

  lemma OpeningContinues(f: Founding, m: User)
    requires ValidMode(f.mode) && m != f.me && (m in f.env.skip ==> m !in f.members)
    ensures ContinuesAll(Outside, f, m, Inbox(f, [], m))
    ensures Tracks(OpeningChair(f), m, FollowAll(Outside, m, Inbox(f, [], m)))
  {
    hide FollowAll, ContinuesAll, Inbox, Follow, Continues, ValidMode;
    OpeningSends(f, m);
    var c := OpeningChair(f);
    var share := KeyShare(c.roster - {f.me} - f.env.skip, KeyOf(c, f.me));
    var e := Entry(share, c.roster, c.mode);
    FollowTwo(Outside, f, m, e, e);
    if m in c.roster { ShareContinues(c, f, share.to, m, Outside); }
  }

  lemma {:induction false} KeyNeverChanges(f: Founding, steps: seq<Step>)
    requires Proper(f, steps)
    ensures Governs(Current(f, steps).g, Current(f, steps).next, f.me)
    ensures ChairOf(Current(f, steps).g).key == f.key
  {
    hide Governs, MoveOf, Apply;
    CurrentGoverns(f, steps);
    if steps != [] {
      var front, last := steps[..|steps| - 1], steps[|steps| - 1];
      ProperFront(f, steps);
      KeyNeverChanges(f, front);
      CurrentStep(f, steps);
      var before := Current(f, front);
      StepIsMove(before.g, before.next, f.me, last);
      hide Current;
    }
  }

  lemma GovernsMode(g: Group, next: Sid, me: User)
    requires Governs(g, next, me)
    ensures g.meta.Some? && g.outbound.Some? && ValidMode(ChairOf(g).mode) && me != Nobody
  {
  }

  /** The stream after one more step: what the step's move sends, appended. */
  lemma InboxStep(f: Founding, steps: seq<Step>, m: User)
    requires Proper(f, steps) && steps != []
    ensures var front, last := steps[..|steps| - 1], steps[|steps| - 1];
            var before, after := Current(f, front), Current(f, steps);
            && Governs(before.g, before.next, f.me) && Governs(after.g, after.next, f.me)
            && before.g.meta.Some? && before.g.outbound.Some? && after.g.meta.Some? && after.g.outbound.Some?
            && var c, move := ChairOf(before.g), MoveOf(before.g, f.me, last);
               && Legal(c, f.me, move)
               && ChairOf(after.g) == Play(c, f.me, move, last.env.skip).0
               && Inbox(f, steps, m) == Inbox(f, front, m) + Sent(c, f.me, move, last.env.skip, m)
  {
    hide Governs, MoveOf, Apply, Current, Mine, Legal;
    var front, last := steps[..|steps| - 1], steps[|steps| - 1];
    ProperFront(f, steps);
    CurrentGoverns(f, front);
    CurrentGoverns(f, steps);
    CurrentStep(f, steps);
    var before, after := Current(f, front), Current(f, steps);
    StepIsMove(before.g, before.next, f.me, last);
    GovernsMode(before.g, before.next, f.me);
    GovernsMode(after.g, after.next, f.me);
  }

  /** At every point of every steady run the stream is unbroken and in step with the owner's chair. */
  lemma {:induction false} StreamContinues(f: Founding, steps: seq<Step>, m: User)
    requires Steady(f, steps, m)
    ensures Governs(Current(f, steps).g, Current(f, steps).next, f.me)
    ensures ContinuesAll(Outside, f, m, Inbox(f, steps, m))
    ensures Tracks(ChairOf(Current(f, steps).g), m, FollowAll(Outside, m, Inbox(f, steps, m)))
  {
    CurrentGoverns(f, steps);
    if steps == [] {
      OpeningContinues(f, m);
    } else {
      hide Governs, MoveOf, Tracks, ContinuesAll, FollowAll, Current, Inbox, Proper, Sent, Legal, Play;
      var front, last := steps[..|steps| - 1], steps[|steps| - 1];
      SteadyFront(f, steps, m);
      StreamContinues(f, front, m);
      InboxStep(f, steps, m);
      KeyNeverChanges(f, front);
      var before := Current(f, front);
      GovernsMode(before.g, before.next, f.me);
      var st := FollowAll(Outside, m, Inbox(f, front, m));
      var c, move := ChairOf(before.g), MoveOf(before.g, f.me, last);
      MoveContinues(c, f, move, last.env.skip, m, st);
      FollowConcat(Outside, f, m, Inbox(f, front, m), Sent(c, f.me, move, last.env.skip, m));
    }
  }
}
