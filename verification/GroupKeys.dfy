/** Who holds which Megolm key, over every run of a group's owner.

    `HoldersOfCurrentKey` says who was sent the session in use, `ReadersAreAddressees` who can ever
    open a message, `ExpelledHoldNoCurrentKey` what a rotation achieves, and `BannedGetNothing` what
    a ban does. Users who leave by themselves are the exception throughout: a leave notice takes
    them off the roster but does not rotate the key. */
module GroupKeys {
  import opened Wrappers
  import opened Groups
  import opened GroupOwner

  /** A move, and the members no Olm session could be opened to while it was made. */
  datatype Turn = Turn(move: Move, skip: set<User>)

  /** The owner's chair and everything sent so far. `left` are the users who left on their own since
      the last rotation; `leavers[i]` are those of them when `wire[i]` was sent; `reached` are those the
      key shares of the session in use went to. */
  datatype History = History(
    chair: Chair, wire: seq<Packet>, left: set<User>, leavers: seq<set<User>>, reached: set<User>)

  function Opening(me: User, members: set<User>, mode: Mode, key: string, skip: set<User>): History {
    var c := Chair(members + {me}, mode, key, 0, 0);
    History(c, [KeyShare(c.roster - {me} - skip, KeyOf(c, me))], {}, [{}], c.roster - {me} - skip)
  }

  function LeftAfter(h: History, move: Move): set<User> {
    match move
    case Depart(who) => h.left + ({who} * h.chair.roster)
    case Seat(who) => h.left - {who}
    case Rotate(_) => {}
    case _ => h.left
  }

  /** A rotation shares with the new roster, a seating with the newcomer; nobody else is sent a key, and
      those no Olm session could be opened to are left out. */
  function ReachedAfter(h: History, me: User, turn: Turn): set<User> {
    match turn.move
    case Rotate(event) => h.chair.roster - {event.who} - {me} - turn.skip
    case Seat(who) => h.reached + ({who} - {me} - turn.skip)
    case _ => h.reached
  }

  function After(h: History, me: User, turn: Turn): History {
    var (chair, out) := Play(h.chair, me, turn.move, turn.skip);
    History(chair, h.wire + out, LeftAfter(h, turn.move), h.leavers + seq(|out|, _ => h.left), ReachedAfter(h, me, turn))
  }

  function Unfold(h: History, me: User, turns: seq<Turn>): History {
    if turns == [] then h
    else After(Unfold(h, me, turns[..|turns| - 1]), me, turns[|turns| - 1])
  }

  predicate Gives(p: Packet, u: User, sid: Sid) {
    p.KeyShare? && u in p.to && p.share.session.Some? && p.share.session.value.sid == sid
  }

  /** A key share that lets its recipients open message `c`. */
  predicate Unlocks(p: Packet, c: Cipher) {
    p.KeyShare? && p.share.session.Some? && p.share.session.value.sid == c.sid && p.share.session.value.first <= c.index
  }

  ghost predicate Holds(wire: seq<Packet>, u: User, sid: Sid) {
    exists p :: p in wire && Gives(p, u, sid)
  }

  ghost predicate CanOpen(wire: seq<Packet>, u: User, c: Cipher) {
    exists p :: p in wire && Unlocks(p, c) && u in p.to
  }

  // ---- Nobody too many ----

  predicate ShareInOrder(p: Packet, h: History, me: User) {
    p.KeyShare? ==>
      && p.share.session.Some? && me !in p.to
      && p.share.session.value.sid <= h.chair.sid
      && (p.share.session.value.sid == h.chair.sid ==>
            p.share.session.value.first <= h.chair.index && p.to <= h.chair.roster + h.left)
  }

  predicate MessageInOrder(p: Packet, h: History) {
    p.Megolm? ==> p.cipher.sid <= h.chair.sid && (p.cipher.sid == h.chair.sid ==> p.cipher.index < h.chair.index)
  }

  /** Key `q` opens message `i` only for its addressees and for those who had left when it was sent. */
  predicate Confined(h: History, i: nat, q: Packet)
    requires i < |h.wire| == |h.leavers|
  {
    h.wire[i].Megolm? && Unlocks(q, h.wire[i].cipher) ==> q.to <= h.wire[i].to + h.leavers[i]
  }

  ghost predicate Sound(h: History, me: User) {
    && me in h.chair.roster && |h.leavers| == |h.wire| && h.left !! h.chair.roster
    && (forall p :: p in h.wire ==> ShareInOrder(p, h, me) && MessageInOrder(p, h))
    && (forall i: nat, q :: i < |h.wire| && q in h.wire ==> Confined(h, i, q))
  }

  lemma OpeningIsSound(me: User, members: set<User>, mode: Mode, key: string, skip: set<User>)
    ensures Sound(Opening(me, members, mode, key, skip), me)
  {
  }

  /** Later keys do not open earlier messages, and a new message is addressed to the whole roster. */
  lemma AfterIsConfined(h: History, me: User, turn: Turn, i: nat, q: Packet)
    requires Sound(h, me) && Legal(h.chair, me, turn.move)
    requires i < |After(h, me, turn).wire| && q in After(h, me, turn).wire
    ensures Confined(After(h, me, turn), i, q)
  {
    var n := After(h, me, turn);
    var out := Play(h.chair, me, turn.move, turn.skip).1;
    assert q in h.wire || q in out;
    assert q in h.wire ==> ShareInOrder(q, h, me);
    if i < |h.wire| {
      assert h.wire[i] in h.wire && MessageInOrder(h.wire[i], h);
      assert q in h.wire ==> Confined(h, i, q);
    } else {
      assert n.wire[i] == out[i - |h.wire|] && n.leavers[i] == h.left;
    }
  }

  lemma AfterIsSound(h: History, me: User, turn: Turn)
    requires Sound(h, me) && Legal(h.chair, me, turn.move)
    ensures Sound(After(h, me, turn), me)
  {
    var n := After(h, me, turn);
    var out := Play(h.chair, me, turn.move, turn.skip).1;
    hide Confined;
    forall p | p in n.wire ensures ShareInOrder(p, n, me) && MessageInOrder(p, n) {
      assert p in h.wire || p in out;
    }
    forall i: nat, q | i < |n.wire| && q in n.wire ensures Confined(n, i, q) {
      AfterIsConfined(h, me, turn, i, q);
    }
  }

  // ---- Exactly who ----

  /** The holders of the current session are those it was shared with. */
  ghost predicate Exact(h: History) {
    forall u :: Holds(h.wire, u, h.chair.sid) <==> u in h.reached
  }

  lemma HoldsConcat(wire: seq<Packet>, out: seq<Packet>, u: User, sid: Sid)
    ensures Holds(wire + out, u, sid) <==> Holds(wire, u, sid) || Holds(out, u, sid)
  {
    hide Gives;
    assert forall p :: p in wire + out <==> p in wire || p in out;
  }

  /** What one move shares of the session in force after it. */
  lemma OutHolds(h: History, me: User, turn: Turn, u: User)
    ensures var (chair, out) := Play(h.chair, me, turn.move, turn.skip);
            Holds(out, u, chair.sid) <==>
              match turn.move
              case Rotate(event) => u in h.chair.roster - {event.who} - {me} - turn.skip
              case Seat(who) => u in {who} - {me} - turn.skip
              case _ => false
  {
    var (chair, out) := Play(h.chair, me, turn.move, turn.skip);
    if turn.move.Rotate? {
      assert out[1] in out && (Gives(out[1], u, chair.sid) <==> u in out[1].to);
    } else if turn.move.Seat? {
      assert out[0] in out && (Gives(out[0], u, chair.sid) <==> u in out[0].to);
    }
  }

  lemma NewSessionIsUnheld(h: History, me: User, u: User, sid: Sid)
    requires Sound(h, me) && sid > h.chair.sid
    ensures !Holds(h.wire, u, sid)
  {
    forall p | p in h.wire ensures !Gives(p, u, sid) {
      assert ShareInOrder(p, h, me);
    }
  }

  lemma AfterIsExact(h: History, me: User, turn: Turn)
    requires Sound(h, me) && Exact(h)
    ensures Exact(After(h, me, turn))
  {
    var n := After(h, me, turn);
    var out := Play(h.chair, me, turn.move, turn.skip).1;
    forall u ensures Holds(n.wire, u, n.chair.sid) <==> u in n.reached {
      HoldsConcat(h.wire, out, u, n.chair.sid);
      OutHolds(h, me, turn, u);
      if turn.move.Rotate? { NewSessionIsUnheld(h, me, u, n.chair.sid); }
    }
  }

  lemma OpeningIsExact(me: User, members: set<User>, mode: Mode, key: string, skip: set<User>)
    ensures Exact(Opening(me, members, mode, key, skip))
  {
    var h := Opening(me, members, mode, key, skip);
    forall u ensures Holds(h.wire, u, h.chair.sid) <==> u in h.reached {
      assert h.wire[0] in h.wire && (Gives(h.wire[0], u, h.chair.sid) <==> u in h.wire[0].to);
    }
  }

  // ---- Nobody too few ----

  /** `u` was sent the current key if a member or a leaver, and can open what is addressed to it or was
      sent while it held the session as a leaver. */
  ghost predicate Complete(h: History, me: User, u: User) {
    && |h.leavers| == |h.wire|
    && (u in h.chair.roster + h.left && u != me ==> Holds(h.wire, u, h.chair.sid))
    && (forall i: nat :: i < |h.wire| && h.wire[i].Megolm? && u in h.wire[i].to + h.leavers[i] && u != me ==>
          CanOpen(h.wire, u, h.wire[i].cipher))
  }

  lemma OpeningIsComplete(me: User, members: set<User>, mode: Mode, key: string, skip: set<User>, u: User)
    requires u !in skip
    ensures Complete(Opening(me, members, mode, key, skip), me, u)
  {
    var h := Opening(me, members, mode, key, skip);
    assert u in h.chair.roster && u != me ==> Gives(h.wire[0], u, 0);
  }

  lemma HolderCanOpen(h: History, me: User, u: User, c: Cipher)
    requires Sound(h, me) && Holds(h.wire, u, h.chair.sid)
    requires c.sid == h.chair.sid && c.index == h.chair.index
    ensures CanOpen(h.wire, u, c)
  {
    var p :| p in h.wire && Gives(p, u, h.chair.sid);
    assert ShareInOrder(p, h, me);
    assert Unlocks(p, c);
  }

  /** What was sent once opens what it opened. */
  lemma WireOnlyGrows(wire: seq<Packet>, out: seq<Packet>, u: User, sid: Sid, c: Cipher)
    ensures Holds(wire, u, sid) ==> Holds(wire + out, u, sid)
    ensures CanOpen(wire, u, c) ==> CanOpen(wire + out, u, c)
  {
    if Holds(wire, u, sid) {
      var p :| p in wire && Gives(p, u, sid);
      assert p in wire + out;
    }
    if CanOpen(wire, u, c) {
      var p :| p in wire && Unlocks(p, c) && u in p.to;
      assert p in wire + out;
    }
  }

  lemma AfterIsHeld(h: History, me: User, turn: Turn, u: User)
    requires Sound(h, me) && Complete(h, me, u) && Legal(h.chair, me, turn.move) && u !in turn.skip
    ensures var n := After(h, me, turn); u in n.chair.roster + n.left && u != me ==> Holds(n.wire, u, n.chair.sid)
  {
    var n := After(h, me, turn);
    var out := Play(h.chair, me, turn.move, turn.skip).1;
    if u in n.chair.roster + n.left && u != me {
      if !turn.move.Rotate? && u in h.chair.roster + h.left {
        WireOnlyGrows(h.wire, out, u, h.chair.sid, Cipher(0, 0, Sentinel));
      } else {
        var share := out[if turn.move.Rotate? then 1 else 0];
        assert share in n.wire && Gives(share, u, n.chair.sid);
      }
    }
  }

  lemma AfterIsComplete(h: History, me: User, turn: Turn, u: User)
    requires Sound(h, me) && Complete(h, me, u) && Legal(h.chair, me, turn.move) && u !in turn.skip
    ensures Complete(After(h, me, turn), me, u)
  {
    AfterIsHeld(h, me, turn, u);
    var n := After(h, me, turn);
    var out := Play(h.chair, me, turn.move, turn.skip).1;
    forall i: nat | i < |n.wire| && n.wire[i].Megolm? && u in n.wire[i].to + n.leavers[i] && u != me
      ensures CanOpen(n.wire, u, n.wire[i].cipher)
    {
      var c := n.wire[i].cipher;
      WireOnlyGrows(h.wire, out, u, 0, c);
      if i >= |h.wire| {
        assert n.wire[i] == out[i - |h.wire|] && n.leavers[i] == h.left;
        if u in h.chair.roster + h.left {
          HolderCanOpen(h, me, u, c);
        } else {
          assert out[0] in n.wire && Unlocks(out[0], c);
        }
      }
    }
  }

  // ---- The owner's client ----

  /** A group from its creation on: the state after `steps`, and the turns they amounted to. */
  function TurnsOf(g: Group, next: Sid, me: User, steps: seq<Step>): (turns: seq<Turn>)
    ensures |turns| == |steps|
  {
    if steps == [] then []
    else
      var front, last := steps[..|steps| - 1], steps[|steps| - 1];
      var before := Run(g, next, me, front).g;
      TurnsOf(g, next, me, front) + [Turn(if before.meta.Some? then MoveOf(before, me, last) else Quiet, last.env.skip)]
  }

  datatype Founding = Founding(me: User, members: set<User>, mode: Mode, key: string, env: Env)

  predicate Proper(f: Founding, steps: seq<Step>) {
    && f.me != Nobody && ValidMode(f.mode)
    && forall i :: 0 <= i < |steps| ==> Staying(f.me, steps[i])
  }

  function Founded(f: Founding): Effect {
    Create(f.me, f.members, f.mode, f.key, f.env)
  }

  function Current(f: Founding, steps: seq<Step>): Effect {
    var e := Run(Founded(f).g, Founded(f).next, f.me, steps);
    e.(out := Founded(f).out + e.out)
  }

  function HistoryOf(f: Founding, steps: seq<Step>): History {
    Unfold(Opening(f.me, f.members, f.mode, f.key, f.env.skip), f.me, TurnsOf(Founded(f).g, Founded(f).next, f.me, steps))
  }

  /** One more step, on both sides. */
  lemma HistoryExtends(f: Founding, steps: seq<Step>)
    requires steps != []
    ensures var front, last := steps[..|steps| - 1], steps[|steps| - 1];
            var before, after := Current(f, front), Current(f, steps);
            var e := Apply(before.g, before.next, f.me, last);
            && after == Effect(e.g, e.next, before.out + e.out)
            && (before.g.meta.Some? ==>
                  HistoryOf(f, steps) == After(HistoryOf(f, front), f.me, Turn(MoveOf(before.g, f.me, last), last.env.skip)))
  {
    hide Apply, MoveOf, After, Founded;
    var front := steps[..|steps| - 1];
    var turns := TurnsOf(Founded(f).g, Founded(f).next, f.me, steps);
    assert turns[..|turns| - 1] == TurnsOf(Founded(f).g, Founded(f).next, f.me, front);
    var before := Run(Founded(f).g, Founded(f).next, f.me, front);
    var step := Apply(before.g, before.next, f.me, steps[|steps| - 1]).out;
    assert Founded(f).out + (before.out + step) == (Founded(f).out + before.out) + step;
  }

  lemma FoundingIsHistory(f: Founding)
    requires Proper(f, [])
    ensures var e := Current(f, []);
            && Governs(e.g, e.next, f.me)
            && ChairOf(e.g) == HistoryOf(f, []).chair && e.out == HistoryOf(f, []).wire
            && Sound(HistoryOf(f, []), f.me)
  {
    OpeningIsSound(f.me, f.members, f.mode, f.key, f.env.skip);
    hide Sound;
  }

  /** The owner's client and its history agree, at every point of every run. */
  lemma {:induction false} RunIsHistory(f: Founding, steps: seq<Step>)
    requires Proper(f, steps)
    ensures var e := Current(f, steps);
            && Governs(e.g, e.next, f.me)
            && ChairOf(e.g) == HistoryOf(f, steps).chair && e.out == HistoryOf(f, steps).wire
            && Sound(HistoryOf(f, steps), f.me)
  {
    if steps == [] {
      FoundingIsHistory(f);
      hide Current, HistoryOf, Governs, Sound;
    } else {
      hide Current, HistoryOf, Sound, Apply, MoveOf, Play, Legal;
      var front, last := steps[..|steps| - 1], steps[|steps| - 1];
      RunIsHistory(f, front);
      HistoryExtends(f, steps);
      var before, h := Current(f, front), HistoryOf(f, front);
      StepIsMove(before.g, before.next, f.me, last);
      AfterIsSound(h, f.me, Turn(MoveOf(before.g, f.me, last), last.env.skip));
    }
  }

  lemma HistoryStep(f: Founding, steps: seq<Step>)
    requires Proper(f, steps) && steps != []
    ensures var front, last := steps[..|steps| - 1], steps[|steps| - 1];
            && Governs(Current(f, front).g, Current(f, front).next, f.me)
            && Legal(HistoryOf(f, front).chair, f.me, MoveOf(Current(f, front).g, f.me, last))
            && HistoryOf(f, steps)
               == After(HistoryOf(f, front), f.me, Turn(MoveOf(Current(f, front).g, f.me, last), last.env.skip))
  {
    hide Sound, Apply, MoveOf, After, Current, HistoryOf;
    var front := steps[..|steps| - 1];
    RunIsHistory(f, front);
    HistoryExtends(f, steps);
    StepIsMove(Current(f, front).g, Current(f, front).next, f.me, steps[|steps| - 1]);
  }

  /** An Olm session to `u` can be opened whenever a key is due. */
  predicate Reachable(f: Founding, steps: seq<Step>, u: User) {
    u !in f.env.skip && forall i :: 0 <= i < |steps| ==> u !in steps[i].env.skip
  }

  lemma {:induction false} RunIsComplete(f: Founding, steps: seq<Step>, u: User)
    requires Proper(f, steps) && Reachable(f, steps, u)
    ensures Complete(HistoryOf(f, steps), f.me, u)
  {
    hide Sound, Complete, MoveOf, Legal;
    if steps == [] {
      OpeningIsComplete(f.me, f.members, f.mode, f.key, f.env.skip, u);
    } else {
      hide Current, HistoryOf, After;
      var front, last := steps[..|steps| - 1], steps[|steps| - 1];
      ProperFront(f, steps);
      RunIsComplete(f, front, u);
      RunIsHistory(f, front);
      HistoryStep(f, steps);
      AfterIsComplete(HistoryOf(f, front), f.me, Turn(MoveOf(Current(f, front).g, f.me, last), last.env.skip), u);
    }
  }

  lemma {:induction false} RunIsExact(f: Founding, steps: seq<Step>)
    requires Proper(f, steps)
    ensures Exact(HistoryOf(f, steps))
  {
    hide Sound, Exact, MoveOf, Legal;
    if steps == [] {
      OpeningIsExact(f.me, f.members, f.mode, f.key, f.env.skip);
    } else {
      hide Current, HistoryOf, After;
      var front, last := steps[..|steps| - 1], steps[|steps| - 1];
      ProperFront(f, steps);
      RunIsExact(f, front);
      RunIsHistory(f, front);
      HistoryStep(f, steps);
      AfterIsExact(HistoryOf(f, front), f.me, Turn(MoveOf(Current(f, front).g, f.me, last), last.env.skip));
    }
  }

  /** The session in use is held by exactly those its shares reached: the reachable members at the
      founding or the last rotation, and the reachable users seated since. All of them are members or
      left since the last rotation; and of these each who could be reached throughout holds it. */
  lemma HoldersOfCurrentKey(f: Founding, steps: seq<Step>, u: User)
    requires Proper(f, steps)
    ensures Current(f, steps).g.outbound.Some?
    ensures Holds(Current(f, steps).out, u, Current(f, steps).g.outbound.value.sid) <==> u in HistoryOf(f, steps).reached
    ensures var e := Current(f, steps);
            var entitled := (e.g.roster - {f.me}) + HistoryOf(f, steps).left;
            && (Holds(e.out, u, e.g.outbound.value.sid) ==> u in entitled)
            && (Reachable(f, steps, u) && u in entitled ==> Holds(e.out, u, e.g.outbound.value.sid))
  {
    RunIsHistory(f, steps);
    var e, h := Current(f, steps), HistoryOf(f, steps);
    RunIsExact(f, steps);
    if Reachable(f, steps, u) { RunIsComplete(f, steps, u); }
    if Holds(e.out, u, e.g.outbound.value.sid) {
      var p :| p in e.out && Gives(p, u, e.g.outbound.value.sid);
      assert ShareInOrder(p, h, f.me);
    }
    assert f.me !in h.left;
    hide Current, HistoryOf, Governs, Confined;
  }

  /** Of all keys the owner ever sends, before or after a message, only those of its addressees open it,
      and of those who left under its session before it was sent; and each of theirs does, if they were
      reached. */
  lemma ReadersAreAddressees(f: Founding, steps: seq<Step>, i: nat, u: User)
    requires Proper(f, steps) && i < |Current(f, steps).out| && Current(f, steps).out[i].Megolm?
    ensures i < |HistoryOf(f, steps).leavers|
    ensures var p, readers := Current(f, steps).out[i], Current(f, steps).out[i].to + HistoryOf(f, steps).leavers[i];
            && (CanOpen(Current(f, steps).out, u, p.cipher) ==> u in readers)
            && (Reachable(f, steps, u) && u in readers && u != f.me ==> CanOpen(Current(f, steps).out, u, p.cipher))
  {
    RunIsHistory(f, steps);
    if Reachable(f, steps, u) { RunIsComplete(f, steps, u); }
    var h := HistoryOf(f, steps);
    hide Current, HistoryOf, Governs;
    if CanOpen(h.wire, u, h.wire[i].cipher) {
      var q :| q in h.wire && Unlocks(q, h.wire[i].cipher) && u in q.to;
      assert Confined(h, i, q);
    }
  }

  // ---- A user who leaves ----

  const QUIETLY := Env(0, {}, false)

  /** The frames of a member who shares a session of their own and takes leave in it. */
  function Leaving(u: User): seq<Step> {
    [Recv(ShareIn(u, Some(Share(Some(SessionKey(7, 0)), {}, Nobody, Open, ""))), QUIETLY),
     Recv(MegolmIn(u, System, Cipher(7, 0, Sentinel)), QUIETLY)]
  }

  lemma LeavingStates(f: Founding, u: User)
    requires ValidMode(f.mode) && f.me != Nobody && u in f.members && u != f.me
    ensures var g := Founded(f).g.(inbound := map[u := SessionKey(7, 0)]);
            && Current(f, Leaving(u)[..1]).g == g && MoveOf(g, f.me, Leaving(u)[1]) == Depart(u)
            && Current(f, Leaving(u)).g.roster == g.roster - {u}
  {
    var steps := Leaving(u);
    var start, one := Founded(f), [steps[0]];
    var g := start.g;
    assert g.suspended - {u} == g.suspended && g.inbound[u := SessionKey(7, 0)] == map[u := SessionKey(7, 0)];
    assert HandleShare(g, u, steps[0].frame.content.value, QUIETLY) == g.(inbound := map[u := SessionKey(7, 0)]);
    assert steps[..1] == one && one[..|one| - 1] == [] && steps[..|steps| - 1] == one;
    assert Run(start.g, start.next, f.me, []) == Effect(start.g, start.next, []);
    hide HandleShare, HandleEvent, HandleMessage, HandleJoin, Create;
  }

  /** Every member reached at the founding who takes leave is off the roster at once and still holds the
      session the owner uses: whatever the owner says next, they can open it. */
  lemma LeaverReadsOn(f: Founding, u: User, plain: Plain)
    requires ValidMode(f.mode) && f.me != Nobody && u in f.members && u != f.me && u !in f.env.skip
    ensures var steps := Leaving(u);
            && Proper(f, steps) && u !in Current(f, steps).g.roster && u in HistoryOf(f, steps).left
            && Current(f, steps).g.outbound.Some?
            && Holds(Current(f, steps).out, u, Current(f, steps).g.outbound.value.sid)
    ensures var out := Current(f, Leaving(u) + [Do(Say(plain), QUIETLY)]).out;
            && out != [] && out[|out| - 1].Megolm? && out[|out| - 1].cipher.plain == plain
            && u !in out[|out| - 1].to && CanOpen(out, u, out[|out| - 1].cipher)
  {
    var steps := Leaving(u);
    LeavingStates(f, u);
    assert steps[..|steps| - 1] == steps[..1];
    HistoryStep(f, steps);
    HistoryStep(f, steps[..1]);
    RunIsHistory(f, steps[..1]);
    hide Current, HistoryOf, Run, Apply, MoveOf;
    assert u in HistoryOf(f, steps).left;
    HoldersOfCurrentKey(f, steps, u);
    LeaverReadsNext(f, steps, u, plain);
  }

  lemma LeaverReadsNext(f: Founding, steps: seq<Step>, u: User, plain: Plain)
    requires Proper(f, steps) && Reachable(f, steps, u) && u in HistoryOf(f, steps).left
    ensures var out := Current(f, steps + [Do(Say(plain), QUIETLY)]).out;
            && out != [] && out[|out| - 1].Megolm? && out[|out| - 1].cipher.plain == plain
            && u !in out[|out| - 1].to && CanOpen(out, u, out[|out| - 1].cipher)
  {
    var more := steps + [Do(Say(plain), QUIETLY)];
    assert more[..|more| - 1] == steps;
    RunIsHistory(f, steps);
    RunIsHistory(f, more);
    HistoryStep(f, more);
    var h := HistoryOf(f, steps);
    hide Current, HistoryOf, Run, Apply, TurnsOf, Unfold;
    ReadersAreAddressees(f, more, |h.wire|, u);
  }

  /** Once off the list of leavers, a user who stays off the roster stays off that list too. */
  lemma {:induction false} StaysOut(f: Founding, steps: seq<Step>, n: nat, u: User)
    requires Proper(f, steps) && n <= |steps| && u !in HistoryOf(f, steps[..n]).left
    requires forall k :: n <= k <= |steps| ==> u !in Current(f, steps[..k]).g.roster
    ensures u !in HistoryOf(f, steps).left
  {
    if n == |steps| {
      assert steps[..n] == steps;
    } else {
      var front := steps[..|steps| - 1];
      assert forall k :: n <= k < |steps| ==> steps[..k] == front[..k];
      StaysOut(f, front, n, u);
      HistoryStep(f, steps);
      RunIsHistory(f, front);
      assert front == steps[..|steps| - 1];
      hide Sound, MoveOf, Unfold, TurnsOf, Run, Governs;
    }
  }

  /** A command of `me` that takes `u` off the roster and rotates the key. */
  predicate ExpelsUser(me: User, step: Step, u: User) {
    && u != me && step.Do?
    && match step.cmd
       case Remove(who) => who == u
       case Ban(who) => who == u
       case Suspend(who, duration) => who == u && duration.Some? && duration.value > 0
       case _ => false
  }

  lemma RotationForgetsLeavers(f: Founding, steps: seq<Step>, u: User)
    requires Proper(f, steps) && steps != [] && ExpelsUser(f.me, steps[|steps| - 1], u)
    ensures HistoryOf(f, steps).left == {}
  {
    HistoryStep(f, steps);
    hide HistoryOf, Current, Governs;
  }

  /** A removed, banned or suspended user was never sent the session in use, from the rotation until
      the user is on the roster again. */
  lemma ExpelledHoldNoCurrentKey(f: Founding, steps: seq<Step>, n: nat, u: User)
    requires Proper(f, steps) && n < |steps| && ExpelsUser(f.me, steps[n], u)
    requires forall k :: n < k <= |steps| ==> u !in Current(f, steps[..k]).g.roster
    ensures Current(f, steps).g.outbound.Some?
    ensures !Holds(Current(f, steps).out, u, Current(f, steps).g.outbound.value.sid)
  {
    RotationForgetsLeavers(f, steps[..n + 1], u);
    StaysOut(f, steps, n + 1, u);
    HoldersOfCurrentKey(f, steps, u);
    hide Current, HistoryOf, Holds;
    assert steps[..|steps|] == steps;
  }

  /** Nothing but a refusal goes to a banned user. */
  predicate Spares(p: Packet, u: User) {
    p.Denial? || u !in p.to
  }

  lemma StepSparesBanned(g: Group, next: Sid, me: User, step: Step, u: User)
    requires Governs(g, next, me) && Staying(me, step) && u in g.bans && step != Do(Unban(u), step.env)
    ensures var e := Apply(g, next, me, step);
            u in e.g.bans && u !in e.g.roster && forall p :: p in e.out ==> Spares(p, u)
  {
    StepIsMove(g, next, me, step);
    hide Apply, MoveOf;
  }

  lemma CurrentGoverns(f: Founding, steps: seq<Step>)
    requires Proper(f, steps)
    ensures Governs(Current(f, steps).g, Current(f, steps).next, f.me)
  {
    RunIsHistory(f, steps);
    hide Sound, HistoryOf, Apply, Governs, Current;
  }

  lemma ProperFront(f: Founding, steps: seq<Step>)
    requires Proper(f, steps) && steps != []
    ensures Proper(f, steps[..|steps| - 1]) && Staying(f.me, steps[|steps| - 1])
  {
    hide Staying;
  }

  lemma CurrentStep(f: Founding, steps: seq<Step>)
    requires Proper(f, steps) && steps != []
    ensures var front, last := steps[..|steps| - 1], steps[|steps| - 1];
            var before, after := Current(f, front), Current(f, steps);
            var e := Apply(before.g, before.next, f.me, last);
            && Governs(before.g, before.next, f.me)
            && after.g == e.g && after.next == e.next && after.out == before.out + e.out
  {
    hide Apply, Governs, Founded, Proper;
    ProperFront(f, steps);
    CurrentGoverns(f, steps[..|steps| - 1]);
  }

  /** From a ban until the unban the user is off the roster and is sent no key, no event and no
      message of the group, whatever joins, invitations and commands come in between. */
  lemma {:induction false} BannedGetNothing(f: Founding, steps: seq<Step>, n: nat, u: User)
    requires Proper(f, steps) && n < |steps| && u != f.me && steps[n] == Do(Ban(u), steps[n].env)
    requires forall k :: n < k < |steps| ==> steps[k] != Do(Unban(u), steps[k].env)
    ensures var before, e := Current(f, steps[..n + 1]), Current(f, steps);
            && u in e.g.bans && u !in e.g.roster
            && before.out <= e.out
            && forall p :: p in e.out[|before.out|..] ==> Spares(p, u)
  {
    hide Current, Apply, Spares, Governs, Proper, Staying;
    var front, last := steps[..|steps| - 1], steps[|steps| - 1];
    ProperFront(f, steps);
    CurrentStep(f, steps);
    var e := Current(f, front);
    if n == |steps| - 1 {
      assert steps[..n + 1] == steps;
      BanBans(e.g, e.next, f.me, u, last.env);
    } else {
      assert front[..n + 1] == steps[..n + 1];
      BannedGetNothing(f, front, n, u);
      StepSparesBanned(e.g, e.next, f.me, last, u);
      var before, more := Current(f, steps[..n + 1]), Apply(e.g, e.next, f.me, last).out;
      assert (e.out + more)[|before.out|..] == e.out[|before.out|..] + more;
    }
  }

  lemma BanBans(g: Group, next: Sid, me: User, u: User, env: Env)
    requires Governs(g, next, me) && u != me
    ensures var e := Apply(g, next, me, Do(Ban(u), env)); u in e.g.bans && u !in e.g.roster
  {
    CommandIsMove(g, next, me, Ban(u), env);
    hide Execute;
  }
}
