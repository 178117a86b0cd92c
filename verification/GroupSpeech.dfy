/** Speech between members. A Megolm session belongs to one sender, who shares its key when minting it:
    whoever is on the sender's roster then, and can be reached, has the key before any message of that
    session, over every run of any member's client; and a peer that takes the share and the message in
    turn stores exactly what was said. */
module GroupSpeech {
  import opened Wrappers
  import opened Groups
  import opened GroupOwner

  /** What a client needs to start from: its session, if any, is one it minted, and an owner has one. Both
      hold of a group just created and of no group at all. */
  predicate Fit(g: Group, next: Sid, me: User) {
    && (g.outbound.Some? ==> g.outbound.value.sid < next)
    && (OwnedBy(g, me) ==> g.outbound.Some?)
  }

  /** Olm names the true sender of a share, who is somebody else. */
  predicate Foreign(me: User, step: Step) {
    step.Recv? && step.frame.ShareIn? ==> step.frame.from != me
  }

  /** The user that a command of ours takes off the roster, if it is carried out. */
  function Target(step: Step): set<User> {
    match step
    case Do(Remove(u), _) => {u}
    case Do(Ban(u), _) => {u}
    case Do(Suspend(u, _), _) => {u}
    case _ => {}
  }

  /** Whom the key of each session minted in the run is owed to: everybody else on the roster when it was
      minted, those left out that no Olm session could be opened to, or that the minting step expels. */
  function Owed(g: Group, next: Sid, me: User, steps: seq<Step>): map<Sid, set<User>> {
    if steps == [] then map[]
    else
      var front, last := steps[..|steps| - 1], steps[|steps| - 1];
      var before, after := Run(g, next, me, front), Run(g, next, me, steps);
      var owed := Owed(g, next, me, front);
      if after.next > before.next then owed[before.next := before.g.roster - {me} - last.env.skip - Target(last)] else owed
  }

  /** Among the first `j` packets is a share that opens message `index` of session `sid` to `u`. */
  ghost predicate Keyed(out: seq<Packet>, j: int, u: User, sid: Sid, index: int) {
    exists i :: 0 <= i < j && i < |out| && GivesFrom(out[i], u, sid, index)
  }

  predicate GivesFrom(p: Packet, u: User, sid: Sid, index: int) {
    && p.KeyShare? && u in p.to && p.share.session.Some?
    && p.share.session.value.sid == sid && p.share.session.value.first <= index
  }

  // ---- What one step says ----

  /** The packets of a step that mints no session speak in the one at hand, from its number on. */
  ghost predicate SpeaksOn(g: Group, next: Sid, e: Effect) {
    && e.next == next
    && (forall p :: p in e.out && p.Megolm? ==>
          g.outbound.Some? && p.cipher.sid == g.outbound.value.sid && p.cipher.index >= g.outbound.value.index)
    && (e.g.outbound.Some? ==>
          g.outbound.Some? && e.g.outbound.value.sid == g.outbound.value.sid && e.g.outbound.value.index >= g.outbound.value.index)
  }

  /** A step that mints session `next` shares it from its first number on, with everybody it is owed to;
      what it says before is in the session at hand, what it says after in the new one. */
  ghost predicate SpeaksAnew(g: Group, next: Sid, owed: set<User>, e: Effect) {
    && e.next == next + 1 && |e.out| == 2
    && (e.g.outbound.Some? ==> e.g.outbound.value.sid == next && e.g.outbound.value.index >= 0)
    && ((&& e.out[0].KeyShare? && e.out[0].to == owed && e.out[0].share.session == Some(SessionKey(next, 0))
         && e.out[1].Megolm? && e.out[1].cipher.sid == next && e.out[1].cipher.index >= 0)
        || (&& g.outbound.Some? && e.out[0].Megolm?
            && e.out[0].cipher.sid == g.outbound.value.sid && e.out[0].cipher.index >= g.outbound.value.index
            && e.out[1].KeyShare? && e.out[1].to == owed && e.out[1].share.session == Some(SessionKey(next, 0))))
  }

  ghost predicate Speaks(g: Group, next: Sid, me: User, step: Step, e: Effect) {
    SpeaksOn(g, next, e) || SpeaksAnew(g, next, g.roster - {me} - step.env.skip - Target(step), e)
  }

  lemma SayingSpeaks(g: Group, next: Sid, me: User, step: Step)
    requires Fit(g, next, me) && step.Do? && (step.cmd.Say? || step.cmd.Leave?)
    ensures var e := Apply(g, next, me, step); Speaks(g, next, me, step, e) && (OwnedBy(e.g, me) ==> e.g.outbound.Some?)
  {
    if step.cmd.Leave? && g.chat && step.cmd.connected {
      assert |Apply(g, next, me, step).out| == if g.outbound.Some? then 1 else 2;
    }
  }

  lemma AdmittingSpeaks(g: Group, next: Sid, me: User, who: User, env: Env)
    requires g.outbound.Some? && g.meta.Some?
    ensures var e := AdmitMember(g, next, me, who, env);
            SpeaksOn(g, next, e) && e.g.outbound.Some? && e.g.meta == g.meta
  {
    var g1 := g.(roster := g.roster + {who}, requests := g.requests - {who});
    BroadcastPlays(g1, next, me, Event(Joined, who, None, None), env);
    hide Broadcast;
  }

  lemma ModeratingSpeaks(g: Group, next: Sid, me: User, ev: Event, env: Env)
    requires g.outbound.Some? && g.meta.Some? && ev.who != me
    ensures var e := Moderate(g, next, me, ev, env);
            SpeaksAnew(g, next, g.roster - {me} - env.skip - {ev.who}, e) && e.g.outbound.Some? && e.g.meta == g.meta
  {
    ModerateDrops(g, next, me, ev, env);
    BroadcastPlays(g, next, me, ev, env);
    hide Broadcast;
    assert (g.roster - {ev.who}) - {me} - env.skip == g.roster - {me} - env.skip - {ev.who};
  }

  lemma SeatingSpeaks(g: Group, next: Sid, me: User, step: Step)
    requires Fit(g, next, me) && step.Do? && (step.cmd.Invite? || step.cmd.Accept?)
    ensures var e := Apply(g, next, me, step); SpeaksOn(g, next, e) && (OwnedBy(e.g, me) ==> e.g.outbound.Some?)
  {
    hide AdmitMember, IsSuspended;
    if OwnedBy(g, me) { AdmittingSpeaks(Expire(g, step.cmd.user, step.env.now), next, me, step.cmd.user, step.env); }
  }

  lemma ExpellingSpeaks(g: Group, next: Sid, me: User, step: Step)
    requires Fit(g, next, me) && step.Do? && (step.cmd.Remove? || step.cmd.Ban? || step.cmd.Suspend?)
    ensures var e := Apply(g, next, me, step); Speaks(g, next, me, step, e) && (OwnedBy(e.g, me) ==> e.g.outbound.Some?)
  {
    hide Moderate, SpeaksOn, SpeaksAnew;
    SilenceSpeaks(g, next);
    var owed := g.roster - {me} - step.env.skip - Target(step);
    match step.cmd {
      case Remove(u) =>
        if OwnedBy(g, me) && u != me { ModeratingSpeaks(g, next, me, Event(Removed, u, None, None), step.env); }
      case Ban(u) =>
        var marked := g.(bans := g.bans + {u});
        if OwnedBy(g, me) && u != me { ModeratingSpeaks(marked, next, me, Event(Banned, u, None, None), step.env); }
        MarksAreSilent(g, marked, next, owed);
      case Suspend(u, d) =>
        if OwnedBy(g, me) && u != me && d.Some? {
          var until := step.env.now + d.value;
          var marked := g.(suspended := g.suspended[u := until]);
          ModeratingSpeaks(marked, next, me, Event(Suspended, u, None, Some(until)), step.env);
          MarksAreSilent(g, marked, next, owed);
        }
    }
  }

  lemma GoverningSpeaks(g: Group, next: Sid, me: User, step: Step)
    requires Fit(g, next, me) && step.Do? && !step.cmd.Say? && !step.cmd.Leave?
    ensures var e := Apply(g, next, me, step); Speaks(g, next, me, step, e) && (OwnedBy(e.g, me) ==> e.g.outbound.Some?)
  {
    if step.cmd.Invite? || step.cmd.Accept? {
      hide Apply;
      SeatingSpeaks(g, next, me, step);
    } else if step.cmd.Remove? || step.cmd.Ban? || step.cmd.Suspend? {
      hide Apply, Speaks;
      ExpellingSpeaks(g, next, me, step);
    } else {
      hide Broadcast, AdmitMember, Moderate;
      if step.cmd.SetAccess? && OwnedBy(g, me) { RulingSpeaks(g, next, me, step.cmd.mode, step.env); }
    }
  }

  lemma SilenceSpeaks(g: Group, next: Sid)
    ensures SpeaksOn(g, next, Effect(g, next, []))
  {
  }

  lemma MarksAreSilent(g: Group, marked: Group, next: Sid, owed: set<User>)
    requires marked.outbound == g.outbound
    ensures forall e :: SpeaksAnew(marked, next, owed, e) ==> SpeaksAnew(g, next, owed, e)
  {
  }

  lemma RulingSpeaks(g: Group, next: Sid, me: User, mode: Mode, env: Env)
    requires g.outbound.Some? && g.meta.Some?
    ensures var ruled := g.(meta := Some(g.meta.value.(mode := mode)));
            var e := Broadcast(ruled, next, me, Event(Access, Nobody, Some(mode), None), env);
            e.g.outbound.Some? && e.g.meta == ruled.meta
            && forall lines :: SpeaksOn(g, next, e.(g := e.g.(lines := lines)))
  {
    var ruled := g.(meta := Some(g.meta.value.(mode := mode)));
    BroadcastPlays(ruled, next, me, Event(Access, Nobody, Some(mode), None), env);
    hide Broadcast;
  }

  lemma JoiningSpeaks(g: Group, next: Sid, me: User, from: User, key: string, env: Env)
    requires Fit(g, next, me)
    ensures var e := HandleJoin(g, next, me, from, key, env); SpeaksOn(g, next, e) && (OwnedBy(e.g, me) ==> e.g.outbound.Some?)
  {
    hide AdmitMember, ValidKey, IsSuspended;
    if OwnedBy(g, me) { AdmittingSpeaks(Expire(g, from, env.now), next, me, from, env); }
  }

  lemma SharingIsSilent(g: Group, from: User, s: Share, env: Env, me: User)
    requires from != me
    ensures var h := HandleShare(g, from, s, env); h.outbound == g.outbound && (OwnedBy(h, me) ==> OwnedBy(g, me))
  {
    hide ValidKey, ValidMode, IsSuspended;
  }

  lemma OpeningIsSilent(g: Group, me: User, from: User, tag: Tag, c: Cipher, env: Env)
    ensures var e := Receive(g, 0, me, MegolmIn(from, tag, c), env);
            e.out == [] && (e.g == NO_GROUP || (e.g.outbound == g.outbound && (OwnedBy(e.g, me) ==> OwnedBy(g, me))))
  {
    hide ValidMode, Fresh, Opens, Evicts;
  }

  lemma ReceivingSpeaks(g: Group, next: Sid, me: User, step: Step)
    requires Fit(g, next, me) && Foreign(me, step) && step.Recv?
    ensures var e := Apply(g, next, me, step); SpeaksOn(g, next, e) && (OwnedBy(e.g, me) ==> e.g.outbound.Some?)
  {
    hide HandleJoin, HandleShare, HandleMessage, HandleSystem, HandleEvent;
    match step.frame {
      case JoinIn(from, key) => JoiningSpeaks(g, next, me, from, key, step.env);
      case ShareIn(from, Some(s)) => SharingIsSilent(g, from, s, step.env, me);
      case MegolmIn(from, tag, c) => OpeningIsSilent(g, me, from, tag, c, step.env);
      case _ =>
    }
  }

  lemma StepSpeaks(g: Group, next: Sid, me: User, step: Step)
    requires Fit(g, next, me) && Foreign(me, step)
    ensures var e := Apply(g, next, me, step); Speaks(g, next, me, step, e) && Fit(e.g, e.next, me)
  {
    hide Apply, SpeaksOn, SpeaksAnew, OwnedBy;
    if step.Recv? {
      ReceivingSpeaks(g, next, me, step);
    } else if step.cmd.Say? || step.cmd.Leave? {
      SayingSpeaks(g, next, me, step);
    } else {
      GoverningSpeaks(g, next, me, step);
    }
    SpeakingFits(g, next, me, step, Apply(g, next, me, step));
  }

  lemma SpeakingFits(g: Group, next: Sid, me: User, step: Step, e: Effect)
    requires Fit(g, next, me) && Speaks(g, next, me, step, e)
    ensures e.g.outbound.Some? ==> e.g.outbound.value.sid < e.next
  {
  }

  // ---- Every run ----

  /** Every session in use was minted in the run, the one held at its start excepted. */
  predicate Ours(start: Group, owed: map<Sid, set<User>>, sid: Sid) {
    sid in owed || (start.outbound.Some? && sid == start.outbound.value.sid)
  }

  /** Each message so far, and the next one, comes after the shares that open it to those it is owed to. */
  ghost predicate Served(start: Group, e: Effect, owed: map<Sid, set<User>>) {
    && (forall sid :: sid in owed ==> sid < e.next)
    && (forall j :: 0 <= j < |e.out| && e.out[j].Megolm? ==>
          e.out[j].cipher.sid < e.next && Ours(start, owed, e.out[j].cipher.sid))
    && (e.g.outbound.Some? ==> Ours(start, owed, e.g.outbound.value.sid))
    && (forall j, u :: 0 <= j < |e.out| && e.out[j].Megolm? && e.out[j].cipher.sid in owed && u in owed[e.out[j].cipher.sid] ==>
          Keyed(e.out, j, u, e.out[j].cipher.sid, e.out[j].cipher.index))
    && (e.g.outbound.Some? && e.g.outbound.value.sid in owed ==>
          forall u :: u in owed[e.g.outbound.value.sid] ==>
            Keyed(e.out, |e.out|, u, e.g.outbound.value.sid, e.g.outbound.value.index))
  }

  lemma KeyedStays(out: seq<Packet>, more: seq<Packet>, j: int, k: int, u: User, sid: Sid, index: int, later: int)
    requires Keyed(out, j, u, sid, index) && j <= k && index <= later
    ensures Keyed(out + more, k, u, sid, later)
  {
    var i :| 0 <= i < j && i < |out| && GivesFrom(out[i], u, sid, index);
    assert GivesFrom((out + more)[i], u, sid, later);
  }

  lemma OldPacketsStayServed(start: Group, before: Effect, e: Effect, owed: map<Sid, set<User>>, now: map<Sid, set<User>>, j: int, u: User)
    requires Served(start, before, owed) && 0 <= j < |before.out| && before.out[j].Megolm?
    requires forall sid :: sid < before.next ==> (sid in now <==> sid in owed) && (sid in owed ==> now[sid] == owed[sid])
    requires before.out[j].cipher.sid in now && u in now[before.out[j].cipher.sid]
    ensures Keyed(before.out + e.out, j, u, before.out[j].cipher.sid, before.out[j].cipher.index)
  {
    var c := before.out[j].cipher;
    assert Keyed(before.out, j, u, c.sid, c.index);
    KeyedStays(before.out, e.out, j, j, u, c.sid, c.index, c.index);
  }

  /** A packet or a session that goes on in the session at hand is served by the shares before. */
  lemma OnwardIsKeyed(start: Group, before: Effect, e: Effect, owed: map<Sid, set<User>>, k: int, u: User, index: int)
    requires Served(start, before, owed) && before.g.outbound.Some? && before.g.outbound.value.sid in owed
    requires u in owed[before.g.outbound.value.sid] && index >= before.g.outbound.value.index && k >= |before.out|
    ensures Keyed(before.out + e.out, k, u, before.g.outbound.value.sid, index)
  {
    var s := before.g.outbound.value;
    KeyedStays(before.out, e.out, |before.out|, k, u, s.sid, s.index, index);
  }

  lemma SpeakingOnServes(start: Group, before: Effect, e: Effect, owed: map<Sid, set<User>>, me: User)
    requires Fit(before.g, before.next, me) && Served(start, before, owed) && SpeaksOn(before.g, before.next, e)
    ensures Served(start, Effect(e.g, e.next, before.out + e.out), owed)
  {
    hide Keyed, OwnedBy;
    var out := before.out + e.out;
    forall j, u | 0 <= j < |out| && out[j].Megolm? && out[j].cipher.sid in owed && u in owed[out[j].cipher.sid]
      ensures Keyed(out, j, u, out[j].cipher.sid, out[j].cipher.index)
    {
      if j < |before.out| {
        OldPacketsStayServed(start, before, e, owed, owed, j, u);
      } else {
        assert out[j] == e.out[j - |before.out|] && out[j] in e.out;
        OnwardIsKeyed(start, before, e, owed, j, u, out[j].cipher.index);
      }
    }
    forall j | 0 <= j < |out| && out[j].Megolm? ensures out[j].cipher.sid < e.next && Ours(start, owed, out[j].cipher.sid) {
      if j >= |before.out| { assert out[j] == e.out[j - |before.out|] && out[j] in e.out; }
    }
    if e.g.outbound.Some? && e.g.outbound.value.sid in owed {
      forall u | u in owed[e.g.outbound.value.sid]
        ensures Keyed(out, |out|, u, e.g.outbound.value.sid, e.g.outbound.value.index)
      {
        OnwardIsKeyed(start, before, e, owed, |out|, u, e.g.outbound.value.index);
      }
    }
  }

  lemma NewSessionIsKeyed(before: Effect, e: Effect, due: set<User>, u: User, k: int, index: int)
    requires SpeaksAnew(before.g, before.next, due, e) && u in due && index >= 0
    requires k > |before.out| + if e.out[0].KeyShare? then 0 else 1
    ensures Keyed(before.out + e.out, k, u, before.next, index)
  {
    var i := if e.out[0].KeyShare? then 0 else 1;
    assert GivesFrom((before.out + e.out)[|before.out| + i], u, before.next, index);
  }

  lemma SpeakingAnewServes(start: Group, before: Effect, e: Effect, owed: map<Sid, set<User>>, due: set<User>, me: User)
    requires Fit(before.g, before.next, me) && Served(start, before, owed) && SpeaksAnew(before.g, before.next, due, e)
    ensures Served(start, Effect(e.g, e.next, before.out + e.out), owed[before.next := due])
  {
    hide Keyed, OwnedBy;
    var out, now := before.out + e.out, owed[before.next := due];
    forall j, u | 0 <= j < |out| && out[j].Megolm? && out[j].cipher.sid in now && u in now[out[j].cipher.sid]
      ensures Keyed(out, j, u, out[j].cipher.sid, out[j].cipher.index)
    {
      if j < |before.out| {
        OldPacketsStayServed(start, before, e, owed, now, j, u);
      } else if e.out[0].KeyShare? {
        NewSessionIsKeyed(before, e, due, u, j, out[j].cipher.index);
      } else {
        OnwardIsKeyed(start, before, e, owed, j, u, out[j].cipher.index);
      }
    }
    if e.g.outbound.Some? {
      forall u | u in due ensures Keyed(out, |out|, u, before.next, e.g.outbound.value.index) {
        NewSessionIsKeyed(before, e, due, u, |out|, e.g.outbound.value.index);
      }
    }
  }

  ghost predicate AllForeign(me: User, steps: seq<Step>) {
    forall i :: 0 <= i < |steps| ==> Foreign(me, steps[i])
  }

  lemma {:induction false} RunIsServed(g: Group, next: Sid, me: User, steps: seq<Step>)
    requires Fit(g, next, me) && AllForeign(me, steps)
    ensures var e := Run(g, next, me, steps); Fit(e.g, e.next, me) && Served(g, e, Owed(g, next, me, steps))
  {
    if steps != [] {
      hide Apply, Served, SpeaksOn, SpeaksAnew, Foreign, Fit;
      var front, last := steps[..|steps| - 1], steps[|steps| - 1];
      RunIsServed(g, next, me, front);
      var before := Run(g, next, me, front);
      var e := Apply(before.g, before.next, me, last);
      StepSpeaks(before.g, before.next, me, last);
      var due := before.g.roster - {me} - last.env.skip - Target(last);
      if SpeaksOn(before.g, before.next, e) {
        SpeakingOnServes(g, before, e, Owed(g, next, me, front), me);
        assert e.next == before.next by { NextWhenOn(before.g, before.next, e); }
      } else {
        SpeakingAnewServes(g, before, e, Owed(g, next, me, front), due, me);
        assert e.next == before.next + 1 by { NextWhenAnew(before.g, before.next, due, e); }
      }
    }
  }

  lemma NextWhenOn(g: Group, next: Sid, e: Effect)
    requires SpeaksOn(g, next, e)
    ensures e.next == next
  {
  }

  lemma NextWhenAnew(g: Group, next: Sid, due: set<User>, e: Effect)
    requires SpeaksAnew(g, next, due, e)
    ensures e.next == next + 1
  {
  }

  /** Over any run of any client, erasures included: every message is in a session the run minted, or in the
      one at hand when it began; and whoever else was on the roster, reachable and not being expelled when
      the session was minted was sent, before the message, a share that opens it. */
  lemma OwedHoldTheKey(g: Group, next: Sid, me: User, steps: seq<Step>, j: int, u: User)
    requires Fit(g, next, me) && AllForeign(me, steps)
    requires 0 <= j < |Run(g, next, me, steps).out| && Run(g, next, me, steps).out[j].Megolm?
    ensures var sid, owed := Run(g, next, me, steps).out[j].cipher.sid, Owed(g, next, me, steps);
            sid in owed || (g.outbound.Some? && sid == g.outbound.value.sid)
    ensures var out, owed := Run(g, next, me, steps).out, Owed(g, next, me, steps);
            out[j].cipher.sid in owed && u in owed[out[j].cipher.sid] ==>
              exists i :: 0 <= i < j && out[i].KeyShare? && u in out[i].to && out[i].share.session.Some?
                          && out[i].share.session.value.sid == out[j].cipher.sid
                          && out[i].share.session.value.first <= out[j].cipher.index
  {
    hide Run, Owed;
    RunIsServed(g, next, me, steps);
    var out, owed := Run(g, next, me, steps).out, Owed(g, next, me, steps);
    if out[j].cipher.sid in owed && u in owed[out[j].cipher.sid] {
      assert Keyed(out, j, u, out[j].cipher.sid, out[j].cipher.index);
      var i :| 0 <= i < j && i < |out| && GivesFrom(out[i], u, out[j].cipher.sid, out[j].cipher.index);
    }
  }

  // ---- Members share with nobody else ----

  /** What a member that is not the owner sends keys of: the session it mints, to those it owes it to. */
  predicate SharesOnMinting(g: Group, next: Sid, me: User, step: Step, e: Effect) {
    && !OwnedBy(e.g, me)
    && forall p :: p in e.out && p.KeyShare? ==>
         e.next > next && p.to == g.roster - {me} - step.env.skip - Target(step) && p.share.session == Some(SessionKey(next, 0))
  }

  lemma MembersSay(g: Group, next: Sid, me: User, cmd: Command, env: Env)
    requires !OwnedBy(g, me)
    ensures SharesOnMinting(g, next, me, Do(cmd, env), Execute(g, next, me, cmd, env))
  {
    hide AdmitMember, Moderate, Broadcast;
    if !cmd.Say? && !cmd.Leave? { assert Execute(g, next, me, cmd, env) == Effect(g, next, []); }
  }

  lemma MembersShareOnMinting(g: Group, next: Sid, me: User, step: Step)
    requires !OwnedBy(g, me) && Foreign(me, step)
    ensures SharesOnMinting(g, next, me, step, Apply(g, next, me, step))
  {
    hide Execute, HandleShare, HandleMessage, HandleSystem, HandleEvent, AdmitMember;
    match step {
      case Do(cmd, env) => MembersSay(g, next, me, cmd, env);
      case Recv(ShareIn(from, Some(s)), env) => SharingIsSilent(g, from, s, env, me);
      case Recv(MegolmIn(from, tag, c), env) => OpeningIsSilent(g, me, from, tag, c, env);
      case _ =>
    }
  }

  lemma NextNeverFalls(g: Group, next: Sid, me: User, step: Step)
    requires !OwnedBy(g, me)
    ensures Apply(g, next, me, step).next >= next
  {
    hide HandleShare, HandleMessage, HandleSystem, HandleEvent;
  }

  ghost predicate Private(e: Effect, owed: map<Sid, set<User>>) {
    && (forall sid :: sid in owed ==> sid < e.next)
    && forall p :: p in e.out && p.KeyShare? ==>
         p.share.session.Some? && p.share.session.value.sid in owed && p.to == owed[p.share.session.value.sid]
  }

  lemma StepStaysPrivate(before: Effect, e: Effect, owed: map<Sid, set<User>>, due: set<User>)
    requires Private(before, owed) && e.next >= before.next
    requires forall p :: p in e.out && p.KeyShare? ==>
               e.next > before.next && p.to == due && p.share.session == Some(SessionKey(before.next, 0))
    ensures Private(Effect(e.g, e.next, before.out + e.out), if e.next > before.next then owed[before.next := due] else owed)
  {
    assert forall p :: p in before.out + e.out <==> p in before.out || p in e.out;
  }

  /** A member that is not the owner sends the key of each session to those it is owed to and to nobody
      else, and never sends any other. */
  lemma {:induction false} OnlyOwedHoldTheKey(g: Group, next: Sid, me: User, steps: seq<Step>)
    requires !OwnedBy(g, me) && AllForeign(me, steps)
    ensures !OwnedBy(Run(g, next, me, steps).g, me) && Private(Run(g, next, me, steps), Owed(g, next, me, steps))
  {
    if steps != [] {
      hide Apply, Foreign, OwnedBy, Private;
      var front, last := steps[..|steps| - 1], steps[|steps| - 1];
      OnlyOwedHoldTheKey(g, next, me, front);
      var before := Run(g, next, me, front);
      var e := Apply(before.g, before.next, me, last);
      MembersShareOnMinting(before.g, before.next, me, last);
      NextNeverFalls(before.g, before.next, me, last);
      StepStaysPrivate(before, e, Owed(g, next, me, front), before.g.roster - {me} - last.env.skip - Target(last));
    } else {
      assert Private(Effect(g, next, []), map[]) by { NothingIsPrivate(g, next); }
    }
  }

  lemma NothingIsPrivate(g: Group, next: Sid)
    ensures Private(Effect(g, next, []), map[])
  {
  }

  // ---- The round trip ----

  /** A peer in good standing: on the roster, and neither banned nor serving a suspension. */
  predicate Seated(h: Group, from: User, now: int) {
    h.chat && from in h.roster && from !in h.bans && (from in h.suspended ==> h.suspended[from] <= now)
  }

  lemma RunOfTwo(g: Group, next: Sid, me: User, a: Step, b: Step)
    ensures var e := Apply(g, next, me, a);
            var f := Apply(e.g, e.next, me, b);
            Run(g, next, me, [a, b]) == Effect(f.g, f.next, e.out + f.out)
  {
    hide Apply;
    assert [a, b][..1] == [a] && [a][..0] == [];
    assert Run(g, next, me, []) == Effect(g, next, []);
    var e := Apply(g, next, me, a);
    assert Run(g, next, me, [a]) == Effect(e.g, e.next, [] + e.out);
    assert [] + e.out == e.out;
  }

  /** A recipient that has the sender on its roster and takes, one after the other, a share and a message
      that the share opens gains exactly the line that was said. */
  lemma SharedIsHeard(h: Group, next: Sid, me: User, from: User, s: Share, c: Cipher, env: Env, later: Env)
    requires Seated(h, from, env.now) && s.session.Some?
    requires s.session.value.sid == c.sid && s.session.value.first <= c.index
    requires (from, c.sid) in h.seen ==> h.seen[(from, c.sid)] < c.index
    ensures var e := Run(h, next, me, [Recv(ShareIn(from, Some(s)), env), Recv(MegolmIn(from, Message, c), later)]);
            e.g.lines == h.lines + [Said(from, c.plain)] && e.out == []
  {
    hide Run, ValidKey, ValidMode, HandleJoin, HandleEvent, HandleSystem;
    RunOfTwo(h, next, me, Recv(ShareIn(from, Some(s)), env), Recv(MegolmIn(from, Message, c), later));
  }

  /** The first thing a member says, from its command to the line at any peer: the peer was on the member's
      roster, could be reached, and has the member on its own. */
  lemma FirstWordIsHeard(g: Group, next: Sid, me: User, plain: Plain, env: Env, h: Group, u: User, env1: Env, env2: Env)
    requires g.chat && g.outbound.None? && u in g.roster && u != me && u !in env.skip
    requires Seated(h, me, env1.now) && forall sid :: sid >= next ==> (me, sid) !in h.seen
    ensures var out := Apply(g, next, me, Do(Say(plain), env)).out;
            && |out| == 2 && out[0].KeyShare? && u in out[0].to && out[1].Megolm? && u in out[1].to
            && var frames := [Recv(ShareIn(me, Some(out[0].share)), env1), Recv(MegolmIn(me, out[1].tag, out[1].cipher), env2)];
               Run(h, 0, u, frames).g.lines == h.lines + [Said(me, plain)]
  {
    var out := Apply(g, next, me, Do(Say(plain), env)).out;
    SharedIsHeard(h, 0, u, me, out[0].share, out[1].cipher, env1, env2);
    hide Run;
  }
}
