/** From member to member: what somebody who is not the owner says in a run reaches a peer that takes its
    frames in order as exactly those lines, once each and in order, as far as the keys were shared. */
module GroupPeers {
  import opened Wrappers
  import opened Groups
  import opened GroupSpeech

  /** The session and number that come next after `out`. */
  function Voice(out: seq<Packet>): Option<Sender> {
    if out == [] then None
    else
      match out[|out| - 1]
      case KeyShare(_, s) => if s.session.Some? then Some(Sender(s.session.value.sid, s.session.value.first)) else None
      case Megolm(_, _, c) => Some(Sender(c.sid, c.index + 1))
      case Denial(_) => Voice(out[..|out| - 1])
  }

  /** Shares of ever later sessions, each followed by its messages, numbered without a gap. */
  ghost predicate Continuous(out: seq<Packet>) {
    out != [] ==>
      var front, last := out[..|out| - 1], out[|out| - 1];
      && Continuous(front)
      && match last
         case KeyShare(_, s) =>
           s.session.Some? && s.session.value.first == 0 && (Voice(front).Some? ==> Voice(front).value.sid < s.session.value.sid)
         case Megolm(_, tag, c) => tag.Message? && Voice(front) == Some(Sender(c.sid, c.index))
         case Denial(_) => false
  }

  lemma ContinuousGrows(out: seq<Packet>, p: Packet)
    requires Continuous(out)
    requires match p
             case KeyShare(_, s) =>
               s.session.Some? && s.session.value.first == 0 && (Voice(out).Some? ==> Voice(out).value.sid < s.session.value.sid)
             case Megolm(_, tag, c) => tag.Message? && Voice(out) == Some(Sender(c.sid, c.index))
             case Denial(_) => false
    ensures Continuous(out + [p])
    ensures match p
            case KeyShare(_, s) => Voice(out + [p]) == Some(Sender(s.session.value.sid, 0))
            case Megolm(_, _, c) => Voice(out + [p]) == Some(Sender(c.sid, c.index + 1))
            case Denial(_) => true
  {
    assert (out + [p])[..|out|] == out;
  }

  /** A member that speaks and governs, or tries to, but does not leave. */
  predicate Speaking(me: User, step: Step) {
    Foreign(me, step) && (step.Do? ==> !step.cmd.Leave?)
  }

  /** A member that is not the owner and does not leave sends nothing, or one message, or the share of a
      new session and its first message. */
  predicate Sends(g: Group, next: Sid, e: Effect) {
    if e.out == [] then e.next == next && (e.g.outbound.None? || e.g.outbound == g.outbound)
    else if g.outbound.Some? then
      && e.next == next && |e.out| == 1 && e.out[0].Megolm? && e.out[0].tag.Message?
      && e.out[0].cipher.sid == g.outbound.value.sid && e.out[0].cipher.index == g.outbound.value.index
      && e.g.outbound == Some(Sender(g.outbound.value.sid, g.outbound.value.index + 1))
    else
      && e.next == next + 1 && |e.out| == 2 && e.out[0].KeyShare? && e.out[0].share.session == Some(SessionKey(next, 0))
      && e.out[1].Megolm? && e.out[1].tag.Message? && e.out[1].cipher.sid == next && e.out[1].cipher.index == 0
      && e.g.outbound == Some(Sender(next, 1))
  }

  lemma MemberSends(g: Group, next: Sid, me: User, step: Step)
    requires !OwnedBy(g, me) && Speaking(me, step)
    ensures var e := Apply(g, next, me, step); !OwnedBy(e.g, me) && Sends(g, next, e)
  {
    match step {
      case Do(cmd, env) =>
      case Recv(ShareIn(from, Some(s)), env) => SharingIsSilent(g, from, s, env, me); hide HandleShare;
      case Recv(MegolmIn(from, tag, c), env) =>
        OpeningIsSilent(g, me, from, tag, c, env); hide HandleMessage, HandleSystem, HandleEvent;
      case _ =>
    }
  }

  /** What was sent since session id `first` was the next one. */
  ghost predicate Flows(e: Effect, first: Sid) {
    && Continuous(e.out) && e.next >= first
    && (e.g.outbound.Some? ==> Voice(e.out) == e.g.outbound)
    && (Voice(e.out).Some? ==> Voice(e.out).value.sid < e.next)
    && (forall p :: p in e.out && p.KeyShare? ==> p.share.session.Some? && p.share.session.value.sid >= first)
  }

  lemma SendingFlows(before: Effect, e: Effect, first: Sid)
    requires Flows(before, first) && Sends(before.g, before.next, e)
    ensures Flows(Effect(e.g, e.next, before.out + e.out), first)
  {
    hide Continuous, Voice;
    if e.out == [] {
      assert before.out + e.out == before.out;
    } else {
      var one := before.out + [e.out[0]];
      ContinuousGrows(before.out, e.out[0]);
      if |e.out| == 2 {
        ContinuousGrows(one, e.out[1]);
        assert one + [e.out[1]] == before.out + e.out;
      } else {
        assert one == before.out + e.out;
      }
    }
  }

  lemma {:induction false} RunFlows(g: Group, next: Sid, me: User, steps: seq<Step>)
    requires !OwnedBy(g, me) && g.outbound.None? && forall i :: 0 <= i < |steps| ==> Speaking(me, steps[i])
    ensures !OwnedBy(Run(g, next, me, steps).g, me) && Flows(Run(g, next, me, steps), next)
  {
    if steps == [] {
      assert Flows(Effect(g, next, []), next) by { SilenceFlows(g, next); }
    } else {
      hide Apply, OwnedBy, Speaking, Flows, Sends;
      var front, last := steps[..|steps| - 1], steps[|steps| - 1];
      RunFlows(g, next, me, front);
      var before := Run(g, next, me, front);
      MemberSends(before.g, before.next, me, last);
      SendingFlows(before, Apply(before.g, before.next, me, last), next);
    }
  }

  lemma SilenceFlows(g: Group, next: Sid)
    requires g.outbound.None?
    ensures Flows(Effect(g, next, []), next)
  {
  }

  // ---- At the peer ----

  /** The frames of `from` that are addressed to `u`, in order; `at(i)` is what surrounds the i-th packet. */
  function Mail(from: User, out: seq<Packet>, u: User, at: int -> Env): seq<Step> {
    if out == [] then []
    else
      var last := out[|out| - 1];
      Mail(from, out[..|out| - 1], u, at) + if u in last.to then [Recv(FrameOf(from, last), at(|out|))] else []
  }

  function HeardOf(from: User, p: Packet, u: User, owed: map<Sid, set<User>>): seq<Line> {
    if p.Megolm? && u in p.to && p.cipher.sid in owed && u in owed[p.cipher.sid] then [Said(from, p.cipher.plain)] else []
  }

  /** What `u` is to hear: the messages addressed to it in sessions whose key it was sent. */
  function ToHear(from: User, out: seq<Packet>, u: User, owed: map<Sid, set<User>>): seq<Line> {
    if out == [] then []
    else
      var last := out[|out| - 1];
      ToHear(from, out[..|out| - 1], u, owed) + HeardOf(from, last, u, owed)
  }

  /** The peer's rows while it takes the mail: the sender is a member and not the owner there, what is
      recorded of their sessions lies behind, and their session is the last one shared with the peer. */
  ghost predicate Listens(h: Group, from: User, first: Sid, out: seq<Packet>, u: User, owed: map<Sid, set<User>>) {
    && h.chat && from in h.roster && from !in h.bans && from !in h.suspended && !OwnedBy(h, from)
    && (forall sid :: (from, sid) in h.seen ==>
          if Voice(out).None? then sid < first
          else sid <= Voice(out).value.sid && (sid == Voice(out).value.sid ==> h.seen[(from, sid)] < Voice(out).value.index))
    && (from in h.inbound ==>
          if Voice(out).None? then h.inbound[from].sid < first
          else h.inbound[from].sid <= Voice(out).value.sid)
    && (Voice(out).Some? ==>
          && first <= Voice(out).value.sid && Voice(out).value.index >= 0
          && (from in h.inbound && h.inbound[from].sid == Voice(out).value.sid
              <==> Voice(out).value.sid in owed && u in owed[Voice(out).value.sid])
          && (from in h.inbound && h.inbound[from].sid == Voice(out).value.sid ==> h.inbound[from].first == 0))
  }

  lemma TakesShare(h: Group, from: User, s: Share, first: Sid, out: seq<Packet>, u: User, owed: map<Sid, set<User>>, env: Env, to: set<User>)
    requires Listens(h, from, first, out, u, owed) && Continuous(out + [KeyShare(to, s)])
    requires s.session.Some? && s.session.value.sid >= first && s.session.value.sid in owed && to == owed[s.session.value.sid]
    ensures var now := if u in to then HandleShare(h, from, s, env) else h;
            Listens(now, from, first, out + [KeyShare(to, s)], u, owed) && now.lines == h.lines
  {
    hide Continuous;
    ContinuousEnds(out, KeyShare(to, s));
  }

  lemma ContinuousEnds(out: seq<Packet>, p: Packet)
    requires Continuous(out + [p])
    ensures Continuous(out) && !p.Denial?
    ensures p.KeyShare? ==>
              && p.share.session.Some? && p.share.session.value.first == 0 && Voice(out + [p]) == Some(Sender(p.share.session.value.sid, 0))
              && (Voice(out).Some? ==> Voice(out).value.sid < p.share.session.value.sid)
    ensures p.Megolm? ==>
              p.tag.Message? && Voice(out) == Some(Sender(p.cipher.sid, p.cipher.index))
              && Voice(out + [p]) == Some(Sender(p.cipher.sid, p.cipher.index + 1))
  {
    assert (out + [p])[..|out|] == out;
  }

  lemma TakesMessage(h: Group, from: User, c: Cipher, first: Sid, out: seq<Packet>, u: User, owed: map<Sid, set<User>>, to: set<User>)
    requires Listens(h, from, first, out, u, owed) && Continuous(out + [Megolm(to, Message, c)])
    ensures var now := if u in to then HandleMessage(h, from, c) else h;
            && Listens(now, from, first, out + [Megolm(to, Message, c)], u, owed)
            && now.lines == h.lines + if u in to && c.sid in owed && u in owed[c.sid] then [Said(from, c.plain)] else []
  {
    hide Continuous;
    ContinuousEnds(out, Megolm(to, Message, c));
    assert h.lines + [] == h.lines;
  }

  /** The shares of later sessions go to those they are owed to. */
  ghost predicate Fair(out: seq<Packet>, first: Sid, owed: map<Sid, set<User>>) {
    forall p :: p in out && p.KeyShare? ==>
      p.share.session.Some? && p.share.session.value.sid >= first
      && p.share.session.value.sid in owed && p.to == owed[p.share.session.value.sid]
  }

  lemma TakesPacket(h: Group, next: Sid, from: User, p: Packet, first: Sid, out: seq<Packet>, u: User, owed: map<Sid, set<User>>, env: Env)
    requires Listens(h, from, first, out, u, owed) && Continuous(out + [p]) && Fair(out + [p], first, owed)
    ensures var now := if u in p.to then Receive(h, next, u, FrameOf(from, p), env).g else h;
            Listens(now, from, first, out + [p], u, owed) && now.lines == h.lines + HeardOf(from, p, u, owed)
  {
    hide Listens, HandleShare, HandleMessage, HandleSystem, HandleEvent, HandleJoin, Voice;
    ContinuousEnds(out, p);
    hide Continuous;
    assert p in out + [p];
    if p.KeyShare? {
      TakesShare(h, from, p.share, first, out, u, owed, env, p.to);
      assert h.lines + [] == h.lines;
    } else {
      TakesMessage(h, from, p.cipher, first, out, u, owed, p.to);
    }
  }

  lemma MailGrows(from: User, out: seq<Packet>, p: Packet, h: Group, u: User, at: int -> Env)
    ensures var before, now := Run(h, 0, u, Mail(from, out, u, at)), Run(h, 0, u, Mail(from, out + [p], u, at));
            now.g == if u in p.to then Receive(before.g, before.next, u, FrameOf(from, p), at(|out| + 1)).g else before.g
  {
    hide Receive;
    assert (out + [p])[..|out|] == out;
    var steps := Mail(from, out, u, at);
    if u in p.to {
      var more := steps + [Recv(FrameOf(from, p), at(|out| + 1))];
      assert more[..|more| - 1] == steps && Mail(from, out + [p], u, at) == more;
    } else {
      assert steps + [] == steps;
    }
  }

  lemma ToHearGrows(from: User, out: seq<Packet>, p: Packet, u: User, owed: map<Sid, set<User>>)
    ensures ToHear(from, out + [p], u, owed)
            == ToHear(from, out, u, owed) + HeardOf(from, p, u, owed)
  {
    assert (out + [p])[..|out|] == out;
  }

  lemma FrontIsFair(out: seq<Packet>, first: Sid, owed: map<Sid, set<User>>)
    requires out != [] && Continuous(out) && Fair(out, first, owed)
    ensures Continuous(out[..|out| - 1]) && Fair(out[..|out| - 1], first, owed)
  {
    assert forall p :: p in out[..|out| - 1] ==> p in out;
  }

  lemma {:induction false} MailIsHeard(h: Group, from: User, first: Sid, out: seq<Packet>, u: User, owed: map<Sid, set<User>>, at: int -> Env)
    requires Listens(h, from, first, [], u, owed) && Continuous(out) && Fair(out, first, owed)
    ensures var now := Run(h, 0, u, Mail(from, out, u, at)).g;
            Listens(now, from, first, out, u, owed) && now.lines == h.lines + ToHear(from, out, u, owed)
  {
    if out == [] {
      assert h.lines + [] == h.lines;
    } else {
      var front, p := out[..|out| - 1], out[|out| - 1];
      assert out == front + [p];
      FrontIsFair(out, first, owed);
      hide Listens, Continuous, Fair, Receive, Mail, ToHear, Voice, Run, HeardOf;
      var before := Run(h, 0, u, Mail(from, front, u, at));
      MailIsHeard(h, from, first, front, u, owed, at);
      MailGrows(from, front, p, h, u, at);
      ToHearGrows(from, front, p, u, owed);
      TakesPacket(before.g, before.next, from, p, first, front, u, owed, at(|out|));
      LinesAdd(h.lines, ToHear(from, front, u, owed), HeardOf(from, p, u, owed));
    }
  }

  lemma LinesAdd(a: seq<Line>, b: seq<Line>, c: seq<Line>)
    ensures a + b + c == a + (b + c)
  {
  }

  /** Any run of a member `me` that is not the owner and does not leave, and any peer `u` that has the member
      on its roster, in good standing and not as owner, and knows none of the sessions to come: once `u` has
      taken all frames addressed to it, in order, its lines have grown by exactly the messages addressed to
      it in sessions owed to it, once each and in order. */
  lemma PeerHearsMember(g: Group, next: Sid, me: User, steps: seq<Step>, h: Group, u: User, at: int -> Env)
    requires !OwnedBy(g, me) && g.outbound.None? && forall i :: 0 <= i < |steps| ==> Speaking(me, steps[i])
    requires h.chat && me in h.roster && me !in h.bans && me !in h.suspended && !OwnedBy(h, me)
    requires forall sid :: (me, sid) in h.seen ==> sid < next
    requires me in h.inbound ==> h.inbound[me].sid < next
    ensures var out := Run(g, next, me, steps).out;
            Run(h, 0, u, Mail(me, out, u, at)).g.lines == h.lines + ToHear(me, out, u, Owed(g, next, me, steps))
  {
    hide Run;
    assert AllForeign(me, steps);
    RunFlows(g, next, me, steps);
    OnlyOwedHoldTheKey(g, next, me, steps);
    assert Listens(h, me, next, [], u, Owed(g, next, me, steps));
    MailIsHeard(h, me, next, Run(g, next, me, steps).out, u, Owed(g, next, me, steps), at);
  }
}
