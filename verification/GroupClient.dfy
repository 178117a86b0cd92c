/** The client's handlers as they run: step by step on the vault, sending frame by frame. Each is
    proved to do what its function in `Groups` says, to its own group and to no other. */
module GroupClient {
  import opened Wrappers
  import opened Groups
  import opened VaultTables

  /** What reaches `u` of a sequence of packets: every packet that lists `u`, addressees aside. */
  function Reaching(sent: seq<Packet>, u: User): seq<Packet> {
    if sent == [] then []
    else
      var last := sent[|sent| - 1];
      Reaching(sent[..|sent| - 1], u) + if u in last.to then [last.(to := {})] else []
  }

  lemma {:induction false} ReachingConcat(a: seq<Packet>, b: seq<Packet>, u: User)
    ensures Reaching(a + b, u) == Reaching(a, u) + Reaching(b, u)
  {
    if b == [] {
      assert a + b == a;
    } else {
      assert (a + b)[..|a + b| - 1] == a + b[..|b| - 1];
      ReachingConcat(a, b[..|b| - 1], u);
    }
  }

  /** Every user receives the same from both. */
  ghost predicate SameDelivery(a: seq<Packet>, b: seq<Packet>) {
    forall u :: Reaching(a, u) == Reaching(b, u)
  }

  lemma DeliveryConcat(a: seq<Packet>, b: seq<Packet>, c: seq<Packet>, d: seq<Packet>)
    requires SameDelivery(a, b) && SameDelivery(c, d)
    ensures SameDelivery(a + c, b + d)
  {
    forall u ensures Reaching(a + c, u) == Reaching(b + d, u) {
      ReachingConcat(a, c, u);
      ReachingConcat(b, d, u);
    }
  }

  /** One packet to many is one packet to each. */
  lemma SplitDelivery(a: seq<Packet>, p: Packet, done: set<User>, u: User)
    requires u !in done && SameDelivery(a, [p.(to := done)])
    ensures SameDelivery(a + [p.(to := {u})], [p.(to := done + {u})])
  {
    var one, all := p.(to := {u}), p.(to := done + {u});
    forall v ensures Reaching(a + [one], v) == Reaching([all], v) {
      ReachingConcat(a, [one], v);
      ReachingOne(one, v);
      ReachingOne(p.(to := done), v);
      ReachingOne(all, v);
    }
  }

  lemma ReachingOne(p: Packet, v: User)
    ensures Reaching([p], v) == if v in p.to then [p.(to := {})] else []
    ensures Reaching([], v) == []
  {
    assert [p][..0] == [];
  }

  lemma NothingSent(a: seq<Packet>)
    ensures SameDelivery(a[|a|..], [])
  {
    assert a[|a|..] == [];
  }

  // ---- The client between two statements ----

  /** `minted` counts the outbound sessions minted for each group: the next one's id. */
  datatype World = World(tables: Tables, minted: map<GroupId, Sid>, sent: map<GroupId, seq<Packet>>)

  function NextOf(w: World, g: GroupId): Sid {
    if g in w.minted then w.minted[g] else 0
  }

  function SentOf(w: World, g: GroupId): seq<Packet> {
    if g in w.sent then w.sent[g] else []
  }

  /** From `a` to `b`, group `g` had effect `e`: the rows, the next session id and the deliveries are
      those of `e`, and nothing changed for any other group. */
  ghost predicate Did(a: World, b: World, g: GroupId, e: Effect) {
    && Wrote(a.tables, b.tables, g, e.g)
    && NextOf(b, g) == e.next
    && SentOf(a, g) <= SentOf(b, g) && SameDelivery(SentOf(b, g)[|SentOf(a, g)|..], e.out)
    && forall h :: h != g ==> NextOf(b, h) == NextOf(a, h) && SentOf(b, h) == SentOf(a, h)
  }

  lemma Leaves(a: World, b: World, g: GroupId, e: Effect)
    requires Did(a, b, g, e)
    ensures Rows(b.tables, g) == e.g && NextOf(b, g) == e.next
  {
  }

  lemma LeavesKeys(a: World, b: World, g: GroupId, e: Effect, key: string)
    requires Did(a, b, g, e)
    ensures KeyTaken(b.tables, g, key) == KeyTaken(a.tables, g, key)
  {
  }

  lemma Then(a: World, b: World, c: World, g: GroupId, e: Effect, f: Effect)
    requires Did(a, b, g, e) && Did(b, c, g, f)
    ensures Did(a, c, g, f.(out := e.out + f.out))
  {
    hide SameDelivery, KeyTaken, KeysDistinct;
    var first, second := SentOf(b, g)[|SentOf(a, g)|..], SentOf(c, g)[|SentOf(b, g)|..];
    assert SentOf(c, g)[|SentOf(a, g)|..] == first + second;
    DeliveryConcat(first, e.out, second, f.out);
  }

  lemma WriteIsEffect(a: World, b: World, g: GroupId, rows: Group)
    requires Wrote(a.tables, b.tables, g, rows) && a.minted == b.minted && a.sent == b.sent
    ensures Did(a, b, g, Effect(rows, NextOf(a, g), []))
  {
    hide SameDelivery, Wrote;
    NothingSent(SentOf(a, g));
  }

  lemma WriteThen(a: World, b: World, c: World, g: GroupId, rows: Group, e: Effect)
    requires Wrote(a.tables, b.tables, g, rows) && a.minted == b.minted && a.sent == b.sent && Did(b, c, g, e)
    ensures Did(a, c, g, e)
  {
    WriteIsEffect(a, b, g, rows);
    Then(a, b, c, g, Effect(rows, NextOf(a, g), []), e);
    assert [] + e.out == e.out;
  }

  lemma ThenWrite(a: World, b: World, c: World, g: GroupId, e: Effect, rows: Group)
    requires Did(a, b, g, e) && Wrote(b.tables, c.tables, g, rows) && b.minted == c.minted && b.sent == c.sent
    ensures Did(a, c, g, e.(g := rows))
  {
    WriteIsEffect(b, c, g, rows);
    Then(a, b, c, g, e, Effect(rows, NextOf(b, g), []));
    assert e.out + [] == e.out;
  }

  lemma NothingDone(a: World, g: GroupId)
    ensures Did(a, a, g, Effect(Rows(a.tables, g), NextOf(a, g), []))
  {
    NothingSent(SentOf(a, g));
  }

  /** Minting a session and telling nobody. */
  lemma MintIsEffect(a: World, b: World, g: GroupId, rows: Group)
    requires Wrote(a.tables, b.tables, g, rows) && b.sent == a.sent && b.minted == a.minted[g := NextOf(a, g) + 1]
    ensures Did(a, b, g, Effect(rows, NextOf(a, g) + 1, []))
  {
    hide SameDelivery, Wrote;
    NothingSent(SentOf(a, g));
  }

  /** One packet sent for the group. */
  lemma SendIsEffect(a: World, b: World, g: GroupId, p: Packet)
    requires b == a.(sent := a.sent[g := SentOf(a, g) + [p]])
    ensures Did(a, b, g, Effect(Rows(a.tables, g), NextOf(a, g), [p]))
  {
    assert SentOf(b, g)[|SentOf(a, g)|..] == [p];
  }

  /** A packet for nobody need not be sent. */
  lemma UnaddressedIsNothing(a: World, g: GroupId, p: Packet)
    requires p.to == {}
    ensures Did(a, a, g, Effect(Rows(a.tables, g), NextOf(a, g), [p]))
  {
    NothingSent(SentOf(a, g));
    forall u ensures Reaching([], u) == Reaching([p], u) { ReachingOne(p, u); }
  }

  lemma UnaddressedPacket(p: Packet)
    requires p.to == {}
    ensures SameDelivery([], [p])
  {
    forall u ensures Reaching([], u) == Reaching([p], u) { ReachingOne(p, u); }
  }

  /** What is delivered is all that matters of what is sent. */
  lemma SameDelivered(a: World, b: World, g: GroupId, e: Effect, out: seq<Packet>)
    requires Did(a, b, g, e) && SameDelivery(e.out, out)
    ensures Did(a, b, g, e.(out := out))
  {
  }

  lemma SpeechKeepsLines(g: Group, next: Sid, me: User, audience: set<User>, env: Env)
    ensures Speaking(g, next, me, audience, env).g == g.(outbound := Speaking(g, next, me, audience, env).g.outbound)
    ensures Speaking(g, next, me, audience, env).g.outbound.Some?
  {
  }

  lemma BroadcastKeepsLines(g: Group, next: Sid, me: User, ev: Event, env: Env)
    ensures Broadcast(g, next, me, ev, env).g == g.(outbound := Broadcast(g, next, me, ev, env).g.outbound)
  {
  }

  lemma DistributeIgnoresSpeech(g: Group, h: Group, me: User, to: set<User>, s: Sender, env: Env)
    requires h == g.(outbound := h.outbound)
    ensures Distribute(h, me, to, s, env) == Distribute(g, me, to, s, env)
  {
  }

  class Client {
    const me: User
    const vault: Vault
    var minted: map<GroupId, Sid>
    var sent: map<GroupId, seq<Packet>>

    function Next(g: GroupId): Sid
      reads this
    {
      if g in minted then minted[g] else 0
    }

    function Now(): World
      reads this, vault
    {
      World(vault.groups, minted, sent)
    }

    constructor (me: User, vault: Vault)
      ensures this.me == me && this.vault == vault && minted == map[] && sent == map[]
    {
      this.me, this.vault := me, vault;
      minted, sent := map[], map[];
    }

    method Send(g: GroupId, p: Packet)
      modifies this
      ensures Now() == old(Now()).(sent := old(sent)[g := SentOf(old(Now()), g) + [p]])
    {
      sent := sent[g := (if g in sent then sent[g] else []) + [p]];
    }

    /** Share our session with each recipient but ourselves; peers without one-time keys are skipped. */
    method DistributeGroupKey(g: GroupId, recipients: set<User>, s: Sender, env: Env)
      modifies this
      ensures Did(old(Now()), Now(), g,
                  Effect(vault.Slice(g), Next(g), Distribute(vault.Slice(g), me, recipients, s, env)))
      ensures minted == old(minted)
    {
      hide SameDelivery;
      var share := ShareOf(vault.Slice(g), s);
      var todo := recipients;
      ghost var w, out := Now(), [];
      ghost var done: set<User> := {};
      NothingDone(w, g);
      assert SameDelivery(out, [KeyShare(done, share)]) by { UnaddressedPacket(KeyShare({}, share)); }
      while todo != {}
        invariant todo <= recipients && done == recipients - todo - {me} - env.skip
        invariant minted == w.minted && vault.groups == w.tables
        invariant Did(w, Now(), g, Effect(vault.Slice(g), Next(g), out))
        invariant SameDelivery(out, [KeyShare(done, share)])
        decreases todo
      {
        var member :| member in todo;
        todo := todo - {member};
        if member == me || member in env.skip { continue; }
        ghost var before, e := Now(), Effect(vault.Slice(g), Next(g), out);
        var p := KeyShare({member}, share);
        SplitDelivery(out, KeyShare(done, share), done, member);
        Send(g, p);
        SendIsEffect(before, Now(), g, p);
        Then(w, before, Now(), g, e, e.(out := [p]));
        out, done := out + [p], done + {member};
      }
      assert done == recipients - {me} - env.skip;
      SameDelivered(w, Now(), g, Effect(vault.Slice(g), Next(g), out), [KeyShare(done, share)]);
    }

    /** A fresh outbound session, stored as the group's. */
    method Mint(g: GroupId) returns (s: Sender)
      modifies this, vault
      ensures s == Sender(old(Next(g)), 0)
      ensures Did(old(Now()), Now(), g, Effect(old(vault.Slice(g)).(outbound := Some(s)), old(Next(g)) + 1, []))
    {
      ghost var w := Now();
      s := Sender(Next(g), 0);
      minted := minted[g := Next(g) + 1];
      vault.SaveGroupOut(g, s);
      MintIsEffect(w, Now(), g, vault.Slice(g));
    }

    /** The session to speak with; a new one is shared with `audience` first. */
    method Speak(g: GroupId, audience: set<User>, env: Env) returns (s: Sender)
      modifies this, vault
      ensures Did(old(Now()), Now(), g, Speaking(old(vault.Slice(g)), old(Next(g)), me, audience, env))
      ensures vault.Slice(g).outbound == Some(s)
    {
      hide SameDelivery, KeyTaken, KeysDistinct;
      ghost var w := Now();
      NothingDone(w, g);
      if vault.Slice(g).outbound.Some? {
        return vault.Slice(g).outbound.value;
      }
      s := Mint(g);
      ghost var w1 := Now();
      DistributeGroupKey(g, audience, s, env);
      ghost var out := Distribute(vault.Slice(g), me, audience, s, env);
      Then(w, w1, Now(), g, Effect(vault.Slice(g), Next(g), []), Effect(vault.Slice(g), Next(g), out));
      assert [] + out == out;
    }

    /** Encrypt under our session and send to `to`, if there is anybody. */
    method Encrypt(g: GroupId, s: Sender, to: set<User>, tag: Tag, plain: Plain)
      requires vault.Slice(g).outbound == Some(s)
      modifies this, vault
      ensures Did(old(Now()), Now(), g, Transmit(Effect(old(vault.Slice(g)), old(Next(g)), []), to, tag, plain))
    {
      hide SameDelivery, KeyTaken, KeysDistinct;
      ghost var w := Now();
      var p := Megolm(to, tag, Cipher(s.sid, s.index, plain));
      vault.SaveGroupOut(g, s.(index := s.index + 1));
      ghost var w1, e := Now(), Effect(vault.Slice(g), Next(g), [p]);
      if to != {} {
        Send(g, p);
        SendIsEffect(w1, Now(), g, p);
      } else {
        UnaddressedIsNothing(w1, g, p);
      }
      WriteThen(w, w1, Now(), g, e.g, e);
      assert [] + [p] == [p];
    }

    /** Speak to the roster. */
    method Tell(g: GroupId, tag: Tag, plain: Plain, env: Env)
      modifies this, vault
      ensures Did(old(Now()), Now(), g,
                  Transmit(Speaking(old(vault.Slice(g)), old(Next(g)), me, old(vault.Slice(g)).roster, env),
                           old(vault.Slice(g)).roster - {me}, tag, plain))
    {
      hide Did, Distribute;
      ghost var w, e := Now(), Speaking(vault.Slice(g), Next(g), me, vault.Slice(g).roster, env);
      var roster := vault.Slice(g).roster;
      var s := Speak(g, roster, env);
      ghost var w1 := Now();
      Leaves(w, w1, g, e);
      Encrypt(g, s, roster - {me}, tag, plain);
      Then(w, w1, Now(), g, e, Transmit(e.(out := []), roster - {me}, tag, plain));
      var p := Megolm(roster - {me}, tag, Cipher(s.sid, s.index, plain));
      assert [] + [p] == [p];
    }

    method BroadcastGroupEvent(g: GroupId, ev: Event, env: Env)
      modifies this, vault
      ensures Did(old(Now()), Now(), g, Broadcast(old(vault.Slice(g)), old(Next(g)), me, ev, env))
    {
      hide Did;
      Tell(g, GroupEvent, Control(ev), env);
    }

    method Admit(g: GroupId, who: User, env: Env)
      modifies this, vault
      ensures Did(old(Now()), Now(), g, AdmitMember(old(vault.Slice(g)), old(Next(g)), me, who, env))
    {
      hide SameDelivery, KeyTaken, KeysDistinct, Distribute, Broadcast, Speaking;
      ghost var w := Now();
      vault.AddMember(g, who);
      vault.RemoveJoinRequest(g, who);
      ghost var w1, g1, next := Now(), vault.Slice(g), Next(g);
      SpeechKeepsLines(g1, next, me, {}, env);
      var s := Speak(g, {}, env);
      ghost var w2, e1 := Now(), Speaking(g1, next, me, {}, env);
      DistributeGroupKey(g, {who}, s, env);
      ghost var w3, share := Now(), Distribute(g1, me, {who}, s, env);
      DistributeIgnoresSpeech(g1, e1.g, me, {who}, s, env);
      BroadcastGroupEvent(g, Event(Joined, who, None, None), env);
      ghost var w4, e2 := Now(), Broadcast(e1.g, e1.next, me, Event(Joined, who, None, None), env);
      BroadcastKeepsLines(e1.g, e1.next, me, Event(Joined, who, None, None), env);
      vault.InsertMessage(g, Notice(Joined, who));
      Then(w1, w2, w3, g, e1, e1.(out := share));
      Then(w1, w3, w4, g, e1.(out := e1.out + share), e2);
      WriteThen(w, w1, w4, g, g1, e2.(out := e1.out + share + e2.out));
      ThenWrite(w, w4, Now(), g, e2.(out := e1.out + share + e2.out), vault.Slice(g));
    }

    method ModerateMember(g: GroupId, ev: Event, env: Env)
      modifies this, vault
      ensures Did(old(Now()), Now(), g, Moderate(old(vault.Slice(g)), old(Next(g)), me, ev, env))
    {
      hide Did, KeyTaken, KeysDistinct, Distribute, Broadcast;
      ghost var w, e := Now(), Broadcast(vault.Slice(g), Next(g), me, ev, env);
      BroadcastKeepsLines(vault.Slice(g), Next(g), me, ev, env);
      BroadcastGroupEvent(g, ev, env);
      ghost var w1 := Now();
      Leaves(w, w1, g, e);
      vault.RemoveMember(g, ev.who);
      vault.DeleteGroupIn(g, ev.who);
      ghost var w2, g2 := Now(), vault.Slice(g);
      ThenWrite(w, w1, w2, g, e, vault.Slice(g));
      var s := Mint(g);
      ghost var w3, g1, next := Now(), vault.Slice(g), Next(g);
      Leaves(w2, w3, g, Effect(g2.(outbound := Some(s)), e.next + 1, []));
      DistributeGroupKey(g, vault.Slice(g).roster, s, env);
      ghost var w4, share := Now(), Distribute(g1, me, g1.roster, s, env);
      Then(w2, w3, w4, g, Effect(g1, next, []), Effect(g1, next, share));
      assert [] + share == share;
      Then(w, w2, w4, g, Effect(Drop(e.g, ev.who), e.next, e.out), Effect(g1, next, share));
      Leaves(w3, w4, g, Effect(g1, next, share));
      vault.InsertMessage(g, Notice(ev.kind, ev.who));
      ThenWrite(w, w4, Now(), g, Effect(g1, next, e.out + share), vault.Slice(g));
    }

    // ---- Frames that arrive ----

    /** A group-key share, decrypted from Olm. */
    method HandleGroupKeyShare(g: GroupId, from: User, s: Share, env: Env)
      requires env.keyTaken == KeyTaken(vault.groups, g, s.key)
      modifies vault
      ensures Wrote(old(vault.groups), vault.groups, g, HandleShare(old(vault.Slice(g)), from, s, env))
    {
      hide Adopt, KeysDistinct;
      if from in vault.Slice(g).bans { return; }
      var suspended := vault.CheckSuspended(g, from, env.now);
      if suspended { return; }
      var isNew := !vault.Slice(g).chat;
      var meta := vault.Slice(g).meta;
      var isMember := !isNew && from in vault.Slice(g).roster;
      var claimed := s.owner != Nobody && s.owner == from;
      var ownerShare :=
        if isNew then meta.None? && claimed else meta.Some? && meta.value.owner != Nobody && meta.value.owner == from;
      if isNew && !ownerShare { return; }
      if !isNew && !ownerShare && !isMember { return; }
      if s.session.None? { return; }
      vault.SaveGroupIn(g, from, s.session.value);
      if ownerShare {
        AdoptShare(g, from, s, env);
      }
    }

    /** The owner's word on roster, mode and key. */
    method AdoptShare(g: GroupId, from: User, s: Share, env: Env)
      requires env.keyTaken == KeyTaken(vault.groups, g, s.key)
      modifies vault
      ensures Wrote(old(vault.groups), vault.groups, g, Adopt(old(vault.Slice(g)), from, s, env))
    {
      hide ValidKey, ValidMode, KeysDistinct;
      vault.UpsertChat(g);
      SeatAll(g, s.members);
      if ValidKey(s.key) {
        vault.UpsertGroupMeta(g, s.key, if ValidMode(s.mode) then s.mode else Open, from);
      }
    }

    method SeatAll(g: GroupId, members: set<User>)
      modifies vault
      ensures Wrote(old(vault.groups), vault.groups, g, old(vault.Slice(g)).(roster := old(vault.Slice(g)).roster + members))
    {
      ghost var rows := vault.Slice(g);
      var todo := members;
      assert rows.roster + (members - todo) == rows.roster;
      while todo != {}
        invariant todo <= members
        invariant Wrote(old(vault.groups), vault.groups, g, rows.(roster := rows.roster + (members - todo)))
        decreases todo
      {
        var member :| member in todo;
        todo := todo - {member};
        vault.AddMember(g, member);
        assert rows.roster + (members - todo) == rows.roster + (members - (todo + {member})) + {member};
      }
      assert members - todo == members;
    }

    method ProcessMegolm(g: GroupId, from: User, c: Cipher)
      modifies vault
      ensures Wrote(old(vault.groups), vault.groups, g, HandleMessage(old(vault.Slice(g)), from, c))
    {
      if !Opens(vault.Slice(g), from, c) { return; }
      var accepted := vault.MegolmAccept(g, from, c);
      if !accepted { return; }
      vault.InsertMessage(g, Said(from, c.plain));
    }

    method ProcessMegolmSystem(g: GroupId, from: User, c: Cipher)
      modifies vault
      ensures Wrote(old(vault.groups), vault.groups, g, HandleSystem(old(vault.Slice(g)), from, c))
    {
      if !Opens(vault.Slice(g), from, c) { return; }
      if !c.plain.Sentinel? { return; }
      var accepted := vault.MegolmAccept(g, from, c);
      if !accepted { return; }
      vault.RemoveMember(g, from);
      vault.InsertMessage(g, Gone(from));
    }

    method ProcessGroupEvent(g: GroupId, from: User, c: Cipher)
      modifies vault
      ensures Wrote(old(vault.groups), vault.groups, g, HandleEvent(old(vault.Slice(g)), me, from, c))
    {
      if !Opens(vault.Slice(g), from, c) { return; }
      var accepted := vault.MegolmAccept(g, from, c);
      if !accepted { return; }
      if !OwnedBy(vault.Slice(g), from) { return; }
      if AsEvent(c.plain).None? { return; }
      var ev := AsEvent(c.plain).value;
      if Expels(ev, me) {
        vault.DeleteChat(g);
        return;
      }
      ApplyToTables(g, ev);
      if !ev.kind.UnknownKind? {
        vault.InsertMessage(g, Notice(ev.kind, ev.who));
      }
    }

    method ApplyToTables(g: GroupId, ev: Event)
      requires !Expels(ev, me)
      modifies vault
      ensures Wrote(old(vault.groups), vault.groups, g, ApplyEvent(old(vault.Slice(g)), me, ev))
    {
      if ev.kind.Joined? {
        vault.UnbanUser(g, ev.who);
        vault.ClearSuspension(g, ev.who);
        vault.AddMember(g, ev.who);
      } else if ev.kind.Access? {
        if ev.mode.Some? && ValidMode(ev.mode.value) {
          vault.SetAccessMode(g, ev.mode.value);
        }
      } else if Evicts(ev, me) {
        vault.RemoveMember(g, ev.who);
        vault.DeleteGroupIn(g, ev.who);
        if ev.kind.Banned? {
          vault.BanUser(g, ev.who);
        }
        if ev.kind.Suspended? && ev.until.Some? {
          vault.SuspendUser(g, ev.who, ev.until.value);
        }
      }
    }

    method HandleJoinRequest(g: GroupId, from: User, key: string, env: Env)
      modifies this, vault
      ensures Did(old(Now()), Now(), g, HandleJoin(old(vault.Slice(g)), old(Next(g)), me, from, key, env))
    {
      hide Did, KeyTaken, KeysDistinct, AdmitMember;
      ghost var w := Now();
      NothingDone(w, g);
      if !OwnedBy(vault.Slice(g), me) { return; }
      var meta := vault.Slice(g).meta.value;
      var keyOk := ValidKey(key) && key == meta.key;
      var banned := from in vault.Slice(g).bans;
      var suspended := vault.CheckSuspended(g, from, env.now);
      var member := from in vault.Slice(g).roster;
      ghost var w1, g1, next := Now(), vault.Slice(g), Next(g);
      var decision := DecideJoin(meta.mode, keyOk, banned, suspended, member);
      if decision.Admit? {
        Admit(g, from, env);
        WriteThen(w, w1, Now(), g, g1, AdmitMember(g1, next, me, from, env));
      } else if decision.Queue? {
        vault.AddJoinRequest(g, from);
        vault.InsertMessage(g, Requested(from));
        WriteIsEffect(w, Now(), g, vault.Slice(g));
      } else {
        Send(g, Denial({from} - env.skip));
        SendIsEffect(w1, Now(), g, Denial({from} - env.skip));
        WriteThen(w, w1, Now(), g, g1, Effect(g1, next, [Denial({from} - env.skip)]));
      }
    }

    // ---- Commands ----

    method Invite(g: GroupId, user: User, env: Env)
      modifies this, vault
      ensures Did(old(Now()), Now(), g, Execute(old(vault.Slice(g)), old(Next(g)), me, Command.Invite(user), env))
    {
      hide Did, KeyTaken, KeysDistinct, AdmitMember;
      ghost var w := Now();
      NothingDone(w, g);
      if !OwnedBy(vault.Slice(g), me) || user == me || user in vault.Slice(g).bans { return; }
      AdmitUnlessSuspended(g, user, env);
    }

    method Accept(g: GroupId, user: User, env: Env)
      modifies this, vault
      ensures Did(old(Now()), Now(), g, Execute(old(vault.Slice(g)), old(Next(g)), me, Command.Accept(user), env))
    {
      hide Did, KeyTaken, KeysDistinct, AdmitMember;
      ghost var w := Now();
      NothingDone(w, g);
      if !OwnedBy(vault.Slice(g), me) || user !in vault.Slice(g).requests || user in vault.Slice(g).bans { return; }
      AdmitUnlessSuspended(g, user, env);
    }

    method AdmitUnlessSuspended(g: GroupId, user: User, env: Env)
      modifies this, vault
      ensures Did(old(Now()), Now(), g,
                  if IsSuspended(old(vault.Slice(g)), user, env.now) then Effect(old(vault.Slice(g)), old(Next(g)), [])
                  else AdmitMember(Expire(old(vault.Slice(g)), user, env.now), old(Next(g)), me, user, env))
    {
      hide Did, KeyTaken, KeysDistinct, AdmitMember;
      ghost var w := Now();
      var suspended := vault.CheckSuspended(g, user, env.now);
      ghost var w1, g1, next := Now(), vault.Slice(g), Next(g);
      if suspended {
        WriteIsEffect(w, w1, g, g1);
      } else {
        Admit(g, user, env);
        WriteThen(w, w1, Now(), g, g1, AdmitMember(g1, next, me, user, env));
      }
    }

    method RemoveUser(g: GroupId, user: User, env: Env)
      modifies this, vault
      ensures Did(old(Now()), Now(), g, Execute(old(vault.Slice(g)), old(Next(g)), me, Remove(user), env))
    {
      hide Did, Moderate;
      NothingDone(Now(), g);
      if !OwnedBy(vault.Slice(g), me) || user == me { return; }
      ModerateMember(g, Event(Removed, user, None, None), env);
    }

    method BanMember(g: GroupId, user: User, env: Env)
      modifies this, vault
      ensures Did(old(Now()), Now(), g, Execute(old(vault.Slice(g)), old(Next(g)), me, Ban(user), env))
    {
      hide Did, Moderate, KeyTaken, KeysDistinct;
      ghost var w := Now();
      NothingDone(w, g);
      if !OwnedBy(vault.Slice(g), me) || user == me { return; }
      vault.BanUser(g, user);
      ghost var w1, g1, next := Now(), vault.Slice(g), Next(g);
      ModerateMember(g, Event(Banned, user, None, None), env);
      WriteThen(w, w1, Now(), g, g1, Moderate(g1, next, me, Event(Banned, user, None, None), env));
    }

    method SuspendMember(g: GroupId, user: User, duration: Option<int>, env: Env)
      modifies this, vault
      ensures Did(old(Now()), Now(), g, Execute(old(vault.Slice(g)), old(Next(g)), me, Suspend(user, duration), env))
    {
      hide Did, Moderate, KeyTaken, KeysDistinct;
      ghost var w := Now();
      NothingDone(w, g);
      if !OwnedBy(vault.Slice(g), me) || user == me || duration.None? || duration.value <= 0 { return; }
      var until := env.now + duration.value;
      vault.SuspendUser(g, user, until);
      ghost var w1, g1, next := Now(), vault.Slice(g), Next(g);
      ModerateMember(g, Event(Suspended, user, None, Some(until)), env);
      WriteThen(w, w1, Now(), g, g1, Moderate(g1, next, me, Event(Suspended, user, None, Some(until)), env));
    }

    method SetAccess(g: GroupId, mode: Mode, env: Env)
      modifies this, vault
      ensures Did(old(Now()), Now(), g, Execute(old(vault.Slice(g)), old(Next(g)), me, Command.SetAccess(mode), env))
    {
      hide SameDelivery, Broadcast, KeyTaken, KeysDistinct;
      ghost var w := Now();
      NothingDone(w, g);
      if !ValidMode(mode) || !OwnedBy(vault.Slice(g), me) { return; }
      vault.SetAccessMode(g, mode);
      ghost var w1, g1, next := Now(), vault.Slice(g), Next(g);
      ghost var e := Broadcast(g1, next, me, Event(Access, Nobody, Some(mode), None), env);
      BroadcastKeepsLines(g1, next, me, Event(Access, Nobody, Some(mode), None), env);
      BroadcastGroupEvent(g, Event(Access, Nobody, Some(mode), None), env);
      ghost var w2 := Now();
      WriteThen(w, w1, w2, g, g1, e);
      vault.InsertMessage(g, Notice(Access, Nobody));
      ThenWrite(w, w2, Now(), g, e, vault.Slice(g));
    }

    method Say(g: GroupId, plain: Plain, env: Env)
      modifies this, vault
      ensures Did(old(Now()), Now(), g, Execute(old(vault.Slice(g)), old(Next(g)), me, Command.Say(plain), env))
    {
      hide SameDelivery, KeyTaken, KeysDistinct, Distribute;
      ghost var w := Now();
      NothingDone(w, g);
      if !vault.Slice(g).chat { return; }
      ghost var roster := vault.Slice(g).roster;
      ghost var e := Transmit(Speaking(vault.Slice(g), Next(g), me, roster, env), roster - {me}, Message, plain);
      Tell(g, Message, plain, env);
      ghost var w1 := Now();
      vault.InsertMessage(g, Said(me, plain));
      ThenWrite(w, w1, Now(), g, e, vault.Slice(g));
    }

    method LeaveChat(g: GroupId, connected: bool, env: Env)
      modifies this, vault
      ensures Did(old(Now()), Now(), g, Execute(old(vault.Slice(g)), old(Next(g)), me, Leave(connected), env))
    {
      hide Did, KeyTaken, KeysDistinct, Distribute;
      ghost var w := Now();
      NothingDone(w, g);
      if !vault.Slice(g).chat { return; }
      if !connected {
        vault.DeleteChat(g);
        WriteIsEffect(w, Now(), g, NO_GROUP);
        return;
      }
      ghost var roster := vault.Slice(g).roster;
      ghost var e := Transmit(Speaking(vault.Slice(g), Next(g), me, roster, env), roster - {me}, System, Sentinel);
      Tell(g, System, Sentinel, env);
      ghost var w1 := Now();
      vault.DeleteChat(g);
      ThenWrite(w, w1, Now(), g, e, NO_GROUP);
    }

    /** A new group under a fresh id: our session, the chat, its roster, its row with an invite key
        minted from `candidates`, and the key to everyone. Without a free key it stops half-way. */
    method CreateGroup(g: GroupId, members: set<User>, mode: Mode, candidates: seq<string>, env: Env)
      returns (key: Option<string>)
      requires vault.Slice(g) == NO_GROUP && Next(g) == 0 && |candidates| >= KEY_TRIES
      modifies this, vault
      ensures ValidMode(mode) && key.Some? ==> !KeyTaken(old(vault.groups), g, key.value)
      ensures ValidMode(mode) && key.Some? ==> Did(old(Now()), Now(), g, Create(me, members, mode, key.value, env))
      ensures ValidMode(mode) && key.None? ==>
                Did(old(Now()), Now(), g, Effect(Create(me, members, mode, "", env).g.(meta := None), 1, []))
      ensures !ValidMode(mode) ==> Now() == old(Now())
    {
      hide Did, KeyTaken, KeysDistinct, Distribute;
      if !ValidMode(mode) { return None; }
      ghost var w := Now();
      var s := Mint(g);
      ghost var w1, g1 := Now(), vault.Slice(g);
      Leaves(w, w1, g, Effect(NO_GROUP.(outbound := Some(s)), 1, []));
      vault.UpsertChat(g);
      SeatAll(g, members + {me});
      key := vault.CreateGroupMeta(g, mode, me, candidates);
      ghost var w2, g2 := Now(), vault.Slice(g);
      ThenWrite(w, w1, w2, g, Effect(g1, 1, []), g2);
      assert NO_GROUP.roster + (members + {me}) == members + {me};
      if key.None? { return; }
      LeavesKeys(w, w1, g, Effect(NO_GROUP.(outbound := Some(s)), 1, []), key.value);
      DistributeGroupKey(g, members + {me}, s, env);
      ghost var out := Distribute(g2, me, members + {me}, s, env);
      Then(w, w2, Now(), g, Effect(g2, 1, []), Effect(g2, 1, out));
      assert [] + out == out;
    }

    method UnbanMember(g: GroupId, user: User, env: Env)
      modifies vault
      ensures Did(old(Now()), Now(), g, Execute(old(vault.Slice(g)), old(Next(g)), me, Unban(user), env))
    {
      hide Did, KeyTaken, KeysDistinct;
      ghost var w := Now();
      NothingDone(w, g);
      if !OwnedBy(vault.Slice(g), me) { return; }
      if user !in vault.Slice(g).bans {
        assert vault.Slice(g).bans - {user} == vault.Slice(g).bans;
        return;
      }
      vault.UnbanUser(g, user);
      WriteIsEffect(w, Now(), g, vault.Slice(g));
    }

    method UnsuspendMember(g: GroupId, user: User, env: Env)
      modifies vault
      ensures Did(old(Now()), Now(), g, Execute(old(vault.Slice(g)), old(Next(g)), me, Unsuspend(user), env))
    {
      hide Did, KeyTaken, KeysDistinct;
      ghost var w := Now();
      NothingDone(w, g);
      if !OwnedBy(vault.Slice(g), me) { return; }
      if user !in vault.Slice(g).suspended {
        assert vault.Slice(g).suspended - {user} == vault.Slice(g).suspended;
        return;
      }
      vault.ClearSuspension(g, user);
      WriteIsEffect(w, Now(), g, vault.Slice(g));
    }
  }
}
