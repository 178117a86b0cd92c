/** Where messages come from: whatever sits in a queue or a channel was sent, unchanged, by a connection
    authenticated as its author, to the user it sits with. */
module RelayProvenance {
  import opened Wrappers
  import opened Text
  import opened Outbox
  import opened FanOut
  import opened Relay
  import opened RelayPresence

  /** `m` is what Send command number `m.send` said, by its author's connection, and `u` is one of its
      recipients, registered and not the author. */
  predicate Addressed(s: State, m: Deliver, u: Username) {
    && 0 <= m.send < |s.sends| && s.sends[m.send].msg == m
    && u in m.to && u != m.from && u in s.users
  }

  ghost predicate SendsReal(s: State) {
    forall k :: 0 <= k < |s.sends| ==>
      && s.sends[k].msg.send == k
      && 0 <= s.sends[k].conn < |s.conns| && s.conns[s.sends[k].conn].user == Some(s.sends[k].msg.from)
  }

  predicate RowReal(s: State, r: Row) {
    r.frame.msg.Some? && Addressed(s, r.frame.msg.value, r.recipient) && r.ts == r.frame.msg.value.ts
  }

  ghost predicate RowsReal(s: State) {
    (forall r :: r in s.table.rows ==> RowReal(s, r)) && (forall r :: r in s.accepted ==> RowReal(s, r))
  }

  predicate ForConn(s: State, c: int, m: Deliver) {
    0 <= c < |s.conns| && s.conns[c].user.Some? && Addressed(s, m, s.conns[c].user.value)
  }

  ghost predicate ChannelsReal(s: State) {
    forall c, i :: 0 <= c < |s.channels| && 0 <= i < |s.channels[c]| ==> ForConn(s, c, s.channels[c][i])
  }

  predicate BelongsTo(s: State, c: int, u: Username) {
    0 <= c < |s.conns| && s.conns[c].user == Some(u)
  }

  /** A message being routed is its connection's own; its remaining recipients are listed in it. */
  ghost predicate Routing(s: State, c: int, m: Deliver, todo: seq<Username>) {
    && 0 <= m.send < |s.sends| && s.sends[m.send] == Sent(c, m)
    && forall u :: u in todo ==> u in m.to && u != m.from
  }

  ghost predicate PhaseReal(s: State, c: int, p: Phase) {
    match p
    case Flushing(snapshot, handled, _) =>
      0 <= handled <= |snapshot| && forall r :: r in snapshot ==> RowReal(s, r) && BelongsTo(s, c, r.recipient)
    case Sending(m, _, todo) => Routing(s, c, m, todo)
    case Pushing(m, _, todo, target) =>
      && Routing(s, c, m, todo) && todo != [] && todo[0] in s.users
      && (target.Some? ==> BelongsTo(s, target.value, todo[0]))
    case _ => true
  }

  ghost predicate PhasesReal(s: State) {
    forall c :: 0 <= c < |s.phases| ==> PhaseReal(s, c, s.phases[c])
  }

  ghost predicate Real(s: State) {
    Presence(s) && SendsReal(s) && RowsReal(s) && ChannelsReal(s) && PhasesReal(s)
  }

  // ---- What a step leaves alone ----

  /** Accounts, Send commands and identities are only ever added. */
  predicate Extends(s: State, t: State) {
    && (forall u :: u in s.users ==> u in t.users && t.users[u] == s.users[u])
    && s.sends <= t.sends
    && |s.conns| <= |t.conns| && (forall c :: 0 <= c < |s.conns| && s.conns[c].user.Some? ==> t.conns[c].user == s.conns[c].user)
  }

  lemma LedgersOnlyGrow(s: State, step: Step)
    ensures forall u :: u in s.users ==> u in Next(s, step).users && Next(s, step).users[u] == s.users[u]
    ensures s.sends <= Next(s, step).sends && (step.Send? || Next(s, step).sends == s.sends)
  {
    hide UnderCap, RowsFor, Without, Since, Ids, Append, Expired, ValidPubkey, ValidUsername, Reserved, Recipients, Bytes;
  }

  lemma StepExtends(s: State, step: Step)
    ensures Extends(s, Next(s, step))
  {
    hide Next, Settled, Quiet;
    StepSettles(s, step);
    LedgersOnlyGrow(s, step);
    SettledUsers(s, Next(s, step));
  }

  lemma SettledUsers(s: State, t: State)
    requires Settled(s, t)
    ensures |s.conns| <= |t.conns|
    ensures forall c :: 0 <= c < |s.conns| && s.conns[c].user.Some? ==> t.conns[c].user == s.conns[c].user
  {
  }

  lemma AddressedStays(s: State, t: State, m: Deliver, u: Username)
    requires Extends(s, t) && Addressed(s, m, u)
    ensures Addressed(t, m, u)
  {
  }

  lemma RowStays(s: State, t: State, r: Row)
    requires Extends(s, t) && RowReal(s, r)
    ensures RowReal(t, r)
  {
    AddressedStays(s, t, r.frame.msg.value, r.recipient);
  }

  lemma PhaseStays(s: State, t: State, c: int, p: Phase)
    requires Extends(s, t) && PhaseReal(s, c, p)
    ensures PhaseReal(t, c, p)
  {
    if p.Flushing? {
      forall r | r in p.snapshot ensures RowReal(t, r) { RowStays(s, t, r); }
    }
  }

  lemma ForConnStays(s: State, t: State, c: int, m: Deliver)
    requires Extends(s, t) && ForConn(s, c, m)
    ensures ForConn(t, c, m)
  {
    AddressedStays(s, t, m, s.conns[c].user.value);
  }

  /** What a step has to show about what it adds. */
  ghost predicate AddsReal(s: State, t: State) {
    && (forall r :: r in t.table.rows ==> r in s.table.rows || RowReal(t, r))
    && (forall r :: r in t.accepted ==> r in s.accepted || RowReal(t, r))
    && (forall c, i :: 0 <= c < |t.channels| && 0 <= i < |t.channels[c]| ==>
          (c < |s.channels| && i < |s.channels[c]| && t.channels[c][i] == s.channels[c][i]) || ForConn(t, c, t.channels[c][i]))
    && (forall c :: 0 <= c < |t.phases| ==> (c < |s.phases| && t.phases[c] == s.phases[c]) || PhaseReal(t, c, t.phases[c]))
  }

  lemma RowsStay(s: State, t: State)
    requires RowsReal(s) && Extends(s, t) && AddsReal(s, t)
    ensures RowsReal(t)
  {
    forall r | (r in t.table.rows || r in t.accepted) && RowReal(s, r) ensures RowReal(t, r) { RowStays(s, t, r); }
  }

  lemma ChannelsStay(s: State, t: State)
    requires ChannelsReal(s) && Extends(s, t) && AddsReal(s, t)
    ensures ChannelsReal(t)
  {
    hide ForConn;
    forall c, i | 0 <= c < |t.channels| && 0 <= i < |t.channels[c]| ensures ForConn(t, c, t.channels[c][i]) {
      if c < |s.channels| && i < |s.channels[c]| && t.channels[c][i] == s.channels[c][i] {
        ForConnStays(s, t, c, s.channels[c][i]);
      }
    }
  }

  lemma PhasesStay(s: State, t: State)
    requires PhasesReal(s) && Extends(s, t) && AddsReal(s, t)
    ensures PhasesReal(t)
  {
    hide PhaseReal;
    forall c | 0 <= c < |t.phases| ensures PhaseReal(t, c, t.phases[c]) {
      if c < |s.phases| && t.phases[c] == s.phases[c] { PhaseStays(s, t, c, s.phases[c]); }
    }
  }

  // ---- What each step adds ----

  lemma SnapshotIsReal(s: State, c: int)
    requires RowsReal(s)
    ensures AddsReal(s, DoFlushRead(s, c))
  {
    hide RowReal, ForConn;
    var t := DoFlushRead(s, c);
    if t != s {
      RowsForMembers(s.table.rows, s.conns[c].user.value);
      forall r | r in s.table.rows ensures RowReal(t, r) { SameLedger(s, t, r); }
    }
  }

  lemma SameLedger(s: State, t: State, r: Row)
    requires RowReal(s, r) && t.sends == s.sends && t.users == s.users
    ensures RowReal(t, r)
  {
  }

  lemma FlushSendIsReal(s: State, c: int, ok: bool)
    requires PhasesReal(s)
    ensures AddsReal(s, DoFlushSend(s, c, ok))
  {
    var t := DoFlushSend(s, c, ok);
    if t != s {
      hide Addressed;
      var p := s.phases[c];
      assert PhaseReal(s, c, p);
      var row := p.snapshot[p.handled];
      assert row in p.snapshot;
      assert forall r :: r in p.snapshot ==> (RowReal(t, r) <==> RowReal(s, r)) by { SameRows(s, t, p.snapshot); }
      var m := row.frame.msg.value;
      assert Addressed(t, m, row.recipient) by { SameLedger(s, t, row); }
    }
  }

  lemma SameRows(s: State, t: State, rows: seq<Row>)
    requires t.sends == s.sends && t.users == s.users
    ensures forall r :: r in rows ==> (RowReal(t, r) <==> RowReal(s, r))
  {
  }

  lemma DeletionIsReal(s: State, c: int, cutoff: int)
    ensures AddsReal(s, DoFlushDelete(s, c)) && AddsReal(s, DoPrune(s, cutoff))
  {
    hide RowReal, ForConn, Ids, Expired, Listed;
    if FlushOver(s, c) {
      WithoutMembers(s.table.rows, Ids(s.phases[c].snapshot[..s.phases[c].handled]));
    }
    SinceMembers(s.table.rows, cutoff);
  }

  lemma SendIsReal(s: State, c: int, to: seq<Username>, body: Body, ts: int, text: string)
    requires SendsReal(s)
    ensures SendsReal(DoSend(s, c, to, body, ts, text)) && AddsReal(s, DoSend(s, c, to, body, ts, text))
  {
    hide RowReal, ForConn, Bytes, Recipients;
    var t := DoSend(s, c, to, body, ts, text);
    if t != s {
      RecipientsAre(to, s.conns[c].user.value);
    }
  }

  lemma PhaseIsReal(s: State, t: State, c: int, p: Phase)
    requires 0 <= c < |s.phases| && t.phases == s.phases[c := p] && PhaseReal(t, c, p)
    requires t.table == s.table && t.accepted == s.accepted && t.channels == s.channels
    ensures AddsReal(s, t)
  {
    hide PhaseReal, RowReal, ForConn;
  }

  lemma LookedUpIsReal(s: State, t: State, c: int)
    requires PhasesReal(s) && Presence(s) && Live(s, c) && s.phases[c].Sending? && t == DoLookup(s, c)
    ensures PhaseReal(t, c, t.phases[c]) && t.phases == s.phases[c := t.phases[c]]
  {
    hide Latest;
    var p := s.phases[c];
    assert PhaseReal(s, c, p);
    if p.todo != [] {
      assert p.todo[0] in p.todo && forall u :: u in p.todo[1..] ==> u in p.todo;
      assert Mapped(s, p.todo[0]);
    }
  }

  lemma LookupIsReal(s: State, c: int)
    requires PhasesReal(s) && Presence(s)
    ensures AddsReal(s, DoLookup(s, c))
  {
    hide AddsReal, Presence, PhasesReal, PhaseReal;
    var t := DoLookup(s, c);
    if !Live(s, c) || !s.phases[c].Sending? {
      NothingAdded(s);
    } else {
      LookedUpIsReal(s, t, c);
      PhaseIsReal(s, t, c, t.phases[c]);
    }
  }

  lemma NothingAdded(s: State)
    ensures AddsReal(s, s)
  {
  }

  lemma NextRecipientIsReal(s: State, t: State, c: int)
    requires AtPush(s, c) && PhaseReal(s, c, s.phases[c]) && t.sends == s.sends
    ensures var p := s.phases[c]; PhaseReal(t, c, Sending(p.msg, p.text, p.todo[1..])) && Addressed(s, p.msg, p.todo[0])
  {
    var p := s.phases[c];
    assert p.todo[0] in p.todo && forall u :: u in p.todo[1..] ==> u in p.todo;
  }

  lemma PushToChannelIsReal(s: State, c: int, room: bool)
    requires PhasesReal(s) && AtPush(s, c) && ToChannel(s, c, room)
    ensures AddsReal(s, DoPush(s, c, room))
  {
    hide PhaseReal, Addressed;
    var t := DoPush(s, c, room);
    var p := s.phases[c];
    NextRecipientIsReal(s, t, c);
    PushTarget(s, t, c, room);
    hide ForConn, RowReal;
  }

  lemma PushToQueueIsReal(s: State, c: int, room: bool)
    requires PhasesReal(s) && AtPush(s, c) && !ToChannel(s, c, room)
    ensures AddsReal(s, DoPush(s, c, room))
  {
    hide UnderCap, PhaseReal, Addressed;
    var t := DoPush(s, c, room);
    var p := s.phases[c];
    NextRecipientIsReal(s, t, c);
    assert t.table.rows == s.table.rows || RowReal(t, t.table.rows[|s.table.rows|]) by {
      AddressedStays(s, t, p.msg, p.todo[0]);
    }
    hide RowReal, ForConn;
  }

  lemma PushIsReal(s: State, c: int, room: bool)
    requires PhasesReal(s)
    ensures AddsReal(s, DoPush(s, c, room))
  {
    if AtPush(s, c) {
      hide PhasesReal, AddsReal, DoPush;
      if ToChannel(s, c, room) {
        PushToChannelIsReal(s, c, room);
      } else {
        PushToQueueIsReal(s, c, room);
      }
    }
  }

  lemma PushTarget(s: State, t: State, c: int, room: bool)
    requires AtPush(s, c) && ToChannel(s, c, room) && PhaseReal(s, c, s.phases[c])
    requires t.sends == s.sends && t.users == s.users && t.conns == s.conns
    ensures ForConn(t, s.phases[c].target.value, s.phases[c].msg)
  {
    assert s.phases[c].todo[0] in s.phases[c].todo;
  }

  lemma LoginAddsReal(s: State, step: Step)
    requires step.Connect? || step.AuthBegin? || step.Register? || step.AuthFinish?
    requires Presence(s)
    ensures AddsReal(s, Next(s, step))
  {
    hide RowReal, ForConn, ValidPubkey, ValidUsername, Reserved, Routing;
  }

  lemma QuietStepAddsReal(s: State, step: Step)
    requires step.Connect? || step.AuthBegin? || step.Register? || step.AuthFinish? || step.Enter? || step.Pull? || step.Cleanup? || step.Restart?
    requires Presence(s)
    ensures AddsReal(s, Next(s, step))
  {
    if step.Connect? || step.AuthBegin? || step.Register? || step.AuthFinish? {
      hide Next;
      LoginAddsReal(s, step);
    } else {
      hide RowReal, ForConn, Routing;
    }
  }

  lemma StepAddsReal(s: State, step: Step)
    requires Real(s)
    ensures AddsReal(s, Next(s, step))
  {
    hide AddsReal, RowsReal, PhasesReal, ChannelsReal, SendsReal, Presence, DoFlushRead, DoFlushSend, DoFlushDelete, DoPrune, DoSend, DoLookup, DoPush;
    match step {
      case FlushRead(c) => SnapshotIsReal(s, c);
      case FlushSend(c, ok) => FlushSendIsReal(s, c, ok);
      case FlushDelete(c) => DeletionIsReal(s, c, 0);
      case Prune(cutoff) => DeletionIsReal(s, 0, cutoff);
      case Send(c, to, body, ts, text) => SendIsReal(s, c, to, body, ts, text);
      case Lookup(c) => LookupIsReal(s, c);
      case Push(c, room) => PushIsReal(s, c, room);
      case _ =>
        hide Next;
        QuietStepAddsReal(s, step);
    }
  }

  lemma StepKeepsSends(s: State, step: Step)
    requires SendsReal(s)
    ensures SendsReal(Next(s, step))
  {
    hide SendsReal;
    StepExtends(s, step);
    if step.Send? {
      SendIsReal(s, step.conn, step.to, step.body, step.ts, step.text);
    } else {
      hide Next;
      LedgersOnlyGrow(s, step);
      SendsStay(s, Next(s, step));
    }
  }

  lemma SendsStay(s: State, t: State)
    requires SendsReal(s) && Extends(s, t) && t.sends == s.sends
    ensures SendsReal(t)
  {
  }

  lemma StepKeepsReal(s: State, step: Step)
    requires Real(s)
    ensures Real(Next(s, step))
  {
    hide Next, Presence, SendsReal, RowsReal, ChannelsReal, PhasesReal, AddsReal, Extends;
    StepKeepsPresence(s, step);
    StepExtends(s, step);
    StepKeepsSends(s, step);
    StepAddsReal(s, step);
    RowsStay(s, Next(s, step));
    ChannelsStay(s, Next(s, step));
    PhasesStay(s, Next(s, step));
  }

  lemma {:induction false} RunIsReal(steps: seq<Step>)
    ensures Real(Run(steps))
  {
    hide Next, Real;
    if steps == [] {
      BootIsReal();
    } else {
      RunIsReal(steps[..|steps| - 1]);
      StepKeepsReal(Run(steps[..|steps| - 1]), steps[|steps| - 1]);
    }
  }

  lemma BootIsReal()
    ensures Real(BOOT)
  {
  }
}
