/** In which order the messages of one sending connection arrive at a receiving one. Presence is published
    before the backlog is flushed, so a live message can overtake a queued one; this is the only way in
    which the order of sending is ever lost. */
module RelaySequence {
  import opened Wrappers
  import opened Text
  import opened Outbox
  import opened FanOut
  import opened Relay
  import opened RelayPresence
  import opened RelayProvenance
  import opened RelayConservation
  import opened RelayOrder
  import opened RelayDelivery

  predicate SentBy(s: State, c: int, m: Deliver) {
    0 <= m.send < |s.sends| && s.sends[m.send].conn == c
  }

  predicate RowBy(s: State, c: int, r: Row) {
    r.frame.msg.Some? && SentBy(s, c, r.frame.msg.value)
  }

  function ChannelOf(s: State, d: int): seq<Deliver> {
    if 0 <= d < |s.channels| then s.channels[d] else []
  }

  /** On `d` the messages of connection `c` stand in the order of their Send commands, none of them twice. */
  ghost predicate InSendOrder(s: State, c: int, d: int) {
    forall i, j :: 0 <= i < j < |ChannelOf(s, d)| && SentBy(s, c, ChannelOf(s, d)[i]) && SentBy(s, c, ChannelOf(s, d)[j])
      ==> ChannelOf(s, d)[i].send < ChannelOf(s, d)[j].send
  }

  // ---- What a step adds ----

  /** A step accepts at most one row, the current copy of a push. */
  lemma AcceptedByPush(s: State, step: Step)
    ensures var t := Next(s, step);
            || t.accepted == s.accepted
            || (step.Push? && AtPush(s, step.conn)
                && var p := s.phases[step.conn];
                   t.accepted == s.accepted + [Row(s.table.nextId, p.todo[0], Frame(p.text, Some(p.msg)), p.msg.ts)])
  {
    if step.Push? && AtPush(s, step.conn) {
      hide UnderCap;
    } else if step.Lookup? {
      hide OutcomeReal;
    } else {
      hide Next;
      OthersLeaveRecord(s, step);
    }
  }

  lemma LoginKeepsChannels(s: State, step: Step)
    requires step.Connect? || step.AuthBegin? || step.Register? || step.AuthFinish?
    ensures forall d :: ChannelOf(Next(s, step), d) == ChannelOf(s, d)
  {
    hide ValidPubkey, ValidUsername, Reserved;
  }

  lemma OthersKeepChannels(s: State, step: Step)
    requires !step.FlushSend? && !step.Push?
    ensures forall d :: ChannelOf(Next(s, step), d) == ChannelOf(s, d)
  {
    if step.Connect? || step.AuthBegin? || step.Register? || step.AuthFinish? {
      hide Next;
      LoginKeepsChannels(s, step);
    } else {
      hide RowsFor, Without, Since, Ids, Expired, Recipients, Bytes;
    }
  }

  /** A live message of connection `c` enters the channel of `d`. */
  predicate PushesLive(s: State, step: Step, c: int, d: int) {
    step.Push? && step.conn == c && AtPush(s, c) && ToChannel(s, c, step.room) && s.phases[c].target == Some(d)
  }

  function RowAt(s: State, d: int): Row
    requires AtRow(s, d)
  {
    s.phases[d].snapshot[s.phases[d].handled]
  }

  /** A row of the backlog enters the channel of `d`. */
  predicate HandsOver(s: State, step: Step, d: int) {
    step.FlushSend? && step.conn == d && AtRow(s, d) && RowAt(s, d).frame.msg.Some? && step.ok
  }

  lemma PushMoves(s: State, c: int, room: bool, d: int)
    ensures var t := DoPush(s, c, room);
            && t.handed == s.handed && t.conns == s.conns
            && (if PushesLive(s, Push(c, room), c, d)
                then ChannelOf(t, d) == ChannelOf(s, d) + [s.phases[c].msg] && t.accepted == s.accepted
                else ChannelOf(t, d) == ChannelOf(s, d))
  {
    hide UnderCap;
  }

  lemma FlushMoves(s: State, c: int, ok: bool, d: int)
    ensures var t := DoFlushSend(s, c, ok);
            && t.accepted == s.accepted && s.handed <= t.handed
            && (if HandsOver(s, FlushSend(c, ok), d)
                then ChannelOf(t, d) == ChannelOf(s, d) + [RowAt(s, d).frame.msg.value]
                     && t.handed == s.handed + [Hand(RowAt(s, d), d)]
                else ChannelOf(t, d) == ChannelOf(s, d) && (forall r :: Hand(r, d) in t.handed ==> Hand(r, d) in s.handed))
  {
  }

  lemma OthersHandNoRow(s: State, step: Step)
    requires !step.FlushSend? && |s.conns| == |s.phases|
    ensures Next(s, step).handed == s.handed
  {
    hide RowsFor, Without, Ids;
    if !step.FlushRead? && !step.FlushDelete? {
      hide Next;
      CalmStep(s, step);
    }
  }

  /** Nothing enters the channel of `d` but live messages and rows of the backlog. */
  lemma StepMoves(s: State, step: Step, d: int)
    requires |s.conns| == |s.phases|
    ensures var t := Next(s, step);
            && s.handed <= t.handed
            && (if step.Push? && PushesLive(s, step, step.conn, d)
                then ChannelOf(t, d) == ChannelOf(s, d) + [s.phases[step.conn].msg] && t.accepted == s.accepted
                else if HandsOver(s, step, d)
                then ChannelOf(t, d) == ChannelOf(s, d) + [RowAt(s, d).frame.msg.value]
                     && t.handed == s.handed + [Hand(RowAt(s, d), d)]
                else ChannelOf(t, d) == ChannelOf(s, d))
            && (HandsOver(s, step, d) || forall r :: Hand(r, d) in t.handed ==> Hand(r, d) in s.handed)
  {
    hide PushesLive, DoPush, DoFlushSend, HandedTo, ChannelOf;
    if step.Push? {
      PushMoves(s, step.conn, step.room, d);
      assert !HandsOver(s, step, d);
    } else if step.FlushSend? {
      FlushMoves(s, step.conn, step.ok, d);
    } else {
      hide Next;
      assert !HandsOver(s, step, d);
      OthersKeepChannels(s, step);
      OthersHandNoRow(s, step);
    }
  }

  /** A Send command that is taken: by a logged-in connection that waits for commands, within the limits. */
  predicate Accepts(s: State, step: Step) {
    && step.Send? && Ready(s, step.conn) && s.conns[step.conn].user.Some?
    && Bytes(step.body.payload) <= 128 * 1024 && |step.to| <= 1024
  }

  /** The ledger of Send commands grows by what a taken command says. */
  lemma SendsGrow(s: State, step: Step)
    ensures Next(s, step).sends
            == if Accepts(s, step)
               then s.sends + [Sent(step.conn, Deliver(|s.sends|, s.conns[step.conn].user.value, step.to, step.body, step.ts))]
               else s.sends
  {
    if step.Send? {
      hide Bytes, Recipients;
    } else {
      hide Next;
      LedgersOnlyGrow(s, step);
    }
  }

  // ---- A connection works through one message at a time ----

  lemma PhaseOf(s: State, c: int)
    requires PhasesReal(s) && 0 <= c < |s.phases|
    ensures PhaseReal(s, c, s.phases[c])
  {
  }

  /** A copy of `m` was made for `u`. */
  ghost predicate Placed(s: State, u: Username, m: Deliver) {
    || (exists r :: r in s.accepted && r.recipient == u && r.frame.msg == Some(m))
    || (exists d :: BelongsTo(s, d, u) && m in ChannelOf(s, d))
  }

  ghost predicate PlacedBefore(s: State, c: int, u: Username, k: int) {
    forall m :: SentBy(s, c, m) && Placed(s, u, m) ==> m.send < k
  }

  predicate Routes(p: Phase) {
    p.Sending? || p.Pushing?
  }

  /** What connection `c` placed for the recipients it has still to deal with, it sent earlier. */
  ghost predicate WorksAhead(s: State, c: int, p: Phase) {
    Routes(p) ==> Distinct(p.todo) && forall u :: u in p.todo ==> PlacedBefore(s, c, u, p.msg.send)
  }

  ghost predicate AllWorkAhead(s: State) {
    forall c :: 0 <= c < |s.phases| ==> WorksAhead(s, c, s.phases[c])
  }

  lemma PlacedIsAddressed(s: State, u: Username, m: Deliver)
    requires Real(s) && Placed(s, u, m)
    ensures Addressed(s, m, u)
  {
    hide Presence, SendsReal, PhasesReal, Addressed;
    if r :| r in s.accepted && r.recipient == u && r.frame.msg == Some(m) {
      assert RowReal(s, r);
    } else {
      var d :| BelongsTo(s, d, u) && m in ChannelOf(s, d);
      var i :| 0 <= i < |ChannelOf(s, d)| && ChannelOf(s, d)[i] == m;
      assert ForConn(s, d, s.channels[d][i]);
    }
  }

  /** The copy that a step makes, if it makes one. */
  predicate Places(s: State, step: Step, u: Username, m: Deliver) {
    step.Push? && AtPush(s, step.conn) && s.phases[step.conn].todo[0] == u && s.phases[step.conn].msg == m
  }

  lemma FlushPlacesNothing(s: State, c: int, ok: bool, u: Username, m: Deliver)
    requires Custody(s) && PhasesReal(s) && Placed(DoFlushSend(s, c, ok), u, m)
    ensures Placed(s, u, m)
  {
    var t := DoFlushSend(s, c, ok);
    if AtRow(s, c) && !(exists r :: r in s.accepted && r.recipient == u && r.frame.msg == Some(m)) {
      var p := s.phases[c];
      var row := p.snapshot[p.handled];
      assert row in p.snapshot && PhaseReal(s, c, p) && FlushHonest(s, c, p);
      hide Custody, PhasesReal, PhaseReal, FlushHonest, RowReal;
      var d :| BelongsTo(t, d, u) && m in ChannelOf(t, d);
      assert BelongsTo(s, d, u);
      assert d == c && row.frame.msg == Some(m) ==> row.recipient == u;
      assert m in ChannelOf(s, d);
    }
  }

  lemma PushPlacesOne(s: State, c: int, room: bool, u: Username, m: Deliver)
    requires PhasesReal(s) && Placed(DoPush(s, c, room), u, m)
    ensures Placed(s, u, m) || Places(s, Push(c, room), u, m)
  {
    hide DoPush, PhasesReal;
    var t := DoPush(s, c, room);
    AcceptedByPush(s, Push(c, room));
    if !(exists r :: r in t.accepted && r.recipient == u && r.frame.msg == Some(m)) {
      var d :| BelongsTo(t, d, u) && m in ChannelOf(t, d);
      PushMoves(s, c, room, d);
      if m !in ChannelOf(s, d) { PhaseOf(s, c); }
    }
  }

  /** Channels and accepted rows stay; only a connection with an empty channel gets a user. */
  ghost predicate SamePlaces(s: State, t: State) {
    && t.accepted == s.accepted
    && (forall d :: ChannelOf(t, d) == ChannelOf(s, d))
    && (forall d, u :: BelongsTo(t, d, u) && ChannelOf(t, d) != [] ==> BelongsTo(s, d, u))
  }

  lemma OthersKeepPlaces(s: State, step: Step)
    requires Real(s) && !step.FlushSend? && !step.Push?
    ensures SamePlaces(s, Next(s, step))
  {
    var t := Next(s, step);
    OthersKeepChannels(s, step);
    AcceptedByPush(s, step);
    assert Extends(s, t) by { StepExtends(s, step); }
    hide Next, Presence, SendsReal, RowsReal, PhasesReal, Addressed;
    forall d, u | BelongsTo(t, d, u) && ChannelOf(t, d) != [] ensures BelongsTo(s, d, u) {
      assert ForConn(s, d, s.channels[d][0]);
    }
  }

  lemma NewlyPlaced(s: State, step: Step, u: Username, m: Deliver)
    requires Real(s) && Custody(s) && Placed(Next(s, step), u, m)
    ensures Placed(s, u, m) || Places(s, step, u, m)
  {
    hide Custody, Placed, DoFlushSend, DoPush, Presence, SendsReal, RowsReal, PhasesReal, ChannelsReal;
    if step.FlushSend? {
      FlushPlacesNothing(s, step.conn, step.ok, u, m);
    } else if step.Push? {
      PushPlacesOne(s, step.conn, step.room, u, m);
    } else {
      hide Next;
      OthersKeepPlaces(s, step);
      SamePlacesHold(s, Next(s, step), u, m);
    }
  }

  lemma SamePlacesHold(s: State, t: State, u: Username, m: Deliver)
    requires SamePlaces(s, t) && Placed(t, u, m)
    ensures Placed(s, u, m)
  {
  }

  /** Where a step can leave a task that routes a message: where it was, or one recipient further, or at a
      new message. */
  ghost predicate WorkMoves(s: State, step: Step, c: int, p: Phase) {
    && 0 <= c < |s.phases| && Routes(s.phases[c]) && Routes(p)
    && p.msg == s.phases[c].msg && p.text == s.phases[c].text
    && ((p.todo == s.phases[c].todo && !(step.Push? && step.conn == c && AtPush(s, c)))
        || (s.phases[c].todo != [] && p.todo == s.phases[c].todo[1..]))
  }

  /** The task of an accepted Send command: the message says what the command says, by the connection's user. */
  predicate WorkStarts(s: State, step: Step, c: int, p: Phase) {
    && Accepts(s, step) && step.conn == c && Routes(p) && p.text == step.text
    && p.msg == Deliver(|s.sends|, s.conns[c].user.value, step.to, step.body, step.ts)
    && p.todo == Recipients(step.to, s.conns[c].user.value)
  }

  ghost predicate Works(s: State, step: Step, c: int, p: Phase) {
    Routes(p) ==> WorkMoves(s, step, c, p) || WorkStarts(s, step, c, p)
  }

  lemma PushMovesWork(s: State, c: int, room: bool, d: int)
    requires 0 <= d < |s.phases|
    ensures |DoPush(s, c, room).phases| == |s.phases| && Works(s, Push(c, room), d, DoPush(s, c, room).phases[d])
  {
    hide UnderCap;
  }

  lemma LookupMovesWork(s: State, c: int, d: int)
    requires 0 <= d < |s.phases|
    ensures |DoLookup(s, c).phases| == |s.phases| && Works(s, Lookup(c), d, DoLookup(s, c).phases[d])
  {
  }

  lemma SendMovesWork(s: State, step: Step, d: int)
    requires step.Send? && 0 <= d < |s.phases|
    ensures |Next(s, step).phases| == |s.phases| && Works(s, step, d, Next(s, step).phases[d])
  {
    hide Bytes, Recipients;
  }

  lemma LoginMovesNoWork(s: State, step: Step, d: int)
    requires step.Connect? || step.AuthBegin? || step.Register? || step.AuthFinish?
    requires 0 <= d < |Next(s, step).phases|
    ensures var p := Next(s, step).phases[d]; Routes(p) ==> d < |s.phases| && p == s.phases[d]
  {
    hide ValidPubkey, ValidUsername, Reserved;
  }

  lemma OthersMoveNoWork(s: State, step: Step, d: int)
    requires !step.Send? && !step.Lookup? && !step.Push? && 0 <= d < |Next(s, step).phases|
    ensures var p := Next(s, step).phases[d]; Routes(p) ==> d < |s.phases| && p == s.phases[d]
  {
    if step.Connect? || step.AuthBegin? || step.Register? || step.AuthFinish? {
      hide Next, Routes;
      LoginMovesNoWork(s, step, d);
    } else {
      hide RowsFor, Without, Since, Ids, Expired;
    }
  }

  lemma StepWorks(s: State, step: Step, d: int)
    requires 0 <= d < |Next(s, step).phases|
    ensures Works(s, step, d, Next(s, step).phases[d])
  {
    hide DoSend, DoLookup, DoPush, Works;
    if step.Push? || step.Send? || step.Lookup? {
      SamePhases(s, step);
      if step.Push? {
        PushMovesWork(s, step.conn, step.room, d);
      } else if step.Lookup? {
        LookupMovesWork(s, step.conn, d);
      } else {
        SendMovesWork(s, step, d);
      }
    } else {
      hide Next;
      OthersMoveNoWork(s, step, d);
      StillWorks(s, step, d, Next(s, step).phases[d]);
    }
  }

  lemma StillWorks(s: State, step: Step, d: int, p: Phase)
    requires !step.Push? && (Routes(p) ==> 0 <= d < |s.phases| && p == s.phases[d])
    ensures Works(s, step, d, p)
  {
  }

  lemma SamePhases(s: State, step: Step)
    requires step.Send? || step.Lookup? || step.Push?
    ensures |Next(s, step).phases| == |s.phases|
  {
    hide Bytes, Recipients, UnderCap, Append;
    if step.Push? {
    } else if step.Lookup? {
    } else {
    }
  }

  lemma RestIsDistinct(us: seq<Username>)
    requires Distinct(us) && us != []
    ensures Distinct(us[1..]) && us[0] !in us[1..] && forall u :: u in us[1..] ==> u in us
  {
  }

  /** A push copies a message of its own connection, and for a recipient that is then done. */
  lemma CopiesItsOwn(s: State, step: Step, c: int, p: Phase, u: Username, m: Deliver)
    requires PhasesReal(s) && AllWorkAhead(s) && Places(s, step, u, m) && WorkMoves(s, step, c, p) && u in p.todo
    ensures !SentBy(s, c, m) && m.send < |s.sends|
  {
    assert PhaseReal(s, step.conn, s.phases[step.conn]);
    assert WorksAhead(s, c, s.phases[c]);
    RestIsDistinct(s.phases[c].todo);
  }

  lemma PlacedWasSentBefore(s: State, step: Step, c: int, p: Phase, u: Username, m: Deliver)
    requires Real(s) && Custody(s) && AllWorkAhead(s) && Works(s, step, c, p) && Routes(p) && u in p.todo
    requires SentBy(Next(s, step), c, m) && Placed(Next(s, step), u, m)
    ensures m.send < p.msg.send
  {
    hide Next, Custody, Presence, SendsReal, RowsReal, PhasesReal, ChannelsReal, Placed, Recipients;
    LedgersOnlyGrow(s, step);
    NewlyPlaced(s, step, u, m);
    if Placed(s, u, m) {
      PlacedIsAddressed(s, u, m);
      if WorkMoves(s, step, c, p) {
        assert WorksAhead(s, c, s.phases[c]);
        assert u in s.phases[c].todo;
        assert PlacedBefore(s, c, u, p.msg.send);
      }
    } else if WorkMoves(s, step, c, p) {
      CopiesItsOwn(s, step, c, p, u, m);
    }
  }

  lemma StepWorksAhead(s: State, step: Step, c: int)
    requires Real(s) && Custody(s) && AllWorkAhead(s) && 0 <= c < |Next(s, step).phases|
    ensures WorksAhead(Next(s, step), c, Next(s, step).phases[c])
  {
    hide Next, Custody, Real, Placed, SentBy, Recipients;
    var t := Next(s, step);
    var p := t.phases[c];
    StepWorks(s, step, c);
    if Routes(p) {
      if WorkMoves(s, step, c, p) {
        assert WorksAhead(s, c, s.phases[c]);
        if s.phases[c].todo != [] { RestIsDistinct(s.phases[c].todo); }
      } else {
        RecipientsAre(step.to, s.conns[c].user.value);
      }
      forall u, m | u in p.todo && SentBy(t, c, m) && Placed(t, u, m) ensures m.send < p.msg.send {
        PlacedWasSentBefore(s, step, c, p, u, m);
      }
    }
  }

  // ---- Rows are queued in the order of sending ----

  /** Of two rows from one connection to one recipient the later one was sent later. */
  ghost predicate RowsFollowSends(s: State) {
    forall c, r, q :: r in s.accepted && q in s.accepted && r.recipient == q.recipient && r.id < q.id
        && RowBy(s, c, r) && RowBy(s, c, q)
      ==> r.frame.msg.value.send < q.frame.msg.value.send
  }

  lemma RowStaysBy(s: State, step: Step, c: int, r: Row)
    requires RowsReal(s) && r in s.accepted
    ensures RowBy(Next(s, step), c, r) <==> RowBy(s, c, r)
  {
    hide Next;
    LedgersOnlyGrow(s, step);
    assert RowReal(s, r);
  }

  lemma NewRowFollows(s: State, c: int, r: Row)
    requires PhasesReal(s) && AllWorkAhead(s) && AtPush(s, c)
    requires r in s.accepted && r.recipient == s.phases[c].todo[0] && RowBy(s, c, r)
    ensures r.frame.msg.value.send < s.phases[c].msg.send
  {
    assert WorksAhead(s, c, s.phases[c]);
    assert s.phases[c].todo[0] in s.phases[c].todo;
    assert Placed(s, r.recipient, r.frame.msg.value);
  }

  lemma StepRowsFollow(s: State, step: Step)
    requires Real(s) && Custody(s) && AllWorkAhead(s) && RowsFollowSends(s)
    ensures RowsFollowSends(Next(s, step))
  {
    hide Next, Presence, SendsReal, RowsReal, PhasesReal, ChannelsReal, AllWorkAhead, RowBy, InOrder;
    var t := Next(s, step);
    AcceptedByPush(s, step);
    forall c, r, q | r in t.accepted && q in t.accepted && r.recipient == q.recipient && r.id < q.id
        && RowBy(t, c, r) && RowBy(t, c, q)
      ensures r.frame.msg.Some? && q.frame.msg.Some? && r.frame.msg.value.send < q.frame.msg.value.send
    {
      if r in s.accepted { RowStaysBy(s, step, c, r); }
      if q in s.accepted {
        RowStaysBy(s, step, c, q);
      } else {
        NewRowIsOwn(s, step, c, q);
        NewRowFollows(s, c, r);
      }
      assert r.frame.msg.Some? && q.frame.msg.Some? by { ByMeansSome(t, c, r); ByMeansSome(t, c, q); }
    }
  }

  lemma ByMeansSome(s: State, c: int, r: Row)
    requires RowBy(s, c, r)
    ensures r.frame.msg.Some?
  {
  }

  lemma NewRowIsOwn(s: State, step: Step, c: int, r: Row)
    requires PhasesReal(s) && r in Next(s, step).accepted && r !in s.accepted && RowBy(Next(s, step), c, r)
    ensures step.Push? && step.conn == c && AtPush(s, c) && RowBy(s, c, r)
    ensures r.recipient == s.phases[c].todo[0] && r.frame.msg.value == s.phases[c].msg
  {
    hide Next;
    AcceptedByPush(s, step);
    LedgersOnlyGrow(s, step);
    PhaseOf(s, step.conn);
  }

  lemma {:induction false} RunWorksAhead(steps: seq<Step>)
    ensures AllWorkAhead(Run(steps)) && RowsFollowSends(Run(steps))
  {
    hide Next, AllWorkAhead, RowsFollowSends, Real, Custody;
    if steps == [] {
      assert AllWorkAhead(BOOT) && RowsFollowSends(BOOT) by { BootIsAhead(); }
    } else {
      var front, step := steps[..|steps| - 1], steps[|steps| - 1];
      RunWorksAhead(front);
      RunIsReal(front);
      RunKeepsCustody(front);
      StepRowsFollow(Run(front), step);
      StepKeepsWork(Run(front), step);
    }
  }

  lemma BootIsAhead()
    ensures AllWorkAhead(BOOT) && RowsFollowSends(BOOT)
  {
  }

  lemma StepKeepsWork(s: State, step: Step)
    requires Real(s) && Custody(s) && AllWorkAhead(s)
    ensures AllWorkAhead(Next(s, step))
  {
    hide Next, Real, Custody, WorksAhead;
    forall c | 0 <= c < |Next(s, step).phases| ensures WorksAhead(Next(s, step), c, Next(s, step).phases[c]) {
      StepWorksAhead(s, step, c);
    }
  }

  // ---- What a flush can still bring ----

  /** The row is in the queue, or in the snapshot that connection `d` is flushing. */
  predicate StillQueued(s: State, d: int, r: Row) {
    r in s.table.rows || (0 <= d < |s.phases| && s.phases[d].Flushing? && r in s.phases[d].snapshot)
  }

  lemma FlushBringsQueued(s: State, step: Step, d: int, r: Row)
    requires step.FlushRead? || step.FlushSend? || step.FlushDelete?
    requires !StillQueued(s, d, r)
    ensures !StillQueued(Next(s, step), d, r) && (Hand(r, d) in Next(s, step).handed ==> Hand(r, d) in s.handed)
  {
    hide RowsFor, Without, Ids, Listed;
    if step.FlushRead? {
      if Live(s, step.conn) && s.conns[step.conn].user.Some? { RowsForMembers(s.table.rows, s.conns[step.conn].user.value); }
    } else if step.FlushDelete? {
      if FlushOver(s, step.conn) { WithoutMembers(s.table.rows, Ids(s.phases[step.conn].snapshot[..s.phases[step.conn].handled])); }
    } else {
    }
  }

  lemma CalmBringsNothing(s: State, t: State, d: int, r: Row)
    requires CalmAll(s, t) && Numbered(s) && |s.conns| == |s.phases| && r in s.accepted && !StillQueued(s, d, r)
    ensures !StillQueued(t, d, r) && t.handed == s.handed
  {
    hide InOrder;
    if 0 <= d < |t.phases| {
      if d < |s.phases| { assert Calm(s, t, d); } else { assert t == DoConnect(s); }
    }
  }

  lemma StepBringsQueued(s: State, step: Step, d: int, r: Row)
    requires Custody(s) && |s.conns| == |s.phases| && r in s.accepted && !StillQueued(s, d, r)
    ensures !StillQueued(Next(s, step), d, r) && (Hand(r, d) in Next(s, step).handed ==> Hand(r, d) in s.handed)
  {
    hide Next, StillQueued, CalmAll, Numbered;
    if step.FlushRead? || step.FlushSend? || step.FlushDelete? {
      FlushBringsQueued(s, step, d, r);
    } else {
      CalmStep(s, step);
      CalmBringsNothing(s, Next(s, step), d, r);
    }
  }

  /** A row that has left the queue and the snapshot is never handed over afterwards. */
  lemma {:induction false} GoneForGood(steps: seq<Step>, n: nat, d: int, r: Row)
    requires n <= |steps| && r in Run(steps[..n]).accepted && !StillQueued(Run(steps[..n]), d, r)
    requires Hand(r, d) !in Run(steps[..n]).handed
    ensures r in Run(steps).accepted && !StillQueued(Run(steps), d, r) && Hand(r, d) !in Run(steps).handed
  {
    hide Next, StillQueued, Custody, Real;
    if n == |steps| {
      assert steps[..n] == steps;
    } else {
      var front, step := steps[..|steps| - 1], steps[|steps| - 1];
      assert front[..n] == steps[..n];
      GoneForGood(front, n, d, r);
      RunKeepsCustody(front);
      RunIsOrderly(front);
      StepBringsQueued(Run(front), step, d, r);
      AcceptedByPush(Run(front), step);
    }
  }

  // ---- Order is lost by overtaking only ----

  /** A row of `c` that is not with `d` yet and will be. */
  ghost predicate Coming(s: State, end: State, c: int, d: int, r: Row) {
    RowBy(s, c, r) && r in s.accepted && Hand(r, d) !in s.handed && Hand(r, d) in end.handed
  }

  /** What of `c` is with `d` was sent before `k`. */
  ghost predicate Older(s: State, c: int, d: int, k: int) {
    forall i :: 0 <= i < |ChannelOf(s, d)| && SentBy(s, c, ChannelOf(s, d)[i]) ==> ChannelOf(s, d)[i].send < k
  }

  /** What of `c` is with `d` was sent before what is coming. */
  ghost predicate NothingPassed(s: State, end: State, c: int, d: int) {
    forall r :: Coming(s, end, c, d, r) ==> Older(s, c, d, r.frame.msg.value.send)
  }

  /** How a run goes on from `s`: `d` keeps its user, and what is handed to it comes in the order of the queue. */
  ghost predicate Onward(s: State, end: State, d: int) {
    Extends(s, end) && s.handed <= end.handed && HandsHonest(end) && InOrder(HandedTo(end.handed, d))
  }

  lemma InChannelMeansUser(s: State, end: State, d: int, r: Row)
    requires ChannelsReal(s) && Onward(s, end, d) && Hand(r, d) in end.handed && ChannelOf(s, d) != []
    ensures BelongsTo(s, d, r.recipient)
  {
    hide InOrder;
    assert ForConn(s, d, s.channels[d][0]);
    assert HandHonest(end, Hand(r, d));
  }

  /** While `c` deals with the user of `d`, all it has with `d` is older. */
  lemma OlderThanWork(s: State, c: int, d: int)
    requires AllWorkAhead(s) && AtPush(s, c) && (ChannelOf(s, d) != [] ==> BelongsTo(s, d, s.phases[c].todo[0]))
    ensures Older(s, c, d, s.phases[c].msg.send)
  {
    assert WorksAhead(s, c, s.phases[c]);
    var u := s.phases[c].todo[0];
    assert u in s.phases[c].todo;
    forall i | 0 <= i < |ChannelOf(s, d)| && SentBy(s, c, ChannelOf(s, d)[i])
      ensures ChannelOf(s, d)[i].send < s.phases[c].msg.send
    {
      assert BelongsTo(s, d, u) && ChannelOf(s, d)[i] in ChannelOf(s, d);
      assert Placed(s, u, ChannelOf(s, d)[i]);
    }
  }

  lemma OlderStays(s: State, step: Step, c: int, d: int, k: int)
    requires ChannelsReal(s) && Older(s, c, d, k) && ChannelOf(Next(s, step), d) == ChannelOf(s, d)
    ensures Older(Next(s, step), c, d, k)
  {
    hide Next;
    LedgersOnlyGrow(s, step);
    forall i | 0 <= i < |ChannelOf(s, d)| ensures SentBy(Next(s, step), c, ChannelOf(s, d)[i]) == SentBy(s, c, ChannelOf(s, d)[i]) {
      assert ForConn(s, d, s.channels[d][i]);
    }
  }

  lemma OlderGrows(s: State, step: Step, c: int, d: int, k: int, m: Deliver)
    requires ChannelsReal(s) && Older(s, c, d, k) && ChannelOf(Next(s, step), d) == ChannelOf(s, d) + [m]
    requires SentBy(Next(s, step), c, m) ==> m.send < k
    ensures Older(Next(s, step), c, d, k)
  {
    hide Next;
    LedgersOnlyGrow(s, step);
    forall i | 0 <= i < |ChannelOf(s, d)| ensures SentBy(Next(s, step), c, ChannelOf(s, d)[i]) == SentBy(s, c, ChannelOf(s, d)[i]) {
      assert ForConn(s, d, s.channels[d][i]);
    }
  }

  lemma OrderStays(s: State, step: Step, c: int, d: int)
    requires ChannelsReal(s) && InSendOrder(s, c, d) && ChannelOf(Next(s, step), d) == ChannelOf(s, d)
    ensures InSendOrder(Next(s, step), c, d)
  {
    hide Next;
    LedgersOnlyGrow(s, step);
    forall i | 0 <= i < |ChannelOf(s, d)| ensures SentBy(Next(s, step), c, ChannelOf(s, d)[i]) == SentBy(s, c, ChannelOf(s, d)[i]) {
      assert ForConn(s, d, s.channels[d][i]);
    }
  }

  lemma OrderGrows(s: State, step: Step, c: int, d: int, m: Deliver)
    requires ChannelsReal(s) && InSendOrder(s, c, d) && ChannelOf(Next(s, step), d) == ChannelOf(s, d) + [m]
    requires SentBy(Next(s, step), c, m) ==> Older(s, c, d, m.send)
    ensures InSendOrder(Next(s, step), c, d)
  {
    hide Next;
    LedgersOnlyGrow(s, step);
    forall i | 0 <= i < |ChannelOf(s, d)| ensures SentBy(Next(s, step), c, ChannelOf(s, d)[i]) == SentBy(s, c, ChannelOf(s, d)[i]) {
      assert ForConn(s, d, s.channels[d][i]);
    }
  }

  /** What is coming after a step was coming before it, or is the copy just queued. */
  lemma ComingBefore(s: State, step: Step, end: State, c: int, d: int, r: Row)
    requires Real(s) && Coming(Next(s, step), end, c, d, r) && |s.conns| == |s.phases|
    ensures Coming(s, end, c, d, r)
            || (Next(s, step).accepted != s.accepted && step.Push? && step.conn == c && AtPush(s, c)
                && r.recipient == s.phases[c].todo[0] && r.frame.msg == Some(s.phases[c].msg))
  {
    hide Next, Presence, SendsReal, RowsReal, PhasesReal, ChannelsReal, HandsOver, PushesLive;
    StepMoves(s, step, d);
    if r in s.accepted {
      RowStaysBy(s, step, c, r);
    } else {
      NewRowIsOwn(s, step, c, r);
    }
  }

  /** A step that leaves the channel alone. */
  lemma QuietPassesNothing(s: State, step: Step, end: State, c: int, d: int)
    requires Real(s) && AllWorkAhead(s) && Onward(Next(s, step), end, d) && NothingPassed(s, end, c, d)
    requires ChannelOf(Next(s, step), d) == ChannelOf(s, d)
    ensures NothingPassed(Next(s, step), end, c, d)
  {
    hide Next, Presence, SendsReal, RowsReal, PhasesReal, ChannelsReal, AllWorkAhead, InOrder, Older, Extends, HandsHonest;
    var t := Next(s, step);
    forall r | Coming(t, end, c, d, r) ensures Older(t, c, d, r.frame.msg.value.send) {
      assert |s.conns| == |s.phases| by { SameLengths(s); }
      ComingBefore(s, step, end, c, d, r);
      if !Coming(s, end, c, d, r) {
        OnwardBefore(s, step, end, d);
        if ChannelOf(s, d) != [] { InChannelMeansUser(s, end, d, r); }
        OlderThanWork(s, c, d);
      }
      OlderStays(s, step, c, d, r.frame.msg.value.send);
    }
  }

  lemma SameLengths(s: State)
    requires Presence(s)
    ensures |s.conns| == |s.phases| == |s.channels|
  {
  }

  lemma OnwardBefore(s: State, step: Step, end: State, d: int)
    requires Presence(s) && Onward(Next(s, step), end, d)
    ensures Onward(s, end, d)
  {
    hide Next, InOrder, HandsHonest, HandsOver, PushesLive, ChannelOf, RowAt;
    StepMoves(s, step, d);
    StepExtends(s, step);
  }

  /** A live message, with nothing coming that it could pass. */
  lemma LivePassesNothing(s: State, step: Step, end: State, c: int, d: int)
    requires Real(s) && AllWorkAhead(s) && InSendOrder(s, c, d) && NothingPassed(s, end, c, d)
    requires step.Push? && PushesLive(s, step, step.conn, d)
    requires step.conn == c ==> forall r :: !Coming(s, end, c, d, r)
    ensures InSendOrder(Next(s, step), c, d) && NothingPassed(Next(s, step), end, c, d)
  {
    hide Next, Presence, SendsReal, RowsReal, PhasesReal, ChannelsReal, AllWorkAhead, InSendOrder, Older, HandsOver;
    var t, m := Next(s, step), s.phases[step.conn].msg;
    SameLengths(s);
    StepMoves(s, step, d);
    LedgersOnlyGrow(s, step);
    PhaseOf(s, step.conn);
    if step.conn == c { OlderThanWork(s, c, d); }
    OrderGrows(s, step, c, d, m);
    forall r | Coming(t, end, c, d, r) ensures Older(t, c, d, r.frame.msg.value.send) {
      ComingBefore(s, step, end, c, d, r);
      OlderGrows(s, step, c, d, r.frame.msg.value.send, m);
    }
  }

  lemma {:induction false} HandedPrefix(a: seq<Hand>, b: seq<Hand>, d: int)
    requires a <= b
    ensures HandedTo(a, d) <= HandedTo(b, d)
  {
    if a == b {
    } else {
      assert a <= b[..|b| - 1];
      HandedPrefix(a, b[..|b| - 1], d);
    }
  }

  lemma LaterHandIsBeyond(a: seq<Hand>, b: seq<Hand>, d: int, r: Row, q: Row)
    requires a + [Hand(r, d)] <= b && InOrder(HandedTo(b, d)) && Hand(q, d) in b && Hand(q, d) !in a + [Hand(r, d)]
    ensures r.id < q.id
  {
    var x, y := HandedTo(a + [Hand(r, d)], d), HandedTo(b, d);
    HandedGrows(a, r, d, d);
    HandedPrefix(a + [Hand(r, d)], b, d);
    HandedToMembers(b, d);
    HandedToMembers(a + [Hand(r, d)], d);
    hide HandedTo, InOrder;
    assert x != [] && x[|x| - 1] == r && q in y && q !in x;
    LaterIsBeyond(x, y, q);
  }

  /** What a list in order has beyond a prefix comes after the prefix's last. */
  lemma LaterIsBeyond(x: seq<Row>, y: seq<Row>, q: Row)
    requires x != [] && x <= y && InOrder(y) && q in y && q !in x
    ensures x[|x| - 1].id < q.id
  {
    var j :| 0 <= j < |y| && y[j] == q;
    assert y[|x| - 1] == x[|x| - 1];
    assert q !in y[..|x|];
  }

  lemma RowAtIsNew(s: State, d: int)
    requires AtRow(s, d) && PhasesReal(s) && Orderly(s, d)
    ensures Hand(RowAt(s, d), d) !in s.handed
  {
    hide InOrder;
    var p := s.phases[d];
    assert PhaseReal(s, d, p) && p.snapshot[p.handled] in p.snapshot;
    HandedToMembers(s.handed, d);
    assert Beyond(HandedTo(s.handed, d), p.snapshot[p.handled]);
  }

  lemma RowAtIsAccepted(s: State, d: int)
    requires FlushesHonest(s) && AtRow(s, d)
    ensures RowAt(s, d) in s.accepted
  {
    hide InOrder;
    assert FlushHonest(s, d, s.phases[d]);
  }

  /** A row of the backlog, handed over: nothing of `c` has passed it, and it passes nothing. */
  lemma HandOverPassesNothing(s: State, step: Step, end: State, c: int, d: int)
    requires Real(s) && FlushesHonest(s) && HandsOver(s, step, d) && Orderly(s, d) && RowsFollowSends(s)
    requires Onward(Next(s, step), end, d) && InSendOrder(s, c, d) && NothingPassed(s, end, c, d)
    ensures InSendOrder(Next(s, step), c, d) && NothingPassed(Next(s, step), end, c, d)
  {
    hide Next, Presence, SendsReal, RowsReal, PhasesReal, ChannelsReal, FlushesHonest, Orderly, InSendOrder, Older, InOrder, AtRow,
      RowsFollowSends, SentBy, Extends, HandHonest, HandedTo;
    var t, r := Next(s, step), RowAt(s, d);
    var m := r.frame.msg.value;
    SameLengths(s);
    StepMoves(s, step, d);
    RowAtIsNew(s, d);
    RowAtIsAccepted(s, d);
    RowStaysBy(s, step, c, r);
    assert Hand(r, d) in t.handed && Hand(r, d) in end.handed;
    if SentBy(t, c, m) { assert Coming(s, end, c, d, r); }
    OrderGrows(s, step, c, d, m);
    forall q | Coming(t, end, c, d, q) ensures Older(t, c, d, q.frame.msg.value.send) {
      ComingBefore(s, step, end, c, d, q);
      if SentBy(t, c, m) {
        LaterHandIsBeyond(s.handed, end.handed, d, r, q);
        SameRecipient(end, d, r, q);
        Follows(s, c, r, q);
      }
      OlderGrows(s, step, c, d, q.frame.msg.value.send, m);
    }
  }

  lemma SameRecipient(s: State, d: int, r: Row, q: Row)
    requires HandsHonest(s) && Hand(r, d) in s.handed && Hand(q, d) in s.handed
    ensures r.recipient == q.recipient
  {
    assert HandHonest(s, Hand(r, d)) && HandHonest(s, Hand(q, d));
  }

  lemma Follows(s: State, c: int, r: Row, q: Row)
    requires RowsFollowSends(s) && r in s.accepted && q in s.accepted && r.recipient == q.recipient && r.id < q.id
    requires RowBy(s, c, r) && RowBy(s, c, q)
    ensures r.frame.msg.value.send < q.frame.msg.value.send
  {
  }

  lemma StepPassesNothing(s: State, step: Step, end: State, c: int, d: int)
    requires Real(s) && FlushesHonest(s) && AllOrderly(s) && AllWorkAhead(s) && RowsFollowSends(s) && 0 <= d
    requires Onward(Next(s, step), end, d) && InSendOrder(s, c, d) && NothingPassed(s, end, c, d)
    requires PushesLive(s, step, c, d) ==> forall r :: !Coming(s, end, c, d, r)
    ensures InSendOrder(Next(s, step), c, d) && NothingPassed(Next(s, step), end, c, d)
  {
    hide Next, Real, FlushesHonest, Orderly, InSendOrder, NothingPassed, AllWorkAhead, RowsFollowSends, Onward,
      Coming, PushesLive, ChannelOf, RowAt;
    assert |s.conns| == |s.phases|;
    StepMoves(s, step, d);
    if step.Push? && PushesLive(s, step, step.conn, d) {
      LivePassesNothing(s, step, end, c, d);
    } else if HandsOver(s, step, d) {
      HandOverPassesNothing(s, step, end, c, d);
    } else {
      ChannelsAreReal(s);
      OrderStays(s, step, c, d);
      QuietPassesNothing(s, step, end, c, d);
    }
  }

  lemma ChannelsAreReal(s: State)
    requires Real(s)
    ensures ChannelsReal(s)
  {
  }

  // ---- Runs ----

  lemma {:induction false} RunGoesOn(steps: seq<Step>, n: nat)
    requires n <= |steps|
    ensures var s, t := Run(steps[..n]), Run(steps);
            && Extends(s, t) && s.handed <= t.handed && forall d :: ChannelOf(s, d) <= ChannelOf(t, d)
  {
    hide Next, Extends, ChannelOf, Real;
    if n == |steps| {
      assert steps[..n] == steps;
      ExtendsItself(Run(steps));
    } else {
      var front, step := steps[..|steps| - 1], steps[|steps| - 1];
      assert front[..n] == steps[..n];
      RunGoesOn(front, n);
      RunIsOrderly(front);
      hide Orderly;
      StepExtends(Run(front), step);
      ExtendsOn(Run(steps[..n]), Run(front), Run(steps));
      forall d ensures Run(front).handed <= Run(steps).handed && ChannelOf(Run(front), d) <= ChannelOf(Run(steps), d) {
        StepMoves(Run(front), step, d);
      }
    }
  }

  lemma ExtendsItself(s: State)
    ensures Extends(s, s)
  {
  }

  lemma ExtendsOn(s: State, t: State, w: State)
    requires Extends(s, t) && Extends(t, w)
    ensures Extends(s, w)
  {
  }

  lemma RunIsOnward(steps: seq<Step>, n: nat, d: int)
    requires n <= |steps| && 0 <= d < |Run(steps).conns|
    ensures Onward(Run(steps[..n]), Run(steps), d)
  {
    hide Run, Extends, InOrder, HandHonest;
    RunGoesOn(steps, n);
    RunKeepsCustody(steps);
    BacklogInOrder(steps, d);
  }

  /** At a live push of `c` to `d` the row `r` of `c` is queued for `d`, which does not have it yet but will. */
  ghost predicate Overtaken(s: State, end: State, c: int, d: int, r: Row) {
    RowBy(s, c, r) && StillQueued(s, d, r) && Hand(r, d) !in s.handed && Hand(r, d) in end.handed
  }

  /** Step `k` of the run is a live push of `c` to `d` that overtakes a row. */
  ghost predicate Overtakes(steps: seq<Step>, k: nat, c: int, d: int)
    requires k < |steps|
  {
    PushesLive(Run(steps[..k]), steps[k], c, d) && exists r :: Overtaken(Run(steps[..k]), Run(steps), c, d, r)
  }

  lemma ComingIsQueued(steps: seq<Step>, n: nat, c: int, d: int, r: Row)
    requires n <= |steps| && Coming(Run(steps[..n]), Run(steps), c, d, r)
    ensures Overtaken(Run(steps[..n]), Run(steps), c, d, r)
  {
    hide Run, StillQueued, RowBy;
    if !StillQueued(Run(steps[..n]), d, r) { GoneForGood(steps, n, d, r); }
  }

  lemma {:induction false} NothingOvertakenInOrder(steps: seq<Step>, n: nat, c: int, d: int)
    requires n <= |steps| && 0 <= d < |Run(steps).conns|
    requires forall k :: 0 <= k < n ==> !Overtakes(steps, k, c, d)
    ensures InSendOrder(Run(steps[..n]), c, d) && NothingPassed(Run(steps[..n]), Run(steps), c, d)
  {
    hide Next, InSendOrder, NothingPassed, Real, Custody, AllOrderly, AllWorkAhead, RowsFollowSends, Onward,
      Coming, PushesLive, Overtaken;
    if n == 0 {
      assert steps[..n] == [];
      assert InSendOrder(BOOT, c, d) && NothingPassed(BOOT, Run(steps), c, d) by { BootIsInOrder(Run(steps), c, d); }
    } else {
      var front := steps[..n - 1];
      assert steps[..n][..n - 1] == front;
      NothingOvertakenInOrder(steps, n - 1, c, d);
      RunIsReal(front);
      RunKeepsCustody(front);
      RunIsOrderly(front);
      RunWorksAhead(front);
      RunIsOnward(steps, n, d);
      FlushesAreHonest(Run(front));
      assert !Overtakes(steps, n - 1, c, d);
      forall r | PushesLive(Run(front), steps[n - 1], c, d) ensures !Coming(Run(front), Run(steps), c, d, r) {
        if Coming(Run(front), Run(steps), c, d, r) { ComingIsQueued(steps, n - 1, c, d, r); }
      }
      StepPassesNothing(Run(front), steps[n - 1], Run(steps), c, d);
    }
  }

  lemma FlushesAreHonest(s: State)
    requires Custody(s)
    ensures FlushesHonest(s)
  {
  }

  lemma BootIsInOrder(end: State, c: int, d: int)
    ensures InSendOrder(BOOT, c, d) && NothingPassed(BOOT, end, c, d)
  {
  }

  // ---- An overtaken row comes out of order ----

  /** A row handed over later arrives further back in the channel. */
  lemma {:induction false} HandedLaterArrivesLater(steps: seq<Step>, n: nat, d: int, r: Row)
    requires n <= |steps| && Hand(r, d) !in Run(steps[..n]).handed && Hand(r, d) in Run(steps).handed && r.frame.msg.Some?
    ensures exists j :: |ChannelOf(Run(steps[..n]), d)| <= j < |ChannelOf(Run(steps), d)|
                        && ChannelOf(Run(steps), d)[j] == r.frame.msg.value
  {
    hide Next, ChannelOf, AllOrderly, PushesLive, AtRow, RowAt;
    assert steps[..|steps|] == steps;
    var front, step := steps[..|steps| - 1], steps[|steps| - 1];
    assert front[..n] == steps[..n];
    RunIsOrderly(front);
    assert |Run(front).conns| == |Run(front).phases| by { OrderlyLengths(Run(front)); }
    StepMoves(Run(front), step, d);
    RunGoesOn(front, n);
    var now := ChannelOf(Run(steps), d);
    if Hand(r, d) in Run(front).handed {
      HandedLaterArrivesLater(front, n, d, r);
      var before := ChannelOf(Run(front), d);
      var j :| |ChannelOf(Run(front[..n]), d)| <= j < |before| && before[j] == r.frame.msg.value;
      assert now[j] == r.frame.msg.value;
    } else {
      assert now[|now| - 1] == r.frame.msg.value;
    }
  }

  lemma OrderlyLengths(s: State)
    requires AllOrderly(s)
    ensures |s.conns| == |s.phases|
  {
  }

  /** The message that is pushed was sent after the row it overtakes. */
  lemma OvertakenWasSentBefore(s: State, step: Step, end: State, c: int, d: int, r: Row)
    requires Real(s) && Custody(s) && AllWorkAhead(s) && Onward(s, end, d)
    requires PushesLive(s, step, c, d) && Overtaken(s, end, c, d, r)
    ensures r.frame.msg.value.send < s.phases[c].msg.send && SentBy(s, c, s.phases[c].msg)
  {
    hide InOrder, Presence, RowsReal, SendsReal, ChannelsReal, AllWorkAhead;
    PhaseOf(s, c);
    assert r in s.accepted by {
      if r !in s.table.rows { assert FlushHonest(s, d, s.phases[d]); }
    }
    assert HandHonest(end, Hand(r, d));
    assert r.recipient == s.phases[c].todo[0];
    NewRowFollows(s, c, r);
  }

  lemma OvertakingBreaksOrder(steps: seq<Step>, k: nat, c: int, d: int)
    requires k < |steps| && 0 <= d < |Run(steps).conns| && Overtakes(steps, k, c, d)
    ensures !InSendOrder(Run(steps), c, d)
  {
    hide Run, Next, Real, Custody, AllOrderly, AllWorkAhead, Onward, Extends, AtRow, RowAt;
    var s, t, end := Run(steps[..k]), Run(steps[..k + 1]), Run(steps);
    var r :| Overtaken(s, end, c, d, r);
    var m := s.phases[c].msg;
    NextOf(steps, k);
    RunIsReal(steps[..k]);
    RunKeepsCustody(steps[..k]);
    RunWorksAhead(steps[..k]);
    RunIsOrderly(steps[..k]);
    OrderlyLengths(s);
    RunIsOnward(steps, k, d);
    OvertakenWasSentBefore(s, steps[k], end, c, d, r);
    StepMoves(s, steps[k], d);
    HandedLaterArrivesLater(steps, k + 1, d, r);
    RunGoesOn(steps, k + 1);
    RunGoesOn(steps, k);
    SentByStays(s, end, c, m);
    SentByStays(s, end, c, r.frame.msg.value);
    var j :| |ChannelOf(t, d)| <= j < |ChannelOf(end, d)| && ChannelOf(end, d)[j] == r.frame.msg.value;
    var i := |ChannelOf(s, d)|;
    assert ChannelOf(t, d)[i] == m && ChannelOf(end, d)[i] == m;
  }

  lemma SentByStays(s: State, t: State, c: int, m: Deliver)
    requires Extends(s, t) && SentBy(s, c, m)
    ensures SentBy(t, c, m)
  {
  }

  lemma NextOf(steps: seq<Step>, k: nat)
    requires k < |steps|
    ensures Run(steps[..k + 1]) == Next(Run(steps[..k]), steps[k])
  {
    hide Next;
    assert steps[..k + 1][..k] == steps[..k];
  }

  /** In any run, the messages that connection `c` sent to the user of connection `d` arrive on `d` in the
      order of sending and without duplicates, unless a live push of `c` overtakes a row of `c` that is
      queued for `d` and handed over later; then they do not. */
  lemma InOrderIffNothingOvertaken(steps: seq<Step>, c: int, d: int)
    requires 0 <= d < |Run(steps).conns|
    ensures InSendOrder(Run(steps), c, d) <==> forall k :: 0 <= k < |steps| ==> !Overtakes(steps, k, c, d)
  {
    hide Run, InSendOrder, Overtakes;
    if forall k :: 0 <= k < |steps| ==> !Overtakes(steps, k, c, d) {
      NothingOvertakenInOrder(steps, |steps|, c, d);
      assert steps[..|steps|] == steps;
    } else {
      var k :| 0 <= k < |steps| && Overtakes(steps, k, c, d);
      OvertakingBreaksOrder(steps, k, c, d);
    }
  }
}
