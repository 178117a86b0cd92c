/** Store and forward: a row once accepted is still queued, or was handed to a connection of its
    recipient, or was pruned because it was too old, under every interleaving of sends, concurrent
    flushes, logins, restarts and prunes. */
module RelayConservation {
  import opened Wrappers
  import opened Text
  import opened Outbox
  import opened Relay
  import opened RelayPresence
  import opened RelayProvenance

  ghost predicate WasHanded(s: State, r: Row) {
    exists c :: Hand(r, c) in s.handed
  }

  ghost predicate WasPruned(s: State, r: Row) {
    exists cutoff :: Expiry(r, cutoff) in s.pruned
  }

  ghost predicate Kept(s: State, r: Row) {
    r in s.table.rows || WasHanded(s, r) || WasPruned(s, r)
  }

  /** Ids are handed out once, in increasing order, and the queue holds accepted rows only. */
  ghost predicate Numbered(s: State) {
    && InOrder(s.table.rows) && InOrder(s.accepted)
    && (forall r :: r in s.table.rows ==> r in s.accepted)
    && (forall r :: r in s.accepted ==> r.id < s.table.nextId)
  }

  /** A flush in progress: the rows it is done with were handed to its own connection. */
  ghost predicate FlushHonest(s: State, c: int, p: Phase) {
    p.Flushing? ==>
      && 0 <= p.handled <= |p.snapshot| && InOrder(p.snapshot)
      && (forall r :: r in p.snapshot ==> r in s.accepted)
      && (forall i :: 0 <= i < p.handled ==> Hand(p.snapshot[i], c) in s.handed)
  }

  ghost predicate FlushesHonest(s: State) {
    forall c :: 0 <= c < |s.phases| ==> FlushHonest(s, c, s.phases[c])
  }

  predicate HandHonest(s: State, h: Hand) {
    && 0 <= h.conn < |s.conns| && 0 <= h.conn < |s.channels| && s.conns[h.conn].user == Some(h.row.recipient)
    && h.row in s.accepted && h.row.frame.msg.Some? && h.row.frame.msg.value in s.channels[h.conn]
  }

  ghost predicate HandsHonest(s: State) {
    forall h :: h in s.handed ==> HandHonest(s, h)
  }

  ghost predicate AllKept(s: State) {
    forall r :: r in s.accepted ==> Kept(s, r)
  }

  ghost predicate PrunesHonest(s: State) {
    forall e :: e in s.pruned ==> e.row.ts < e.cutoff
  }

  ghost predicate Custody(s: State) {
    Numbered(s) && FlushesHonest(s) && HandsHonest(s) && AllKept(s) && PrunesHonest(s)
  }

  // ---- Steps that touch neither table nor history ----

  /** Queue, ledger and channels as before; phases as before or not flushing. */
  ghost predicate Idles(s: State, t: State) {
    && t.table == s.table && t.accepted == s.accepted && t.handed == s.handed && t.pruned == s.pruned
    && |t.channels| >= |s.channels| && (forall c :: 0 <= c < |s.channels| ==> s.channels[c] <= t.channels[c])
    && (forall c :: 0 <= c < |t.phases| ==> (c < |s.phases| && t.phases[c] == s.phases[c]) || !t.phases[c].Flushing?)
  }

  lemma HandStays(s: State, t: State, h: Hand)
    requires HandHonest(s, h) && Settled(s, t) && s.accepted <= t.accepted
    ensures HandHonest(t, h)
  {
    assert h.row.frame.msg.value in t.channels[h.conn] by {
      var i :| 0 <= i < |s.channels[h.conn]| && s.channels[h.conn][i] == h.row.frame.msg.value;
      assert t.channels[h.conn][i] == h.row.frame.msg.value;
    }
  }

  lemma HandsStay(s: State, t: State)
    requires HandsHonest(s) && Settled(s, t) && t.handed == s.handed && s.accepted <= t.accepted
    ensures HandsHonest(t)
  {
    forall h | h in t.handed ensures HandHonest(t, h) { HandStays(s, t, h); }
  }

  lemma IdleKeepsCustody(s: State, t: State)
    requires Custody(s) && Idles(s, t) && Settled(s, t)
    ensures Custody(t)
  {
    HandsStay(s, t);
    hide HandHonest, Settled;
    forall c | 0 <= c < |t.phases| ensures FlushHonest(t, c, t.phases[c]) {
      if c < |s.phases| { assert FlushHonest(s, c, s.phases[c]); }
    }
    forall r | r in t.accepted ensures Kept(t, r) { assert Kept(s, r); }
  }

  lemma LoginIdles(s: State, step: Step)
    requires step.Connect? || step.AuthBegin? || step.Register? || step.AuthFinish?
    requires Presence(s)
    ensures Idles(s, Next(s, step))
  {
    hide ValidPubkey, ValidUsername, Reserved, Latest, Mapped;
  }

  lemma QuietStepIdles(s: State, step: Step)
    requires step.Connect? || step.AuthBegin? || step.Register? || step.AuthFinish? || step.Enter? || step.Pull? || step.Cleanup? || step.Restart?
    requires Presence(s)
    ensures Idles(s, Next(s, step))
  {
    if step.Connect? || step.AuthBegin? || step.Register? || step.AuthFinish? {
      hide Next;
      LoginIdles(s, step);
    } else {
      hide Latest, Mapped;
    }
  }

  lemma LookupIdles(s: State, c: int)
    ensures Idles(s, DoLookup(s, c))
  {
  }

  lemma SendStepIdles(s: State, step: Step)
    requires step.Send? || step.Lookup?
    ensures Idles(s, Next(s, step))
  {
    if step.Lookup? {
      hide DoLookup, Idles;
      LookupIdles(s, step.conn);
    } else {
      hide FanOut.Recipients, Bytes;
    }
  }

  // ---- The steps of a flush ----

  lemma FlushReadKeepsCustody(s: State, c: int)
    requires Custody(s)
    ensures Custody(DoFlushRead(s, c))
  {
    var t := DoFlushRead(s, c);
    if t != s {
      var u := s.conns[c].user.value;
      RowsForMembers(s.table.rows, u);
      RowsForInOrder(s.table.rows, u);
      hide RowsFor, InOrder, HandHonest;
      assert FlushHonest(t, c, t.phases[c]);
      forall d | 0 <= d < |t.phases| && d != c ensures FlushHonest(t, d, t.phases[d]) { assert FlushHonest(s, d, s.phases[d]); }
      forall h | h in t.handed ensures HandHonest(t, h) { HandSame(s, t, h); }
      forall r | r in t.accepted ensures Kept(t, r) { assert Kept(s, r); }
    }
  }

  lemma HandSame(s: State, t: State, h: Hand)
    requires HandHonest(s, h) && t.conns == s.conns && t.channels == s.channels && s.accepted <= t.accepted
    ensures HandHonest(t, h)
  {
  }

  lemma FlushSendKeepsCustody(s: State, c: int, ok: bool)
    requires Custody(s) && PhasesReal(s)
    ensures Custody(DoFlushSend(s, c, ok))
  {
    var t := DoFlushSend(s, c, ok);
    if AtRow(s, c) {
      var p := s.phases[c];
      var row := p.snapshot[p.handled];
      assert row in p.snapshot && PhaseReal(s, c, p) && FlushHonest(s, c, p);
      assert row.frame.msg.Some? && s.conns[c].user == Some(row.recipient);
      hide RowReal, Addressed, InOrder;
      FlushSendSettles(s, c, ok);
      forall d | 0 <= d < |t.phases| ensures FlushHonest(t, d, t.phases[d]) { assert FlushHonest(s, d, s.phases[d]); }
      forall h | h in t.handed ensures HandHonest(t, h) {
        if h in s.handed { HandStays(s, t, h); }
      }
      forall r | r in t.accepted ensures Kept(t, r) {
        assert Kept(s, r);
        if WasHanded(s, r) {
          var d :| Hand(r, d) in s.handed;
          assert Hand(r, d) in t.handed;
        }
      }
    }
  }

  /** The rows a flush deletes are exactly those of its snapshot that it handed to its own connection:
      whatever was queued since the snapshot stays. */
  lemma FlushDeletesWhatItHanded(s: State, c: int, r: Row)
    requires Numbered(s) && FlushOver(s, c) && FlushHonest(s, c, s.phases[c]) && r in s.table.rows
    ensures var p := s.phases[c];
            && (r in DoFlushDelete(s, c).table.rows <==> r !in p.snapshot[..p.handled])
            && (r !in DoFlushDelete(s, c).table.rows ==> Hand(r, c) in s.handed)
  {
    var p := s.phases[c];
    var ids := Ids(p.snapshot[..p.handled]);
    WithoutMembers(s.table.rows, ids);
    forall i | 0 <= i < p.handled ensures Listed(ids, p.snapshot[i].id) {
      assert ids[i] == p.snapshot[i].id;
    }
    if Listed(ids, r.id) {
      var i :| 0 <= i < |ids| && ids[i] == r.id;
      SameId(s.accepted, r, p.snapshot[i]);
      assert p.snapshot[..p.handled][i] == r;
    }
  }

  lemma FlushDeleteKeepsCustody(s: State, c: int)
    requires Custody(s)
    ensures Custody(DoFlushDelete(s, c))
  {
    var t := DoFlushDelete(s, c);
    if FlushOver(s, c) {
      var p := s.phases[c];
      WithoutMembers(s.table.rows, Ids(p.snapshot[..p.handled]));
      DeletionKeepsOrder(s.table.rows, Ids(p.snapshot[..p.handled]), 0);
      hide Without, Ids, InOrder, HandHonest, Listed;
      forall d | 0 <= d < |t.phases| ensures FlushHonest(t, d, t.phases[d]) { assert FlushHonest(s, d, s.phases[d]); }
      forall h | h in t.handed ensures HandHonest(t, h) { HandSame(s, t, h); }
      forall r | r in t.accepted ensures Kept(t, r) {
        assert Kept(s, r);
        if r in s.table.rows && r !in t.table.rows {
          FlushDeletesWhatItHanded(s, c, r);
        }
      }
    }
  }

  // ---- Queueing and pruning ----

  lemma AcceptKeepsCustody(s: State, t: State, r: Row)
    requires Custody(s) && r.id == s.table.nextId
    requires t.table == Table(s.table.rows + [r], r.id + 1) && t.accepted == s.accepted + [r]
    requires t == s.(table := t.table, accepted := t.accepted, phases := t.phases, routed := t.routed)
    requires forall d :: 0 <= d < |t.phases| ==> (d < |s.phases| && t.phases[d] == s.phases[d]) || !t.phases[d].Flushing?
    ensures Custody(t)
  {
    assert Numbered(t);
    hide InOrder, HandHonest;
    forall d | 0 <= d < |t.phases| ensures FlushHonest(t, d, t.phases[d]) {
      if d < |s.phases| { assert FlushHonest(s, d, s.phases[d]); }
    }
    forall h | h in t.handed ensures HandHonest(t, h) { HandSame(s, t, h); }
    forall q | q in t.accepted ensures Kept(t, q) {
      if q in s.accepted { assert Kept(s, q); }
    }
  }

  lemma PushKeepsCustody(s: State, c: int, room: bool)
    requires Custody(s)
    ensures Custody(DoPush(s, c, room))
  {
    var t := DoPush(s, c, room);
    PushSettles(s, c, room);
    hide Outbox.UnderCap, Custody, Settled, Quiet;
    if t.table == s.table && t.accepted == s.accepted {
      IdleKeepsCustody(s, t);
    } else {
      AcceptKeepsCustody(s, t, t.accepted[|s.accepted|]);
    }
  }

  lemma {:induction false} ExpiredAre(rows: seq<Row>, cutoff: int)
    ensures forall e :: e in Expired(rows, cutoff) <==> e.cutoff == cutoff && e.row in rows && e.row.ts < cutoff
  {
    if rows != [] {
      LastOrEarlier(rows);
      ExpiredAre(rows[..|rows| - 1], cutoff);
    }
  }

  lemma PruneKeepsCustody(s: State, cutoff: int)
    requires Custody(s)
    ensures Custody(DoPrune(s, cutoff))
  {
    var t := DoPrune(s, cutoff);
    SinceMembers(s.table.rows, cutoff);
    ExpiredAre(s.table.rows, cutoff);
    DeletionKeepsOrder(s.table.rows, [], cutoff);
    hide Since, Expired, InOrder, HandHonest;
    forall d | 0 <= d < |t.phases| ensures FlushHonest(t, d, t.phases[d]) { assert FlushHonest(s, d, s.phases[d]); }
    forall h | h in t.handed ensures HandHonest(t, h) { HandSame(s, t, h); }
    forall r | r in t.accepted ensures Kept(t, r) {
      assert Kept(s, r);
      if WasPruned(s, r) {
        var k :| Expiry(r, k) in s.pruned;
        assert Expiry(r, k) in t.pruned;
      } else if r in s.table.rows && r !in t.table.rows {
        assert Expiry(r, cutoff) in t.pruned;
      }
    }
  }

  // ---- Runs ----

  lemma StepKeepsCustody(s: State, step: Step)
    requires Custody(s) && Real(s)
    ensures Custody(Next(s, step))
  {
    hide Custody, Idles, Settled, Quiet, Presence, PhasesReal, RowsReal, SendsReal, ChannelsReal,
      DoFlushRead, DoFlushSend, DoFlushDelete, DoPush, DoPrune;
    StepSettles(s, step);
    if step.FlushRead? {
      FlushReadKeepsCustody(s, step.conn);
    } else if step.FlushSend? {
      FlushSendKeepsCustody(s, step.conn, step.ok);
    } else if step.FlushDelete? {
      FlushDeleteKeepsCustody(s, step.conn);
    } else if step.Push? {
      PushKeepsCustody(s, step.conn, step.room);
    } else if step.Prune? {
      PruneKeepsCustody(s, step.cutoff);
    } else {
      hide Next;
      if step.Send? || step.Lookup? { SendStepIdles(s, step); } else { QuietStepIdles(s, step); }
      IdleKeepsCustody(s, Next(s, step));
    }
  }

  lemma {:induction false} RunKeepsCustody(steps: seq<Step>)
    ensures Custody(Run(steps))
  {
    hide Next, Custody, Real;
    if steps == [] {
      assert Custody(BOOT) by { BootKeeps(); }
    } else {
      RunKeepsCustody(steps[..|steps| - 1]);
      RunIsReal(steps[..|steps| - 1]);
      StepKeepsCustody(Run(steps[..|steps| - 1]), steps[|steps| - 1]);
    }
  }

  lemma BootKeeps()
    ensures Custody(BOOT)
  {
  }

  /** A row ever accepted for a recipient is still queued, or its message is in a channel of that very
      recipient, or a prune took it because it was older than the cutoff. */
  lemma NothingIsLost(steps: seq<Step>, r: Row)
    requires r in Run(steps).accepted
    ensures var s := Run(steps);
            || r in s.table.rows
            || (exists h :: h in s.handed && h.row == r && HandHonest(s, h))
            || (exists e :: e in s.pruned && e.row == r && r.ts < e.cutoff)
  {
    hide Run, HandHonest;
    RunKeepsCustody(steps);
    var s := Run(steps);
    assert Kept(s, r);
    if WasHanded(s, r) {
      var c :| Hand(r, c) in s.handed;
      assert HandHonest(s, Hand(r, c)) && Hand(r, c).row == r;
    } else if WasPruned(s, r) {
      var cutoff :| Expiry(r, cutoff) in s.pruned;
      assert Expiry(r, cutoff).row == r;
    }
  }

  /** In any reachable state the end of a flush deletes, of the rows queued, exactly the handled prefix
      of its snapshot, in id order, each handed to this connection. */
  lemma FlushDeletesHandedPrefix(steps: seq<Step>, c: int, r: Row)
    requires FlushOver(Run(steps), c) && r in Run(steps).table.rows
    ensures var s, t := Run(steps), Run(steps + [FlushDelete(c)]);
            var p := s.phases[c];
            && InOrder(p.snapshot)
            && (r in t.table.rows <==> r !in p.snapshot[..p.handled])
            && (r !in t.table.rows ==> Hand(r, c) in s.handed && s.conns[c].user == Some(r.recipient))
  {
    RunKeepsCustody(steps);
    var s := Run(steps);
    assert (steps + [FlushDelete(c)])[..|steps|] == steps;
    assert FlushHonest(s, c, s.phases[c]);
    FlushDeletesWhatItHanded(s, c, r);
    hide Run, InOrder;
    if Hand(r, c) in s.handed { assert HandHonest(s, Hand(r, c)); }
  }

  // ---- Quotas ----

  lemma {:induction false} EveryQueueWithinQuota(steps: seq<Step>, u: Username)
    ensures WithinQuota(Run(steps).table.rows, u)
    ensures Size(RowsFor(Run(steps).table.rows, u)) <= 256 * 1024 * 1024
  {
    if steps != [] {
      EveryQueueWithinQuota(steps[..|steps| - 1], u);
      StepKeepsQuota(Run(steps[..|steps| - 1]), steps[|steps| - 1], u);
    }
    SizeAtMostFourLengths(RowsFor(Run(steps).table.rows, u));
  }

  lemma StepKeepsQuota(s: State, step: Step, u: Username)
    requires WithinQuota(s.table.rows, u)
    ensures WithinQuota(Next(s, step).table.rows, u)
  {
    hide RowsFor, Length, UnderCap;
    if step.Push? && AtPush(s, step.conn) {
      var p := s.phases[step.conn];
      EnqueueKeepsQuota(s.table, p.todo[0], Frame(p.text, Some(p.msg)), p.msg.ts, u);
    } else if step.FlushDelete? && FlushOver(s, step.conn) {
      var p := s.phases[step.conn];
      DeletionKeepsQuota(s.table.rows, Ids(p.snapshot[..p.handled]), 0, u);
    } else if step.Prune? {
      DeletionKeepsQuota(s.table.rows, [], step.cutoff, u);
    } else {
      OtherStepsKeepTable(s, step);
    }
  }

  lemma OtherStepsKeepTable(s: State, step: Step)
    requires !(step.Push? && AtPush(s, step.conn)) && !(step.FlushDelete? && FlushOver(s, step.conn)) && !step.Prune?
    ensures Next(s, step).table == s.table
  {
    hide RowsFor, ValidPubkey, ValidUsername, Reserved, FanOut.Recipients, Bytes;
  }
}
