/** The order of the backlog: queued rows reach any one connection in the order in which they were queued,
    and none of them twice. How live messages mix with them is the subject of RelaySequence. */
module RelayOrder {
  import opened Wrappers
  import opened Text
  import opened Outbox
  import opened Relay
  import opened RelayPresence
  import opened RelayProvenance
  import opened RelayConservation

  /** The rows handed to connection `c`, in the order in which they entered its channel. */
  function HandedTo(handed: seq<Hand>, c: int): seq<Row> {
    if handed == [] then []
    else
      var last := handed[|handed| - 1];
      HandedTo(handed[..|handed| - 1], c) + if last.conn == c then [last.row] else []
  }

  lemma HandedGrows(handed: seq<Hand>, r: Row, c: int, d: int)
    ensures HandedTo(handed + [Hand(r, c)], d) == HandedTo(handed, d) + if d == c then [r] else []
  {
    assert (handed + [Hand(r, c)])[..|handed|] == handed;
  }

  lemma {:induction false} HandedToMembers(handed: seq<Hand>, c: int)
    ensures forall r :: r in HandedTo(handed, c) <==> Hand(r, c) in handed
  {
    if handed != [] {
      var front, last := handed[..|handed| - 1], handed[|handed| - 1];
      HandedToMembers(front, c);
      assert handed == front + [last];
    }
  }

  predicate Beyond(rows: seq<Row>, r: Row) {
    forall q :: q in rows ==> q.id < r.id
  }

  /** Where a queued row of the connection's user can stand: beyond all that was handed over, or in the
      snapshot that is being flushed. */
  predicate Waits(p: Phase, mine: seq<Row>, r: Row) {
    if p.Flushing? then r in p.snapshot || (Beyond(p.snapshot, r) && Beyond(mine, r)) else Beyond(mine, r)
  }

  /** The rest of the snapshot lies beyond all that was handed over. */
  ghost predicate Advancing(p: Phase, mine: seq<Row>) {
    p.Flushing? ==> forall i :: 0 <= p.handled <= i < |p.snapshot| ==> Beyond(mine, p.snapshot[i])
  }

  ghost predicate Clear(s: State, u: Username, p: Phase, mine: seq<Row>) {
    Advancing(p, mine) && forall r :: r in s.table.rows && r.recipient == u ==> Waits(p, mine, r)
  }

  ghost predicate Orderly(s: State, c: int)
    requires 0 <= c < |s.conns| == |s.phases|
  {
    var mine := HandedTo(s.handed, c);
    && InOrder(mine)
    && (s.conns[c].user.None? ==> mine == [])
    && (s.conns[c].user.Some? && s.conns[c].open ==> Clear(s, s.conns[c].user.value, s.phases[c], mine))
  }

  // ---- Steps that hand nothing over ----

  /** Rows leave the queue, or enter it beyond everything accepted so far. */
  ghost predicate QueueMoves(s: State, t: State) {
    forall r :: r in t.table.rows ==> r in s.table.rows || r.id >= s.table.nextId
  }

  /** Connection `c` stays where it is, or does not flush before and after, or has died. */
  ghost predicate Calm(s: State, t: State, c: int)
    requires 0 <= c < |s.phases| && c < |t.phases| && c < |t.conns|
  {
    t.phases[c] == s.phases[c] || (!t.phases[c].Flushing? && (!s.phases[c].Flushing? || !t.conns[c].open))
  }

  lemma HandedAreOld(s: State, c: int)
    requires HandsHonest(s) && Numbered(s)
    ensures forall q :: q in HandedTo(s.handed, c) ==> q.id < s.table.nextId
    ensures c >= |s.conns| || (0 <= c && s.conns[c].user.None?) ==> HandedTo(s.handed, c) == []
  {
    hide InOrder;
    HandedToMembers(s.handed, c);
    forall q | q in HandedTo(s.handed, c)
      ensures q.id < s.table.nextId && c < |s.conns| && (0 <= c ==> s.conns[c].user.Some?)
    {
      assert HandHonest(s, Hand(q, c));
    }
    if HandedTo(s.handed, c) != [] { assert HandedTo(s.handed, c)[0] in HandedTo(s.handed, c); }
  }

  lemma NewRowsWait(s: State, c: int, r: Row)
    requires Numbered(s) && HandsHonest(s) && 0 <= c < |s.phases| && FlushHonest(s, c, s.phases[c]) && r.id >= s.table.nextId
    ensures Waits(s.phases[c], HandedTo(s.handed, c), r)
  {
    hide InOrder;
    HandedAreOld(s, c);
  }

  lemma CalmStaysOrderly(s: State, t: State, c: int)
    requires Custody(s) && 0 <= c < |s.conns| == |s.phases| && |t.conns| == |t.phases| && c < |t.conns|
    requires Orderly(s, c) && t.handed == s.handed && QueueMoves(s, t) && Calm(s, t, c)
    requires ConnSettled(s.conns[c], t.conns[c])
    requires s.conns[c].user.None? && t.conns[c].user.Some? ==> !t.phases[c].Flushing?
    ensures Orderly(t, c)
  {
    hide InOrder;
    var mine := HandedTo(s.handed, c);
    if t.conns[c].user.Some? && t.conns[c].open {
      forall r | r in t.table.rows && r.recipient == t.conns[c].user.value ensures Waits(t.phases[c], mine, r) {
        if r.id >= s.table.nextId {
          assert FlushHonest(s, c, s.phases[c]);
          NewRowsWait(s, c, r);
        }
      }
    }
  }

  // ---- The steps of a flush ----

  lemma ReadStaysOrderly(s: State, c: int)
    requires Custody(s) && Live(s, c) && Orderly(s, c)
    ensures Orderly(DoFlushRead(s, c), c)
  {
    var t := DoFlushRead(s, c);
    if t != s {
      hide InOrder, Custody;
      RowsForMembers(s.table.rows, s.conns[c].user.value);
    }
  }

  lemma SendStaysOrderly(s: State, c: int, ok: bool)
    requires Custody(s) && PhasesReal(s) && Live(s, c) && Orderly(s, c)
    ensures Orderly(DoFlushSend(s, c, ok), c)
  {
    var t := DoFlushSend(s, c, ok);
    if AtRow(s, c) {
      var p, mine := s.phases[c], HandedTo(s.handed, c);
      var row := p.snapshot[p.handled];
      assert row in p.snapshot && PhaseReal(s, c, p) && FlushHonest(s, c, p);
      assert RowReal(s, row) && s.conns[c].user == Some(row.recipient);
      if ok {
        HandedGrows(s.handed, row, c, c);
        assert Beyond(mine, row);
        assert InOrder(mine + [row]);
        forall i | p.handled + 1 <= i < |p.snapshot| ensures Beyond(mine + [row], p.snapshot[i]) {
          assert Beyond(mine, p.snapshot[i]);
        }
        forall r | r in t.table.rows && r.recipient == row.recipient ensures Waits(t.phases[c], mine + [row], r) {
          assert Waits(p, mine, r);
        }
      }
    }
  }

  lemma DeleteStaysOrderly(s: State, c: int)
    requires Custody(s) && PhasesReal(s) && Live(s, c) && Orderly(s, c)
    ensures Orderly(DoFlushDelete(s, c), c)
  {
    var t := DoFlushDelete(s, c);
    if FlushOver(s, c) && s.conns[c].user.Some? {
      var p, mine := s.phases[c], HandedTo(s.handed, c);
      assert FlushHonest(s, c, p) && PhaseReal(s, c, p);
      WithoutMembers(s.table.rows, Ids(p.snapshot[..p.handled]));
      forall i | 0 <= i < p.handled ensures p.snapshot[i] in p.snapshot[..p.handled] {
        assert p.snapshot[..p.handled][i] == p.snapshot[i];
      }
      forall r | r in t.table.rows && r.recipient == s.conns[c].user.value ensures Waits(Idle, mine, r) {
        FlushDeletesWhatItHanded(s, c, r);
        assert Waits(p, mine, r);
        if r in p.snapshot {
          var i :| 0 <= i < |p.snapshot| && p.snapshot[i] == r;
          assert Beyond(mine, p.snapshot[i]);
        }
      }
    }
  }

  // ---- Every step, every connection ----

  lemma OthersHandNothing(s: State, c: int, ok: bool, d: int)
    requires d != c
    ensures HandedTo(DoFlushSend(s, c, ok).handed, d) == HandedTo(s.handed, d)
  {
    if AtRow(s, c) {
      HandedGrows(s.handed, s.phases[c].snapshot[s.phases[c].handled], c, d);
      assert HandedTo(s.handed, d) + [] == HandedTo(s.handed, d);
    }
  }

  ghost predicate AllOrderly(s: State) {
    |s.conns| == |s.phases| && forall c :: 0 <= c < |s.conns| ==> Orderly(s, c)
  }

  lemma OwnFlushStaysOrderly(s: State, step: Step)
    requires step.FlushRead? || step.FlushSend? || step.FlushDelete?
    requires Custody(s) && PhasesReal(s) && Live(s, step.conn) && Orderly(s, step.conn)
    ensures |Next(s, step).conns| == |Next(s, step).phases| == |s.conns| && Orderly(Next(s, step), step.conn)
  {
    hide Custody, PhasesReal, Orderly, DoFlushRead, DoFlushSend, DoFlushDelete;
    if step.FlushRead? {
      ReadStaysOrderly(s, step.conn);
    } else if step.FlushSend? {
      SendStaysOrderly(s, step.conn, step.ok);
    } else {
      DeleteStaysOrderly(s, step.conn);
    }
    SameConns(s, step);
  }

  lemma OtherFlushStaysOrderly(s: State, step: Step, d: int)
    requires step.FlushRead? || step.FlushSend? || step.FlushDelete?
    requires 0 <= d < |s.conns| == |s.phases| && d != step.conn && Orderly(s, d)
    ensures |Next(s, step).conns| == |Next(s, step).phases| == |s.conns| && Orderly(Next(s, step), d)
  {
    hide HandedTo, InOrder, RowsFor, Without, Ids, Listed, Waits, Advancing;
    if step.FlushSend? { OthersHandNothing(s, step.conn, step.ok, d); }
    if step.FlushDelete? && FlushOver(s, step.conn) {
      WithoutMembers(s.table.rows, Ids(s.phases[step.conn].snapshot[..s.phases[step.conn].handled]));
    }
  }

  /** A step that hands nothing over and starts no flush. */
  ghost predicate CalmAll(s: State, t: State) {
    && t.handed == s.handed && QueueMoves(s, t) && |t.conns| == |t.phases| >= |s.conns|
    && (|t.conns| == |s.conns| || t == DoConnect(s))
    && forall c :: 0 <= c < |s.conns| && c < |s.phases| ==>
         && Calm(s, t, c)
         && (s.conns[c].user.None? && t.conns[c].user.Some? ==> !t.phases[c].Flushing?)
  }

  lemma PushIsCalm(s: State, c: int, room: bool)
    requires |s.conns| == |s.phases|
    ensures CalmAll(s, DoPush(s, c, room))
  {
    hide UnderCap;
  }

  lemma LookupIsCalm(s: State, c: int)
    requires |s.conns| == |s.phases|
    ensures CalmAll(s, DoLookup(s, c))
  {
  }

  lemma CalmSending(s: State, step: Step)
    requires (step.Send? || step.Lookup? || step.Push?) && |s.conns| == |s.phases|
    ensures CalmAll(s, Next(s, step))
  {
    if step.Push? {
      hide DoPush, CalmAll;
      PushIsCalm(s, step.conn, step.room);
    } else if step.Lookup? {
      hide DoLookup, CalmAll;
      LookupIsCalm(s, step.conn);
    } else {
      hide FanOut.Recipients, Bytes;
    }
  }

  lemma CalmHousekeeping(s: State, step: Step)
    requires (step.Prune? || step.Cleanup? || step.Restart? || step.Pull? || step.Enter?) && |s.conns| == |s.phases|
    ensures CalmAll(s, Next(s, step))
  {
    if step.Prune? { SinceMembers(s.table.rows, step.cutoff); }
    hide Since, Expired;
  }

  lemma CalmLogin(s: State, step: Step)
    requires (step.Connect? || step.AuthBegin? || step.Register? || step.AuthFinish?) && |s.conns| == |s.phases|
    ensures CalmAll(s, Next(s, step))
  {
    hide ValidPubkey, ValidUsername, Reserved;
  }

  lemma CalmStep(s: State, step: Step)
    requires !step.FlushRead? && !step.FlushSend? && !step.FlushDelete? && |s.conns| == |s.phases|
    ensures CalmAll(s, Next(s, step))
  {
    hide Next, CalmAll;
    if step.Send? || step.Lookup? || step.Push? {
      CalmSending(s, step);
    } else if step.Prune? || step.Cleanup? || step.Restart? || step.Pull? || step.Enter? {
      CalmHousekeeping(s, step);
    } else {
      CalmLogin(s, step);
    }
  }

  lemma StepStaysOrderly(s: State, step: Step)
    requires Custody(s) && Real(s) && AllOrderly(s)
    ensures AllOrderly(Next(s, step))
  {
    hide Next, Custody, Orderly, Settled, Quiet, QueueMoves, Calm;
    var t := Next(s, step);
    if step.FlushRead? || step.FlushSend? || step.FlushDelete? {
      SameConns(s, step);
      forall d | 0 <= d < |s.conns| ensures |t.phases| == |s.conns| && Orderly(t, d) {
        if d != step.conn {
          OtherFlushStaysOrderly(s, step, d);
        } else if Live(s, d) {
          OwnFlushStaysOrderly(s, step);
        } else {
          DeadFlushesNothing(s, step);
        }
      }
    } else {
      StepSettles(s, step);
      CalmStep(s, step);
      forall c | 0 <= c < |t.conns| ensures Orderly(t, c) {
        if c < |s.conns| {
          assert ConnSettled(s.conns[c], t.conns[c]) by { SettledAt(s, t, c); }
          CalmStaysOrderly(s, t, c);
        } else {
          NewcomerIsOrderly(s);
        }
      }
    }
  }

  lemma DeadFlushesNothing(s: State, step: Step)
    requires step.FlushRead? || step.FlushSend? || step.FlushDelete?
    requires !Live(s, step.conn)
    ensures Next(s, step) == s
  {
  }

  lemma SameConns(s: State, step: Step)
    requires step.FlushRead? || step.FlushSend? || step.FlushDelete?
    requires |s.conns| == |s.phases|
    ensures Next(s, step).conns == s.conns && |Next(s, step).phases| == |s.phases|
  {
    hide RowsFor, Without, Ids;
  }

  lemma SettledAt(s: State, t: State, c: int)
    requires Settled(s, t) && 0 <= c < |s.conns|
    ensures ConnSettled(s.conns[c], t.conns[c])
  {
  }

  lemma NewcomerIsOrderly(s: State)
    requires Custody(s) && |s.conns| == |s.phases|
    ensures Orderly(DoConnect(s), |s.conns|)
  {
    hide InOrder;
    HandedAreOld(s, |s.conns|);
    assert InOrder([]) by { NobodyIsInOrder(); }
  }

  lemma NobodyIsInOrder()
    ensures InOrder([])
  {
  }

  lemma {:induction false} RunIsOrderly(steps: seq<Step>)
    ensures AllOrderly(Run(steps))
  {
    hide Next, Orderly, Custody, Real;
    if steps != [] {
      RunIsOrderly(steps[..|steps| - 1]);
      RunIsReal(steps[..|steps| - 1]);
      RunKeepsCustody(steps[..|steps| - 1]);
      StepStaysOrderly(Run(steps[..|steps| - 1]), steps[|steps| - 1]);
    }
  }

  /** The backlog is first in, first out, and free of duplicates, on every connection: the ids of the
      rows handed to it strictly increase. */
  lemma BacklogInOrder(steps: seq<Step>, c: int)
    requires 0 <= c < |Run(steps).conns|
    ensures InOrder(HandedTo(Run(steps).handed, c))
  {
    RunIsOrderly(steps);
    assert Orderly(Run(steps), c);
  }
}
