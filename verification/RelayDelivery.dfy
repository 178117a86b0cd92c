/** What becomes of a Send under concurrency: every recipient is dealt with once, in order, and what is
    reported done was done. */
module RelayDelivery {
  import opened Wrappers
  import opened Text
  import opened Outbox
  import opened FanOut
  import opened Relay
  import opened RelayPresence
  import opened RelayProvenance
  import opened RelayConservation

  /** The recipients of Send number `k` that have been dealt with, in order. */
  function RoutedTo(routed: seq<Routed>, k: int): seq<Username> {
    if routed == [] then []
    else
      var last := routed[|routed| - 1];
      RoutedTo(routed[..|routed| - 1], k) + if last.send == k then [last.to] else []
  }

  lemma RoutedGrows(routed: seq<Routed>, r: Routed, k: int)
    ensures RoutedTo(routed + [r], k) == RoutedTo(routed, k) + if r.send == k then [r.to] else []
  {
    assert (routed + [r])[..|routed|] == routed;
  }

  /** The recipients still to do of Send number `k`, if this phase is about it. */
  function Todo(p: Phase, k: int): seq<Username> {
    if (p.Sending? || p.Pushing?) && p.msg.send == k then p.todo else []
  }

  function RecipientsOf(m: Deliver): seq<Username> {
    Recipients(m.to, m.from)
  }

  /** While its connection lives, the recipients done and those to do make up the list. */
  ghost predicate Progress(s: State, k: int)
    requires 0 <= k < |s.sends|
  {
    var c, done := s.sends[k].conn, RoutedTo(s.routed, k);
    && done <= RecipientsOf(s.sends[k].msg)
    && (0 <= c < |s.conns| && c < |s.phases| && s.conns[c].open ==>
          done + Todo(s.phases[c], k) == RecipientsOf(s.sends[k].msg))
  }

  ghost predicate AllProgress(s: State) {
    && (forall k :: 0 <= k < |s.sends| ==> Progress(s, k))
    && (forall r :: r in s.routed ==> r.send < |s.sends|)
  }

  /** Work in progress is as before, or its connection died. */
  ghost predicate SameWork(s: State, t: State) {
    && t.sends == s.sends && t.routed == s.routed && |t.conns| >= |s.conns| && |t.phases| >= |s.phases|
    && forall c, k :: 0 <= c < |s.conns| && c < |s.phases| && t.conns[c].open ==>
         s.conns[c].open && Todo(t.phases[c], k) == Todo(s.phases[c], k)
  }

  lemma SameWorkKeepsProgress(s: State, t: State)
    requires AllProgress(s) && SendsReal(s) && |s.conns| == |s.phases| && SameWork(s, t)
    ensures AllProgress(t)
  {
    hide Recipients, RoutedTo, Todo;
    forall k | 0 <= k < |t.sends| ensures Progress(t, k) { assert Progress(s, k); }
  }

  lemma LoginWork(s: State, step: Step)
    requires step.Connect? || step.AuthBegin? || step.Register? || step.AuthFinish?
    requires |s.conns| == |s.phases|
    ensures SameWork(s, Next(s, step))
  {
    hide ValidPubkey, ValidUsername, Reserved;
  }

  lemma QuietWork(s: State, step: Step)
    requires step.Connect? || step.AuthBegin? || step.Register? || step.AuthFinish? || step.Enter? || step.Pull? || step.Cleanup? || step.Restart?
    requires |s.conns| == |s.phases|
    ensures SameWork(s, Next(s, step))
  {
    if step.Connect? || step.AuthBegin? || step.Register? || step.AuthFinish? {
      hide Next;
      LoginWork(s, step);
    } else {
    }
  }

  lemma FlushSendWork(s: State, c: int, ok: bool)
    ensures SameWork(s, DoFlushSend(s, c, ok))
  {
  }

  lemma FlushingWork(s: State, step: Step)
    requires step.FlushRead? || step.FlushSend? || step.FlushDelete? || step.Prune?
    ensures SameWork(s, Next(s, step))
  {
    if step.FlushSend? {
      hide DoFlushSend, SameWork;
      FlushSendWork(s, step.conn, step.ok);
    } else {
      hide RowsFor, Without, Since, Ids, Expired;
    }
  }

  lemma SendKeepsProgress(s: State, c: int, to: seq<Username>, body: Body, ts: int, text: string)
    requires AllProgress(s) && SendsReal(s)
    ensures AllProgress(DoSend(s, c, to, body, ts, text))
  {
    hide Recipients, Bytes;
    var t := DoSend(s, c, to, body, ts, text);
    if t != s {
      NothingRoutedYet(s.routed, |s.sends|);
      forall k | 0 <= k < |t.sends| ensures Progress(t, k) {
        if k < |s.sends| { assert Progress(s, k); }
      }
    }
  }

  lemma {:induction false} NothingRoutedYet(routed: seq<Routed>, k: int)
    requires forall r :: r in routed ==> r.send < k
    ensures RoutedTo(routed, k) == []
  {
    if routed != [] {
      NothingRoutedYet(routed[..|routed| - 1], k);
      assert routed[|routed| - 1] in routed;
    }
  }

  /** Dealing with the first recipient of connection `c`'s message. */
  ghost predicate Advances(s: State, t: State, c: int, outcome: Outcome) {
    && 0 <= c < |s.phases| == |s.conns| && (s.phases[c].Sending? || s.phases[c].Pushing?) && s.phases[c].todo != []
    && t.sends == s.sends && t.conns == s.conns
    && t.routed == s.routed + [Routed(s.phases[c].msg.send, s.phases[c].todo[0], outcome)]
    && t.phases == s.phases[c := Sending(s.phases[c].msg, s.phases[c].text, s.phases[c].todo[1..])]
  }

  lemma AdvanceKeepsProgress(s: State, t: State, c: int, outcome: Outcome)
    requires AllProgress(s) && Advances(s, t, c, outcome) && PhaseReal(s, c, s.phases[c]) && s.conns[c].open
    ensures AllProgress(t)
  {
    hide Recipients;
    var p := s.phases[c];
    var r := Routed(p.msg.send, p.todo[0], outcome);
    forall k | 0 <= k < |t.sends| ensures Progress(t, k) {
      assert Progress(s, k);
      RoutedGrows(s.routed, r, k);
      assert RoutedTo(s.routed, k) + [] == RoutedTo(s.routed, k);
      if k == p.msg.send {
        assert (RoutedTo(s.routed, k) + [p.todo[0]]) + p.todo[1..] == RoutedTo(s.routed, k) + p.todo;
      }
    }
  }

  lemma LookupKeepsProgress(s: State, c: int)
    requires AllProgress(s) && PhasesReal(s) && SendsReal(s) && |s.conns| == |s.phases|
    ensures AllProgress(DoLookup(s, c))
  {
    var t := DoLookup(s, c);
    if Live(s, c) && s.phases[c].Sending? && s.phases[c].todo != [] && s.phases[c].todo[0] !in s.users {
      assert PhaseReal(s, c, s.phases[c]);
      hide AllProgress, PhaseReal;
      AdvanceKeepsProgress(s, t, c, Unknown);
    } else {
      hide AllProgress, SendsReal, PhasesReal, PhaseReal;
      SameWorkKeepsProgress(s, t);
    }
  }

  lemma PushKeepsProgress(s: State, c: int, room: bool)
    requires AllProgress(s) && PhasesReal(s) && SendsReal(s) && |s.conns| == |s.phases|
    ensures AllProgress(DoPush(s, c, room))
  {
    var t := DoPush(s, c, room);
    if AtPush(s, c) {
      assert PhaseReal(s, c, s.phases[c]);
      hide AllProgress, PhaseReal, UnderCap, SendsReal, PhasesReal, Append;
      AdvanceKeepsProgress(s, t, c, t.routed[|s.routed|].outcome);
    }
  }

  // ---- Outcomes are what they say ----

  ghost predicate OutcomeReal(s: State, r: Routed) {
    && 0 <= r.send < |s.sends|
    && (r.outcome == Pushed ==>
          exists c :: BelongsTo(s, c, r.to) && c < |s.channels| && s.sends[r.send].msg in s.channels[c])
    && (r.outcome == Queued ==>
          exists row :: row in s.accepted && row.recipient == r.to && row.frame.msg == Some(s.sends[r.send].msg))
  }

  ghost predicate OutcomesReal(s: State) {
    forall r :: r in s.routed ==> OutcomeReal(s, r)
  }

  lemma OutcomeStays(s: State, t: State, r: Routed)
    requires OutcomeReal(s, r) && Extends(s, t) && Settled(s, t) && s.accepted <= t.accepted
    ensures OutcomeReal(t, r)
  {
    var m := s.sends[r.send].msg;
    if r.outcome == Pushed {
      var c :| BelongsTo(s, c, r.to) && c < |s.channels| && m in s.channels[c];
      var i :| 0 <= i < |s.channels[c]| && s.channels[c][i] == m;
      assert t.channels[c][i] == m;
      assert BelongsTo(t, c, r.to);
    }
  }

  lemma PushedOutcome(s: State, c: int, room: bool)
    requires PhasesReal(s) && AtPush(s, c)
    ensures var t := DoPush(s, c, room); |t.routed| == |s.routed| + 1 && t.routed[..|s.routed|] == s.routed && OutcomeReal(t, t.routed[|s.routed|])
  {
    var t := DoPush(s, c, room);
    var p := s.phases[c];
    assert PhaseReal(s, c, p);
    hide UnderCap;
    if ToChannel(s, c, room) {
      assert BelongsTo(t, p.target.value, p.todo[0]);
      var channel := t.channels[p.target.value];
      assert channel[|channel| - 1] == p.msg;
    } else if |t.accepted| > |s.accepted| {
      assert t.accepted[|s.accepted|] in t.accepted;
    }
  }

  /** What is on the record stays; only Push and Lookup add to it. */
  lemma RecordGrows(s: State, step: Step)
    requires PhasesReal(s)
    ensures var t := Next(s, step);
            s.accepted <= t.accepted && forall r :: r in t.routed ==> r in s.routed || OutcomeReal(t, r)
  {
    if step.Push? && AtPush(s, step.conn) {
      hide DoPush, OutcomeReal;
      PushedOutcome(s, step.conn, step.room);
      RecordAfterPush(s, step.conn, step.room);
    } else if step.Lookup? {
      hide DoLookup, OutcomeReal;
      RecordAfterLookup(s, step.conn);
    } else {
      hide Next, OutcomeReal;
      OthersLeaveRecord(s, step);
    }
  }

  lemma RecordAfterLookup(s: State, c: int)
    requires PhasesReal(s)
    ensures var t := DoLookup(s, c);
            t.accepted == s.accepted && forall r :: r in t.routed ==> r in s.routed || OutcomeReal(t, r)
  {
    if Live(s, c) { assert PhaseReal(s, c, s.phases[c]); }
  }

  lemma RecordAfterPush(s: State, c: int, room: bool)
    ensures s.accepted <= DoPush(s, c, room).accepted
  {
    hide UnderCap;
  }

  lemma OthersLeaveRecord(s: State, step: Step)
    requires !step.Lookup? && !(step.Push? && AtPush(s, step.conn))
    ensures Next(s, step).routed == s.routed && Next(s, step).accepted == s.accepted
  {
    hide RowsFor, Without, Since, Ids, Expired, ValidPubkey, ValidUsername, Reserved, Recipients, Bytes;
  }

  // ---- Runs ----

  lemma StepKeepsProgress(s: State, step: Step)
    requires AllProgress(s) && Real(s)
    ensures AllProgress(Next(s, step))
  {
    hide AllProgress, SendsReal, PhasesReal, RowsReal, ChannelsReal, DoSend, DoLookup, DoPush;
    if step.Send? {
      SendKeepsProgress(s, step.conn, step.to, step.body, step.ts, step.text);
    } else if step.Lookup? {
      LookupKeepsProgress(s, step.conn);
    } else if step.Push? {
      PushKeepsProgress(s, step.conn, step.room);
    } else {
      hide Next, SameWork;
      if step.FlushRead? || step.FlushSend? || step.FlushDelete? || step.Prune? {
        FlushingWork(s, step);
      } else {
        QuietWork(s, step);
      }
      SameWorkKeepsProgress(s, Next(s, step));
    }
  }

  lemma StepKeepsOutcomes(s: State, step: Step)
    requires OutcomesReal(s) && Real(s)
    ensures OutcomesReal(Next(s, step))
  {
    hide Next, OutcomeReal, Settled, Quiet, Extends;
    StepSettles(s, step);
    StepExtends(s, step);
    RecordGrows(s, step);
    forall r | r in s.routed ensures OutcomeReal(Next(s, step), r) { OutcomeStays(s, Next(s, step), r); }
  }

  lemma {:induction false} RunDelivers(steps: seq<Step>)
    ensures AllProgress(Run(steps)) && OutcomesReal(Run(steps))
  {
    hide Next, AllProgress, OutcomesReal, Real;
    if steps == [] {
      assert AllProgress(BOOT) && OutcomesReal(BOOT) by { BootDelivers(); }
    } else {
      RunDelivers(steps[..|steps| - 1]);
      RunIsReal(steps[..|steps| - 1]);
      StepKeepsProgress(Run(steps[..|steps| - 1]), steps[|steps| - 1]);
      StepKeepsOutcomes(Run(steps[..|steps| - 1]), steps[|steps| - 1]);
    }
  }

  lemma BootDelivers()
    ensures AllProgress(BOOT) && OutcomesReal(BOOT)
  {
  }

  /** Whatever else happens in between: when the connection of a Send waits for its next command, each
      recipient of that Send has been dealt with exactly once, in the order of the list, and in no
      state has one been dealt with twice or out of order. */
  lemma EveryRecipientDealtWithOnce(steps: seq<Step>, k: int)
    requires 0 <= k < |Run(steps).sends|
    ensures var s := Run(steps);
            && RoutedTo(s.routed, k) <= RecipientsOf(s.sends[k].msg)
            && Distinct(RecipientsOf(s.sends[k].msg))
            && (Ready(s, s.sends[k].conn) ==> RoutedTo(s.routed, k) == RecipientsOf(s.sends[k].msg))
  {
    RunDelivers(steps);
    var s := Run(steps);
    hide Run, RoutedTo;
    assert Progress(s, k);
    RecipientsAre(s.sends[k].msg.to, s.sends[k].msg.from);
    assert RoutedTo(s.routed, k) + [] == RoutedTo(s.routed, k);
  }

  /** A recipient reported as reached was: the message is in a channel of theirs, or its row was accepted
      and is still queued, handed to a channel of theirs, or pruned as too old. */
  lemma ReachedMeansKept(steps: seq<Step>, r: Routed)
    requires r in Run(steps).routed && Reached(r.outcome)
    ensures var s := Run(steps);
            && 0 <= r.send < |s.sends|
            && var m := s.sends[r.send].msg;
            || (exists c :: BelongsTo(s, c, r.to) && c < |s.channels| && m in s.channels[c])
            || (exists row :: row in s.accepted && row.recipient == r.to && row.frame.msg == Some(m)
                  && (row in s.table.rows || WasPruned(s, row)))
  {
    var s := Run(steps);
    RunDelivers(steps);
    RunKeepsCustody(steps);
    hide Run;
    assert OutcomeReal(s, r);
    var m := s.sends[r.send].msg;
    if r.outcome == Queued {
      var row :| row in s.accepted && row.recipient == r.to && row.frame.msg == Some(m);
      assert Kept(s, row);
      if WasHanded(s, row) {
        var c :| Hand(row, c) in s.handed;
        assert HandHonest(s, Hand(row, c));
        assert BelongsTo(s, c, r.to);
      }
    }
  }

  /** For reference: a recipient is reported unknown only if nobody of that name is registered, and refused only if the
      queue is at a cap. */
  lemma MissesAreDue(s: State, step: Step)
    ensures var t := Next(s, step);
            t.routed == s.routed
            || (|t.routed| == |s.routed| + 1
                && var r := t.routed[|s.routed|];
                   && (r.outcome == Unknown ==> r.to !in s.users)
                   && (r.outcome == Refused ==> Live(s, step.conn) && s.phases[step.conn].Pushing?
                                                && !UnderCap(s.table.rows, r.to, s.phases[step.conn].text, MAX_ROWS, MAX_LENGTH)))
  {
    hide UnderCap;
    if !step.Lookup? && !(step.Push? && AtPush(s, step.conn)) {
      hide Next;
      OthersLeaveRecord(s, step);
    }
  }
}
