/** What was sent is what was commanded: the ledger of Send commands, every queued row and every message in
    a channel say word for word what some Send step of the run said, on a connection of its author. */
module RelayLedger {
  import opened Wrappers
  import opened Text
  import opened Outbox
  import opened FanOut
  import opened Relay
  import opened RelayPresence
  import opened RelayProvenance
  import opened RelayConservation
  import opened RelayOrder
  import opened RelaySequence

  /** Step `i` of the run is the Send command that `m` repeats: taken by a connection that waits for commands
      and carries the author's identity, within the limits on payload and fan-out, as number `m.send`. */
  ghost predicate SaidAt(steps: seq<Step>, i: int, m: Deliver, text: string) {
    && 0 <= i < |steps| && steps[i].Send? && text == steps[i].text
    && var s, c := Run(steps[..i]), steps[i].conn;
       && 0 <= c < |s.conns| && s.conns[c].open && s.conns[c].user == Some(m.from)
       && m == Deliver(|s.sends|, m.from, steps[i].to, steps[i].body, steps[i].ts)
       && Bytes(steps[i].body.payload) <= 128 * 1024 && |steps[i].to| <= 1024
  }

  ghost predicate Said(steps: seq<Step>, m: Deliver, text: string) {
    exists i :: SaidAt(steps, i, m, text)
  }

  /** Messages on their way, and rows ever queued, with their serialised form. */
  ghost predicate Verbatim(steps: seq<Step>, s: State) {
    && (forall c :: 0 <= c < |s.phases| && Routes(s.phases[c]) ==> Said(steps, s.phases[c].msg, s.phases[c].text))
    && (forall r :: r in s.accepted && r.frame.msg.Some? ==> Said(steps, r.frame.msg.value, r.frame.text))
  }

  /** Entry `k` of the ledger is the Send command of step `i`, on the same connection. */
  ghost predicate BookedAt(steps: seq<Step>, s: State, k: int, i: int, text: string) {
    && 0 <= k < |s.sends| && s.sends[k].msg.send == k
    && SaidAt(steps, i, s.sends[k].msg, text) && steps[i].conn == s.sends[k].conn
  }

  ghost predicate Booked(steps: seq<Step>, s: State, k: int) {
    exists i, text :: BookedAt(steps, s, k, i, text)
  }

  ghost predicate AllBooked(steps: seq<Step>, s: State) {
    forall k :: 0 <= k < |s.sends| ==> Booked(steps, s, k)
  }

  lemma SaidStays(front: seq<Step>, step: Step, i: int, m: Deliver, text: string)
    requires SaidAt(front, i, m, text)
    ensures SaidAt(front + [step], i, m, text)
  {
    hide Run;
    assert (front + [step])[..i] == front[..i];
  }

  lemma AcceptedIsSaid(front: seq<Step>, step: Step)
    requires Accepts(Run(front), step)
    ensures var s := Run(front);
            SaidAt(front + [step], |front|,
                   Deliver(|s.sends|, s.conns[step.conn].user.value, step.to, step.body, step.ts), step.text)
  {
    hide Run, Bytes;
    assert (front + [step])[..|front|] == front;
  }

  lemma StillSaid(front: seq<Step>, step: Step, m: Deliver, text: string)
    requires Said(front, m, text)
    ensures Said(front + [step], m, text)
  {
    var i :| SaidAt(front, i, m, text);
    SaidStays(front, step, i, m, text);
  }

  lemma StepStaysVerbatim(front: seq<Step>, step: Step)
    requires Verbatim(front, Run(front))
    ensures Verbatim(front + [step], Next(Run(front), step))
  {
    hide Run, Next, Said, Recipients, Accepts;
    var s, t, steps := Run(front), Next(Run(front), step), front + [step];
    AcceptedByPush(s, step);
    forall c | 0 <= c < |t.phases| && Routes(t.phases[c]) ensures Said(steps, t.phases[c].msg, t.phases[c].text) {
      StepWorks(s, step, c);
      if WorkMoves(s, step, c, t.phases[c]) {
        StillSaid(front, step, t.phases[c].msg, t.phases[c].text);
      } else {
        AcceptedIsSaid(front, step);
        SaidAtIsSaid(steps, |front|, t.phases[c].msg, t.phases[c].text);
      }
    }
    forall r | r in t.accepted && r.frame.msg.Some? ensures Said(steps, r.frame.msg.value, r.frame.text) {
      StillSaid(front, step, r.frame.msg.value, r.frame.text);
    }
  }

  lemma SaidAtIsSaid(steps: seq<Step>, i: int, m: Deliver, text: string)
    requires SaidAt(steps, i, m, text)
    ensures Said(steps, m, text)
  {
  }

  lemma StepBooks(front: seq<Step>, step: Step)
    requires AllBooked(front, Run(front))
    ensures AllBooked(front + [step], Next(Run(front), step))
  {
    hide Run, Next, Ready, Bytes, SaidAt;
    var s, t, steps := Run(front), Next(Run(front), step), front + [step];
    SendsGrow(s, step);
    forall k | 0 <= k < |t.sends| ensures Booked(steps, t, k) {
      if k < |s.sends| {
        assert Booked(front, s, k);
        var i, text :| BookedAt(front, s, k, i, text);
        SaidWithin(front, i, s.sends[k].msg, text);
        SaidStays(front, step, i, s.sends[k].msg, text);
        assert BookedAt(steps, t, k, i, text);
      } else {
        AcceptedIsSaid(front, step);
        assert BookedAt(steps, t, k, |front|, step.text);
      }
    }
  }

  lemma SaidWithin(steps: seq<Step>, i: int, m: Deliver, text: string)
    requires SaidAt(steps, i, m, text)
    ensures 0 <= i < |steps| && steps[i].Send?
  {
  }

  lemma {:induction false} RunIsVerbatim(steps: seq<Step>)
    ensures Verbatim(steps, Run(steps)) && AllBooked(steps, Run(steps))
  {
    hide Next, Verbatim, AllBooked;
    if steps == [] {
      assert Verbatim(steps, BOOT) && AllBooked(steps, BOOT) by { BootIsVerbatim(steps); }
    } else {
      var front, step := steps[..|steps| - 1], steps[|steps| - 1];
      RunIsVerbatim(front);
      StepStaysVerbatim(front, step);
      StepBooks(front, step);
      assert front + [step] == steps;
    }
  }

  lemma BootIsVerbatim(steps: seq<Step>)
    ensures Verbatim(steps, BOOT) && AllBooked(steps, BOOT)
  {
  }

  /** The ledger holds accepted Send commands and nothing else: entry `k` repeats the command of some step, by
      the user its connection carried then. Entries stand in the order of the steps, since that step found
      `k` entries. */
  lemma EntriesAreCommands(steps: seq<Step>, k: int)
    requires 0 <= k < |Run(steps).sends|
    ensures exists i :: 0 <= i < |steps| && steps[i].Send? && steps[i].conn == Run(steps).sends[k].conn
                        && |Run(steps[..i]).sends| == k && 0 <= steps[i].conn < |Run(steps[..i]).conns|
                        && Run(steps[..i]).conns[steps[i].conn].user.Some?
                        && Run(steps).sends[k].msg == Deliver(k, Run(steps[..i]).conns[steps[i].conn].user.value,
                                                              steps[i].to, steps[i].body, steps[i].ts)
  {
    RunIsVerbatim(steps);
    hide Run, Bytes;
    assert Booked(steps, Run(steps), k);
    var i, text :| BookedAt(steps, Run(steps), k, i, text);
  }

  /** And it holds all of them: a Send on a logged-in connection that waits for commands, within 128 KiB and
      1024 recipients, is entered as it was commanded, whatever follows. */
  lemma CommandsAreEntered(steps: seq<Step>, i: nat)
    requires i < |steps| && steps[i].Send?
    requires var s, c := Run(steps[..i]), steps[i].conn; Ready(s, c) && s.conns[c].user.Some?
    requires Bytes(steps[i].body.payload) <= 128 * 1024 && |steps[i].to| <= 1024
    ensures var s, c, k := Run(steps[..i]), steps[i].conn, |Run(steps[..i]).sends|;
            k < |Run(steps).sends|
            && Run(steps).sends[k] == Sent(c, Deliver(k, s.conns[c].user.value, steps[i].to, steps[i].body, steps[i].ts))
  {
    hide Run, Next, Bytes, Ready, ChannelOf;
    NextOf(steps, i);
    SendsGrow(Run(steps[..i]), steps[i]);
    RunGoesOn(steps, i + 1);
  }

  /** Nothing is forged and nothing goes astray: in every reachable state a queued row repeats, in content,
      time and serialised form, a Send step of its author's connection that lists the recipient it is
      queued for, who is registered. */
  lemma QueuedWasSent(steps: seq<Step>, r: Row)
    requires r in Run(steps).table.rows
    ensures r.frame.msg.Some? && Said(steps, r.frame.msg.value, r.frame.text) && r.ts == r.frame.msg.value.ts
    ensures var m := r.frame.msg.value; r.recipient in m.to && r.recipient != m.from && r.recipient in Run(steps).users
  {
    hide Run, Said;
    RunIsReal(steps);
    RunKeepsCustody(steps);
    RunIsVerbatim(steps);
    assert RowReal(Run(steps), r);
  }

  /** So does every message ever pushed to a connection, to the user that connection is. */
  lemma DeliveredWasSent(steps: seq<Step>, c: int, i: int)
    requires 0 <= c < |Run(steps).channels| && 0 <= i < |Run(steps).channels[c]|
    ensures var s, m := Run(steps), Run(steps).channels[c][i];
            && c < |s.conns| && s.conns[c].user.Some? && (exists j, text :: SaidAt(steps, j, m, text))
            && s.conns[c].user.value in m.to && s.conns[c].user.value != m.from && s.conns[c].user.value in s.users
  {
    hide Run, Booked, SaidAt;
    var s := Run(steps);
    RunIsReal(steps);
    RunIsVerbatim(steps);
    assert ForConn(s, c, s.channels[c][i]);
    var m := s.channels[c][i];
    assert Booked(steps, s, m.send);
    BookedIsSaid(steps, s, m.send);
  }

  lemma BookedIsSaid(steps: seq<Step>, s: State, k: int)
    requires 0 <= k < |s.sends| && Booked(steps, s, k)
    ensures exists j, text :: SaidAt(steps, j, s.sends[k].msg, text)
  {
  }
}
