/** Who counts as online: exactly the users whose latest login is still connected. */
module RelayPresence {
  import opened Wrappers
  import opened Text
  import opened Relay

  /** The connection of `u`'s latest login. */
  function Latest(logins: seq<Login>, u: Username): Option<int> {
    if logins == [] then None
    else if logins[|logins| - 1].user == u then Some(logins[|logins| - 1].conn)
    else Latest(logins[..|logins| - 1], u)
  }

  lemma LatestAfterLogin(logins: seq<Login>, u: Username, c: int, v: Username)
    ensures Latest(logins + [Login(u, c)], v) == if v == u then Some(c) else Latest(logins, v)
  {
    assert (logins + [Login(u, c)])[..|logins|] == logins;
  }

  /** `u` is mapped to its latest login while that is open, and to nothing otherwise. */
  predicate Mapped(s: State, u: Username) {
    if u in s.online then Latest(s.logins, u) == Some(s.online[u]) && Live(s, s.online[u])
    else Latest(s.logins, u).Some? ==> !Live(s, Latest(s.logins, u).value)
  }

  /** A login in the history happened on a connection that carries that identity. */
  ghost predicate LoginsReal(s: State) {
    forall u :: Latest(s.logins, u).Some? ==>
      var c := Latest(s.logins, u).value;
      0 <= c < |s.conns| && s.conns[c].user == Some(u)
  }

  ghost predicate Presence(s: State) {
    |s.conns| == |s.phases| == |s.channels| && LoginsReal(s) && forall u :: Mapped(s, u)
  }

  predicate ConnSettled(a: Conn, b: Conn) {
    && (b.open ==> a.open)
    && (a.user.Some? ==> b.user == a.user && b.proof == a.proof)
  }

  /** From `s` to `t` connections neither reopen nor change a settled identity, and channels only grow. */
  predicate Settled(s: State, t: State) {
    && |s.conns| <= |t.conns| && (forall c :: 0 <= c < |s.conns| ==> ConnSettled(s.conns[c], t.conns[c]))
    && |s.channels| <= |t.channels| && (forall c :: 0 <= c < |s.channels| ==> s.channels[c] <= t.channels[c])
  }

  /** Nobody logs in and nobody goes. */
  predicate Quiet(s: State, t: State) {
    && t.online == s.online && t.logins == s.logins
    && |t.conns| - |s.conns| == |t.phases| - |s.phases| == |t.channels| - |s.channels|
    && |s.conns| <= |t.conns| && forall c :: 0 <= c < |s.conns| ==> t.conns[c].open == s.conns[c].open
  }

  lemma LoginStepSettles(s: State, step: Step)
    requires step.Connect? || step.AuthBegin? || step.Register? || step.AuthFinish?
    ensures Settled(s, Next(s, step)) && Quiet(s, Next(s, step))
  {
    hide ValidPubkey, ValidUsername, Reserved;
  }

  lemma FlushSendSettles(s: State, c: int, ok: bool)
    ensures Settled(s, DoFlushSend(s, c, ok)) && Quiet(s, DoFlushSend(s, c, ok))
  {
  }

  lemma FlushStepSettles(s: State, step: Step)
    requires step.Pull? || step.FlushRead? || step.FlushSend? || step.FlushDelete? || step.Prune?
    ensures Settled(s, Next(s, step)) && Quiet(s, Next(s, step))
  {
    hide Outbox.RowsFor, Outbox.Without, Outbox.Since, Outbox.Ids, Expired, DoFlushSend;
    if step.FlushSend? {
      hide Settled, Quiet;
      FlushSendSettles(s, step.conn, step.ok);
    }
  }

  lemma PushSettles(s: State, c: int, room: bool)
    ensures Settled(s, DoPush(s, c, room)) && Quiet(s, DoPush(s, c, room))
  {
    hide Outbox.UnderCap, Outbox.Append;
  }

  lemma LookupSettles(s: State, c: int)
    ensures Settled(s, DoLookup(s, c)) && Quiet(s, DoLookup(s, c))
  {
  }

  lemma SendStepSettles(s: State, step: Step)
    requires step.Send? || step.Lookup? || step.Push?
    ensures Settled(s, Next(s, step)) && Quiet(s, Next(s, step))
  {
    if step.Push? {
      hide DoPush, Settled, Quiet;
      PushSettles(s, step.conn, step.room);
    } else if step.Lookup? {
      hide DoLookup, Settled, Quiet;
      LookupSettles(s, step.conn);
    } else {
      hide FanOut.Recipients, Bytes;
    }
  }

  lemma PresenceStepSettles(s: State, step: Step)
    requires step.Enter? || step.Cleanup? || step.Restart?
    ensures Settled(s, Next(s, step))
  {
  }

  lemma StepSettles(s: State, step: Step)
    ensures Settled(s, Next(s, step))
    ensures step.Enter? || step.Cleanup? || step.Restart? || Quiet(s, Next(s, step))
  {
    hide Next, Settled, Quiet;
    if step.Enter? || step.Cleanup? || step.Restart? {
      PresenceStepSettles(s, step);
    } else if step.Send? || step.Lookup? || step.Push? {
      SendStepSettles(s, step);
    } else if step.Pull? || step.FlushRead? || step.FlushSend? || step.FlushDelete? || step.Prune? {
      FlushStepSettles(s, step);
    } else {
      LoginStepSettles(s, step);
    }
  }

  lemma QuietStepKeepsPresence(s: State, t: State)
    requires Presence(s) && Settled(s, t) && Quiet(s, t)
    ensures Presence(t)
  {
    hide Latest;
    forall u ensures Mapped(t, u) {
      assert Mapped(s, u);
    }
  }

  /** A login maps its user to its connection and leaves every other user's entry as it was. */
  lemma EnterKeepsPresence(s: State, c: int)
    requires Presence(s)
    ensures Presence(DoEnter(s, c))
    ensures var t := DoEnter(s, c);
            t != s ==> forall v :: if s.conns[c].user == Some(v) then v in t.online && t.online[v] == c
                                   else (v in t.online <==> v in s.online) && (v in s.online ==> t.online[v] == s.online[v])
  {
    var t := DoEnter(s, c);
    if t != s {
      var u := s.conns[c].user.value;
      hide Latest;
      forall v
        ensures Mapped(t, v)
        ensures Latest(t.logins, v).Some? ==> Latest(t.logins, v).value == c || Latest(t.logins, v) == Latest(s.logins, v)
      {
        LatestAfterLogin(s.logins, u, c, v);
        assert Mapped(s, v);
      }
    }
  }

  /** A connection that goes takes exactly the entries that point to it: a newer login of its user, on
      another connection, stays. */
  lemma CleanupKeepsPresence(s: State, c: int)
    requires Presence(s)
    ensures Presence(DoCleanup(s, c))
    ensures Ready(s, c) ==>
              var t := DoCleanup(s, c);
              !Live(t, c) && forall v :: (v in t.online <==> v in s.online && s.online[v] != c)
                                         && (v in t.online ==> t.online[v] == s.online[v])
  {
    hide Latest;
    var t := DoCleanup(s, c);
    forall v ensures Mapped(t, v) && (v in s.online ==> s.conns[s.online[v]].user == Some(v)) {
      assert Mapped(s, v);
    }
  }

  lemma RestartKeepsPresence(s: State)
    requires Presence(s)
    ensures Presence(DoRestart(s))
  {
    hide Latest;
    var t := DoRestart(s);
    forall v ensures Mapped(t, v) {
      assert Mapped(s, v);
    }
  }

  lemma StepKeepsPresence(s: State, step: Step)
    requires Presence(s)
    ensures Presence(Next(s, step))
  {
    StepSettles(s, step);
    hide Presence, Settled, Quiet, DoEnter, DoCleanup, DoRestart;
    if step.Enter? {
      EnterKeepsPresence(s, step.conn);
    } else if step.Cleanup? {
      CleanupKeepsPresence(s, step.conn);
    } else if step.Restart? {
      RestartKeepsPresence(s);
    } else {
      hide Next;
      QuietStepKeepsPresence(s, Next(s, step));
    }
  }

  /** In every reachable state: the online map holds `u` exactly if its latest login is still open, and
      then it holds that connection, which carries `u`'s identity. An older connection that goes away
      never takes a newer login with it. */
  lemma {:induction false} OnlineIsLatestLogin(steps: seq<Step>, u: Username)
    ensures var s := Run(steps);
            && (u in s.online <==> Latest(s.logins, u).Some? && Live(s, Latest(s.logins, u).value))
            && (u in s.online ==> s.online[u] == Latest(s.logins, u).value && s.conns[s.online[u]].user == Some(u))
  {
    RunKeepsPresence(steps);
    assert Mapped(Run(steps), u);
  }

  lemma {:induction false} RunKeepsPresence(steps: seq<Step>)
    ensures Presence(Run(steps))
  {
    if steps != [] {
      RunKeepsPresence(steps[..|steps| - 1]);
      StepKeepsPresence(Run(steps[..|steps| - 1]), steps[|steps| - 1]);
    }
  }

  /** Along any continuation of a run: an identity once taken stays, a connection once closed stays
      closed and out of the map, and nothing leaves a channel. */
  lemma {:induction false} IdentitiesAreFinal(steps: seq<Step>, k: nat)
    requires k <= |steps|
    ensures Settled(Run(steps[..k]), Run(steps))
    ensures forall c :: 0 <= c < |Run(steps[..k]).conns| && !Run(steps[..k]).conns[c].open ==> c !in Run(steps).online.Values
    decreases |steps|
  {
    hide Next;
    if k == |steps| {
      assert steps[..k] == steps;
    } else {
      var front := steps[..|steps| - 1];
      assert front[..k] == steps[..k];
      IdentitiesAreFinal(front, k);
      StepSettles(Run(front), steps[|steps| - 1]);
    }
    RunKeepsPresence(steps);
    forall u | u in Run(steps).online ensures Live(Run(steps), Run(steps).online[u]) {
      assert Mapped(Run(steps), u);
    }
  }
}
