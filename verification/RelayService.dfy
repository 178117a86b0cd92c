/** What the relay achieves for a client that is not interrupted: a Send gives every recipient its due, a
    login or Pull empties the backlog into the channel, and a prune leaves nothing that is too old. */
module RelayService {
  import opened Wrappers
  import opened Text
  import opened Outbox
  import opened FanOut
  import opened Relay
  import opened RelayPresence
  import opened RelayProvenance
  import opened RelayConservation
  import opened RelayOrder
  import opened RelaySequence

  lemma RunNext(steps: seq<Step>, x: Step)
    ensures Run(steps + [x]) == Next(Run(steps), x)
  {
    hide Next;
    assert (steps + [x])[..|steps|] == steps;
  }

  // ---- Draining the backlog ----

  /** `n` sends of a flush, all taken by the channel. */
  function FlushSends(c: int, n: nat): seq<Step> {
    if n == 0 then [] else FlushSends(c, n - 1) + [FlushSend(c, true)]
  }

  /** The state while the flush of `rows` goes on: `n` rows are in the channel. */
  ghost predicate Midway(s: State, t: State, c: int, rows: seq<Row>, n: nat) {
    && n <= |rows| && 0 <= c < |s.channels| == |s.phases| == |s.conns|
    && t.table == s.table && t.conns == s.conns && |t.phases| == |s.phases| && |t.channels| == |s.channels|
    && t.phases[c] == Flushing(rows, n, false)
    && t.channels[c] == s.channels[c] + Parsed(rows[..n])
    && (forall d :: 0 <= d < |s.channels| && d != c ==> t.channels[d] == s.channels[d])
  }

  lemma FlushSendAdvances(s: State, t: State, c: int, rows: seq<Row>, n: nat)
    requires Midway(s, t, c, rows, n) && n < |rows| && rows[n].frame.msg.Some? && s.conns[c].open
    ensures Midway(s, DoFlushSend(t, c, true), c, rows, n + 1)
  {
    assert rows[..n + 1][..n] == rows[..n];
    assert s.channels[c] + (Parsed(rows[..n]) + [rows[n].frame.msg.value]) == s.channels[c] + Parsed(rows[..n]) + [rows[n].frame.msg.value];
  }

  lemma {:induction false} FlushSendsAdvance(s: State, steps: seq<Step>, c: int, rows: seq<Row>, n: nat)
    requires Midway(s, Run(steps), c, rows, 0) && n <= |rows| && s.conns[c].open
    requires forall r :: r in rows ==> r.frame.msg.Some?
    ensures Midway(s, Run(steps + FlushSends(c, n)), c, rows, n)
  {
    hide Run, DoFlushSend;
    if n == 0 {
      assert steps + [] == steps;
    } else {
      FlushSendsAdvance(s, steps, c, rows, n - 1);
      var before := steps + FlushSends(c, n - 1);
      RunNext(before, FlushSend(c, true));
      assert before + [FlushSend(c, true)] == steps + FlushSends(c, n);
      FlushSendAdvances(s, Run(before), c, rows, n - 1);
    }
  }

  /** A flush from the reading of the backlog to its deletion. */
  function Flush(c: int, n: nat): seq<Step> {
    [FlushRead(c)] + FlushSends(c, n) + [FlushDelete(c)]
  }

  /** From `s` to `t` connection `c` took the backlog of its user `u`, and nothing else changed. */
  ghost predicate Drained(s: State, t: State, c: int, u: Username) {
    && Ready(t, c) && t.conns == s.conns && |t.channels| == |s.channels| > c
    && t.channels[c] == s.channels[c] + Parsed(RowsFor(s.table.rows, u))
    && (forall d :: 0 <= d < |s.channels| && d != c ==> t.channels[d] == s.channels[d])
    && (forall v :: RowsFor(t.table.rows, v) == if v == u then [] else RowsFor(s.table.rows, v))
  }

  lemma NothingToDrain(s: State, c: int, n: nat)
    requires Live(s, c) && s.phases[c].FlushDue? && s.conns[c].user.Some? && RowsFor(s.table.rows, s.conns[c].user.value) == []
    ensures DoFlushDelete(DoFlushRead(s, c), c) == DoFlushRead(s, c) && Drained(s, DoFlushRead(s, c), c, s.conns[c].user.value)
  {
    hide RowsFor;
    assert s.channels[c] + [] == s.channels[c];
  }

  /** A flush that is not interrupted, as at a login or a Pull: every queued message of the user is in the
      connection's channel, in order, their queue is empty, and nobody else's queue or channel changed. */
  lemma FlushDrains(steps: seq<Step>, c: int)
    requires var s := Run(steps); Live(s, c) && s.phases[c].FlushDue? && s.conns[c].user.Some?
    ensures var s := Run(steps);
            var u := s.conns[c].user.value;
            Drained(s, Run(steps + Flush(c, |RowsFor(s.table.rows, u)|)), c, u) && |Parsed(RowsFor(s.table.rows, u))| == |RowsFor(s.table.rows, u)|
  {
    var s := Run(steps);
    RunIsReal(steps);
    RunKeepsCustody(steps);
    hide Run, RowsFor, DoFlushRead, DoFlushDelete, Drained, Parsed, Custody, ChannelsReal, PhasesReal, SendsReal, RowsReal, Midway, InOrder;
    var u := s.conns[c].user.value;
    var rows, read := RowsFor(s.table.rows, u), steps + [FlushRead(c)];
    RunNext(steps, FlushRead(c));
    QueuedParse(s, u);
    var sent := read + FlushSends(c, |rows|);
    RunNext(sent, FlushDelete(c));
    assert sent + [FlushDelete(c)] == steps + Flush(c, |rows|);
    if rows == [] {
      NothingToDrain(s, c, 0);
      assert sent == read;
    } else {
      FlushBegins(s, c);
      FlushSendsAdvance(s, read, c, rows, |rows|);
      QueueIsInOrder(s);
      FlushEnds(s, Run(sent), c, u);
    }
  }

  lemma QueueIsInOrder(s: State)
    requires Custody(s)
    ensures InOrder(s.table.rows)
  {
  }

  lemma FlushBegins(s: State, c: int)
    requires Presence(s) && Live(s, c) && s.phases[c].FlushDue? && s.conns[c].user.Some? && RowsFor(s.table.rows, s.conns[c].user.value) != []
    ensures Midway(s, Next(s, FlushRead(c)), c, RowsFor(s.table.rows, s.conns[c].user.value), 0)
  {
    hide RowsFor, Mapped;
    assert s.channels[c] + [] == s.channels[c];
  }

  lemma QueuedParse(s: State, u: Username)
    requires RowsReal(s)
    ensures forall r :: r in RowsFor(s.table.rows, u) ==> r.frame.msg.Some?
    ensures |Parsed(RowsFor(s.table.rows, u))| == |RowsFor(s.table.rows, u)|
  {
    RowsForMembers(s.table.rows, u);
    forall r | r in s.table.rows ensures r.frame.msg.Some? { assert RowReal(s, r); }
    AllParse(RowsFor(s.table.rows, u));
  }

  lemma {:induction false} AllParse(rows: seq<Row>)
    requires forall r :: r in rows ==> r.frame.msg.Some?
    ensures |Parsed(rows)| == |rows|
  {
    if rows != [] {
      AllParse(rows[..|rows| - 1]);
      assert rows[|rows| - 1] in rows;
    }
  }

  lemma FlushEnds(s: State, t: State, c: int, u: Username)
    requires InOrder(s.table.rows) && Midway(s, t, c, RowsFor(s.table.rows, u), |RowsFor(s.table.rows, u)|)
    requires c < |s.conns| && s.conns[c].open
    ensures Drained(s, DoFlushDelete(t, c), c, u)
  {
    hide RowsFor, Without, Ids, InOrder, Parsed;
    var rows := RowsFor(s.table.rows, u);
    var w := DoFlushDelete(t, c);
    assert rows[..|rows|] == rows && rows[|rows|..] == [];
    assert w.table.rows == Without(s.table.rows, Ids(rows[..|rows|]));
    forall v ensures RowsFor(w.table.rows, v) == if v == u then [] else RowsFor(s.table.rows, v) {
      FlushTakesPrefix(s.table.rows, u, |rows|, v);
    }
  }

  /** So a Pull that is not interrupted delivers the backlog. */
  lemma PullDrains(steps: seq<Step>, c: int)
    requires var s := Run(steps); Ready(s, c) && s.conns[c].user.Some?
    ensures var s := Run(steps);
            var rows := RowsFor(s.table.rows, s.conns[c].user.value);
            var t := Run(steps + [Pull(c)] + Flush(c, |rows|));
            Ready(t, c) && t.channels[c] == s.channels[c] + Parsed(rows) && RowsFor(t.table.rows, s.conns[c].user.value) == []
  {
    hide Run, RowsFor, Flush, Real;
    RunNext(steps, Pull(c));
    PullIsDue(Run(steps), c);
    FlushDrains(steps + [Pull(c)], c);
    hide DoPull;
  }

  lemma PullIsDue(s: State, c: int)
    requires Ready(s, c) && s.conns[c].user.Some?
    ensures var t := DoPull(s, c);
            Live(t, c) && t.phases[c].FlushDue? && t.conns == s.conns && t.table == s.table && t.channels == s.channels
  {
  }

  /** And so does a login, which also makes the connection the one its user is reached at. */
  lemma LoginDrains(steps: seq<Step>, c: int)
    requires var s := Run(steps); Live(s, c) && s.phases[c].Entering? && s.conns[c].user.Some?
    ensures var s := Run(steps);
            var u := s.conns[c].user.value;
            var rows := RowsFor(s.table.rows, u);
            var w, t := Run(steps + [Enter(c)]), Run(steps + [Enter(c)] + Flush(c, |rows|));
            && u in w.online && w.online[u] == c
            && Ready(t, c) && t.channels[c] == s.channels[c] + Parsed(rows) && RowsFor(t.table.rows, u) == []
  {
    hide Run, RowsFor, Flush, Real;
    RunNext(steps, Enter(c));
    EnterIsDue(Run(steps), c);
    FlushDrains(steps + [Enter(c)], c);
    hide DoEnter;
  }

  lemma EnterIsDue(s: State, c: int)
    requires Live(s, c) && s.phases[c].Entering? && s.conns[c].user.Some?
    ensures var t := DoEnter(s, c);
            && Live(t, c) && t.phases[c].FlushDue? && t.conns == s.conns && t.table == s.table && t.channels == s.channels
            && s.conns[c].user.value in t.online && t.online[s.conns[c].user.value] == c
  {
  }

  // ---- Pruning ----

  /** A prune removes every queued row older than the cutoff and no other. */
  lemma PruneClears(steps: seq<Step>, cutoff: int, r: Row)
    ensures r in Run(steps + [Prune(cutoff)]).table.rows <==> r in Run(steps).table.rows && r.ts >= cutoff
  {
    RunNext(steps, Prune(cutoff));
    SinceMembers(Run(steps).table.rows, cutoff);
    hide Run, Since, Expired;
  }

  // ---- A Send that is not interrupted ----

  /** Nothing of `v`'s changed: neither their queue nor the channel they are reached at. */
  predicate Spared(s: State, t: State, v: Username) {
    && RowsFor(t.table.rows, v) == RowsFor(s.table.rows, v)
    && (v in s.online && 0 <= s.online[v] < |s.channels| ==> s.online[v] < |t.channels| && t.channels[s.online[v]] == s.channels[s.online[v]])
  }

  /** From `s` to `t` recipient `u` got its due: nothing if unknown; the message in its channel, and there
      only, if online and the channel has room; else one row in its queue, if fewer than 10,000 rows and
      64 MiB leave room; else nothing. */
  predicate Served(s: State, t: State, u: Username, m: Deliver, text: string, room: bool) {
    if u in s.users && u in s.online && room then
      && 0 <= s.online[u] < |s.channels| && s.online[u] < |t.channels|
      && t.channels[s.online[u]] == s.channels[s.online[u]] + [m]
      && RowsFor(t.table.rows, u) == RowsFor(s.table.rows, u)
    else if u in s.users && |RowsFor(s.table.rows, u)| < 10_000 && Length(RowsFor(s.table.rows, u)) + Bytes(text) <= 64 * 1024 * 1024 then
      && (u in s.online && 0 <= s.online[u] < |s.channels| ==> s.online[u] < |t.channels| && t.channels[s.online[u]] == s.channels[s.online[u]])
      && exists id :: s.table.nextId <= id < t.table.nextId
           && RowsFor(t.table.rows, u) == RowsFor(s.table.rows, u) + [Row(id, u, Frame(text, Some(m)), m.ts)]
    else Spared(s, t, u)
  }

  /** Users are reached at connections of their own. */
  ghost predicate Addresses(s: State) {
    && |s.conns| == |s.phases| == |s.channels|
    && forall u :: u in s.online ==> 0 <= s.online[u] < |s.conns| && s.conns[s.online[u]].user == Some(u)
  }

  /** The task of `c` got from one point of its work to another; who is who and where is as before. */
  predicate WorksOnly(s: State, t: State) {
    && t.users == s.users && t.online == s.online && t.conns == s.conns && |t.phases| == |s.phases|
    && |t.channels| == |s.channels| && s.table.nextId <= t.table.nextId
    && forall d :: 0 <= d < |s.channels| && d !in s.online.Values ==> t.channels[d] == s.channels[d]
  }

  predicate At(s: State, c: int, m: Deliver, text: string, todo: seq<Username>) {
    Live(s, c) && s.phases[c] == Sending(m, text, todo)
  }

  lemma OneIsServed(s: State, c: int, m: Deliver, text: string, todo: seq<Username>, room: bool, v: Username)
    requires At(s, c, m, text, todo) && todo != [] && Addresses(s)
    ensures var t := DoPush(DoLookup(s, c), c, room);
            && At(t, c, m, text, todo[1..]) && WorksOnly(s, t)
            && if v == todo[0] then Served(s, t, v, m, text, room) else Spared(s, t, v)
  {
    var u := todo[0];
    if u in s.users {
      var l := DoLookup(s, c);
      assert l == s.(phases := s.phases[c := Pushing(m, text, todo, if u in s.online then Some(s.online[u]) else None)]);
      PushServes(s, l, c, m, text, todo, room, v);
    } else {
      hide RowsFor, Length, UnderCap;
    }
  }

  /** The message went live, to the channel of `todo[0]`. */
  lemma LiveServes(s: State, t: State, c: int, m: Deliver, text: string, todo: seq<Username>, v: Username)
    requires At(s, c, m, text, todo) && todo != [] && Addresses(s) && todo[0] in s.users && todo[0] in s.online
    requires var d := s.online[todo[0]];
             t == s.(channels := s.channels[d := s.channels[d] + [m]], phases := s.phases[c := Sending(m, text, todo[1..])], routed := t.routed)
    ensures At(t, c, m, text, todo[1..]) && WorksOnly(s, t)
    ensures if v == todo[0] then Served(s, t, v, m, text, true) else Spared(s, t, v)
  {
    hide RowsFor, Length, Bytes;
    assert s.online[todo[0]] in s.online.Values;
  }

  /** The message was queued as one row, or found no room. */
  lemma QueueServes(s: State, t: State, c: int, m: Deliver, text: string, todo: seq<Username>, room: bool, v: Username)
    requires At(s, c, m, text, todo) && todo != [] && Addresses(s) && todo[0] in s.users && !(todo[0] in s.online && room)
    requires t == s.(table := t.table, accepted := t.accepted, phases := s.phases[c := Sending(m, text, todo[1..])], routed := t.routed)
    requires t.table == Enqueue(s.table, todo[0], Frame(text, Some(m)), m.ts, MAX_ROWS, MAX_LENGTH)
    ensures At(t, c, m, text, todo[1..]) && WorksOnly(s, t)
    ensures if v == todo[0] then Served(s, t, v, m, text, room) else Spared(s, t, v)
  {
    RowsForAppended(s.table.rows, Row(s.table.nextId, todo[0], Frame(text, Some(m)), m.ts), v);
    assert RowsFor(s.table.rows, v) + [] == RowsFor(s.table.rows, v);
    hide RowsFor, Length, Size, Bytes;
  }

  lemma PushServes(s: State, l: State, c: int, m: Deliver, text: string, todo: seq<Username>, room: bool, v: Username)
    requires At(s, c, m, text, todo) && todo != [] && Addresses(s) && todo[0] in s.users
    requires l == s.(phases := s.phases[c := Pushing(m, text, todo, if todo[0] in s.online then Some(s.online[todo[0]]) else None)])
    ensures var t := DoPush(l, c, room);
            && At(t, c, m, text, todo[1..]) && WorksOnly(s, t)
            && if v == todo[0] then Served(s, t, v, m, text, room) else Spared(s, t, v)
  {
    hide Served, Spared, WorksOnly, UnderCap;
    var t := DoPush(l, c, room);
    if room && todo[0] in s.online {
      assert ToChannel(l, c, room);
      LiveServes(s, t, c, m, text, todo, v);
    } else {
      assert !ToChannel(l, c, room);
      QueueServes(s, t, c, m, text, todo, room, v);
    }
  }

  /** One lookup and one push for each recipient, its channel taking the message or not as `rooms` says. */
  function Deals(c: int, rooms: seq<bool>): seq<Step> {
    if rooms == [] then [] else [Lookup(c), Push(c, rooms[0])] + Deals(c, rooms[1..])
  }

  lemma ServedThenSpared(s: State, t: State, w: State, u: Username, m: Deliver, text: string, room: bool)
    requires Served(s, t, u, m, text, room) && Spared(t, w, u) && WorksOnly(s, t) && WorksOnly(t, w)
    ensures Served(s, w, u, m, text, room)
  {
    hide RowsFor, Length, Bytes;
  }

  lemma SparedThenServed(s: State, t: State, w: State, u: Username, m: Deliver, text: string, room: bool)
    requires Spared(s, t, u) && Served(t, w, u, m, text, room) && WorksOnly(s, t) && WorksOnly(t, w)
    ensures Served(s, w, u, m, text, room)
  {
    hide RowsFor, Length, Bytes;
  }

  lemma SparedTwice(s: State, t: State, w: State, u: Username)
    requires Spared(s, t, u) && Spared(t, w, u) && WorksOnly(s, t) && WorksOnly(t, w)
    ensures Spared(s, w, u)
  {
    hide RowsFor;
  }

  lemma WorkOnlyTwice(s: State, t: State, w: State)
    requires WorksOnly(s, t) && WorksOnly(t, w)
    ensures WorksOnly(s, w) && (Addresses(s) ==> Addresses(t))
  {
  }

  lemma StillAddresses(s: State, t: State)
    requires WorksOnly(s, t) && Addresses(s)
    ensures Addresses(t)
  {
  }

  /** Everybody on the list got its due, everybody else nothing. */
  ghost predicate AllServed(s: State, t: State, todo: seq<Username>, m: Deliver, text: string, rooms: seq<bool>)
    requires |rooms| == |todo|
  {
    && (forall i :: 0 <= i < |todo| ==> Served(s, t, todo[i], m, text, rooms[i]))
    && (forall v :: v !in todo ==> Spared(s, t, v))
  }

  lemma {:induction false} DealsServe(steps: seq<Step>, c: int, m: Deliver, text: string, todo: seq<Username>, rooms: seq<bool>)
    requires var s := Run(steps); At(s, c, m, text, todo) && Addresses(s) && |rooms| == |todo| && Distinct(todo)
    ensures var s, t := Run(steps), Run(steps + Deals(c, rooms));
            At(t, c, m, text, []) && WorksOnly(s, t) && AllServed(s, t, todo, m, text, rooms)
    decreases |todo|
  {
    hide Run, DoLookup, DoPush, Served, Spared, WorksOnly, Addresses;
    var s := Run(steps);
    if todo == [] {
      assert steps + [] == steps;
      NothingServed(s);
    } else {
      var looked, pushed := steps + [Lookup(c)], steps + [Lookup(c)] + [Push(c, rooms[0])];
      RunNext(steps, Lookup(c));
      RunNext(looked, Push(c, rooms[0]));
      var t := Run(pushed);
      OneIsServed(s, c, m, text, todo, rooms[0], todo[0]);
      StillAddresses(s, t);
      DealsServe(pushed, c, m, text, todo[1..], rooms[1..]);
      assert pushed + Deals(c, rooms[1..]) == steps + Deals(c, rooms);
      var w := Run(pushed + Deals(c, rooms[1..]));
      WorkOnlyTwice(s, t, w);
      assert todo[0] !in todo[1..];
      ServedThenSpared(s, t, w, todo[0], m, text, rooms[0]);
      forall i | 1 <= i < |todo| ensures Served(s, w, todo[i], m, text, rooms[i]) {
        OneIsServed(s, c, m, text, todo, rooms[0], todo[i]);
        assert todo[1..][i - 1] == todo[i] && rooms[1..][i - 1] == rooms[i];
        SparedThenServed(s, t, w, todo[i], m, text, rooms[i]);
      }
      forall v | v !in todo ensures Spared(s, w, v) {
        OneIsServed(s, c, m, text, todo, rooms[0], v);
        assert v !in todo[1..];
        SparedTwice(s, t, w, v);
      }
    }
  }

  lemma NothingServed(s: State)
    ensures WorksOnly(s, s) && forall v :: Spared(s, s, v)
  {
  }

  lemma LoginsAreAddresses(s: State)
    requires Presence(s)
    ensures Addresses(s)
  {
    forall u | u in s.online ensures 0 <= s.online[u] < |s.conns| && s.conns[s.online[u]].user == Some(u) { assert Mapped(s, u); }
  }

  /** A Send that is not interrupted, by a logged-in connection that waits for commands, within 128 KiB and
      1024 recipients: each distinct recipient other than the author gets its due, nobody else anything, and
      the connection waits for its next command. */
  lemma SendServesAll(steps: seq<Step>, c: int, to: seq<Username>, body: Body, ts: int, text: string, rooms: seq<bool>)
    requires var s := Run(steps); Ready(s, c) && s.conns[c].user.Some?
    requires Bytes(body.payload) <= 128 * 1024 && |to| <= 1024
    requires |rooms| == |Recipients(to, Run(steps).conns[c].user.value)|
    ensures var s := Run(steps);
            var from := s.conns[c].user.value;
            var t := Run(steps + [Send(c, to, body, ts, text)] + Deals(c, rooms) + [Lookup(c)]);
            && Ready(t, c) && t.users == s.users && t.online == s.online && t.conns == s.conns
            && AllServed(s, t, Recipients(to, from), Deliver(|s.sends|, from, to, body, ts), text, rooms)
            && (forall u :: u in Recipients(to, from) <==> u in to && u != from)
  {
    hide Run, Recipients, Bytes, RowsFor, Length;
    var s := Run(steps);
    var from := s.conns[c].user.value;
    var m := Deliver(|s.sends|, from, to, body, ts);
    RunIsReal(steps);
    LoginsAreAddresses(s);
    RecipientsAre(to, from);
    var sent := steps + [Send(c, to, body, ts, text)];
    RunNext(steps, Send(c, to, body, ts, text));
    var t := Run(sent);
    assert t == s.(sends := s.sends + [Sent(c, m)], phases := s.phases[c := Sending(m, text, Recipients(to, from))]);
    hide DoSend;
    DealsServe(sent, c, m, text, Recipients(to, from), rooms);
    var dealt := sent + Deals(c, rooms);
    RunNext(dealt, Lookup(c));
    SendingEnds(s, t, Run(dealt), c, m, text, Recipients(to, from), rooms);
  }

  /** What was served counts from before the Send, and the last lookup finds nobody left. */
  lemma SendingEnds(s: State, t: State, w: State, c: int, m: Deliver, text: string, todo: seq<Username>, rooms: seq<bool>)
    requires t == s.(sends := t.sends, phases := t.phases) && |t.phases| == |s.phases|
    requires At(w, c, m, text, []) && WorksOnly(t, w) && |rooms| == |todo| && AllServed(t, w, todo, m, text, rooms)
    ensures var e := DoLookup(w, c);
            && Ready(e, c) && e.users == s.users && e.online == s.online && e.conns == s.conns && AllServed(s, e, todo, m, text, rooms)
  {
    hide RowsFor, Length, Bytes;
    var e := DoLookup(w, c);
    assert e == w.(phases := w.phases[c := Idle]);
    forall i | 0 <= i < |todo| ensures Served(s, e, todo[i], m, text, rooms[i]) { assert Served(t, w, todo[i], m, text, rooms[i]); }
    forall v | v !in todo ensures Spared(s, e, v) { assert Spared(t, w, v); }
  }

  // ---- Connections and restarts ----

  /** A new connection waits for commands, as nobody yet. */
  lemma NewcomerIsReady(steps: seq<Step>)
    ensures var s, t := Run(steps), Run(steps + [Connect]);
            && |t.conns| == |s.conns| + 1 && Ready(t, |s.conns|) && t.conns[|s.conns|].user.None? && t.conns[|s.conns|].nonce.None?
            && t.channels[|s.conns|] == [] && t.users == s.users && t.online == s.online && t.table == s.table
  {
    RunIsReal(steps);
    SameLengths(Run(steps));
    RunNext(steps, Connect);
    hide Run;
  }

  /** A restart ends every connection and empties the online map; accounts and queues stay. */
  lemma RestartKeepsStore(steps: seq<Step>)
    ensures var s, t := Run(steps), Run(steps + [Restart]);
            && t.users == s.users && t.table == s.table && t.channels == s.channels && t.online == map[]
            && |t.conns| == |s.conns| && forall c :: !Live(t, c)
  {
    RunNext(steps, Restart);
    hide Run;
  }
}
