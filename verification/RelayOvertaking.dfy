/** A run in which a live message overtakes a queued one: presence is published before the backlog is
    flushed, so what arrives in between goes ahead of what was waiting. */
module RelayOvertaking {
  import opened Wrappers
  import opened Text
  import opened Outbox
  import opened FanOut
  import opened Relay
  import opened RelaySequence

  const ALICE := Username("a")
  const BOB := Username("b")

  const NOTHING := Body("", "", None, 0)

  /** A well-formed key for each of the two. */
  function KeyFor(c: char): string {
    seq(44, i => if i == 0 then c else if i < 43 then 'A' else '=')
  }

  const PEOPLE := map[ALICE := KeyFor('A'), BOB := KeyFor('B')]

  function Message(k: int): Deliver {
    Deliver(k, ALICE, [BOB], NOTHING, 0)
  }

  function Queued(): Row {
    Row(1, BOB, Frame("", Some(Message(0))), 0)
  }

  /** Alice is online; Bob has registered and is about to appear. */
  const MEETING := BOOT.(
    users := PEOPLE, founders := map[ALICE := 0, BOB := 1], online := map[ALICE := 0],
    conns := [Conn(true, Some(ALICE), Registered, None), Conn(true, Some(BOB), Registered, None)],
    phases := [Idle, Entering], channels := [[], []], logins := [Login(ALICE, 0)])

  /** Alice's first message is in Bob's queue. */
  const WAITING := MEETING.(
    table := Table([Queued()], 2), accepted := [Queued()],
    sends := [Sent(0, Message(0))], routed := [Routed(0, BOB, Outcome.Queued)])

  /** Bob has appeared, and Alice's second message is in his channel. */
  const OVERTAKEN := WAITING.(
    online := map[ALICE := 0, BOB := 1], logins := [Login(ALICE, 0), Login(BOB, 1)],
    phases := [Idle, FlushDue], channels := [[], [Message(1)]],
    sends := [Sent(0, Message(0)), Sent(0, Message(1))],
    routed := [Routed(0, BOB, Outcome.Queued), Routed(1, BOB, Pushed)])

  function Meet(): seq<Step> {
    [Connect, Register(0, ALICE, KeyFor('A'), KeyFor('A')), Enter(0), FlushRead(0), Connect,
     Register(1, BOB, KeyFor('B'), KeyFor('B'))]
  }

  function Say(): seq<Step> {
    [Send(0, [BOB], NOTHING, 0, ""), Lookup(0), Push(0, true), Lookup(0)]
  }

  function Flush(): seq<Step> {
    [FlushRead(1), FlushSend(1, true)]
  }

  lemma RunStep(steps: seq<Step>, x: Step)
    ensures Run(steps + [x]) == Next(Run(steps), x)
  {
    hide Next;
    assert (steps + [x])[..|steps|] == steps;
  }

  lemma PeopleAreProper()
    ensures ValidUsername(ALICE) && !Reserved(ALICE) && ValidUsername(BOB) && !Reserved(BOB) && ALICE != BOB
    ensures ValidPubkey(KeyFor('A')) && ValidPubkey(KeyFor('B')) && KeyFor('A') != KeyFor('B')
  {
    assert KeyFor('A')[0] != KeyFor('B')[0];
    assert ALICE.text != BOB.text;
    assert Reserved(ALICE) ==> |ALICE.text| == 6;
    assert Reserved(BOB) ==> |BOB.text| == 6;
  }

  lemma EmptyQueue(u: Username)
    ensures RowsFor([], u) == [] && Length([]) == 0
  {
  }

  lemma AliceRegisters()
    ensures var s := DoRegister(DoConnect(BOOT), 0, ALICE, KeyFor('A'), KeyFor('A'));
            DoFlushRead(DoEnter(s, 0), 0)
            == BOOT.(users := map[ALICE := KeyFor('A')], founders := map[ALICE := 0], online := map[ALICE := 0],
                     conns := [Conn(true, Some(ALICE), Registered, None)], phases := [Idle], channels := [[]],
                     logins := [Login(ALICE, 0)])
  {
    PeopleAreProper();
    EmptyQueue(ALICE);
    hide ValidUsername, Reserved, ValidPubkey, KeyFor, RowsFor;
    var s := DoRegister(DoConnect(BOOT), 0, ALICE, KeyFor('A'), KeyFor('A'));
    assert s == BOOT.(users := map[ALICE := KeyFor('A')], founders := map[ALICE := 0],
                      conns := [Conn(true, Some(ALICE), Registered, None)], phases := [Entering], channels := [[]]);
  }

  lemma BobRegisters(s: State)
    requires s == BOOT.(users := map[ALICE := KeyFor('A')], founders := map[ALICE := 0], online := map[ALICE := 0],
                        conns := [Conn(true, Some(ALICE), Registered, None)], phases := [Idle], channels := [[]],
                        logins := [Login(ALICE, 0)])
    ensures DoRegister(DoConnect(s), 1, BOB, KeyFor('B'), KeyFor('B')) == MEETING
  {
    PeopleAreProper();
    hide ValidUsername, Reserved, ValidPubkey, KeyFor;
    assert forall v :: v in s.users ==> s.users[v] == KeyFor('A');
  }

  lemma MeetRuns()
    ensures Run(Meet()) == MEETING
  {
    hide DoConnect, DoRegister, DoEnter, DoFlushRead, KeyFor, Run;
    var m := Meet();
    var p1 := [] + [m[0]];
    var p2 := p1 + [m[1]];
    var p3 := p2 + [m[2]];
    var p4 := p3 + [m[3]];
    var p5 := p4 + [m[4]];
    RunNothing();
    RunStep([], m[0]);
    RunStep(p1, m[1]);
    RunStep(p2, m[2]);
    RunStep(p3, m[3]);
    RunStep(p4, m[4]);
    RunStep(p5, m[5]);
    assert p5 + [m[5]] == m;
    AliceRegisters();
    BobRegisters(Run(p4));
  }

  lemma RunNothing()
    ensures Run([]) == BOOT
  {
  }

  /** Bob is looked up before he appears: the message goes to his queue. */
  lemma FirstIsQueued()
    ensures DoLookup(DoPush(DoLookup(DoSend(MEETING, 0, [BOB], NOTHING, 0, ""), 0), 0, true), 0) == WAITING
  {
    OneRecipient();
    hide KeyFor, Recipients, RowsFor, Length;
    var s := DoSend(MEETING, 0, [BOB], NOTHING, 0, "");
    assert s == MEETING.(sends := [Sent(0, Message(0))], phases := [Sending(Message(0), "", [BOB]), Entering]);
    var t := DoLookup(s, 0);
    assert t == s.(phases := [Pushing(Message(0), "", [BOB], None), Entering]);
    FirstPushQueues(s, t);
    hide DoPush, DoSend;
  }

  lemma FirstPushQueues(s: State, t: State)
    requires s == MEETING.(sends := [Sent(0, Message(0))], phases := [Sending(Message(0), "", [BOB]), Entering])
    requires t == s.(phases := [Pushing(Message(0), "", [BOB], None), Entering])
    ensures DoPush(t, 0, true) == WAITING.(phases := [Sending(Message(0), "", []), Entering])
  {
    hide KeyFor, Recipients, RowsFor, Length, UnderCap;
    assert UnderCap(t.table.rows, BOB, "", MAX_ROWS, MAX_LENGTH) by { EmptyHasRoom(); }
    assert [BOB][1..] == [];
  }

  lemma EmptyHasRoom()
    ensures UnderCap([], BOB, "", MAX_ROWS, MAX_LENGTH)
  {
  }

  /** Bob appears, and Alice's next message finds his channel. */
  lemma SecondIsPushed()
    ensures DoLookup(DoPush(DoLookup(DoSend(DoEnter(WAITING, 1), 0, [BOB], NOTHING, 0, ""), 0), 0, true), 0) == OVERTAKEN
  {
    OneRecipient();
    hide KeyFor, Recipients, UnderCap;
    var e := DoEnter(WAITING, 1);
    assert e == WAITING.(online := map[ALICE := 0, BOB := 1], logins := [Login(ALICE, 0), Login(BOB, 1)], phases := [Idle, FlushDue]);
    var s := DoSend(e, 0, [BOB], NOTHING, 0, "");
    assert s == e.(sends := [Sent(0, Message(0)), Sent(0, Message(1))], phases := [Sending(Message(1), "", [BOB]), FlushDue]);
    hide DoEnter, DoSend;
    var t := DoLookup(s, 0);
    assert t == s.(phases := [Pushing(Message(1), "", [BOB], Some(1)), FlushDue]);
    SecondPushDelivers(s, t);
    hide DoPush;
  }

  lemma SecondPushDelivers(s: State, t: State)
    requires s == OVERTAKEN.(phases := [Sending(Message(1), "", [BOB]), FlushDue], channels := [[], []],
                             routed := [Routed(0, BOB, Outcome.Queued)])
    requires t == s.(phases := [Pushing(Message(1), "", [BOB], Some(1)), FlushDue])
    ensures DoPush(t, 0, true) == OVERTAKEN.(phases := [Sending(Message(1), "", []), FlushDue])
  {
    hide KeyFor, UnderCap;
    var p := DoPush(t, 0, true);
    assert [BOB][1..] == [] && [] + [Message(1)] == [Message(1)];
    assert p.channels == [[], [Message(1)]];
    assert p.routed == OVERTAKEN.routed;
  }

  /** The backlog follows. */
  lemma BacklogFollows()
    ensures DoFlushSend(DoFlushRead(OVERTAKEN, 1), 1, true).channels == [[], [Message(1), Message(0)]]
  {
    RowsForAppended([], Queued(), BOB);
    assert [] + [Queued()] == [Queued()] && RowsFor([], BOB) == [];
    hide KeyFor, RowsFor, Length, Size;
    var s := DoFlushRead(OVERTAKEN, 1);
    assert s == OVERTAKEN.(phases := [Idle, Flushing([Queued()], 0, false)]);
    assert s.channels[1] + [Message(0)] == [Message(1), Message(0)];
    assert DoFlushSend(s, 1, true).channels == s.channels[1 := [Message(1), Message(0)]];
  }

  lemma OneRecipient()
    ensures Recipients([BOB], ALICE) == [BOB]
  {
    assert [BOB][..0] == [] && ALICE.text != BOB.text;
  }

  function Story(): seq<Step> {
    Meet() + Say() + [Enter(1)] + Say() + Flush()
  }

  lemma SayRuns(steps: seq<Step>)
    ensures Run(steps + Say())
            == DoLookup(DoPush(DoLookup(DoSend(Run(steps), 0, [BOB], NOTHING, 0, ""), 0), 0, true), 0)
  {
    hide DoSend, DoLookup, DoPush, Run;
    var m := Say();
    var p1 := steps + [m[0]];
    var p2 := p1 + [m[1]];
    var p3 := p2 + [m[2]];
    RunStep(steps, m[0]);
    RunStep(p1, m[1]);
    RunStep(p2, m[2]);
    RunStep(p3, m[3]);
    assert p3 + [m[3]] == steps + m;
  }

  lemma ReversedIsDisorder(s: State)
    requires s.sends == [Sent(0, Message(0)), Sent(0, Message(1))] && s.channels == [[], [Message(1), Message(0)]]
    ensures !InSendOrder(s, 0, 1)
  {
    assert ChannelOf(s, 1)[0] == Message(1) && ChannelOf(s, 1)[1] == Message(0);
  }

  lemma FlushKeepsSends(s: State, c: int)
    ensures DoFlushSend(DoFlushRead(s, c), c, true).sends == s.sends
  {
    hide RowsFor;
  }

  /** Alice sends two messages, the first before Bob appears and the second between his appearing and
      the flush of his queue: in his channel the second comes first. */
  lemma LiveOvertakesQueued()
    ensures var s := Run(Story());
            && s.sends == [Sent(0, Message(0)), Sent(0, Message(1))]
            && s.channels == [[], [Message(1), Message(0)]]
            && !InSendOrder(s, 0, 1)
  {
    hide InSendOrder, DoEnter, DoSend, DoLookup, DoPush, Run, Say, Meet;
    var a := Meet() + Say();
    var b := a + [Enter(1)];
    var c := b + Say();
    var d := c + [FlushRead(1)];
    MeetRuns();
    SayRuns(Meet());
    FirstIsQueued();
    RunStep(a, Enter(1));
    SayRuns(b);
    SecondIsPushed();
    RunStep(c, FlushRead(1));
    RunStep(d, FlushSend(1, true));
    assert d + [FlushSend(1, true)] == Story();
    BacklogFollows();
    FlushKeepsSends(OVERTAKEN, 1);
    assert !InSendOrder(Run(Story()), 0, 1) by { ReversedIsDisorder(Run(Story())); }
  }
}
