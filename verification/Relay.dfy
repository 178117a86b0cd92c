/** The relay as a transition system. Many connection tasks share the directory, the offline queue and
    the map of online users; each section that runs under a lock, and each push onto a channel, is one
    atomic step, and steps of different connections interleave freely.

    Signatures are symbolic: what verifies under a key over a nonce is `Sign(key, nonce)`. Nonces are
    numbered in the order they are drawn, so that no two are equal. */
module Relay {
  import opened Wrappers
  import opened Text
  import opened Outbox
  import opened FanOut

  datatype Signature = Sign(key: string, nonce: int)

  /** How a connection came to its identity. */
  datatype Proof = Unproved | Registered | Signed(signature: Signature)

  /** Where a connection's task stands. `Entering`: authenticated, not in the online map yet.
      `Flushing`: the first `handled` rows of the snapshot are done; `stopped`: a send failed.
      `Pushing`: the channel of `todo[0]` has been looked up. */
  datatype Phase =
    | Idle
    | Entering
    | FlushDue
    | Flushing(snapshot: seq<Row>, handled: int, stopped: bool)
    | Sending(msg: Deliver, text: string, todo: seq<Username>)
    | Pushing(msg: Deliver, text: string, todo: seq<Username>, target: Option<int>)

  datatype Conn = Conn(open: bool, user: Option<Username>, proof: Proof, nonce: Option<int>)

  datatype Sent = Sent(conn: int, msg: Deliver)
  datatype Routed = Routed(send: int, to: Username, outcome: Outcome)
  datatype Hand = Hand(row: Row, conn: int)
  datatype Expiry = Expiry(row: Row, cutoff: int)
  datatype Login = Login(user: Username, conn: int)

  /** Of connection `c` the server holds its state `conns[c]`, the stand of its task `phases[c]`, and its
      channel; `channels[c]` is everything ever pushed there. Below the line is history the server does
      not keep: who founded each account, on which connection each nonce was issued, the Send commands
      and what became of each recipient, the rows ever queued, handed to a channel, or pruned, and the logins. */
  datatype State = State(
    users: map<Username, string>,
    table: Table,
    online: map<Username, int>,
    conns: seq<Conn>,
    phases: seq<Phase>,
    channels: seq<seq<Deliver>>,
    // ---
    founders: map<Username, int>,
    issued: seq<int>,
    sends: seq<Sent>,
    routed: seq<Routed>,
    accepted: seq<Row>,
    handed: seq<Hand>,
    pruned: seq<Expiry>,
    logins: seq<Login>)

  const BOOT := State(map[], Table([], 1), map[], [], [], [], map[], [], [], [], [], [], [], [])

  datatype Step =
    | Connect
    | AuthBegin(conn: int)
    | Register(conn: int, user: Username, key: string, curve: string)
    | AuthFinish(conn: int, user: Username, signature: Signature)
    | Enter(conn: int)
    | FlushRead(conn: int)
    | FlushSend(conn: int, ok: bool)
    | FlushDelete(conn: int)
    | Pull(conn: int)
    | Send(conn: int, to: seq<Username>, body: Body, ts: int, text: string)
    | Lookup(conn: int)
    | Push(conn: int, room: bool)
    | Prune(cutoff: int)
    | Cleanup(conn: int)
    | Restart

  // ---- Names ----

  predicate ValidUsername(u: Username) {
    0 < |u.text| <= 16 && forall i :: 0 <= i < |u.text| ==> Alphanumeric(u.text[i])
  }

  function Lower(c: char): char {
    if 'A' <= c <= 'Z' then c + 'a' - 'A' else c
  }

  function Lowered(text: string): string {
    seq(|text|, i requires 0 <= i < |text| => Lower(text[i]))
  }

  predicate Reserved(u: Username) {
    Lowered(u.text) in {"system", "server"}
  }

  // ---- Connections ----

  predicate Live(s: State, c: int) {
    |s.conns| == |s.phases| == |s.channels| && 0 <= c < |s.conns| && s.conns[c].open
  }

  /** The connection waits for its next command. */
  predicate Ready(s: State, c: int) {
    Live(s, c) && s.phases[c].Idle?
  }

  function DoConnect(s: State): State {
    s.(conns := s.conns + [Conn(true, None, Unproved, None)], phases := s.phases + [Idle], channels := s.channels + [[]])
  }

  function DoAuthBegin(s: State, c: int): State {
    if !Ready(s, c) then s
    else s.(issued := s.issued + [c], conns := s.conns[c := s.conns[c].(nonce := Some(|s.issued|))])
  }

  function DoRegister(s: State, c: int, u: Username, key: string, curve: string): State {
    if !Ready(s, c) || s.conns[c].user.Some? then s
    else if Reserved(u) || !ValidUsername(u) || !ValidPubkey(key) || !ValidPubkey(curve) then s
    else if u in s.users || key in s.users.Values then s
    else s.(users := s.users[u := key], founders := s.founders[u := c],
            conns := s.conns[c := s.conns[c].(user := Some(u), proof := Registered)], phases := s.phases[c := Entering])
  }

  /** The pending nonce is spent whether or not the signature is right. */
  function DoAuthFinish(s: State, c: int, u: Username, signature: Signature): State {
    if !Ready(s, c) || s.conns[c].user.Some? || s.conns[c].nonce.None? then s
    else if u in s.users && signature == Sign(s.users[u], s.conns[c].nonce.value)
    then s.(conns := s.conns[c := s.conns[c].(user := Some(u), proof := Signed(signature), nonce := None)],
            phases := s.phases[c := Entering])
    else s.(conns := s.conns[c := s.conns[c].(nonce := None)])
  }

  function DoEnter(s: State, c: int): State {
    if !Live(s, c) || !s.phases[c].Entering? || s.conns[c].user.None? then s
    else
      var u := s.conns[c].user.value;
      s.(online := s.online[u := c], logins := s.logins + [Login(u, c)], phases := s.phases[c := FlushDue])
  }

  // ---- Flushing: read, send row by row, delete ----

  function DoPull(s: State, c: int): State {
    if !Ready(s, c) || s.conns[c].user.None? then s else s.(phases := s.phases[c := FlushDue])
  }

  function DoFlushRead(s: State, c: int): State {
    if !Live(s, c) || !s.phases[c].FlushDue? || s.conns[c].user.None? then s
    else
      var rows := RowsFor(s.table.rows, s.conns[c].user.value);
      s.(phases := s.phases[c := if rows == [] then Idle else Flushing(rows, 0, false)])
  }

  predicate AtRow(s: State, c: int) {
    && Live(s, c) && s.phases[c].Flushing? && !s.phases[c].stopped
    && 0 <= s.phases[c].handled < |s.phases[c].snapshot|
  }

  /** `ok`: the connection's own channel takes the message. */
  function DoFlushSend(s: State, c: int, ok: bool): State {
    if !AtRow(s, c) then s
    else
      var p := s.phases[c];
      var row := p.snapshot[p.handled];
      if row.frame.msg.None? then s.(phases := s.phases[c := p.(handled := p.handled + 1)])
      else if !ok then s.(phases := s.phases[c := p.(stopped := true)])
      else s.(handed := s.handed + [Hand(row, c)], phases := s.phases[c := p.(handled := p.handled + 1)],
              channels := s.channels[c := s.channels[c] + [row.frame.msg.value]])
  }

  predicate FlushOver(s: State, c: int) {
    && Live(s, c) && s.phases[c].Flushing? && 0 <= s.phases[c].handled <= |s.phases[c].snapshot|
    && (s.phases[c].stopped || s.phases[c].handled == |s.phases[c].snapshot|)
  }

  function DoFlushDelete(s: State, c: int): State {
    if !FlushOver(s, c) then s
    else
      var p := s.phases[c];
      s.(table := s.table.(rows := Without(s.table.rows, Ids(p.snapshot[..p.handled]))), phases := s.phases[c := Idle])
  }

  // ---- Sending: recipient by recipient, lookup then push ----

  function DoSend(s: State, c: int, to: seq<Username>, body: Body, ts: int, text: string): State {
    if !Ready(s, c) || s.conns[c].user.None? || Bytes(body.payload) > MAX_PAYLOAD || |to| > MAX_RECIPIENTS then s
    else
      var from := s.conns[c].user.value;
      var m := Deliver(|s.sends|, from, to, body, ts);
      s.(sends := s.sends + [Sent(c, m)], phases := s.phases[c := Sending(m, text, Recipients(to, from))])
  }

  function DoLookup(s: State, c: int): State {
    if !Live(s, c) || !s.phases[c].Sending? then s
    else
      var p := s.phases[c];
      if p.todo == [] then s.(phases := s.phases[c := Idle])
      else if p.todo[0] !in s.users
      then s.(phases := s.phases[c := Sending(p.msg, p.text, p.todo[1..])], routed := s.routed + [Routed(p.msg.send, p.todo[0], Unknown)])
      else
        var target := if p.todo[0] in s.online then Some(s.online[p.todo[0]]) else None;
        s.(phases := s.phases[c := Pushing(p.msg, p.text, p.todo, target)])
  }

  predicate AtPush(s: State, c: int) {
    Live(s, c) && s.phases[c].Pushing? && s.phases[c].todo != []
  }

  predicate ToChannel(s: State, c: int, room: bool)
    requires AtPush(s, c)
  {
    room && s.phases[c].target.Some? && 0 <= s.phases[c].target.value < |s.channels|
  }

  /** `room`: the channel that was looked up, if any, takes the message. */
  function DoPush(s: State, c: int, room: bool): State {
    if !AtPush(s, c) then s
    else
      var p := s.phases[c];
      var phases := s.phases[c := Sending(p.msg, p.text, p.todo[1..])];
      if ToChannel(s, c, room) then
        var d := p.target.value;
        s.(channels := s.channels[d := s.channels[d] + [p.msg]], phases := phases,
           routed := s.routed + [Routed(p.msg.send, p.todo[0], Pushed)])
      else if UnderCap(s.table.rows, p.todo[0], p.text, MAX_ROWS, MAX_LENGTH) then
        var frame := Frame(p.text, Some(p.msg));
        s.(table := Append(s.table, p.todo[0], frame, p.msg.ts),
           accepted := s.accepted + [Row(s.table.nextId, p.todo[0], frame, p.msg.ts)], phases := phases,
           routed := s.routed + [Routed(p.msg.send, p.todo[0], Queued)])
      else s.(phases := phases, routed := s.routed + [Routed(p.msg.send, p.todo[0], Refused)])
  }

  // ---- Housekeeping ----

  function Expired(rows: seq<Row>, cutoff: int): seq<Expiry> {
    if rows == [] then []
    else
      var last := rows[|rows| - 1];
      Expired(rows[..|rows| - 1], cutoff) + if last.ts < cutoff then [Expiry(last, cutoff)] else []
  }

  function DoPrune(s: State, cutoff: int): State {
    s.(table := s.table.(rows := Since(s.table.rows, cutoff)), pruned := s.pruned + Expired(s.table.rows, cutoff))
  }

  /** A connection removes its own entry from the online map, never another's. */
  function DoCleanup(s: State, c: int): State {
    if !Ready(s, c) then s
    else
      var u := s.conns[c].user;
      s.(online := if u.Some? && u.value in s.online && s.online[u.value] == c then s.online - {u.value} else s.online,
         conns := s.conns[c := s.conns[c].(open := false)])
  }

  /** The process ends and starts again: every task and the online map are gone, the database stays. */
  function DoRestart(s: State): State {
    s.(online := map[], conns := seq(|s.conns|, i requires 0 <= i < |s.conns| => s.conns[i].(open := false)),
       phases := seq(|s.phases|, i requires 0 <= i < |s.phases| => Idle))
  }

  /** A step that is not enabled does nothing. */
  function Next(s: State, step: Step): State {
    match step
    case Connect => DoConnect(s)
    case AuthBegin(c) => DoAuthBegin(s, c)
    case Register(c, u, key, curve) => DoRegister(s, c, u, key, curve)
    case AuthFinish(c, u, signature) => DoAuthFinish(s, c, u, signature)
    case Enter(c) => DoEnter(s, c)
    case FlushRead(c) => DoFlushRead(s, c)
    case FlushSend(c, ok) => DoFlushSend(s, c, ok)
    case FlushDelete(c) => DoFlushDelete(s, c)
    case Pull(c) => DoPull(s, c)
    case Send(c, to, body, ts, text) => DoSend(s, c, to, body, ts, text)
    case Lookup(c) => DoLookup(s, c)
    case Push(c, room) => DoPush(s, c, room)
    case Prune(cutoff) => DoPrune(s, cutoff)
    case Cleanup(c) => DoCleanup(s, c)
    case Restart => DoRestart(s)
  }

  function Run(steps: seq<Step>): State {
    if steps == [] then BOOT else Next(Run(steps[..|steps| - 1]), steps[|steps| - 1])
  }
}
