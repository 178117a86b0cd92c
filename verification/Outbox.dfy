/** The relay's offline queue: one table of frames, ids that only grow, and the per-recipient caps.
    Each operation runs under the database lock. */
module Outbox {
  import opened Wrappers
  import opened Text

  const MAX_ROWS := 10_000
  const MAX_LENGTH := 64 * 1024 * 1024

  /** The longest text the relay ever queues, in bytes: what came in a frame of at most 16 MiB, with the
      author and the time added. */
  const MAX_STORED := 16 * 1024 * 1024 + 1024

  /** Everything of a message that the relay copies without looking at it. */
  datatype Body = Body(kind: string, payload: string, group: Option<string>, clientTs: int)

  /** A relayed message; `send` numbers the Send command it comes from. The number is bookkeeping of
      the model: no operation looks at it. */
  datatype Deliver = Deliver(send: int, from: Username, to: seq<Username>, body: Body, ts: int)

  /** A stored frame: its text, and the message it parses to, if any. */
  datatype Frame = Frame(text: string, msg: Option<Deliver>)

  datatype Row = Row(id: int, recipient: Username, frame: Frame, ts: int)

  datatype Table = Table(rows: seq<Row>, nextId: int)

  // ---- What the statements compute ----

  /** The rows queued for `u`, oldest first. */
  function RowsFor(rows: seq<Row>, u: Username): seq<Row> {
    if rows == [] then []
    else
      var last := rows[|rows| - 1];
      RowsFor(rows[..|rows| - 1], u) + if last.recipient == u then [last] else []
  }

  /** SQLite's `length` of a text, summed: characters. */
  function Length(rows: seq<Row>): nat {
    if rows == [] then 0 else Length(rows[..|rows| - 1]) + |rows[|rows| - 1].frame.text|
  }

  /** Bytes, summed. */
  function Size(rows: seq<Row>): nat {
    if rows == [] then 0 else Size(rows[..|rows| - 1]) + Bytes(rows[|rows| - 1].frame.text)
  }

  /** Room for one more frame under both caps; the new frame is measured in bytes, the queued ones in
      characters. */
  predicate UnderCap(rows: seq<Row>, u: Username, text: string, capRows: int, capBytes: int) {
    |RowsFor(rows, u)| < capRows && Length(RowsFor(rows, u)) + Bytes(text) <= capBytes
  }

  function Append(t: Table, u: Username, frame: Frame, ts: int): Table {
    Table(t.rows + [Row(t.nextId, u, frame, ts)], t.nextId + 1)
  }

  function Enqueue(t: Table, u: Username, frame: Frame, ts: int, capRows: int, capBytes: int): Table {
    if UnderCap(t.rows, u, frame.text, capRows, capBytes) then Append(t, u, frame, ts) else t
  }

  predicate Listed(ids: seq<int>, id: int) {
    id in ids
  }

  /** The rows whose id is not listed. */
  function Without(rows: seq<Row>, ids: seq<int>): seq<Row> {
    if rows == [] then []
    else
      var last := rows[|rows| - 1];
      Without(rows[..|rows| - 1], ids) + if Listed(ids, last.id) then [] else [last]
  }

  /** The rows not older than the cutoff. */
  function Since(rows: seq<Row>, cutoff: int): seq<Row> {
    if rows == [] then []
    else
      var last := rows[|rows| - 1];
      Since(rows[..|rows| - 1], cutoff) + if last.ts < cutoff then [] else [last]
  }

  function Ids(rows: seq<Row>): seq<int> {
    seq(|rows|, i requires 0 <= i < |rows| => rows[i].id)
  }

  lemma LastOrEarlier(rows: seq<Row>)
    requires rows != []
    ensures forall r :: r in rows <==> r in rows[..|rows| - 1] || r == rows[|rows| - 1]
  {
    assert rows == rows[..|rows| - 1] + [rows[|rows| - 1]];
  }

  lemma {:induction false} RowsForMembers(rows: seq<Row>, u: Username)
    ensures forall r :: r in RowsFor(rows, u) <==> r in rows && r.recipient == u
  {
    if rows != [] {
      LastOrEarlier(rows);
      RowsForMembers(rows[..|rows| - 1], u);
    }
  }

  lemma {:induction false} WithoutMembers(rows: seq<Row>, ids: seq<int>)
    ensures forall r :: r in Without(rows, ids) <==> r in rows && !Listed(ids, r.id)
  {
    if rows != [] {
      LastOrEarlier(rows);
      WithoutMembers(rows[..|rows| - 1], ids);
    }
  }

  lemma {:induction false} SinceMembers(rows: seq<Row>, cutoff: int)
    ensures forall r :: r in Since(rows, cutoff) <==> r in rows && r.ts >= cutoff
  {
    if rows != [] {
      LastOrEarlier(rows);
      SinceMembers(rows[..|rows| - 1], cutoff);
    }
  }

  // ---- A flush, row by row ----

  /** The messages of the rows that parse. */
  function Parsed(rows: seq<Row>): seq<Deliver> {
    if rows == [] then []
    else
      var last := rows[|rows| - 1];
      Parsed(rows[..|rows| - 1]) + if last.frame.msg.Some? then [last.frame.msg.value] else []
  }

  /** Rows are handled in order until a send fails: after `room` sends the connection is gone. */
  predicate Handles(rows: seq<Row>, room: nat, k: nat) {
    && k <= |rows| && |Parsed(rows[..k])| <= room
    && (k < |rows| ==> rows[k].frame.msg.Some? && |Parsed(rows[..k])| == room)
  }

  lemma {:induction false} ParsedGrows(rows: seq<Row>, j: nat, k: nat)
    requires j <= k <= |rows|
    ensures |Parsed(rows[..j])| <= |Parsed(rows[..k])|
    ensures j < k && rows[j].frame.msg.Some? ==> |Parsed(rows[..j])| < |Parsed(rows[..k])|
    decreases k
  {
    if j < k {
      assert rows[..k][..k - 1] == rows[..k - 1];
      ParsedGrows(rows, j, k - 1);
    }
  }

  /** A flush has one outcome. */
  lemma HandlesOnce(rows: seq<Row>, room: nat, j: nat, k: nat)
    requires Handles(rows, room, j) && Handles(rows, room, k)
    ensures j == k
  {
    if j < k { ParsedGrows(rows, j, k); }
    if k < j { ParsedGrows(rows, k, j); }
  }

  class OutboxTable {
    var rows: seq<Row>
    var nextId: int

    function View(): Table
      reads this
    {
      Table(rows, nextId)
    }

    constructor ()
      ensures View() == Table([], 1)
    {
      rows, nextId := [], 1;
    }

    method EnqueueIfUnderCap(u: Username, frame: Frame, ts: int, capRows: int, capBytes: int) returns (accepted: bool)
      modifies this
      ensures View() == Enqueue(old(View()), u, frame, ts, capRows, capBytes)
      ensures accepted == UnderCap(old(rows), u, frame.text, capRows, capBytes)
    {
      if |RowsFor(rows, u)| >= capRows { return false; }
      if Length(RowsFor(rows, u)) + Bytes(frame.text) > capBytes { return false; }
      rows := rows + [Row(nextId, u, frame, ts)];
      nextId := nextId + 1;
      return true;
    }

    /** One DELETE per id. */
    method DeleteFrames(ids: seq<int>)
      modifies this`rows
      ensures rows == Without(old(rows), ids)
    {
      WithoutNone(rows);
      for i := 0 to |ids|
        invariant rows == Without(old(rows), ids[..i])
      {
        WithoutOneMore(old(rows), ids, i);
        rows := Without(rows, [ids[i]]);
      }
      assert ids[..|ids|] == ids;
    }

    /** One pass over the table: what is older than the cutoff goes, everything else stays in its place. */
    method PruneExpired(cutoff: int) returns (removed: nat)
      modifies this`rows
      ensures forall r :: r in rows <==> r in old(rows) && r.ts >= cutoff
      ensures rows == Since(old(rows), cutoff) && removed == |old(rows)| - |rows|
      ensures InOrder(old(rows)) ==> InOrder(rows)
    {
      var kept: seq<Row> := [];
      removed := 0;
      for i := 0 to |rows|
        invariant rows == old(rows) && kept == Since(rows[..i], cutoff) && removed == i - |kept|
      {
        assert rows[..i + 1][..i] == rows[..i];
        if rows[i].ts < cutoff {
          removed := removed + 1;
        } else {
          kept := kept + [rows[i]];
        }
      }
      assert rows[..|rows|] == rows;
      SinceMembers(rows, cutoff);
      if InOrder(rows) { DeletionKeepsOrder(rows, [], cutoff); }
      rows := kept;
    }

    /** Send the backlog of `u` until a send fails, then delete exactly what was handled; rows that do
        not parse are dropped. */
    method FlushOutbox(u: Username, room: nat) returns (sent: seq<Deliver>)
      modifies this`rows
      ensures exists k: nat :: Handles(old(RowsFor(rows, u)), room, k)
                 && sent == Parsed(old(RowsFor(rows, u))[..k])
                 && rows == Without(old(rows), Ids(old(RowsFor(rows, u))[..k]))
    {
      var pending := RowsFor(rows, u);
      sent := [];
      var delivered: seq<int>, k: nat := [], 0;
      while k < |pending|
        invariant k <= |pending| && rows == old(rows)
        invariant sent == Parsed(pending[..k]) && |sent| <= room
        invariant delivered == Ids(pending[..k])
      {
        assert pending[..k + 1][..k] == pending[..k];
        if pending[k].frame.msg.Some? {
          if |sent| == room { break; }
          sent := sent + [pending[k].frame.msg.value];
        }
        delivered := delivered + [pending[k].id];
        k := k + 1;
      }
      assert Handles(pending, room, k);
      if delivered == [] {
        WithoutNone(rows);
        return;
      }
      DeleteFrames(delivered);
    }
  }

  lemma {:induction false} WithoutNone(rows: seq<Row>)
    ensures Without(rows, []) == rows
  {
    if rows != [] {
      WithoutNone(rows[..|rows| - 1]);
      assert rows == rows[..|rows| - 1] + [rows[|rows| - 1]];
    }
  }

  lemma {:induction false} WithoutOneMore(rows: seq<Row>, ids: seq<int>, i: nat)
    requires i < |ids|
    ensures Without(Without(rows, ids[..i]), [ids[i]]) == Without(rows, ids[..i + 1])
  {
    if rows != [] {
      var front, last := rows[..|rows| - 1], rows[|rows| - 1];
      WithoutOneMore(front, ids, i);
      assert ids[..i + 1] == ids[..i] + [ids[i]];
      var kept := Without(front, ids[..i]);
      assert (kept + [last])[..|kept|] == kept && kept + [] == kept;
    }
  }

  // ---- Order ----

  /** A subsequence by ids: `part` lists some rows of `rows`, in the same order. */
  predicate InOrder(rows: seq<Row>) {
    forall i, j :: 0 <= i < j < |rows| ==> rows[i].id < rows[j].id
  }

  /** What a reader sees of one recipient's queue is in id order, hence in order of arrival. */
  lemma {:induction false} RowsForInOrder(rows: seq<Row>, u: Username)
    requires InOrder(rows)
    ensures InOrder(RowsFor(rows, u))
  {
    if rows != [] {
      var front, last := rows[..|rows| - 1], rows[|rows| - 1];
      RowsForInOrder(front, u);
      RowsForMembers(front, u);
    }
  }

  lemma {:induction false} DeletionKeepsOrder(rows: seq<Row>, ids: seq<int>, cutoff: int)
    requires InOrder(rows)
    ensures InOrder(Without(rows, ids)) && InOrder(Since(rows, cutoff))
  {
    if rows != [] {
      var front, last := rows[..|rows| - 1], rows[|rows| - 1];
      DeletionKeepsOrder(front, ids, cutoff);
      WithoutMembers(front, ids);
      SinceMembers(front, cutoff);
    }
  }

  lemma {:induction false} RowsForCommutes(rows: seq<Row>, ids: seq<int>, u: Username)
    ensures RowsFor(Without(rows, ids), u) == Without(RowsFor(rows, u), ids)
  {
    if rows != [] {
      var front, last := rows[..|rows| - 1], rows[|rows| - 1];
      RowsForCommutes(front, ids, u);
      var kept, mine := Without(front, ids), RowsFor(front, u);
      assert (kept + [last])[..|kept|] == kept && (mine + [last])[..|mine|] == mine;
      assert kept + [] == kept && mine + [] == mine;
      assert RowsFor(kept, u) + [] == RowsFor(kept, u) && Without(mine, ids) + [] == Without(mine, ids);
    }
  }

  lemma {:induction false} WithoutPrefix(mine: seq<Row>, ids: seq<int>, k: nat)
    requires k <= |mine| && forall i :: 0 <= i < |mine| ==> (Listed(ids, mine[i].id) <==> i < k)
    ensures Without(mine, ids) == mine[k..]
  {
    hide Listed;
    if k < |mine| {
      var front := mine[..|mine| - 1];
      WithoutPrefix(front, ids, k);
      assert front[k..] + [mine[|mine| - 1]] == mine[k..];
    } else if mine != [] {
      WithoutPrefix(mine[..|mine| - 1], ids, k - 1);
    }
  }

  lemma PrefixListed(mine: seq<Row>, k: nat, r: Row)
    requires InOrder(mine) && k <= |mine|
    ensures Listed(Ids(mine[..k]), r.id) ==> exists i :: 0 <= i < k && mine[i].id == r.id
    ensures forall i :: 0 <= i < |mine| && mine[i] == r ==> (Listed(Ids(mine[..k]), r.id) <==> i < k)
  {
    var ids := Ids(mine[..k]);
    assert forall i :: 0 <= i < k ==> ids[i] == mine[i].id;
  }

  /** Deleting the first k rows of one recipient's queue leaves the rest of it, and every other queue. */
  lemma FlushTakesPrefix(rows: seq<Row>, u: Username, k: nat, v: Username)
    requires InOrder(rows) && k <= |RowsFor(rows, u)|
    ensures RowsFor(Without(rows, Ids(RowsFor(rows, u)[..k])), v)
            == if v == u then RowsFor(rows, u)[k..] else RowsFor(rows, v)
  {
    hide Listed, RowsFor, Ids;
    var mine, his := RowsFor(rows, u), RowsFor(rows, v);
    var ids := Ids(mine[..k]);
    RowsForCommutes(rows, ids, v);
    RowsForInOrder(rows, u);
    forall i | 0 <= i < |his| ensures Listed(ids, his[i].id) <==> v == u && i < k {
      PrefixListed(mine, k, his[i]);
      if v != u && Listed(ids, his[i].id) { OtherQueue(rows, u, v, his[i]); }
    }
    WithoutPrefix(his, ids, if v == u then k else 0);
  }

  /** No row of one recipient has the id of a row of another. */
  lemma OtherQueue(rows: seq<Row>, u: Username, v: Username, r: Row)
    requires InOrder(rows) && u != v && r in RowsFor(rows, v)
    ensures forall q :: q in RowsFor(rows, u) ==> q.id != r.id
  {
    RowsForMembers(rows, u);
    RowsForMembers(rows, v);
    forall q | q in RowsFor(rows, u) && q.id == r.id ensures false { SameId(rows, r, q); }
  }

  lemma SameId(rows: seq<Row>, r: Row, q: Row)
    requires InOrder(rows) && r in rows && q in rows && r.id == q.id
    ensures r == q
  {
    var i :| 0 <= i < |rows| && rows[i] == r;
    var j :| 0 <= j < |rows| && rows[j] == q;
  }

  // ---- Quotas ----

  predicate WithinQuota(rows: seq<Row>, u: Username) {
    |RowsFor(rows, u)| <= 10_000 && Length(RowsFor(rows, u)) <= 64 * 1024 * 1024
  }

  lemma RowsForAppended(rows: seq<Row>, r: Row, u: Username)
    ensures RowsFor(rows + [r], u) == RowsFor(rows, u) + if r.recipient == u then [r] else []
    ensures Length(RowsFor(rows + [r], u)) == Length(RowsFor(rows, u)) + if r.recipient == u then |r.frame.text| else 0
    ensures Size(RowsFor(rows + [r], u)) == Size(RowsFor(rows, u)) + if r.recipient == u then Bytes(r.frame.text) else 0
  {
    assert (rows + [r])[..|rows|] == rows;
    var mine := RowsFor(rows, u);
    assert (mine + [r])[..|mine|] == mine;
    assert mine + [] == mine;
  }

  lemma EnqueueKeepsQuota(t: Table, u: Username, frame: Frame, ts: int, v: Username)
    requires WithinQuota(t.rows, v)
    ensures WithinQuota(Enqueue(t, u, frame, ts, MAX_ROWS, MAX_LENGTH).rows, v)
  {
    RowsForAppended(t.rows, Row(t.nextId, u, frame, ts), v);
    BytesBetween(frame.text);
  }

  lemma {:induction false} DeletionKeepsQuota(rows: seq<Row>, ids: seq<int>, cutoff: int, u: Username)
    ensures |RowsFor(Without(rows, ids), u)| <= |RowsFor(rows, u)|
    ensures Length(RowsFor(Without(rows, ids), u)) <= Length(RowsFor(rows, u))
    ensures |RowsFor(Since(rows, cutoff), u)| <= |RowsFor(rows, u)|
    ensures Length(RowsFor(Since(rows, cutoff), u)) <= Length(RowsFor(rows, u))
  {
    if rows != [] {
      var front, last := rows[..|rows| - 1], rows[|rows| - 1];
      DeletionKeepsQuota(front, ids, cutoff, u);
      assert rows == front + [last];
      RowsForAppended(front, last, u);
      RowsForAppended(Without(front, ids), last, u);
      RowsForAppended(Since(front, cutoff), last, u);
      assert Without(front, ids) + [] == Without(front, ids) && Since(front, cutoff) + [] == Since(front, cutoff);
      hide RowsFor, Length, Size;
    }
  }

  /** The quota in bytes: at most four times the quota in characters, since the table counts
      characters. */
  lemma {:induction false} SizeAtMostFourLengths(rows: seq<Row>)
    ensures Length(rows) <= Size(rows) <= 4 * Length(rows)
  {
    if rows != [] {
      SizeAtMostFourLengths(rows[..|rows| - 1]);
      BytesBetween(rows[|rows| - 1].frame.text);
    }
  }

  lemma {:induction false} SizeIsLengthIffAscii(rows: seq<Row>)
    ensures Size(rows) == Length(rows) <==> forall r :: r in rows ==> Ascii(r.frame.text)
  {
    if rows != [] {
      var front, last := rows[..|rows| - 1], rows[|rows| - 1];
      SizeIsLengthIffAscii(front);
      SizeAtMostFourLengths(front);
      BytesBetween(last.frame.text);
      assert rows == front + [last];
      assert forall r :: r in rows <==> r in front || r == last;
    }
  }

  /** An accepted frame keeps the recipient's queue within `cap` bytes. */
  ghost predicate KeepsByteBudget(t: Table, u: Username, frame: Frame, capRows: int, cap: int) {
    UnderCap(t.rows, u, frame.text, capRows, cap) ==> Size(RowsFor(Append(t, u, frame, 0).rows, u)) <= cap
  }

  /** `n` plain characters: as many bytes. */
  function Plain(n: nat): (text: string)
    ensures |text| == n && Ascii(text)
  {
    if n == 0 then "" else Plain(n - 1) + ['a']
  }

  /** At any one cap: every further frame keeps a queue that is not full within the cap in bytes, if and
      only if all its queued frames are ASCII. One other character, and the frame that fills the
      counted room overruns the cap. */
  lemma ByteCapHoldsIffAscii(t: Table, u: Username, capRows: int, cap: int)
    requires |RowsFor(t.rows, u)| < capRows && Length(RowsFor(t.rows, u)) <= cap
    ensures (forall frame :: KeepsByteBudget(t, u, frame, capRows, cap))
            <==> (forall r :: r in RowsFor(t.rows, u) ==> Ascii(r.frame.text))
  {
    var mine := RowsFor(t.rows, u);
    SizeIsLengthIffAscii(mine);
    SizeAtMostFourLengths(mine);
    forall frame ensures KeepsByteBudget(t, u, frame, capRows, cap)
                         <==> (Length(mine) + Bytes(frame.text) <= cap ==> Size(mine) + Bytes(frame.text) <= cap)
    {
      RowsForAppended(t.rows, Row(t.nextId, u, frame, 0), u);
    }
    var fill := Plain(cap - Length(mine));
    BytesBetween(fill);
    if Size(mine) != Length(mine) {
      assert !KeepsByteBudget(t, u, Frame(fill, None), capRows, cap);
    }
  }

  /** For frames of at most `limit` bytes: the budget is kept exactly if the largest frame that is still
      accepted fits beside the bytes already queued. */
  lemma BoundedFramesFitIff(t: Table, u: Username, capRows: int, cap: int, limit: nat)
    requires |RowsFor(t.rows, u)| < capRows && Length(RowsFor(t.rows, u)) <= cap
    ensures (forall frame: Frame :: Bytes(frame.text) <= limit ==> KeepsByteBudget(t, u, frame, capRows, cap))
            <==> var room := cap - Length(RowsFor(t.rows, u));
                 Size(RowsFor(t.rows, u)) + (if limit < room then limit else room) <= cap
  {
    var mine := RowsFor(t.rows, u);
    var room := cap - Length(mine);
    forall frame ensures KeepsByteBudget(t, u, frame, capRows, cap)
                         <==> (Length(mine) + Bytes(frame.text) <= cap ==> Size(mine) + Bytes(frame.text) <= cap)
    {
      RowsForAppended(t.rows, Row(t.nextId, u, frame, 0), u);
    }
    var fill := Plain(if limit < room then limit else room);
    BytesBetween(fill);
    assert Bytes(Frame(fill, None).text) <= limit;
  }

  /** The relay's own caps and frames: a queue below 10,000 rows stays within 64 MiB whatever is accepted
      next if and only if the largest frame still accepted fits beside its bytes; and once the counted
      room is no more than one frame, if and only if it holds nothing but ASCII. */
  lemma RelayByteCapHoldsIff(t: Table, u: Username)
    requires WithinQuota(t.rows, u) && |RowsFor(t.rows, u)| < MAX_ROWS
    ensures var room := MAX_LENGTH - Length(RowsFor(t.rows, u));
            && ((forall frame: Frame :: Bytes(frame.text) <= MAX_STORED ==> KeepsByteBudget(t, u, frame, MAX_ROWS, MAX_LENGTH))
                <==> Size(RowsFor(t.rows, u)) + (if MAX_STORED < room then MAX_STORED else room) <= MAX_LENGTH)
            && (room <= MAX_STORED ==>
                  ((forall frame: Frame :: Bytes(frame.text) <= MAX_STORED ==> KeepsByteBudget(t, u, frame, MAX_ROWS, MAX_LENGTH))
                   <==> (forall r :: r in RowsFor(t.rows, u) ==> Ascii(r.frame.text))))
  {
    BoundedFramesFitIff(t, u, MAX_ROWS, MAX_LENGTH, MAX_STORED);
    SizeIsLengthIffAscii(RowsFor(t.rows, u));
    SizeAtMostFourLengths(RowsFor(t.rows, u));
  }

  // ---- How far the bytes can get ----

  /** The table after `k` attempts to queue the same frame for `u`, from empty. */
  function Filled(u: Username, frame: Frame, k: nat): Table {
    if k == 0 then Table([], 1) else Enqueue(Filled(u, frame, k - 1), u, frame, 0, MAX_ROWS, MAX_LENGTH)
  }

  lemma OneMoreCopy(t: Table, u: Username, frame: Frame)
    requires |RowsFor(t.rows, u)| < MAX_ROWS && Length(RowsFor(t.rows, u)) + Bytes(frame.text) <= MAX_LENGTH
    ensures var mine, more := RowsFor(t.rows, u), RowsFor(Enqueue(t, u, frame, 0, MAX_ROWS, MAX_LENGTH).rows, u);
            && |more| == |mine| + 1 && Length(more) == Length(mine) + |frame.text| && Size(more) == Size(mine) + Bytes(frame.text)
  {
    RowsForAppended(t.rows, Row(t.nextId, u, frame, 0), u);
    hide RowsFor, Length, Size, Bytes;
  }

  lemma OneMoreTime(k: nat, n: nat)
    requires k > 0
    ensures (k - 1) * n + n == k * n
  {
  }

  /** As long as the characters queued and the bytes of the next frame fit, every copy is accepted. */
  lemma {:induction false} CopiesAreAccepted(u: Username, frame: Frame, k: nat)
    requires k <= MAX_ROWS && (k > 0 ==> (k - 1) * |frame.text| + Bytes(frame.text) <= MAX_LENGTH)
    ensures var mine := RowsFor(Filled(u, frame, k).rows, u);
            |mine| == k && Length(mine) == k * |frame.text| && Size(mine) == k * Bytes(frame.text)
  {
    if k > 0 {
      hide RowsFor, Length, Size, Bytes, Enqueue;
      var t := Filled(u, frame, k - 1);
      var chars, bytes := |frame.text|, Bytes(frame.text);
      OneMoreTime(k, chars);
      OneMoreTime(k, bytes);
      if k > 1 { OneMoreTime(k - 1, chars); }
      CopiesAreAccepted(u, frame, k - 1);
      OneMoreCopy(t, u, frame);
    } else {
      assert RowsFor([], u) == [] && Length([]) == 0 && Size([]) == 0;
    }
  }

  /** `n` characters of four bytes each. */
  function Wide(n: nat): (text: string)
    ensures |text| == n && Bytes(text) == 4 * n
  {
    if n == 0 then ""
    else
      var text := Wide(n - 1) + ['\U{1F600}'];
      assert text[..|text| - 1] == Wide(n - 1);
      text
  }

  /** From an empty queue, 61 frames of 4 MiB each, a quarter of what the relay takes, are all accepted:
      244 MiB under the budget of 64. */
  lemma ByteCapOverrun(u: Username)
    ensures var frame := Frame(Wide(1024 * 1024), None);
            var t := Filled(u, frame, 61);
            && Bytes(frame.text) <= MAX_STORED
            && |RowsFor(t.rows, u)| == 61 && WithinQuota(t.rows, u)
            && Size(RowsFor(t.rows, u)) == 244 * 1024 * 1024
  {
    hide RowsFor, Length, Size, Bytes, Wide, Filled;
    CopiesAreAccepted(u, Frame(Wide(1024 * 1024), None), 61);
  }
}
