/** One-time prekeys: published by their owner, handed out one per fetch. Rows are never deleted, so
    a row's position stands for its AUTOINCREMENT id. Each operation runs under the database lock. */
module Prekeys {
  import opened Wrappers
  import opened Text
  import opened FetchGate
  import TokenBucket

  const MAX_BATCH := 200
  const MAX_UNUSED := 500
  const MAX_KEY_ID := 64

  datatype Prekey = Prekey(id: string, key: string)

  datatype Row = Row(user: Username, prekey: Prekey, used: bool)

  datatype PubResult = Published | BadRequest | OverCap

  // ---- What the table operations compute ----

  predicate HasKey(rows: seq<Row>, u: Username, id: string) {
    exists r :: r in rows && r.user == u && r.prekey.id == id
  }

  /** A known (user, id) is left alone. */
  function Insert(rows: seq<Row>, u: Username, k: Prekey): seq<Row> {
    if HasKey(rows, u, k.id) then rows else rows + [Row(u, k, false)]
  }

  function InsertAll(rows: seq<Row>, u: Username, batch: seq<Prekey>): seq<Row> {
    if batch == [] then rows else Insert(InsertAll(rows, u, batch[..|batch| - 1]), u, batch[|batch| - 1])
  }

  /** All keys a user ever published, in id order. */
  function KeysOf(rows: seq<Row>, u: Username): seq<Prekey> {
    if rows == [] then []
    else
      var last := rows[|rows| - 1];
      KeysOf(rows[..|rows| - 1], u) + if last.user == u then [last.prekey] else []
  }

  /** Those not handed out yet. */
  function Unused(rows: seq<Row>, u: Username): seq<Prekey> {
    if rows == [] then []
    else
      var last := rows[|rows| - 1];
      Unused(rows[..|rows| - 1], u) + if last.user == u && !last.used then [last.prekey] else []
  }

  /** The position of the lowest unused row of `u`, or `|rows|`. */
  function FirstUnused(rows: seq<Row>, u: Username): (i: nat)
    ensures i <= |rows|
    ensures i < |rows| ==> rows[i].user == u && !rows[i].used
    ensures forall j :: 0 <= j < i ==> !(rows[j].user == u && !rows[j].used)
  {
    if rows == [] then 0
    else
      var n := |rows| - 1;
      var i := FirstUnused(rows[..n], u);
      if i < n then i else if rows[n].user == u && !rows[n].used then n else n + 1
  }

  function Take(rows: seq<Row>, u: Username): (seq<Row>, Option<Prekey>) {
    var i := FirstUnused(rows, u);
    if i < |rows| then (rows[i := rows[i].(used := true)], Some(rows[i].prekey)) else (rows, None)
  }

  predicate WellFormed(k: Prekey) {
    k.id != "" && Bytes(k.id) <= MAX_KEY_ID && ValidPubkey(k.key)
  }

  function Publish(rows: seq<Row>, u: Username, batch: seq<Prekey>): (seq<Row>, PubResult) {
    if |batch| > MAX_BATCH || exists k :: k in batch && !WellFormed(k) then (rows, BadRequest)
    else if |Unused(rows, u)| + |batch| > MAX_UNUSED then (rows, OverCap)
    else (InsertAll(rows, u, batch), Published)
  }

  // ---- The table ----

  class PrekeyTable {
    var rows: seq<Row>

    constructor ()
      ensures rows == []
    {
      rows := [];
    }

    method InsertPrekey(u: Username, k: Prekey)
      modifies this
      ensures rows == Insert(old(rows), u, k)
    {
      for i := 0 to |rows|
        invariant rows == old(rows)
        invariant forall j :: 0 <= j < i ==> !(rows[j].user == u && rows[j].prekey.id == k.id)
      {
        if rows[i].user == u && rows[i].prekey.id == k.id { return; }
      }
      rows := rows + [Row(u, k, false)];
    }

    method CountUnused(u: Username) returns (n: nat)
      ensures n == |Unused(rows, u)|
    {
      n := 0;
      for i := 0 to |rows|
        invariant n == |Unused(rows[..i], u)|
      {
        assert rows[..i + 1][..i] == rows[..i];
        if rows[i].user == u && !rows[i].used { n := n + 1; }
      }
      assert rows[..|rows|] == rows;
    }

    method PublishPrekeys(u: Username, batch: seq<Prekey>) returns (r: PubResult)
      modifies this
      ensures (rows, r) == Publish(old(rows), u, batch)
    {
      if |batch| > MAX_BATCH { return BadRequest; }
      for i := 0 to |batch|
        invariant forall j :: 0 <= j < i ==> WellFormed(batch[j])
        invariant rows == old(rows)
      {
        if !WellFormed(batch[i]) { return BadRequest; }
      }
      var existing := CountUnused(u);
      if existing + |batch| > MAX_UNUSED { return OverCap; }
      for i := 0 to |batch|
        invariant rows == InsertAll(old(rows), u, batch[..i])
      {
        assert batch[..i + 1][..i] == batch[..i];
        InsertPrekey(u, batch[i]);
      }
      assert batch[..|batch|] == batch;
      return Published;
    }

    method TakePrekey(u: Username) returns (k: Option<Prekey>)
      modifies this
      ensures (rows, k) == Take(old(rows), u)
    {
      for i := 0 to |rows|
        invariant rows == old(rows)
        invariant forall j :: 0 <= j < i ==> !(rows[j].user == u && !rows[j].used)
      {
        if rows[i].user == u && !rows[i].used {
          k := Some(rows[i].prekey);
          rows := rows[i := rows[i].(used := true)];
          return;
        }
      }
      return None;
    }
  }

  // ---- What one operation does to the queues ----

  /** Taking pops the head of the user's queue and touches no other queue and no published key. */
  lemma {:induction false} TakePopsOldest(rows: seq<Row>, u: Username, v: Username)
    ensures var (after, k) := Take(rows, u);
            && KeysOf(after, v) == KeysOf(rows, v)
            && Unused(rows, v) == (if v == u && k.Some? then [k.value] else []) + Unused(after, v)
            && (k.None? ==> Unused(rows, u) == [])
  {
    if rows != [] {
      var n := |rows| - 1;
      var front, i := rows[..n], FirstUnused(rows, u);
      TakePopsOldest(front, u, v);
      if i < n {
        assert rows[i := rows[i].(used := true)][..n] == front[i := front[i].(used := true)];
      } else if i == n {
        assert rows[i := rows[i].(used := true)][..n] == front;
      }
    }
  }

  /** No two rows share user and id: the UNIQUE index. */
  predicate UniqueIds(rows: seq<Row>) {
    forall i, j :: 0 <= i < j < |rows| ==> !(rows[i].user == rows[j].user && rows[i].prekey.id == rows[j].prekey.id)
  }

  lemma TakeKeepsIds(rows: seq<Row>, u: Username)
    requires UniqueIds(rows)
    ensures UniqueIds(Take(rows, u).0)
  {
  }

  lemma InsertAppends(rows: seq<Row>, u: Username, k: Prekey, v: Username)
    requires UniqueIds(rows)
    ensures UniqueIds(Insert(rows, u, k))
    ensures var added := if v == u && !HasKey(rows, u, k.id) then [k] else [];
            && KeysOf(Insert(rows, u, k), v) == KeysOf(rows, v) + added
            && Unused(Insert(rows, u, k), v) == Unused(rows, v) + added
  {
    if !HasKey(rows, u, k.id) {
      assert (rows + [Row(u, k, false)])[..|rows|] == rows;
    }
  }

  /** A batch only appends, to its owner's two queues alike and at most its own length. */
  lemma {:induction false} BatchAppends(rows: seq<Row>, u: Username, batch: seq<Prekey>, v: Username) returns (more: seq<Prekey>)
    requires UniqueIds(rows)
    ensures UniqueIds(InsertAll(rows, u, batch))
    ensures KeysOf(InsertAll(rows, u, batch), v) == KeysOf(rows, v) + more
    ensures Unused(InsertAll(rows, u, batch), v) == Unused(rows, v) + more
    ensures |more| <= if v == u then |batch| else 0
  {
    hide KeysOf, Unused, HasKey, UniqueIds, Insert;
    more := [];
    assert KeysOf(rows, v) + more == KeysOf(rows, v) && Unused(rows, v) + more == Unused(rows, v);
    if batch != [] {
      var front := batch[..|batch| - 1];
      more := BatchAppends(rows, u, front, v);
      var between := InsertAll(rows, u, front);
      InsertAppends(between, u, batch[|batch| - 1], v);
      var added := if v == u && !HasKey(between, u, batch[|batch| - 1].id) then [batch[|batch| - 1]] else [];
      assert KeysOf(rows, v) + more + added == KeysOf(rows, v) + (more + added);
      assert Unused(rows, v) + more + added == Unused(rows, v) + (more + added);
      more := more + added;
    }
  }

  lemma {:induction false} KeysComeFromRows(rows: seq<Row>, u: Username)
    ensures forall k :: k in KeysOf(rows, u) <==> Row(u, k, true) in rows || Row(u, k, false) in rows
  {
    if rows != [] {
      var front, last := rows[..|rows| - 1], rows[|rows| - 1];
      KeysComeFromRows(front, u);
      assert rows == front + [last];
      assert forall r :: r in rows <==> r in front || r == last;
    }
  }

  predicate DistinctIds(keys: seq<Prekey>) {
    forall i, j :: 0 <= i < j < |keys| ==> keys[i].id != keys[j].id
  }

  lemma {:induction false} UniqueIdsPerUser(rows: seq<Row>, u: Username)
    requires UniqueIds(rows)
    ensures DistinctIds(KeysOf(rows, u))
  {
    if rows != [] {
      var front, last := rows[..|rows| - 1], rows[|rows| - 1];
      UniqueIdsPerUser(front, u);
      KeysComeFromRows(front, u);
      forall k | k in KeysOf(front, u) && last.user == u ensures k.id != last.prekey.id {
        var row := if Row(u, k, true) in front then Row(u, k, true) else Row(u, k, false);
        assert row in front;
      }
    }
  }

  /** The j-th key of a batch is the first to carry its id. */
  predicate NewId(rows: seq<Row>, u: Username, batch: seq<Prekey>, j: nat)
    requires j < |batch|
  {
    && (forall r :: r in rows && r.user == u ==> r.prekey.id != batch[j].id)
    && forall i :: 0 <= i < j ==> batch[i].id != batch[j].id
  }

  lemma {:induction false} BatchIsStored(rows: seq<Row>, u: Username, batch: seq<Prekey>)
    ensures forall r :: r in rows ==> r in InsertAll(rows, u, batch)
    ensures forall id :: HasKey(InsertAll(rows, u, batch), u, id) ==> HasKey(rows, u, id) || exists k :: k in batch && k.id == id
    ensures forall j: nat :: j < |batch| ==> HasKey(InsertAll(rows, u, batch), u, batch[j].id)
    ensures forall j: nat :: j < |batch| && NewId(rows, u, batch, j) ==> Row(u, batch[j], false) in InsertAll(rows, u, batch)
  {
    if batch != [] {
      var front, last := batch[..|batch| - 1], batch[|batch| - 1];
      BatchIsStored(rows, u, front);
      assert batch == front + [last];
      var between, after := InsertAll(rows, u, front), InsertAll(rows, u, batch);
      assert forall r :: r in between ==> r in after;
      assert forall r :: r in after ==> r in between || r == Row(u, last, false);
      if !HasKey(between, u, last.id) { assert Row(u, last, false) in after; }
      forall j: nat | j < |batch| && NewId(rows, u, batch, j) ensures Row(u, batch[j], false) in after {
        if j < |front| { assert NewId(rows, u, front, j); }
      }
    }
  }

  /** A batch of at most 200 well-formed keys that fits under the cap is stored: each of its keys that is
      the first to carry its id, unused; known ids keep their keys. Any other batch changes nothing. */
  lemma PublishStoresAllOrNothing(rows: seq<Row>, u: Username, batch: seq<Prekey>)
    ensures var (after, r) := Publish(rows, u, batch);
            if |batch| <= 200 && (forall k :: k in batch ==> k.id != "" && Bytes(k.id) <= 64 && ValidPubkey(k.key))
               && |Unused(rows, u)| + |batch| <= 500
            then
              && r == Published && (forall row :: row in rows ==> row in after)
              && (forall j: nat :: j < |batch| ==> exists row :: row in after && row.user == u && row.prekey.id == batch[j].id)
              && (forall j: nat :: j < |batch| && NewId(rows, u, batch, j) ==> Row(u, batch[j], false) in after)
            else r != Published && after == rows
  {
    hide Unused, NewId, Bytes, ValidPubkey;
    BatchIsStored(rows, u, batch);
    forall j: nat | j < |batch| ensures exists row :: row in InsertAll(rows, u, batch) && row.user == u && row.prekey.id == batch[j].id {
      assert HasKey(InsertAll(rows, u, batch), u, batch[j].id);
    }
    hide InsertAll;
  }

  // ---- Runs ----

  /** What reaches the table from any connection: an authenticated publish, or an authenticated fetch
      of `target`, which may not be registered. */
  datatype Step = PublishBy(user: Username, batch: seq<Prekey>) | FetchOf(target: Username, registered: bool, time: real)

  /** `handed` lists the keys given out, oldest first. */
  datatype State = State(rows: seq<Row>, gate: Gate, handed: seq<(Username, Prekey)>)

  const START := State([], map[], [])

  function After(s: State, step: Step): State {
    match step
    case PublishBy(u, batch) => s.(rows := Publish(s.rows, u, batch).0)
    case FetchOf(u, registered, time) =>
      var (gate, granted) := Ask(s.gate, u.text, time);
      if !granted || !registered then s.(gate := gate)
      else
        var (rows, k) := Take(s.rows, u);
        State(rows, gate, s.handed + if k.Some? then [(u, k.value)] else [])
  }

  function Run(steps: seq<Step>): State {
    if steps == [] then START else After(Run(steps[..|steps| - 1]), steps[|steps| - 1])
  }

  function Given(handed: seq<(Username, Prekey)>, u: Username): seq<Prekey> {
    if handed == [] then []
    else
      var last := handed[|handed| - 1];
      Given(handed[..|handed| - 1], u) + if last.0 == u then [last.1] else []
  }

  lemma GivenGrows(handed: seq<(Username, Prekey)>, u: Username, k: Prekey, v: Username)
    ensures Given(handed + [(u, k)], v) == Given(handed, v) + if v == u then [k] else []
  {
    assert (handed + [(u, k)])[..|handed|] == handed;
  }

  /** A fetch that the gate lets through, of a registered user with unused keys, hands over the oldest of them
      and takes it off the queue; any other fetch leaves the table and the record alone. */
  lemma FetchOutcome(s: State, u: Username, registered: bool, time: real)
    ensures var t := After(s, FetchOf(u, registered, time));
            if registered && Ask(s.gate, u.text, time).1 && Unused(s.rows, u) != [] then
              && t.handed == s.handed + [(u, Unused(s.rows, u)[0])]
              && forall v :: Unused(t.rows, v) == if v == u then Unused(s.rows, u)[1..] else Unused(s.rows, v)
            else t.rows == s.rows && t.handed == s.handed
  {
    hide Unused, Ask, FirstUnused, KeysOf;
    var after := Take(s.rows, u).0;
    forall v ensures Take(s.rows, u).1.Some? && v != u ==> Unused(after, v) == Unused(s.rows, v) {
      TakePopsOldest(s.rows, u, v);
      assert [] + Unused(after, v) == Unused(after, v);
    }
    TakePopsOldest(s.rows, u, u);
    assert s.handed + [] == s.handed;
  }

  /** The published keys of a user, in the order of publication, are those handed out followed by
      those still unused, and the ids are distinct. */
  predicate Balanced(s: State, u: Username) {
    && KeysOf(s.rows, u) == Given(s.handed, u) + Unused(s.rows, u)
    && |Unused(s.rows, u)| <= 500
  }

  lemma FetchKeepsBalance(s: State, u: Username, registered: bool, time: real, v: Username)
    requires UniqueIds(s.rows) && Balanced(s, v)
    ensures UniqueIds(After(s, FetchOf(u, registered, time)).rows) && Balanced(After(s, FetchOf(u, registered, time)), v)
  {
    hide Ask, KeysOf, Unused, Given, UniqueIds;
    TakePopsOldest(s.rows, u, v);
    TakeKeepsIds(s.rows, u);
    var k := Take(s.rows, u).1;
    assert s.handed + [] == s.handed;
    if k.Some? {
      GivenGrows(s.handed, u, k.value, v);
      var tail := Unused(Take(s.rows, u).0, v);
      if v == u { assert Given(s.handed, v) + ([k.value] + tail) == (Given(s.handed, v) + [k.value]) + tail; }
    }
  }

  lemma PublishKeepsBalance(s: State, u: Username, batch: seq<Prekey>, v: Username)
    requires UniqueIds(s.rows) && Balanced(s, v)
    ensures UniqueIds(After(s, PublishBy(u, batch)).rows) && Balanced(After(s, PublishBy(u, batch)), v)
  {
    var more := BatchAppends(s.rows, u, batch, v);
    assert (Given(s.handed, v) + Unused(s.rows, v)) + more == Given(s.handed, v) + (Unused(s.rows, v) + more);
  }

  /** After any run: handed-out and unused keys partition the published ones, oldest handed out
      first, and nobody stores more than the cap. */
  lemma {:induction false} HandedOutInOrder(steps: seq<Step>, u: Username)
    ensures UniqueIds(Run(steps).rows) && Balanced(Run(steps), u)
  {
    if steps != [] {
      HandedOutInOrder(steps[..|steps| - 1], u);
      var s := Run(steps[..|steps| - 1]);
      match steps[|steps| - 1] {
        case PublishBy(v, batch) => PublishKeepsBalance(s, v, batch, u);
        case FetchOf(v, registered, time) => FetchKeepsBalance(s, v, registered, time, u);
      }
    }
  }

  /** The cap bounds what is unused, not the table: its rows are at most 500 more than the keys handed out. */
  lemma TableGrowsWithUse(steps: seq<Step>, u: Username)
    ensures var s := Run(steps);
            && |KeysOf(s.rows, u)| == |Given(s.handed, u)| + |Unused(s.rows, u)|
            && |Given(s.handed, u)| <= |KeysOf(s.rows, u)| <= |Given(s.handed, u)| + 500
  {
    HandedOutInOrder(steps, u);
  }

  /** No one-time key is handed out twice, however often it is published again. */
  lemma EachKeyAtMostOnce(steps: seq<Step>, u: Username)
    ensures DistinctIds(Given(Run(steps).handed, u))
  {
    HandedOutInOrder(steps, u);
    UniqueIdsPerUser(Run(steps).rows, u);
    var given, unused := Given(Run(steps).handed, u), Unused(Run(steps).rows, u);
    assert forall i :: 0 <= i < |given| ==> (given + unused)[i] == given[i];
  }

  /** Publishing a key the table already has changes nothing, handed out or not. */
  lemma RepublishingIsIdle(rows: seq<Row>, u: Username, batch: seq<Prekey>)
    requires forall k :: k in batch ==> HasKey(rows, u, k.id)
    ensures InsertAll(rows, u, batch) == rows
  {
  }

  // ---- How large the table gets ----

  /** A well-formed one-time key with an id of its own. */
  function Numbered(i: nat): Prekey
    requires i <= 50_000
  {
    Prekey([(33 + i) as char], seq(44, j => if j < 43 then 'A' else '='))
  }

  /** `n` times, a second apart: the user publishes a new key, and somebody fetches it. */
  function Rounds(u: Username, n: nat): seq<Step>
    requires n <= 50_000
  {
    if n == 0 then []
    else Rounds(u, n - 1) + [PublishBy(u, [Numbered(n - 1)])] + [FetchOf(u, true, n as real)]
  }

  function UsedUp(u: Username, n: nat): seq<Row>
    requires n <= 50_000
  {
    seq(n, i requires 0 <= i < n => Row(u, Numbered(i), true))
  }

  /** The gate after the fetch of second `n`: one token short of full. */
  function GateOf(u: Username, n: nat): Gate {
    if n == 0 then map[] else map[u.text := TokenBucket.Bucket(FETCH_BURST - 1.0, FETCH_RATE, FETCH_BURST, n as real)]
  }

  lemma NumberedIsWellFormed(i: nat)
    requires i <= 50_000
    ensures WellFormed(Numbered(i))
    ensures forall j: nat :: j < i ==> Numbered(j).id != Numbered(i).id
  {
    BytesBetween(Numbered(i).id);
    assert forall j: nat :: j < i ==> Numbered(j).id[0] != Numbered(i).id[0];
  }

  lemma {:induction false} NothingUnused(u: Username, n: nat)
    requires n <= 50_000
    ensures Unused(UsedUp(u, n), u) == [] && |KeysOf(UsedUp(u, n), u)| == n
  {
    if n > 0 {
      NothingUnused(u, n - 1);
      assert UsedUp(u, n)[..n - 1] == UsedUp(u, n - 1);
    }
  }

  lemma GateAllows(u: Username, n: nat)
    ensures Ask(GateOf(u, n), u.text, (n + 1) as real) == (GateOf(u, n + 1), true)
  {
    var gate, now := GateOf(u, n), (n + 1) as real;
    assert |gate| <= 1;
    var b := if u.text in gate then gate[u.text] else NewBucket(now);
    assert TokenBucket.Take(b, now) == (TokenBucket.Bucket(FETCH_BURST - 1.0, FETCH_RATE, FETCH_BURST, now), true);
    assert gate[u.text := TokenBucket.Take(b, now).0] == GateOf(u, n + 1);
  }

  lemma OneRound(u: Username, n: nat, handed: seq<(Username, Prekey)>)
    requires n < 50_000
    ensures var s := State(UsedUp(u, n), GateOf(u, n), handed);
            After(After(s, PublishBy(u, [Numbered(n)])), FetchOf(u, true, (n + 1) as real))
            == State(UsedUp(u, n + 1), GateOf(u, n + 1), handed + [(u, Numbered(n))])
  {
    hide WellFormed, Numbered, Ask, GateOf, Unused;
    var rows, k := UsedUp(u, n), Numbered(n);
    NumberedIsWellFormed(n);
    NothingUnused(u, n);
    GateAllows(u, n);
    assert [k][..0] == [] && InsertAll(rows, u, []) == rows;
    assert Publish(rows, u, [k]) == (rows + [Row(u, k, false)], Published);
    var more := rows + [Row(u, k, false)];
    assert more[..n] == rows && FirstUnused(more, u) == n;
    assert more[n := more[n].(used := true)] == UsedUp(u, n + 1);
  }

  /** The unused cap leaves the table free to grow: after `n` rounds it holds `n` rows of one user. */
  lemma {:induction false} TableOutgrowsTheCap(u: Username, n: nat)
    requires n <= 50_000
    ensures Run(Rounds(u, n)).rows == UsedUp(u, n) && Run(Rounds(u, n)).gate == GateOf(u, n)
    ensures |Run(Rounds(u, n)).rows| == |KeysOf(Run(Rounds(u, n)).rows, u)| == n
  {
    NothingUnused(u, n);
    if n > 0 {
      hide After, UsedUp, GateOf, KeysOf, Numbered;
      var front := Rounds(u, n - 1);
      TableOutgrowsTheCap(u, n - 1);
      var publish, fetch := PublishBy(u, [Numbered(n - 1)]), FetchOf(u, true, n as real);
      assert (front + [publish] + [fetch])[..|front| + 1] == front + [publish];
      assert (front + [publish])[..|front|] == front;
      OneRound(u, n - 1, Run(front).handed);
      assert Run(Rounds(u, n)) == After(After(Run(front), publish), fetch);
    }
  }

  // ---- How fast keys are used up ----

  function FetchesIn(steps: seq<Step>): seq<Request> {
    if steps == [] then []
    else
      var last := steps[|steps| - 1];
      FetchesIn(steps[..|steps| - 1]) + if last.FetchOf? then [Request(last.target.text, last.time)] else []
  }

  lemma {:induction false} GateOfPrefix(requests: seq<Request>, more: seq<Request>, k: nat)
    requires k <= |requests|
    ensures GateAfter(requests + more, k) == GateAfter(requests, k)
  {
    hide Ask;
    if k > 0 { GateOfPrefix(requests, more, k - 1); }
  }

  lemma {:induction false} GrantsToOfPrefix(requests: seq<Request>, more: seq<Request>, target: string, i: nat, j: nat)
    requires i <= j <= |requests|
    ensures GrantsTo(requests + more, target, i, j) == GrantsTo(requests, target, i, j)
    decreases j
  {
    hide Ask;
    if i < j {
      GrantsToOfPrefix(requests, more, target, i, j - 1);
      GateOfPrefix(requests, more, j - 1);
    }
  }

  /** The table's gate is the fetch gate run on the fetches. */
  lemma {:induction false} GateIsFetchGate(steps: seq<Step>)
    ensures Run(steps).gate == GateAfter(FetchesIn(steps), |FetchesIn(steps)|)
  {
    hide Ask, Take, Publish;
    if steps != [] {
      var front, last := steps[..|steps| - 1], steps[|steps| - 1];
      GateIsFetchGate(front);
      assert FetchesIn(front) + [] == FetchesIn(front);
      if last.FetchOf? {
        GateOfPrefix(FetchesIn(front), [Request(last.target.text, last.time)], |FetchesIn(front)|);
      }
    }
  }

  /** Between two moments of a run, a user loses no more keys than the gate let fetches through. */
  lemma {:induction false} UsedUpOnlyByGrants(steps: seq<Step>, u: Username, m: nat)
    requires m <= |steps|
    ensures |FetchesIn(steps[..m])| <= |FetchesIn(steps)|
    ensures |Given(Run(steps).handed, u)|
            <= |Given(Run(steps[..m]).handed, u)|
               + GrantsTo(FetchesIn(steps), u.text, |FetchesIn(steps[..m])|, |FetchesIn(steps)|)
  {
    hide Ask, Take, Publish;
    if m == |steps| {
      assert steps[..m] == steps;
    } else {
      var front, last := steps[..|steps| - 1], steps[|steps| - 1];
      assert front[..m] == steps[..m];
      UsedUpOnlyByGrants(front, u, m);
      assert front + [last] == steps && FetchesIn(front) + [] == FetchesIn(front);
      if last.FetchOf? {
        LastFetch(front, last, u, |FetchesIn(steps[..m])|);
      }
    }
  }

  lemma LastFetch(front: seq<Step>, last: Step, u: Username, from: nat)
    requires last.FetchOf? && from <= |FetchesIn(front)|
    ensures var s, n := Run(front), |FetchesIn(front)|;
            && FetchesIn(front + [last]) == FetchesIn(front) + [Request(last.target.text, last.time)]
            && |Given(After(s, last).handed, u)| - |Given(s.handed, u)|
               <= GrantsTo(FetchesIn(front + [last]), u.text, from, n + 1) - GrantsTo(FetchesIn(front), u.text, from, n)
  {
    hide Ask;
    var s, fetches, r := Run(front), FetchesIn(front), Request(last.target.text, last.time);
    assert (front + [last])[..|front|] == front;
    GateIsFetchGate(front);
    GateOfPrefix(fetches, [r], |fetches|);
    GrantsToOfPrefix(fetches, [r], u.text, from, |fetches|);
    var k := Take(s.rows, last.target).1;
    assert s.handed + [] == s.handed;
    if k.Some? { GivenGrows(s.handed, last.target, k.value, u); }
  }

  /** Over all connections together, the keys of one user handed out in a window number at most
      30 + 4 per second. */
  lemma DrainIsBounded(steps: seq<Step>, u: Username, m: nat, start: real)
    requires m <= |steps| && InOrder(FetchesIn(steps), start) && |FetchesIn(steps[..m])| < |FetchesIn(steps)|
    ensures var fetches := FetchesIn(steps);
            (|Given(Run(steps).handed, u)| - |Given(Run(steps[..m]).handed, u)|) as real
            <= 30.0 + TokenBucket.Allowance(4.0, fetches[|FetchesIn(steps[..m])|].time, fetches[|fetches| - 1].time)
  {
    hide TokenBucket.Allowance;
    UsedUpOnlyByGrants(steps, u, m);
    FetchesOfOneTargetBounded(FetchesIn(steps), u.text, start, |FetchesIn(steps[..m])|, |FetchesIn(steps)|);
  }
}
