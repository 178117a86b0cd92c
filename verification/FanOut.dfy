/** One Send command: the relay routes one message to every listed recipient, live if it can, through
    the offline queue if not. `EachRecipientOnce` shows that recipients do not interfere. */
module FanOut {
  import opened Wrappers
  import opened Text
  import opened Outbox
  import TokenBucket

  const OUTBOUND_CAP := 512
  const MAX_PAYLOAD := 128 * 1024
  const MAX_RECIPIENTS := 1024

  /** What the relay routes with: the channel of each online user, the users whose writer has died,
      the directory, and the offline queue. */
  datatype Net = Net(queues: map<Username, seq<Deliver>>, dead: set<Username>, users: set<Username>, table: Table)

  datatype Outcome = Pushed | Queued | Refused | Unknown

  datatype Reply = Done | NotAuthenticated | RateLimited | BadRequest | UnknownRecipient

  /** The distinct recipients other than the author, in order of first mention. */
  function Recipients(to: seq<Username>, from: Username): seq<Username> {
    if to == [] then []
    else
      var front, last := Recipients(to[..|to| - 1], from), to[|to| - 1];
      if last == from || last in front then front else front + [last]
  }

  predicate CanPush(n: Net, u: Username) {
    u in n.queues && u !in n.dead && |n.queues[u]| < OUTBOUND_CAP
  }

  /** What becomes of a message for `u`. */
  function OutcomeFor(n: Net, u: Username, text: string): Outcome {
    if u !in n.users then Unknown
    else if CanPush(n, u) then Pushed
    else if UnderCap(n.table.rows, u, text, MAX_ROWS, MAX_LENGTH) then Queued
    else Refused
  }

  function Route(n: Net, u: Username, m: Deliver, text: string): Net {
    match OutcomeFor(n, u, text)
    case Pushed => n.(queues := n.queues[u := n.queues[u] + [m]])
    case Queued => n.(table := Append(n.table, u, Frame(text, Some(m)), m.ts))
    case _ => n
  }

  /** The recipients one after the other. */
  function RouteAll(n: Net, rs: seq<Username>, m: Deliver, text: string): Net {
    if rs == [] then n else Route(RouteAll(n, rs[..|rs| - 1], m, text), rs[|rs| - 1], m, text)
  }

  predicate Reached(o: Outcome) {
    o == Pushed || o == Queued
  }

  predicate Distinct(us: seq<Username>) {
    forall i, j :: 0 <= i < j < |us| ==> us[i] != us[j]
  }

  lemma {:induction false} RecipientsAre(to: seq<Username>, from: Username)
    ensures Distinct(Recipients(to, from))
    ensures forall u :: u in Recipients(to, from) <==> u in to && u != from
  {
    if to != [] {
      RecipientsAre(to[..|to| - 1], from);
      assert to == to[..|to| - 1] + [to[|to| - 1]];
    }
  }

  // ---- What a recipient is owed ----

  /** The channel takes a message: the user is online, the writer alive, and fewer than 512 wait. */
  predicate Listening(n: Net, u: Username) {
    u in n.queues && u !in n.dead && |n.queues[u]| < 512
  }

  /** The offline queue takes a frame: fewer than 10,000 rows, and 64 MiB hold the queued characters and
      the frame's bytes. */
  predicate HasRoom(n: Net, u: Username, text: string) {
    |RowsFor(n.table.rows, u)| < 10_000 && Length(RowsFor(n.table.rows, u)) + Bytes(text) <= 64 * 1024 * 1024
  }

  /** From `n` to `after` the recipient got its due: nothing if unknown; live and nowhere else if its channel
      takes the message; one new row of the queue, and nothing live, if that has room; else nothing. */
  predicate GotItsDue(n: Net, after: Net, u: Username, m: Deliver, text: string) {
    if u in n.users && Listening(n, u) then
      && u in after.queues && after.queues[u] == n.queues[u] + [m]
      && RowsFor(after.table.rows, u) == RowsFor(n.table.rows, u)
    else if u in n.users && HasRoom(n, u, text) then
      && (u in after.queues <==> u in n.queues) && (u in n.queues ==> after.queues[u] == n.queues[u])
      && exists id :: n.table.nextId <= id < after.table.nextId
           && RowsFor(after.table.rows, u) == RowsFor(n.table.rows, u) + [Row(id, u, Frame(text, Some(m)), m.ts)]
    else Untouched(n, after, u)
  }

  /** Somebody on the list gets the message, live or queued. */
  predicate SomeoneReached(n: Net, rs: seq<Username>, text: string) {
    exists u :: u in rs && u in n.users && (Listening(n, u) || HasRoom(n, u, text))
  }

  predicate SomeoneUnknown(n: Net, rs: seq<Username>) {
    exists u :: u in rs && u !in n.users
  }

  // ---- Recipients do not interfere ----

  /** Nothing of `u`'s changed: neither channel nor queue. */
  predicate Untouched(n: Net, after: Net, u: Username) {
    && (u in after.queues <==> u in n.queues)
    && (u in n.queues ==> after.queues[u] == n.queues[u])
    && RowsFor(after.table.rows, u) == RowsFor(n.table.rows, u)
  }

  /** `u` got exactly one copy, where `o` says. */
  predicate GotCopy(n: Net, after: Net, u: Username, m: Deliver, text: string, o: Outcome) {
    match o
    case Pushed =>
      && u in n.queues && u in after.queues && after.queues[u] == n.queues[u] + [m]
      && RowsFor(after.table.rows, u) == RowsFor(n.table.rows, u)
    case Queued =>
      && (u in after.queues <==> u in n.queues) && (u in n.queues ==> after.queues[u] == n.queues[u])
      && exists id :: n.table.nextId <= id < after.table.nextId
           && RowsFor(after.table.rows, u) == RowsFor(n.table.rows, u) + [Row(id, u, Frame(text, Some(m)), m.ts)]
    case _ => Untouched(n, after, u)
  }

  lemma RouteTouchesOne(n: Net, u: Username, m: Deliver, text: string, v: Username)
    ensures var after := Route(n, u, m, text);
            && after.dead == n.dead && after.users == n.users && n.table.nextId <= after.table.nextId
            && (v != u ==> Untouched(n, after, v))
            && (v == u ==> GotCopy(n, after, v, m, text, OutcomeFor(n, u, text)))
  {
    hide UnderCap, RowsFor;
    RowsForAppended(n.table.rows, Row(n.table.nextId, u, Frame(text, Some(m)), m.ts), v);
    assert RowsFor(n.table.rows, v) + [] == RowsFor(n.table.rows, v);
  }

  lemma OutcomeIsOwn(n: Net, after: Net, u: Username, text: string)
    requires Untouched(n, after, u) && after.dead == n.dead && after.users == n.users
    ensures OutcomeFor(after, u, text) == OutcomeFor(n, u, text)
  {
  }

  lemma CopyIsDue(n: Net, after: Net, u: Username, m: Deliver, text: string)
    ensures GotCopy(n, after, u, m, text, OutcomeFor(n, u, text)) ==> GotItsDue(n, after, u, m, text)
    ensures OutcomeFor(n, u, text) == Unknown <==> u !in n.users
    ensures Reached(OutcomeFor(n, u, text)) <==> u in n.users && (Listening(n, u) || HasRoom(n, u, text))
  {
    hide RowsFor, Length, Bytes;
  }

  /** Every recipient gets its due, as its own channel and queue alone decide; nobody else is touched. */
  lemma {:induction false} EachRecipientOnce(n: Net, rs: seq<Username>, m: Deliver, text: string, u: Username)
    requires Distinct(rs)
    ensures var after := RouteAll(n, rs, m, text);
            && after.dead == n.dead && after.users == n.users && n.table.nextId <= after.table.nextId
            && (u !in rs ==> Untouched(n, after, u))
            && (u in rs ==> GotCopy(n, after, u, m, text, OutcomeFor(n, u, text)))
            && (u in rs ==> GotItsDue(n, after, u, m, text))
  {
    CopyIsDue(n, RouteAll(n, rs, m, text), u, m, text);
    hide OutcomeFor, Route, GotItsDue;
    if rs != [] {
      var front, last := rs[..|rs| - 1], rs[|rs| - 1];
      var before := RouteAll(n, front, m, text);
      assert rs == front + [last];
      EachRecipientOnce(n, front, m, text, u);
      RouteTouchesOne(before, last, m, text, u);
      if u == last {
        OutcomeIsOwn(n, before, u, text);
      }
    }
  }

  /** The next recipient finds what it would have found first. */
  lemma NextRecipient(n: Net, rs: seq<Username>, m: Deliver, text: string, u: Username)
    requires Distinct(rs) && u !in rs
    ensures OutcomeFor(RouteAll(n, rs, m, text), u, text) == OutcomeFor(n, u, text)
    ensures RouteAll(n, rs + [u], m, text) == Route(RouteAll(n, rs, m, text), u, m, text)
  {
    hide OutcomeFor, Route, Untouched;
    EachRecipientOnce(n, rs, m, text, u);
    OutcomeIsOwn(n, RouteAll(n, rs, m, text), u, text);
    assert (rs + [u])[..|rs|] == rs;
  }

  lemma SomeoneMore(n: Net, rs: seq<Username>, u: Username, text: string)
    ensures SomeoneUnknown(n, rs + [u]) <==> SomeoneUnknown(n, rs) || OutcomeFor(n, u, text) == Unknown
    ensures SomeoneReached(n, rs + [u], text) <==> SomeoneReached(n, rs, text) || Reached(OutcomeFor(n, u, text))
  {
    CopyIsDue(n, n, u, Deliver(0, u, [], Body("", "", None, 0), 0), text);
    hide OutcomeFor, Reached, Listening, HasRoom;
    assert forall v :: v in rs + [u] <==> v in rs || v == u;
  }

  lemma NobodyYet(n: Net, m: Deliver, text: string)
    ensures RouteAll(n, [], m, text) == n && !SomeoneUnknown(n, []) && !SomeoneReached(n, [], text)
  {
  }

  // ---- The handler ----

  class Router {
    const table: OutboxTable
    var queues: map<Username, seq<Deliver>>
    var dead: set<Username>
    var users: set<Username>

    function View(): Net
      reads this, table
    {
      Net(queues, dead, users, table.View())
    }

    constructor (table: OutboxTable)
      ensures this.table == table && queues == map[] && dead == {} && users == {}
    {
      this.table := table;
      queues, dead, users := map[], {}, {};
    }

    /** A bounded channel: full or closed, it refuses. */
    method TrySend(u: Username, m: Deliver) returns (ok: bool)
      requires u in queues
      modifies this`queues
      ensures ok == old(CanPush(View(), u))
      ensures queues == if ok then old(queues)[u := old(queues)[u] + [m]] else old(queues)
    {
      ok := u !in dead && |queues[u]| < OUTBOUND_CAP;
      if ok { queues := queues[u := queues[u] + [m]]; }
    }

    /** One recipient: look up, push, fall back on the queue. */
    method RouteOne(u: Username, m: Deliver, text: string) returns (known: bool, delivered: bool)
      modifies this`queues, table
      ensures View() == Route(old(View()), u, m, text)
      ensures GotItsDue(old(View()), View(), u, m, text) && forall v :: v != u ==> Untouched(old(View()), View(), v)
      ensures known == (u in old(users))
      ensures delivered == (u in old(users) && (Listening(old(View()), u) || HasRoom(old(View()), u, text)))
      ensures known == (OutcomeFor(old(View()), u, text) != Unknown)
      ensures delivered == Reached(OutcomeFor(old(View()), u, text))
    {
      hide UnderCap, GotItsDue, Untouched, Listening, HasRoom, GotCopy;
      ghost var n := View();
      CopyIsDue(n, Route(n, u, m, text), u, m, text);
      forall v ensures v == u ==> GotCopy(n, Route(n, u, m, text), v, m, text, OutcomeFor(n, u, text))
               ensures v != u ==> Untouched(n, Route(n, u, m, text), v)
      {
        RouteTouchesOne(n, u, m, text, v);
      }
      var online := u in queues;
      if u !in users { return false, false; }
      if online {
        var ok := TrySend(u, m);
        if ok { return true, true; }
      }
      delivered := table.EnqueueIfUnderCap(u, Frame(text, Some(m)), m.ts, MAX_ROWS, MAX_LENGTH);
      return true, delivered;
    }

    /** The recipients of one message, each once. */
    method RouteToAll(to: seq<Username>, from: Username, m: Deliver, text: string) returns (deliveredAny: bool, hadUnknown: bool)
      modifies this`queues, table
      ensures View() == RouteAll(old(View()), Recipients(to, from), m, text)
      ensures forall u :: if u in to && u != from then GotItsDue(old(View()), View(), u, m, text)
                          else Untouched(old(View()), View(), u)
      ensures deliveredAny <==> SomeoneReached(old(View()), Recipients(to, from), text)
      ensures hadUnknown <==> SomeoneUnknown(old(View()), Recipients(to, from))
    {
      hide UnderCap, Route, RouteAll, OutcomeFor, SomeoneReached, SomeoneUnknown, GotItsDue, Untouched, Listening, HasRoom, GotCopy;
      NobodyYet(View(), m, text);
      deliveredAny, hadUnknown := false, false;
      var seen: set<Username> := {};
      ghost var n, rs := View(), Recipients([], from);
      for i := 0 to |to|
        invariant seen == set u | u in to[..i]
        invariant rs == Recipients(to[..i], from)
        invariant View() == RouteAll(n, rs, m, text)
        invariant deliveredAny <==> SomeoneReached(n, rs, text)
        invariant hadUnknown <==> SomeoneUnknown(n, rs)
      {
        var u := to[i];
        assert to[..i + 1][..i] == to[..i];
        RecipientsAre(to[..i], from);
        if u in seen { continue; }
        seen := seen + {u};
        if u == from { continue; }
        NextRecipient(n, rs, m, text, u);
        SomeoneMore(n, rs, u, text);
        var known, delivered := RouteOne(u, m, text);
        rs := rs + [u];
        if !known {
          hadUnknown := true;
          continue;
        }
        deliveredAny := deliveredAny || delivered;
      }
      assert to[..|to|] == to;
      RecipientsAre(to, from);
      forall u ensures if u in to && u != from then GotItsDue(n, View(), u, m, text) else Untouched(n, View(), u) {
        EachRecipientOnce(n, rs, m, text, u);
      }
    }

    /** The Send command. `text` is the serialised message, built once and shared by all queued copies. */
    method Send(authed: Option<Username>, limiter: TokenBucket.RateLimiter, now: real, to: seq<Username>, body: Body,
                send: int, ts: int, text: string)
      returns (reply: Reply)
      modifies this`queues, table, limiter
      ensures authed.None? ==> reply == NotAuthenticated && limiter.View() == old(limiter.View())
      ensures authed.Some? ==> limiter.View() == TokenBucket.Take(old(limiter.View()), now).0
      ensures reply == NotAuthenticated <==> authed.None?
      ensures reply == RateLimited <==> authed.Some? && !TokenBucket.Take(old(limiter.View()), now).1
      ensures reply == BadRequest ==> Bytes(body.payload) > MAX_PAYLOAD || |to| > MAX_RECIPIENTS
      ensures reply == NotAuthenticated || reply == RateLimited || reply == BadRequest ==> View() == old(View())
      ensures reply == Done || reply == UnknownRecipient ==>
                && Bytes(body.payload) <= MAX_PAYLOAD && |to| <= MAX_RECIPIENTS && authed.Some?
                && View() == RouteAll(old(View()), Recipients(to, authed.value), Deliver(send, authed.value, to, body, ts), text)
      ensures reply == Done || reply == UnknownRecipient ==>
                forall u :: if u in to && u != authed.value
                            then GotItsDue(old(View()), View(), u, Deliver(send, authed.value, to, body, ts), text)
                            else Untouched(old(View()), View(), u)
      ensures reply == Done || reply == UnknownRecipient ==>
                (reply == UnknownRecipient
                 <==> (exists u :: u in to && u != authed.value && u !in old(users))
                      && (forall u :: u in to && u != authed.value && u in old(users) ==>
                            !Listening(old(View()), u) && !HasRoom(old(View()), u, text)))
    {
      hide UnderCap, Route, RouteAll, TokenBucket.Take, OutcomeFor, Bytes, Recipients, GotItsDue, Untouched, Listening, HasRoom;
      if authed.None? { return NotAuthenticated; }
      var from := authed.value;
      var allowed := limiter.Allow(now);
      if !allowed { return RateLimited; }
      if Bytes(body.payload) > MAX_PAYLOAD { return BadRequest; }
      if |to| > MAX_RECIPIENTS { return BadRequest; }
      var deliveredAny, hadUnknown := RouteToAll(to, from, Deliver(send, from, to, body, ts), text);
      RecipientsAre(to, from);
      reply := if !deliveredAny && hadUnknown then UnknownRecipient else Done;
    }
  }
}
