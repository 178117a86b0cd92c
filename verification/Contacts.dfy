/** Trust on first use: a contact's Ed25519 key is pinned when it is first seen and never replaced. */
module Contacts {
  import opened Wrappers
  import opened Text

  /** The key columns may be NULL in rows that older versions wrote. */
  datatype Contact = Contact(uuid: string, ed: Option<string>, curve: Option<string>)

  type Book = map<Username, Contact>

  datatype Bundle = Bundle(uuid: string, ed: string, curve: string)

  datatype IdentityCheck = FirstContact | Match | Conflict

  /** The pinned key, if one is pinned; an empty key is none. */
  function Pinned(book: Book, u: Username): Option<string> {
    if u in book && book[u].ed.Some? && book[u].ed.value != "" then book[u].ed else None
  }

  function Check(book: Book, u: Username, ed: string): IdentityCheck {
    match Pinned(book, u)
    case None => FirstContact
    case Some(e) => if e == ed then Match else Conflict
  }

  /** Insert, or update column by column: the uuid always, the keys only where the pin allows. */
  function Upsert(book: Book, u: Username, b: Bundle): Book {
    if u !in book then book[u := Contact(b.uuid, Some(b.ed), Some(b.curve))]
    else
      var row := book[u];
      var blank := row.ed.None? || row.ed == Some("");
      book[u := Contact(b.uuid,
                        if blank then Some(b.ed) else row.ed,
                        if blank || row.ed == Some(b.ed) then Some(b.curve) else row.curve)]
  }

  class ContactBook {
    var contacts: Book

    constructor ()
      ensures contacts == map[]
    {
      contacts := map[];
    }

    method CheckIdentity(u: Username, ed: string) returns (c: IdentityCheck)
      ensures c == Check(contacts, u, ed)
    {
      if u !in contacts || contacts[u].ed.None? { return FirstContact; }
      if contacts[u].ed.value == "" { return FirstContact; }
      if contacts[u].ed.value == ed { return Match; }
      return Conflict;
    }

    method UpsertContact(u: Username, b: Bundle)
      modifies this
      ensures contacts == Upsert(old(contacts), u, b)
    {
      if u !in contacts {
        contacts := contacts[u := Contact(b.uuid, Some(b.ed), Some(b.curve))];
      } else {
        var row := contacts[u];
        var blank := row.ed.None? || row.ed.value == "";
        var fits := blank || row.ed.value == b.ed;
        contacts := contacts[u := Contact(b.uuid, if blank then Some(b.ed) else row.ed, if fits then Some(b.curve) else row.curve)];
      }
    }

    /** A bundle from the server is accepted if both keys are well formed and the identity key is not in
        conflict with the pin; otherwise nothing is stored. */
    method AcceptIdentity(u: Username, b: Bundle) returns (accepted: bool)
      modifies this
      ensures accepted <==> ValidPubkey(b.ed) && ValidPubkey(b.curve)
                            && (old(Pinned(contacts, u)).None? || old(Pinned(contacts, u)) == Some(b.ed))
      ensures accepted ==> contacts == old(contacts)[u := Contact(b.uuid, Some(b.ed), Some(b.curve))]
      ensures !accepted ==> contacts == old(contacts)
      ensures contacts == Accept(old(contacts), u, b).0 && accepted == Accept(old(contacts), u, b).1
    {
      if !ValidPubkey(b.ed) || !ValidPubkey(b.curve) { return false; }
      var c := CheckIdentity(u, b.ed);
      if c == Conflict { return false; }
      UpsertContact(u, b);
      return true;
    }
  }

  function Accept(book: Book, u: Username, b: Bundle): (Book, bool) {
    if !ValidPubkey(b.ed) || !ValidPubkey(b.curve) || Check(book, u, b.ed) == Conflict then (book, false)
    else (Upsert(book, u, b), true)
  }

  // ---- Any sequence of calls, on any book ----

  datatype Call = Upserted(user: Username, bundle: Bundle) | Accepted(user: Username, bundle: Bundle)

  function Apply(book: Book, call: Call): Book {
    match call
    case Upserted(u, b) => Upsert(book, u, b)
    case Accepted(u, b) => Accept(book, u, b).0
  }

  function Run(book: Book, calls: seq<Call>): Book {
    if calls == [] then book else Apply(Run(book, calls[..|calls| - 1]), calls[|calls| - 1])
  }

  function CurveOf(book: Book, u: Username): Option<string> {
    if u in book then book[u].curve else None
  }

  /** What one call can do to the record of `u`. */
  lemma CallRespectsPin(book: Book, call: Call, u: Username)
    ensures Pinned(book, u).Some? ==> Pinned(Apply(book, call), u) == Pinned(book, u)
    ensures Pinned(book, u).Some? && CurveOf(Apply(book, call), u) != CurveOf(book, u) ==>
              call.user == u && Pinned(book, u) == Some(call.bundle.ed) && CurveOf(Apply(book, call), u) == Some(call.bundle.curve)
    ensures call.Accepted? && Accept(book, call.user, call.bundle).1 ==>
              var after := Apply(book, call);
              Pinned(after, call.user) == Some(call.bundle.ed) && CurveOf(after, call.user) == Some(call.bundle.curve)
  {
  }

  /** A pinned key stays pinned through any calls, and whatever session key is stored afterwards was
      stored before or came in a call that presented the pinned key. */
  lemma {:induction false} PinIsForever(book: Book, calls: seq<Call>, u: Username)
    requires Pinned(book, u).Some?
    ensures Pinned(Run(book, calls), u) == Pinned(book, u)
    ensures CurveOf(Run(book, calls), u) == CurveOf(book, u)
            || exists i :: 0 <= i < |calls| && calls[i].user == u && Some(calls[i].bundle.ed) == Pinned(book, u)
                           && CurveOf(Run(book, calls), u) == Some(calls[i].bundle.curve)
  {
    if calls != [] {
      var front, last := calls[..|calls| - 1], calls[|calls| - 1];
      PinIsForever(book, front, u);
      CallRespectsPin(Run(book, front), last, u);
      if CurveOf(Run(book, calls), u) != CurveOf(Run(book, front), u) {
        assert calls[|calls| - 1] == last;
      } else if CurveOf(Run(book, front), u) != CurveOf(book, u) {
        var i :| 0 <= i < |front| && front[i].user == u && Some(front[i].bundle.ed) == Pinned(book, u)
                 && CurveOf(Run(book, front), u) == Some(front[i].bundle.curve);
        assert calls[i] == front[i];
      }
    }
  }

  lemma {:induction false} RunSplits(book: Book, calls: seq<Call>, k: nat)
    requires k <= |calls|
    ensures Run(book, calls) == Run(Run(book, calls[..k]), calls[k..])
    decreases |calls|
  {
    if k < |calls| {
      RunSplits(book, calls[..|calls| - 1], k);
      assert calls[..|calls| - 1][..k] == calls[..k];
      assert calls[k..][..|calls| - k - 1] == calls[..|calls| - 1][k..];
    } else {
      assert calls[..k] == calls;
    }
  }

  /** Of all the bundles ever accepted for one user, no two carry different identity keys. */
  lemma AcceptedKeysAgree(book: Book, calls: seq<Call>, i: nat, j: nat)
    requires i < j < |calls| && calls[i].Accepted? && calls[j].Accepted? && calls[i].user == calls[j].user
    requires Accept(Run(book, calls[..i]), calls[i].user, calls[i].bundle).1
    requires Accept(Run(book, calls[..j]), calls[j].user, calls[j].bundle).1
    ensures calls[i].bundle.ed == calls[j].bundle.ed
  {
    hide Accept, Apply, Upsert;
    var before := Run(book, calls[..i]);
    assert calls[..i + 1][..i] == calls[..i];
    CallRespectsPin(before, calls[i], calls[i].user);
    assert calls[..j][..i + 1] == calls[..i + 1];
    RunSplits(book, calls[..j], i + 1);
    PinIsForever(Run(book, calls[..i + 1]), calls[..j][i + 1..], calls[i].user);
    AcceptMeansNoConflict(Run(book, calls[..j]), calls[j].user, calls[j].bundle);
  }

  lemma AcceptMeansNoConflict(book: Book, u: Username, b: Bundle)
    requires Accept(book, u, b).1
    ensures Pinned(book, u).None? || Pinned(book, u) == Some(b.ed)
  {
  }
}
