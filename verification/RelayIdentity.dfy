/** Who a connection is: an identity is fixed once, by founding the account or by signing a nonce that
    was issued to this very connection and is used up by the attempt. */
module RelayIdentity {
  import opened Wrappers
  import opened Text
  import opened Relay

  /** The identity of connection `c`, if any, was earned; its pending nonce, if any, is its own and has
      not been used. */
  predicate Identified(s: State, c: int)
    requires 0 <= c < |s.conns|
  {
    var conn := s.conns[c];
    && (conn.user.None? ==> conn.proof.Unproved?)
    && (conn.user.Some? ==>
          && conn.user.value in s.users
          && match conn.proof
             case Unproved => false
             case Registered => conn.user.value in s.founders && s.founders[conn.user.value] == c
             case Signed(signature) =>
               signature.key == s.users[conn.user.value] && 0 <= signature.nonce < |s.issued| && s.issued[signature.nonce] == c)
    && (conn.nonce.Some? ==>
          && 0 <= conn.nonce.value < |s.issued| && s.issued[conn.nonce.value] == c
          && (conn.proof.Signed? ==> conn.proof.signature.nonce != conn.nonce.value))
  }

  /** Accounts have distinct keys and proper names. */
  ghost predicate Directory(s: State) {
    && s.founders.Keys == s.users.Keys
    && (forall u, v :: u in s.users && v in s.users && u != v ==> s.users[u] != s.users[v])
    && (forall u :: u in s.users ==> ValidUsername(u) && !Reserved(u) && ValidPubkey(s.users[u]))
  }

  ghost predicate Identities(s: State) {
    Directory(s) && forall c :: 0 <= c < |s.conns| ==> Identified(s, c)
  }

  /** Nothing that concerns identities changed, connections that closed aside. */
  predicate SameIdentities(s: State, t: State) {
    && t.users == s.users && t.founders == s.founders && t.issued == s.issued && |t.conns| == |s.conns|
    && forall c :: 0 <= c < |s.conns| ==> t.conns[c] == s.conns[c].(open := t.conns[c].open)
  }

  predicate SamePeople(s: State, t: State) {
    t.users == s.users && t.founders == s.founders && t.issued == s.issued && t.conns == s.conns
  }

  lemma PushKeepsPeople(s: State, c: int, room: bool)
    ensures SamePeople(s, DoPush(s, c, room))
  {
    hide Outbox.UnderCap, Outbox.Append;
  }

  lemma SendingKeepsPeople(s: State, step: Step)
    requires step.Send? || step.Lookup? || step.Push?
    ensures SamePeople(s, Next(s, step))
  {
    if step.Push? {
      hide DoPush, SamePeople;
      PushKeepsPeople(s, step.conn, step.room);
    } else {
      hide FanOut.Recipients, Bytes;
    }
  }

  lemma FlushingKeepsPeople(s: State, step: Step)
    requires step.FlushRead? || step.FlushSend? || step.FlushDelete? || step.Prune?
    ensures SamePeople(s, Next(s, step))
  {
    hide Outbox.RowsFor, Outbox.Without, Outbox.Since, Outbox.Ids, Expired;
  }

  lemma OtherStepsKeepIdentities(s: State, step: Step)
    requires !step.Connect? && !step.AuthBegin? && !step.Register? && !step.AuthFinish?
    ensures SameIdentities(s, Next(s, step))
  {
    if step.Send? || step.Lookup? || step.Push? {
      hide Next;
      SendingKeepsPeople(s, step);
    } else if !step.Enter? && !step.Pull? && !step.Cleanup? && !step.Restart? {
      hide Next;
      FlushingKeepsPeople(s, step);
    }
  }

  lemma RegisterKeepsIdentities(s: State, c: int, u: Username, key: string, curve: string)
    requires Identities(s)
    ensures Identities(DoRegister(s, c, u, key, curve))
  {
    hide ValidPubkey, ValidUsername, Reserved;
    var t := DoRegister(s, c, u, key, curve);
    if t != s {
      forall d | 0 <= d < |t.conns| ensures Identified(t, d) {
        assert Identified(s, d);
      }
    }
  }

  lemma LoginKeepsIdentities(s: State, c: int, u: Username, signature: Signature)
    requires Identities(s)
    ensures Identities(DoAuthFinish(s, c, u, signature))
  {
    hide ValidPubkey, ValidUsername, Reserved;
    forall d | 0 <= d < |s.conns| ensures Identified(DoAuthFinish(s, c, u, signature), d) {
      assert Identified(s, d);
    }
  }

  lemma ChallengeKeepsIdentities(s: State, c: int)
    requires Identities(s)
    ensures Identities(DoAuthBegin(s, c))
  {
    hide ValidPubkey, ValidUsername, Reserved;
    forall d | 0 <= d < |s.conns| ensures Identified(DoAuthBegin(s, c), d) {
      assert Identified(s, d);
    }
  }

  lemma StepKeepsIdentities(s: State, step: Step)
    requires Identities(s)
    ensures Identities(Next(s, step))
  {
    hide DoRegister, DoAuthBegin, DoAuthFinish, Directory;
    if step.Register? {
      RegisterKeepsIdentities(s, step.conn, step.user, step.key, step.curve);
    } else if step.AuthFinish? {
      LoginKeepsIdentities(s, step.conn, step.user, step.signature);
    } else if step.AuthBegin? {
      ChallengeKeepsIdentities(s, step.conn);
    } else if step.Connect? {
      ConnectKeepsIdentities(s);
    } else {
      OtherStepsKeepIdentities(s, step);
      hide Next;
      SameIdentitiesSuffice(s, Next(s, step));
    }
  }

  lemma ConnectKeepsIdentities(s: State)
    requires Identities(s)
    ensures Identities(DoConnect(s))
  {
    forall d | 0 <= d < |s.conns| ensures Identified(DoConnect(s), d) {
      assert Identified(s, d);
    }
  }

  lemma SameIdentitiesSuffice(s: State, t: State)
    requires Identities(s) && SameIdentities(s, t)
    ensures Identities(t)
  {
    forall d | 0 <= d < |t.conns| ensures Identified(t, d) {
      assert Identified(s, d);
    }
  }

  /** In every reachable state every identity was earned, and names and keys stand in one-to-one
      correspondence. */
  lemma {:induction false} EveryIdentityIsEarned(steps: seq<Step>)
    ensures Identities(Run(steps))
  {
    hide Next;
    if steps != [] {
      EveryIdentityIsEarned(steps[..|steps| - 1]);
      StepKeepsIdentities(Run(steps[..|steps| - 1]), steps[|steps| - 1]);
    }
  }

  /** One nonce admits one connection at most. */
  lemma NonceAdmitsOnce(steps: seq<Step>, c: int, d: int)
    requires 0 <= c < |Run(steps).conns| && 0 <= d < |Run(steps).conns|
    requires Run(steps).conns[c].proof.Signed? && Run(steps).conns[d].proof.Signed?
    requires Run(steps).conns[c].proof.signature.nonce == Run(steps).conns[d].proof.signature.nonce
    ensures c == d
  {
    EveryIdentityIsEarned(steps);
    assert Identified(Run(steps), c) && Identified(Run(steps), d);
  }

  predicate Pending(s: State, n: int) {
    exists c :: 0 <= c < |s.conns| && s.conns[c].nonce == Some(n)
  }

  lemma StepRevivesNoNonce(s: State, step: Step, n: int)
    requires n < |s.issued| && !Pending(s, n)
    ensures n < |Next(s, step).issued| && !Pending(Next(s, step), n)
  {
    if step.Connect? || step.AuthBegin? || step.Register? || step.AuthFinish? {
      hide ValidPubkey, ValidUsername, Reserved;
    } else {
      OtherStepsKeepIdentities(s, step);
      hide Next;
    }
  }

  /** A nonce that was used, rightly or wrongly, or replaced, never comes back. */
  lemma {:induction false} SpentNonceStaysSpent(steps: seq<Step>, k: nat, n: int)
    requires k <= |steps| && n < |Run(steps[..k]).issued| && !Pending(Run(steps[..k]), n)
    ensures n < |Run(steps).issued| && !Pending(Run(steps), n)
    decreases |steps|
  {
    hide Next, Pending;
    if k == |steps| {
      assert steps[..k] == steps;
    } else {
      var front := steps[..|steps| - 1];
      assert front[..k] == steps[..k];
      SpentNonceStaysSpent(front, k, n);
      StepRevivesNoNonce(Run(front), steps[|steps| - 1], n);
    }
  }

  lemma AttemptSpends(s: State, c: int, u: Username, signature: Signature, n: int)
    requires Identities(s) && Ready(s, c) && s.conns[c].user.None? && s.conns[c].nonce == Some(n)
    ensures n < |s.issued| && !Pending(DoAuthFinish(s, c, u, signature), n)
    ensures DoAuthFinish(s, c, u, signature).conns[c].user == Some(u) <==> u in s.users && signature == Sign(s.users[u], n)
  {
    hide Directory;
    assert Identified(s, c);
    forall d | 0 <= d < |s.conns| && d != c ensures s.conns[d].nonce != Some(n) {
      assert Identified(s, d);
    }
  }

  /** A challenge is good for one attempt: it succeeds exactly with the account key's signature over the
      pending nonce, and whatever comes of it, that nonce is never pending again. */
  lemma EachNonceTriedOnce(steps: seq<Step>, k: nat, n: int)
    requires k < |steps| && steps[k].AuthFinish?
    requires var s, c := Run(steps[..k]), steps[k].conn; Ready(s, c) && s.conns[c].user.None? && s.conns[c].nonce == Some(n)
    ensures !Pending(Run(steps), n)
    ensures var s, t, step := Run(steps[..k]), Run(steps[..k + 1]), steps[k];
            && 0 <= step.conn < |t.conns|
            && (t.conns[step.conn].user == Some(step.user) <==>
                  step.user in s.users && step.signature == Sign(s.users[step.user], n))
  {
    hide Pending, DoAuthFinish, Identities;
    var s, step := Run(steps[..k]), steps[k];
    assert steps[..k + 1][..k] == steps[..k];
    EveryIdentityIsEarned(steps[..k]);
    AttemptSpends(s, step.conn, step.user, step.signature, n);
    AttemptKeepsCounts(s, step.conn, step.user, step.signature);
    SpentNonceStaysSpent(steps, k + 1, n);
  }

  lemma AttemptKeepsCounts(s: State, c: int, u: Username, signature: Signature)
    ensures |DoAuthFinish(s, c, u, signature).conns| == |s.conns| && DoAuthFinish(s, c, u, signature).issued == s.issued
  {
  }

  // ---- Founding an account, and coming back to it ----

  /** The text is the lower-case word, in whatever case. */
  predicate Spells(text: string, word: string) {
    |text| == |word| && forall i :: 0 <= i < |word| ==> text[i] == word[i] || text[i] as int + 32 == word[i] as int
  }

  /** One to sixteen letters and digits, and not a name of the relay itself. */
  predicate ProperName(u: Username) {
    && 1 <= |u.text| <= 16
    && (forall i :: 0 <= i < |u.text| ==>
          '0' <= u.text[i] <= '9' || 'a' <= u.text[i] <= 'z' || 'A' <= u.text[i] <= 'Z')
    && !Spells(u.text, "system") && !Spells(u.text, "server")
  }

  lemma LoweredSpells(text: string, word: string)
    requires forall i :: 0 <= i < |word| ==> 'a' <= word[i] <= 'z'
    ensures Lowered(text) == word <==> Spells(text, word)
  {
    var lowered := Lowered(text);
    forall i | 0 <= i < |text| && i < |word| ensures lowered[i] == word[i] <==> text[i] == word[i] || text[i] as int + 32 == word[i] as int {
      LoweredIs(text[i], word[i]);
    }
    if Spells(text, word) { assert lowered == word; }
  }

  lemma LoweredIs(c: char, d: char)
    requires 'a' <= d <= 'z'
    ensures Lower(c) == d <==> c == d || c as int + 32 == d as int
  {
  }

  lemma NamesAreProper(u: Username)
    ensures ValidUsername(u) && !Reserved(u) <==> ProperName(u)
  {
    LoweredSpells(u.text, "system");
    LoweredSpells(u.text, "server");
    hide Lower, Lowered, Spells;
  }

  /** A Register step, that is a command the client policy, the bound on the device fingerprint and the
      rate limit let through, founds an account exactly with a proper name nobody has, two keys that are the
      Base64 form of 32 bytes, and an identity key no account has; then the connection carries the new
      identity and is about to appear online. Otherwise nothing changes. */
  lemma RegistrationSucceedsIff(steps: seq<Step>, c: int, u: Username, key: string, curve: string)
    requires Ready(Run(steps), c) && Run(steps).conns[c].user.None?
    ensures var s, t := Run(steps), Run(steps + [Register(c, u, key, curve)]);
            if && ProperName(u) && u !in s.users && (forall v :: v in s.users ==> s.users[v] != key)
               && (exists b :: Is32Bytes(b) && key == Base64Of(b)) && (exists b :: Is32Bytes(b) && curve == Base64Of(b))
            then
              && t.users == s.users[u := key] && |t.conns| == |s.conns| == |t.phases|
              && t.conns[c].user == Some(u) && t.conns[c].open && t.phases[c].Entering?
            else t == s
  {
    NamesAreProper(u);
    PubkeyIsBase64(key);
    PubkeyIsBase64(curve);
    hide ValidPubkey, ValidUsername, Reserved, ProperName, Base64Of;
    assert (steps + [Register(c, u, key, curve)])[..|steps|] == steps;
  }

  /** Coming back: a connection without an identity that asks for a challenge, and answers it with the
      account key's signature over the nonce drawn for it, which was never drawn before, carries that
      account's identity and is about to appear online. */
  lemma ChallengeIsAnswered(steps: seq<Step>, c: int, u: Username)
    requires Ready(Run(steps), c) && Run(steps).conns[c].user.None? && u in Run(steps).users
    ensures var s, n := Run(steps), |Run(steps).issued|;
            var asked := Run(steps + [AuthBegin(c)]);
            var t := Run(steps + [AuthBegin(c)] + [AuthFinish(c, u, Sign(s.users[u], n))]);
            && asked.issued == s.issued + [c] && |asked.conns| == |s.conns| && asked.conns[c].nonce == Some(n)
            && |t.conns| == |s.conns| == |t.phases| && t.conns[c].user == Some(u) && t.conns[c].open && t.phases[c].Entering?
            && t.conns[c].nonce.None? && t.users == s.users
  {
    var s, n := Run(steps), |Run(steps).issued|;
    var asked := steps + [AuthBegin(c)];
    var answered := asked + [AuthFinish(c, u, Sign(s.users[u], n))];
    assert asked[..|asked| - 1] == steps && answered[..|answered| - 1] == asked;
    hide ValidPubkey, ValidUsername, Reserved;
  }
}
