/** The group tables of one client's vault, as the object the handlers write through. Each operation
    is one statement on the locked database; `Slice` is what the tables hold for one group. */
module VaultTables {
  import opened Wrappers
  import opened Groups

  datatype GroupId = GroupId(uuid: string)

  const KEY_TRIES := 64

  type Tables = map<GroupId, Group>

  function Rows(t: Tables, g: GroupId): Group {
    if g in t then t[g] else NO_GROUP
  }

  /** Another group already has this invite key. */
  predicate KeyTaken(t: Tables, g: GroupId, key: string) {
    exists h :: h in t && h != g && t[h].meta.Some? && t[h].meta.value.key == key
  }

  /** The key is free, or the group's own. */
  predicate MayKeep(t: Tables, g: GroupId, key: string) {
    !KeyTaken(t, g, key) || (Rows(t, g).meta.Some? && Rows(t, g).meta.value.key == key)
  }

  /** Invite keys identify groups: the UNIQUE constraint on `group_key`. */
  predicate KeysDistinct(t: Tables) {
    forall g, h :: g in t && h in t && g != h && t[g].meta.Some? && t[h].meta.Some? ==>
      t[g].meta.value.key != t[h].meta.value.key
  }

  /** From `a` to `b` the rows of group `g` became `rows`; no other group's changed. */
  ghost predicate Wrote(a: Tables, b: Tables, g: GroupId, rows: Group) {
    && Rows(b, g) == rows
    && (forall h :: h != g ==> Rows(b, h) == Rows(a, h))
    && (forall k :: KeyTaken(b, g, k) == KeyTaken(a, g, k))
    && (KeysDistinct(a) ==> KeysDistinct(b))
  }

  lemma PutWrites(t: Tables, g: GroupId, rows: Group)
    requires rows.meta.Some? ==> MayKeep(t, g, rows.meta.value.key)
    ensures Wrote(t, t[g := rows], g, rows)
  {
    var b := t[g := rows];
    assert forall h :: h != g ==> (h in b <==> h in t);
    assert forall h :: h in b && h != g ==> b[h] == t[h];
    forall k ensures KeyTaken(b, g, k) == KeyTaken(t, g, k) {}
  }

  class Vault {
    var groups: Tables

    function Slice(g: GroupId): Group
      reads this
    {
      Rows(groups, g)
    }

    constructor ()
      ensures groups == map[] && KeysDistinct(groups)
    {
      groups := map[];
    }

    method Write(g: GroupId, rows: Group)
      requires rows.meta.Some? ==> MayKeep(groups, g, rows.meta.value.key)
      modifies this
      ensures Wrote(old(groups), groups, g, rows)
    {
      PutWrites(groups, g, rows);
      groups := groups[g := rows];
    }

    method UpsertChat(g: GroupId)
      modifies this
      ensures Wrote(old(groups), groups, g, old(Slice(g)).(chat := true))
    {
      Write(g, Slice(g).(chat := true));
    }

    method AddMember(g: GroupId, u: User)
      modifies this
      ensures Wrote(old(groups), groups, g, old(Slice(g)).(roster := old(Slice(g)).roster + {u}))
    {
      if u !in Slice(g).roster {
        Write(g, Slice(g).(roster := Slice(g).roster + {u}));
      } else {
        assert Slice(g).roster + {u} == Slice(g).roster;
      }
    }

    method RemoveMember(g: GroupId, u: User)
      modifies this
      ensures Wrote(old(groups), groups, g, old(Slice(g)).(roster := old(Slice(g)).roster - {u}))
    {
      Write(g, Slice(g).(roster := Slice(g).roster - {u}));
    }

    method BanUser(g: GroupId, u: User)
      modifies this
      ensures Wrote(old(groups), groups, g, old(Slice(g)).(bans := old(Slice(g)).bans + {u}))
    {
      Write(g, Slice(g).(bans := Slice(g).bans + {u}));
    }

    method UnbanUser(g: GroupId, u: User)
      modifies this
      ensures Wrote(old(groups), groups, g, old(Slice(g)).(bans := old(Slice(g)).bans - {u}))
    {
      Write(g, Slice(g).(bans := Slice(g).bans - {u}));
    }

    method SuspendUser(g: GroupId, u: User, until: int)
      modifies this
      ensures Wrote(old(groups), groups, g, old(Slice(g)).(suspended := old(Slice(g)).suspended[u := until]))
    {
      Write(g, Slice(g).(suspended := Slice(g).suspended[u := until]));
    }

    method ClearSuspension(g: GroupId, u: User)
      modifies this
      ensures Wrote(old(groups), groups, g, old(Slice(g)).(suspended := old(Slice(g)).suspended - {u}))
    {
      Write(g, Slice(g).(suspended := Slice(g).suspended - {u}));
    }

    /** Reports an active suspension; a row that has run out is deleted. */
    method CheckSuspended(g: GroupId, u: User, now: int) returns (suspended: bool)
      modifies this
      ensures suspended == IsSuspended(old(Slice(g)), u, now)
      ensures Wrote(old(groups), groups, g, Expire(old(Slice(g)), u, now))
    {
      if u in Slice(g).suspended {
        if Slice(g).suspended[u] > now { return true; }
        ClearSuspension(g, u);
        return false;
      }
      assert Slice(g).suspended - {u} == Slice(g).suspended;
      return false;
    }

    method AddJoinRequest(g: GroupId, u: User)
      modifies this
      ensures Wrote(old(groups), groups, g, old(Slice(g)).(requests := old(Slice(g)).requests + {u}))
    {
      Write(g, Slice(g).(requests := Slice(g).requests + {u}));
    }

    method RemoveJoinRequest(g: GroupId, u: User)
      modifies this
      ensures Wrote(old(groups), groups, g, old(Slice(g)).(requests := old(Slice(g)).requests - {u}))
    {
      Write(g, Slice(g).(requests := Slice(g).requests - {u}));
    }

    /** Mints an invite key, trying candidates until one is free; a group that already has a row
        keeps it. `None` when every candidate is taken. */
    method CreateGroupMeta(g: GroupId, mode: Mode, owner: User, candidates: seq<string>) returns (key: Option<string>)
      requires |candidates| >= KEY_TRIES
      modifies this
      ensures old(Slice(g)).meta.Some? ==> key == Some(old(Slice(g)).meta.value.key) && Wrote(old(groups), groups, g, old(Slice(g)))
      ensures old(Slice(g)).meta.None? && key.Some? ==>
                && (exists i :: 0 <= i < KEY_TRIES && candidates[i] == key.value
                                && forall j :: 0 <= j < i ==> old(KeyTaken(groups, g, candidates[j])))
                && !old(KeyTaken(groups, g, key.value))
                && Wrote(old(groups), groups, g, old(Slice(g)).(meta := Some(Meta(owner, mode, key.value))))
      ensures key.None? ==> Wrote(old(groups), groups, g, old(Slice(g))) && forall i :: 0 <= i < KEY_TRIES ==> old(KeyTaken(groups, g, candidates[i]))
    {
      if Slice(g).meta.Some? { return Some(Slice(g).meta.value.key); }
      for i := 0 to KEY_TRIES
        invariant groups == old(groups)
        invariant forall j :: 0 <= j < i ==> KeyTaken(groups, g, candidates[j])
      {
        if !KeyTaken(groups, g, candidates[i]) {
          Write(g, Slice(g).(meta := Some(Meta(owner, mode, candidates[i]))));
          return Some(candidates[i]);
        }
      }
      return None;
    }

    /** Metadata learned from a share: kept out when its key belongs to another group. */
    method UpsertGroupMeta(g: GroupId, key: string, mode: Mode, owner: User)
      modifies this
      ensures Wrote(old(groups), groups, g, if old(KeyTaken(groups, g, key)) then old(Slice(g))
                       else old(Slice(g)).(meta := Some(Meta(owner, mode, key))))
    {
      if !KeyTaken(groups, g, key) {
        Write(g, Slice(g).(meta := Some(Meta(owner, mode, key))));
      }
    }

    method SetAccessMode(g: GroupId, mode: Mode)
      modifies this
      ensures Wrote(old(groups), groups, g, if old(Slice(g)).meta.None? then old(Slice(g))
                       else old(Slice(g)).(meta := Some(old(Slice(g)).meta.value.(mode := mode))))
    {
      if Slice(g).meta.Some? {
        Write(g, Slice(g).(meta := Some(Slice(g).meta.value.(mode := mode))));
      }
    }

    method SaveGroupOut(g: GroupId, s: Sender)
      modifies this
      ensures Wrote(old(groups), groups, g, old(Slice(g)).(outbound := Some(s)))
    {
      Write(g, Slice(g).(outbound := Some(s)));
    }

    method SaveGroupIn(g: GroupId, u: User, k: SessionKey)
      modifies this
      ensures Wrote(old(groups), groups, g, old(Slice(g)).(inbound := old(Slice(g)).inbound[u := k]))
    {
      Write(g, Slice(g).(inbound := Slice(g).inbound[u := k]));
    }

    method DeleteGroupIn(g: GroupId, u: User)
      modifies this
      ensures Wrote(old(groups), groups, g, old(Slice(g)).(inbound := old(Slice(g)).inbound - {u}))
    {
      Write(g, Slice(g).(inbound := Slice(g).inbound - {u}));
    }

    /** The replay guard: an accepted number is recorded, anything else is refused and changes nothing. */
    method MegolmAccept(g: GroupId, from: User, c: Cipher) returns (accepted: bool)
      modifies this
      ensures accepted == Fresh(old(Slice(g)), from, c)
      ensures Wrote(old(groups), groups, g, if accepted then Record(old(Slice(g)), from, c) else old(Slice(g)))
    {
      var seen := Slice(g).seen;
      if (from, c.sid) in seen && c.index <= seen[(from, c.sid)] { return false; }
      Write(g, Slice(g).(seen := seen[(from, c.sid) := c.index]));
      return true;
    }

    method InsertMessage(g: GroupId, line: Line)
      modifies this
      ensures Wrote(old(groups), groups, g, old(Slice(g)).(lines := old(Slice(g)).lines + [line]))
    {
      Write(g, Slice(g).(lines := Slice(g).lines + [line]));
    }

    method DeleteChat(g: GroupId)
      modifies this
      ensures Wrote(old(groups), groups, g, NO_GROUP)
    {
      Write(g, NO_GROUP);
    }
  }
}
