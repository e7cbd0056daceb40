/**
 The append-only history of which tier version a tenant is on: one row per validity range [from, upto).
 A tenant's ranges never overlap, so a row is known by its tenant and its start.
 */
module Assignments {
  import opened Common

  type TenantId = string
  type VersionId = string

  datatype Key = Key(tenant: TenantId, from: int)
  datatype Span = Span(version: VersionId, upto: Option<int>)
  type Rows = map<Key, Span>

  /** The exclusion constraint: no empty range, and a tenant's ranges follow one another. */
  ghost predicate Separate(rows: Rows) {
    && (forall k :: k in rows && rows[k].upto.Some? ==> k.from < rows[k].upto.value)
    && (forall j, k :: j in rows && k in rows && j.tenant == k.tenant && j.from < k.from ==>
          rows[j].upto.Some? && rows[j].upto.value <= k.from)
  }

  function Live(rows: Rows, v: VersionId): set<Key> {
    set k | k in rows && rows[k].upto.None? && rows[k].version == v
  }

  function Open(rows: Rows): set<Key> {
    set k | k in rows && rows[k].upto.None?
  }

  function OpenOf(rows: Rows, t: TenantId): set<Key> {
    set k | k in rows && rows[k].upto.None? && k.tenant == t
  }

  function Tenants(keys: set<Key>): set<TenantId> {
    set k | k in keys :: k.tenant
  }

  function Starts(who: set<TenantId>, at: int): set<Key> {
    set t | t in who :: Key(t, at)
  }

  /** Point-in-time resolution: the tenant is on v at time x. */
  ghost predicate On(rows: Rows, t: TenantId, x: int, v: VersionId) {
    exists k :: k in rows && k.tenant == t && k.from <= x && (rows[k].upto.None? || x < rows[k].upto.value)
                && rows[k].version == v
  }

  /** Closes keys' ranges at the given time and opens one on target for each of who. */
  function Move(rows: Rows, keys: set<Key>, who: set<TenantId>, target: VersionId, at: int): Rows {
    map k | k in rows.Keys + Starts(who, at) ::
      if k in Starts(who, at) then Span(target, None)
      else if k in keys then rows[k].(upto := Some(at)) else rows[k]
  }

  /** What the triggers and the exclusion constraint let a move do. */
  predicate CanMove(rows: Rows, keys: set<Key>, who: set<TenantId>, at: int) {
    && (forall k :: k in keys ==> k in rows && rows[k].upto.None? && k.tenant in who && k.from < at)
    && (forall k :: k in rows && k.tenant in who && k !in keys ==> rows[k].upto.Some? && rows[k].upto.value <= at)
  }

  lemma OneOpenEach(rows: Rows, j: Key, k: Key)
    requires Separate(rows) && j in Open(rows) && k in Open(rows) && j.tenant == k.tenant
    ensures j == k
  {
  }

  /** Moving every live row of a version fails only on a range that starts at or after the move. */
  lemma LiveCanMove(rows: Rows, v: VersionId, at: int)
    requires Separate(rows)
    ensures CanMove(rows, Live(rows, v), Tenants(Live(rows, v)), at) <==> forall k :: k in Live(rows, v) ==> k.from < at
  {
    forall k, j | k in Live(rows, v) && k.from < at && j in rows && j.tenant == k.tenant && j != k
      ensures rows[j].upto.Some? && rows[j].upto.value <= at
    {
      assert j.from < k.from || k.from < j.from;
    }
    if forall k :: k in Live(rows, v) ==> k.from < at {
      forall j | j in rows && j.tenant in Tenants(Live(rows, v)) && j !in Live(rows, v)
        ensures rows[j].upto.Some? && rows[j].upto.value <= at
      {
        var k :| k in Live(rows, v) && k.tenant == j.tenant;
      }
    }
  }

  lemma MoveKeepsSeparate(rows: Rows, keys: set<Key>, who: set<TenantId>, target: VersionId, at: int)
    requires Separate(rows) && CanMove(rows, keys, who, at)
    ensures Separate(Move(rows, keys, who, target, at))
  {
    var after := Move(rows, keys, who, target, at);
    forall j, k | j in after && k in after && j.tenant == k.tenant && j.from < k.from
      ensures after[j].upto.Some? && after[j].upto.value <= k.from
    {
      if k in Starts(who, at) {
        assert j in rows && j.tenant in who;
      } else if j in Starts(who, at) {
        assert false;
      }
    }
  }

  /** The range in force at any earlier time is the same after the move. */
  lemma MoveKeepsPast(rows: Rows, keys: set<Key>, who: set<TenantId>, target: VersionId, at: int, t: TenantId,
      x: int, v: VersionId)
    requires CanMove(rows, keys, who, at) && (x < at || t !in who)
    ensures On(Move(rows, keys, who, target, at), t, x, v) <==> On(rows, t, x, v)
  {
    var after := Move(rows, keys, who, target, at);
    if On(rows, t, x, v) {
      var k :| k in rows && k.tenant == t && k.from <= x && (rows[k].upto.None? || x < rows[k].upto.value)
        && rows[k].version == v;
      assert k in after && k !in Starts(who, at);
    }
    if On(after, t, x, v) {
      var k :| k in after && k.tenant == t && k.from <= x && (after[k].upto.None? || x < after[k].upto.value)
        && after[k].version == v;
      assert k in rows && rows[k].version == v;
    }
  }

  /** From the move on, the moved tenants are on the target and nothing else. */
  lemma MovePutsOnTarget(rows: Rows, keys: set<Key>, who: set<TenantId>, target: VersionId, at: int, t: TenantId,
      x: int, v: VersionId)
    requires Separate(rows) && CanMove(rows, keys, who, at) && t in who && at <= x
    ensures On(Move(rows, keys, who, target, at), t, x, v) <==> v == target
  {
    var after := Move(rows, keys, who, target, at);
    assert Key(t, at) in after && after[Key(t, at)] == Span(target, None);
    MoveKeepsSeparate(rows, keys, who, target, at);
    if On(after, t, x, v) {
      var k :| k in after && k.tenant == t && k.from <= x && (after[k].upto.None? || x < after[k].upto.value)
        && after[k].version == v;
      assert k == Key(t, at);
    }
  }

  // ---------------------------------------------------------------- counting

  lemma {:induction false} StartsCount(who: set<TenantId>, at: int)
    ensures |Starts(who, at)| == |who|
    decreases who
  {
    if who != {} {
      var t :| t in who;
      StartsCount(who - {t}, at);
      assert Starts(who, at) == Starts(who - {t}, at) + {Key(t, at)};
    }
  }

  lemma {:induction false} TenantsCount(rows: Rows, keys: set<Key>)
    requires Separate(rows) && keys <= Open(rows)
    ensures |Tenants(keys)| == |keys|
    decreases keys
  {
    if keys != {} {
      var k :| k in keys;
      TenantsCount(rows, keys - {k});
      forall t | t in Tenants(keys - {k}) ensures t != k.tenant {
        var j :| j in keys - {k} && j.tenant == t;
        if t == k.tenant { OneOpenEach(rows, j, k); }
      }
      assert Tenants(keys) == Tenants(keys - {k}) + {k.tenant};
    }
  }

  /** Who is live where after a move: the keys left, the starts arrived, the rest stayed. */
  lemma MoveLive(rows: Rows, keys: set<Key>, who: set<TenantId>, target: VersionId, at: int, v: VersionId)
    requires CanMove(rows, keys, who, at)
    ensures Live(Move(rows, keys, who, target, at), v) ==
            (Live(rows, v) - keys) + if v == target then Starts(who, at) else {}
    ensures Live(rows, v) !! Starts(who, at)
  {
  }

  lemma MoveOpen(rows: Rows, keys: set<Key>, who: set<TenantId>, target: VersionId, at: int)
    requires CanMove(rows, keys, who, at)
    ensures Open(Move(rows, keys, who, target, at)) == (Open(rows) - keys) + Starts(who, at)
    ensures Open(rows) !! Starts(who, at) && keys <= Open(rows)
  {
  }

  lemma SwapCount(a: set<Key>, out: set<Key>, more: set<Key>)
    requires out <= a && a !! more
    ensures |(a - out) + more| == |a| - |out| + |more|
  {
    assert a == (a - out) + out;
  }

  /** No tenant gains or loses its open range. */
  lemma MoveKeepsTenants(rows: Rows, keys: set<Key>, target: VersionId, at: int)
    requires CanMove(rows, keys, Tenants(keys), at)
    ensures Tenants(Open(Move(rows, keys, Tenants(keys), target, at))) == Tenants(Open(rows))
  {
    var who := Tenants(keys);
    var after := Open(Move(rows, keys, who, target, at));
    MoveOpen(rows, keys, who, target, at);
    hide CanMove;
    hide Move;
    hide Open;
    forall t | t in Tenants(Open(rows)) ensures t in Tenants(after) {
      var k :| k in Open(rows) && k.tenant == t;
      if k in keys { assert Key(t, at) in after; } else { assert k in after; }
    }
  }

  lemma LiveApart(rows: Rows, v: VersionId, w: VersionId)
    requires v != w
    ensures Live(rows, v) !! Live(rows, w)
  {
  }

  /** A move of a version's live rows empties it, adds them all to the target and changes no other version's. */
  lemma MoveCounts(rows: Rows, from: VersionId, target: VersionId, at: int, v: VersionId)
    requires Separate(rows) && from != target && CanMove(rows, Live(rows, from), Tenants(Live(rows, from)), at)
    ensures var after := Move(rows, Live(rows, from), Tenants(Live(rows, from)), target, at);
            && (v == from ==> Live(after, v) == {})
            && (v == target ==> |Live(after, v)| == |Live(rows, v)| + |Live(rows, from)|)
            && (v != from && v != target ==> Live(after, v) == Live(rows, v))
  {
    hide *;
    var keys, who := Live(rows, from), Tenants(Live(rows, from));
    MoveLive(rows, keys, who, target, at, v);
    LiveIsOpen(rows, from);
    TenantsCount(rows, keys);
    StartsCount(who, at);
    if v != from {
      LiveApart(rows, v, from);
      assert Live(rows, v) - keys == Live(rows, v);
      SwapCount(Live(rows, v), {}, Starts(who, at));
    }
  }

  lemma LiveIsOpen(rows: Rows, v: VersionId)
    ensures Live(rows, v) <= Open(rows)
  {
  }

  lemma MoveConserves(rows: Rows, keys: set<Key>, target: VersionId, at: int)
    requires Separate(rows) && CanMove(rows, keys, Tenants(keys), at)
    ensures |Open(Move(rows, keys, Tenants(keys), target, at))| == |Open(rows)|
  {
    hide *;
    MoveOpen(rows, keys, Tenants(keys), target, at);
    TenantsCount(rows, keys);
    StartsCount(Tenants(keys), at);
    SwapCount(Open(rows), keys, Starts(Tenants(keys), at));
  }
}
