/**
 The tier-version lifecycle: drafts, publishing with or without superseding, retiring, and the reassignment
 of tenants, each one database transaction that either commits or leaves the store as it was.
 */
module TierVersions {
  import opened Common
  import opened Assignments

  type TierId = string

  datatype Status = Draft | Active | Retired
  datatype Version = Version(tier: TierId, number: nat, status: Status, purchasable: bool, contents: string,
                             reason: string, publishedAt: Option<int>, retiredAt: Option<int>)
  datatype Tenant = Tenant(tier: TierId, deleted: bool)

  datatype Store = Store(tiers: set<TierId>, versions: map<VersionId, Version>, tenants: map<TenantId, Tenant>,
                         rows: Rows)

  datatype Error =
    | NotFound | NotDraft | NotActive | HasLiveAssignments | PurchasableExists
    | SupersedeSelf | SupersedeNotFound | SupersedeOtherTier | SupersedeNotActive
    | ReassignSelf | ReassignNotFound | ReassignNotActive
    | NotAssignable | NoSuchTier | Conflict

  datatype Supersede = Supersede(version: VersionId, force: bool, reassign: bool)

  // ---------------------------------------------------------------- what each transaction does

  function Updated(s: Store, id: VersionId, v: Version): Store {
    s.(versions := s.versions[id := v])
  }

  function RetiredVersion(v: Version, at: int): Version {
    v.(status := Retired, retiredAt := Some(at))
  }

  function PublishedVersion(v: Version, reason: string, at: int): Version {
    v.(status := Active, reason := reason, publishedAt := Some(at))
  }

  predicate OnSale(v: Version) {
    v.status.Active? && v.purchasable
  }

  /** Some version of the tier is on sale. */
  predicate TierOnSale(versions: map<VersionId, Version>, tier: TierId) {
    exists id :: id in versions && versions[id].tier == tier && OnSale(versions[id])
  }

  function TenantsOnTier(tenants: map<TenantId, Tenant>, who: set<TenantId>, tier: TierId): map<TenantId, Tenant> {
    map t | t in tenants :: if t in who then tenants[t].(tier := tier) else tenants[t]
  }

  /** migrateOpenAssignmentsTx: every live tenant of from moves to target. */
  function Migrated(s: Store, from: VersionId, target: VersionId, at: int): Result<(Store, nat), Error> {
    if target == from then Err(ReassignSelf)
    else if target !in s.versions then Err(ReassignNotFound)
    else if !s.versions[target].status.Active? then Err(ReassignNotActive)
    else
      var keys := Live(s.rows, from);
      if exists k :: k in keys && at <= k.from then Err(Conflict)
      else
        Ok((s.(tenants := TenantsOnTier(s.tenants, Tenants(keys), s.versions[target].tier),
               rows := Move(s.rows, keys, Tenants(keys), target, at)), |keys|))
  }

  /** retireSupersededTx */
  function Superseded(s: Store, draft: VersionId, o: Supersede, at: int): Result<Store, Error>
    requires draft in s.versions
  {
    if o.version == draft then Err(SupersedeSelf)
    else if o.version !in s.versions then Err(SupersedeNotFound)
    else if s.versions[o.version].tier != s.versions[draft].tier then Err(SupersedeOtherTier)
    else if !s.versions[o.version].status.Active? then Err(SupersedeNotActive)
    else if !o.force && !o.reassign && Live(s.rows, o.version) != {} then Err(HasLiveAssignments)
    else Ok(Updated(s, o.version, RetiredVersion(s.versions[o.version], at)))
  }

  function Published(s: Store, id: VersionId, reason: string, o: Option<Supersede>, at: int): Result<(Store, nat),
      Error>
  {
    if id !in s.versions then Err(NotFound)
    else if !s.versions[id].status.Draft? then Err(NotDraft)
    else
      var freed := if o.Some? then Superseded(s, id, o.value, at) else Ok(s);
      if freed.Err? then Err(freed.error)
      else if s.versions[id].purchasable && TierOnSale(freed.value.versions, s.versions[id].tier)
        then Err(PurchasableExists)
      else
        var published := Updated(freed.value, id, PublishedVersion(s.versions[id], reason, at));
        if o.Some? && o.value.reassign then Migrated(published, o.value.version, id, at) else Ok((published, 0))
  }

  function RetiredBy(s: Store, id: VersionId, reassignTo: Option<VersionId>, force: bool, at: int): Result<(Store,
      nat), Error>
  {
    if id !in s.versions then Err(NotFound)
    else if !s.versions[id].status.Active? then Err(NotActive)
    else if reassignTo.None? && !force && Live(s.rows, id) != {} then Err(HasLiveAssignments)
    else
      var moved := if reassignTo.Some? then Migrated(s, id, reassignTo.value, at) else Ok((s, 0));
      if moved.Err? then Err(moved.error)
      else Ok((Updated(moved.value.0, id, RetiredVersion(s.versions[id], at)), moved.value.1))
  }

  /** ReassignTx: the tenant's tier, and its assignment when there is a version to assign. */
  function Reassigned(s: Store, t: TenantId, tier: TierId, version: Option<VersionId>, at: int): Result<(Store,
      bool), Error>
  {
    if t !in s.tenants || s.tenants[t].deleted then Ok((s, false))
    else if tier !in s.tiers then Err(NoSuchTier)
    else
      var tenants := s.tenants[t := s.tenants[t].(tier := tier)];
      if version.None? then Ok((s.(tenants := tenants), true))
      else if version.value !in s.versions then Err(NotFound)
      else if !CanMove(s.rows, OpenOf(s.rows, t), {t}, at) then Err(Conflict)
      else Ok((s.(tenants := tenants, rows := Move(s.rows, OpenOf(s.rows, t), {t}, version.value, at)), true))
  }

  function ReassignedActive(s: Store, t: TenantId, version: VersionId, at: int): Result<(Store, bool), Error> {
    if version !in s.versions then Err(NotFound)
    else if !s.versions[version].status.Active? then Err(NotAssignable)
    else Reassigned(s, t, s.versions[version].tier, Some(version), at)
  }

  predicate NumberTaken(versions: map<VersionId, Version>, tier: TierId, number: nat) {
    exists w :: w in versions && versions[w].tier == tier && versions[w].number == number
  }

  /** Create, with the number the caller read: a stale one meets the unique constraint. */
  function Created(s: Store, id: VersionId, tier: TierId, number: nat, purchasable: bool,
      contents: string): Result<Store, Error>
  {
    if tier !in s.tiers then Err(NoSuchTier)
    else if number == 0 || id in s.versions || NumberTaken(s.versions, tier, number) then Err(Conflict)
    else Ok(Updated(s, id, Version(tier, number, Draft, purchasable, contents, "", None, None)))
  }

  function DraftUpdated(s: Store, id: VersionId, purchasable: bool, contents: string): Result<Store, Error> {
    if id !in s.versions then Err(NotFound)
    else if !s.versions[id].status.Draft? then Err(NotDraft)
    else Ok(Updated(s, id, s.versions[id].(purchasable := purchasable, contents := contents)))
  }

  /** A draft some assignment names cannot go: the foreign key holds it. */
  function DraftDeleted(s: Store, id: VersionId): Result<Store, Error> {
    if id !in s.versions then Err(NotFound)
    else if !s.versions[id].status.Draft? then Err(NotDraft)
    else if exists k :: k in s.rows && s.rows[k].version == id then Err(Conflict)
    else Ok(s.(versions := s.versions - {id}))
  }

  // ---------------------------------------------------------------- the repository

  predicate Clashes(rows: Rows, t: TenantId, at: int) {
    exists k :: k in rows && k.tenant == t && (rows[k].upto.None? || at < rows[k].upto.value)
  }

  ghost function Head(ids: seq<TenantId>, i: nat): set<TenantId>
    requires i <= |ids|
  {
    set t | t in ids[..i]
  }

  /** The move done so far: for the tenants in done only. */
  ghost predicate Partly(start: Store, keys: set<Key>, done: set<TenantId>, target: VersionId, tier: TierId,
      at: int, s: Store)
  {
    var moved := set k | k in keys && k.tenant in done;
    && (forall k :: k in moved ==> k.from < at)
    && s.rows == Move(start.rows, moved, done, target, at)
    && s.tenants == TenantsOnTier(start.tenants, done, tier)
  }

  lemma MoveNothing(s: Store, keys: set<Key>, ids: seq<TenantId>, target: VersionId, tier: TierId, at: int)
    ensures Partly(s, keys, Head(ids, 0), target, tier, at, s)
  {
    assert Head(ids, 0) == {} && (set k | k in keys && k.tenant in Head(ids, 0)) == {};
  }

  lemma NextTenant(ids: seq<TenantId>, i: nat)
    requires i < |ids| && (forall a, b :: 0 <= a < b < |ids| ==> ids[a] != ids[b])
    ensures ids[i] in ids && Head(ids, i + 1) == Head(ids, i) + {ids[i]} && ids[i] !in Head(ids, i)
  {
    assert ids[..i + 1] == ids[..i] + [ids[i]];
  }

  /** The tenant's live row is untouched so far, and it is the only one the query can find. */
  lemma FindRow(start: Store, from: VersionId, done: set<TenantId>, t: TenantId, target: VersionId, tier: TierId,
      at: int, s: Store)
    requires Partly(start, Live(start.rows, from), done, target, tier, at, s)
    requires t in Tenants(Live(start.rows, from)) && t !in done
    ensures exists k :: IsLiveRow(s.rows, k, t, from)
    ensures forall k :: IsLiveRow(s.rows, k, t, from) ==> k in Live(start.rows, from)
  {
    var k :| k in Live(start.rows, from) && k.tenant == t;
    assert k !in Starts(done, at);
    assert IsLiveRow(s.rows, k, t, from);
  }

  predicate IsLiveRow(rows: Rows, k: Key, t: TenantId, v: VersionId) {
    k in rows && k.tenant == t && rows[k].upto.None? && rows[k].version == v
  }

  lemma MoveOne(start: Store, from: VersionId, done: set<TenantId>, t: TenantId, k: Key, target: VersionId,
      tier: TierId, at: int, s: Store)
    requires Separate(start.rows) && Partly(start, Live(start.rows, from), done, target, tier, at, s)
    requires t !in done && k in Live(start.rows, from) && k in s.rows && k.tenant == t && k.from < at && t in s.tenants
    ensures var closed := s.rows[k := s.rows[k].(upto := Some(at))];
            && !Clashes(closed, t, at)
            && Partly(start, Live(start.rows, from), done + {t}, target, tier, at,
                      s.(tenants := s.tenants[t := s.tenants[t].(tier := tier)],
                        rows := closed[Key(t, at) := Span(target, None)]))
  {
    var keys := Live(start.rows, from);
    var closed := s.rows[k := s.rows[k].(upto := Some(at))];
    forall j | j in closed && j.tenant == t ensures closed[j].upto.Some? && closed[j].upto.value <= at {
      assert j in start.rows;
      assert j == k || j.from < k.from || k.from < j.from;
    }
    forall j | j in keys && j.tenant == t ensures j == k { OneOpenEach(start.rows, j, k); }
    MoveRowsOne(start.rows, keys, done, t, k, target, at);
  }

  lemma MoveRowsOne(rows: Rows, keys: set<Key>, done: set<TenantId>, t: TenantId, k: Key, target: VersionId, at: int)
    requires t !in done && k in keys && k in rows && k.tenant == t && k.from < at
    requires forall j :: j in keys && j.tenant == t ==> j == k
    ensures var moved := set j | j in keys && j.tenant in done; var next := set j | j in keys && j.tenant in done + {t};
            var part := Move(rows, moved, done, target, at);
            k in part
            && part[k := part[k].(upto := Some(at))][Key(t, at) := Span(target, None)] ==
               Move(rows, next, done + {t}, target, at)
  {
    assert Starts(done + {t}, at) == Starts(done, at) + {Key(t, at)};
  }

  lemma {:induction false} ListCount(ids: seq<TenantId>, who: set<TenantId>)
    requires forall a, b :: 0 <= a < b < |ids| ==> ids[a] != ids[b]
    requires forall t :: t in ids <==> t in who
    ensures |ids| == |who|
    decreases |ids|
  {
    if ids == [] {
      assert who == {};
    } else {
      var last := ids[|ids| - 1];
      assert last in ids && ids == ids[..|ids| - 1] + [last];
      ListCount(ids[..|ids| - 1], who - {last});
    }
  }

  lemma LiveList(rows: Rows, from: VersionId, ids: seq<TenantId>)
    requires Separate(rows)
    requires (forall a, b :: 0 <= a < b < |ids| ==> ids[a] != ids[b])
             && (forall t :: t in ids <==> t in Tenants(Live(rows, from)))
    ensures |ids| == |Live(rows, from)|
  {
    LiveIsOpen(rows, from);
    ListCount(ids, Tenants(Live(rows, from)));
    TenantsCount(rows, Live(rows, from));
  }

  lemma LiveRowIsIn(rows: Rows, k: Key, t: TenantId, v: VersionId)
    requires IsLiveRow(rows, k, t, v)
    ensures k in rows && k.tenant == t
  {
  }

  lemma MoveDone(start: Store, keys: set<Key>, from: VersionId, ids: seq<TenantId>, target: VersionId,
      tier: TierId, at: int, s: Store)
    requires keys == Live(start.rows, from) && forall t :: t in ids <==> t in Tenants(keys)
    requires Partly(start, keys, Head(ids, |ids|), target, tier, at, s)
    ensures forall k :: k in keys ==> k.from < at
    ensures s.rows == Move(start.rows, keys, Tenants(keys), target, at)
    ensures s.tenants == TenantsOnTier(start.tenants, Tenants(keys), tier)
  {
    assert ids[..|ids|] == ids;
    assert Head(ids, |ids|) == Tenants(keys);
    assert (set k | k in keys && k.tenant in Tenants(keys)) == keys;
  }

  method MoveTenants(s: Store, from: VersionId, target: VersionId, tier: TierId, tenantIds: seq<TenantId>, at: int)
    returns (moved: bool, ts: map<TenantId, Tenant>, rs: Rows)
    requires Separate(s.rows) && forall k :: k in s.rows ==> k.tenant in s.tenants
    requires forall i, j :: 0 <= i < j < |tenantIds| ==> tenantIds[i] != tenantIds[j]
    requires forall t :: t in tenantIds <==> t in Tenants(Live(s.rows, from))
    ensures moved <==> forall k :: k in Live(s.rows, from) ==> k.from < at
    ensures moved ==> rs == Move(s.rows, Live(s.rows, from), Tenants(Live(s.rows, from)), target, at)
    ensures moved ==> ts == TenantsOnTier(s.tenants, Tenants(Live(s.rows, from)), tier)
    ensures |tenantIds| == |Live(s.rows, from)|
  {
    ts, rs := s.tenants, s.rows;
    ghost var keys := Live(s.rows, from);
    MoveNothing(s, keys, tenantIds, target, tier, at);
    LiveList(s.rows, from, tenantIds);
    var i := 0;
    while i < |tenantIds|
      invariant 0 <= i <= |tenantIds| && ts.Keys == s.tenants.Keys
      invariant Partly(s, keys, Head(tenantIds, i), target, tier, at, s.(tenants := ts, rows := rs))
    {
      hide *;
      var t := tenantIds[i];
      NextTenant(tenantIds, i);
      FindRow(s, from, Head(tenantIds, i), t, target, tier, at, s.(tenants := ts, rows := rs));
      var k: Key :| k in rs && IsLiveRow(rs, k, t, from);
      LiveRowIsIn(rs, k, t, from);
      if at <= k.from { return false, ts, rs; }
      MoveOne(s, from, Head(tenantIds, i), t, k, target, tier, at, s.(tenants := ts, rows := rs));
      ts := ts[t := ts[t].(tier := tier)];
      rs := rs[k := rs[k].(upto := Some(at))];
      if Clashes(rs, t, at) { return false, ts, rs; }
      rs := rs[Key(t, at) := Span(target, None)];
      i := i + 1;
    }
    MoveDone(s, keys, from, tenantIds, target, tier, at, s.(tenants := ts, rows := rs));
    moved := true;
  }

  /** The ids are the tenants live on v, once each. */
  ghost predicate Lists(ids: seq<TenantId>, rows: Rows, v: VersionId) {
    && (forall i, j :: 0 <= i < j < |ids| ==> ids[i] != ids[j])
    && (forall t :: t in ids <==> t in Tenants(Live(rows, v)))
  }

  lemma OnlyOpen(rows: Rows, t: TenantId, k: Key)
    requires Separate(rows) && k in OpenOf(rows, t)
    ensures OpenOf(rows, t) == {k}
  {
    forall j | j in OpenOf(rows, t) ensures j == k { OneOpenEach(rows, j, k); }
  }

  lemma ReassignMoves(rows: Rows, t: TenantId, keys: set<Key>, rs: Rows, v: VersionId, at: int)
    requires Separate(rows) && keys == OpenOf(rows, t) && !Clashes(rs, t, at)
    requires keys == {} ==> rs == rows
    requires forall k :: k in keys ==> keys == {k} && k.from < at && rs == rows[k := rows[k].(upto := Some(at))]
    ensures CanMove(rows, keys, {t}, at)
    ensures rs[Key(t, at) := Span(v, None)] == Move(rows, keys, {t}, v, at)
  {
    assert Starts({t}, at) == {Key(t, at)};
    if keys != {} {
      var k :| k in keys;
      assert keys == {k};
    }
  }

  class Repository {
    const tiers: set<TierId>
    var versions: map<VersionId, Version>
    var tenants: map<TenantId, Tenant>
    var rows: Rows

    constructor (s: Store)
      ensures State() == s
    {
      tiers, versions, tenants, rows := s.tiers, s.versions, s.tenants, s.rows;
    }

    function State(): Store
      reads this
    {
      Store(tiers, versions, tenants, rows)
    }

    /**
     tenantIds is the query's answer: the tenants live on from, once each.  ts and rs are the transaction's
     own view of the tables, which a commit makes everyone's.
     */
    method MigrateOpenAssignments(from: VersionId, target: VersionId, tenantIds: seq<TenantId>, at: int)
      returns (r: Result<nat, Error>)
      requires Separate(rows) && forall k :: k in rows ==> k.tenant in tenants
      requires Lists(tenantIds, rows, from)
      modifies this`rows, this`tenants
      ensures match Migrated(old(State()), from, target, at)
              case Ok((s, n)) => State() == s && r == Ok(n)
              case Err(e) => State() == old(State()) && r == Err(e)
    {
      if target == from { return Err(ReassignSelf); }
      if target !in versions { return Err(ReassignNotFound); }
      var tier := versions[target].tier;
      if !versions[target].status.Active? { return Err(ReassignNotActive); }
      var moved, ts, rs := MoveTenants(State(), from, target, tier, tenantIds, at);
      if !moved { return Err(Conflict); }
      tenants, rows := ts, rs;
      return Ok(|tenantIds|);
    }

    /** Every transaction below: the answer and the new state are the specification's, or nothing changes. */
    method Publish(id: VersionId, reason: string, o: Option<Supersede>, tenantIds: seq<TenantId>, at: int)
      returns (r: Result<nat, Error>)
      requires Separate(rows) && forall k :: k in rows ==> k.tenant in tenants
      requires o.Some? ==> Lists(tenantIds, rows, o.value.version)
      modifies this`versions, this`rows, this`tenants
      ensures match Published(old(State()), id, reason, o, at)
              case Ok((s, n)) => State() == s && r == Ok(n)
              case Err(e) => State() == old(State()) && r == Err(e)
    {
      if id !in versions { return Err(NotFound); }
      var draft := versions[id];
      if !draft.status.Draft? { return Err(NotDraft); }
      var view := versions;
      if o.Some? {
        var freed := RetireSuperseded(id, o.value, at);
        if freed.Err? { return Err(freed.error); }
        view := freed.value;
      }
      if draft.purchasable && TierOnSale(view, draft.tier) { return Err(PurchasableExists); }
      view := view[id := PublishedVersion(draft, reason, at)];
      var before := versions;
      versions := view;
      if o.Some? && o.value.reassign {
        r := MigrateOpenAssignments(o.value.version, id, tenantIds, at);
        if r.Err? { versions := before; }
      } else {
        r := Ok(0);
      }
    }

    method RetireSuperseded(draft: VersionId, o: Supersede, at: int) returns (r: Result<map<VersionId, Version>, Error>)
      requires draft in versions
      ensures match Superseded(State(), draft, o, at)
              case Ok(s) => r == Ok(s.versions)
              case Err(e) => r == Err(e)
    {
      if o.version == draft { return Err(SupersedeSelf); }
      if o.version !in versions { return Err(SupersedeNotFound); }
      var superseded := versions[o.version];
      if superseded.tier != versions[draft].tier { return Err(SupersedeOtherTier); }
      if !superseded.status.Active? { return Err(SupersedeNotActive); }
      if !o.force && !o.reassign && |Live(rows, o.version)| > 0 { return Err(HasLiveAssignments); }
      return Ok(versions[o.version := RetiredVersion(superseded, at)]);
    }

    method Retire(id: VersionId, reassignTo: Option<VersionId>, force: bool, tenantIds: seq<TenantId>, at: int)
      returns (r: Result<nat, Error>)
      requires Separate(rows) && forall k :: k in rows ==> k.tenant in tenants
      requires Lists(tenantIds, rows, id)
      modifies this`versions, this`rows, this`tenants
      ensures match RetiredBy(old(State()), id, reassignTo, force, at)
              case Ok((s, n)) => State() == s && r == Ok(n)
              case Err(e) => State() == old(State()) && r == Err(e)
    {
      if id !in versions { return Err(NotFound); }
      if !versions[id].status.Active? { return Err(NotActive); }
      r := Ok(0);
      match reassignTo {
        case Some(target) =>
          r := MigrateOpenAssignments(id, target, tenantIds, at);
          if r.Err? { return; }
        case None =>
          if !force && |Live(rows, id)| > 0 { return Err(HasLiveAssignments); }
      }
      versions := versions[id := RetiredVersion(versions[id], at)];
    }

    method Create(id: VersionId, tier: TierId, number: nat, purchasable: bool, contents: string)
      returns (r: Result<(), Error>)
      modifies this`versions
      ensures match Created(old(State()), id, tier, number, purchasable, contents)
              case Ok(s) => State() == s && r.Ok?
              case Err(e) => State() == old(State()) && r == Err(e)
    {
      if tier !in tiers { return Err(NoSuchTier); }
      if number == 0 || id in versions || NumberTaken(versions, tier, number) {
        return Err(Conflict);
      }
      versions := versions[id := Version(tier, number, Draft, purchasable, contents, "", None, None)];
      return Ok(());
    }

    method UpdateDraft(id: VersionId, purchasable: bool, contents: string) returns (r: Result<(), Error>)
      modifies this`versions
      ensures match DraftUpdated(old(State()), id, purchasable, contents)
              case Ok(s) => State() == s && r.Ok?
              case Err(e) => State() == old(State()) && r == Err(e)
    {
      if id !in versions { return Err(NotFound); }
      if !versions[id].status.Draft? { return Err(NotDraft); }
      versions := versions[id := versions[id].(purchasable := purchasable, contents := contents)];
      return Ok(());
    }

    method DeleteDraft(id: VersionId) returns (r: Result<(), Error>)
      modifies this`versions
      ensures match DraftDeleted(old(State()), id)
              case Ok(s) => State() == s && r.Ok?
              case Err(e) => State() == old(State()) && r == Err(e)
    {
      if id !in versions { return Err(NotFound); }
      if !versions[id].status.Draft? { return Err(NotDraft); }
      if exists k :: k in rows && rows[k].version == id { return Err(Conflict); }
      versions := versions - {id};
      return Ok(());
    }

    method Reassign(t: TenantId, tier: TierId, version: Option<VersionId>, at: int) returns (r: Result<bool, Error>)
      requires Separate(rows)
      modifies this`rows, this`tenants
      ensures match Reassigned(old(State()), t, tier, version, at)
              case Ok((s, found)) => State() == s && r == Ok(found)
              case Err(e) => State() == old(State()) && r == Err(e)
    {
      if t !in tenants || tenants[t].deleted { return Ok(false); }
      if tier !in tiers { return Err(NoSuchTier); }
      var ts := tenants[t := tenants[t].(tier := tier)];
      if version.None? {
        tenants := ts;
        return Ok(true);
      }
      if version.value !in versions { return Err(NotFound); }
      var keys := OpenOf(rows, t);
      var rs := rows;
      if keys != {} {
        var k :| k in keys;
        OnlyOpen(rows, t, k);
        if at <= k.from { return Err(Conflict); }
        rs := rs[k := rs[k].(upto := Some(at))];
      }
      if Clashes(rs, t, at) { return Err(Conflict); }
      ReassignMoves(rows, t, keys, rs, version.value, at);
      tenants, rows := ts, rs[Key(t, at) := Span(version.value, None)];
      return Ok(true);
    }

    method ReassignActive(t: TenantId, version: VersionId, at: int) returns (r: Result<bool, Error>)
      requires Separate(rows)
      modifies this`rows, this`tenants
      ensures match ReassignedActive(old(State()), t, version, at)
              case Ok((s, found)) => State() == s && r == Ok(found)
              case Err(e) => State() == old(State()) && r == Err(e)
    {
      if version !in versions { return Err(NotFound); }
      if !versions[version].status.Active? { return Err(NotAssignable); }
      r := Reassign(t, versions[version].tier, Some(version), at);
    }
  }

}
