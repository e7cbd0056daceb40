/** What every run of the tier-version transactions keeps, and what a supersede amounts to. */
module TierLifecycle {
  import opened Common
  import opened Assignments
  import opened TierVersions

  // ---------------------------------------------------------------- runs

  datatype Op =
    | Create(id: VersionId, tier: TierId, number: nat, purchasable: bool, contents: string)
    | Update(id: VersionId, purchasable: bool, contents: string)
    | Delete(id: VersionId)
    | Publish(id: VersionId, reason: string, supersede: Option<Supersede>, at: int)
    | Retire(id: VersionId, reassignTo: Option<VersionId>, force: bool, at: int)
    | Reassign(tenant: TenantId, tier: TierId, version: Option<VersionId>, at: int)
    | ReassignActive(tenant: TenantId, target: VersionId, at: int)
    | Register(tenant: TenantId, tier: TierId)
    | SoftDelete(tenant: TenantId)

  function First<T>(r: Result<(Store, T), Error>): Result<Store, Error> {
    match r
    case Ok(v) => Ok(v.0)
    case Err(e) => Err(e)
  }

  function Do(s: Store, op: Op): Result<Store, Error> {
    match op
    case Create(id, tier, number, purchasable, contents) => Created(s, id, tier, number, purchasable, contents)
    case Update(id, purchasable, contents) => DraftUpdated(s, id, purchasable, contents)
    case Delete(id) => DraftDeleted(s, id)
    case Publish(id, reason, o, at) => First(Published(s, id, reason, o, at))
    case Retire(id, to, force, at) => First(RetiredBy(s, id, to, force, at))
    case Reassign(t, tier, version, at) => First(Reassigned(s, t, tier, version, at))
    case ReassignActive(t, v, at) => First(ReassignedActive(s, t, v, at))
    case Register(t, tier) =>
      if tier !in s.tiers then Err(NoSuchTier) else if t in s.tenants then Err(Conflict)
      else Ok(s.(tenants := s.tenants[t := Tenant(tier, false)]))
    case SoftDelete(t) =>
      if t !in s.tenants then Err(NotFound) else Ok(s.(tenants := s.tenants[t := s.tenants[t].(deleted := true)]))
  }

  /** A failed transaction leaves no trace. */
  function Next(s: Store, op: Op): Store {
    match Do(s, op)
    case Ok(t) => t
    case Err(_) => s
  }

  function Run(s: Store, ops: seq<Op>): Store
    decreases |ops|
  {
    if ops == [] then s else Run(Next(s, ops[0]), ops[1..])
  }

  // ---------------------------------------------------------------- invariant

  ghost predicate WellDated(v: Version) {
    match v.status
    case Draft => v.publishedAt.None? && v.retiredAt.None?
    case Active => v.publishedAt.Some? && v.retiredAt.None?
    case Retired => v.publishedAt.Some? && v.retiredAt.Some?
  }

  /** Within a tier, versions differ in number and at most one is on sale. */
  predicate Distinguished(v: Version, w: Version) {
    v.tier == w.tier ==> v.number != w.number && !(OnSale(v) && OnSale(w))
  }

  ghost predicate VersionsInv(versions: map<VersionId, Version>) {
    && (forall id :: id in versions ==> versions[id].number >= 1 && WellDated(versions[id]))
    && (forall a, b :: a in versions && b in versions && a != b ==> Distinguished(versions[a], versions[b]))
  }

  ghost predicate RowsInv(rows: Rows, versions: map<VersionId, Version>, tenants: map<TenantId, Tenant>) {
    Separate(rows) && forall k :: k in rows ==> k.tenant in tenants && rows[k].version in versions
  }

  ghost predicate Inv(s: Store) {
    VersionsInv(s.versions) && RowsInv(s.rows, s.versions, s.tenants)
  }

  /** A published version never changes but for its retirement. */
  predicate Frozen(v: Version, w: Version) {
    w == v || (v.status.Active? && w.retiredAt.Some? && w == RetiredVersion(v, w.retiredAt.value))
  }

  ghost predicate VersionsEvolve(a: map<VersionId, Version>, b: map<VersionId, Version>) {
    forall id :: id in a && !a[id].status.Draft? ==> id in b && Frozen(a[id], b[id])
  }

  /** Recorded history stands: a row stays, and only an open one changes, by being closed. */
  ghost predicate RowsEvolve(a: Rows, b: Rows) {
    forall k :: k in a ==> k in b && b[k].version == a[k].version && (a[k].upto.Some? ==> b[k] == a[k])
  }

  ghost predicate Evolves(s: Store, t: Store) {
    VersionsEvolve(s.versions, t.versions) && RowsEvolve(s.rows, t.rows)
  }

  /** Point-in-time resolution at x is the same in both. */
  ghost predicate SamePast(s: Store, t: Store, x: int) {
    forall tenant, v :: On(s.rows, tenant, x, v) <==> On(t.rows, tenant, x, v)
  }

  /** The same before the time the transaction writes at. */
  ghost predicate PastKept(s: Store, t: Store, at: int) {
    forall x :: x < at ==> SamePast(s, t, x)
  }

  predicate SameHistory(s: Store, t: Store) {
    s.rows == t.rows
  }

  lemma PastAcross(s: Store, t: Store, u: Store, v: Store, at: int)
    requires SameHistory(s, t) && PastKept(t, u, at) && SameHistory(u, v)
    ensures PastKept(s, v, at)
  {
    forall x | x < at ensures SamePast(s, v, x) {
      assert SamePast(t, u, x);
    }
  }

  lemma NoHistory(s: Store, t: Store, at: int)
    requires SameHistory(s, t)
    ensures PastKept(s, t, at)
  {
  }

  ghost predicate Kept(s: Store, t: Store) {
    Inv(t) && Evolves(s, t)
  }

  lemma UpdateKept(s: Store, id: VersionId, v: Version)
    requires Inv(s) && v.number >= 1 && WellDated(v)
    requires id in s.versions ==> (s.versions[id].status.Draft? || Frozen(s.versions[id], v))
    requires forall w :: w in s.versions && w != id ==> Distinguished(s.versions[w], v)
    ensures Kept(s, Updated(s, id, v)) && SameHistory(s, Updated(s, id, v))
  {
  }

  lemma MoveKept(s: Store, keys: set<Key>, who: set<TenantId>, tenants: map<TenantId, Tenant>, target: VersionId,
      at: int)
    requires Inv(s) && CanMove(s.rows, keys, who, at) && target in s.versions && who <= tenants.Keys
    requires tenants.Keys == s.tenants.Keys
    ensures Kept(s, s.(tenants := tenants, rows := Move(s.rows, keys, who, target, at)))
    ensures PastKept(s, s.(tenants := tenants, rows := Move(s.rows, keys, who, target, at)), at)
  {
    MoveKeepsSeparate(s.rows, keys, who, target, at);
    forall x, t, v | x < at ensures On(s.rows, t, x, v) <==> On(Move(s.rows, keys, who, target, at), t, x, v) {
      MoveKeepsPast(s.rows, keys, who, target, at, t, x, v);
    }
  }

  lemma MigrateKept(s: Store, from: VersionId, target: VersionId, at: int)
    requires Inv(s) && Migrated(s, from, target, at).Ok?
    ensures var t := Migrated(s, from, target, at).value.0;
            Kept(s, t) && PastKept(s, t, at) && t.versions == s.versions
  {
    var keys := Live(s.rows, from);
    LiveCanMove(s.rows, from, at);
    MoveKept(s, keys, Tenants(keys), TenantsOnTier(s.tenants, Tenants(keys), s.versions[target].tier), target, at);
  }

  lemma KeptTransitive(s: Store, t: Store, u: Store)
    requires Kept(s, t) && Kept(t, u)
    ensures Kept(s, u)
  {
  }

  lemma KeptItself(s: Store)
    requires Inv(s)
    ensures Kept(s, s) && SameHistory(s, s)
  {
  }

  lemma SupersedeKept(s: Store, id: VersionId, o: Supersede, at: int)
    requires Inv(s) && id in s.versions && s.versions[id].status.Draft? && Superseded(s, id, o, at).Ok?
    ensures var t := Superseded(s, id, o, at).value;
            Kept(s, t) && SameHistory(s, t) && id in t.versions && t.versions[id] == s.versions[id]
  {
    UpdateKept(s, o.version, RetiredVersion(s.versions[o.version], at));
  }

  lemma ActivateKept(s: Store, id: VersionId, reason: string, at: int)
    requires Inv(s) && id in s.versions && s.versions[id].status.Draft?
    requires s.versions[id].purchasable ==> !TierOnSale(s.versions, s.versions[id].tier)
    ensures var t := Updated(s, id, PublishedVersion(s.versions[id], reason, at)); Kept(s, t) && SameHistory(s, t)
  {
    UpdateKept(s, id, PublishedVersion(s.versions[id], reason, at));
  }

  lemma PublishKept(s: Store, id: VersionId, reason: string, o: Option<Supersede>, at: int)
    requires Inv(s) && Published(s, id, reason, o, at).Ok?
    ensures var t := Published(s, id, reason, o, at).value.0; Kept(s, t) && PastKept(s, t, at)
  {
    if o.Some? { SupersedeKept(s, id, o.value, at); } else { KeptItself(s); }
    var freed := if o.Some? then Superseded(s, id, o.value, at).value else s;
    KeptInv(s, freed);
    ActivateKept(freed, id, reason, at);
    var published := Updated(freed, id, PublishedVersion(s.versions[id], reason, at));
    KeptInv(freed, published);
    KeptTransitive(s, freed, published);
    if o.Some? && o.value.reassign {
      var t := Migrated(published, o.value.version, id, at);
      MigrateKept(published, o.value.version, id, at);
      KeptTransitive(s, published, t.value.0);
      PastAcross(s, published, t.value.0, t.value.0, at);
    } else {
      NoHistory(s, published, at);
    }
  }

  lemma KeptInv(s: Store, t: Store)
    requires Kept(s, t)
    ensures Inv(t)
  {
  }

  lemma RetireKept(s: Store, id: VersionId, to: Option<VersionId>, force: bool, at: int)
    requires Inv(s) && RetiredBy(s, id, to, force, at).Ok?
    ensures var t := RetiredBy(s, id, to, force, at).value.0; Kept(s, t) && PastKept(s, t, at)
  {
    var moved := if to.Some? then Migrated(s, id, to.value, at).value.0 else s;
    if to.Some? {
      MigrateKept(s, id, to.value, at);
    } else {
      KeptItself(s);
      NoHistory(s, s, at);
    }
    RetireOneKept(moved, id, at);
    var t := RetiredBy(s, id, to, force, at).value.0;
    hide Kept;
    hide SamePast;
    hide PastKept;
    KeptTransitive(s, moved, t);
    PastAcross(s, s, moved, t, at);
  }

  lemma RetireOneKept(s: Store, id: VersionId, at: int)
    requires Inv(s) && id in s.versions && s.versions[id].status.Active?
    ensures var t := Updated(s, id, RetiredVersion(s.versions[id], at)); Kept(s, t) && SameHistory(s, t)
  {
    UpdateKept(s, id, RetiredVersion(s.versions[id], at));
  }

  lemma ReassignKept(s: Store, t: TenantId, tier: TierId, version: Option<VersionId>, at: int)
    requires Inv(s) && Reassigned(s, t, tier, version, at).Ok?
    ensures var u := Reassigned(s, t, tier, version, at).value.0; Kept(s, u) && PastKept(s, u, at)
  {
    if t in s.tenants && !s.tenants[t].deleted && version.Some? {
      MoveKept(s, OpenOf(s.rows, t), {t}, s.tenants[t := s.tenants[t].(tier := tier)], version.value, at);
    } else {
      NoHistory(s, Reassigned(s, t, tier, version, at).value.0, at);
    }
  }

  /** The time a transaction writes at, if it writes history. */
  function At(op: Op): Option<int> {
    match op
    case Publish(_, _, _, at) => Some(at)
    case Retire(_, _, _, at) => Some(at)
    case Reassign(_, _, _, at) => Some(at)
    case ReassignActive(_, _, at) => Some(at)
    case _ => None
  }

  predicate After(op: Op, x: int) {
    At(op).None? || x < At(op).value
  }

  lemma DeleteKept(s: Store, id: VersionId)
    requires Inv(s) && DraftDeleted(s, id).Ok?
    ensures Kept(s, DraftDeleted(s, id).value)
  {
  }

  lemma TenantsKept(s: Store, tenants: map<TenantId, Tenant>)
    requires Inv(s) && s.tenants.Keys <= tenants.Keys
    ensures Kept(s, s.(tenants := tenants))
  {
  }

  lemma CreateKept(s: Store, id: VersionId, tier: TierId, number: nat, purchasable: bool, contents: string)
    requires Inv(s) && Created(s, id, tier, number, purchasable, contents).Ok?
    ensures Kept(s, Created(s, id, tier, number, purchasable, contents).value)
  {
    UpdateKept(s, id, Version(tier, number, Draft, purchasable, contents, "", None, None));
  }

  lemma DraftUpdateKept(s: Store, id: VersionId, purchasable: bool, contents: string)
    requires Inv(s) && DraftUpdated(s, id, purchasable, contents).Ok?
    ensures Kept(s, DraftUpdated(s, id, purchasable, contents).value)
  {
    UpdateKept(s, id, s.versions[id].(purchasable := purchasable, contents := contents));
  }

  lemma NextKept(s: Store, op: Op)
    requires Inv(s)
    ensures Kept(s, Next(s, op))
    ensures if At(op).Some? then PastKept(s, Next(s, op), At(op).value) else SameHistory(s, Next(s, op))
  {
    if Do(s, op).Err? {
      KeptItself(s);
      if At(op).Some? { NoHistory(s, s, At(op).value); }
    } else {
      hide PastKept;
      hide Kept;
      hide Inv;
      match op
      case Create(id, tier, number, purchasable, contents) => CreateKept(s, id, tier, number, purchasable, contents);
      case Update(id, purchasable, contents) => DraftUpdateKept(s, id, purchasable, contents);
      case Delete(id) => DeleteKept(s, id);
      case Publish(id, reason, o, at) => PublishKept(s, id, reason, o, at);
      case Retire(id, to, force, at) => RetireKept(s, id, to, force, at);
      case Reassign(t, tier, version, at) => ReassignKept(s, t, tier, version, at);
      case ReassignActive(t, v, at) => ReassignKept(s, t, s.versions[v].tier, Some(v), at);
      case Register(t, tier) => TenantsKept(s, Next(s, op).tenants);
      case SoftDelete(t) => TenantsKept(s, Next(s, op).tenants);
    }
  }

  /** In every run: the invariant, frozen published versions, an append-only history. */
  lemma {:induction false} RunKept(s: Store, ops: seq<Op>)
    requires Inv(s)
    ensures Kept(s, Run(s, ops))
    decreases |ops|
  {
    if ops != [] {
      NextKept(s, ops[0]);
      RunKept(Next(s, ops[0]), ops[1..]);
      KeptTransitive(s, Next(s, ops[0]), Run(s, ops));
    }
  }

  /** Whatever later transactions do, which version a tenant was on at time x never changes. */
  lemma {:induction false} PastIsFixed(s: Store, ops: seq<Op>, x: int)
    requires Inv(s) && forall op :: op in ops ==> After(op, x)
    ensures SamePast(s, Run(s, ops), x)
    decreases |ops|
  {
    if ops != [] {
      NextKept(s, ops[0]);
      assert After(ops[0], x);
      assert SamePast(s, Next(s, ops[0]), x);
      PastIsFixed(Next(s, ops[0]), ops[1..], x);
    }
  }

  // ---------------------------------------------------------------- superseding

  /** Publishing d, then retiring v onto it, as two transactions at the same time. */
  function PublishThenRetire(s: Store, d: VersionId, reason: string, v: VersionId, force: bool,
      at: int): Result<(Store, nat), Error>
  {
    match Published(s, d, reason, None, at)
    case Err(e) => Err(e)
    case Ok((t, _)) => RetiredBy(t, v, Some(d), force, at)
  }

  /**
   Superseding with reassignment does what publishing and then retiring does, unless both versions are for
   sale: then only the single transaction gets past the tier's one-on-sale rule.  In the other direction the
   two steps allow a version of another tier, which a supersede refuses.
   */
  lemma SupersedeIsPublishThenRetire(s: Store, d: VersionId, reason: string, v: VersionId, force: bool, at: int)
    ensures var one := Published(s, d, reason, Some(Supersede(v, force, true)), at);
            var two := PublishThenRetire(s, d, reason, v, force, at);
            && (one.Ok? && two.Ok? ==> one.value == two.value)
            && (one.Ok? ==> (two.Ok? <==> !(s.versions[d].purchasable && s.versions[v].purchasable)))
            && (two.Ok? ==> (one.Ok? <==> s.versions[d].tier == s.versions[v].tier))
  {
    if d in s.versions && v in s.versions && s.versions[d].status.Draft? && s.versions[v].status.Active? {
      var draft := s.versions[d];
      var published := Updated(s, d, PublishedVersion(draft, reason, at));
      var freed := Updated(s, v, RetiredVersion(s.versions[v], at));
      var both := Updated(freed, d, PublishedVersion(draft, reason, at));
      assert d != v;
      assert Updated(published, v, RetiredVersion(s.versions[v], at)) == both;
      SalesAside(s, v, draft.tier, at);
      MigrateIgnoresStatus(published, both, v, d, at);
    }
  }

  lemma SalesAside(s: Store, v: VersionId, tier: TierId, at: int)
    requires v in s.versions && s.versions[v].status.Active?
    ensures TierOnSale(s.versions, tier) <==>
            TierOnSale(s.versions[v := RetiredVersion(s.versions[v], at)], tier)
            || (s.versions[v].tier == tier && s.versions[v].purchasable)
  {
    var after := s.versions[v := RetiredVersion(s.versions[v], at)];
    if TierOnSale(s.versions, tier) {
      var id :| id in s.versions && s.versions[id].tier == tier && OnSale(s.versions[id]);
      assert id != v ==> after[id] == s.versions[id];
    }
    if TierOnSale(after, tier) {
      var id :| id in after && after[id].tier == tier && OnSale(after[id]);
      assert id != v && after[id] == s.versions[id];
    }
    if s.versions[v].tier == tier && s.versions[v].purchasable { assert OnSale(s.versions[v]); }
  }

  /** The move looks only at the target, so retiring the source first or last is the same. */
  lemma MigrateIgnoresStatus(s: Store, t: Store, from: VersionId, target: VersionId, at: int)
    requires s.rows == t.rows && s.tenants == t.tenants && s.tiers == t.tiers
    requires target in s.versions && target in t.versions && s.versions[target] == t.versions[target]
    ensures match Migrated(s, from, target, at)
            case Ok((u, n)) => Migrated(t, from, target, at) == Ok((u.(versions := t.versions), n))
            case Err(e) => Migrated(t, from, target, at) == Err(e)
  {
  }

  /**
   What a publish does to the versions: the draft goes on sale as drafted, the superseded one retires, no other
   moves.
   */
  lemma PublishChangesOnly(s: Store, d: VersionId, reason: string, o: Option<Supersede>, at: int)
    requires Published(s, d, reason, o, at).Ok?
    ensures var t := Published(s, d, reason, o, at).value.0;
            && t.versions.Keys == s.versions.Keys && t.tiers == s.tiers
            && s.versions[d].status.Draft? && t.versions[d].status.Active? && t.versions[d].publishedAt == Some(at)
            && t.versions[d].reason == reason && t.versions[d].retiredAt == s.versions[d].retiredAt
            && SameOffer(t.versions[d], s.versions[d])
            && (o.Some? ==>
                  && o.value.version in s.versions && o.value.version != d
                  && s.versions[o.value.version].status.Active?
                  && s.versions[o.value.version].tier == s.versions[d].tier
                  && Frozen(s.versions[o.value.version], t.versions[o.value.version])
                  && t.versions[o.value.version].status.Retired?
                  && t.versions[o.value.version].retiredAt == Some(at))
            && (forall id :: id in s.versions && id != d && (o.Some? ==> id != o.value.version) ==>
                t.versions[id] == s.versions[id])
  {
  }

  predicate SameOffer(v: Version, w: Version) {
    v.tier == w.tier && v.number == w.number && v.purchasable == w.purchasable && v.contents == w.contents
  }

  /** What a supersede with reassignment does to the assignments: all of v's move, nobody else's do. */
  lemma SupersedeMoves(s: Store, d: VersionId, reason: string, v: VersionId, force: bool, at: int)
    requires Inv(s) && Published(s, d, reason, Some(Supersede(v, force, true)), at).Ok?
    ensures var (t, n) := Published(s, d, reason, Some(Supersede(v, force, true)), at).value;
            && n == |Live(s.rows, v)| && Live(t.rows, v) == {}
            && |Live(t.rows, d)| == |Live(s.rows, d)| + n
            && (forall w :: w != v && w != d ==> Live(t.rows, w) == Live(s.rows, w))
            && |Open(t.rows)| == |Open(s.rows)| && Tenants(Open(t.rows)) == Tenants(Open(s.rows))
  {
    var keys := Live(s.rows, v);
    LiveCanMove(s.rows, v, at);
    forall w ensures w == v ==> Live(Move(s.rows, keys, Tenants(keys), d, at), w) == {}
             ensures w == d ==> |Live(Move(s.rows, keys, Tenants(keys), d, at), w)| == |Live(s.rows, w)| + |keys|
             ensures w != v && w != d ==> Live(Move(s.rows, keys, Tenants(keys), d, at), w) == Live(s.rows, w) {
      MoveCounts(s.rows, v, d, at, w);
    }
    MoveConserves(s.rows, keys, d, at);
    MoveKeepsTenants(s.rows, keys, d, at);
  }

  lemma LiveTenant(s: Store, v: VersionId, tenant: TenantId)
    requires Inv(s) && tenant in Tenants(Live(s.rows, v))
    ensures tenant in s.tenants && Separate(s.rows)
  {
  }

  lemma TenantsMoved(tenants: map<TenantId, Tenant>, who: set<TenantId>, tier: TierId, t: TenantId)
    ensures t in TenantsOnTier(tenants, who, tier) <==> t in tenants
    ensures t in tenants ==>
              TenantsOnTier(tenants, who, tier)[t] == if t in who then tenants[t].(tier := tier) else tenants[t]
  {
  }

  /** Where each tenant is from the supersede on: v's live tenants on d and its tier, the others as before. */
  lemma SupersedePlaces(s: Store, d: VersionId, reason: string, v: VersionId, force: bool, at: int,
      tenant: TenantId, x: int, w: VersionId)
    requires Inv(s) && Published(s, d, reason, Some(Supersede(v, force, true)), at).Ok? && at <= x
    ensures var t := Published(s, d, reason, Some(Supersede(v, force, true)), at).value.0;
            if tenant in Tenants(Live(s.rows, v))
            then (On(t.rows, tenant, x, w) <==> w == d) && tenant in t.tenants
              && t.tenants[tenant].tier == s.versions[d].tier
            else (On(t.rows, tenant, x, w) <==> On(s.rows, tenant, x, w))
                 && (tenant in s.tenants ==> tenant in t.tenants && t.tenants[tenant] == s.tenants[tenant])
  {
    var keys := Live(s.rows, v);
    LiveCanMove(s.rows, v, at);
    TenantsMoved(s.tenants, Tenants(keys), s.versions[d].tier, tenant);
    if tenant in Tenants(keys) { LiveTenant(s, v, tenant); }
    hide On;
    hide Separate;
    hide CanMove;
    hide Move;
    hide Inv;
    hide TenantsOnTier;
    if tenant in Tenants(keys) {
      MovePutsOnTarget(s.rows, keys, Tenants(keys), d, at, tenant, x, w);
    } else {
      MoveKeepsPast(s.rows, keys, Tenants(keys), d, at, tenant, x, w);
    }
  }

  /** Publishing can clash with history only where a live range starts at or after the publish. */
  lemma SupersedeConflicts(s: Store, d: VersionId, reason: string, v: VersionId, force: bool, at: int)
    requires Inv(s)
    ensures Published(s, d, reason, Some(Supersede(v, force, true)), at) == Err(Conflict) <==>
            Published(s, d, reason, Some(Supersede(v, true, false)), at).Ok?
            && exists k :: k in Live(s.rows, v) && at <= k.from
  {
  }

  // ---------------------------------------------------------------- drafts

  /** Deleting a draft just created undoes the creation. */
  lemma DeleteUndoesCreate(s: Store, id: VersionId, tier: TierId, number: nat, purchasable: bool, contents: string)
    requires Inv(s) && Created(s, id, tier, number, purchasable, contents).Ok?
    ensures DraftDeleted(Created(s, id, tier, number, purchasable, contents).value, id) == Ok(s)
  {
    var t := Created(s, id, tier, number, purchasable, contents).value;
    assert t.versions - {id} == s.versions;
  }

  lemma {:induction false} PublishedStays(s: Store, ops: seq<Op>, id: VersionId)
    requires Inv(s) && id in s.versions && !s.versions[id].status.Draft?
    ensures id in Run(s, ops).versions && Frozen(s.versions[id], Run(s, ops).versions[id])
  {
    RunKept(s, ops);
    hide Inv;
    hide Frozen;
    hide Run;
  }

  /**
   Publishing is final: in every later state the version is as it was published but for its retirement, every
   edit and every delete of it is refused, and so is every new version of its tier under its number.
   */
  lemma PublishedIsFinal(s: Store, ops: seq<Op>, id: VersionId, other: VersionId, purchasable: bool, contents: string)
    requires Inv(s) && id in s.versions && !s.versions[id].status.Draft?
    ensures var t := Run(s, ops); var v := s.versions[id];
            && id in t.versions && Frozen(v, t.versions[id])
            && DraftUpdated(t, id, purchasable, contents) == Err(NotDraft)
            && DraftDeleted(t, id) == Err(NotDraft)
            && Created(t, other, v.tier, v.number, purchasable, contents).Err?
  {
    PublishedStays(s, ops, id);
    var t := Run(s, ops);
    hide Run;
    hide Inv;
    assert t.versions[id].tier == s.versions[id].tier && t.versions[id].number == s.versions[id].number;
  }

  /** A publish sells what the last edit wrote, whatever the draft held before it. */
  lemma LastEditIsPublished(s: Store, id: VersionId, before: string, early: bool, purchasable: bool, contents: string,
                            reason: string, o: Option<Supersede>, at: int)
    requires DraftUpdated(s, id, early, before).Ok?
    ensures var once := DraftUpdated(s, id, purchasable, contents);
            && DraftUpdated(DraftUpdated(s, id, early, before).value, id, purchasable, contents) == once
            && (Published(once.value, id, reason, o, at).Ok? ==>
                  var v := Published(once.value, id, reason, o, at).value.0.versions[id];
                  v.purchasable == purchasable && v.contents == contents && v.status.Active?)
  {
    var once := DraftUpdated(s, id, purchasable, contents).value;
    assert Updated(Updated(s, id, s.versions[id].(purchasable := early, contents := before)), id,
                   s.versions[id].(purchasable := purchasable, contents := contents)) == once;
    if Published(once, id, reason, o, at).Ok? { PublishChangesOnly(once, id, reason, o, at); }
  }

  /** A checked reassignment: from then on the tenant resolves to the version and has its tier, before as before. */
  lemma ReassignPlaces(s: Store, t: TenantId, v: VersionId, at: int, x: int, w: VersionId, other: TenantId)
    requires Inv(s) && ReassignedActive(s, t, v, at).Ok? && ReassignedActive(s, t, v, at).value.1
    ensures var u := ReassignedActive(s, t, v, at).value.0;
            && (at <= x ==> (On(u.rows, t, x, w) <==> w == v))
            && (x < at ==> (On(u.rows, t, x, w) <==> On(s.rows, t, x, w)))
            && t in u.tenants && u.tenants[t].tier == s.versions[v].tier && u.versions == s.versions
            && (other != t ==> (On(u.rows, other, x, w) <==> On(s.rows, other, x, w))
                               && (other in s.tenants ==> other in u.tenants && u.tenants[other] == s.tenants[other]))
  {
    var keys := OpenOf(s.rows, t);
    if at <= x {
      MovePutsOnTarget(s.rows, keys, {t}, v, at, t, x, w);
    } else {
      MoveKeepsPast(s.rows, keys, {t}, v, at, t, x, w);
    }
    if other != t { MoveKeepsPast(s.rows, keys, {t}, v, at, other, x, w); }
    hide On;
    hide Move;
    hide CanMove;
    hide Separate;
  }

  /** Superseding the version on sale takes the tier off sale; superseding any other leaves the sale as it was. */
  lemma SupersedeFreesTheTier(s: Store, d: VersionId, o: Supersede, at: int)
    requires Inv(s) && d in s.versions && s.versions[d].status.Draft? && Superseded(s, d, o, at).Ok?
    ensures var t := Superseded(s, d, o, at).value; var tier := s.versions[d].tier;
            && Kept(s, t) && SameHistory(s, t) && t.versions[d] == s.versions[d]
            && (OnSale(s.versions[o.version]) ==> !TierOnSale(t.versions, tier))
            && (!OnSale(s.versions[o.version]) ==> (TierOnSale(t.versions, tier) <==> TierOnSale(s.versions, tier)))
  {
    SupersedeKept(s, d, o, at);
    SalesAside(s, o.version, s.versions[d].tier, at);
    var t := Superseded(s, d, o, at).value;
    if OnSale(s.versions[o.version]) {
      forall id | id in t.versions && id != o.version && t.versions[id].tier == s.versions[d].tier
        ensures !OnSale(t.versions[id])
      {
        assert Distinguished(s.versions[id], s.versions[o.version]);
      }
    }
  }

  // ---------------------------------------------------------------- live assignments stay on active versions

  /** Nothing is forced, and tenants are assigned through the checked path or not at all. */
  predicate Careful(op: Op) {
    match op
    case Publish(_, _, o, _) => o.Some? ==> o.value.reassign || !o.value.force
    case Retire(_, to, force, _) => to.Some? || !force
    case Reassign(_, _, version, _) => version.None?
    case _ => true
  }

  ghost predicate LiveOnActive(s: Store) {
    forall k :: k in Open(s.rows) ==> s.rows[k].version in s.versions && s.versions[s.rows[k].version].status.Active?
  }

  lemma MigrateKeepsLive(s: Store, from: VersionId, target: VersionId, at: int)
    requires Inv(s) && Migrated(s, from, target, at).Ok?
    requires forall k :: k in Open(s.rows) && s.rows[k].version != from ==>
               s.rows[k].version in s.versions && s.versions[s.rows[k].version].status.Active?
    ensures LiveOnActive(Migrated(s, from, target, at).value.0)
            && Live(Migrated(s, from, target, at).value.0.rows, from) == {}
  {
    var keys := Live(s.rows, from);
    LiveCanMove(s.rows, from, at);
    MoveOpen(s.rows, keys, Tenants(keys), target, at);
    MoveCounts(s.rows, from, target, at, from);
  }

  lemma RetireKeepsLive(s: Store, id: VersionId, at: int)
    requires LiveOnActive(s) && id in s.versions && Live(s.rows, id) == {}
    ensures LiveOnActive(Updated(s, id, RetiredVersion(s.versions[id], at)))
  {
    forall k | k in Open(s.rows) ensures s.rows[k].version != id {
      assert s.rows[k].version == id ==> k in Live(s.rows, id);
    }
  }

  lemma PublishKeepsLive(s: Store, id: VersionId, reason: string, o: Option<Supersede>, at: int)
    requires Inv(s) && LiveOnActive(s) && Published(s, id, reason, o, at).Ok?
             && (o.Some? ==> o.value.reassign || !o.value.force)
    ensures LiveOnActive(Published(s, id, reason, o, at).value.0)
  {
    if o.Some? { SupersedeKept(s, id, o.value, at); } else { KeptItself(s); }
    var freed := if o.Some? then Superseded(s, id, o.value, at).value else s;
    ActivateKept(freed, id, reason, at);
    var published := Updated(freed, id, PublishedVersion(s.versions[id], reason, at));
    if o.Some? && o.value.reassign {
      MigrateKeepsLive(published, o.value.version, id, at);
    } else if o.Some? {
      RetireKeepsLive(s, o.value.version, at);
    }
  }

  lemma RetiredByKeepsLive(s: Store, id: VersionId, to: Option<VersionId>, force: bool, at: int)
    requires Inv(s) && LiveOnActive(s) && RetiredBy(s, id, to, force, at).Ok? && (to.Some? || !force)
    ensures LiveOnActive(RetiredBy(s, id, to, force, at).value.0)
  {
    if to.Some? {
      MigrateKeepsLive(s, id, to.value, at);
      RetireKeepsLive(Migrated(s, id, to.value, at).value.0, id, at);
    } else {
      RetireKeepsLive(s, id, at);
    }
  }

  lemma ReassignKeepsLive(s: Store, t: TenantId, tier: TierId, v: VersionId, at: int)
    requires LiveOnActive(s) && v in s.versions && s.versions[v].status.Active?
             && Reassigned(s, t, tier, Some(v), at).Ok?
    ensures LiveOnActive(Reassigned(s, t, tier, Some(v), at).value.0)
  {
  }

  lemma DraftsKeepLive(s: Store, op: Op)
    requires LiveOnActive(s) && At(op).None?
    ensures LiveOnActive(Next(s, op))
  {
  }

  lemma NextKeepsLive(s: Store, op: Op)
    requires Inv(s) && LiveOnActive(s) && Careful(op)
    ensures LiveOnActive(Next(s, op))
  {
    if Do(s, op).Ok? {
      hide LiveOnActive;
      match op
      case Publish(id, reason, o, at) => PublishKeepsLive(s, id, reason, o, at);
      case Retire(id, to, force, at) => RetiredByKeepsLive(s, id, to, force, at);
      case Reassign(t, tier, version, at) => TierOnlyKeepsLive(s, t, tier, at);
      case ReassignActive(t, v, at) => ReassignKeepsLive(s, t, s.versions[v].tier, v, at);
      case _ => DraftsKeepLive(s, op);
    }
  }

  lemma TierOnlyKeepsLive(s: Store, t: TenantId, tier: TierId, at: int)
    requires LiveOnActive(s) && Reassigned(s, t, tier, None, at).Ok?
    ensures LiveOnActive(Reassigned(s, t, tier, None, at).value.0)
  {
  }

  /** Without force, and with tenants assigned through the checked path, a retired version never has a live tenant. */
  lemma {:induction false} LiveStaysOnActive(s: Store, ops: seq<Op>)
    requires Inv(s) && LiveOnActive(s) && forall op :: op in ops ==> Careful(op)
    ensures LiveOnActive(Run(s, ops))
    decreases |ops|
  {
    if ops != [] {
      NextKeepsLive(s, ops[0]);
      NextKept(s, ops[0]);
      LiveStaysOnActive(Next(s, ops[0]), ops[1..]);
    }
  }

  // ---------------------------------------------------------------- exactly which transactions keep it

  /** What a caller can check first: only a force over live tenants and an unchecked, unsellable target break it. */
  predicate Guarded(s: Store, op: Op) {
    match op
    case Publish(_, _, o, _) => o.Some? ==> o.value.reassign || Live(s.rows, o.value.version) == {}
    case Retire(id, to, _, _) => to.Some? || Live(s.rows, id) == {}
    case Reassign(t, _, version, _) =>
      version.Some? && version.value in s.versions && t in s.tenants && !s.tenants[t].deleted ==>
        s.versions[version.value].status.Active?
    case _ => true
  }

  lemma RetireKeepsLiveIff(s: Store, id: VersionId, at: int)
    requires LiveOnActive(s) && id in s.versions
    ensures LiveOnActive(Updated(s, id, RetiredVersion(s.versions[id], at))) <==> Live(s.rows, id) == {}
  {
    var t := Updated(s, id, RetiredVersion(s.versions[id], at));
    if Live(s.rows, id) == {} {
      RetireKeepsLive(s, id, at);
    } else {
      var k :| k in Live(s.rows, id);
      assert k in Open(t.rows) && !t.versions[id].status.Active?;
    }
  }

  lemma ActivateKeepsLive(s: Store, id: VersionId, reason: string, at: int)
    requires id in s.versions && s.versions[id].status.Draft?
    requires forall k :: k in Open(s.rows) ==> s.rows[k].version != id
    ensures LiveOnActive(Updated(s, id, PublishedVersion(s.versions[id], reason, at))) <==> LiveOnActive(s)
  {
    var t := Updated(s, id, PublishedVersion(s.versions[id], reason, at));
    assert t.rows == s.rows;
    forall k | k in Open(s.rows) && s.rows[k].version in s.versions
      ensures t.versions[s.rows[k].version] == s.versions[s.rows[k].version] {}
  }

  lemma PublishKeepsLiveIff(s: Store, id: VersionId, reason: string, o: Option<Supersede>, at: int)
    requires Inv(s) && LiveOnActive(s) && Published(s, id, reason, o, at).Ok?
    ensures LiveOnActive(Published(s, id, reason, o, at).value.0) <==> Guarded(s, Publish(id, reason, o, at))
  {
    if o.None? || o.value.reassign {
      PublishKeepsLive(s, id, reason, o, at);
    } else {
      var freed := Superseded(s, id, o.value, at).value;
      RetireKeepsLiveIff(s, o.value.version, at);
      ActivateKeepsLive(freed, id, reason, at);
    }
  }

  lemma RetiredByKeepsLiveIff(s: Store, id: VersionId, to: Option<VersionId>, force: bool, at: int)
    requires Inv(s) && LiveOnActive(s) && RetiredBy(s, id, to, force, at).Ok?
    ensures LiveOnActive(RetiredBy(s, id, to, force, at).value.0) <==> Guarded(s, Retire(id, to, force, at))
  {
    if to.Some? { RetiredByKeepsLive(s, id, to, force, at); } else { RetireKeepsLiveIff(s, id, at); }
  }

  lemma ReassignKeepsLiveIff(s: Store, t: TenantId, tier: TierId, version: Option<VersionId>, at: int)
    requires LiveOnActive(s) && Reassigned(s, t, tier, version, at).Ok?
    ensures LiveOnActive(Reassigned(s, t, tier, version, at).value.0) <==> Guarded(s, Reassign(t, tier, version, at))
  {
    var u := Reassigned(s, t, tier, version, at).value.0;
    if version.None? {
      TierOnlyKeepsLive(s, t, tier, at);
    } else if t in s.tenants && !s.tenants[t].deleted {
      if s.versions[version.value].status.Active? {
        ReassignKeepsLive(s, t, tier, version.value, at);
      } else {
        assert Key(t, at) in Starts({t}, at);
        assert Key(t, at) in Open(u.rows) && u.rows[Key(t, at)].version == version.value;
      }
    }
  }

  /** A transaction that commits keeps every live tenant on an active version exactly when it meets its guard. */
  lemma NextKeepsLiveIff(s: Store, op: Op)
    requires Inv(s) && LiveOnActive(s) && Do(s, op).Ok?
    ensures LiveOnActive(Next(s, op)) <==> Guarded(s, op)
  {
    match op
    case Publish(id, reason, o, at) => PublishKeepsLiveIff(s, id, reason, o, at);
    case Retire(id, to, force, at) => RetiredByKeepsLiveIff(s, id, to, force, at);
    case Reassign(t, tier, version, at) => ReassignKeepsLiveIff(s, t, tier, version, at);
    case ReassignActive(t, v, at) => ReassignKeepsLiveIff(s, t, s.versions[v].tier, Some(v), at);
    case _ => DraftsKeepLive(s, op);
  }

  /** Every transaction of the run that commits meets its guard where it runs. */
  ghost predicate AllGuarded(s: Store, ops: seq<Op>)
    decreases |ops|
  {
    ops != [] ==> (Do(s, ops[0]).Ok? ==> Guarded(s, ops[0])) && AllGuarded(Next(s, ops[0]), ops[1..])
  }

  ghost predicate AlwaysOnActive(s: Store, ops: seq<Op>)
    decreases |ops|
  {
    LiveOnActive(s) && (ops != [] ==> AlwaysOnActive(Next(s, ops[0]), ops[1..]))
  }

  /** All along a run no live tenant is on a retired or draft version, exactly when every commit met its guard. */
  lemma {:induction false} AlwaysOnActiveIff(s: Store, ops: seq<Op>)
    requires Inv(s) && LiveOnActive(s)
    ensures AlwaysOnActive(s, ops) <==> AllGuarded(s, ops)
    decreases |ops|
  {
    hide Inv;
    hide LiveOnActive;
    hide Do;
    hide Guarded;
    if ops != [] {
      var t := Next(s, ops[0]);
      NextKept(s, ops[0]);
      KeptInv(s, t);
      if Do(s, ops[0]).Ok? { NextKeepsLiveIff(s, ops[0]); }
      if LiveOnActive(t) {
        AlwaysOnActiveIff(t, ops[1..]);
      } else {
        assert !AlwaysOnActive(t, ops[1..]);
      }
    }
  }

  /** The unchecked path does put a tenant on a retired version. */
  lemma PlainReassignIgnoresStatus()
    ensures var s := Store({"pro"}, map["v1" := Version("pro", 1, Retired, true, "", "", Some(1), Some(2))],
                           map["acme" := Tenant("pro", false)], map[]);
            Inv(s) && LiveOnActive(s) && !LiveOnActive(Next(s, Reassign("acme", "pro", Some("v1"), 5)))
  {
    var s := Store({"pro"}, map["v1" := Version("pro", 1, Retired, true, "", "", Some(1), Some(2))],
                   map["acme" := Tenant("pro", false)], map[]);
    var t := Next(s, Reassign("acme", "pro", Some("v1"), 5));
    assert OpenOf(s.rows, "acme") == {};
    assert CanMove(s.rows, {}, {"acme"}, 5);
    assert t.rows == Move(s.rows, {}, {"acme"}, "v1", 5);
    assert Key("acme", 5) in Starts({"acme"}, 5);
    assert Key("acme", 5) in Open(t.rows) && t.versions["v1"].status.Retired?;
  }
}
