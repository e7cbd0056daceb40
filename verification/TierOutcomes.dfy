/** When each tier-version transaction commits and what it then leaves behind, read off the tables' columns. */
module TierOutcomes {
  import opened Common
  import opened Assignments
  import opened TierVersions
  import TL = TierLifecycle

  // ---------------------------------------------------------------- what the tables say

  /** No open assignment names the version. */
  ghost predicate NobodyOn(s: Store, v: VersionId) {
    forall k :: k in s.rows && s.rows[k].version == v ==> s.rows[k].upto.Some?
  }

  /** Every open assignment to the version started before the given time. */
  ghost predicate AllEarlier(s: Store, v: VersionId, at: int) {
    forall k :: k in s.rows && s.rows[k].version == v && s.rows[k].upto.None? ==> k.from < at
  }

  /** The tier has an active purchasable version, one that is not among the given. */
  ghost predicate Sold(s: Store, tier: TierId, besides: set<VersionId>) {
    exists w :: w in s.versions && w !in besides && s.versions[w].tier == tier && s.versions[w].status.Active?
                && s.versions[w].purchasable
  }

  /** The version exists with the status. */
  predicate Has(s: Store, v: VersionId, status: Status) {
    v in s.versions && s.versions[v].status == status
  }

  /** Only the one version's row differs, in status and in what that status records. */
  predicate NowActive(s: Store, t: Store, id: VersionId, reason: string, at: int)
    requires id in s.versions
  {
    id in t.versions && t.versions[id] == s.versions[id].(status := Active, reason := reason, publishedAt := Some(at))
  }

  predicate NowRetired(s: Store, t: Store, id: VersionId, at: int)
    requires id in s.versions
  {
    id in t.versions && t.versions[id] == s.versions[id].(status := Retired, retiredAt := Some(at))
  }

  ghost predicate OthersSame(s: Store, t: Store, but: set<VersionId>) {
    t.tiers == s.tiers && t.versions.Keys == s.versions.Keys
    && forall w :: w in s.versions && w !in but ==> t.versions[w] == s.versions[w]
  }

  predicate SameTenants(s: Store, t: Store) {
    t.rows == s.rows && t.tenants == s.tenants
  }

  ghost predicate OpenOn(s: Store, k: Key, v: VersionId) {
    k in s.rows && s.rows[k].version == v && s.rows[k].upto.None?
  }

  ghost predicate TenantOn(s: Store, tenant: TenantId, v: VersionId) {
    exists k :: OpenOn(s, k, v) && k.tenant == tenant
  }

  /**
   Each open assignment to v is closed at the given time and followed by an open one to target, whose tier the
   tenant takes; every other assignment and tenant is as it was.
   */
  ghost predicate AllMoved(s: Store, t: Store, v: VersionId, target: VersionId, tier: TierId, at: int) {
    && (forall k :: k in s.rows ==>
          k in t.rows && t.rows[k] == if OpenOn(s, k, v) then Span(v, Some(at)) else s.rows[k])
    && (forall k :: k in t.rows && k !in s.rows ==> k.from == at && TenantOn(s, k.tenant, v))
    && (forall k :: OpenOn(s, k, v) ==>
          Key(k.tenant, at) in t.rows && t.rows[Key(k.tenant, at)] == Span(target, None))
    && t.tenants.Keys == s.tenants.Keys
    && forall u :: u in s.tenants ==>
         t.tenants[u] == if TenantOn(s, u, v) then s.tenants[u].(tier := tier) else s.tenants[u]
  }

  // ---------------------------------------------------------------- the move

  lemma LiveIsOpenOn(s: Store, v: VersionId)
    ensures forall k :: k in Live(s.rows, v) <==> OpenOn(s, k, v)
    ensures forall u :: u in Tenants(Live(s.rows, v)) <==> TenantOn(s, u, v)
    ensures Live(s.rows, v) == {} <==> NobodyOn(s, v)
  {
    forall u | TenantOn(s, u, v) ensures u in Tenants(Live(s.rows, v)) {
      var k :| OpenOn(s, k, v) && k.tenant == u;
      assert k in Live(s.rows, v);
    }
    if Live(s.rows, v) == {} {
      forall k | k in s.rows && s.rows[k].version == v ensures s.rows[k].upto.Some? {
        assert k !in Live(s.rows, v);
      }
    }
  }

  lemma MigrateOutcome(s: Store, from: VersionId, target: VersionId, at: int)
    ensures var r := Migrated(s, from, target, at);
            && (r.Ok? <==> target != from && Has(s, target, Active) && AllEarlier(s, from, at))
            && (r == Err(ReassignSelf) ==> target == from)
            && (r == Err(ReassignNotFound) ==> target !in s.versions)
            && (r == Err(ReassignNotActive) ==> target in s.versions && !Has(s, target, Active))
            && (r == Err(Conflict) ==> !AllEarlier(s, from, at))
            && (r.Err? ==> r.error in {ReassignSelf, ReassignNotFound, ReassignNotActive, Conflict})
  {
    LiveIsOpenOn(s, from);
  }

  lemma MigrateMoves(s: Store, from: VersionId, target: VersionId, at: int)
    requires Separate(s.rows) && Migrated(s, from, target, at).Ok?
    ensures var (t, n) := Migrated(s, from, target, at).value;
            && AllMoved(s, t, from, target, s.versions[target].tier, at)
            && t.versions == s.versions && t.tiers == s.tiers && n == |set k | k in s.rows && OpenOn(s, k, from)|
  {
    var t := Migrated(s, from, target, at).value.0;
    var keys := Live(s.rows, from);
    LiveIsOpenOn(s, from);
    LiveCanMove(s.rows, from, at);
    assert keys == set k | k in s.rows && OpenOn(s, k, from);
    forall k | k in s.rows ensures k !in Starts(Tenants(keys), at) {
      if k.tenant in Tenants(keys) && k !in keys { assert s.rows[k].upto.Some? && s.rows[k].upto.value <= at; }
    }
    forall k | OpenOn(s, k, from) ensures Key(k.tenant, at) in Starts(Tenants(keys), at) {
      assert k in keys;
    }
  }

  // ---------------------------------------------------------------- publishing

  lemma TierOnSaleIsSold(s: Store, tier: TierId)
    ensures TierOnSale(s.versions, tier) <==> Sold(s, tier, {})
  {
  }

  /** A plain publish goes through for exactly the drafts that may go on sale, and touches nothing but the draft. */
  lemma PublishSucceedsIff(s: Store, id: VersionId, reason: string, at: int)
    ensures var r := Published(s, id, reason, None, at);
            && (r.Ok? <==> Has(s, id, Draft) && (s.versions[id].purchasable ==> !Sold(s, s.versions[id].tier, {})))
            && (r == Err(NotFound) <==> id !in s.versions)
            && (r == Err(NotDraft) <==> id in s.versions && !Has(s, id, Draft))
            && (r.Err? ==> r.error in {NotFound, NotDraft, PurchasableExists})
            && (r.Ok? ==>
                  && NowActive(s, r.value.0, id, reason, at) && OthersSame(s, r.value.0, {id})
                  && SameTenants(s, r.value.0) && r.value.1 == 0)
  {
    if id in s.versions { TierOnSaleIsSold(s, s.versions[id].tier); }
  }

  /** What a refused supersede says is so. */
  ghost predicate Explains(s: Store, id: VersionId, o: Supersede, at: int, e: Error) {
    match e
    case NotFound => id !in s.versions
    case NotDraft => id in s.versions && !Has(s, id, Draft)
    case SupersedeSelf => o.version == id
    case SupersedeNotFound => o.version !in s.versions
    case SupersedeOtherTier =>
      id in s.versions && o.version in s.versions && s.versions[o.version].tier != s.versions[id].tier
    case SupersedeNotActive => o.version in s.versions && !Has(s, o.version, Active)
    case HasLiveAssignments => !NobodyOn(s, o.version) && !o.force && !o.reassign
    case PurchasableExists =>
      id in s.versions && s.versions[id].purchasable && Sold(s, s.versions[id].tier, {o.version})
    case Conflict => o.reassign && !AllEarlier(s, o.version, at)
    case _ => false
  }

  lemma FreedIsSold(s: Store, id: VersionId, o: Supersede, at: int)
    requires Has(s, id, Draft) && Superseded(s, id, o, at).Ok?
    ensures TierOnSale(Superseded(s, id, o, at).value.versions, s.versions[id].tier) <==>
            Sold(s, s.versions[id].tier, {o.version})
  {
    var t := Superseded(s, id, o, at).value;
    assert forall w :: w in s.versions && w != o.version ==> t.versions[w] == s.versions[w];
    assert t.versions[o.version].status.Retired? && t.versions.Keys == s.versions.Keys;
  }

  /**
   A publish that supersedes goes through exactly when the superseded version is another active one of the
   tier that may be left or emptied, and nothing else of the tier is on sale if the draft is for sale.
   */
  lemma SupersedeSucceedsIff(s: Store, id: VersionId, reason: string, o: Supersede, at: int)
    ensures var r := Published(s, id, reason, Some(o), at);
            && (r.Ok? <==>
                  && Has(s, id, Draft) && o.version != id && Has(s, o.version, Active)
                  && s.versions[o.version].tier == s.versions[id].tier
                  && (o.force || o.reassign || NobodyOn(s, o.version))
                  && (s.versions[id].purchasable ==> !Sold(s, s.versions[id].tier, {o.version}))
                  && (o.reassign ==> AllEarlier(s, o.version, at)))
            && (r.Err? ==> Explains(s, id, o, at, r.error))
            && (r == Err(SupersedeSelf) <==> Has(s, id, Draft) && o.version == id)
            && (r == Err(SupersedeNotFound) <==> Has(s, id, Draft) && o.version !in s.versions)
            && (r == Err(SupersedeOtherTier) <==>
                  Has(s, id, Draft) && o.version in s.versions && s.versions[o.version].tier != s.versions[id].tier)
  {
    LiveIsOpenOn(s, o.version);
    hide Live;
    hide NobodyOn;
    hide AllEarlier;
    hide Sold;
    hide TierOnSale;
    hide Migrated;
    if Has(s, id, Draft) && Superseded(s, id, o, at).Ok? {
      var freed := Superseded(s, id, o, at).value;
      FreedIsSold(s, id, o, at);
      var published := Updated(freed, id, PublishedVersion(s.versions[id], reason, at));
      MigrateOutcome(published, o.version, id, at);
      SameEarlier(s, published, o.version, at);
    }
  }

  lemma SameEarlier(s: Store, t: Store, v: VersionId, at: int)
    requires s.rows == t.rows
    ensures AllEarlier(s, v, at) <==> AllEarlier(t, v, at)
  {
  }

  /** What a supersede leaves: the draft active, the superseded version retired, and its tenants moved or left. */
  lemma SupersedeLeaves(s: Store, id: VersionId, reason: string, o: Supersede, at: int)
    requires Separate(s.rows) && Published(s, id, reason, Some(o), at).Ok?
    ensures var (t, n) := Published(s, id, reason, Some(o), at).value;
            && Has(s, id, Draft) && Has(s, o.version, Active)
            && NowActive(s, t, id, reason, at) && NowRetired(s, t, o.version, at) && OthersSame(s, t, {id, o.version})
            && (o.reassign ==> AllMoved(s, t, o.version, id, s.versions[id].tier, at)
                               && n == |set k | k in s.rows && OpenOn(s, k, o.version)|)
            && (!o.reassign ==> SameTenants(s, t) && n == 0)
  {
    hide AllMoved;
    hide Migrated;
    var published := Updated(Superseded(s, id, o, at).value, id, PublishedVersion(s.versions[id], reason, at));
    if o.reassign {
      MigrateMoves(published, o.version, id, at);
      SameOpen(s, published, o.version);
      MovedAlike(s, published, Published(s, id, reason, Some(o), at).value.0, o.version, id, s.versions[id].tier, at);
    }
  }

  lemma SameOpen(s: Store, t: Store, v: VersionId)
    requires s.rows == t.rows
    ensures (set k | k in s.rows && OpenOn(s, k, v)) == (set k | k in t.rows && OpenOn(t, k, v))
  {
  }

  lemma MovedAlike(s: Store, s': Store, t: Store, v: VersionId, target: VersionId, tier: TierId, at: int)
    requires s.rows == s'.rows && s.tenants == s'.tenants && AllMoved(s', t, v, target, tier, at)
    ensures AllMoved(s, t, v, target, tier, at)
  {
    forall k ensures OpenOn(s, k, v) <==> OpenOn(s', k, v) {}
    forall u ensures TenantOn(s, u, v) <==> TenantOn(s', u, v) {
      if TenantOn(s', u, v) {
        var k :| OpenOn(s', k, v) && k.tenant == u;
        assert OpenOn(s, k, v);
      }
    }
    hide OpenOn;
    hide TenantOn;
  }

  /** A tier with nothing on sale can always go on sale: a fresh purchasable draft can be created and published. */
  lemma SaleIsReachable(s: Store, id: VersionId, tier: TierId, number: nat, contents: string, reason: string, at: int)
    requires tier in s.tiers && id !in s.versions && number >= 1 && !Sold(s, tier, {})
    requires forall w :: w in s.versions && s.versions[w].tier == tier ==> s.versions[w].number != number
    ensures var t := TL.Run(s, [TL.Create(id, tier, number, true, contents), TL.Publish(id, reason, None, at)]);
            && t.versions == s.versions[id := Version(tier, number, Active, true, contents, reason, Some(at), None)]
            && Sold(t, tier, {}) && SameTenants(s, t)
  {
    var create, publish := TL.Create(id, tier, number, true, contents), TL.Publish(id, reason, None, at);
    var drafted := TL.Next(s, create);
    assert drafted == Updated(s, id, Version(tier, number, Draft, true, contents, "", None, None));
    assert !Sold(drafted, tier, {}) by {
      assert forall w :: w in drafted.versions && w != id ==> w in s.versions && drafted.versions[w] == s.versions[w];
    }
    PublishSucceedsIff(drafted, id, reason, at);
    var t := TL.Next(drafted, publish);
    assert [create, publish][1..] == [publish] && [publish][1..] == [];
    assert TL.Run(drafted, [publish]) == TL.Run(t, []) == t;
    assert id in t.versions && t.versions[id].status.Active?;
  }

  // ---------------------------------------------------------------- retiring

  /** A retirement goes through exactly for an active version whose tenants have somewhere to go, or may be left. */
  lemma RetireSucceedsIff(s: Store, id: VersionId, to: Option<VersionId>, force: bool, at: int)
    ensures var r := RetiredBy(s, id, to, force, at);
            && (r.Ok? <==>
                  && Has(s, id, Active)
                  && (to.None? ==> force || NobodyOn(s, id))
                  && (to.Some? ==> to.value != id && Has(s, to.value, Active) && AllEarlier(s, id, at)))
            && (r == Err(NotFound) <==> id !in s.versions)
            && (r == Err(NotActive) <==> id in s.versions && !Has(s, id, Active))
            && (r == Err(HasLiveAssignments) <==> Has(s, id, Active) && to.None? && !force && !NobodyOn(s, id))
  {
    LiveIsOpenOn(s, id);
    hide NobodyOn;
    hide AllEarlier;
    hide Live;
    hide Migrated;
    if to.Some? { MigrateOutcome(s, id, to.value, at); }
  }

  /** What it leaves: the version retired, its tenants moved to the target or left where they are. */
  lemma RetireLeaves(s: Store, id: VersionId, to: Option<VersionId>, force: bool, at: int)
    requires Separate(s.rows) && RetiredBy(s, id, to, force, at).Ok?
    ensures var (t, n) := RetiredBy(s, id, to, force, at).value;
            && Has(s, id, Active) && NowRetired(s, t, id, at) && OthersSame(s, t, {id})
            && (to.Some? ==> to.value in s.versions && AllMoved(s, t, id, to.value, s.versions[to.value].tier, at)
                             && n == |set k | k in s.rows && OpenOn(s, k, id)|)
            && (to.None? ==> SameTenants(s, t) && n == 0)
  {
    hide AllMoved;
    if to.Some? {
      MigrateMoves(s, id, to.value, at);
      var moved := Migrated(s, id, to.value, at).value.0;
      hide Migrated;
      MovedToo(s, moved, RetiredBy(s, id, to, force, at).value.0, id, to.value, s.versions[to.value].tier, at);
    }
  }

  lemma MovedToo(s: Store, t: Store, t': Store, v: VersionId, target: VersionId, tier: TierId, at: int)
    requires t.rows == t'.rows && t.tenants == t'.tenants && AllMoved(s, t, v, target, tier, at)
    ensures AllMoved(s, t', v, target, tier, at)
  {
  }

  // ---------------------------------------------------------------- one tenant

  /** The tenant's history can take a range from the given time on. */
  ghost predicate RoomFrom(s: Store, tenant: TenantId, at: int) {
    forall k :: k in s.rows && k.tenant == tenant ==>
      if s.rows[k].upto.None? then k.from < at else s.rows[k].upto.value <= at
  }

  predicate Present(s: Store, tenant: TenantId) {
    tenant in s.tenants && !s.tenants[tenant].deleted
  }

  /** The tenant has the tier, and every other tenant and every version is as it was. */
  ghost predicate OnlyTier(s: Store, t: Store, tenant: TenantId, tier: TierId) {
    && tenant in s.tenants && t.tenants.Keys == s.tenants.Keys && t.tenants[tenant] == s.tenants[tenant].(tier := tier)
    && (forall u :: u in s.tenants && u != tenant ==> t.tenants[u] == s.tenants[u])
    && t.versions == s.versions && t.tiers == s.tiers
  }

  /** The tenant's open assignments, if any, are closed at the given time, and one to v is open from then on. */
  ghost predicate NowOn(s: Store, t: Store, tenant: TenantId, v: VersionId, at: int) {
    && Key(tenant, at) in t.rows && t.rows[Key(tenant, at)] == Span(v, None)
    && t.rows.Keys == s.rows.Keys + {Key(tenant, at)}
    && forall k :: k in s.rows && k != Key(tenant, at) ==>
         t.rows[k] == if k.tenant == tenant && s.rows[k].upto.None? then s.rows[k].(upto := Some(at)) else s.rows[k]
  }

  /**
   A reassignment reports an absent tenant and changes nothing; otherwise it needs the tier, and for a version
   that the version exists and the history has room.  Without a version only the tenant's tier changes.
   */
  lemma ReassignSucceedsIff(s: Store, tenant: TenantId, tier: TierId, v: Option<VersionId>, at: int)
    ensures var r := Reassigned(s, tenant, tier, v, at);
            && (!Present(s, tenant) ==> r == Ok((s, false)))
            && (Present(s, tenant) ==>
                  && (r.Ok? <==> tier in s.tiers && (v.Some? ==> v.value in s.versions && RoomFrom(s, tenant, at)))
                  && (r == Err(NoSuchTier) <==> tier !in s.tiers)
                  && (r == Err(NotFound) <==> tier in s.tiers && v.Some? && v.value !in s.versions)
                  && (r.Err? ==> r.error in {NoSuchTier, NotFound, Conflict})
                  && (r.Ok? ==> r.value.1 && OnlyTier(s, r.value.0, tenant, tier))
                  && (r.Ok? && v.None? ==> r.value.0.rows == s.rows)
                  && (r.Ok? && v.Some? ==> NowOn(s, r.value.0, tenant, v.value, at)))
  {
    if v.Some? {
      RoomIsCanMove(s, tenant, at);
      MovedOne(s, tenant, v.value, at);
    }
    hide RoomFrom;
    hide CanMove;
    hide NowOn;
    hide Move;
    hide OpenOf;
  }

  lemma RoomIsCanMove(s: Store, tenant: TenantId, at: int)
    ensures CanMove(s.rows, OpenOf(s.rows, tenant), {tenant}, at) <==> RoomFrom(s, tenant, at)
  {
    var keys := OpenOf(s.rows, tenant);
    if CanMove(s.rows, keys, {tenant}, at) {
      forall k | k in s.rows && k.tenant == tenant
        ensures if s.rows[k].upto.None? then k.from < at else s.rows[k].upto.value <= at
      {
        assert k in keys <==> s.rows[k].upto.None?;
      }
    }
  }

  lemma MovedOne(s: Store, tenant: TenantId, v: VersionId, at: int)
    ensures forall t: Store :: t.rows == Move(s.rows, OpenOf(s.rows, tenant), {tenant}, v, at) ==>
              NowOn(s, t, tenant, v, at)
  {
    assert Starts({tenant}, at) == {Key(tenant, at)};
  }

  /** The checked path also needs the version active, and gives the tenant the version's own tier. */
  lemma ReassignActiveSucceedsIff(s: Store, tenant: TenantId, v: VersionId, at: int)
    ensures var r := ReassignedActive(s, tenant, v, at);
            && (r.Ok? <==> Has(s, v, Active)
                           && (Present(s, tenant) ==> s.versions[v].tier in s.tiers && RoomFrom(s, tenant, at)))
            && (r == Err(NotFound) <==> v !in s.versions)
            && (r == Err(NotAssignable) <==> v in s.versions && !Has(s, v, Active))
            && (r.Ok? ==> (r.value.1 <==> Present(s, tenant)))
            && (r.Ok? && r.value.1 ==> OnlyTier(s, r.value.0, tenant, s.versions[v].tier)
                                       && NowOn(s, r.value.0, tenant, v, at))
            && (r.Ok? && !r.value.1 ==> r.value.0 == s)
  {
    hide RoomFrom;
    hide NowOn;
    if v in s.versions { ReassignSucceedsIff(s, tenant, s.versions[v].tier, Some(v), at); }
    hide Reassigned;
  }

  // ---------------------------------------------------------------- drafts

  /** A number is used once in a tier, an id once at all, and only drafts no assignment names can be deleted. */
  lemma DraftsSucceedIff(s: Store, id: VersionId, tier: TierId, number: nat, purchasable: bool, contents: string)
    ensures var created := Created(s, id, tier, number, purchasable, contents);
            && (created.Ok? <==>
                  && tier in s.tiers && number >= 1 && id !in s.versions
                  && forall w :: w in s.versions && s.versions[w].tier == tier ==> s.versions[w].number != number)
            && (created == Err(NoSuchTier) <==> tier !in s.tiers)
            && (created.Ok? ==>
                  && id in created.value.versions && SameTenants(s, created.value)
                  && OthersSame(s.(versions := s.versions[id := created.value.versions[id]]), created.value, {id})
                  && created.value.versions[id].status.Draft? && created.value.versions[id].contents == contents
                  && created.value.versions[id].purchasable == purchasable)
    ensures var edited := DraftUpdated(s, id, purchasable, contents);
            && (edited.Ok? <==> Has(s, id, Draft)) && (edited == Err(NotFound) <==> id !in s.versions)
            && (edited.Ok? ==> OthersSame(s, edited.value, {id}) && SameTenants(s, edited.value))
    ensures var deleted := DraftDeleted(s, id);
            && (deleted.Ok? <==> Has(s, id, Draft) && forall k :: k in s.rows ==> s.rows[k].version != id)
            && (deleted == Err(NotFound) <==> id !in s.versions)
            && (deleted == Err(NotDraft) <==> id in s.versions && !Has(s, id, Draft))
            && (deleted.Ok? ==> deleted.value.versions == s.versions - {id} && SameTenants(s, deleted.value))
  {
  }

  /** A tenant registers once and on a known tier; deleting it leaves its history. */
  lemma TenantsSucceedIff(s: Store, tenant: TenantId, tier: TierId)
    ensures var r := TL.Do(s, TL.Register(tenant, tier));
            && (r.Ok? <==> tier in s.tiers && tenant !in s.tenants)
            && (r.Ok? ==> r.value == s.(tenants := s.tenants[tenant := Tenant(tier, false)]))
    ensures var r := TL.Do(s, TL.SoftDelete(tenant));
            && (r.Ok? <==> tenant in s.tenants)
            && (r.Ok? ==> !Present(r.value, tenant) && r.value.rows == s.rows && r.value.versions == s.versions
                          && forall u :: u in s.tenants && u != tenant ==>
                               u in r.value.tenants && r.value.tenants[u] == s.tenants[u])
  {
  }

  /** A run's operations are these transactions, each with its own arguments. */
  lemma OperationsAre(s: Store, id: VersionId, tier: TierId, number: nat, purchasable: bool, text: string,
                      o: Option<Supersede>, to: Option<VersionId>, force: bool, tenant: TenantId, at: int)
    ensures TL.Do(s, TL.Create(id, tier, number, purchasable, text)) == Created(s, id, tier, number, purchasable, text)
    ensures TL.Do(s, TL.Update(id, purchasable, text)) == DraftUpdated(s, id, purchasable, text)
    ensures TL.Do(s, TL.Delete(id)) == DraftDeleted(s, id)
    ensures var r := Published(s, id, text, o, at);
            TL.Do(s, TL.Publish(id, text, o, at)) == if r.Ok? then Ok(r.value.0) else Err(r.error)
    ensures var r := RetiredBy(s, id, to, force, at);
            TL.Do(s, TL.Retire(id, to, force, at)) == if r.Ok? then Ok(r.value.0) else Err(r.error)
    ensures var r := Reassigned(s, tenant, tier, to, at);
            TL.Do(s, TL.Reassign(tenant, tier, to, at)) == if r.Ok? then Ok(r.value.0) else Err(r.error)
    ensures var r := ReassignedActive(s, tenant, id, at);
            TL.Do(s, TL.ReassignActive(tenant, id, at)) == if r.Ok? then Ok(r.value.0) else Err(r.error)
  {
    hide Published;
    hide RetiredBy;
    hide Reassigned;
    hide ReassignedActive;
    hide Created;
    hide DraftUpdated;
    hide DraftDeleted;
  }
}
