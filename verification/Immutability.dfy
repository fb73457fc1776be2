/** The create-only fields: what an update may not change. */
module Immutability {
  import opened Options
  import opened ControlPlanes
  import opened Webhook

  function EffectiveStorageSize(size: string): string { Or(size, DEFAULT_STORAGE_SIZE) }

  /* ---- What is frozen ---- */

  datatype FrozenDatabase = FrozenDatabase(clusterRef: Option<string>, database: string, replicas: int, storageSize: string)

  datatype FrozenKeystone = FrozenKeystone(database: Option<FrozenDatabase>, cache: Option<Option<string>>)

  datatype FrozenInfrastructure = FrozenInfrastructure(database: FrozenDatabase, cache: Option<string>)

  /** The projection of a ControlPlane no update changes. */
  datatype Frozen = Frozen(
    external: bool, infrastructure: Option<FrozenInfrastructure>, keystone: Option<FrozenKeystone>,
    horizon: Option<Option<Option<string>>>, keystoneNamespace: Option<NamespaceBlock>,
    horizonNamespace: Option<NamespaceBlock>, secretName: string, region: string)

  function FreezeDatabase(db: DatabaseSpec): FrozenDatabase {
    FrozenDatabase(db.clusterRef, db.database, db.replicas, EffectiveStorageSize(db.storageSize))
  }

  function FreezeDedicatedDatabase(db: Option<DatabaseSpec>): Option<FrozenDatabase> {
    if db == None then None else Some(FreezeDatabase(db.value))
  }

  function FreezeCache(cache: Option<CacheSpec>): Option<Option<string>> {
    if cache == None then None else Some(cache.value.clusterRef)
  }

  function Freeze(cp: ControlPlane): Frozen {
    var ks, hz := KeystoneDedicatedBlock(cp), HorizonDedicatedBlock(cp);
    Frozen(
      IsExternalKeystone(cp),
      if cp.spec.infrastructure == None then None
      else Some(FrozenInfrastructure(FreezeDatabase(cp.spec.infrastructure.value.database),
                                     cp.spec.infrastructure.value.cache.clusterRef)),
      if ks == None then None else Some(FrozenKeystone(FreezeDedicatedDatabase(ks.value.database), FreezeCache(ks.value.cache))),
      if hz == None then None else Some(FreezeCache(hz.value.cache)),
      KeystoneNamespaceBlock(cp), HorizonNamespaceBlock(cp), cp.spec.admin.secretName, cp.spec.region)
  }

  /* ---- The checks ---- */

  method ValidateDatabaseImmutable(o: DatabaseSpec, n: DatabaseSpec) returns (errs: ErrorList)
    ensures errs == [] <==> FreezeDatabase(o) == FreezeDatabase(n)
  {
    errs := [];
    if o.clusterRef.Some? != n.clusterRef.Some? {
      errs := errs + [FieldError("database", Invalid)];
    } else if o.clusterRef.Some? && n.clusterRef.Some? && o.clusterRef.value != n.clusterRef.value {
      errs := errs + [FieldError("database.clusterRef.name", Invalid)];
    }
    if o.database != n.database { errs := errs + [FieldError("database.database", Invalid)]; }
    if o.replicas != n.replicas { errs := errs + [FieldError("database.replicas", Invalid)]; }
    if EffectiveStorageSize(o.storageSize) != EffectiveStorageSize(n.storageSize) {
      errs := errs + [FieldError("database.storageSize", Invalid)];
    }
  }

  method ValidateCacheImmutable(o: CacheSpec, n: CacheSpec) returns (errs: ErrorList)
    ensures errs == [] <==> o.clusterRef == n.clusterRef
  {
    errs := [];
    if o.clusterRef.Some? != n.clusterRef.Some? {
      errs := errs + [FieldError("cache", Invalid)];
    } else if o.clusterRef.Some? && n.clusterRef.Some? && o.clusterRef.value != n.clusterRef.value {
      errs := errs + [FieldError("cache.clusterRef.name", Invalid)];
    }
  }

  method ValidateDedicatedDatabaseImmutable(o: Option<DatabaseSpec>, n: Option<DatabaseSpec>) returns (errs: ErrorList)
    ensures errs == [] <==> FreezeDedicatedDatabase(o) == FreezeDedicatedDatabase(n)
  {
    if o.Some? != n.Some? { return [FieldError("dedicatedBackingServices.database", Invalid)]; }
    if o == None { return []; }
    errs := ValidateDatabaseImmutable(o.value, n.value);
  }

  method ValidateDedicatedCacheImmutable(o: Option<CacheSpec>, n: Option<CacheSpec>) returns (errs: ErrorList)
    ensures errs == [] <==> FreezeCache(o) == FreezeCache(n)
  {
    if o.Some? != n.Some? { return [FieldError("dedicatedBackingServices.cache", Invalid)]; }
    if o == None { return []; }
    errs := ValidateCacheImmutable(o.value, n.value);
  }

  method ValidateDedicatedImmutable(o: ControlPlane, n: ControlPlane) returns (errs: ErrorList)
    ensures errs == [] <==> Freeze(o).keystone == Freeze(n).keystone && Freeze(o).horizon == Freeze(n).horizon
  {
    errs := [];
    var oldKS, newKS := KeystoneDedicatedBlock(o), KeystoneDedicatedBlock(n);
    if oldKS.Some? != newKS.Some? {
      errs := errs + [FieldError("keystone.dedicatedBackingServices", Invalid)];
    } else if oldKS.Some? {
      var db := ValidateDedicatedDatabaseImmutable(oldKS.value.database, newKS.value.database);
      var cache := ValidateDedicatedCacheImmutable(oldKS.value.cache, newKS.value.cache);
      errs := errs + db + cache;
    }
    var oldHZ, newHZ := HorizonDedicatedBlock(o), HorizonDedicatedBlock(n);
    if oldHZ.Some? != newHZ.Some? {
      errs := errs + [FieldError("horizon.dedicatedBackingServices", Invalid)];
    } else if oldHZ.Some? {
      var cache := ValidateDedicatedCacheImmutable(oldHZ.value.cache, newHZ.value.cache);
      errs := errs + cache;
    }
  }

  method FreezeNamespace(o: Option<NamespaceBlock>, n: Option<NamespaceBlock>) returns (errs: ErrorList)
    ensures errs == [] <==> o == n
  {
    errs := [];
    if o.Some? != n.Some? { errs := errs + [FieldError("namespace", Invalid)]; }
    if o == None || n == None { return; }
    if o.value.name != n.value.name { errs := errs + [FieldError("namespace.name", Invalid)]; }
    if o.value.lifecycle != n.value.lifecycle { errs := errs + [FieldError("namespace.lifecycle", Invalid)]; }
  }

  /* ---- Service accounts, matched by name ---- */

  predicate SameAccount(o: ServiceAccount, n: ServiceAccount) {
    && o.userName == n.userName && o.domainName == n.domainName && o.project == n.project
    && o.targetNamespace == n.targetNamespace
  }

  /** The entry an index by name finds: of several under one name, the last. */
  function ByName(sas: seq<ServiceAccount>, name: string): (r: Option<ServiceAccount>)
    ensures r.Some? ==> r.value in sas && r.value.name == name
    ensures r == None ==> forall i :: 0 <= i < |sas| ==> sas[i].name != name
  {
    if sas == [] then None
    else if sas[|sas| - 1].name == name then Some(sas[|sas| - 1])
    else ByName(sas[..|sas| - 1], name)
  }

  lemma {:induction false} ByNameFinds(sas: seq<ServiceAccount>, i: nat)
    requires i < |sas| && forall j, k :: 0 <= j < k < |sas| ==> sas[j].name != sas[k].name
    ensures ByName(sas, sas[i].name) == Some(sas[i])
  {
    if i < |sas| - 1 { ByNameFinds(sas[..|sas| - 1], i); }
  }

  /** Entries under one name keep their identity, project and delivery. */
  ghost predicate AccountsKept(o: seq<ServiceAccount>, n: seq<ServiceAccount>) {
    forall j :: 0 <= j < |n| ==> var a := ByName(o, n[j].name); a.Some? ==> SameAccount(a.value, n[j])
  }

  /** The index by name of the old entries. */
  method IndexByName(o: seq<ServiceAccount>) returns (index: map<string, ServiceAccount>)
    ensures forall x :: x in index <==> ByName(o, x).Some?
    ensures forall x :: x in index ==> ByName(o, x) == Some(index[x])
  {
    index := map[];
    for i := 0 to |o|
      invariant forall x :: x in index <==> ByName(o[..i], x).Some?
      invariant forall x :: x in index ==> ByName(o[..i], x) == Some(index[x])
    {
      assert o[..i + 1][..i] == o[..i];
      index := index[o[i].name := o[i]];
    }
    assert o[..|o|] == o;
  }

  method ValidateSameAccount(was: ServiceAccount, sa: ServiceAccount) returns (errs: ErrorList)
    ensures errs == [] <==> SameAccount(was, sa)
  {
    errs := [];
    if was.userName != sa.userName { errs := errs + [FieldError("userName", Invalid)]; }
    if was.domainName != sa.domainName { errs := errs + [FieldError("domainName", Invalid)]; }
    if was.project.name != sa.project.name { errs := errs + [FieldError("project.name", Invalid)]; }
    if was.project.create != sa.project.create { errs := errs + [FieldError("project.create", Invalid)]; }
    if was.targetNamespace != sa.targetNamespace { errs := errs + [FieldError("targetNamespace", Invalid)]; }
  }

  method ValidateServiceAccountsImmutable(o: seq<ServiceAccount>, n: seq<ServiceAccount>) returns (errs: ErrorList)
    ensures errs == [] <==> AccountsKept(o, n)
  {
    errs := [];
    var oldSAs := IndexByName(o);
    for j := 0 to |n|
      invariant errs == [] <==> forall k :: 0 <= k < j ==> var a := ByName(o, n[k].name); a.Some? ==> SameAccount(a.value, n[k])
    {
      if n[j].name in oldSAs {
        var changed := ValidateSameAccount(oldSAs[n[j].name], n[j]);
        errs := errs + changed;
      }
    }
  }

  /** No errors exactly when the frozen projections agree and the accounts kept
      their identities. */
  method ValidateImmutable(o: ControlPlane, n: ControlPlane) returns (errs: ErrorList)
    ensures errs == [] <==> Freeze(o) == Freeze(n) && AccountsKept(o.spec.serviceAccounts, n.spec.serviceAccounts)
  {
    errs := [];
    var oldExternal, newExternal := IsExternalKeystone(o), IsExternalKeystone(n);
    if !oldExternal && newExternal {
      errs := errs + [FieldError("keystone.mode", Invalid)];
    } else if oldExternal && !newExternal {
      errs := errs + [FieldError("keystone.mode", Invalid)];
    }
    var oldInfra, newInfra := o.spec.infrastructure, n.spec.infrastructure;
    if oldInfra.Some? != newInfra.Some? { errs := errs + [FieldError("infrastructure", Invalid)]; }
    if oldInfra.Some? && newInfra.Some? {
      var db := ValidateDatabaseImmutable(oldInfra.value.database, newInfra.value.database);
      var cache := ValidateCacheImmutable(oldInfra.value.cache, newInfra.value.cache);
      errs := errs + db + cache;
    }
    var dedicated := ValidateDedicatedImmutable(o, n);
    var keystone := FreezeNamespace(KeystoneNamespaceBlock(o), KeystoneNamespaceBlock(n));
    var horizon := FreezeNamespace(HorizonNamespaceBlock(o), HorizonNamespaceBlock(n));
    errs := errs + dedicated + keystone + horizon;
    if o.spec.admin.secretName != n.spec.admin.secretName { errs := errs + [FieldError("cloudCredentialsRef.secretName", Invalid)]; }
    if o.spec.region != n.spec.region { errs := errs + [FieldError("region", Invalid)]; }
    var accounts := ValidateServiceAccountsImmutable(o.spec.serviceAccounts, n.spec.serviceAccounts);
    errs := errs + accounts;
  }

  /** What is frozen settles where the ControlPlane lives. */
  lemma FrozenOccupies(o: ControlPlane, n: ControlPlane)
    requires Freeze(o) == Freeze(n) && o.ns == n.ns
    ensures Occupied(o) == Occupied(n)
  {
  }
}
