/** The ControlPlane resource, as far as defaulting and admission look at it,
    with its nil-safe accessors and its defaulting webhook. */
module ControlPlanes {
  import opened Options

  datatype SecretRef = SecretRef(name: string, key: string)

  /** An absent clusterRef is None; a reference may still carry an empty name. */
  datatype DatabaseSpec = DatabaseSpec(
    clusterRef: Option<string>, host: string, database: string, replicas: int, storageSize: string,
    credentialsMode: string, secretName: string)

  datatype CacheSpec = CacheSpec(clusterRef: Option<string>, servers: seq<string>, backend: string, replicas: int)

  datatype NamespaceBlock = NamespaceBlock(name: string, lifecycle: string)

  datatype KeystoneDedicated = KeystoneDedicated(database: Option<DatabaseSpec>, cache: Option<CacheSpec>)

  datatype HorizonDedicated = HorizonDedicated(cache: Option<CacheSpec>)

  datatype External = External(endpointType: string, caBundle: Option<SecretRef>)

  datatype Keystone = Keystone(
    mode: string, ns: Option<NamespaceBlock>, dedicated: Option<KeystoneDedicated>, external: Option<External>)

  datatype Horizon = Horizon(ns: Option<NamespaceBlock>, dedicated: Option<HorizonDedicated>)

  datatype Infrastructure = Infrastructure(database: DatabaseSpec, cache: CacheSpec)

  datatype AdminCredential = AdminCredential(
    secretName: string, cloudName: string, passwordSecretRef: SecretRef, userName: string, projectName: string,
    domainName: string, restricted: Option<bool>, rotationMode: string)

  datatype Project = Project(name: string, create: bool)

  datatype ServiceAccount = ServiceAccount(
    name: string, userName: string, domainName: string, project: Project, roles: seq<string>, targetNamespace: string)

  /** `rest` stands for every field neither defaulting nor the modelled rules read. */
  datatype Spec = Spec(
    region: string, keystone: Option<Keystone>, horizon: Option<Horizon>, infrastructure: Option<Infrastructure>,
    admin: AdminCredential, serviceAccounts: seq<ServiceAccount>, rest: string)

  /** uid 0 is an object the API server has not stored yet. */
  datatype ControlPlane = ControlPlane(ns: string, name: string, uid: nat, spec: Spec)

  const EMPTY_DATABASE := DatabaseSpec(None, "", "", 0, "", "", "")
  const EMPTY_CACHE := CacheSpec(None, [], "", 0)

  /* ---- Accessors ---- */

  predicate IsExternalKeystone(cp: ControlPlane) {
    cp.spec.keystone.Some? && cp.spec.keystone.value.mode == "External"
  }

  function KeystoneNamespaceBlock(cp: ControlPlane): Option<NamespaceBlock> {
    if cp.spec.keystone.Some? then cp.spec.keystone.value.ns else None
  }

  function HorizonNamespaceBlock(cp: ControlPlane): Option<NamespaceBlock> {
    if cp.spec.horizon.Some? then cp.spec.horizon.value.ns else None
  }

  function KeystoneDedicatedBlock(cp: ControlPlane): Option<KeystoneDedicated> {
    if cp.spec.keystone.Some? then cp.spec.keystone.value.dedicated else None
  }

  function HorizonDedicatedBlock(cp: ControlPlane): Option<HorizonDedicated> {
    if cp.spec.horizon.Some? then cp.spec.horizon.value.dedicated else None
  }

  function KeystoneNamespace(cp: ControlPlane): string {
    var block := KeystoneNamespaceBlock(cp);
    if block.Some? && block.value.name != "" then block.value.name else cp.ns
  }

  function PlacedBy(block: Option<NamespaceBlock>, own: string): set<string> {
    if block.Some? && block.value.name != "" && block.value.name != own then {block.value.name} else {}
  }

  /** The namespaces cp places services in outside its own. */
  ghost function Placed(cp: ControlPlane): set<string> {
    PlacedBy(KeystoneNamespaceBlock(cp), cp.ns) + PlacedBy(HorizonNamespaceBlock(cp), cp.ns)
  }

  /** Every namespace cp occupies. */
  ghost function Occupied(cp: ControlPlane): set<string> { {cp.ns} + Placed(cp) }

  ghost predicate NoDuplicates<T>(s: seq<T>) {
    forall i, j :: 0 <= i < j < |s| ==> s[i] != s[j]
  }

  function Names(blocks: seq<NamespaceBlock>): (r: seq<string>)
    ensures |r| == |blocks| && forall i :: 0 <= i < |r| ==> r[i] == blocks[i].name
  {
    if blocks == [] then [] else [blocks[0].name] + Names(blocks[1..])
  }

  lemma NamesAppend(blocks: seq<NamespaceBlock>, b: NamespaceBlock)
    ensures Names(blocks + [b]) == Names(blocks) + [b.name]
  {
  }

  /** Deduplicated by name, keystone's entry first. */
  method DedicatedServiceNamespaces(cp: ControlPlane) returns (out: seq<NamespaceBlock>)
    ensures NoDuplicates(Names(out))
    ensures forall n :: n in Names(out) <==> n in Placed(cp)
    ensures forall b :: b in out ==> Some(b) in {KeystoneNamespaceBlock(cp), HorizonNamespaceBlock(cp)}
    ensures PlacedBy(KeystoneNamespaceBlock(cp), cp.ns) != {} ==> |out| > 0 && out[0] == KeystoneNamespaceBlock(cp).value
  {
    out := [];
    var seen := {};
    var blocks := [KeystoneNamespaceBlock(cp), HorizonNamespaceBlock(cp)];
    for i := 0 to 2
      invariant forall n :: n in Names(out) <==> n in seen
      invariant NoDuplicates(Names(out))
      invariant i == 0 ==> out == [] && seen == {}
      invariant i == 1 ==> seen == PlacedBy(blocks[0], cp.ns) && (seen != {} ==> out == [blocks[0].value])
      invariant i == 2 ==> seen == PlacedBy(blocks[0], cp.ns) + PlacedBy(blocks[1], cp.ns)
      invariant i == 2 && PlacedBy(blocks[0], cp.ns) != {} ==> |out| > 0 && out[0] == blocks[0].value
      invariant forall b :: b in out ==> Some(b) in {KeystoneNamespaceBlock(cp), HorizonNamespaceBlock(cp)}
    {
      var block := blocks[i];
      if block == None || block.value.name == "" || block.value.name == cp.ns { continue; }
      if block.value.name in seen { continue; }
      seen := seen + {block.value.name};
      NamesAppend(out, block.value);
      out := out + [block.value];
    }
  }

  /* ---- Defaulting ---- */

  const DEFAULT_REGION := "RegionOne"
  const DEFAULT_DATABASE_NAME := "keystone"
  const DEFAULT_DATABASE_SECRET_NAME := "keystone-db"
  const DEFAULT_DATABASE_CLUSTER_REF := "openstack-db"
  const DEFAULT_CACHE_BACKEND := "dogpile.cache.pymemcache"
  const DEFAULT_CACHE_CLUSTER_REF := "openstack-memcached"
  const KEYSTONE_DATABASE_SUFFIX := "-keystone-db"
  const KEYSTONE_CACHE_SUFFIX := "-keystone-cache"
  const HORIZON_CACHE_SUFFIX := "-horizon-cache"
  const DEFAULT_STORAGE_SIZE := "100Gi"

  function Or(s: string, d: string): string { if s == "" then d else s }

  function ClusterRef(ref: Option<string>, brownfield: bool, d: string): Option<string> {
    if brownfield then ref else Some(if ref.Some? then Or(ref.value, d) else d)
  }

  function DatabaseLeaves(db: DatabaseSpec, ref: string): DatabaseSpec {
    db.(database := Or(db.database, DEFAULT_DATABASE_NAME), secretName := Or(db.secretName, DEFAULT_DATABASE_SECRET_NAME),
        clusterRef := ClusterRef(db.clusterRef, db.host != "", ref))
  }

  function CacheLeaves(cache: CacheSpec, ref: string): CacheSpec {
    cache.(backend := Or(cache.backend, DEFAULT_CACHE_BACKEND),
           clusterRef := ClusterRef(cache.clusterRef, cache.servers != [], ref))
  }

  function DedicatedDatabase(db: DatabaseSpec, ref: string): DatabaseSpec {
    var filled := DatabaseLeaves(db, ref);
    if filled.clusterRef.Some? then filled.(credentialsMode := Or(db.credentialsMode, "Static")) else filled
  }

  function Lifecycle(block: Option<NamespaceBlock>): Option<NamespaceBlock> {
    if block == None then None else Some(block.value.(lifecycle := Or(block.value.lifecycle, "Managed")))
  }

  function DefaultedKeystone(ks: Keystone, name: string): Keystone {
    var ks1 := ks.(mode := Or(ks.mode, "Managed"), ns := Lifecycle(ks.ns));
    if ks1.mode == "External" then
      if ks.external == None then ks1
      else
        var ext := ks.external.value;
        ks1.(external := Some(External(
          Or(ext.endpointType, "public"),
          if ext.caBundle == None then None else Some(ext.caBundle.value.(key := Or(ext.caBundle.value.key, "ca.crt"))))))
    else if ks.dedicated == None then ks1
    else
      var d := ks.dedicated.value;
      ks1.(dedicated := Some(KeystoneDedicated(
        if d.database == None then None else Some(DedicatedDatabase(d.database.value, name + KEYSTONE_DATABASE_SUFFIX)),
        if d.cache == None then None else Some(CacheLeaves(d.cache.value, name + KEYSTONE_CACHE_SUFFIX)))))
  }

  function DefaultedHorizon(hz: Horizon, name: string, external: bool): Horizon {
    var hz1 := hz.(ns := Lifecycle(hz.ns));
    if external || hz.dedicated == None || hz.dedicated.value.cache == None then hz1
    else hz1.(dedicated := Some(HorizonDedicated(Some(CacheLeaves(hz.dedicated.value.cache.value, name + HORIZON_CACHE_SUFFIX)))))
  }

  function DefaultedInfrastructure(infra: Option<Infrastructure>): Infrastructure {
    var i := if infra == None then Infrastructure(EMPTY_DATABASE, EMPTY_CACHE) else infra.value;
    Infrastructure(DatabaseLeaves(i.database, DEFAULT_DATABASE_CLUSTER_REF), CacheLeaves(i.cache, DEFAULT_CACHE_CLUSTER_REF))
  }

  function DefaultedAdmin(a: AdminCredential): AdminCredential {
    AdminCredential(
      Or(a.secretName, "k-orc-clouds-yaml"), Or(a.cloudName, "admin"),
      SecretRef(Or(a.passwordSecretRef.name, "keystone-admin"), Or(a.passwordSecretRef.key, "password")),
      Or(a.userName, "admin"), Or(a.projectName, "admin"), Or(a.domainName, "Default"),
      if a.restricted == None then Some(true) else a.restricted, Or(a.rotationMode, "PasswordDriven"))
  }

  function DefaultedAccounts(sas: seq<ServiceAccount>): seq<ServiceAccount> {
    seq(|sas|, i requires 0 <= i < |sas| => sas[i].(userName := Or(sas[i].userName, sas[i].name)))
  }

  function Defaulted(cp: ControlPlane): ControlPlane {
    var s := cp.spec;
    var external := IsExternalKeystone(cp);
    cp.(spec := Spec(
      Or(s.region, DEFAULT_REGION),
      if s.keystone == None then None else Some(DefaultedKeystone(s.keystone.value, cp.name)),
      if s.horizon == None then None else Some(DefaultedHorizon(s.horizon.value, cp.name, external)),
      if external then s.infrastructure else Some(DefaultedInfrastructure(s.infrastructure)),
      DefaultedAdmin(s.admin), DefaultedAccounts(s.serviceAccounts), s.rest))
  }

  method DefaultDatabaseLeaves(db: DatabaseSpec, clusterRefName: string) returns (r: DatabaseSpec)
    ensures r == DatabaseLeaves(db, clusterRefName)
  {
    r := db;
    if r.database == "" { r := r.(database := DEFAULT_DATABASE_NAME); }
    if r.secretName == "" { r := r.(secretName := DEFAULT_DATABASE_SECRET_NAME); }
    if r.host == "" {
      if r.clusterRef == None || r.clusterRef.value == "" { r := r.(clusterRef := Some(clusterRefName)); }
    }
  }

  method DefaultCacheLeaves(cache: CacheSpec, clusterRefName: string) returns (r: CacheSpec)
    ensures r == CacheLeaves(cache, clusterRefName)
  {
    r := cache;
    if r.backend == "" { r := r.(backend := DEFAULT_CACHE_BACKEND); }
    if |r.servers| == 0 {
      if r.clusterRef == None || r.clusterRef.value == "" { r := r.(clusterRef := Some(clusterRefName)); }
    }
  }

  method DefaultKeystoneBlock(keystone: Keystone, name: string) returns (ks: Keystone)
    ensures ks == DefaultedKeystone(keystone, name)
  {
    ks := keystone;
    if ks.mode == "" { ks := ks.(mode := "Managed"); }
    if ks.ns.Some? && ks.ns.value.lifecycle == "" { ks := ks.(ns := Some(ks.ns.value.(lifecycle := "Managed"))); }
    if ks.mode == "External" {
      if ks.external.Some? {
        var ext := ks.external.value;
        if ext.endpointType == "" { ext := ext.(endpointType := "public"); }
        if ext.caBundle.Some? && ext.caBundle.value.key == "" {
          ext := ext.(caBundle := Some(ext.caBundle.value.(key := "ca.crt")));
        }
        ks := ks.(external := Some(ext));
      }
    } else if ks.dedicated.Some? {
      var d := ks.dedicated.value;
      if d.database.Some? {
        var db := DefaultDatabaseLeaves(d.database.value, name + KEYSTONE_DATABASE_SUFFIX);
        if db.clusterRef.Some? && db.credentialsMode == "" { db := db.(credentialsMode := "Static"); }
        d := d.(database := Some(db));
      }
      if d.cache.Some? {
        var cache := DefaultCacheLeaves(d.cache.value, name + KEYSTONE_CACHE_SUFFIX);
        d := d.(cache := Some(cache));
      }
      ks := ks.(dedicated := Some(d));
    }
  }

  method DefaultHorizonBlock(horizon: Horizon, name: string, external: bool) returns (hz: Horizon)
    ensures hz == DefaultedHorizon(horizon, name, external)
  {
    hz := horizon;
    if hz.ns.Some? && hz.ns.value.lifecycle == "" { hz := hz.(ns := Some(hz.ns.value.(lifecycle := "Managed"))); }
    if !external && hz.dedicated.Some? && hz.dedicated.value.cache.Some? {
      var cache := DefaultCacheLeaves(hz.dedicated.value.cache.value, name + HORIZON_CACHE_SUFFIX);
      hz := hz.(dedicated := Some(HorizonDedicated(Some(cache))));
    }
  }

  method DefaultAdminCredential(admin: AdminCredential) returns (a: AdminCredential)
    ensures a == DefaultedAdmin(admin)
  {
    a := admin;
    if a.secretName == "" { a := a.(secretName := "k-orc-clouds-yaml"); }
    if a.cloudName == "" { a := a.(cloudName := "admin"); }
    if a.passwordSecretRef.name == "" { a := a.(passwordSecretRef := a.passwordSecretRef.(name := "keystone-admin")); }
    if a.passwordSecretRef.key == "" { a := a.(passwordSecretRef := a.passwordSecretRef.(key := "password")); }
    if a.userName == "" { a := a.(userName := "admin"); }
    if a.projectName == "" { a := a.(projectName := "admin"); }
    if a.domainName == "" { a := a.(domainName := "Default"); }
    if a.restricted == None { a := a.(restricted := Some(true)); }
    if a.rotationMode == "" { a := a.(rotationMode := "PasswordDriven"); }
  }

  method DefaultServiceAccounts(accounts: seq<ServiceAccount>) returns (sas: seq<ServiceAccount>)
    ensures sas == DefaultedAccounts(accounts)
  {
    sas := accounts;
    for i := 0 to |accounts|
      invariant |sas| == |accounts|
      invariant forall k :: 0 <= k < i ==> sas[k] == DefaultedAccounts(accounts)[k]
      invariant forall k :: i <= k < |sas| ==> sas[k] == accounts[k]
    {
      if sas[i].userName == "" { sas := sas[i := sas[i].(userName := sas[i].name)]; }
    }
  }

  /** The object under admission, which the defaulting webhook edits in place. */
  class Admitted {
    var spec: Spec
    const ns: string
    const name: string
    const uid: nat

    constructor (cp: ControlPlane)
      ensures Object() == cp
    {
      ns, name, uid, spec := cp.ns, cp.name, cp.uid, cp.spec;
    }

    function Object(): ControlPlane
      reads this
    {
      ControlPlane(ns, name, uid, spec)
    }

    method Default()
      modifies this
      ensures Object() == Defaulted(old(Object()))
    {
      var external := IsExternalKeystone(Object());
      if spec.region == "" { spec := spec.(region := DEFAULT_REGION); }
      if spec.keystone.Some? {
        var ks := DefaultKeystoneBlock(spec.keystone.value, name);
        spec := spec.(keystone := Some(ks));
      }
      if spec.horizon.Some? {
        var hz := DefaultHorizonBlock(spec.horizon.value, name, external);
        spec := spec.(horizon := Some(hz));
      }
      if !external {
        if spec.infrastructure == None { spec := spec.(infrastructure := Some(Infrastructure(EMPTY_DATABASE, EMPTY_CACHE))); }
        var infra := spec.infrastructure.value;
        var database := DefaultDatabaseLeaves(infra.database, DEFAULT_DATABASE_CLUSTER_REF);
        var cache := DefaultCacheLeaves(infra.cache, DEFAULT_CACHE_CLUSTER_REF);
        spec := spec.(infrastructure := Some(Infrastructure(database, cache)));
      }
      var admin := DefaultAdminCredential(spec.admin);
      spec := spec.(admin := admin);
      var accounts := DefaultServiceAccounts(spec.serviceAccounts);
      spec := spec.(serviceAccounts := accounts);
    }
  }

  lemma KeystoneDefaultsSettle(ks: Keystone, name: string)
    ensures DefaultedKeystone(DefaultedKeystone(ks, name), name) == DefaultedKeystone(ks, name)
  {
  }

  lemma HorizonDefaultsSettle(hz: Horizon, name: string, external: bool)
    ensures DefaultedHorizon(DefaultedHorizon(hz, name, external), name, external) == DefaultedHorizon(hz, name, external)
  {
  }

  lemma InfrastructureDefaultsSettle(infra: Option<Infrastructure>)
    ensures DefaultedInfrastructure(Some(DefaultedInfrastructure(infra))) == DefaultedInfrastructure(infra)
  {
  }

  lemma AdminDefaultsSettle(a: AdminCredential)
    ensures DefaultedAdmin(DefaultedAdmin(a)) == DefaultedAdmin(a)
  {
  }

  lemma DefaultKeepsMode(cp: ControlPlane)
    ensures IsExternalKeystone(Defaulted(cp)) == IsExternalKeystone(cp)
  {
  }

  /** Defaulting a defaulted object changes nothing. */
  lemma DefaultIdempotent(cp: ControlPlane)
    ensures Defaulted(Defaulted(cp)) == Defaulted(cp)
  {
    var once, twice := Defaulted(cp), Defaulted(Defaulted(cp));
    DefaultKeepsMode(cp);
    InfrastructureDefaultsSettle(cp.spec.infrastructure);
    AdminDefaultsSettle(cp.spec.admin);
    assert DefaultedAccounts(once.spec.serviceAccounts) == once.spec.serviceAccounts;
    if cp.spec.keystone.Some? { KeystoneDefaultsSettle(cp.spec.keystone.value, cp.name); }
    if cp.spec.horizon.Some? { HorizonDefaultsSettle(cp.spec.horizon.value, cp.name, IsExternalKeystone(cp)); }
    assert twice.spec.keystone == once.spec.keystone && twice.spec.horizon == once.spec.horizon;
  }

  /** A defaulted database names exactly one of a cluster and a host, unless the
      author named both; a managed one always names its cluster. */
  lemma DefaultKeepsDatabaseMode(db: DatabaseSpec, ref: string)
    requires ref != ""
    ensures
      var r := DatabaseLeaves(db, ref);
      && r.host == db.host
      && ((r.clusterRef.Some? != (r.host != "")) <==> !(db.clusterRef.Some? && db.host != ""))
      && (db.host == "" ==> r.clusterRef.Some? && r.clusterRef.value != "")
      && (db.host != "" ==> r.clusterRef == db.clusterRef)
  {
  }

  /** Defaulting places no service: mode, own namespace and claims stay. */
  lemma DefaultKeepsPlacement(cp: ControlPlane)
    ensures Occupied(Defaulted(cp)) == Occupied(cp)
    ensures IsExternalKeystone(Defaulted(cp)) == IsExternalKeystone(cp)
  {
    DefaultKeepsMode(cp);
    var d := Defaulted(cp);
    assert KeystoneNamespaceBlock(d) == Lifecycle(KeystoneNamespaceBlock(cp));
    assert HorizonNamespaceBlock(d) == Lifecycle(HorizonNamespaceBlock(cp));
  }

  /** The cluster names invented for dedicated instances clash with no other
      invented name. */
  lemma InventedNamesDistinct(name: string)
    ensures name + KEYSTONE_DATABASE_SUFFIX != DEFAULT_DATABASE_CLUSTER_REF
    ensures name + KEYSTONE_CACHE_SUFFIX != name + HORIZON_CACHE_SUFFIX
    ensures name + KEYSTONE_CACHE_SUFFIX != DEFAULT_CACHE_CLUSTER_REF
    ensures name + HORIZON_CACHE_SUFFIX != DEFAULT_CACHE_CLUSTER_REF
  {
    var db := name + KEYSTONE_DATABASE_SUFFIX;
    var kc, hc := name + KEYSTONE_CACHE_SUFFIX, name + HORIZON_CACHE_SUFFIX;
    assert db[|db| - 12] == '-';
    assert kc[|kc| - 1] == 'e' && hc[|hc| - 1] == 'e';
    assert kc[|name| + 1] == 'k' && hc[|name| + 1] == 'h';
  }
}
