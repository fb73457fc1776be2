/** The validating webhook: the rules on service accounts, service namespaces
    and dedicated backing services, and the create-only fields. */
module Webhook {
  import opened Options
  import opened ControlPlanes

  datatype ErrorKind = Required | Invalid | Duplicate | Forbidden | NotSupported | TooMany

  datatype FieldError = FieldError(path: string, kind: ErrorKind)

  type ErrorList = seq<FieldError>

  /* ---- Service accounts ---- */

  predicate LabelChar(c: char) { 'a' <= c <= 'z' || '0' <= c <= '9' }

  /** `^[a-z0-9]([-a-z0-9]*[a-z0-9])?$` */
  predicate IsLabel(s: string) {
    && s != "" && LabelChar(s[0]) && LabelChar(s[|s| - 1])
    && forall i :: 0 <= i < |s| ==> s[i] == '-' || LabelChar(s[i])
  }

  const MAX_SERVICE_ACCOUNTS := 32
  const MAX_OBJECT_NAME := 253
  const CHILD_OVERHEAD := |"-service-account-"| + |"-password-v"| + 10
  const ROLE_CHILD_OVERHEAD := |"-service-account-"| + |"-assign-"| + 25
  const NUL := "\0"

  function AdminUser(cp: ControlPlane): string { Or(cp.spec.admin.userName, "admin") }
  function AdminDomain(cp: ControlPlane): string { Or(cp.spec.admin.domainName, "Default") }
  function AccountUser(sa: ServiceAccount): string { Or(sa.userName, sa.name) }
  function AccountDomain(cp: ControlPlane, sa: ServiceAccount): string { Or(sa.domainName, AdminDomain(cp)) }
  function IdentityKey(cp: ControlPlane, sa: ServiceAccount): string { AccountUser(sa) + NUL + AccountDomain(cp, sa) }
  function ProjectKey(cp: ControlPlane, sa: ServiceAccount): string { sa.project.name + NUL + AccountDomain(cp, sa) }
  predicate ManagesProject(sa: ServiceAccount) { sa.project.create && sa.project.name != "" }

  /** What an entry must satisfy on its own. */
  ghost predicate AccountOk(cp: ControlPlane, sa: ServiceAccount) {
    && IsLabel(sa.name)
    && |cp.name| + (if sa.roles == [] then CHILD_OVERHEAD else ROLE_CHILD_OVERHEAD) + |sa.name| <= MAX_OBJECT_NAME
    && ',' !in sa.userName && ',' !in sa.domainName
    && sa.project.name != "" && ',' !in sa.project.name
    && (forall j :: 0 <= j < |sa.roles| ==> ',' !in sa.roles[j])
    && (sa.targetNamespace != "" ==> IsLabel(sa.targetNamespace) && sa.targetNamespace in Occupied(cp))
    && !(AccountUser(sa) == AdminUser(cp) && AccountDomain(cp, sa) == AdminDomain(cp))
  }

  /** No two entries share a name, an identity key or a managed project key. */
  ghost predicate AccountsDistinct(cp: ControlPlane) {
    var sas := cp.spec.serviceAccounts;
    forall i, j :: 0 <= i < j < |sas| ==>
      && sas[i].name != sas[j].name
      && IdentityKey(cp, sas[i]) != IdentityKey(cp, sas[j])
      && (ManagesProject(sas[i]) && ManagesProject(sas[j]) ==> ProjectKey(cp, sas[i]) != ProjectKey(cp, sas[j]))
  }

  ghost predicate AccountsOk(cp: ControlPlane) {
    && |cp.spec.serviceAccounts| <= MAX_SERVICE_ACCOUNTS
    && (forall i :: 0 <= i < |cp.spec.serviceAccounts| ==> AccountOk(cp, cp.spec.serviceAccounts[i]))
    && AccountsDistinct(cp)
  }

  method ValidateRoles(roles: seq<string>) returns (errs: ErrorList)
    ensures errs == [] <==> forall j :: 0 <= j < |roles| ==> ',' !in roles[j]
  {
    errs := [];
    for j := 0 to |roles|
      invariant errs == [] <==> forall k :: 0 <= k < j ==> ',' !in roles[k]
    {
      if ',' in roles[j] { errs := errs + [FieldError("roles", Invalid)]; }
    }
  }

  /** One entry's own rules. */
  method ValidateServiceAccount(cp: ControlPlane, sa: ServiceAccount, dedicated: set<string>) returns (errs: ErrorList)
    requires dedicated == Placed(cp)
    ensures errs == [] <==> AccountOk(cp, sa)
  {
    errs := [];
    if sa.name == "" {
      errs := errs + [FieldError("name", Required)];
    } else if !IsLabel(sa.name) {
      errs := errs + [FieldError("name", Invalid)];
    }
    if sa.name != "" {
      var overhead := CHILD_OVERHEAD;
      if |sa.roles| > 0 { overhead := ROLE_CHILD_OVERHEAD; }
      if |cp.name| + overhead + |sa.name| > MAX_OBJECT_NAME { errs := errs + [FieldError("name", Invalid)]; }
    }
    if ',' in sa.userName { errs := errs + [FieldError("userName", Invalid)]; }
    if ',' in sa.domainName { errs := errs + [FieldError("domainName", Invalid)]; }
    if sa.project.name == "" {
      errs := errs + [FieldError("project.name", Required)];
    } else if ',' in sa.project.name {
      errs := errs + [FieldError("project.name", Invalid)];
    }
    var roleErrs := ValidateRoles(sa.roles);
    errs := errs + roleErrs;
    if sa.targetNamespace != "" {
      if !IsLabel(sa.targetNamespace) {
        errs := errs + [FieldError("targetNamespace", Invalid)];
      } else if sa.targetNamespace != cp.ns && sa.targetNamespace !in dedicated {
        errs := errs + [FieldError("targetNamespace", Invalid)];
      }
    }
    if AccountUser(sa) == AdminUser(cp) && AccountDomain(cp, sa) == AdminDomain(cp) {
      errs := errs + [FieldError("userName", Invalid)];
    }
  }

  ghost predicate NameSeen(sas: seq<ServiceAccount>, i: int, x: string)
    requires 0 <= i <= |sas|
  {
    exists k :: 0 <= k < i && sas[k].name == x
  }

  ghost predicate IdentitySeen(cp: ControlPlane, sas: seq<ServiceAccount>, i: int, x: string)
    requires 0 <= i <= |sas|
  {
    exists k :: 0 <= k < i && IdentityKey(cp, sas[k]) == x
  }

  ghost predicate ProjectSeen(cp: ControlPlane, sas: seq<ServiceAccount>, i: int, x: string)
    requires 0 <= i <= |sas|
  {
    exists k :: 0 <= k < i && ManagesProject(sas[k]) && ProjectKey(cp, sas[k]) == x
  }

  /** The first `i` entries are each fine and pairwise distinct. */
  ghost predicate PrefixOk(cp: ControlPlane, i: int)
    requires 0 <= i <= |cp.spec.serviceAccounts|
  {
    var sas := cp.spec.serviceAccounts;
    forall j :: 0 <= j < i ==>
      && AccountOk(cp, sas[j])
      && !NameSeen(sas, j, sas[j].name)
      && !IdentitySeen(cp, sas, j, IdentityKey(cp, sas[j]))
      && (ManagesProject(sas[j]) ==> !ProjectSeen(cp, sas, j, ProjectKey(cp, sas[j])))
  }

  lemma PrefixIsAll(cp: ControlPlane)
    ensures PrefixOk(cp, |cp.spec.serviceAccounts|) && |cp.spec.serviceAccounts| <= MAX_SERVICE_ACCOUNTS <==> AccountsOk(cp)
  {
    var sas := cp.spec.serviceAccounts;
    if PrefixOk(cp, |sas|) {
      forall i, j | 0 <= i < j < |sas|
        ensures sas[i].name != sas[j].name
        ensures IdentityKey(cp, sas[i]) != IdentityKey(cp, sas[j])
        ensures ManagesProject(sas[i]) && ManagesProject(sas[j]) ==> ProjectKey(cp, sas[i]) != ProjectKey(cp, sas[j])
      {
        assert !NameSeen(sas, j, sas[j].name) && !IdentitySeen(cp, sas, j, IdentityKey(cp, sas[j]));
      }
    }
  }

  /** What the seen-sets hold after one more entry. */
  lemma SeenStep(cp: ControlPlane, i: nat, x: string)
    requires i < |cp.spec.serviceAccounts|
    ensures
      var sas := cp.spec.serviceAccounts;
      && (NameSeen(sas, i + 1, x) <==> NameSeen(sas, i, x) || x == sas[i].name)
      && (IdentitySeen(cp, sas, i + 1, x) <==> IdentitySeen(cp, sas, i, x) || x == IdentityKey(cp, sas[i]))
      && (ProjectSeen(cp, sas, i + 1, x) <==>
            ProjectSeen(cp, sas, i, x) || (ManagesProject(sas[i]) && x == ProjectKey(cp, sas[i])))
  {
    var sas := cp.spec.serviceAccounts;
    if x == sas[i].name { assert NameSeen(sas, i + 1, x); }
    if x == IdentityKey(cp, sas[i]) { assert IdentitySeen(cp, sas, i + 1, x); }
    if ManagesProject(sas[i]) && x == ProjectKey(cp, sas[i]) { assert ProjectSeen(cp, sas, i + 1, x); }
  }

  lemma PrefixStep(cp: ControlPlane, i: nat)
    requires i < |cp.spec.serviceAccounts|
    ensures
      var sas := cp.spec.serviceAccounts;
      PrefixOk(cp, i + 1) <==>
        && PrefixOk(cp, i) && AccountOk(cp, sas[i])
        && !NameSeen(sas, i, sas[i].name) && !IdentitySeen(cp, sas, i, IdentityKey(cp, sas[i]))
        && (ManagesProject(sas[i]) ==> !ProjectSeen(cp, sas, i, ProjectKey(cp, sas[i])))
  {
  }

  /** The three duplicate checks of one entry. */
  method ValidateDuplicates(cp: ControlPlane, sa: ServiceAccount, names: set<string>, identities: set<string>, projects: set<string>)
    returns (errs: ErrorList)
    ensures errs == [] <==>
            && sa.name !in names && IdentityKey(cp, sa) !in identities
            && (ManagesProject(sa) ==> ProjectKey(cp, sa) !in projects)
  {
    errs := [];
    if sa.name in names { errs := errs + [FieldError("name", Duplicate)]; }
    if IdentityKey(cp, sa) in identities { errs := errs + [FieldError("userName", Duplicate)]; }
    if ManagesProject(sa) && ProjectKey(cp, sa) in projects { errs := errs + [FieldError("project.name", Duplicate)]; }
  }

  /** The three seen-maps of the walk. */
  datatype Seen = Seen(names: set<string>, identities: set<string>, projects: set<string>)

  function Noted(s: Seen, cp: ControlPlane, sa: ServiceAccount): Seen {
    Seen(s.names + {sa.name}, s.identities + {IdentityKey(cp, sa)},
         if ManagesProject(sa) then s.projects + {ProjectKey(cp, sa)} else s.projects)
  }

  ghost predicate SeenExactly(cp: ControlPlane, i: nat, s: Seen)
    requires i <= |cp.spec.serviceAccounts|
  {
    var sas := cp.spec.serviceAccounts;
    && (forall x :: x in s.names <==> NameSeen(sas, i, x))
    && (forall x :: x in s.identities <==> IdentitySeen(cp, sas, i, x))
    && (forall x :: x in s.projects <==> ProjectSeen(cp, sas, i, x))
  }

  lemma SeenExactlyStep(cp: ControlPlane, i: nat, s: Seen)
    requires i < |cp.spec.serviceAccounts| && SeenExactly(cp, i, s)
    ensures SeenExactly(cp, i + 1, Noted(s, cp, cp.spec.serviceAccounts[i]))
  {
    var sas := cp.spec.serviceAccounts;
    var s' := Noted(s, cp, sas[i]);
    forall x ensures x in s'.names <==> NameSeen(sas, i + 1, x) { SeenStep(cp, i, x); }
    forall x ensures x in s'.identities <==> IdentitySeen(cp, sas, i + 1, x) { SeenStep(cp, i, x); }
    forall x ensures x in s'.projects <==> ProjectSeen(cp, sas, i + 1, x) { SeenStep(cp, i, x); }
  }

  /** An entry's own rules and its duplicate checks; then it is noted. */
  method ValidateEntry(cp: ControlPlane, i: nat, dedicated: set<string>, seen: Seen) returns (errs: ErrorList, seen': Seen)
    requires dedicated == Placed(cp)
    requires i < |cp.spec.serviceAccounts| && SeenExactly(cp, i, seen)
    ensures PrefixOk(cp, i + 1) <==> PrefixOk(cp, i) && errs == []
    ensures SeenExactly(cp, i + 1, seen')
  {
    var sa := cp.spec.serviceAccounts[i];
    var own := ValidateServiceAccount(cp, sa, dedicated);
    var repeated := ValidateDuplicates(cp, sa, seen.names, seen.identities, seen.projects);
    PrefixStep(cp, i);
    SeenExactlyStep(cp, i, seen);
    errs, seen' := own + repeated, Noted(seen, cp, sa);
  }

  /** The dedicated namespaces as a lookup set. */
  method DedicatedNames(cp: ControlPlane) returns (names: set<string>)
    ensures names == Placed(cp)
  {
    var dedicated := DedicatedServiceNamespaces(cp);
    var list := Names(dedicated);
    names := set n | n in list;
  }

  /** No errors exactly for a list of entries that are fine and distinct. */
  method ValidateServiceAccounts(cp: ControlPlane) returns (errs: ErrorList)
    ensures errs == [] <==> AccountsOk(cp)
  {
    var n := |cp.spec.serviceAccounts|;
    errs := if n > MAX_SERVICE_ACCOUNTS then [FieldError("serviceAccounts", TooMany)] else [];
    var dedicated := DedicatedNames(cp);
    var seen := Seen({}, {}, {});
    for i := 0 to n
      invariant SeenExactly(cp, i, seen)
      invariant errs == [] <==> n <= MAX_SERVICE_ACCOUNTS && PrefixOk(cp, i)
    {
      var entry;
      entry, seen := ValidateEntry(cp, i, dedicated, seen);
      errs := errs + entry;
    }
    PrefixIsAll(cp);
  }

  /** Admitted accounts are different users of Keystone, and none is the admin. */
  lemma AdmittedIdentities(cp: ControlPlane, i: nat, j: nat)
    requires AccountsOk(cp) && i < j < |cp.spec.serviceAccounts|
    ensures
      var a, b := cp.spec.serviceAccounts[i], cp.spec.serviceAccounts[j];
      && (AccountUser(a), AccountDomain(cp, a)) != (AccountUser(b), AccountDomain(cp, b))
      && (AccountUser(a), AccountDomain(cp, a)) != (AdminUser(cp), AdminDomain(cp))
  {
    assert IdentityKey(cp, cp.spec.serviceAccounts[i]) != IdentityKey(cp, cp.spec.serviceAccounts[j]);
  }

  /* ---- Service namespaces ---- */

  function Declared(cp: ControlPlane): seq<NamespaceBlock> {
    (if KeystoneNamespaceBlock(cp).Some? then [KeystoneNamespaceBlock(cp).value] else [])
    + (if HorizonNamespaceBlock(cp).Some? then [HorizonNamespaceBlock(cp).value] else [])
  }

  /** Each assignment names another namespace, properly, with a known lifecycle;
      services in one namespace agree on it. */
  ghost predicate NamespacesOk(cp: ControlPlane) {
    var d := Declared(cp);
    && (forall i :: 0 <= i < |d| ==>
          IsLabel(d[i].name) && d[i].name != cp.ns && d[i].lifecycle in {"", "Managed", "External"})
    && (forall i, j :: 0 <= i < j < |d| && d[i].name == d[j].name ==> d[i].lifecycle == d[j].lifecycle)
  }

  method ValidateServiceNamespaces(cp: ControlPlane) returns (errs: ErrorList)
    ensures errs == [] <==> NamespacesOk(cp)
  {
    errs := [];
    var lifecycles: map<string, string> := map[];
    var d := Declared(cp);
    for i := 0 to |d|
      invariant errs == [] <==>
        && (forall k :: 0 <= k < i ==>
              IsLabel(d[k].name) && d[k].name != cp.ns && d[k].lifecycle in {"", "Managed", "External"})
        && (forall k, l :: 0 <= k < l < i && d[k].name == d[l].name ==> d[k].lifecycle == d[l].lifecycle)
      invariant i == 0 ==> lifecycles == map[]
      invariant i == 1 ==> lifecycles == if d[0].name == "" then map[] else map[d[0].name := d[0].lifecycle]
    {
      var a := d[i];
      if a.name == "" {
        errs := errs + [FieldError("namespace.name", Required)];
      } else if a.name == cp.ns {
        errs := errs + [FieldError("namespace.name", Invalid)];
      } else if !IsLabel(a.name) {
        errs := errs + [FieldError("namespace.name", Invalid)];
      }
      if a.lifecycle !in {"", "Managed", "External"} { errs := errs + [FieldError("namespace.lifecycle", NotSupported)]; }
      if a.name != "" {
        if a.name in lifecycles && lifecycles[a.name] != a.lifecycle {
          errs := errs + [FieldError("namespace.lifecycle", Invalid)];
        }
        lifecycles := lifecycles[a.name := a.lifecycle];
      }
    }
  }

  /* ---- Backing services ---- */

  predicate DatabaseOk(db: DatabaseSpec) {
    db.clusterRef.Some? != (db.host != "") && db.replicas != 2
  }

  predicate CacheOk(cache: CacheSpec) { cache.clusterRef.Some? != (cache.servers != []) }

  function RefOf(ref: Option<string>): seq<string> { if ref.Some? then [ref.value] else [] }

  function DatabaseRef(db: Option<DatabaseSpec>): Option<string> { if db.Some? then db.value.clusterRef else None }

  function CacheRef(cache: Option<CacheSpec>): Option<string> { if cache.Some? then cache.value.clusterRef else None }

  function SharedDatabase(cp: ControlPlane): Option<DatabaseSpec> {
    if cp.spec.infrastructure.Some? then Some(cp.spec.infrastructure.value.database) else None
  }

  function SharedCache(cp: ControlPlane): Option<CacheSpec> {
    if cp.spec.infrastructure.Some? then Some(cp.spec.infrastructure.value.cache) else None
  }

  function DedicatedKeystoneDatabase(cp: ControlPlane): Option<DatabaseSpec> {
    var b := KeystoneDedicatedBlock(cp);
    if b.Some? then b.value.database else None
  }

  function DedicatedKeystoneCache(cp: ControlPlane): Option<CacheSpec> {
    var b := KeystoneDedicatedBlock(cp);
    if b.Some? then b.value.cache else None
  }

  function DedicatedHorizonCache(cp: ControlPlane): Option<CacheSpec> {
    var b := HorizonDedicatedBlock(cp);
    if b.Some? then b.value.cache else None
  }

  /** The MariaDB names cp's instances resolve to, the shared one first. */
  function DatabaseRefs(cp: ControlPlane): seq<string> {
    RefOf(DatabaseRef(SharedDatabase(cp))) + RefOf(DatabaseRef(DedicatedKeystoneDatabase(cp)))
  }

  function CacheRefs(cp: ControlPlane): seq<string> {
    RefOf(CacheRef(SharedCache(cp))) + RefOf(CacheRef(DedicatedKeystoneCache(cp))) + RefOf(CacheRef(DedicatedHorizonCache(cp)))
  }

  predicate Apart(a: Option<string>, b: Option<string>) { a.Some? ==> a != b }

  lemma RefsApart(a: Option<string>, b: Option<string>, c: Option<string>)
    ensures NoDuplicates(RefOf(a) + RefOf(b) + RefOf(c)) <==> Apart(a, b) && Apart(a, c) && Apart(b, c)
  {
    var s := RefOf(a) + RefOf(b) + RefOf(c);
    if NoDuplicates(s) {
      if a.Some? && b.Some? { assert s[0] == a.value && s[1] == b.value; }
      if a.Some? && c.Some? { assert s[0] == a.value && s[|s| - 1] == c.value; }
      if b.Some? && c.Some? { assert s[|s| - 2] == b.value && s[|s| - 1] == c.value; }
    }
  }

  /** Every declared block declares a class, each class is well-formed, and no
      two instances of cp resolve to one cluster. */
  ghost predicate DedicatedOk(cp: ControlPlane) {
    var ks, hz := KeystoneDedicatedBlock(cp), HorizonDedicatedBlock(cp);
    && (ks.Some? ==>
          && (ks.value.database.Some? || ks.value.cache.Some?)
          && (ks.value.database.Some? ==> DatabaseOk(ks.value.database.value) && ks.value.database.value.credentialsMode != "Dynamic")
          && (ks.value.cache.Some? ==> CacheOk(ks.value.cache.value)))
    && (hz.Some? ==> hz.value.cache.Some? && CacheOk(hz.value.cache.value))
    && NoDuplicates(DatabaseRefs(cp)) && NoDuplicates(CacheRefs(cp))
  }

  method ValidateDedicatedCache(cache: CacheSpec, cacheNames: set<string>) returns (errs: ErrorList, names: set<string>)
    ensures errs == [] <==> CacheOk(cache) && (cache.clusterRef.Some? ==> cache.clusterRef.value !in cacheNames)
    ensures names == cacheNames + (set n | n in RefOf(cache.clusterRef))
  {
    errs, names := [], cacheNames;
    if cache.clusterRef.Some? == (|cache.servers| > 0) { errs := errs + [FieldError("cache", Invalid)]; }
    if cache.clusterRef.Some? {
      if cache.clusterRef.value in names { errs := errs + [FieldError("cache.clusterRef.name", Duplicate)]; }
      names := names + {cache.clusterRef.value};
    }
  }

  method ValidateDedicatedDatabase(db: DatabaseSpec, dbNames: set<string>) returns (errs: ErrorList)
    ensures errs == [] <==>
            DatabaseOk(db) && db.credentialsMode != "Dynamic" && (db.clusterRef.Some? ==> db.clusterRef.value !in dbNames)
  {
    errs := [];
    if db.clusterRef.Some? == (db.host != "") { errs := errs + [FieldError("database", Invalid)]; }
    if db.replicas == 2 { errs := errs + [FieldError("database.replicas", Invalid)]; }
    if db.credentialsMode == "Dynamic" { errs := errs + [FieldError("database.credentialsMode", Forbidden)]; }
    if db.clusterRef.Some? && db.clusterRef.value in dbNames {
      errs := errs + [FieldError("database.clusterRef.name", Duplicate)];
    }
  }

  method ValidateDedicatedBackingServices(cp: ControlPlane) returns (errs: ErrorList)
    ensures errs == [] <==> DedicatedOk(cp)
  {
    RefsApart(DatabaseRef(SharedDatabase(cp)), DatabaseRef(DedicatedKeystoneDatabase(cp)), None);
    assert DatabaseRefs(cp) + [] == DatabaseRefs(cp);
    RefsApart(CacheRef(SharedCache(cp)), CacheRef(DedicatedKeystoneCache(cp)), CacheRef(DedicatedHorizonCache(cp)));
    errs := [];
    var dbNames, cacheNames := {}, {};
    if cp.spec.infrastructure.Some? {
      var infra := cp.spec.infrastructure.value;
      if infra.database.clusterRef.Some? { dbNames := {infra.database.clusterRef.value}; }
      if infra.cache.clusterRef.Some? { cacheNames := {infra.cache.clusterRef.value}; }
    }
    var ks := KeystoneDedicatedBlock(cp);
    if ks.Some? {
      if ks.value.database == None && ks.value.cache == None {
        errs := errs + [FieldError("keystone.dedicatedBackingServices", Required)];
      }
      if ks.value.database.Some? {
        var e := ValidateDedicatedDatabase(ks.value.database.value, dbNames);
        errs := errs + e;
      }
      if ks.value.cache.Some? {
        var e, names := ValidateDedicatedCache(ks.value.cache.value, cacheNames);
        errs, cacheNames := errs + e, names;
      }
    }
    var hz := HorizonDedicatedBlock(cp);
    if hz.Some? {
      if hz.value.cache == None {
        errs := errs + [FieldError("horizon.dedicatedBackingServices", Required)];
      } else {
        var e, _ := ValidateDedicatedCache(hz.value.cache.value, cacheNames);
        errs := errs + e;
      }
    }
  }

  /** A ControlPlane that names no cluster and no endpoint of its own passes the
      dedicated rules once defaulted, whatever it opts into. */
  lemma DefaultedOptInIsAdmitted(cp: ControlPlane)
    requires !IsExternalKeystone(cp)
    requires cp.spec.infrastructure == None
    requires
      var ks, hz := KeystoneDedicatedBlock(cp), HorizonDedicatedBlock(cp);
      && (ks.Some? ==> (ks.value.database.Some? || ks.value.cache.Some?)
                       && (ks.value.database.Some? ==> ks.value.database == Some(EMPTY_DATABASE))
                       && (ks.value.cache.Some? ==> ks.value.cache == Some(EMPTY_CACHE)))
      && (hz.Some? ==> hz.value.cache == Some(EMPTY_CACHE))
    ensures DedicatedOk(Defaulted(cp))
  {
    InventedNamesDistinct(cp.name);
    var d := Defaulted(cp);
    RefsApart(DatabaseRef(SharedDatabase(d)), DatabaseRef(DedicatedKeystoneDatabase(d)), None);
    assert DatabaseRefs(d) + [] == DatabaseRefs(d);
    RefsApart(CacheRef(SharedCache(d)), CacheRef(DedicatedKeystoneCache(d)), CacheRef(DedicatedHorizonCache(d)));
  }

  /* ---- The whole spec ---- */

  /** The modelled part of the External-mode matrix. */
  predicate ModeOk(cp: ControlPlane) {
    if IsExternalKeystone(cp) then
      var ks := cp.spec.keystone.value;
      && ks.external.Some? && (ks.external.value.caBundle.Some? ==> ks.external.value.caBundle.value.name != "")
      && ks.dedicated == None && ks.ns == None && cp.spec.infrastructure == None && cp.spec.horizon == None
    else
      && (cp.spec.keystone.Some? ==> cp.spec.keystone.value.external == None)
      && cp.spec.infrastructure.Some?
  }

  predicate InfrastructureOk(cp: ControlPlane) {
    cp.spec.infrastructure.Some? ==>
      var infra := cp.spec.infrastructure.value;
      && DatabaseOk(infra.database) && CacheOk(infra.cache)
      && (infra.database.credentialsMode == "Dynamic" ==> infra.database.clusterRef.Some?)
  }

  /** Every modelled rule but the ones on service accounts. */
  ghost predicate BaseOk(cp: ControlPlane) {
    && InfrastructureOk(cp) && cp.spec.admin.passwordSecretRef.name != ""
    && ModeOk(cp) && DedicatedOk(cp) && NamespacesOk(cp)
  }

  ghost predicate SpecOk(cp: ControlPlane) { BaseOk(cp) && AccountsOk(cp) }

  method ValidateKeystoneMode(cp: ControlPlane) returns (errs: ErrorList)
    ensures errs == [] <==> ModeOk(cp)
  {
    errs := [];
    if IsExternalKeystone(cp) {
      var ks := cp.spec.keystone.value;
      if ks.external == None {
        errs := errs + [FieldError("keystone.external", Required)];
      } else if ks.external.value.caBundle.Some? && ks.external.value.caBundle.value.name == "" {
        errs := errs + [FieldError("keystone.external.caBundleSecretRef.name", Required)];
      }
      if ks.dedicated.Some? { errs := errs + [FieldError("keystone.dedicatedBackingServices", Forbidden)]; }
      if ks.ns.Some? { errs := errs + [FieldError("keystone.namespace", Forbidden)]; }
      if cp.spec.infrastructure.Some? { errs := errs + [FieldError("infrastructure", Forbidden)]; }
      if cp.spec.horizon.Some? { errs := errs + [FieldError("horizon", Forbidden)]; }
      return;
    }
    if cp.spec.keystone.Some? && cp.spec.keystone.value.external.Some? {
      errs := errs + [FieldError("keystone.external", Forbidden)];
    }
    if cp.spec.infrastructure == None { errs := errs + [FieldError("infrastructure", Required)]; }
  }

  /** `others` are the errors of the rules the model leaves out. */
  method Validate(cp: ControlPlane, others: ErrorList) returns (errs: ErrorList)
    ensures errs == [] <==> SpecOk(cp) && others == []
  {
    errs := others;
    if cp.spec.infrastructure.Some? {
      var db, cache := cp.spec.infrastructure.value.database, cp.spec.infrastructure.value.cache;
      if db.clusterRef.Some? == (db.host != "") { errs := errs + [FieldError("database", Invalid)]; }
      if db.credentialsMode == "Dynamic" && db.clusterRef == None {
        errs := errs + [FieldError("database.credentialsMode", Invalid)];
      }
      if db.replicas == 2 { errs := errs + [FieldError("database.replicas", Invalid)]; }
      if cache.clusterRef.Some? == (|cache.servers| > 0) { errs := errs + [FieldError("cache", Invalid)]; }
    }
    if cp.spec.admin.passwordSecretRef.name == "" { errs := errs + [FieldError("passwordSecretRef.name", Required)]; }
    var mode := ValidateKeystoneMode(cp);
    var accounts := ValidateServiceAccounts(cp);
    var dedicated := ValidateDedicatedBackingServices(cp);
    var namespaces := ValidateServiceNamespaces(cp);
    errs := errs + mode + accounts + dedicated + namespaces;
  }
}
