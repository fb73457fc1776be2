/** What a cluster built by admission holds: exactly the admitted objects, and
    what each of them promises field by field. */
module AdmissionLaws {
  import opened Options
  import opened ControlPlanes
  import opened Webhook
  import opened Immutability
  import opened Admission
  import opened AccountKeys

  /* ---- What is stored ---- */

  /** cp occupies no namespace any of these occupies. */
  ghost predicate KeepsApart(planes: map<Key, ControlPlane>, cp: ControlPlane) {
    forall k :: k in planes ==> Occupied(cp) !! Occupied(planes[k])
  }

  /** `cp` has been stored under its own key, with a uid newer than all others,
      and nothing else has changed. */
  ghost predicate Added(before: map<Key, ControlPlane>, after: map<Key, ControlPlane>, cp: ControlPlane) {
    var key := (cp.ns, cp.name);
    && key !in before && key in after && after[key] == cp.(uid := after[key].uid)
    && (forall k :: k in before ==> before[k].uid < after[key].uid)
    && after - {key} == before
  }

  /** A create is admitted exactly when the defaulted spec is in order and
      occupies no namespace any stored object occupies; then the object is there,
      defaulted, under a uid nobody has had, and nothing else has changed. A
      refused create changes nothing. */
  lemma CreateStores(requests: seq<Request>, cp: ControlPlane, others: bool)
    ensures
      var before, after := After(requests).planes, After(requests + [Create(cp, others)]).planes;
      if others && SpecOk(Defaulted(cp)) && KeepsApart(before, Defaulted(cp)) then Added(before, after, Defaulted(cp))
      else after == before
  {
    ReachableInv(requests);
    assert (requests + [Create(cp, others)])[..|requests|] == requests;
    CreateOn(After(requests), cp, others);
  }

  lemma CreateOn(c: Cluster, cp: ControlPlane, others: bool)
    requires Inv(c)
    ensures
      var after := Admit(c, Create(cp, others)).planes;
      if others && SpecOk(Defaulted(cp)) && KeepsApart(c.planes, Defaulted(cp)) then Added(c.planes, after, Defaulted(cp))
      else after == c.planes
  {
    var d := Defaulted(cp);
    AdmittedMeansApart(c, d, others);
    UidsUpToClock(c);
    if CreateAdmitted(c, d, others) { PutAdds(c.planes, d, c.clock + 1); }
  }

  lemma PutAdds(planes: map<Key, ControlPlane>, d: ControlPlane, uid: nat)
    requires KeyOf(d) !in planes && forall k :: k in planes ==> planes[k].uid < uid
    ensures Added(planes, planes[KeyOf(d) := d.(uid := uid)], d)
  {
  }

  lemma UidsUpToClock(c: Cluster)
    requires Inv(c)
    ensures forall k :: k in c.planes ==> c.planes[k].uid <= c.clock
  {
    forall k | k in c.planes ensures c.planes[k].uid <= c.clock { assert StoredOk(c, k); }
  }

  /** The cluster checks of a create come to one thing. */
  lemma AdmittedMeansApart(c: Cluster, d: ControlPlane, others: bool)
    requires Inv(c)
    ensures CreateAdmitted(c, d, others) <==> others && SpecOk(d) && KeepsApart(c.planes, d)
  {
    if SpecOk(d) {
      forall k | k in c.planes
        ensures c.planes[k].ns != d.ns && ClaimsFree(d, c.planes[k]) <==> Occupied(d) !! Occupied(c.planes[k])
      {
        ClaimsAreDisjointness(d, c.planes[k]);
      }
      if KeyOf(d) in c.planes { assert StoredOk(c, KeyOf(d)) && d.ns in Occupied(d); }
    }
  }

  /** An admitted update replaces the spec of the object under its key, which
      keeps its uid; a refused one changes nothing. */
  lemma UpdateStores(requests: seq<Request>, cp: ControlPlane, others: bool)
    ensures
      var before, after := After(requests).planes, After(requests + [Update(cp, others)]).planes;
      var key, d := (cp.ns, cp.name), Defaulted(cp);
      if key in before && others && SpecOk(d) && Freeze(before[key]) == Freeze(d)
         && AccountsKept(before[key].spec.serviceAccounts, d.spec.serviceAccounts)
      then key in after && after[key] == d.(uid := before[key].uid) && after - {key} == before - {key}
      else after == before
  {
    assert (requests + [Update(cp, others)])[..|requests|] == requests;
    assert After(requests + [Update(cp, others)]) == Admit(After(requests), Update(cp, others));
  }

  /** A delete removes exactly the object under its key. */
  lemma DeleteRemoves(requests: seq<Request>, key: Key)
    ensures After(requests + [Delete(key)]).planes == After(requests).planes - {key}
  {
    assert (requests + [Delete(key)])[..|requests|] == requests;
  }

  /** Two ControlPlanes in order that keep apart are both stored, one after the
      other, whatever was there before, as long as they keep apart from that. */
  lemma BothStored(requests: seq<Request>, a: ControlPlane, b: ControlPlane)
    requires SpecOk(Defaulted(a)) && SpecOk(Defaulted(b)) && Occupied(Defaulted(a)) !! Occupied(Defaulted(b))
    requires KeepsApart(After(requests).planes, Defaulted(a)) && KeepsApart(After(requests).planes, Defaulted(b))
    ensures
      var after := After(requests + [Create(a, true), Create(b, true)]).planes;
      && KeyOf(a) in after && after[KeyOf(a)].spec == Defaulted(a).spec
      && KeyOf(b) in after && after[KeyOf(b)].spec == Defaulted(b).spec
      && forall k :: k in After(requests).planes ==> k in after && after[k] == After(requests).planes[k]
  {
    var one := requests + [Create(a, true)];
    var before, mid, after := After(requests).planes, After(one).planes, After(one + [Create(b, true)]).planes;
    assert one + [Create(b, true)] == requests + [Create(a, true), Create(b, true)];
    CreateStores(requests, a, true);
    Survivors(before, mid, KeyOf(a));
    UidIsInert(Defaulted(a), mid[KeyOf(a)].uid);
    StaysApart(before, mid, KeyOf(a), Defaulted(b));
    CreateStores(one, b, true);
    Survivors(mid, after, KeyOf(b));
  }

  lemma StaysApart(before: map<Key, ControlPlane>, after: map<Key, ControlPlane>, key: Key, cp: ControlPlane)
    requires after - {key} == before && key in after && KeepsApart(before, cp) && Occupied(cp) !! Occupied(after[key])
    ensures KeepsApart(after, cp)
  {
    forall k | k in after ensures Occupied(cp) !! Occupied(after[k]) {
      if k != key { assert k in after - {key} && (after - {key})[k] == after[k]; }
    }
  }

  lemma Survivors(before: map<Key, ControlPlane>, after: map<Key, ControlPlane>, key: Key)
    requires after - {key} == before
    ensures forall k :: k in before ==> k in after && after[k] == before[k]
  {
    forall k | k in before ensures k in after && after[k] == before[k] {
      assert k in after - {key} && (after - {key})[k] == after[k];
    }
  }

  /** A ControlPlane that names nothing of its own is stored wherever no
      namespace is taken. */
  lemma PlainPlaneStored(requests: seq<Request>, cp: ControlPlane)
    requires cp.spec.keystone == None && cp.spec.horizon == None && cp.spec.infrastructure == None && cp.spec.serviceAccounts == []
    requires forall k :: k in After(requests).planes ==> cp.ns !in Occupied(After(requests).planes[k])
    ensures (cp.ns, cp.name) in After(requests + [Create(cp, true)]).planes
  {
    var d := Defaulted(cp);
    DefaultedOptInIsAdmitted(cp);
    assert Occupied(d) == {cp.ns};
    assert SpecOk(d);
    CreateStores(requests, cp, true);
  }

  /* ---- What every stored object promises ---- */

  /** Exactly one of a cluster and an endpoint, and never two replicas. */
  ghost predicate DatabasePromise(db: DatabaseSpec) {
    && (db.clusterRef.Some? || db.host != "") && !(db.clusterRef.Some? && db.host != "") && db.replicas != 2
  }

  ghost predicate CachePromise(cache: CacheSpec) {
    (cache.clusterRef.Some? || cache.servers != []) && !(cache.clusterRef.Some? && cache.servers != [])
  }

  /** An External ControlPlane points to a Keystone and provisions nothing; any
      other one provisions a database and a cache, and points to no Keystone. */
  ghost predicate ModePromise(s: Spec) {
    && (if s.keystone.Some? && s.keystone.value.mode == "External" then
          && s.infrastructure == None && s.horizon == None
          && s.keystone.value.dedicated == None && s.keystone.value.ns == None && s.keystone.value.external.Some?
          && (s.keystone.value.external.value.caBundle.Some? ==> s.keystone.value.external.value.caBundle.value.name != "")
        else s.infrastructure.Some? && (s.keystone.Some? ==> s.keystone.value.external == None))
    && (s.infrastructure.Some? ==>
          && DatabasePromise(s.infrastructure.value.database) && CachePromise(s.infrastructure.value.cache)
          && (s.infrastructure.value.database.credentialsMode == "Dynamic" ==> s.infrastructure.value.database.clusterRef.Some?))
    && s.admin.passwordSecretRef.name != ""
  }

  lemma ModeFields(cp: ControlPlane)
    ensures InfrastructureOk(cp) && cp.spec.admin.passwordSecretRef.name != "" && ModeOk(cp) <==> ModePromise(cp.spec)
  {
  }

  function SharedDb(s: Spec): Option<string> {
    if s.infrastructure.Some? then s.infrastructure.value.database.clusterRef else None
  }

  function SharedMemcached(s: Spec): Option<string> {
    if s.infrastructure.Some? then s.infrastructure.value.cache.clusterRef else None
  }

  function KeystoneDb(s: Spec): Option<string> {
    if s.keystone.Some? && s.keystone.value.dedicated.Some? && s.keystone.value.dedicated.value.database.Some?
    then s.keystone.value.dedicated.value.database.value.clusterRef else None
  }

  function KeystoneMemcached(s: Spec): Option<string> {
    if s.keystone.Some? && s.keystone.value.dedicated.Some? && s.keystone.value.dedicated.value.cache.Some?
    then s.keystone.value.dedicated.value.cache.value.clusterRef else None
  }

  function HorizonMemcached(s: Spec): Option<string> {
    if s.horizon.Some? && s.horizon.value.dedicated.Some? && s.horizon.value.dedicated.value.cache.Some?
    then s.horizon.value.dedicated.value.cache.value.clusterRef else None
  }

  /** A dedicated block declares a class, each class is well-formed, a dedicated
      database is never Dynamic, and no two instances share a cluster. */
  ghost predicate DedicatedPromise(s: Spec) {
    && (s.keystone.Some? && s.keystone.value.dedicated.Some? ==>
          var d := s.keystone.value.dedicated.value;
          && (d.database.Some? || d.cache.Some?)
          && (d.database.Some? ==> DatabasePromise(d.database.value) && d.database.value.credentialsMode != "Dynamic")
          && (d.cache.Some? ==> CachePromise(d.cache.value)))
    && (s.horizon.Some? && s.horizon.value.dedicated.Some? ==>
          s.horizon.value.dedicated.value.cache.Some? && CachePromise(s.horizon.value.dedicated.value.cache.value))
    && (KeystoneDb(s).Some? ==> KeystoneDb(s) != SharedDb(s))
    && (KeystoneMemcached(s).Some? ==> KeystoneMemcached(s) != SharedMemcached(s) && KeystoneMemcached(s) != HorizonMemcached(s))
    && (HorizonMemcached(s).Some? ==> HorizonMemcached(s) != SharedMemcached(s))
  }

  lemma DedicatedFields(cp: ControlPlane)
    ensures DedicatedOk(cp) <==> DedicatedPromise(cp.spec)
  {
    var s := cp.spec;
    assert DatabaseRef(SharedDatabase(cp)) == SharedDb(s) && DatabaseRef(DedicatedKeystoneDatabase(cp)) == KeystoneDb(s);
    assert CacheRef(SharedCache(cp)) == SharedMemcached(s) && CacheRef(DedicatedKeystoneCache(cp)) == KeystoneMemcached(s);
    assert CacheRef(DedicatedHorizonCache(cp)) == HorizonMemcached(s);
    RefsApart(SharedDb(s), KeystoneDb(s), None);
    assert DatabaseRefs(cp) + [] == DatabaseRefs(cp);
    RefsApart(SharedMemcached(s), KeystoneMemcached(s), HorizonMemcached(s));
  }

  function KeystonePlacement(cp: ControlPlane): Option<NamespaceBlock> {
    if cp.spec.keystone.Some? then cp.spec.keystone.value.ns else None
  }

  function HorizonPlacement(cp: ControlPlane): Option<NamespaceBlock> {
    if cp.spec.horizon.Some? then cp.spec.horizon.value.ns else None
  }

  /** A ControlPlane occupies its own namespace and those it places a service in. */
  lemma OccupiedFields(cp: ControlPlane, n: string)
    ensures
      var ks, hz := KeystonePlacement(cp), HorizonPlacement(cp);
      n in Occupied(cp) <==>
        || n == cp.ns
        || (n != "" && ks.Some? && n == ks.value.name) || (n != "" && hz.Some? && n == hz.value.name)
  {
  }

  ghost predicate PlacementOf(block: Option<NamespaceBlock>, own: string) {
    block.Some? ==> Word(block.value.name) && block.value.name != own && block.value.lifecycle in {"", "Managed", "External"}
  }

  /** A service is placed in another namespace than the ControlPlane's own, and
      services placed together agree on its lifecycle. */
  ghost predicate PlacementPromise(cp: ControlPlane) {
    var ks, hz := KeystonePlacement(cp), HorizonPlacement(cp);
    && PlacementOf(ks, cp.ns) && PlacementOf(hz, cp.ns)
    && (ks.Some? && hz.Some? && ks.value.name == hz.value.name ==> ks.value.lifecycle == hz.value.lifecycle)
  }

  lemma PlacementFields(cp: ControlPlane)
    ensures NamespacesOk(cp) <==> PlacementPromise(cp)
  {
    var d := Declared(cp);
    var ks, hz := KeystonePlacement(cp), HorizonPlacement(cp);
    if ks.Some? {
      assert d[0] == ks.value;
      WordIsLabel(ks.value.name);
    }
    if hz.Some? {
      assert d[|d| - 1] == hz.value;
      WordIsLabel(hz.value.name);
    }
  }

  /** Lower-case letters and digits, with hyphens inside only. */
  ghost predicate Word(s: string) {
    && s != "" && s[0] != '-' && s[|s| - 1] != '-'
    && forall i :: 0 <= i < |s| ==> 'a' <= s[i] <= 'z' || '0' <= s[i] <= '9' || s[i] == '-'
  }

  lemma WordIsLabel(s: string)
    ensures IsLabel(s) <==> Word(s)
  {
  }

  /** An account is a word short enough for its children's names, without a comma
      in any name; it belongs to a project, delivers into one of the
      ControlPlane's own namespaces, and is not the admin. */
  ghost predicate AccountPromise(cp: ControlPlane, a: ServiceAccount) {
    var user := if a.userName != "" then a.userName else a.name;
    var adminUser := if cp.spec.admin.userName != "" then cp.spec.admin.userName else "admin";
    var adminDomain := if cp.spec.admin.domainName != "" then cp.spec.admin.domainName else "Default";
    && Word(a.name) && |cp.name| + |a.name| + (if a.roles == [] then 38 else 50) <= 253
    && ',' !in a.userName && ',' !in a.domainName && ',' !in a.project.name && a.project.name != ""
    && (forall i :: 0 <= i < |a.roles| ==> ',' !in a.roles[i])
    && (a.targetNamespace != "" ==> Word(a.targetNamespace) && a.targetNamespace in Occupied(cp))
    && !(user == adminUser && (a.domainName == "" || a.domainName == adminDomain))
  }

  lemma AccountPromises(cp: ControlPlane, a: ServiceAccount)
    ensures AccountOk(cp, a) <==> AccountPromise(cp, a)
  {
    WordIsLabel(a.name);
    WordIsLabel(a.targetNamespace);
    assert |"-service-account-"| == 17 && |"-password-v"| == 11 && |"-assign-"| == 8;
  }

  /** Every stored object keeps the promises of the admission rules, whatever has
      been requested before: its mode, its dedicated services, its placements and
      each of at most 32 accounts are in order. */
  lemma StoredInOrder(requests: seq<Request>, k: Key)
    requires k in After(requests).planes
    ensures
      var cp := After(requests).planes[k];
      && cp.ns == k.0 && cp.name == k.1
      && ModePromise(cp.spec) && DedicatedPromise(cp.spec) && PlacementPromise(cp)
      && |cp.spec.serviceAccounts| <= 32
      && (forall i :: 0 <= i < |cp.spec.serviceAccounts| ==> AccountPromise(cp, cp.spec.serviceAccounts[i]))
  {
    ReachableInv(requests);
    var cp := After(requests).planes[k];
    assert StoredOk(After(requests), k);
    ModeFields(cp);
    DedicatedFields(cp);
    PlacementFields(cp);
    forall i | 0 <= i < |cp.spec.serviceAccounts| ensures AccountPromise(cp, cp.spec.serviceAccounts[i]) {
      AccountPromises(cp, cp.spec.serviceAccounts[i]);
    }
  }

  /** The accounts rule: at most 32 entries, each in order, and distinct in name,
      and, with no NUL in a domain, in user and domain and in managed project. */
  lemma AccountsRule(cp: ControlPlane)
    requires forall a :: a in cp.spec.serviceAccounts ==> '\0' !in AccountDomain(cp, a)
    ensures
      var sas := cp.spec.serviceAccounts;
      AccountsOk(cp) <==>
        && |sas| <= 32 && (forall i :: 0 <= i < |sas| ==> AccountPromise(cp, sas[i]))
        && (forall i, j :: 0 <= i < j < |sas| ==> SeparateAccounts(cp, sas[i], sas[j]))
  {
    NulFreeDomainsSuffice(cp);
    var sas := cp.spec.serviceAccounts;
    forall i | 0 <= i < |sas| ensures AccountOk(cp, sas[i]) <==> AccountPromise(cp, sas[i]) { AccountPromises(cp, sas[i]); }
    forall i, j | 0 <= i < j < |sas|
      ensures SeparateAccounts(cp, sas[i], sas[j]) <==>
        && sas[i].name != sas[j].name && !SameIdentity(cp, sas[i], sas[j])
        && (BothManage(sas[i], sas[j]) ==> !SameProject(cp, sas[i], sas[j]))
    {
    }
  }

  /** Two names, two users of one domain or of two, and two managed projects. */
  ghost predicate SeparateAccounts(cp: ControlPlane, a: ServiceAccount, b: ServiceAccount) {
    var admin := if cp.spec.admin.domainName != "" then cp.spec.admin.domainName else "Default";
    var sameDomain := (if a.domainName != "" then a.domainName else admin) == (if b.domainName != "" then b.domainName else admin);
    && a.name != b.name
    && !(sameDomain && (if a.userName != "" then a.userName else a.name) == (if b.userName != "" then b.userName else b.name))
    && !(sameDomain && a.project.create && b.project.create && a.project.name != "" && a.project.name == b.project.name)
  }

  /* ---- What is frozen ---- */

  /** Both unset, or both set to the same; an unset size is the default one. */
  ghost predicate SameSize(a: string, b: string) {
    a == b || (a == "" && b == "100Gi") || (a == "100Gi" && b == "")
  }

  ghost predicate SameDatabase(a: DatabaseSpec, b: DatabaseSpec) {
    a.clusterRef == b.clusterRef && a.database == b.database && a.replicas == b.replicas && SameSize(a.storageSize, b.storageSize)
  }

  ghost predicate SameDedicated(a: Option<KeystoneDedicated>, b: Option<KeystoneDedicated>) {
    && (a.Some? <==> b.Some?)
    && (a.Some? && b.Some? ==>
          && (a.value.database.Some? <==> b.value.database.Some?) && (a.value.cache.Some? <==> b.value.cache.Some?)
          && (a.value.database.Some? && b.value.database.Some? ==> SameDatabase(a.value.database.value, b.value.database.value))
          && (a.value.cache.Some? && b.value.cache.Some? ==> a.value.cache.value.clusterRef == b.value.cache.value.clusterRef))
  }

  ghost predicate SameHorizonDedicated(a: Option<HorizonDedicated>, b: Option<HorizonDedicated>) {
    && (a.Some? <==> b.Some?)
    && (a.Some? && b.Some? ==>
          && (a.value.cache.Some? <==> b.value.cache.Some?)
          && (a.value.cache.Some? && b.value.cache.Some? ==> a.value.cache.value.clusterRef == b.value.cache.value.clusterRef))
  }

  /** Two specs count as frozen alike exactly when these fields agree, pair by
      pair; everything else may change. */
  lemma FrozenFields(o: ControlPlane, n: ControlPlane)
    ensures
      var s, t := o.spec, n.spec;
      Freeze(o) == Freeze(n) <==>
        && s.region == t.region && s.admin.secretName == t.admin.secretName
        && ((s.keystone.Some? && s.keystone.value.mode == "External")
            <==> (t.keystone.Some? && t.keystone.value.mode == "External"))
        && (s.infrastructure.Some? <==> t.infrastructure.Some?)
        && (s.infrastructure.Some? && t.infrastructure.Some? ==>
              && SameDatabase(s.infrastructure.value.database, t.infrastructure.value.database)
              && s.infrastructure.value.cache.clusterRef == t.infrastructure.value.cache.clusterRef)
        && SameDedicated(if s.keystone.Some? then s.keystone.value.dedicated else None,
                         if t.keystone.Some? then t.keystone.value.dedicated else None)
        && SameHorizonDedicated(if s.horizon.Some? then s.horizon.value.dedicated else None,
                                if t.horizon.Some? then t.horizon.value.dedicated else None)
        && (if s.keystone.Some? then s.keystone.value.ns else None) == (if t.keystone.Some? then t.keystone.value.ns else None)
        && (if s.horizon.Some? then s.horizon.value.ns else None) == (if t.horizon.Some? then t.horizon.value.ns else None)
  {
    SizesFreeze();
  }

  lemma SizesFreeze()
    ensures forall a, b :: EffectiveStorageSize(a) == EffectiveStorageSize(b) <==> SameSize(a, b)
  {
  }

  /** One account, before and after: user, domain, project and delivery. */
  ghost predicate SameKept(a: ServiceAccount, b: ServiceAccount) {
    && a.userName == b.userName && a.domainName == b.domainName
    && a.project.name == b.project.name && (a.project.create <==> b.project.create)
    && a.targetNamespace == b.targetNamespace
  }

  /** The entries of one name agree. */
  ghost predicate KeptByName(o: seq<ServiceAccount>, b: ServiceAccount) {
    forall i :: 0 <= i < |o| && o[i].name == b.name ==> SameKept(o[i], b)
  }

  lemma KeptEntry(o: seq<ServiceAccount>, b: ServiceAccount)
    requires forall i, j :: 0 <= i < j < |o| ==> o[i].name != o[j].name
    ensures (ByName(o, b.name).Some? ==> SameAccount(ByName(o, b.name).value, b)) <==> KeptByName(o, b)
  {
    var a := ByName(o, b.name);
    if a.Some? {
      var i :| 0 <= i < |o| && o[i] == a.value;
      assert forall k :: 0 <= k < |o| && o[k].name == b.name ==> k == i;
    }
  }

  /** An account kept under its name keeps user, domain, project and delivery;
      accounts may come and go, and roles may change. */
  lemma AccountFields(o: seq<ServiceAccount>, n: seq<ServiceAccount>)
    requires forall i, j :: 0 <= i < j < |o| ==> o[i].name != o[j].name
    ensures AccountsKept(o, n) <==> forall j :: 0 <= j < |n| ==> KeptByName(o, n[j])
  {
    forall j | 0 <= j < |n|
      ensures (ByName(o, n[j].name).Some? ==> SameAccount(ByName(o, n[j].name).value, n[j])) <==> KeptByName(o, n[j])
    {
      KeptEntry(o, n[j]);
    }
  }

  /** An External ControlPlane that names nothing but its Keystone is stored
      wherever its namespace is free. */
  lemma ExternalPlaneStored(requests: seq<Request>, cp: ControlPlane, external: External)
    requires cp.spec.keystone == Some(Keystone("External", None, None, Some(external)))
    requires external.caBundle.Some? ==> external.caBundle.value.name != ""
    requires cp.spec.horizon == None && cp.spec.infrastructure == None && cp.spec.serviceAccounts == []
    requires forall k :: k in After(requests).planes ==> cp.ns !in Occupied(After(requests).planes[k])
    ensures (cp.ns, cp.name) in After(requests + [Create(cp, true)]).planes
  {
    ExternalPlaneOk(cp, external);
    CreateStores(requests, cp, true);
  }

  lemma ExternalPlaneOk(cp: ControlPlane, external: External)
    requires cp.spec.keystone == Some(Keystone("External", None, None, Some(external)))
    requires external.caBundle.Some? ==> external.caBundle.value.name != ""
    requires cp.spec.horizon == None && cp.spec.infrastructure == None && cp.spec.serviceAccounts == []
    ensures SpecOk(Defaulted(cp)) && Occupied(Defaulted(cp)) == {cp.ns}
  {
    var d := Defaulted(cp);
    assert d.spec.keystone.value.mode == "External" && d.spec.keystone.value.ns == None && d.spec.keystone.value.dedicated == None;
    ModeFields(d);
    DedicatedFields(d);
    PlacementFields(d);
    assert AccountsOk(d);
  }
}
