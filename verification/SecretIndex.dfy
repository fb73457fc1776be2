/** Which ControlPlanes a Secret event wakes: the name index, the mapper over
    it, and the reads they must cover. */
module SecretIndex {
  import opened Options
  import opened ControlPlanes
  import opened Admission

  function AdminPasswordSecretName(cp: ControlPlane): string { cp.name + "-keystone" + "-admin-credentials" }

  predicate ManagedDatabase(cp: ControlPlane) {
    cp.spec.infrastructure.Some? && cp.spec.infrastructure.value.database.clusterRef.Some?
  }

  function EffectiveAdminPasswordSecretRef(cp: ControlPlane): SecretRef {
    if IsExternalKeystone(cp) then cp.spec.admin.passwordSecretRef
    else if ManagedDatabase(cp) then SecretRef(AdminPasswordSecretName(cp), "password")
    else cp.spec.admin.passwordSecretRef
  }

  function EffectiveAdminPasswordSecretNamespace(cp: ControlPlane): string {
    if IsExternalKeystone(cp) then cp.ns
    else if ManagedDatabase(cp) then KeystoneNamespace(cp)
    else cp.ns
  }

  function ExternalCABundleRef(cp: ControlPlane): Option<SecretRef> {
    if !IsExternalKeystone(cp) || cp.spec.keystone.value.external == None then None
    else cp.spec.keystone.value.external.value.caBundle
  }

  /** The Secrets a pass over cp reads: the admin password, and the CA bundle of
      an external Keystone. */
  ghost predicate Reads(cp: ControlPlane, ns: string, name: string) {
    || (ns == EffectiveAdminPasswordSecretNamespace(cp) && name == EffectiveAdminPasswordSecretRef(cp).name)
    || (ns == cp.ns && ExternalCABundleRef(cp).Some? && name == ExternalCABundleRef(cp).value.name)
  }

  /** An external Keystone's password and CA bundle are the author's Secrets in
      the ControlPlane's namespace; with a managed database the password is the
      operator's own Secret where keystone lives; otherwise it is the author's. */
  lemma ReadsFields(cp: ControlPlane, ns: string, name: string)
    ensures
      var s := cp.spec;
      var placed := s.keystone.Some? && s.keystone.value.ns.Some? && s.keystone.value.ns.value.name != "";
      Reads(cp, ns, name) <==>
        if s.keystone.Some? && s.keystone.value.mode == "External" then
          && ns == cp.ns
          && (|| name == s.admin.passwordSecretRef.name
              || (s.keystone.value.external.Some? && s.keystone.value.external.value.caBundle.Some?
                  && name == s.keystone.value.external.value.caBundle.value.name))
        else if s.infrastructure.Some? && s.infrastructure.value.database.clusterRef.Some? then
          ns == (if placed then s.keystone.value.ns.value.name else cp.ns) && name == cp.name + "-keystone-admin-credentials"
        else ns == cp.ns && name == s.admin.passwordSecretRef.name
  {
    assert cp.name + "-keystone" + "-admin-credentials" == cp.name + "-keystone-admin-credentials";
  }

  /** The names cp is indexed under: each read name once, never the empty one. */
  method SecretNames(cp: ControlPlane) returns (names: seq<string>)
    ensures names == IndexNames(cp)
  {
    names := [];
    var name := EffectiveAdminPasswordSecretRef(cp).name;
    if name != "" { names := names + [name]; }
    var ref := ExternalCABundleRef(cp);
    if ref.Some? && ref.value.name != "" && ref.value.name !in names { names := names + [ref.value.name]; }
  }

  function IndexNames(cp: ControlPlane): (names: seq<string>)
    ensures NoDuplicates(names) && "" !in names
    ensures forall n :: n in names <==>
              n != "" && (n == EffectiveAdminPasswordSecretRef(cp).name
                          || (ExternalCABundleRef(cp).Some? && n == ExternalCABundleRef(cp).value.name))
  {
    var password := EffectiveAdminPasswordSecretRef(cp).name;
    var names := if password != "" then [password] else [];
    var ca := ExternalCABundleRef(cp);
    if ca.Some? && ca.value.name != "" && ca.value.name !in names then names + [ca.value.name] else names
  }

  method ControlPlaneNamespaces(cp: ControlPlane) returns (namespaces: seq<string>)
    ensures (forall n :: n in namespaces <==> n in Occupied(cp)) && NoDuplicates(namespaces)
  {
    var placed := DedicatedServiceNamespaces(cp);
    var names := Names(placed);
    namespaces := [cp.ns] + names;
    assert cp.ns !in names;
  }

  /** What a scan of every ControlPlane would wake. */
  ghost predicate Wakes(cp: ControlPlane, ns: string, name: string) {
    name in IndexNames(cp) && ns in Occupied(cp)
  }

  /** The field index: who is stored under a name. */
  ghost predicate Indexed(index: map<string, set<Key>>, planes: map<Key, ControlPlane>) {
    forall name, key :: name in index && key in index[name] <==> key in planes && name in IndexNames(planes[key])
  }

  /** The index-only, all-namespaces shape of the shared mapper. */
  method SecretToOwners(index: map<string, set<Key>>, name: string) returns (requests: set<Key>)
    ensures requests == if name in index then index[name] else {}
  {
    requests := {};
    if name !in index { return; }
    var items := index[name];
    while items != {}
      invariant items <= index[name] && requests == index[name] - items
      decreases items
    {
      var item :| item in items;
      requests, items := requests + {item}, items - {item};
    }
  }

  /** The namespace filter: a ControlPlane whose read fails passes it. */
  method Filtered(cp: ControlPlane, unreadable: bool, ns: string) returns (keep: bool)
    ensures keep <==> unreadable || ns in Occupied(cp)
  {
    if unreadable { return true; }
    var namespaces := ControlPlaneNamespaces(cp);
    keep := ns in namespaces;
  }

  ghost predicate Kept(planes: map<Key, ControlPlane>, unreadable: set<Key>, ns: string, key: Key) {
    key in planes && (key in unreadable || ns in Occupied(planes[key]))
  }

  /** The requests for a Secret event: a ControlPlane deleted meanwhile is
      skipped, one whose read fails is woken regardless. */
  method SecretToControlPlanes(
    index: map<string, set<Key>>, planes: map<Key, ControlPlane>, unreadable: set<Key>, ns: string, name: string)
    returns (requests: set<Key>)
    requires Indexed(index, planes)
    ensures forall key :: key in requests <==>
              key in planes && (Wakes(planes[key], ns, name) || (key in unreadable && name in IndexNames(planes[key])))
  {
    var indexed := SecretToOwners(index, name);
    assert forall key :: key in indexed <==> key in planes && name in IndexNames(planes[key]);
    requests := {};
    var left := indexed;
    while left != {}
      invariant left <= indexed
      invariant forall key :: key in requests <==>
                  key in indexed && key !in left && Kept(planes, unreadable, ns, key)
      decreases left
    {
      var key :| key in left;
      left := left - {key};
      var keep := Filtered(planes[key], key in unreadable, ns);
      if keep { requests := requests + {key}; }
    }
  }

  /** A Secret event wakes a ControlPlane exactly when the ControlPlane reads a
      Secret of that name somewhere and occupies the event's namespace. */
  lemma WakesByName(cp: ControlPlane, ns: string, name: string)
    ensures Wakes(cp, ns, name) <==> name != "" && ns in Occupied(cp) && exists other :: Reads(cp, other, name)
  {
    if name == EffectiveAdminPasswordSecretRef(cp).name { assert Reads(cp, EffectiveAdminPasswordSecretNamespace(cp), name); }
    if ExternalCABundleRef(cp).Some? && name == ExternalCABundleRef(cp).value.name { assert Reads(cp, cp.ns, name); }
  }

  /** Every Secret a pass reads wakes its ControlPlane, wherever the Secret lives. */
  lemma ReadsWake(cp: ControlPlane, ns: string, name: string)
    requires Reads(cp, ns, name) && name != ""
    ensures Wakes(cp, ns, name)
  {
    if ns == KeystoneNamespace(cp) && ns != cp.ns {
      assert KeystoneNamespaceBlock(cp) in {KeystoneNamespaceBlock(cp), HorizonNamespaceBlock(cp)};
      assert ns in Placed(cp);
    }
  }

  /** In a cluster built by admission, a Secret wakes at most one ControlPlane. */
  lemma AtMostOneWakes(requests: seq<Request>, ns: string, name: string, j: Key, k: Key)
    requires j in After(requests).planes && k in After(requests).planes
    requires Wakes(After(requests).planes[j], ns, name) && Wakes(After(requests).planes[k], ns, name)
    ensures j == k
  {
    if j != k { NamespacesBelongToOne(requests, j, k); }
  }
}
