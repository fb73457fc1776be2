/** What defaulting does to each field: a set one stays, an unset one gets its
    documented value, and nothing else is touched or invented. */
module DefaultLaws {
  import opened Options
  import opened ControlPlanes

  /** A set field stays; an unset one gets `d`. */
  ghost predicate Fills(before: string, after: string, d: string) {
    (before != "" ==> after == before) && (before == "" ==> after == d)
  }

  /** The fields of a database; one without an endpoint of its own names its
      cluster, a brownfield one is never given one. */
  ghost predicate FillsDatabase(before: DatabaseSpec, after: DatabaseSpec, cluster: string) {
    && Fills(before.database, after.database, "keystone") && Fills(before.secretName, after.secretName, "keystone-db")
    && after.host == before.host && after.replicas == before.replicas && after.storageSize == before.storageSize
    && (before.host != "" ==> after.clusterRef == before.clusterRef)
    && (before.host == "" ==>
          after.clusterRef.Some? && Fills(if before.clusterRef.Some? then before.clusterRef.value else "", after.clusterRef.value, cluster))
  }

  ghost predicate FillsCache(before: CacheSpec, after: CacheSpec, cluster: string) {
    && Fills(before.backend, after.backend, "dogpile.cache.pymemcache")
    && after.servers == before.servers && after.replicas == before.replicas
    && (before.servers != [] ==> after.clusterRef == before.clusterRef)
    && (before.servers == [] ==>
          after.clusterRef.Some? && Fills(if before.clusterRef.Some? then before.clusterRef.value else "", after.clusterRef.value, cluster))
  }

  ghost predicate FillsPlacement(before: Option<NamespaceBlock>, after: Option<NamespaceBlock>) {
    && (before.Some? <==> after.Some?)
    && (before.Some? && after.Some? ==>
          after.value.name == before.value.name && Fills(before.value.lifecycle, after.value.lifecycle, "Managed"))
  }

  /** The identity of the object, its region and the admin credential. */
  lemma AdminFields(cp: ControlPlane)
    ensures
      var a, b := cp.spec.admin, Defaulted(cp).spec.admin;
      && Defaulted(cp) == cp.(spec := Defaulted(cp).spec) && Defaulted(cp).spec.rest == cp.spec.rest
      && Fills(cp.spec.region, Defaulted(cp).spec.region, "RegionOne")
      && Fills(a.secretName, b.secretName, "k-orc-clouds-yaml") && Fills(a.cloudName, b.cloudName, "admin")
      && Fills(a.passwordSecretRef.name, b.passwordSecretRef.name, "keystone-admin")
      && Fills(a.passwordSecretRef.key, b.passwordSecretRef.key, "password")
      && Fills(a.userName, b.userName, "admin") && Fills(a.projectName, b.projectName, "admin")
      && Fills(a.domainName, b.domainName, "Default") && Fills(a.rotationMode, b.rotationMode, "PasswordDriven")
      && b.restricted == (if a.restricted == None then Some(true) else a.restricted)
  {
  }

  /** An account's user is named after the account; its other fields, and the
      list, stay. */
  lemma AccountFields(cp: ControlPlane, i: nat)
    requires i < |cp.spec.serviceAccounts|
    ensures
      var before, after := cp.spec.serviceAccounts, Defaulted(cp).spec.serviceAccounts;
      && |after| == |before| && after[i] == before[i].(userName := after[i].userName)
      && Fills(before[i].userName, after[i].userName, before[i].name)
  {
  }

  /** External mode invents no backing service; any other mode has both. */
  lemma InfrastructureFields(cp: ControlPlane)
    ensures
      var external := cp.spec.keystone.Some? && cp.spec.keystone.value.mode == "External";
      var before, after := cp.spec.infrastructure, Defaulted(cp).spec.infrastructure;
      var database := if before.Some? then before.value.database else DatabaseSpec(None, "", "", 0, "", "", "");
      var cache := if before.Some? then before.value.cache else CacheSpec(None, [], "", 0);
      && (external ==> after == before)
      && (!external ==>
            && after.Some? && FillsDatabase(database, after.value.database, "openstack-db")
            && after.value.database.credentialsMode == database.credentialsMode
            && FillsCache(cache, after.value.cache, "openstack-memcached"))
  {
  }

  /** A declared keystone block is managed unless it says otherwise, and its
      placement, External block and dedicated services are filled, each in its own
      mode only; nothing undeclared is invented. */
  lemma KeystoneFields(cp: ControlPlane)
    ensures cp.spec.keystone.Some? <==> Defaulted(cp).spec.keystone.Some?
    ensures
      cp.spec.keystone.Some? ==>
        var before, after := cp.spec.keystone.value, Defaulted(cp).spec.keystone.value;
        && Fills(before.mode, after.mode, "Managed") && FillsPlacement(before.ns, after.ns)
        && (before.external.Some? <==> after.external.Some?) && (before.dedicated.Some? <==> after.dedicated.Some?)
        && (before.mode == "External" ==> after.dedicated == before.dedicated)
        && (before.mode != "External" ==> after.external == before.external)
        && (before.mode == "External" && before.external.Some? ==> FillsExternal(before.external.value, after.external.value))
        && (before.mode != "External" && before.dedicated.Some? ==> FillsDedicated(cp.name, before.dedicated.value, after.dedicated.value))
  {
  }

  ghost predicate FillsExternal(before: External, after: External) {
    && Fills(before.endpointType, after.endpointType, "public") && (before.caBundle.Some? <==> after.caBundle.Some?)
    && (before.caBundle.Some? && after.caBundle.Some? ==>
          after.caBundle.value.name == before.caBundle.value.name && Fills(before.caBundle.value.key, after.caBundle.value.key, "ca.crt"))
  }

  /** A dedicated instance is named after the ControlPlane, and a managed database
      is Static unless it says otherwise. */
  ghost predicate FillsDedicated(name: string, before: KeystoneDedicated, after: KeystoneDedicated) {
    && (before.database.Some? <==> after.database.Some?) && (before.cache.Some? <==> after.cache.Some?)
    && (before.database.Some? && after.database.Some? ==>
          && FillsDatabase(before.database.value, after.database.value, name + "-keystone-db")
          && (after.database.value.clusterRef.Some? ==>
                Fills(before.database.value.credentialsMode, after.database.value.credentialsMode, "Static"))
          && (after.database.value.clusterRef == None ==>
                after.database.value.credentialsMode == before.database.value.credentialsMode))
    && (before.cache.Some? && after.cache.Some? ==>
          FillsCache(before.cache.value, after.cache.value, name + "-keystone-cache"))
  }

  /** The same for horizon, whose only dedicated service is a cache. */
  lemma HorizonFields(cp: ControlPlane)
    ensures cp.spec.horizon.Some? <==> Defaulted(cp).spec.horizon.Some?
    ensures
      cp.spec.horizon.Some? ==>
        var external := cp.spec.keystone.Some? && cp.spec.keystone.value.mode == "External";
        var before, after := cp.spec.horizon.value, Defaulted(cp).spec.horizon.value;
        && FillsPlacement(before.ns, after.ns) && (before.dedicated.Some? <==> after.dedicated.Some?)
        && (external ==> after.dedicated == before.dedicated)
        && (!external && before.dedicated.Some? ==>
              && (before.dedicated.value.cache.Some? <==> after.dedicated.value.cache.Some?)
              && (before.dedicated.value.cache.Some? ==>
                    FillsCache(before.dedicated.value.cache.value, after.dedicated.value.cache.value, cp.name + "-horizon-cache")))
  {
  }
}
