/** Admission as a state machine over the cluster: a request is defaulted,
    validated against what is stored, and stored, in one step. */
module Admission {
  import opened Options
  import opened ControlPlanes
  import opened Webhook
  import opened Immutability

  type Key = (string, string)

  function KeyOf(cp: ControlPlane): Key { (cp.ns, cp.name) }

  /** `clock` is the last uid handed out. */
  datatype Cluster = Cluster(planes: map<Key, ControlPlane>, clock: nat)

  /** `others` says whether the rules the model leaves out accept the defaulted
      object; on an update the release comparison is one of them. */
  datatype Request =
    | Create(cp: ControlPlane, others: bool)
    | Update(cp: ControlPlane, others: bool)
    | Delete(key: Key)

  ghost predicate SameObject(a: ControlPlane, b: ControlPlane) {
    a.uid == b.uid && KeyOf(a) == KeyOf(b)
  }

  /** What cp claims is free in `other`, and `other` does not claim cp's own. */
  ghost predicate ClaimsFree(cp: ControlPlane, other: ControlPlane) {
    && (forall i :: 0 <= i < |Declared(cp)| ==> Declared(cp)[i].name == "" || Declared(cp)[i].name !in Occupied(other))
    && cp.ns !in Placed(other)
  }

  ghost predicate ClaimsOk(cp: ControlPlane, existing: seq<ControlPlane>) {
    forall k :: 0 <= k < |existing| ==> SameObject(existing[k], cp) || ClaimsFree(cp, existing[k])
  }

  method ValidateUniqueInNamespace(cp: ControlPlane, existing: seq<ControlPlane>) returns (errs: ErrorList)
    ensures errs == [] <==> forall k :: 0 <= k < |existing| ==> existing[k].ns != cp.ns
  {
    errs := [];
    for k := 0 to |existing|
      invariant errs == [] && forall l :: 0 <= l < k ==> existing[l].ns != cp.ns
    {
      if existing[k].ns == cp.ns { return [FieldError("metadata.namespace", Forbidden)]; }
    }
  }

  method ClaimErrors(cp: ControlPlane, other: ControlPlane) returns (errs: ErrorList)
    ensures errs == [] <==> ClaimsFree(cp, other)
  {
    errs := [];
    var claims := Declared(cp);
    var theirs := DedicatedServiceNamespaces(other);
    var names := Names(theirs);
    var occupied := {other.ns} + set n | n in names;
    assert occupied == Occupied(other);
    for i := 0 to |claims|
      invariant errs == [] <==> forall k :: 0 <= k < i ==> claims[k].name == "" || claims[k].name !in occupied
    {
      if claims[i].name in occupied && claims[i].name != "" { errs := errs + [FieldError("namespace.name", Invalid)]; }
    }
    ghost var claimErrs := errs;
    for i := 0 to |theirs|
      invariant errs == [] <==> claimErrs == [] && forall k :: 0 <= k < i ==> names[k] != cp.ns
    {
      if theirs[i].name == cp.ns { errs := errs + [FieldError("metadata.namespace", Forbidden)]; }
    }
    assert (forall k :: 0 <= k < |names| ==> names[k] != cp.ns) <==> cp.ns !in (set n | n in names);
  }

  method ValidateNamespaceClaims(cp: ControlPlane, existing: seq<ControlPlane>) returns (errs: ErrorList)
    ensures errs == [] <==> ClaimsOk(cp, existing)
  {
    errs := [];
    for k := 0 to |existing|
      invariant errs == [] <==> forall l :: 0 <= l < k ==> SameObject(existing[l], cp) || ClaimsFree(cp, existing[l])
    {
      var other := existing[k];
      if other.uid == cp.uid && other.ns == cp.ns && other.name == cp.name { continue; }
      var e := ClaimErrors(cp, other);
      errs := errs + e;
    }
  }

  /** For a well-formed object the two cluster checks together ask for exactly
      one thing: that it occupies no namespace another one occupies. */
  lemma ClaimsAreDisjointness(cp: ControlPlane, other: ControlPlane)
    requires NamespacesOk(cp)
    ensures other.ns != cp.ns && ClaimsFree(cp, other) <==> Occupied(cp) !! Occupied(other)
  {
    DeclaredArePlaced(cp);
  }

  lemma DeclaredArePlaced(cp: ControlPlane)
    requires NamespacesOk(cp)
    ensures forall i :: 0 <= i < |Declared(cp)| ==> Declared(cp)[i].name in Placed(cp)
    ensures forall n :: n in Placed(cp) ==> exists i :: 0 <= i < |Declared(cp)| && Declared(cp)[i].name == n
  {
    var d, ks, hz := Declared(cp), KeystoneNamespaceBlock(cp), HorizonNamespaceBlock(cp);
    if ks.Some? { assert d[0] == ks.value && ks.value.name != "" && ks.value.name != cp.ns; }
    if hz.Some? { assert d[|d| - 1] == hz.value && hz.value.name != "" && hz.value.name != cp.ns; }
  }

  /* ---- The machine ---- */

  ghost predicate CreateAdmitted(c: Cluster, cp: ControlPlane, others: bool) {
    && others && SpecOk(cp) && KeyOf(cp) !in c.planes
    && (forall k :: k in c.planes ==> c.planes[k].ns != cp.ns && ClaimsFree(cp, c.planes[k]))
  }

  ghost predicate UpdateAdmitted(c: Cluster, cp: ControlPlane, others: bool) {
    && others && SpecOk(cp) && KeyOf(cp) in c.planes
    && Freeze(c.planes[KeyOf(cp)]) == Freeze(cp)
    && AccountsKept(c.planes[KeyOf(cp)].spec.serviceAccounts, cp.spec.serviceAccounts)
  }

  ghost function Admit(c: Cluster, r: Request): Cluster {
    match r
    case Create(cp, others) =>
      var d := Defaulted(cp);
      if CreateAdmitted(c, d, others) then Cluster(c.planes[KeyOf(d) := d.(uid := c.clock + 1)], c.clock + 1) else c
    case Update(cp, others) =>
      var d := Defaulted(cp);
      if UpdateAdmitted(c, d, others) then c.(planes := c.planes[KeyOf(d) := d.(uid := c.planes[KeyOf(d)].uid)]) else c
    case Delete(key) => c.(planes := c.planes - {key})
  }

  /** The API server with its webhooks. */
  class Server {
    var planes: map<Key, ControlPlane>
    var clock: nat

    constructor ()
      ensures State() == Cluster(map[], 0)
    {
      planes, clock := map[], 0;
    }

    function State(): Cluster
      reads this
    {
      Cluster(planes, clock)
    }

    /** The stored objects, in whatever order. */
    method List() returns (items: seq<ControlPlane>)
      ensures forall k :: 0 <= k < |items| ==> items[k] in planes.Values
      ensures forall key :: key in planes ==> planes[key] in items
    {
      items := [];
      var left := planes.Keys;
      while left != {}
        invariant left <= planes.Keys
        invariant forall k :: 0 <= k < |items| ==> items[k] in planes.Values
        invariant forall key :: key in planes.Keys - left ==> planes[key] in items
        decreases left
      {
        var key :| key in left;
        items, left := items + [planes[key]], left - {key};
      }
    }

    method ValidateCreate(cp: ControlPlane, others: ErrorList) returns (errs: ErrorList)
      requires KeyOf(cp) !in planes && forall k :: k in planes ==> KeyOf(planes[k]) == k
      ensures errs == [] <==> CreateAdmitted(State(), cp, others == [])
    {
      errs := Validate(cp, others);
      if errs != [] { return; }
      var existing := List();
      errs := ValidateUniqueInNamespace(cp, existing);
      if errs != [] { return; }
      errs := ValidateNamespaceClaims(cp, existing);
    }

    method ValidateUpdate(stored: ControlPlane, cp: ControlPlane, others: ErrorList) returns (errs: ErrorList)
      requires KeyOf(cp) in planes && stored == planes[KeyOf(cp)]
      ensures errs == [] <==> UpdateAdmitted(State(), cp, others == [])
    {
      errs := Validate(cp, others);
      var immutable := ValidateImmutable(stored, cp);
      errs := errs + immutable;
    }

    method CreateObject(submitted: ControlPlane, others: ErrorList) returns (ok: bool)
      requires forall k :: k in planes ==> KeyOf(planes[k]) == k
      modifies this
      ensures State() == Admit(old(State()), Create(submitted, others == []))
      ensures ok <==> CreateAdmitted(old(State()), Defaulted(submitted), others == [])
      ensures !ok ==> State() == old(State())
      ensures ok ==>
        && KeyOf(submitted) !in old(planes) && KeyOf(submitted) in planes
        && planes[KeyOf(submitted)] == Defaulted(submitted).(uid := clock) && old(clock) < clock
        && planes - {KeyOf(submitted)} == old(planes)
    {
      var admitted := new Admitted(submitted);
      admitted.Default();
      var cp := admitted.Object();
      if KeyOf(cp) in planes { return false; }
      var errs := ValidateCreate(cp, others);
      ok := errs == [];
      if ok { planes, clock := planes[KeyOf(cp) := cp.(uid := clock + 1)], clock + 1; }
    }

    method UpdateObject(submitted: ControlPlane, others: ErrorList) returns (ok: bool)
      modifies this
      ensures State() == Admit(old(State()), Update(submitted, others == []))
      ensures ok <==> UpdateAdmitted(old(State()), Defaulted(submitted), others == [])
      ensures !ok ==> State() == old(State())
      ensures ok ==>
        && KeyOf(submitted) in old(planes) && KeyOf(submitted) in planes && clock == old(clock)
        && planes[KeyOf(submitted)] == Defaulted(submitted).(uid := old(planes)[KeyOf(submitted)].uid)
        && planes - {KeyOf(submitted)} == old(planes) - {KeyOf(submitted)}
    {
      var admitted := new Admitted(submitted);
      admitted.Default();
      var cp := admitted.Object();
      if KeyOf(cp) !in planes { return false; }
      var errs := ValidateUpdate(planes[KeyOf(cp)], cp, others);
      ok := errs == [];
      if ok { planes := planes[KeyOf(cp) := cp.(uid := planes[KeyOf(cp)].uid)]; }
    }

    method DeleteObject(key: Key)
      modifies this
      ensures State() == Admit(old(State()), Delete(key))
      ensures key !in planes && planes == old(planes) - {key} && clock == old(clock)
    {
      planes := planes - {key};
    }
  }

  ghost predicate StoredOk(c: Cluster, k: Key) {
    k in c.planes ==> KeyOf(c.planes[k]) == k && SpecOk(c.planes[k]) && 0 < c.planes[k].uid <= c.clock
  }

  ghost predicate Apart(c: Cluster, j: Key, k: Key) {
    j in c.planes && k in c.planes && j != k ==> Occupied(c.planes[j]) !! Occupied(c.planes[k])
  }

  ghost predicate Inv(c: Cluster) {
    (forall k :: StoredOk(c, k)) && (forall j, k :: Apart(c, j, k))
  }

  lemma UidIsInertForAccounts(cp: ControlPlane, uid: nat)
    ensures AccountsOk(cp.(uid := uid)) <==> AccountsOk(cp)
  {
    var s := cp.(uid := uid);
    assert Occupied(s) == Occupied(cp);
    forall sa ensures AccountOk(s, sa) <==> AccountOk(cp, sa) {}
    assert forall sa :: IdentityKey(s, sa) == IdentityKey(cp, sa) && ProjectKey(s, sa) == ProjectKey(cp, sa);
    assert AccountsDistinct(s) <==> AccountsDistinct(cp);
  }

  /** What the API server stores differs from what was validated in its uid only. */
  lemma UidIsInert(cp: ControlPlane, uid: nat)
    ensures
      var s := cp.(uid := uid);
      && Occupied(s) == Occupied(cp) && Freeze(s) == Freeze(cp) && (SpecOk(s) <==> SpecOk(cp))
  {
    var s := cp.(uid := uid);
    UidIsInertForAccounts(cp, uid);
    assert DatabaseRefs(s) == DatabaseRefs(cp) && CacheRefs(s) == CacheRefs(cp);
    assert DedicatedOk(s) <==> DedicatedOk(cp);
    assert Declared(s) == Declared(cp);
    assert NamespacesOk(s) <==> NamespacesOk(cp);
  }

  lemma CreateIsApart(c: Cluster, d: ControlPlane, others: bool, k: Key)
    requires CreateAdmitted(c, d, others) && k in c.planes
    ensures Occupied(d) !! Occupied(c.planes[k])
  {
    ClaimsAreDisjointness(d, c.planes[k]);
  }

  lemma CreateKeeps(c: Cluster, cp: ControlPlane, others: bool)
    requires Inv(c)
    ensures Inv(Admit(c, Create(cp, others)))
  {
    var d := Defaulted(cp);
    if CreateAdmitted(c, d, others) {
      UidIsInert(d, c.clock + 1);
      forall k | k in c.planes ensures Occupied(d) !! Occupied(c.planes[k]) { CreateIsApart(c, d, others, k); }
      Stores(c, KeyOf(d), d.(uid := c.clock + 1), c.clock + 1);
    }
  }

  /** Storing a well-formed object that stays apart from all others. */
  lemma Stores(c: Cluster, key: Key, cp: ControlPlane, clock: nat)
    requires Inv(c) && c.clock <= clock && KeyOf(cp) == key && SpecOk(cp) && 0 < cp.uid <= clock
    requires forall k :: k in c.planes && k != key ==> Occupied(cp) !! Occupied(c.planes[k])
    ensures Inv(Cluster(c.planes[key := cp], clock))
  {
    var c' := Cluster(c.planes[key := cp], clock);
    forall k ensures StoredOk(c', k) { assert StoredOk(c, k); }
    forall j, k ensures Apart(c', j, k) { assert Apart(c, j, k); }
  }

  /** An update runs no cluster check: the frozen projection makes that sound. */
  lemma UpdateKeeps(c: Cluster, cp: ControlPlane, others: bool)
    requires Inv(c)
    ensures Inv(Admit(c, Update(cp, others)))
  {
    var d := Defaulted(cp);
    if UpdateAdmitted(c, d, others) {
      var key := KeyOf(d);
      var was := c.planes[key];
      UidIsInert(d, was.uid);
      assert StoredOk(c, key);
      FrozenOccupies(was, d);
      forall k | k in c.planes && k != key ensures Occupied(d) !! Occupied(c.planes[k]) { assert Apart(c, key, k); }
      Stores(c, key, d.(uid := was.uid), c.clock);
    }
  }

  lemma DeleteKeeps(c: Cluster, key: Key)
    requires Inv(c)
    ensures Inv(Admit(c, Delete(key)))
  {
    var c' := Admit(c, Delete(key));
    forall k ensures StoredOk(c', k) { assert StoredOk(c, k); }
    forall j, k ensures Apart(c', j, k) { assert Apart(c, j, k); }
  }

  lemma AdmitKeeps(c: Cluster, r: Request)
    requires Inv(c)
    ensures Inv(Admit(c, r))
  {
    match r
    case Create(cp, others) => CreateKeeps(c, cp, others);
    case Update(cp, others) => UpdateKeeps(c, cp, others);
    case Delete(key) => DeleteKeeps(c, key);
  }

  ghost function After(requests: seq<Request>): Cluster {
    if requests == [] then Cluster(map[], 0) else Admit(After(requests[..|requests| - 1]), requests[|requests| - 1])
  }

  lemma {:induction false} ReachableInv(requests: seq<Request>)
    ensures Inv(After(requests))
  {
    if requests != [] {
      ReachableInv(requests[..|requests| - 1]);
      AdmitKeeps(After(requests[..|requests| - 1]), requests[|requests| - 1]);
    }
  }

  /** Whatever has been requested so far, no two ControlPlanes occupy a common
      namespace. */
  lemma NamespacesBelongToOne(requests: seq<Request>, j: Key, k: Key)
    requires j in After(requests).planes && k in After(requests).planes && j != k
    ensures Occupied(After(requests).planes[j]) !! Occupied(After(requests).planes[k])
  {
    ReachableInv(requests);
    assert Apart(After(requests), j, k);
  }

  /** So no two ControlPlanes deliver credentials into one namespace. */
  lemma DeliveriesDoNotMeet(requests: seq<Request>, j: Key, k: Key, a: ServiceAccount, b: ServiceAccount)
    requires j in After(requests).planes && k in After(requests).planes && j != k
    requires a in After(requests).planes[j].spec.serviceAccounts && b in After(requests).planes[k].spec.serviceAccounts
    ensures
      var mine := if a.targetNamespace == "" then After(requests).planes[j].ns else a.targetNamespace;
      var theirs := if b.targetNamespace == "" then After(requests).planes[k].ns else b.targetNamespace;
      mine != theirs
  {
    var c := After(requests);
    ReachableInv(requests);
    assert StoredOk(c, j) && StoredOk(c, k) && Apart(c, j, k);
    assert AccountOk(c.planes[j], a) && AccountOk(c.planes[k], b);
    assert (if a.targetNamespace == "" then c.planes[j].ns else a.targetNamespace) in Occupied(c.planes[j]);
    assert (if b.targetNamespace == "" then c.planes[k].ns else b.targetNamespace) in Occupied(c.planes[k]);
  }

  /** The object under a key in two clusters, if it is the same object. */
  ghost predicate SameLife(c: Cluster, c': Cluster, k: Key) {
    k in c.planes && k in c'.planes && c.planes[k].uid == c'.planes[k].uid
  }

  lemma StepFreezes(c: Cluster, r: Request, k: Key)
    requires Inv(c) && k in Admit(c, r).planes
    ensures
      var c' := Admit(c, r);
      && c.clock <= c'.clock
      && (SameLife(c, c', k) ==> Freeze(c.planes[k]) == Freeze(c'.planes[k]))
      && (!SameLife(c, c', k) ==> c.clock < c'.planes[k].uid)
  {
    assert StoredOk(c, k);
    match r
    case Create(cp, others) => UidIsInert(Defaulted(cp), c.clock + 1);
    case Update(cp, others) =>
      if k in c.planes { UidIsInert(Defaulted(cp), c.planes[k].uid); }
    case Delete(_) =>
  }

  lemma {:induction false} ClockGrows(requests: seq<Request>, n: nat)
    requires n <= |requests|
    ensures After(requests[..n]).clock <= After(requests).clock
  {
    if n < |requests| {
      var shorter := requests[..|requests| - 1];
      assert requests[..n] == shorter[..n];
      ClockGrows(shorter, n);
    } else {
      assert requests[..n] == requests;
    }
  }

  /** As long as it lives, a ControlPlane keeps the frozen projection it was
      created with. */
  lemma {:induction false} FrozenForLife(requests: seq<Request>, n: nat, k: Key)
    requires n <= |requests| && SameLife(After(requests[..n]), After(requests), k)
    ensures Freeze(After(requests[..n]).planes[k]) == Freeze(After(requests).planes[k])
  {
    if n < |requests| {
      var shorter := requests[..|requests| - 1];
      assert requests[..n] == shorter[..n];
      ReachableInv(shorter);
      ReachableInv(requests[..n]);
      assert StoredOk(After(requests[..n]), k);
      ClockGrows(shorter, n);
      StepFreezes(After(shorter), requests[|requests| - 1], k);
      FrozenForLife(shorter, n, k);
    } else {
      assert requests[..n] == requests;
    }
  }
}
