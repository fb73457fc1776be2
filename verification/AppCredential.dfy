/** The admin application credential: the operator-owned source Secret with its
    optimistic writers, and the pass that assembles the minted credential,
    nudges its push to OpenBao and its read-back, and reports readiness. */
module AppCredential {
  import opened Options
  import opened Kube

  /** A clouds.yaml document; `cloud` stands for the fields both builders render
      from the ControlPlane (cloud name, auth URL, region, endpoint type). */
  datatype CloudsDoc =
    | Password(password: string, cloud: string)
    | AppCred(id: string, secret: string, cloud: string)
    | Malformed

  /** The data of the source Secret. Empty strings stand for absent keys. */
  datatype Source = Source(value: string, doc: Option<CloudsDoc>, cacert: string)

  const EMPTY_SOURCE := Source("", None, "")
  const SOURCE := "admin-app-credential"

  /* ---- The writers behind ensureOwnedSecret ---- */

  datatype Mutation =
    | EnsureValue(generated: string, caBundle: string)
    | Seed(password: string, cloud: string)
    | Regenerate(generated: string)

  function Mutate(m: Mutation, s: Source): Source {
    match m
    case EnsureValue(v, ca) => s.(value := if s.value == "" then v else s.value, cacert := ca)
    case Seed(pw, cloud) => if s.doc == None then s.(doc := Some(Password(pw, cloud))) else s
    case Regenerate(v) => s.(value := v, doc := None)
  }

  /** Create-or-update from what its read saw. */
  function EnsureOwned(store: Store<Source>, seen: Option<Object<Source>>, m: Mutation): (Store<Source>, Status) {
    match seen
    case None => store.Create(SOURCE, Mutate(m, EMPTY_SOURCE))
    case Some(o) =>
      if Mutate(m, o.body) == o.body then (store, Ok)
      else store.Update(SOURCE, o.uid, o.rv, Mutate(m, o.body))
  }

  /* ---- The pass ---- */

  /** Hash of an assembled document and the CA bundle; SHA-256 taken as injective. */
  datatype ContentHash = ContentHash(doc: CloudsDoc, cacert: string)

  /** The force-sync annotation: a content hash and a syncedResourceVersion. */
  datatype Trigger = Trigger(hash: ContentHash, synced: nat)

  /** `other` stands for the annotations other sub-reconcilers stamp. */
  datatype PushSecret = PushSecret(contentHash: Option<ContentHash>, other: string, ready: bool, synced: nat)

  datatype ExternalSecret = ExternalSecret(forceSync: Option<Trigger>, ready: bool)

  datatype Cluster = Cluster(
    source: Store<Source>, push: Option<PushSecret>, sync: Option<ExternalSecret>,
    materialised: Option<Option<CloudsDoc>>)

  function Assembled(s: Source, id: string, cloud: string): Source {
    s.(doc := Some(AppCred(id, s.value, cloud)))
  }

  function HashOf(s: Source): ContentHash
    requires s.doc.Some?
  {
    ContentHash(s.doc.value, s.cacert)
  }

  /** Writes the assembled document unless it is there already. */
  function Assemble(c: Cluster, o: Object<Source>, id: string, cloud: string): (Cluster, Status) {
    if Assembled(o.body, id, cloud) == o.body then (c, Ok)
    else
      var (s, status) := c.source.Update(SOURCE, o.uid, o.rv, Assembled(o.body, id, cloud));
      (c.(source := s), status)
  }

  function EnsurePushSecret(c: Cluster): Cluster {
    if c.push == None then c.(push := Some(PushSecret(None, "", false, 0))) else c
  }

  function StampPush(c: Cluster, hash: ContentHash): Cluster {
    if c.push == None then c else c.(push := Some(c.push.value.(contentHash := Some(hash))))
  }

  function StampSync(c: Cluster, trigger: Trigger): Cluster {
    if c.sync == None then c else c.(sync := Some(c.sync.value.(forceSync := Some(trigger))))
  }

  /** The id and secret of an application-credential document. */
  function Identity(doc: Option<CloudsDoc>): Option<(string, string)> {
    if doc.Some? && doc.value.AppCred? && doc.value.id != "" && doc.value.secret != ""
    then Some((doc.value.id, doc.value.secret))
    else None
  }

  predicate SameIdentity(materialised: Option<CloudsDoc>, assembled: Option<CloudsDoc>) {
    Identity(materialised).Some? && Identity(materialised) == Identity(assembled)
  }

  datatype KorcState = KorcReady | KorcWaiting | KorcDrifted

  /** What a pass takes from its environment: K-ORC's condition (drift only
      counts in External mode), the store's health, the reported credential id
      and the nanoseconds since it was minted. */
  datatype Inputs = Inputs(
    korc: KorcState, storeReady: bool, id: string, cloud: string, sinceRotation: Option<int>)

  const CLOUDS_YAML_SYNC_STUCK := 15 * 60 * 1_000_000_000

  datatype Call =
    | CheckStore | CheckSync | ReadSource | WriteSource | EnsurePushCall | StampPushCall
    | ReadPush | StampSyncCall | ReadMaterialised

  /** How a pass ends: the reason of the AdminCredentialReady condition it wrote,
      which an error return may have left alone. */
  datatype Outcome =
    | Ready
    | Waiting(reason: string)
    | Error(wrote: Option<string>)

  function SyncReason(age: Option<int>): string {
    if age.Some? && age.value > CLOUDS_YAML_SYNC_STUCK then "CloudsYamlSyncStuck"
    else "WaitingForCloudsYamlSync"
  }

  /** The gates in front of the source Secret: None when all of them are open. */
  function Gate(c: Cluster, inp: Inputs, fault: Option<Call>): Option<Outcome> {
    if inp.korc == KorcDrifted then Some(Waiting("CredentialDrift"))
    else if inp.korc == KorcWaiting then Some(Waiting("WaitingForKORC"))
    else if fault == Some(CheckStore) then Some(Error(None))
    else if !inp.storeReady then Some(Waiting("SecretStoreNotReady"))
    else if fault == Some(CheckSync) then Some(Error(Some("CloudsYamlError")))
    else if c.sync == None || !c.sync.value.ready then Some(Waiting("WaitingForCloudsYaml"))
    else if inp.id == "" then Some(Waiting("WaitingForCredentialID"))
    else if fault == Some(ReadSource) then Some(Error(Some("SecretError")))
    else if SOURCE !in c.source.objects || c.source.objects[SOURCE].body.value == ""
    then Some(Waiting("WaitingForAppCredentialSecret"))
    else None
  }

  /** The verdict on what the read-back has materialised. */
  function Verdict(c: Cluster, assembled: CloudsDoc, age: Option<int>, fault: Option<Call>): Outcome {
    if fault == Some(ReadMaterialised) then Error(Some("CloudsYamlError"))
    else if c.materialised == None then Waiting("WaitingForCloudsYamlSync")
    else if SameIdentity(c.materialised.value, Some(assembled)) then Ready
    else Waiting(SyncReason(age))
  }

  /** From the assembled document to the verdict. */
  function Propagate(c: Cluster, hash: ContentHash, inp: Inputs, fault: Option<Call>): (Cluster, Outcome) {
    if fault == Some(EnsurePushCall) then (c, Error(Some("PushSecretError")))
    else
      var c1 := EnsurePushSecret(c);
      if fault == Some(StampPushCall) then (c1, Error(Some("PushSecretError")))
      else
        var c2 := StampPush(c1, hash);
        if fault == Some(ReadPush) then (c2, Error(Some("PushSecretError")))
        else if !c2.push.value.ready then (c2, Waiting("WaitingForPushSecret"))
        else if fault == Some(StampSyncCall) then (c2, Error(Some("CloudsYamlError")))
        else
          var c3 := StampSync(c2, Trigger(hash, c2.push.value.synced));
          (c3, Verdict(c3, hash.doc, inp.sinceRotation, fault))
  }

  /** One pass without interference. */
  function Pass(c: Cluster, inp: Inputs, fault: Option<Call>): (Cluster, Outcome) {
    var gate := Gate(c, inp, fault);
    if gate.Some? then (c, gate.value)
    else
      var o := c.source.objects[SOURCE];
      var assembled := Assembled(o.body, inp.id, inp.cloud);
      if fault == Some(WriteSource) && assembled != o.body then (c, Error(Some("SecretError")))
      else Propagate(Assemble(c, o, inp.id, inp.cloud).0, HashOf(assembled), inp, fault)
  }

  /** The API objects the sub-reconciler reads and writes. */
  class Client {
    var state: Cluster

    constructor (state: Cluster)
      ensures this.state == state
    {
      this.state := state;
    }

    /** ensureOwnedSecret: a read, the caller's mutation, and one write if the
        mutation changed anything. */
    method EnsureOwnedSecret(m: Mutation) returns (status: Status)
      modifies this
      ensures state == old(state).(source := EnsureOwned(old(state).source, old(state).source.Get(SOURCE), m).0)
      ensures status == Ok
    {
      if SOURCE !in state.source.objects {
        var (s, st) := state.source.Create(SOURCE, Mutate(m, EMPTY_SOURCE));
        state, status := state.(source := s), st;
      } else {
        var secret := state.source.objects[SOURCE];
        var mutated := Mutate(m, secret.body);
        if mutated == secret.body { return Ok; }
        var (s, st) := state.source.Update(SOURCE, secret.uid, secret.rv, mutated);
        state, status := state.(source := s), st;
      }
    }

    method ForceRepushPushSecret(hash: ContentHash)
      modifies this
      ensures state == StampPush(old(state), hash)
      ensures state.(push := old(state).push) == old(state) && (state.push.Some? <==> old(state).push.Some?)
      ensures state.push.Some? ==> state.push.value == old(state).push.value.(contentHash := Some(hash))
    {
      if state.push == None { return; }
      var ps := state.push.value;
      if ps.contentHash == Some(hash) { return; }
      state := state.(push := Some(ps.(contentHash := Some(hash))));
    }

    method ForceSyncExternalSecret(trigger: Trigger)
      modifies this
      ensures state == StampSync(old(state), trigger)
      ensures state.(sync := old(state).sync) == old(state) && (state.sync.Some? <==> old(state).sync.Some?)
      ensures state.sync.Some? ==> state.sync.value == old(state).sync.value.(forceSync := Some(trigger))
    {
      if state.sync == None { return; }
      var es := state.sync.value;
      if es.forceSync == Some(trigger) { return; }
      state := state.(sync := Some(es.(forceSync := Some(trigger))));
    }

    method ReconcileAdminCredential(inp: Inputs, fault: Option<Call>) returns (outcome: Outcome)
      modifies this
      ensures (state, outcome) == Pass(old(state), inp, fault)
    {
      if inp.korc != KorcReady {
        return Waiting(if inp.korc == KorcDrifted then "CredentialDrift" else "WaitingForKORC");
      }
      if fault == Some(CheckStore) { return Error(None); }
      if !inp.storeReady { return Waiting("SecretStoreNotReady"); }
      if fault == Some(CheckSync) { return Error(Some("CloudsYamlError")); }
      if state.sync == None || !state.sync.value.ready { return Waiting("WaitingForCloudsYaml"); }
      if inp.id == "" { return Waiting("WaitingForCredentialID"); }
      if fault == Some(ReadSource) { return Error(Some("SecretError")); }
      if SOURCE !in state.source.objects { return Waiting("WaitingForAppCredentialSecret"); }
      var secret := state.source.objects[SOURCE];
      if secret.body.value == "" { return Waiting("WaitingForAppCredentialSecret"); }

      var cloudsYAML := AppCred(inp.id, secret.body.value, inp.cloud);
      if secret.body.doc != Some(cloudsYAML) {
        if fault == Some(WriteSource) { return Error(Some("SecretError")); }
        var (s, _) := state.source.Update(SOURCE, secret.uid, secret.rv, secret.body.(doc := Some(cloudsYAML)));
        state := state.(source := s);
      }
      var contentHash := ContentHash(cloudsYAML, secret.body.cacert);

      if fault == Some(EnsurePushCall) { return Error(Some("PushSecretError")); }
      state := EnsurePushSecret(state);
      if fault == Some(StampPushCall) { return Error(Some("PushSecretError")); }
      ForceRepushPushSecret(contentHash);
      if fault == Some(ReadPush) { return Error(Some("PushSecretError")); }
      var pushed := state.push.value;
      if !pushed.ready { return Waiting("WaitingForPushSecret"); }

      if fault == Some(StampSyncCall) { return Error(Some("CloudsYamlError")); }
      ForceSyncExternalSecret(Trigger(contentHash, pushed.synced));
      if fault == Some(ReadMaterialised) { return Error(Some("CloudsYamlError")); }
      if state.materialised == None { return Waiting("WaitingForCloudsYamlSync"); }
      if !SameIdentity(state.materialised.value, Some(cloudsYAML)) {
        return Waiting(SyncReason(inp.sinceRotation));
      }
      return Ready;
    }
  }

  /** Every gate is open, the push has synced, and the materialised Secret carries
      the reported id with the source Secret's current value. */
  ghost predicate Mirrored(c: Cluster, inp: Inputs) {
    && Gate(c, inp, None) == None
    && c.push.Some? && c.push.value.ready
    && c.materialised.Some?
    && Identity(c.materialised.value) == Some((inp.id, c.source.objects[SOURCE].body.value))
  }

  /** Readiness is reported only for a mirrored credential, and, unless a call
      fails, always for one. */
  lemma ReadyMeansMirrored(c: Cluster, inp: Inputs, fault: Option<Call>)
    ensures Pass(c, inp, fault).1 == Ready ==> Mirrored(c, inp)
    ensures fault == None && Mirrored(c, inp) ==> Pass(c, inp, fault).1 == Ready
  {
    if Gate(c, inp, fault) == None {
      var o := c.source.objects[SOURCE];
      var assembled := Assembled(o.body, inp.id, inp.cloud);
      assert assembled.doc == Some(AppCred(inp.id, o.body.value, inp.cloud));
    }
  }

  /** A pass never touches the value, and leaves a source Secret whose document
      carries that value. */
  lemma PassKeepsValue(c: Cluster, inp: Inputs, fault: Option<Call>)
    ensures
      var c' := Pass(c, inp, fault).0;
      && c'.source.objects.Keys == c.source.objects.Keys && c'.materialised == c.materialised
      && (SOURCE in c.source.objects ==>
            c'.source.objects[SOURCE].body.value == c.source.objects[SOURCE].body.value &&
            c'.source.objects[SOURCE].body.cacert == c.source.objects[SOURCE].body.cacert)
  {
  }

  /** A converged pass is quiet: after a pass that found every gate open, the
      same pass again writes nothing. */
  lemma PassIdempotent(c: Cluster, inp: Inputs)
    ensures var (c', outcome) := Pass(c, inp, None); Pass(c', inp, None) == (c', outcome)
  {
  }

  /** A pass escalates exactly when everything up to the read-back is in order,
      another credential is materialised, and the minted one is older than the
      timeout. */
  lemma StuckMeansTimedOut(c: Cluster, inp: Inputs)
    ensures Pass(c, inp, None).1 == Waiting("CloudsYamlSyncStuck") <==>
            && Gate(c, inp, None) == None
            && c.push.Some? && c.push.value.ready
            && c.materialised.Some?
            && Identity(c.materialised.value) != Some((inp.id, c.source.objects[SOURCE].body.value))
            && inp.sinceRotation.Some? && inp.sinceRotation.value > CLOUDS_YAML_SYNC_STUCK
  {
    if Gate(c, inp, None) == None {
      var o := c.source.objects[SOURCE];
      var assembled := Assembled(o.body, inp.id, inp.cloud);
      assert Identity(assembled.doc) == Some((inp.id, o.body.value));
      assert Pass(c, inp, None) == Propagate(Assemble(c, o, inp.id, inp.cloud).0, HashOf(assembled), inp, None);
    }
  }
}
