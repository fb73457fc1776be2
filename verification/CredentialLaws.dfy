/** What the writers of the source Secret and the pass do, key by key: which
    keys each writer may touch, which obstacle a pass reports, what it leaves
    behind, and what a failing call makes of it. */
module CredentialLaws {
  import opened Options
  import opened Kube
  import opened AppCredential
  import opened CredentialProtocol

  /* ---- The writers ---- */

  /** Only the source Secret may differ. */
  ghost predicate OnlySource(before: Store<Source>, after: Store<Source>) {
    && SOURCE in after.objects && after.objects - {SOURCE} == before.objects - {SOURCE}
    && (SOURCE in before.objects ==> after.objects[SOURCE].uid == before.objects[SOURCE].uid)
  }

  /** A seed fills an absent document with the password it was given, and leaves
      a Secret that has a document entirely alone. */
  lemma SeedFillsOnlyEmpty(store: Store<Source>, pw: string, cloud: string)
    ensures
      var (s, status) := EnsureOwned(store, store.Get(SOURCE), Seed(pw, cloud));
      && status == Ok && OnlySource(store, s)
      && (SOURCE !in store.objects ==> s.objects[SOURCE].body == Source("", Some(Password(pw, cloud)), ""))
      && (SOURCE in store.objects ==>
            var was, now := store.objects[SOURCE].body, s.objects[SOURCE].body;
            && now.value == was.value && now.cacert == was.cacert
            && (was.doc.Some? ==> s == store)
            && (was.doc == None ==> now.doc == Some(Password(pw, cloud))))
  {
  }

  /** Ensuring the value generates it once, projects exactly the bundle given,
      the empty one included, and leaves the document alone. */
  lemma EnsureValueProjectsBundle(store: Store<Source>, generated: string, ca: string)
    ensures
      var (s, status) := EnsureOwned(store, store.Get(SOURCE), EnsureValue(generated, ca));
      && status == Ok && OnlySource(store, s) && s.objects[SOURCE].body.cacert == ca
      && (SOURCE !in store.objects ==> s.objects[SOURCE].body == Source(generated, None, ca))
      && (SOURCE in store.objects ==>
            var was, now := store.objects[SOURCE].body, s.objects[SOURCE].body;
            && now.doc == was.doc
            && (was.value != "" ==> now.value == was.value) && (was.value == "" ==> now.value == generated))
  {
  }

  /** Regenerating replaces the value, drops the document and keeps the bundle. */
  lemma RegenerateDropsDocument(store: Store<Source>, generated: string)
    ensures
      var (s, status) := EnsureOwned(store, store.Get(SOURCE), Regenerate(generated));
      && status == Ok && OnlySource(store, s)
      && s.objects[SOURCE].body.value == generated && s.objects[SOURCE].body.doc == None
      && (SOURCE in store.objects ==> s.objects[SOURCE].body.cacert == store.objects[SOURCE].body.cacert)
  {
  }

  /** A writer whose snapshot is of an older version changes nothing. */
  lemma StaleWriterLoses(store: Store<Source>, seen: Option<Object<Source>>, m: Mutation)
    requires SOURCE in store.objects
    requires seen == None || seen.value.rv != store.objects[SOURCE].rv || seen.value.uid != store.objects[SOURCE].uid
    ensures EnsureOwned(store, seen, m).0 == store
  {
  }

  /* ---- Over the machine ---- */

  /** The action is the write of a writer that read the live version. */
  ghost predicate WritesLive(w: World, a: Action) {
    && a.WriterWrite? && a.pid in w.writers && SOURCE in w.c.source.objects
    && w.writers[a.pid].seen == Some(w.c.source.objects[SOURCE])
  }

  /** A document stays whatever the writers do: it changes only by the loss of
      the Secret, by a pass's own write, which assembles the credential from the
      live value, or by a regenerate that read this very version, which drops it.
      No seed ever replaces one. */
  lemma DocumentStays(fold: bool, w: World, a: Action)
    requires SourceInv(w) && Enabled(w, a) && SOURCE in w.c.source.objects && Current(w).doc.Some?
    ensures
      var w' := Apply(fold, w, a);
      || a == LoseSource
      || (&& SOURCE in w'.c.source.objects
          && (|| Current(w').doc == Current(w).doc
              || (a.Write? && w.passes[a.pid].Read?
                  && Current(w').doc == Some(AppCred(w.passes[a.pid].id, Current(w).value, w.passes[a.pid].cloud)))
              || (WritesLive(w, a) && w.writers[a.pid].mutation.Regenerate? && Current(w').doc == None)))
  {
    match a
    case WriterWrite(pid) =>
      assert WriterOk(w, w.writers[pid]);
      EnsureOwnedWrites(w, w.writers[pid]);
    case Write(pid) => assert PassSourceOk(w, w.passes[pid]);
    case LoseSource =>
    case _ => SourceUntouched(fold, w, a);
  }

  /** The bundle changes only by the loss of the Secret or by an ensure that read
      this very version, and then to the bundle that one was given. */
  lemma BundleStays(fold: bool, w: World, a: Action)
    requires SourceInv(w) && Enabled(w, a) && SOURCE in w.c.source.objects
    ensures
      var w' := Apply(fold, w, a);
      || a == LoseSource
      || (&& SOURCE in w'.c.source.objects
          && (|| Current(w').cacert == Current(w).cacert
              || (WritesLive(w, a) && w.writers[a.pid].mutation.EnsureValue?
                  && Current(w').cacert == w.writers[a.pid].mutation.caBundle)))
  {
    match a
    case WriterWrite(pid) =>
      assert WriterOk(w, w.writers[pid]);
      EnsureOwnedWrites(w, w.writers[pid]);
    case Write(pid) => assert PassSourceOk(w, w.passes[pid]);
    case LoseSource =>
    case _ => SourceUntouched(fold, w, a);
  }

  lemma SourceUntouched(fold: bool, w: World, a: Action)
    requires Enabled(w, a) && !a.WriterWrite? && !a.Write? && !a.LoseSource?
    ensures Apply(fold, w, a).c.source == w.c.source
  {
  }

  /* ---- What a pass reports ---- */

  /** The application credential the pass is about. */
  predicate Carries(doc: Option<CloudsDoc>, id: string, secret: string) {
    doc.Some? && doc.value.AppCred? && doc.value.id == id && doc.value.secret == secret && id != "" && secret != ""
  }

  function SourceValue(c: Cluster): string {
    if SOURCE in c.source.objects then c.source.objects[SOURCE].body.value else ""
  }

  /** What can stand between a pass and readiness, and the reason it reports, in
      the order the pass looks. */
  function Obstacles(c: Cluster, inp: Inputs): seq<(bool, string)> {
    [(inp.korc == KorcDrifted, "CredentialDrift"),
     (inp.korc == KorcWaiting, "WaitingForKORC"),
     (!inp.storeReady, "SecretStoreNotReady"),
     (c.sync == None || !c.sync.value.ready, "WaitingForCloudsYaml"),
     (inp.id == "", "WaitingForCredentialID"),
     (SourceValue(c) == "", "WaitingForAppCredentialSecret"),
     (c.push == None || !c.push.value.ready, "WaitingForPushSecret"),
     (c.materialised == None, "WaitingForCloudsYamlSync"),
     (c.materialised.Some? && !Carries(c.materialised.value, inp.id, SourceValue(c)),
      if inp.sinceRotation.Some? && inp.sinceRotation.value > 900_000_000_000
      then "CloudsYamlSyncStuck" else "WaitingForCloudsYamlSync")]
  }

  /** How many obstacles the pass gets past. */
  function Passed(obstacles: seq<(bool, string)>): (n: nat)
    ensures n <= |obstacles| && (forall i :: 0 <= i < n ==> !obstacles[i].0) && (n < |obstacles| ==> obstacles[n].0)
  {
    if obstacles == [] || obstacles[0].0 then 0 else 1 + Passed(obstacles[1..])
  }

  /** The obstacles one by one. */
  lemma Reached(c: Cluster, inp: Inputs)
    ensures
      var n := Passed(Obstacles(c, inp));
      && (n > 0 ==> !(inp.korc == KorcDrifted)) && (n == 0 ==> inp.korc == KorcDrifted)
      && (n > 1 ==> !(inp.korc == KorcWaiting)) && (n == 1 ==> inp.korc == KorcWaiting)
      && (n > 2 ==> !(!inp.storeReady)) && (n == 2 ==> !inp.storeReady)
      && (n > 3 ==> !(c.sync == None || !c.sync.value.ready)) && (n == 3 ==> (c.sync == None || !c.sync.value.ready))
      && (n > 4 ==> !(inp.id == "")) && (n == 4 ==> inp.id == "")
      && (n > 5 ==> !(SourceValue(c) == "")) && (n == 5 ==> SourceValue(c) == "")
      && (n > 6 ==> !(c.push == None || !c.push.value.ready)) && (n == 6 ==> (c.push == None || !c.push.value.ready))
      && (n > 7 ==> !(c.materialised == None)) && (n == 7 ==> c.materialised == None)
      && (n > 8 ==> Carries(c.materialised.value, inp.id, SourceValue(c)))
      && (n == 8 ==> !Carries(c.materialised.value, inp.id, SourceValue(c)))
  {
    var obstacles := Obstacles(c, inp);
    assert |obstacles| == 9;
    var n := Passed(obstacles);
    if n < 9 { assert obstacles[n].0; }
    assert n > 0 ==> !obstacles[0].0;
    assert n > 1 ==> !obstacles[1].0;
    assert n > 2 ==> !obstacles[2].0;
    assert n > 3 ==> !obstacles[3].0;
    assert n > 4 ==> !obstacles[4].0;
    assert n > 5 ==> !obstacles[5].0;
    assert n > 6 ==> !obstacles[6].0;
    assert n > 7 ==> !obstacles[7].0;
    assert n > 8 ==> !obstacles[8].0;
  }

  /** The gates in front of the source Secret are the first six. */
  lemma GateReports(c: Cluster, inp: Inputs)
    ensures
      var n := Passed(Obstacles(c, inp));
      Gate(c, inp, None) == if n >= 6 then None else Some(Waiting(Obstacles(c, inp)[n].1))
  {
    Reached(c, inp);
  }

  /** A pass reports its first obstacle, and readiness if there is none. */
  lemma ReportsFirstObstacle(c: Cluster, inp: Inputs)
    ensures
      var obstacles := Obstacles(c, inp);
      Pass(c, inp, None).1 == if Passed(obstacles) == 9 then Ready else Waiting(obstacles[Passed(obstacles)].1)
  {
    GateReports(c, inp);
    if Passed(Obstacles(c, inp)) >= 6 { PropagateReports(c, inp); }
  }

  lemma PropagateReports(c: Cluster, inp: Inputs)
    requires Passed(Obstacles(c, inp)) >= 6 && Gate(c, inp, None) == None
    ensures
      var obstacles := Obstacles(c, inp);
      Pass(c, inp, None).1 == if Passed(obstacles) == 9 then Ready else Waiting(obstacles[Passed(obstacles)].1)
  {
    Reached(c, inp);
    var o := c.source.objects[SOURCE];
    var assembled := Assembled(o.body, inp.id, inp.cloud);
    assert assembled.doc == Some(AppCred(inp.id, o.body.value, inp.cloud));
  }

  /* ---- What a pass leaves behind ---- */

  /** Behind a closed gate a pass writes nothing. Otherwise it assembles the
      document from the value, stamps the push with its hash, and, once the push
      has synced, the read-back with hash and synced version; and it touches
      nothing else. */
  lemma PassWrites(c: Cluster, inp: Inputs)
    ensures
      var c' := Pass(c, inp, None).0;
      if Passed(Obstacles(c, inp)) < 6 then c' == c
      else
        SOURCE in c.source.objects &&
        var was := c.source.objects[SOURCE].body;
        var doc := AppCred(inp.id, was.value, inp.cloud);
        var hash := ContentHash(doc, was.cacert);
        && OnlySource(c.source, c'.source) && c'.source.objects[SOURCE].body == Source(was.value, Some(doc), was.cacert)
        && (was.doc == Some(doc) ==> c'.source == c.source)
        && c'.push.Some? && c'.push.value.contentHash == Some(hash)
        && (c.push.Some? ==>
              && c'.push.value.other == c.push.value.other && c'.push.value.ready == c.push.value.ready
              && c'.push.value.synced == c.push.value.synced)
        && c'.materialised == c.materialised
        && c.sync.Some? && c'.sync == (if c.push.Some? && c.push.value.ready
                        then Some(ExternalSecret(Some(Trigger(hash, c.push.value.synced)), c.sync.value.ready)) else c.sync)
  {
    GateReports(c, inp);
    Reached(c, inp);
    if Passed(Obstacles(c, inp)) >= 6 {
      var o := c.source.objects[SOURCE];
      var assembled := Assembled(o.body, inp.id, inp.cloud);
      assert assembled == Source(o.body.value, Some(AppCred(inp.id, o.body.value, inp.cloud)), o.body.cacert);
    }
  }

  /* ---- Failing calls ---- */

  /** How many obstacles the pass must get past to make the call at all. */
  function Before(call: Call): (n: nat)
    ensures n <= 7
  {
    match call
    case CheckStore => 2
    case CheckSync => 3
    case ReadSource => 5
    case StampSyncCall => 7
    case ReadMaterialised => 7
    case _ => 6
  }

  /** The reason the condition shows when the call fails; the store check leaves
      the condition alone. */
  function ReasonOf(call: Call): Option<string> {
    match call
    case CheckStore => None
    case CheckSync => Some("CloudsYamlError")
    case ReadSource => Some("SecretError")
    case WriteSource => Some("SecretError")
    case EnsurePushCall => Some("PushSecretError")
    case StampPushCall => Some("PushSecretError")
    case ReadPush => Some("PushSecretError")
    case StampSyncCall => Some("CloudsYamlError")
    case ReadMaterialised => Some("CloudsYamlError")
  }

  /** The call is made: everything looked at before it is in order, and a write
      of the document has something to write. */
  ghost predicate Makes(c: Cluster, inp: Inputs, call: Call) {
    && Passed(Obstacles(c, inp)) >= Before(call)
    && (call.WriteSource? ==>
          SOURCE in c.source.objects && c.source.objects[SOURCE].body.doc != Some(AppCred(inp.id, SourceValue(c), inp.cloud)))
  }

  /** A failing call ends the pass with its error exactly when the pass makes it,
      and is without effect otherwise. */
  lemma FailingCallEndsPass(c: Cluster, inp: Inputs, call: Call)
    ensures Pass(c, inp, Some(call)).1 == if Makes(c, inp, call) then Error(ReasonOf(call)) else Pass(c, inp, None).1
    ensures !Makes(c, inp, call) ==> Pass(c, inp, Some(call)) == Pass(c, inp, None)
  {
    Reached(c, inp);
  }

  /** What has been written when a call fails is what came before it. */
  lemma FailingCallWrites(c: Cluster, inp: Inputs, call: Call)
    requires Makes(c, inp, call)
    ensures
      var c', whole := Pass(c, inp, Some(call)).0, Pass(c, inp, None).0;
      && (Before(call) < 6 || call.WriteSource? ==> c' == c)
      && (Before(call) >= 6 && !call.WriteSource? ==> c'.source == whole.source)
      && (call.EnsurePushCall? ==> c'.push == c.push && c'.sync == c.sync)
      && (call.StampPushCall? ==>
            c'.push.Some? && (c.push.Some? ==> c'.push == c.push) && (c.push == None ==> c'.push.value.contentHash == None)
            && c'.sync == c.sync)
      && (call.ReadPush? || call.StampSyncCall? ==> c'.push == whole.push && c'.sync == c.sync)
      && (call.ReadMaterialised? ==> c' == whole)
      && c'.materialised == c.materialised
  {
    Reached(c, inp);
  }
}
