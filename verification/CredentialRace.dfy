/** The race the read-back nudge closes: keyed on the content hash alone, the
    pipeline reaches a state in which every agent is done and the materialised
    Secret is still the bootstrap password document. */
module CredentialRace {
  import opened Options
  import opened Kube
  import opened AppCredential
  import opened CredentialProtocol
  import opened CredentialConvergence
  import opened CredentialProgress

  ghost predicate Reachable(fold: bool, w: World) {
    exists run :: Run(fold, run) && run[|run| - 1] == w
  }

  lemma Advance(fold: bool, w: World, a: Action, w': World)
    requires Reachable(fold, w) && Enabled(w, a) && w' == Apply(fold, w, a)
    ensures Reachable(fold, w')
  {
    var run :| Run(fold, run) && run[|run| - 1] == w;
    var longer := run + [w'];
    assert Step(fold, w, w');
    forall i | 0 < i < |longer| ensures Step(fold, longer[i - 1], longer[i]) {
      if i < |run| { assert Step(fold, run[i - 1], run[i]); }
    }
    assert longer[|longer| - 1] == w';
  }

  const BOOTSTRAP := Source("secret", Some(Password("pw", "cloud")), "ca")
  const MINTED := Source("secret", Some(AppCred("id", "secret", "cloud")), "ca")
  const HASH := ContentHash(AppCred("id", "secret", "cloud"), "ca")
  const HISTORY := [Source("secret", None, "ca"), BOOTSTRAP]
  const OPERATOR := Operator(0, "id", "cloud")

  function SourceStore(rv: nat, body: Source): Store<Source> {
    Store(map[SOURCE := Object(0, rv, body)], rv + 1)
  }

  /** The Secret has been created and seeded. */
  const SEEDED := World(
    Cluster(SourceStore(1, BOOTSTRAP), None, None, None), None, None, None, None, None, map[], map[],
    HISTORY, {"secret"}, {})

  /** The bootstrap document has been pushed and read back. */
  const BOOTSTRAPPED := SEEDED.(
    c := Cluster(SourceStore(1, BOOTSTRAP), Some(PushSecret(None, "", true, 1)), Some(ExternalSecret(None, true)),
                 Some(Some(Password("pw", "cloud")))),
    bao := Some(BOOTSTRAP), lastPush := Some(Meta(None, "")), lastPull := Some(None))

  /** A pass has assembled the minted document and nudged both ways. */
  const NUDGED := BOOTSTRAPPED.(
    c := Cluster(SourceStore(2, MINTED), Some(PushSecret(Some(HASH), "", true, 1)),
                 Some(ExternalSecret(Some(Trigger(HASH, 0)), true)), Some(Some(Password("pw", "cloud")))),
    history := HISTORY + [MINTED])

  /** The read-back won the race against the push. */
  const WEDGED := NUDGED.(
    c := NUDGED.c.(push := Some(PushSecret(Some(HASH), "", true, 2))),
    bao := Some(MINTED), lastPush := Some(Meta(Some(HASH), "")), lastPull := Some(Some(Trigger(HASH, 0))))

  /** The Secret has been created. */
  const CREATED := SEEDED.(c := SEEDED.c.(source := SourceStore(0, HISTORY[0])), history := [HISTORY[0]])

  lemma CreatedReachable()
    ensures Reachable(false, CREATED)
  {
    assert Run(false, [EMPTY_WORLD]);
    assert [EMPTY_WORLD][|[EMPTY_WORLD]| - 1] == EMPTY_WORLD;
    var create := EnsureValue("secret", "ca");
    assert Generated(create) == {"secret"};
    var w1 := EMPTY_WORLD.(writers := map[0 := Writer(create, None)], used := {"secret"});
    Advance(false, EMPTY_WORLD, WriterRead(0, create), w1);
    assert EnsureOwned(w1.c.source, None, create).0 == SourceStore(0, HISTORY[0]);
    assert w1.writers - {0} == map[];
    Advance(false, w1, WriterWrite(0), CREATED);
  }

  lemma SeededReachable()
    ensures Reachable(false, SEEDED)
  {
    CreatedReachable();
    var seed := Seed("pw", "cloud");
    var o := Object(0, 0, HISTORY[0]);
    var w1 := CREATED.(writers := map[0 := Writer(seed, Some(o))]);
    Advance(false, CREATED, WriterRead(0, seed), w1);
    assert EnsureOwned(w1.c.source, Some(o), seed).0 == SourceStore(1, BOOTSTRAP);
    assert w1.writers - {0} == map[];
    Advance(false, w1, WriterWrite(0), SEEDED);
  }

  lemma BootstrappedReachable()
    ensures Reachable(false, BOOTSTRAPPED)
  {
    SeededReachable();
    var w1 := SEEDED.(c := SEEDED.c.(push := Some(PushSecret(None, "", false, 0))));
    Advance(false, SEEDED, CreatePush, w1);
    var w2 := w1.(c := w1.c.(sync := Some(ExternalSecret(None, false))));
    Advance(false, w1, CreateSync, w2);
    var w3 := w2.(push := Some(Push(Meta(None, ""), BOOTSTRAP, false)));
    Advance(false, w2, PushRead, w3);
    var w4 := w3.(bao := Some(BOOTSTRAP), push := Some(Push(Meta(None, ""), BOOTSTRAP, true)));
    Advance(false, w3, PushWrite, w4);
    var w5 := w4.(c := w4.c.(push := BOOTSTRAPPED.c.push), push := None, lastPush := Some(Meta(None, "")));
    Advance(false, w4, PushDone, w5);
    var w6 := w5.(pull := Some(Pull(None, BOOTSTRAP)));
    Advance(false, w5, PullRead, w6);
    Advance(false, w6, PullWrite, BOOTSTRAPPED);
  }

  /** The pass has written the minted document. */
  const ASSEMBLED := BOOTSTRAPPED.(
    c := BOOTSTRAPPED.c.(source := SourceStore(2, MINTED)), history := HISTORY + [MINTED],
    passes := map[0 := Written(HASH, {})])

  lemma AssembledReachable()
    ensures Reachable(false, ASSEMBLED)
  {
    BootstrappedReachable();
    var w1 := BOOTSTRAPPED.(passes := map[0 := Begun("id", "cloud", {})]);
    Advance(false, BOOTSTRAPPED, Begin(0, "id", "cloud"), w1);
    var w2 := BOOTSTRAPPED.(passes := map[0 := Read("id", "cloud", {}, Object(0, 1, BOOTSTRAP))]);
    Advance(false, w1, Get(0), w2);
    Advance(false, w2, Write(0), ASSEMBLED);
  }

  lemma NudgedReachable()
    ensures Reachable(false, NUDGED)
  {
    AssembledReachable();
    var w4 := ASSEMBLED.(c := ASSEMBLED.c.(push := NUDGED.c.push), passes := map[0 := Stamped(HASH, {})]);
    Advance(false, ASSEMBLED, NudgePush(0), w4);
    var w5 := w4.(passes := map[0 := Pushed(HASH, {}, 1)]);
    Advance(false, w4, SeePush(0), w5);
    var w6 := NUDGED.(passes := map[0 := Synced(HASH, {})]);
    Advance(false, w5, NudgeSync(0), w6);
    Advance(false, w6, Report(0), NUDGED);
  }

  lemma WedgedReachable()
    ensures Reachable(false, WEDGED)
  {
    NudgedReachable();
    var w1 := NUDGED.(pull := Some(Pull(Some(Trigger(HASH, 0)), BOOTSTRAP)));
    Advance(false, NUDGED, PullRead, w1);
    var w2 := NUDGED.(lastPull := WEDGED.lastPull);
    Advance(false, w1, PullWrite, w2);
    var meta := Meta(Some(HASH), "");
    var w3 := w2.(push := Some(Push(meta, MINTED, false)));
    Advance(false, w2, PushRead, w3);
    var w4 := w2.(bao := Some(MINTED), push := Some(Push(meta, MINTED, true)));
    Advance(false, w3, PushWrite, w4);
    Advance(false, w4, PushDone, WEDGED);
  }

  lemma WedgedAssembleIsQuiet()
    ensures SoloAssemble(false, WEDGED, OPERATOR) == WEDGED.(passes := map[0 := Written(HASH, {})])
  {
    var b := WEDGED.(passes := map[0 := Begun("id", "cloud", {})]);
    var r := WEDGED.(passes := map[0 := Read("id", "cloud", {}, Object(0, 2, MINTED))]);
    assert Then(false, WEDGED, Begin(0, "id", "cloud")) == b;
    assert Then(false, b, Get(0)) == r;
    assert Assembled(MINTED, "id", "cloud") == MINTED;
    assert Then(false, r, Write(0)) == WEDGED.(passes := map[0 := Written(HASH, {})]);
  }

  lemma WedgedNudgeIsQuiet()
    ensures SoloNudge(false, WEDGED.(passes := map[0 := Written(HASH, {})]), 0)
         == WEDGED.(passes := map[0 := Synced(HASH, {})])
  {
    var w1 := WEDGED.(passes := map[0 := Written(HASH, {})]);
    var w2 := WEDGED.(passes := map[0 := Stamped(HASH, {})]);
    var w3 := WEDGED.(passes := map[0 := Pushed(HASH, {}, 2)]);
    assert Then(false, w1, NudgePush(0)) == w2;
    assert Then(false, w2, SeePush(0)) == w3;
  }

  lemma WedgedPassIsQuiet()
    ensures SoloPass(false, WEDGED, OPERATOR).c == WEDGED.c
  {
    WedgedAssembleIsQuiet();
    WedgedNudgeIsQuiet();
  }

  lemma WedgedIsQuiet()
    ensures GatesOpen(WEDGED, OPERATOR) && NotRecurred(WEDGED, Target(WEDGED, OPERATOR))
    ensures Idle(WEDGED)
  {
    assert Assembled(MINTED, "id", "cloud") == MINTED;
  }

  /** Keyed on the content hash alone, the pipeline can wedge: every agent is
      done, no content has recurred, and the materialised Secret is not the
      assembled one. */
  lemma HashOnlyTriggerWedges()
    ensures exists w, op ::
      && Reachable(false, w) && GatesOpen(w, op) && NotRecurred(w, Target(w, op))
      && Idle(w) && SoloPass(false, w, op).c == w.c
      && w.c.materialised == Some(Some(Password("pw", "cloud")))
  {
    WedgedReachable();
    WedgedIsQuiet();
    WedgedPassIsQuiet();
  }

  /** Folding the completed push into the trigger rules exactly this out. */
  lemma FoldedTriggerDoesNotWedge(w: World, op: Operator)
    requires Reachable(true, w) && GatesOpen(w, op) && NotRecurred(w, Target(w, op))
    requires Idle(w) && SoloPass(true, w, op).c == w.c
    ensures Mirrors(w, op)
  {
    SoloPassIsPass(w, op);
    var run :| Run(true, run) && run[|run| - 1] == w;
    NoWedge(run, |run| - 1, op);
  }
}
