/** Release promotion over whole runs: which Jobs stand behind an installed
    release, and in which order they ran. */
module JobPromotion {
  import opened Options
  import opened Kube
  import opened Conditions
  import opened Jobs
  import opened JobProtocol

  /* ---- What a promoting pass has seen ---- */

  ghost predicate PcOk(check: bool, p: Pass) {
    match p.pc
    case Promoting => p.sync.Some? && (check ==> p.check.Some?)
    case Getting(name) => PhaseOk(check, p, name)
    case Deleting(name, _) => PhaseOk(check, p, name)
    case Creating(name, _) => PhaseOk(check, p, name)
    case Patching(name, _, end) => RecordingOk(check, p, name, end.Done?)
    case Emitting(name, _, _, end) => RecordingOk(check, p, name, end.Done?)
  }

  ghost predicate PhaseOk(check: bool, p: Pass, name: string) {
    && p.check == None
    && (name == DB_SYNC || (name == SCHEMA_CHECK && check))
    && (p.sync.Some? <==> name == SCHEMA_CHECK)
  }

  ghost predicate RecordingOk(check: bool, p: Pass, name: string, done: bool) {
    && (name == DB_SYNC || (name == SCHEMA_CHECK && check))
    && (p.sync.Some? <==> name == SCHEMA_CHECK || done)
    && (p.check.Some? <==> name == SCHEMA_CHECK && done)
  }

  ghost predicate SeenOk(p: Pass) {
    && (p.sync.Some? ==> Succeeded(p.sync.value.body, p.spec.syncKey))
    && (p.check.Some? ==> Succeeded(p.check.value.body, p.spec.checkKey))
  }

  ghost predicate PlanOk(check: bool, w: World) {
    w.pass.Some? ==> PcOk(check, w.pass.value) && SeenOk(w.pass.value)
  }

  lemma GetPlan(check: bool, w: World)
    requires PlanOk(check, w) && Enabled(w, Get)
    ensures PlanOk(check, Apply(check, w, Get))
  {
    var p := w.pass.value;
    var p' := Apply(check, w, Get).pass.value;
    if p'.pc.Patching? && p'.pc.end.Done? {
      assert Succeeded(p'.pc.seen.body, KeyOf(p.spec, p.pc.name));
    }
  }

  /** The other steps carry on with what has been seen, or end the pass. */
  lemma CarryPlan(check: bool, w: World, w': World)
    requires PlanOk(check, w) && w.pass.Some?
    requires w'.pass.Some? ==>
               var p, p' := w.pass.value, w'.pass.value;
               p'.sync == p.sync && p'.check == p.check && p'.spec == p.spec && PcOk(check, p')
    ensures PlanOk(check, w')
  {
  }

  lemma RecordPlan(check: bool, w: World, a: Action)
    requires PlanOk(check, w) && Enabled(w, a) && (a.Patch? || a.PatchFails? || a.Emit?)
    ensures PlanOk(check, Apply(check, w, a))
  {
    var p := w.pass.value;
    assert PcOk(check, p);
    CarryPlan(check, w, Apply(check, w, a));
  }

  lemma PlanStep(check: bool, w: World, a: Action)
    requires PlanOk(check, w) && Enabled(w, a)
    ensures PlanOk(check, Apply(check, w, a))
  {
    var w' := Apply(check, w, a);
    match a
    case Get => GetPlan(check, w);
    case Patch => RecordPlan(check, w, a);
    case PatchFails => RecordPlan(check, w, a);
    case Emit => RecordPlan(check, w, a);
    case Edit(_) =>
    case AddCondition(_, _) =>
    case Finalise(_) =>
    case ExternalDelete(_) =>
    case Begin =>
    case _ => CarryPlan(check, w, w');
  }

  lemma {:induction false} RunPlan(check: bool, run: seq<World>, k: nat)
    requires RunFrom(check, run) && k < |run|
    ensures PlanOk(check, run[k])
  {
    if k > 0 {
      RunPlan(check, run, k - 1);
      assert StepAt(check, run, k);
      var a :| Enabled(run[k - 1], a) && run[k] == Apply(check, run[k - 1], a);
      PlanStep(check, run[k - 1], a);
    }
  }

  /** The pass at `k` is the pass at `j`, which found the Job there. */
  ghost predicate SawAt(run: seq<World>, j: nat, k: nat, name: string, o: Object<Job>) {
    && j <= k < |run|
    && name in run[j].jobs.objects && run[j].jobs.objects[name] == o
    && (forall i :: j <= i <= k ==>
          run[i].pass.Some? && run[k].pass.Some? && run[i].pass.value.index == run[k].pass.value.index
          && run[i].pass.value.spec == run[k].pass.value.spec)
  }

  ghost predicate Saw(run: seq<World>, k: nat, name: string, o: Object<Job>) {
    exists j :: SawAt(run, j, k, name, o)
  }

  lemma SawLater(run: seq<World>, k: nat, name: string, o: Object<Job>)
    requires 0 < k < |run| && Saw(run, k - 1, name, o)
    requires run[k].pass.Some? && run[k - 1].pass.Some?
    requires run[k].pass.value.index == run[k - 1].pass.value.index && run[k].pass.value.spec == run[k - 1].pass.value.spec
    ensures Saw(run, k, name, o)
  {
    var j :| SawAt(run, j, k - 1, name, o);
    assert SawAt(run, j, k, name, o);
  }

  /** What a step makes a pass newly claim to have seen is there. */
  ghost predicate Sees(check: bool, w: World, w': World) {
    w'.pass.Some? && (w'.pass.value.sync.Some? || w'.pass.value.check.Some?) ==>
      && w.pass.Some?
      && w'.pass.value.index == w.pass.value.index && w'.pass.value.spec == w.pass.value.spec
      && (w'.pass.value.sync != w.pass.value.sync ==>
            w'.jobs == w.jobs && DB_SYNC in w.jobs.objects && w'.pass.value.sync == Some(w.jobs.objects[DB_SYNC]))
      && (w'.pass.value.check != w.pass.value.check ==>
            w'.jobs == w.jobs && SCHEMA_CHECK in w.jobs.objects && w'.pass.value.check == Some(w.jobs.objects[SCHEMA_CHECK]))
  }

  lemma GetSees(check: bool, w: World)
    requires PlanOk(check, w) && Enabled(w, Get)
    ensures Sees(check, w, Apply(check, w, Get))
  {
    assert PcOk(check, w.pass.value);
  }

  lemma StepSees(check: bool, w: World, a: Action)
    requires PlanOk(check, w) && Enabled(w, a)
    ensures Sees(check, w, Apply(check, w, a))
  {
    var w' := Apply(check, w, a);
    match a
    case Get => GetSees(check, w);
    case Begin =>
    case _ => assert w'.pass.Some? ==> w.pass.Some? && w'.pass.value.sync == w.pass.value.sync && w'.pass.value.check == w.pass.value.check;
  }

  lemma SomeStepSees(check: bool, w: World, w': World)
    requires PlanOk(check, w) && Step(check, w, w')
    ensures Sees(check, w, w')
  {
    var a :| Enabled(w, a) && w' == Apply(check, w, a);
    StepSees(check, w, a);
  }

  lemma {:induction false} SeenWasThere(check: bool, run: seq<World>, k: nat)
    requires RunFrom(check, run) && k < |run| && run[k].pass.Some?
    ensures run[k].pass.value.sync.Some? ==> Saw(run, k, DB_SYNC, run[k].pass.value.sync.value)
    ensures run[k].pass.value.check.Some? ==> Saw(run, k, SCHEMA_CHECK, run[k].pass.value.check.value)
  {
    if k > 0 {
      RunPlan(check, run, k - 1);
      assert StepAt(check, run, k);
      SomeStepSees(check, run[k - 1], run[k]);
      var p := run[k].pass.value;
      if p.sync.Some? || p.check.Some? {
        var q := run[k - 1].pass.value;
        SeenWasThere(check, run, k - 1);
        if p.sync.Some? {
          if p.sync == q.sync { SawLater(run, k, DB_SYNC, p.sync.value); }
          else { assert SawAt(run, k, k, DB_SYNC, p.sync.value); }
        }
        if p.check.Some? {
          if p.check == q.check { SawLater(run, k, SCHEMA_CHECK, p.check.value); }
          else { assert SawAt(run, k, k, SCHEMA_CHECK, p.check.value); }
        }
      }
    }
  }

  lemma ActionInstalls(check: bool, w: World, a: Action)
    requires Enabled(w, a)
    ensures
      Apply(check, w, a).installed != w.installed ==>
        a == PromoteTag && Apply(check, w, a).installed == w.pass.value.spec.tag
  {
    match a
    case PromoteTag =>
    case Create(_) =>
    case Patch =>
    case Get =>
    case _ =>
  }

  lemma InstalledMoves(check: bool, w: World, w': World)
    requires Step(check, w, w') && w'.installed != w.installed
    ensures w.pass.Some? && w.pass.value.pc.Promoting? && w'.installed == w.pass.value.spec.tag
  {
    var a :| Enabled(w, a) && w' == Apply(check, w, a);
    ActionInstalls(check, w, a);
  }

  /** Over every run the installed release changes only by the promotion of a
      pass, and then to that pass's tag. */
  lemma InstalledOnlyByPromotion(check: bool, run: seq<World>, k: nat)
    requires RunFrom(check, run) && k + 1 < |run| && run[k + 1].installed != run[k].installed
    ensures Enabled(run[k], PromoteTag) && run[k + 1].installed == run[k].pass.value.spec.tag
  {
    assert StepAt(check, run, k + 1);
    InstalledMoves(check, run[k], run[k + 1]);
  }

  /** A pass that is about to promote, whether or not that changes the release,
      has found, in the cluster, a succeeded db-sync Job and, where there is a
      check, a succeeded schema-check Job, both created from the templates that
      pass rendered. */
  lemma PromotionStandsOnSucceededJobs(check: bool, run: seq<World>, k: nat)
    requires RunFrom(check, run) && k < |run| && Enabled(run[k], PromoteTag)
    ensures
      var p := run[k].pass.value;
      && p.sync.Some? && Succeeded(p.sync.value.body, p.spec.syncKey) && Saw(run, k, DB_SYNC, p.sync.value)
      && (check ==> p.check.Some? && Succeeded(p.check.value.body, p.spec.checkKey) && Saw(run, k, SCHEMA_CHECK, p.check.value))
  {
    RunPlan(check, run, k);
    SeenWasThere(check, run, k);
  }

  /* ---- The order of the two Jobs ---- */

  /** The specs from `i` to `j` render one db-sync template. */
  ghost predicate SyncConstant(specs: seq<Spec>, i: nat, j: nat) {
    i <= j < |specs| && forall m :: i <= m <= j ==> specs[m].syncKey == specs[i].syncKey
  }

  /** A db-sync template does not return once another has replaced it, and a
      schema-check template goes with its db-sync template. An edit may leave
      either alone as long as it does not keep the check of another db-sync. */
  ghost predicate FreshTemplates(specs: seq<Spec>) {
    forall i, j :: 0 <= i < j < |specs| && (specs[i].syncKey == specs[j].syncKey || specs[i].checkKey == specs[j].checkKey) ==>
      SyncConstant(specs, i, j)
  }

  /** Templates are fresh, and nobody else deletes the db-sync Job. */
  ghost predicate FreshImages(w: World) {
    w.external[DB_SYNC] == 0 && FreshTemplates(w.specs)
  }

  ghost predicate CompletedBefore(j: Job, time: int) {
    exists i :: 0 <= i < |j.conditions| && j.conditions[i].kind == JobComplete && j.conditions[i].status == True
                && j.conditions[i].at < time
  }

  ghost predicate JobTimesOk(j: Job, time: int) {
    forall i :: 0 <= i < |j.conditions| ==> j.conditions[i].at < time
  }

  ghost predicate TimesOk(w: World) {
    forall n :: n in w.jobs.objects ==> JobTimesOk(w.jobs.objects[n].body, w.time)
  }

  /** A db-sync Job goes only after a pass has wanted another. */
  ghost predicate GoingOk(w: World) {
    DB_SYNC in w.jobs.objects && w.jobs.objects[DB_SYNC].body.deleting ==>
      !SyncConstant(w.specs, w.jobs.objects[DB_SYNC].body.origin, w.latest)
  }

  /** The db-sync Job of the latest spec is there to stay, with its outcome. */
  ghost predicate SyncThere(w: World) {
    && w.latest < |w.specs| && DB_SYNC in w.jobs.objects
    && !w.jobs.objects[DB_SYNC].body.deleting && w.jobs.objects[DB_SYNC].body.key == w.specs[w.latest].syncKey
  }

  /** As long as no pass has wanted another db-sync Job, the one behind the
      schema-check Job is there, and completed before that was created. */
  ghost predicate OrderOk(w: World) {
    SCHEMA_CHECK in w.jobs.objects && SyncConstant(w.specs, w.jobs.objects[SCHEMA_CHECK].body.origin, w.latest) ==>
      SyncThere(w) && CompletedBefore(w.jobs.objects[DB_SYNC].body, w.jobs.objects[SCHEMA_CHECK].body.createdAt)
  }

  /** The succeeded db-sync Job a pass has seen stays. */
  ghost predicate SyncStays(w: World) {
    w.pass.Some? && w.pass.value.sync.Some? ==>
      var o := w.pass.value.sync.value;
      && SyncThere(w) && Same(w.jobs.objects[DB_SYNC], o)
      && CompletedBefore(o.body, w.time)
      && (w.pass.value.check.Some? ==> CompletedBefore(o.body, w.pass.value.check.value.body.createdAt))
  }

  ghost predicate FreshInv(w: World) { TimesOk(w) && GoingOk(w) && OrderOk(w) && SyncStays(w) }

  /** The specs seen so far only grow, and so does the latest of them. */
  lemma ConstantBefore(w: World, w': World, i: nat)
    requires w.specs <= w'.specs && w.latest < |w.specs| && w.latest <= w'.latest < |w'.specs|
    requires SyncConstant(w'.specs, i, w'.latest) && i <= w.latest
    ensures SyncConstant(w.specs, i, w.latest) && w'.specs[w'.latest].syncKey == w.specs[w.latest].syncKey
  {
    forall m | i <= m <= w.latest ensures w.specs[m].syncKey == w.specs[i].syncKey {
      assert w.specs[m] == w'.specs[m];
    }
    assert w.specs[w.latest] == w'.specs[w.latest] && w.specs[i] == w'.specs[i];
  }

  /* ---- What a step does to the Jobs ---- */

  /** Steps that call neither Delete nor Create leave the Jobs alone. */
  lemma JobsUntouched(check: bool, w: World, a: Action)
    requires Enabled(w, a) && !a.Create? && !a.Delete? && !a.AddCondition? && !a.Finalise? && !a.ExternalDelete?
    ensures Apply(check, w, a).jobs == w.jobs
  {
    if w.pass.Some? && AtPc(w, a) { CallUntouched(check, w, a, w.pass.value); }
  }

  lemma CallUntouched(check: bool, w: World, a: Action, p: Pass)
    requires w.pass == Some(p) && AtPc(w, a) && !a.Create? && !a.Delete?
    ensures Operate(check, w, a, p).jobs == w.jobs && Operate(check, w, a, p).specs == w.specs
    ensures Operate(check, w, a, p).latest == w.latest
  {
  }

  /** The specs grow, and the latest moves to the newest, if at all. */
  lemma SpecsGrow(check: bool, w: World, a: Action)
    requires SpecsOk(w) && Enabled(w, a)
    ensures
      var w' := Apply(check, w, a);
      && w.specs <= w'.specs && w.latest <= w'.latest < |w'.specs|
      && (!a.Begin? ==> w'.latest == w.latest) && (!a.Edit? ==> w'.specs == w.specs)
  {
    match a
    case Edit(_) =>
    case Begin =>
    case AddCondition(_, _) =>
    case Finalise(_) =>
    case ExternalDelete(_) =>
    case Delete =>
    case Create(held) => CreateEffect(check, w, held);
    case _ => CallUntouched(check, w, a, w.pass.value);
  }

  /** A step leaves a Job's conditions, adds one, or makes a Job without any. */
  lemma TimesStep(check: bool, w: World, a: Action)
    requires TimesOk(w) && Enabled(w, a)
    ensures TimesOk(Apply(check, w, a))
  {
    var w' := Apply(check, w, a);
    forall n | n in w'.jobs.objects ensures JobTimesOk(w'.jobs.objects[n].body, w'.time) {
      if n in w.jobs.objects {
        assert JobTimesOk(w.jobs.objects[n].body, w.time);
        BodyStep(check, w, a, n);
      } else {
        NewJob(check, w, a, n);
      }
    }
  }

  lemma NewJob(check: bool, w: World, a: Action, n: string)
    requires Enabled(w, a) && n !in w.jobs.objects && n in Apply(check, w, a).jobs.objects
    ensures a.Create? && w.pass.value.pc.name == n
    ensures
      var p := w.pass.value;
      Apply(check, w, a).jobs.objects[n].body == Job(KeyOf(p.spec, n), [], w.time, a.held, false, p.index)
  {
    match a
    case Create(held) => CreateEffect(check, w, held);
    case Delete =>
    case AddCondition(_, _) =>
    case Finalise(_) =>
    case ExternalDelete(_) =>
    case _ => JobsUntouched(check, w, a);
  }

  /** A Job that stays is changed by a delete or a new condition only. */
  ghost predicate BodyChange(w: World, a: Action, n: string, before: Job, after: Job) {
    || after == before
    || (a.AddCondition? && after == Finish(before, a.kind, w.time))
    || (a.Delete? && w.pass.Some? && w.pass.value.pc.Deleting? && w.pass.value.pc.name == n && after == before.(deleting := true))
    || (a == ExternalDelete(n) && after == before.(deleting := true))
  }

  lemma BodyStep(check: bool, w: World, a: Action, n: string)
    requires Enabled(w, a) && n in w.jobs.objects && n in Apply(check, w, a).jobs.objects
    ensures Apply(check, w, a).jobs.objects[n].uid == w.jobs.objects[n].uid
    ensures BodyChange(w, a, n, w.jobs.objects[n].body, Apply(check, w, a).jobs.objects[n].body)
  {
    match a
    case Create(held) => CreateEffect(check, w, held);
    case Delete => BodyCluster(check, w, a, n);
    case AddCondition(_, _) => BodyCluster(check, w, a, n);
    case Finalise(_) => BodyCluster(check, w, a, n);
    case ExternalDelete(_) => BodyCluster(check, w, a, n);
    case _ => JobsUntouched(check, w, a);
  }

  lemma BodyCluster(check: bool, w: World, a: Action, n: string)
    requires Enabled(w, a) && (a.AddCondition? || a.Finalise? || a.ExternalDelete? || a.Delete?)
    requires n in w.jobs.objects && n in Apply(check, w, a).jobs.objects
    ensures Apply(check, w, a).jobs.objects[n].uid == w.jobs.objects[n].uid
    ensures BodyChange(w, a, n, w.jobs.objects[n].body, Apply(check, w, a).jobs.objects[n].body)
  {
  }

  lemma CompletedLater(j: Job, j': Job, time: int, time': int)
    requires CompletedBefore(j, time) && time <= time' && j.conditions <= j'.conditions
    ensures CompletedBefore(j', time')
  {
    var i :| 0 <= i < |j.conditions| && j.conditions[i].kind == JobComplete && j.conditions[i].status == True
             && j.conditions[i].at < time;
    assert j'.conditions[i] == j.conditions[i];
  }

  /* ---- The invariant, step by step ---- */

  lemma GoingStep(check: bool, w: World, a: Action)
    requires NameInv(w, DB_SYNC) && GoingOk(w) && Enabled(w, a) && Apply(check, w, a).external[DB_SYNC] == w.external[DB_SYNC]
    ensures GoingOk(Apply(check, w, a))
  {
    var w' := Apply(check, w, a);
    SpecsGrow(check, w, a);
    if DB_SYNC in w'.jobs.objects && w'.jobs.objects[DB_SYNC].body.deleting {
      if DB_SYNC !in w.jobs.objects {
        NewJob(check, w, a, DB_SYNC);
      } else {
        BodyStep(check, w, a, DB_SYNC);
        var before, after := w.jobs.objects[DB_SYNC].body, w'.jobs.objects[DB_SYNC].body;
        if SyncConstant(w'.specs, after.origin, w'.latest) { ConstantBefore(w, w', before.origin); }
      }
    }
  }

  /** A db-sync Job that is there to stay stays. */
  lemma ThereStep(check: bool, w: World, a: Action)
    requires NameInv(w, DB_SYNC) && SyncThere(w) && Enabled(w, a)
    requires Apply(check, w, a).external[DB_SYNC] == w.external[DB_SYNC]
    ensures
      var w' := Apply(check, w, a);
      && DB_SYNC in w'.jobs.objects && !w'.jobs.objects[DB_SYNC].body.deleting
      && w'.jobs.objects[DB_SYNC].uid == w.jobs.objects[DB_SYNC].uid
      && BodyChange(w, a, DB_SYNC, w.jobs.objects[DB_SYNC].body, w'.jobs.objects[DB_SYNC].body)
  {
    match a
    case Create(held) => CreateEffect(check, w, held);
    case Delete => assert w.pass.value.pc.name != DB_SYNC;
    case AddCondition(_, _) =>
    case Finalise(_) =>
    case ExternalDelete(_) =>
    case _ => JobsUntouched(check, w, a);
  }

  lemma OrderKept(check: bool, w: World, a: Action)
    requires NameInv(w, DB_SYNC) && NameInv(w, SCHEMA_CHECK) && OrderOk(w) && Enabled(w, a)
    requires SCHEMA_CHECK in w.jobs.objects && Apply(check, w, a).external[DB_SYNC] == w.external[DB_SYNC]
    ensures OrderOk(Apply(check, w, a))
  {
    var w' := Apply(check, w, a);
    SpecsGrow(check, w, a);
    if SCHEMA_CHECK in w'.jobs.objects {
      BodyStep(check, w, a, SCHEMA_CHECK);
      var c := w.jobs.objects[SCHEMA_CHECK].body;
      if SyncConstant(w'.specs, c.origin, w'.latest) {
        ConstantBefore(w, w', c.origin);
        ThereStep(check, w, a);
        CompletedLater(w.jobs.objects[DB_SYNC].body, w'.jobs.objects[DB_SYNC].body, c.createdAt, c.createdAt);
      }
    }
  }

  lemma OrderStep(check: bool, w: World, a: Action)
    requires NameInv(w, DB_SYNC) && NameInv(w, SCHEMA_CHECK) && OrderOk(w) && SyncStays(w) && PlanOk(check, w) && Enabled(w, a)
    requires Apply(check, w, a).external[DB_SYNC] == w.external[DB_SYNC]
    ensures OrderOk(Apply(check, w, a))
  {
    var w' := Apply(check, w, a);
    if SCHEMA_CHECK in w.jobs.objects {
      OrderKept(check, w, a);
    } else if SCHEMA_CHECK in w'.jobs.objects {
      NewJob(check, w, a, SCHEMA_CHECK);
      SpecsGrow(check, w, a);
      ThereStep(check, w, a);
      CompletedLater(w.pass.value.sync.value.body, w'.jobs.objects[DB_SYNC].body, w.time, w.time);
    }
  }

  /** Under fresh templates the key tells that no other db-sync came between. */
  lemma KeyTellsSync(w: World, name: string, o: Object<Job>)
    requires FreshImages(w) && SpecsOk(w) && w.pass.Some? && Rooted(w, name, o)
    requires o.body.key == KeyOf(w.pass.value.spec, name)
    ensures SyncConstant(w.specs, o.body.origin, w.latest)
  {
  }

  lemma SyncStaysGet(check: bool, w: World)
    requires SyncStays(w) && FreshImages(w) && SpecsOk(w) && JobOk(w, DB_SYNC) && JobOk(w, SCHEMA_CHECK)
    requires TimesOk(w) && GoingOk(w) && OrderOk(w) && Enabled(w, Get) && PcOk(check, w.pass.value)
    ensures SyncStays(Apply(check, w, Get))
  {
    var w' := Apply(check, w, Get);
    var p, p' := w.pass.value, w'.pass.value;
    if p'.sync.Some? {
      var o := p'.sync.value;
      if p'.sync != p.sync {
        KeyTellsSync(w, DB_SYNC, o);
        var i :| 0 <= i < |o.body.conditions| && o.body.conditions[i].kind == JobComplete && o.body.conditions[i].status == True;
        assert CompletedBefore(o.body, w'.time);
      } else {
        CompletedLater(o.body, o.body, w.time, w'.time);
      }
      if p'.check.Some? {
        var c := p'.check.value;
        KeyTellsSync(w, SCHEMA_CHECK, c);
        CompletedLater(w.jobs.objects[DB_SYNC].body, o.body, c.body.createdAt, c.body.createdAt);
      }
    }
  }

  /** Only Get adds to what a pass has seen. */
  lemma SeenCarries(check: bool, w: World, a: Action)
    requires Enabled(w, a) && !a.Get? && !a.Begin? && Apply(check, w, a).pass.Some?
    ensures
      var p' := Apply(check, w, a).pass.value;
      w.pass.Some? && p'.sync == w.pass.value.sync && p'.check == w.pass.value.check
  {
  }

  /** Nothing removes or changes the Job the pass relies on. */
  lemma SyncStaysKept(check: bool, w: World, a: Action)
    requires NameInv(w, DB_SYNC) && SyncStays(w) && PlanOk(check, w) && Enabled(w, a) && !a.Get? && !a.Begin?
    requires Apply(check, w, a).external[DB_SYNC] == w.external[DB_SYNC]
    ensures SyncStays(Apply(check, w, a))
  {
    var w' := Apply(check, w, a);
    if w'.pass.Some? && w'.pass.value.sync.Some? {
      SeenCarries(check, w, a);
      var o := w.pass.value.sync.value;
      SpecsGrow(check, w, a);
      ThereStep(check, w, a);
      CompletedLater(o.body, o.body, w.time, w'.time);
    }
  }

  lemma ExternalGrows(check: bool, w: World, a: Action)
    requires Enabled(w, a)
    ensures w.external <= Apply(check, w, a).external
  {
  }

  lemma FreshBefore(check: bool, w: World, a: Action)
    requires SpecsOk(w) && Enabled(w, a) && FreshImages(Apply(check, w, a))
    ensures FreshImages(w)
  {
    var w' := Apply(check, w, a);
    SpecsGrow(check, w, a);
    ExternalGrows(check, w, a);
    FreshPrefix(w.specs, w'.specs);
  }

  lemma FreshPrefix(s: seq<Spec>, t: seq<Spec>)
    requires s <= t && FreshTemplates(t)
    ensures FreshTemplates(s)
  {
    forall i, j | 0 <= i < j < |s| && (s[i].syncKey == s[j].syncKey || s[i].checkKey == s[j].checkKey)
      ensures SyncConstant(s, i, j)
    {
      assert t[i] == s[i] && t[j] == s[j];
      assert SyncConstant(t, i, j);
      assert forall m :: i <= m <= j ==> s[m] == t[m];
    }
  }

  lemma FreshStep(check: bool, w: World, a: Action)
    requires NameInv(w, DB_SYNC) && NameInv(w, SCHEMA_CHECK) && PlanOk(check, w) && FreshInv(w)
    requires Enabled(w, a) && FreshImages(w) && FreshImages(Apply(check, w, a))
    ensures FreshInv(Apply(check, w, a))
  {
    TimesStep(check, w, a);
    GoingStep(check, w, a);
    OrderStep(check, w, a);
    match a
    case Get => SyncStaysGet(check, w);
    case Begin =>
    case _ => SyncStaysKept(check, w, a);
  }

  ghost predicate AllInv(check: bool, w: World) {
    NameInv(w, DB_SYNC) && NameInv(w, SCHEMA_CHECK) && PlanOk(check, w)
  }

  lemma RunAll(check: bool, run: seq<World>, k: nat)
    requires RunFrom(check, run) && k < |run|
    ensures AllInv(check, run[k])
  {
    RunNames(check, run, k, DB_SYNC);
    RunNames(check, run, k, SCHEMA_CHECK);
    RunPlan(check, run, k);
  }

  lemma FreshSomeStep(check: bool, w: World, w': World)
    requires Step(check, w, w') && AllInv(check, w) && FreshImages(w')
    ensures FreshImages(w) && (FreshInv(w) ==> FreshInv(w'))
  {
    var a :| Enabled(w, a) && w' == Apply(check, w, a);
    FreshBefore(check, w, a);
    if FreshInv(w) { FreshStep(check, w, a); }
  }

  lemma {:induction false} RunFresh(check: bool, run: seq<World>, k: nat)
    requires RunFrom(check, run) && k < |run| && FreshImages(run[k])
    ensures FreshInv(run[k])
  {
    if k > 0 {
      assert StepAt(check, run, k);
      RunAll(check, run, k - 1);
      FreshSomeStep(check, run[k - 1], run[k]);
      RunFresh(check, run, k - 1);
    }
  }

  /** With fresh templates, and nobody else deleting the db-sync Job, the db-sync
      Job behind a promotion completed before the schema-check Job behind it was
      created. */
  lemma CheckRanAfterSync(run: seq<World>, k: nat)
    requires RunFrom(true, run) && k < |run| && Enabled(run[k], PromoteTag) && FreshImages(run[k])
    ensures
      var p := run[k].pass.value;
      p.sync.Some? && p.check.Some? && CompletedBefore(p.sync.value.body, p.check.value.body.createdAt)
  {
    RunPlan(true, run, k);
    RunFresh(true, run, k);
  }
}
