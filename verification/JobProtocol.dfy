/** The Job machine: the operator's passes call by call, against a Job
    controller that finishes Jobs, deletions that lag, spec edits and users who
    delete Jobs by hand. One pass runs at a time. */
module JobProtocol {
  import opened Options
  import opened Kube
  import opened Conditions
  import opened Jobs

  /** What one generation of the custom resource renders; templates are told
      apart by their keys. */
  datatype Spec = Spec(syncKey: string, checkKey: string, tag: string)

  function KeyOf(s: Spec, name: string): string { if name == DB_SYNC then s.syncKey else s.checkKey }

  /** How a phase, or a pass, ends. */
  datatype PhaseEnd = Done | Running | Erred(error: RunError)

  /** Where a pass stands with the Job `name`: the runner's three calls, then the
      two halves of recording. */
  datatype Pc =
    | Getting(name: string)
    | Deleting(name: string, seen: Object<Job>)
    | Creating(name: string, saw: Option<Object<Job>>)
    | Patching(name: string, seen: Object<Job>, end: PhaseEnd)
    | Emitting(name: string, seen: Object<Job>, record: TerminalRecord, end: PhaseEnd)
    | Promoting

  /** A pass works on the spec it read; `sync` and `check` are the succeeded Jobs
      it has seen. */
  datatype Pass = Pass(index: nat, spec: Spec, pc: Pc, sync: Option<Object<Job>>, check: Option<Object<Job>>)

  /** `latest` is the spec of the newest pass, `result` what the last pass
      returned, unless it crashed or is under way; `created` and `external` count
      the Jobs created and the Jobs deleted from outside under each name. */
  datatype World = World(
    jobs: Store<Job>, time: nat, specs: seq<Spec>, latest: nat, pass: Option<Pass>, owner: Owner, installed: string, result: Option<PhaseEnd>,
    created: multiset<string>, external: multiset<string>)

  datatype Action =
    | Edit(spec: Spec)
    | Begin
    | Get | GetFails
    | Delete | DeleteFails
    | Create(held: bool) | CreateFails
    | Patch | PatchFails
    | Emit
    | PromoteTag
    | Crash
    | AddCondition(name: string, kind: JobConditionType)
    | Finalise(name: string)
    | ExternalDelete(name: string)

  predicate AtPc(w: World, a: Action)
    requires w.pass.Some?
  {
    var pc := w.pass.value.pc;
    match a
    case Get => pc.Getting?
    case GetFails => pc.Getting?
    case Delete => pc.Deleting?
    case DeleteFails => pc.Deleting?
    case Create(_) => pc.Creating?
    case CreateFails => pc.Creating?
    case Patch => pc.Patching?
    case PatchFails => pc.Patching?
    case Emit => pc.Emitting?
    case PromoteTag => pc.Promoting?
    case Crash => true
    case _ => false
  }

  predicate Enabled(w: World, a: Action) {
    match a
    case Edit(_) => true
    case Begin => w.pass == None && w.specs != []
    case AddCondition(name, _) => name in w.jobs.objects && !Terminal(w.jobs.objects[name].body)
    case Finalise(name) => name in w.jobs.objects && w.jobs.objects[name].body.deleting
    case ExternalDelete(name) => name in w.jobs.objects
    case _ => w.pass.Some? && AtPc(w, a)
  }

  /** The pass goes on after the phase `name`, or ends. */
  function Continue(check: bool, p: Pass, name: string, end: PhaseEnd): Option<Pass> {
    if !end.Done? then None
    else if name == DB_SYNC && check then Some(p.(pc := Getting(SCHEMA_CHECK)))
    else Some(p.(pc := Promoting))
  }

  /** A phase that did not get its Job done is where the pass returns. */
  function EndPhase(check: bool, w: World, p: Pass, name: string, end: PhaseEnd): World {
    w.(pass := Continue(check, p, name, end), result := if end.Done? then w.result else Some(end))
  }

  function Finish(j: Job, kind: JobConditionType, at: nat): Job {
    j.(conditions := j.conditions + [JobCondition(kind, True, at)])
  }

  /** `check` says whether the service has a schema check. */
  function Effect(check: bool, w: World, a: Action): World
    requires Enabled(w, a)
  {
    match a
    case Edit(spec) => w.(specs := w.specs + [spec])
    case Begin => w.(pass := Some(Pass(|w.specs| - 1, w.specs[|w.specs| - 1], Getting(DB_SYNC), None, None)),
                     latest := |w.specs| - 1, result := None)
    case AddCondition(name, kind) =>
      w.(jobs := w.jobs.Put(name, Finish(w.jobs.objects[name].body, kind, w.time)))
    case Finalise(name) => w.(jobs := Finalised(w.jobs, name))
    case ExternalDelete(name) =>
      w.(jobs := Deleted(w.jobs, name).0,
         external := if w.jobs.objects[name].body.deleting then w.external else w.external + multiset{name})
    case _ => Operate(check, w, a, w.pass.value)
  }

  function Operate(check: bool, w: World, a: Action, p: Pass): World
    requires w.pass == Some(p) && AtPc(w, a)
  {
    match a
    case Get =>
      var name := p.pc.name;
      if name !in w.jobs.objects then w.(pass := Some(p.(pc := Creating(name, None))))
      else
        var seen := w.jobs.objects[name];
        if !Terminal(seen.body) then w.(pass := Some(p.(pc := Patching(name, seen, Running))))
        else if seen.body.key != KeyOf(p.spec, name) then w.(pass := Some(p.(pc := Deleting(name, seen))))
        else if Holds(seen.body, JobFailed) then w.(pass := Some(p.(pc := Patching(name, seen, Erred(JobHasFailed)))))
        else if name == DB_SYNC then w.(pass := Some(p.(pc := Patching(name, seen, Done), sync := Some(seen))))
        else w.(pass := Some(p.(pc := Patching(name, seen, Done), check := Some(seen))))
    case Delete =>
      var (jobs, status) := Deleted(w.jobs, p.pc.name);
      if status == Ok then w.(jobs := jobs, pass := Some(p.(pc := Creating(p.pc.name, Some(p.pc.seen)))))
      else w.(pass := Some(p.(pc := Patching(p.pc.name, p.pc.seen, Erred(CallFailed(DeleteJob))))))
    case DeleteFails => w.(pass := Some(p.(pc := Patching(p.pc.name, p.pc.seen, Erred(CallFailed(DeleteJob))))))
    case Create(held) =>
      var name := p.pc.name;
      var (jobs, status) := w.jobs.Create(name, Job(KeyOf(p.spec, name), [], w.time, held, false, p.index));
      var w1 := AfterCreate(w.(jobs := jobs), p, Running);
      if status != Ok then w1
      else w1.(created := w.created + multiset{name})
    case CreateFails => AfterCreate(w, p, Erred(CallFailed(CreateJob)))
    case Patch =>
      var owed := Owed(w.owner, p.pc.name, Some(p.pc.seen));
      if owed == None then EndPhase(check, w, p, p.pc.name, p.pc.end)
      else w.(owner := w.owner.(annotations := w.owner.annotations[p.pc.name := owed.value.uid]),
              pass := Some(p.(pc := Emitting(p.pc.name, p.pc.seen, owed.value, p.pc.end))))
    case PatchFails => EndPhase(check, w, p, p.pc.name, p.pc.end)
    case Emit =>
      EndPhase(check, w.(owner := w.owner.(records := w.owner.records + [p.pc.record])), p, p.pc.name, p.pc.end)
    case PromoteTag =>
      w.(installed := if p.spec.tag != "" then p.spec.tag else w.installed, pass := None, result := Some(Done))
    case GetFails => w.(pass := None, result := Some(Erred(CallFailed(GetJob))))
    case _ => w.(pass := None, result := None)
  }

  function AfterCreate(w: World, p: Pass, end: PhaseEnd): World
    requires p.pc.Creating?
  {
    if p.pc.saw == None then w.(pass := None, result := Some(end))
    else w.(pass := Some(p.(pc := Patching(p.pc.name, p.pc.saw.value, end))))
  }

  function Apply(check: bool, w: World, a: Action): World
    requires Enabled(w, a)
  {
    Effect(check, w, a).(time := w.time + 1)
  }

  function Initial(spec: Spec): World {
    World(Store(map[], 0), 0, [spec], 0, None, Owner(map[], []), "", None, multiset{}, multiset{})
  }

  ghost predicate Step(check: bool, w: World, w': World) {
    exists a :: Enabled(w, a) && w' == Apply(check, w, a)
  }

  ghost predicate StepAt(check: bool, run: seq<World>, i: int)
    requires 0 < i < |run|
  {
    Step(check, run[i - 1], run[i])
  }

  ghost predicate RunFrom(check: bool, run: seq<World>) {
    && |run| > 0 && run[0].specs != [] && run[0] == Initial(run[0].specs[0])
    && forall i :: 0 < i < |run| ==> StepAt(check, run, i)
  }

  /* ---- Deletions and creations under one name ---- */

  /** How often the desired key has changed up to spec `i`. */
  function Changes(specs: seq<Spec>, name: string, i: nat): (n: nat)
    requires i < |specs|
  {
    if i == 0 then 0
    else Changes(specs, name, i - 1) + (if KeyOf(specs[i], name) == KeyOf(specs[i - 1], name) then 0 else 1)
  }

  lemma {:induction false} ChangesMonotone(specs: seq<Spec>, name: string, i: nat, j: nat)
    requires i <= j < |specs|
    ensures Changes(specs, name, i) <= Changes(specs, name, j)
    ensures KeyOf(specs[i], name) != KeyOf(specs[j], name) ==> Changes(specs, name, i) < Changes(specs, name, j)
    decreases j
  {
    if i < j { ChangesMonotone(specs, name, i, j - 1); }
  }

  lemma {:induction false} ChangesPrefix(specs: seq<Spec>, spec: Spec, name: string, i: nat)
    requires i < |specs|
    ensures Changes(specs + [spec], name, i) == Changes(specs, name, i)
  {
    if i > 0 { ChangesPrefix(specs, spec, name, i - 1); }
  }

  ghost predicate SpecsOk(w: World) {
    && w.latest < |w.specs|
    && (w.pass.Some? ==> w.pass.value.index == w.latest && w.pass.value.spec == w.specs[w.latest])
  }

  /** The Job was created from a spec no newer pass than the latest has seen. */
  ghost predicate Rooted(w: World, name: string, o: Object<Job>) {
    o.uid < w.jobs.clock && o.body.origin <= w.latest < |w.specs| && o.body.key == KeyOf(w.specs[o.body.origin], name)
  }

  /** Still the Job that was seen, with its outcome. */
  ghost predicate Same(live: Object<Job>, seen: Object<Job>) {
    && live.uid == seen.uid && live.body.key == seen.body.key && live.body.origin == seen.body.origin
    && live.body.conditions == seen.body.conditions && live.body.createdAt == seen.body.createdAt
  }

  ghost predicate JobOk(w: World, name: string) {
    name in w.jobs.objects ==> Rooted(w, name, w.jobs.objects[name])
  }

  ghost predicate DeletingOk(w: World, name: string) {
    w.pass.Some? && w.pass.value.pc.Deleting? && w.pass.value.pc.name == name ==>
      var p := w.pass.value;
      && Rooted(w, name, p.pc.seen) && Terminal(p.pc.seen.body) && p.pc.seen.body.key != KeyOf(p.spec, name)
      && (name in w.jobs.objects ==> Same(w.jobs.objects[name], p.pc.seen))
  }

  ghost predicate CountOk(w: World, name: string)
    requires SpecsOk(w) && JobOk(w, name)
  {
    if name in w.jobs.objects && !w.jobs.objects[name].body.deleting
    then w.created[name] <= 1 + w.external[name] + Changes(w.specs, name, w.jobs.objects[name].body.origin)
    else w.created[name] == 0 || w.created[name] <= w.external[name] + Changes(w.specs, name, w.latest)
  }

  ghost predicate NameInv(w: World, name: string) {
    SpecsOk(w) && JobOk(w, name) && DeletingOk(w, name) && CountOk(w, name)
  }

  lemma EditKeeps(check: bool, w: World, spec: Spec, name: string)
    requires NameInv(w, name)
    ensures NameInv(Apply(check, w, Edit(spec)), name)
  {
    ChangesPrefix(w.specs, spec, name, w.latest);
    if name in w.jobs.objects { ChangesPrefix(w.specs, spec, name, w.jobs.objects[name].body.origin); }
  }

  lemma BeginKeeps(check: bool, w: World, name: string)
    requires NameInv(w, name) && Enabled(w, Begin)
    ensures NameInv(Apply(check, w, Begin), name)
  {
    ChangesMonotone(w.specs, name, w.latest, |w.specs| - 1);
  }

  /** An operator delete moves the bound from the stale key to the pass's key. */
  lemma DeleteKeeps(check: bool, w: World, name: string)
    requires NameInv(w, name) && w.pass.Some? && w.pass.value.pc.Deleting?
    ensures NameInv(Apply(check, w, Delete), name)
  {
    DeleteEffect(check, w);
    if name in w.jobs.objects { ChangesMonotone(w.specs, name, w.jobs.objects[name].body.origin, w.latest); }
  }

  /** A delete marks the Job or removes it, and leaves the counts alone. */
  lemma DeleteEffect(check: bool, w: World)
    requires w.pass.Some? && w.pass.value.pc.Deleting?
    ensures
      var p := w.pass.value;
      var w' := Apply(check, w, Delete);
      && w'.specs == w.specs && w'.latest == w.latest && w'.external == w.external && w'.created == w.created
      && w'.jobs == Deleted(w.jobs, p.pc.name).0
      && w'.pass.Some? && w'.pass.value.index == p.index && w'.pass.value.spec == p.spec && !w'.pass.value.pc.Deleting?
  {
  }

  /** A create either makes the name's only Job, from the latest spec, or leaves
      Jobs and counts alone. */
  lemma CreateEffect(check: bool, w: World, held: bool)
    requires w.pass.Some? && w.pass.value.pc.Creating?
    ensures
      var p := w.pass.value;
      var w' := Apply(check, w, Create(held));
      && w'.specs == w.specs && w'.latest == w.latest && w'.external == w.external
      && (w'.pass.Some? ==> w'.pass.value.index == p.index && w'.pass.value.spec == p.spec && !w'.pass.value.pc.Deleting?)
      && (if p.pc.name in w.jobs.objects then w'.jobs == w.jobs && w'.created == w.created
          else && w'.created == w.created + multiset{p.pc.name}
               && w'.jobs == w.jobs.Create(p.pc.name, Job(KeyOf(p.spec, p.pc.name), [], w.time, held, false, p.index)).0)
  {
  }

  lemma CreateKeeps(check: bool, w: World, held: bool, name: string)
    requires NameInv(w, name) && w.pass.Some? && w.pass.value.pc.Creating?
    ensures NameInv(Apply(check, w, Create(held)), name)
  {
    CreateEffect(check, w, held);
    var w' := Apply(check, w, Create(held));
    if w.pass.value.pc.name != name || name in w.jobs.objects {
      assert w'.created[name] == w.created[name];
    } else {
      assert w'.created[name] == w.created[name] + 1;
    }
  }

  lemma ClusterKeeps(check: bool, w: World, a: Action, name: string)
    requires NameInv(w, name) && Enabled(w, a) && (a.AddCondition? || a.Finalise? || a.ExternalDelete?)
    ensures NameInv(Apply(check, w, a), name)
  {
    if name in w.jobs.objects { ChangesMonotone(w.specs, name, w.jobs.objects[name].body.origin, w.latest); }
  }

  /** The Jobs and the counts stay; a pass that goes on is not about to delete. */
  lemma StandsKeeps(w: World, w': World, name: string)
    requires NameInv(w, name)
    requires w' == w.(time := w'.time, pass := w'.pass, owner := w'.owner, installed := w'.installed, result := w'.result)
    requires w'.pass.Some? ==>
               w.pass.Some? && w'.pass.value.index == w.pass.value.index && w'.pass.value.spec == w.pass.value.spec
    requires DeletingOk(w', name)
    ensures NameInv(w', name)
  {
    assert w'.created[name] == w.created[name] && w'.external[name] == w.external[name];
  }

  lemma GetKeeps(check: bool, w: World, name: string)
    requires NameInv(w, name) && Enabled(w, Get)
    ensures NameInv(Apply(check, w, Get), name)
  {
    StandsKeeps(w, Apply(check, w, Get), name);
  }

  lemma BookkeepingKeeps(check: bool, w: World, a: Action, name: string)
    requires NameInv(w, name) && Enabled(w, a) && w.pass.Some? && AtPc(w, a) && !a.Delete? && !a.Create? && !a.Get?
    ensures NameInv(Apply(check, w, a), name)
  {
    var w' := Apply(check, w, a);
    assert w'.pass.Some? ==> !w'.pass.value.pc.Deleting?;
    StandsKeeps(w, w', name);
  }

  lemma NameStep(check: bool, w: World, a: Action, name: string)
    requires NameInv(w, name) && Enabled(w, a)
    ensures NameInv(Apply(check, w, a), name)
  {
    match a
    case Edit(spec) => EditKeeps(check, w, spec, name);
    case Begin => BeginKeeps(check, w, name);
    case Get => GetKeeps(check, w, name);
    case Delete => DeleteKeeps(check, w, name);
    case Create(held) => CreateKeeps(check, w, held, name);
    case AddCondition(_, _) => ClusterKeeps(check, w, a, name);
    case Finalise(_) => ClusterKeeps(check, w, a, name);
    case ExternalDelete(_) => ClusterKeeps(check, w, a, name);
    case _ => BookkeepingKeeps(check, w, a, name);
  }

  lemma NameSomeStep(check: bool, w: World, w': World, name: string)
    requires NameInv(w, name) && Step(check, w, w')
    ensures NameInv(w', name)
  {
    var a :| Enabled(w, a) && w' == Apply(check, w, a);
    NameStep(check, w, a, name);
  }

  lemma {:induction false} RunNames(check: bool, run: seq<World>, k: nat, name: string)
    requires RunFrom(check, run) && k < |run|
    ensures NameInv(run[k], name)
  {
    if k > 0 {
      RunNames(check, run, k - 1, name);
      assert StepAt(check, run, k);
      NameSomeStep(check, run[k - 1], run[k], name);
    }
  }

  /** Whatever has happened since the pass read the Job, its delete hits a
      terminal Job with a key the pass does not want, or nothing. */
  lemma DeletesOnlyStaleJobs(check: bool, run: seq<World>, k: nat)
    requires RunFrom(check, run) && k < |run| && Enabled(run[k], Delete)
    ensures
      var w := run[k];
      var p := w.pass.value;
      p.pc.name in w.jobs.objects ==>
        var live := w.jobs.objects[p.pc.name];
        Terminal(live.body) && live.body.key != KeyOf(p.spec, p.pc.name) && live.uid == p.pc.seen.uid
  {
    RunNames(check, run, k, run[k].pass.value.pc.name);
  }

  /** Jobs created under one name: one, plus one for every change of the desired
      key, plus one for every Job deleted from outside. */
  lemma CreationsBounded(check: bool, run: seq<World>, k: nat, name: string)
    requires RunFrom(check, run) && k < |run|
    ensures run[k].specs != []
    ensures run[k].created[name] <= 1 + Changes(run[k].specs, name, |run[k].specs| - 1) + run[k].external[name]
  {
    RunNames(check, run, k, name);
    var w := run[k];
    ChangesMonotone(w.specs, name, w.latest, |w.specs| - 1);
    if name in w.jobs.objects { ChangesMonotone(w.specs, name, w.jobs.objects[name].body.origin, |w.specs| - 1); }
  }
}
