/** A pass of the Job machine that nobody disturbs is the sequential pass: the
    same Jobs, records, release and result, whichever of its calls fail. */
module JobPass {
  import opened Options
  import opened Kube
  import opened Conditions
  import opened Jobs
  import opened JobProtocol

  function Then(check: bool, w: World, a: Action): World {
    if Enabled(w, a) then Apply(check, w, a) else w
  }

  /* ---- The calls of one phase ---- */

  /** The runner's calls on the Job at hand, with at most one of them failing. */
  function SoloRun(check: bool, w: World, fault: Option<JobCall>, held: bool): World {
    var w1 := Then(check, w, if fault == Some(GetJob) then GetFails else Get);
    var w2 := Then(check, w1, if fault == Some(DeleteJob) then DeleteFails else Delete);
    Then(check, w2, if fault == Some(CreateJob) then CreateFails else Create(held))
  }

  function SoloRecord(check: bool, w: World, patchFails: bool): World {
    Then(check, Then(check, w, if patchFails then PatchFails else Patch), Emit)
  }

  function SoloPhase(check: bool, w: World, fault: Option<JobCall>, patchFails: bool, held: bool): World {
    SoloRecord(check, SoloRun(check, w, fault, held), patchFails)
  }

  /** The Job a phase on `name` creates if it creates one. */
  function Rendered(w: World, p: Pass, name: string, held: bool): Job {
    var time := if name in w.jobs.objects then w.time + 2 else w.time + 1;
    Job(KeyOf(p.spec, name), [], time, held, false, p.index)
  }

  function EndOf(r: RunResult): PhaseEnd {
    if r.error.Some? then Erred(r.error.value) else if r.done then Done else Running
  }

  /** The pass in `w'` works on what the pass in `w` did; nothing but it and the
      Jobs has moved. */
  ghost predicate Undisturbed(w: World, w': World) {
    && w'.owner == w.owner && w'.installed == w.installed
    && (w.pass.Some? && w'.pass.Some? ==>
          w'.pass.value.spec == w.pass.value.spec && w'.pass.value.index == w.pass.value.index)
  }

  /** The calls have done to the Jobs what the runner does, and stand before the
      record of the Job the runner returns, or have returned with its result. */
  ghost predicate Agree(w: World, name: string, jobs: Store<Job>, r: RunResult) {
    && w.jobs == jobs
    && match r.observed
       case None => w.pass == None && w.result == Some(EndOf(r))
       case Some(seen) => w.pass.Some? && w.pass.value.pc == Patching(name, seen, EndOf(r))
  }

  lemma RunUnread(check: bool, w: World, p: Pass, name: string, fault: Option<JobCall>, held: bool)
    requires w.pass == Some(p) && p.pc == Getting(name) && (fault == Some(GetJob) || name !in w.jobs.objects)
    ensures
      var (jobs, r) := Run(w.jobs, name, Rendered(w, p, name, held), fault);
      var w' := SoloRun(check, w, fault, held);
      Agree(w', name, jobs, r) && Undisturbed(w, w')
  {
    var w1 := Then(check, w, if fault == Some(GetJob) then GetFails else Get);
    assert w1.pass == if fault == Some(GetJob) then None else Some(p.(pc := Creating(name, None)));
    assert Then(check, w1, if fault == Some(DeleteJob) then DeleteFails else Delete) == w1;
  }

  /** The runner's later calls are none of a pass that is about to record. */
  lemma PatchingWaits(check: bool, w: World, fault: Option<JobCall>, held: bool)
    requires w.pass.Some? && w.pass.value.pc.Patching?
    ensures
      var w2 := Then(check, w, if fault == Some(DeleteJob) then DeleteFails else Delete);
      Then(check, w2, if fault == Some(CreateJob) then CreateFails else Create(held)) == w
  {
  }

  lemma RunSettled(check: bool, w: World, p: Pass, name: string, fault: Option<JobCall>, held: bool)
    requires w.pass == Some(p) && p.pc == Getting(name) && fault != Some(GetJob) && name in w.jobs.objects
    requires !Terminal(w.jobs.objects[name].body) || w.jobs.objects[name].body.key == KeyOf(p.spec, name)
    ensures
      var (jobs, r) := Run(w.jobs, name, Rendered(w, p, name, held), fault);
      var w' := SoloRun(check, w, fault, held);
      Agree(w', name, jobs, r) && Undisturbed(w, w')
  {
    var (jobs, r) := Run(w.jobs, name, Rendered(w, p, name, held), fault);
    var w1 := Then(check, w, Get);
    assert Agree(w1, name, jobs, r) && Undisturbed(w, w1);
    PatchingWaits(check, w1, fault, held);
  }

  lemma StaleDelete(check: bool, w: World, p: Pass, name: string, fault: Option<JobCall>)
    requires w.pass == Some(p) && p.pc == Getting(name) && fault != Some(GetJob) && name in w.jobs.objects
    requires Terminal(w.jobs.objects[name].body) && w.jobs.objects[name].body.key != KeyOf(p.spec, name)
    ensures
      var seen := w.jobs.objects[name];
      var w' := Then(check, Then(check, w, Get), if fault == Some(DeleteJob) then DeleteFails else Delete);
      && Undisturbed(w, w') && w'.time == w.time + 2
      && (if fault == Some(DeleteJob)
          then w'.jobs == w.jobs && w'.pass == Some(p.(pc := Patching(name, seen, Erred(CallFailed(DeleteJob)))))
          else w'.jobs == Deleted(w.jobs, name).0 && w'.pass == Some(p.(pc := Creating(name, Some(seen)))))
  {
    var w1 := Then(check, w, Get);
    assert w1.pass == Some(p.(pc := Deleting(name, w.jobs.objects[name]))) && w1.jobs == w.jobs;
  }

  lemma StaleCreate(check: bool, w: World, p: Pass, seen: Object<Job>, fault: Option<JobCall>, held: bool)
    requires w.pass == Some(p) && p.pc.Creating? && p.pc.saw == Some(seen)
    ensures
      var w' := Then(check, w, if fault == Some(CreateJob) then CreateFails else Create(held));
      var (jobs, error) := CreateWithKey(w.jobs, p.pc.name, Job(KeyOf(p.spec, p.pc.name), [], w.time, held, false, p.index), fault);
      && Undisturbed(w, w') && w'.jobs == jobs
      && w'.pass == Some(p.(pc := Patching(p.pc.name, seen, EndOf(RunResult(false, Some(seen), error)))))
  {
  }

  lemma RunStale(check: bool, w: World, p: Pass, name: string, fault: Option<JobCall>, held: bool)
    requires w.pass == Some(p) && p.pc == Getting(name) && fault != Some(GetJob) && name in w.jobs.objects
    requires Terminal(w.jobs.objects[name].body) && w.jobs.objects[name].body.key != KeyOf(p.spec, name)
    ensures
      var (jobs, r) := Run(w.jobs, name, Rendered(w, p, name, held), fault);
      var w' := SoloRun(check, w, fault, held);
      Agree(w', name, jobs, r) && Undisturbed(w, w')
  {
    StaleDelete(check, w, p, name, fault);
    if fault != Some(DeleteJob) {
      var seen := w.jobs.objects[name];
      var w2 := Then(check, Then(check, w, Get), Delete);
      StaleCreate(check, w2, p.(pc := Creating(name, Some(seen))), seen, fault, held);
    }
  }

  /** Undisturbed, the calls of a pass do to the Jobs what the runner does, and
      come to its result. */
  lemma CallsAreRun(check: bool, w: World, p: Pass, name: string, fault: Option<JobCall>, held: bool)
    requires w.pass == Some(p) && p.pc == Getting(name)
    ensures
      var (jobs, r) := Run(w.jobs, name, Rendered(w, p, name, held), fault);
      var w' := SoloRun(check, w, fault, held);
      Agree(w', name, jobs, r) && Undisturbed(w, w')
  {
    if fault == Some(GetJob) || name !in w.jobs.objects {
      RunUnread(check, w, p, name, fault, held);
    } else if Terminal(w.jobs.objects[name].body) && w.jobs.objects[name].body.key != KeyOf(p.spec, name) {
      RunStale(check, w, p, name, fault, held);
    } else {
      RunSettled(check, w, p, name, fault, held);
    }
  }

  /* ---- Recording ---- */

  /** The two steps of recording write what the recorder writes, and the phase
      ends. */
  lemma StepsAreRecorded(check: bool, w: World, p: Pass, name: string, seen: Object<Job>, end: PhaseEnd, patchFails: bool)
    requires w.pass == Some(p) && p.pc == Patching(name, seen, end)
    ensures
      var w' := SoloRecord(check, w, patchFails);
      && w'.jobs == w.jobs && w'.installed == w.installed
      && w'.owner == Recorded(w.owner, name, Some(seen), patchFails)
      && (end.Done? ==> w'.pass.Some? && w'.pass.value.spec == p.spec && w'.pass.value.index == p.index
                        && w'.pass.value.pc == if name == DB_SYNC && check then Getting(SCHEMA_CHECK) else Promoting)
      && (!end.Done? ==> w'.pass == None && w'.result == Some(end))
  {
    var w1 := Then(check, w, if patchFails then PatchFails else Patch);
    var owed := Owed(w.owner, name, Some(seen));
    if owed == None || patchFails {
      assert !Enabled(w1, Emit);
    } else {
      assert w1.pass.value.pc == Emitting(name, seen, owed.value, end);
    }
  }

  /* ---- A phase ---- */

  function FlowOf(end: PhaseEnd, requeueAfter: nat): FlowResult {
    match end
    case Done => Settled
    case Running => Requeue(requeueAfter)
    case Erred(e) => Failing(e)
  }

  ghost predicate SameState(w: World, s: SyncState) {
    w.jobs == s.jobs && w.owner == s.owner && w.installed == s.installed
  }

  /** A phase of the machine is a phase of the pass: it goes on when that goes
      on, and returns what that returns. */
  lemma CallsArePhase(check: bool, w: World, pass: Pass, name: string, fault: Option<JobCall>, patchFails: bool, held: bool,
                      s: SyncState, p: SyncParams, failed: (string, string), running: (string, string), now: nat)
    requires w.pass == Some(pass) && pass.pc == Getting(name)
    requires SameState(w, s) && p.records
    ensures
      var w' := SoloPhase(check, w, fault, patchFails, held);
      var (s', stop) := Phase(s, p, name, name, Rendered(w, pass, name, held), fault, patchFails, failed, running, now);
      && SameState(w', s')
      && (stop == None ==> w'.pass.Some? && w'.pass.value.spec == pass.spec && w'.pass.value.index == pass.index
                           && w'.pass.value.pc == if name == DB_SYNC && check then Getting(SCHEMA_CHECK) else Promoting)
      && (stop.Some? ==> w'.pass == None && w'.result.Some? && stop == Some(FlowOf(w'.result.value, p.requeueAfter)))
  {
    var job := Rendered(w, pass, name, held);
    var (jobs, r) := Run(w.jobs, name, job, fault);
    var w1 := SoloRun(check, w, fault, held);
    CallsAreRun(check, w, pass, name, fault, held);
    DoneMeansSucceeded(w.jobs, name, job, fault);
    if r.observed.Some? {
      StepsAreRecorded(check, w1, w1.pass.value, name, r.observed.value, EndOf(r), patchFails);
    } else {
      assert SoloRecord(check, w1, patchFails) == w1;
    }
  }

  /* ---- The pass ---- */

  function SoloPass(check: bool, w: World, f: SyncFaults, heldSync: bool, heldCheck: bool): World {
    var w1 := SoloPhase(check, Then(check, w, Begin), f.sync, f.syncPatch, heldSync);
    var w2 := SoloPhase(check, w1, f.check, f.checkPatch, heldCheck);
    Then(check, w2, PromoteTag)
  }

  lemma IdlePhase(check: bool, w: World, fault: Option<JobCall>, patchFails: bool, held: bool)
    requires w.pass.Some? ==> w.pass.value.pc.Promoting?
    ensures SoloPhase(check, w, fault, patchFails, held) == w
  {
  }

  lemma PromotePhase(check: bool, w: World, s: SyncState, p: SyncParams, now: nat)
    requires SameState(w, s) && w.pass.Some? && w.pass.value.pc.Promoting?
    requires p.tracks && p.imageTag == w.pass.value.spec.tag
    ensures
      var w' := Then(check, w, PromoteTag);
      SameState(w', Promote(s, p, now)) && w'.pass == None && w'.result == Some(Done)
  {
  }

  /** The parameters of the pass that begins in `w`: its templates, the second
      as of the end of the first phase, and its tag. */
  ghost predicate Renders(check: bool, w: World, p: SyncParams, f: SyncFaults, heldSync: bool, heldCheck: bool)
    requires Enabled(w, Begin)
  {
    var w0 := Then(check, w, Begin);
    var w1 := SoloPhase(check, w0, f.sync, f.syncPatch, heldSync);
    && p.tracks && p.records && p.imageTag == w0.pass.value.spec.tag
    && p.sync == Rendered(w0, w0.pass.value, DB_SYNC, heldSync)
    && p.schemaCheck == if check then Some(Rendered(w1, w0.pass.value, SCHEMA_CHECK, heldCheck)) else None
  }

  lemma RenderedBy(w: World, p: Pass, q: Pass, name: string, held: bool)
    requires p.spec == q.spec && p.index == q.index
    ensures Rendered(w, p, name, held) == Rendered(w, q, name, held)
  {
  }

  /** An undisturbed pass of the machine, from its begin through db-sync, record,
      schema-check and record to the promotion, is the sequential pass: it leaves
      the same Jobs, annotations and records and the same installed release, and
      returns the same result, whichever calls and patches fail. */
  lemma SoloPassIsSyncPass(check: bool, w: World, p: SyncParams, f: SyncFaults, heldSync: bool, heldCheck: bool,
                           conditions: seq<Condition>, now: nat)
    requires Enabled(w, Begin) && Renders(check, w, p, f, heldSync, heldCheck)
    ensures
      var w' := SoloPass(check, w, f, heldSync, heldCheck);
      var (s', result) := SyncPassOn(SyncState(w.jobs, w.owner, conditions, w.installed), p, DB_SYNC, SCHEMA_CHECK, f, now);
      && SameState(w', s')
      && w'.pass == None && w'.result.Some? && result == FlowOf(w'.result.value, p.requeueAfter)
  {
    var s := SyncState(w.jobs, w.owner, conditions, w.installed);
    var w0 := Then(check, w, Begin);
    var pass := w0.pass.value;
    var w1 := SoloPhase(check, w0, f.sync, f.syncPatch, heldSync);
    var w2 := SoloPhase(check, w1, f.check, f.checkPatch, heldCheck);
    var (s1, stop1) := Phase(s, p, DB_SYNC, DB_SYNC, p.sync, f.sync, f.syncPatch, SYNC_FAILED, SYNC_RUNNING, now);
    CallsArePhase(check, w0, pass, DB_SYNC, f.sync, f.syncPatch, heldSync, s, p, SYNC_FAILED, SYNC_RUNNING, now);
    if stop1.Some? {
      IdlePhase(check, w1, f.check, f.checkPatch, heldCheck);
    } else if !check {
      IdlePhase(check, w1, f.check, f.checkPatch, heldCheck);
      PromotePhase(check, w1, s1, p, now);
    } else {
      RenderedBy(w1, pass, w1.pass.value, SCHEMA_CHECK, heldCheck);
      var (s2, stop2) :=
        Phase(s1, p, SCHEMA_CHECK, SCHEMA_CHECK, p.schemaCheck.value, f.check, f.checkPatch, CHECK_FAILED, CHECK_RUNNING, now);
      CallsArePhase(check, w1, w1.pass.value, SCHEMA_CHECK, f.check, f.checkPatch, heldCheck, s1, p, CHECK_FAILED, CHECK_RUNNING, now);
      if stop2 == None { PromotePhase(check, w2, s2, p, now); }
    }
  }
}
