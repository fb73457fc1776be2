/** The Job runner, the terminal-metric recorder and the db-sync flow built on
    them. */
module Jobs {
  import opened Options
  import opened Kube
  import opened Conditions

  datatype JobConditionType = JobComplete | JobFailed | JobSuspended | JobFailureTarget | JobSuccessCriteriaMet

  datatype JobCondition = JobCondition(kind: JobConditionType, status: ConditionStatus, at: int)

  /** `key` is the stored re-run key; a `held` Job carries a finalizer, so its
      deletion lags. `origin` is not the program's: it names the spec the Job was
      created from. */
  datatype Job = Job(
    key: string, conditions: seq<JobCondition>, createdAt: int, held: bool, deleting: bool, origin: nat)

  predicate Holds(j: Job, kind: JobConditionType) {
    exists i :: 0 <= i < |j.conditions| && j.conditions[i].kind == kind && j.conditions[i].status == True
  }

  predicate Terminal(j: Job) { Holds(j, JobFailed) || Holds(j, JobComplete) }

  /** What RunJob accepts as done for this key. */
  predicate Succeeded(j: Job, key: string) {
    Holds(j, JobComplete) && !Holds(j, JobFailed) && j.key == key
  }

  method IsJobComplete(j: Job) returns (b: bool)
    ensures b <==> Holds(j, JobComplete)
  {
    for i := 0 to |j.conditions|
      invariant forall k :: 0 <= k < i ==> !(j.conditions[k].kind == JobComplete && j.conditions[k].status == True)
    {
      if j.conditions[i].kind == JobComplete && j.conditions[i].status == True { return true; }
    }
    return false;
  }

  method IsJobFailed(j: Job) returns (b: bool)
    ensures b <==> Holds(j, JobFailed)
  {
    for i := 0 to |j.conditions|
      invariant forall k :: 0 <= k < i ==> !(j.conditions[k].kind == JobFailed && j.conditions[k].status == True)
    {
      if j.conditions[i].kind == JobFailed && j.conditions[i].status == True { return true; }
    }
    return false;
  }

  /* ---- The runner ---- */

  datatype JobCall = GetJob | CreateJob | DeleteJob

  datatype RunError = JobHasFailed | CallFailed(call: JobCall)

  datatype RunResult = RunResult(done: bool, observed: Option<Object<Job>>, error: Option<RunError>)

  /** A background delete by name: at once, or when the finalizer lets go. */
  function Deleted(jobs: Store<Job>, name: string): (Store<Job>, Status) {
    if name !in jobs.objects then (jobs, NotFound)
    else if jobs.objects[name].body.held then (jobs.Put(name, jobs.objects[name].body.(deleting := true)), Ok)
    else (Store(jobs.objects - {name}, jobs.clock), Ok)
  }

  /** createJobWithRerunKey: an occupied name is left to the next pass. */
  function CreateWithKey(jobs: Store<Job>, name: string, job: Job, fault: Option<JobCall>): (Store<Job>, Option<RunError>) {
    if fault == Some(CreateJob) then (jobs, Some(CallFailed(CreateJob)))
    else (jobs.Create(name, job).0, None)
  }

  function RecreateStale(jobs: Store<Job>, name: string, job: Job, fault: Option<JobCall>): (Store<Job>, Option<RunError>) {
    if fault == Some(DeleteJob) || name !in jobs.objects then (jobs, Some(CallFailed(DeleteJob)))
    else CreateWithKey(Deleted(jobs, name).0, name, job, fault)
  }

  /** One undisturbed run; `job` carries the re-run key. */
  function Run(jobs: Store<Job>, name: string, job: Job, fault: Option<JobCall>): (Store<Job>, RunResult) {
    if fault == Some(GetJob) then (jobs, RunResult(false, None, Some(CallFailed(GetJob))))
    else if name !in jobs.objects then
      var (jobs', error) := CreateWithKey(jobs, name, job, fault);
      (jobs', RunResult(false, None, error))
    else
      var seen := jobs.objects[name];
      if !Terminal(seen.body) then (jobs, RunResult(false, Some(seen), None))
      else if seen.body.key != job.key then
        var (jobs', error) := RecreateStale(jobs, name, job, fault);
        (jobs', RunResult(false, Some(seen), error))
      else if Holds(seen.body, JobFailed) then (jobs, RunResult(false, Some(seen), Some(JobHasFailed)))
      else (jobs, RunResult(true, Some(seen), None))
  }

  class Client {
    var jobs: Store<Job>

    constructor (jobs: Store<Job>)
      ensures this.jobs == jobs
    {
      this.jobs := jobs;
    }

    method CreateJobWithRerunKey(name: string, job: Job, fault: Option<JobCall>) returns (error: Option<RunError>)
      modifies this
      ensures (jobs, error) == CreateWithKey(old(jobs), name, job, fault)
    {
      if fault == Some(CreateJob) { return Some(CallFailed(CreateJob)); }
      var (jobs', status) := jobs.Create(name, job);
      jobs := jobs';
      if status != Ok && status != AlreadyExists { return Some(CallFailed(CreateJob)); }
      return None;
    }

    method RecreateStaleJob(name: string, job: Job, fault: Option<JobCall>) returns (error: Option<RunError>)
      modifies this
      ensures (jobs, error) == RecreateStale(old(jobs), name, job, fault)
    {
      if fault == Some(DeleteJob) { return Some(CallFailed(DeleteJob)); }
      var (jobs', status) := Deleted(jobs, name);
      if status != Ok { return Some(CallFailed(DeleteJob)); }
      jobs := jobs';
      error := CreateJobWithRerunKey(name, job, fault);
    }

    /** A failed Job is looked for before a completed one. */
    method RunJobWithRerunKey(name: string, job: Job, fault: Option<JobCall>) returns (r: RunResult)
      modifies this
      ensures (jobs, r) == Run(old(jobs), name, job, fault)
    {
      if fault == Some(GetJob) { return RunResult(false, None, Some(CallFailed(GetJob))); }
      if name !in jobs.objects {
        var error := CreateJobWithRerunKey(name, job, fault);
        return RunResult(false, None, error);
      }
      var existing := jobs.objects[name];
      var failed := IsJobFailed(existing.body);
      if failed {
        if existing.body.key != job.key {
          var error := RecreateStaleJob(name, job, fault);
          return RunResult(false, Some(existing), error);
        }
        return RunResult(false, Some(existing), Some(JobHasFailed));
      }
      var complete := IsJobComplete(existing.body);
      if complete {
        if existing.body.key != job.key {
          var error := RecreateStaleJob(name, job, fault);
          return RunResult(false, Some(existing), error);
        }
        return RunResult(true, Some(existing), None);
      }
      return RunResult(false, Some(existing), None);
    }
  }

  /** Done means exactly that a succeeded Job of this key is there, and then
      nothing is written. */
  lemma DoneMeansSucceeded(jobs: Store<Job>, name: string, job: Job, fault: Option<JobCall>)
    ensures
      var (jobs', r) := Run(jobs, name, job, fault);
      && (r.done <==> fault != Some(GetJob) && name in jobs.objects && Succeeded(jobs.objects[name].body, job.key))
      && (r.done ==> jobs' == jobs && r.error == None && r.observed == Some(jobs.objects[name]))
  {
  }

  /** A run touches an existing Job only when it is terminal and stale, and no
      other name at all. */
  lemma RunTouchesOnlyStale(jobs: Store<Job>, name: string, job: Job, fault: Option<JobCall>)
    ensures
      var jobs' := Run(jobs, name, job, fault).0;
      && jobs'.objects - {name} == jobs.objects - {name}
      && (name in jobs.objects && (name !in jobs'.objects || jobs'.objects[name] != jobs.objects[name]) ==>
            Terminal(jobs.objects[name].body) && jobs.objects[name].body.key != job.key)
  {
  }

  /** What the API server does once a finalizer lets go. */
  function Finalised(jobs: Store<Job>, name: string): Store<Job> {
    if name in jobs.objects && jobs.objects[name].body.deleting then Store(jobs.objects - {name}, jobs.clock) else jobs
  }

  /* ---- Terminal metrics ---- */

  /** Whether it succeeded and when: the first terminal condition that is True. */
  function TerminalOf(cs: seq<JobCondition>): Option<(bool, int)> {
    if cs == [] then None
    else if cs[0].status == True && cs[0].kind == JobComplete then Some((true, cs[0].at))
    else if cs[0].status == True && cs[0].kind == JobFailed then Some((false, cs[0].at))
    else TerminalOf(cs[1..])
  }

  lemma {:induction false} TerminalOfTerminal(cs: seq<JobCondition>, j: Job)
    requires j.conditions == cs
    ensures TerminalOf(cs).Some? <==> Terminal(j)
    decreases |cs|
  {
    if cs != [] && TerminalOf(cs) == TerminalOf(cs[1..]) {
      var rest := j.(conditions := cs[1..]);
      TerminalOfTerminal(cs[1..], rest);
      if Terminal(rest) {
        var i :| 0 <= i < |cs| - 1 && cs[1..][i].status == True && cs[1..][i].kind in {JobFailed, JobComplete};
        assert cs[i + 1].status == True;
      }
      if Terminal(j) {
        var i :| 0 <= i < |cs| && cs[i].status == True && cs[i].kind in {JobFailed, JobComplete};
        if i > 0 { assert cs[1..][i - 1] == cs[i]; }
      }
    }
  }

  datatype TerminalRecord = TerminalRecord(suffix: string, uid: nat, succeeded: bool, duration: int)

  /** `annotations` maps a phase suffix to the Job uid last observed. */
  datatype Owner = Owner(annotations: map<string, nat>, records: seq<TerminalRecord>)

  /** The record still owed for this Job. */
  function Owed(o: Owner, suffix: string, observed: Option<Object<Job>>): Option<TerminalRecord> {
    if observed == None then None
    else
      var terminal := TerminalOf(observed.value.body.conditions);
      var uid := observed.value.uid;
      if terminal == None || (suffix in o.annotations && o.annotations[suffix] == uid) then None
      else
        var duration := terminal.value.1 - observed.value.body.createdAt;
        Some(TerminalRecord(suffix, uid, terminal.value.0, if duration < 0 then 0 else duration))
  }

  /** One undisturbed recording; a failed patch defers it. */
  function Recorded(o: Owner, suffix: string, observed: Option<Object<Job>>, patchFails: bool): Owner {
    var owed := Owed(o, suffix, observed);
    if owed == None || patchFails then o
    else Owner(o.annotations[suffix := owed.value.uid], o.records + [owed.value])
  }

  method RecordJobTerminalState(o: Owner, suffix: string, observed: Option<Object<Job>>, patchFails: bool) returns (r: Owner)
    ensures r == Recorded(o, suffix, observed, patchFails)
  {
    if observed == None { return o; }
    var conditions := observed.value.body.conditions;
    var result: Option<bool>, transitionAt := None, 0;
    var i := 0;
    while i < |conditions| && result == None
      invariant 0 <= i <= |conditions|
      invariant result == None ==> TerminalOf(conditions) == TerminalOf(conditions[i..])
      invariant result.Some? ==> TerminalOf(conditions) == Some((result.value, transitionAt))
    {
      var cond := conditions[i];
      if cond.status == True {
        match cond.kind
        case JobComplete => result, transitionAt := Some(true), cond.at;
        case JobFailed => result, transitionAt := Some(false), cond.at;
        case _ =>
      }
      i := i + 1;
    }
    if result == None { return o; }
    var uid := observed.value.uid;
    if suffix in o.annotations && o.annotations[suffix] == uid { return o; }
    if patchFails { return o; }
    r := o.(annotations := o.annotations[suffix := uid]);
    var duration := transitionAt - observed.value.body.createdAt;
    if duration < 0 { duration := 0; }
    r := r.(records := r.records + [TerminalRecord(suffix, uid, result.value, duration)]);
  }

  /* ---- db-sync, schema-check, promotion ---- */

  const DB_SYNC := "db-sync"
  const SCHEMA_CHECK := "schema-check"

  /** `schemaCheck` is None for a service without a check command; `tracks` says
      whether the caller keeps an installed-release marker, `records` whether it
      wants terminal Jobs recorded. */
  datatype SyncParams = SyncParams(
    instance: string, sync: Job, schemaCheck: Option<Job>, tracks: bool, records: bool, imageTag: string,
    conditionType: string, generation: int, requeueAfter: nat)

  datatype SyncFaults = SyncFaults(sync: Option<JobCall>, check: Option<JobCall>, syncPatch: bool, checkPatch: bool)

  datatype SyncState = SyncState(jobs: Store<Job>, owner: Owner, conditions: seq<Condition>, installed: string)

  datatype FlowResult = Settled | Requeue(after: nat) | Failing(error: RunError)

  function JobName(instance: string, suffix: string): string { instance + "-" + suffix }

  function Cond(p: SyncParams, status: ConditionStatus, reason: string, message: string): Condition {
    Condition(p.conditionType, status, p.generation, reason, message, None)
  }

  function Text(e: RunError): string {
    match e
    case JobHasFailed => "job has permanently failed"
    case CallFailed(GetJob) => "getting Job"
    case CallFailed(CreateJob) => "creating Job"
    case CallFailed(DeleteJob) => "deleting stale Job"
  }

  /** One phase on the Job `name`: its run, its record, and, unless it is done,
      its condition. */
  function Phase(s: SyncState, p: SyncParams, name: string, suffix: string, job: Job, fault: Option<JobCall>,
                 patchFails: bool, failed: (string, string), running: (string, string), now: nat)
    : (SyncState, Option<FlowResult>) {
    var (jobs, r) := Run(s.jobs, name, job, fault);
    var s1 := s.(jobs := jobs, owner := if p.records then Recorded(s.owner, suffix, r.observed, patchFails) else s.owner);
    if r.error.Some? then
      (s1.(conditions := SetCondition(s.conditions, Cond(p, False, failed.0, failed.1 + Text(r.error.value)), now)),
       Some(Failing(r.error.value)))
    else if !r.done then
      (s1.(conditions := SetCondition(s.conditions, Cond(p, False, running.0, running.1), now)),
       Some(Requeue(p.requeueAfter)))
    else (s1, None)
  }

  const SYNC_FAILED := ("DBSyncFailed", "db_sync job failed: ")
  const SYNC_RUNNING := ("DBSyncInProgress", "db_sync job is running")
  const CHECK_FAILED := ("SchemaDriftDetected", "schema-check job failed: ")
  const CHECK_RUNNING := ("SchemaCheckInProgress", "schema-check job is running")
  const SYNCED := ("DatabaseSynced", "Database schema is up to date (revision verified)")

  function Promote(s: SyncState, p: SyncParams, now: nat): SyncState {
    s.(installed := if p.tracks && p.imageTag != "" then p.imageTag else s.installed,
       conditions := SetCondition(s.conditions, Cond(p, True, SYNCED.0, SYNCED.1), now))
  }

  function SyncPass(s: SyncState, p: SyncParams, f: SyncFaults, now: nat): (SyncState, FlowResult) {
    SyncPassOn(s, p, JobName(p.instance, DB_SYNC), JobName(p.instance, SCHEMA_CHECK), f, now)
  }

  /** The pass over the Jobs `sync` and `check`. */
  function SyncPassOn(s: SyncState, p: SyncParams, sync: string, check: string, f: SyncFaults, now: nat): (SyncState, FlowResult) {
    var (s1, stop) := Phase(s, p, sync, DB_SYNC, p.sync, f.sync, f.syncPatch, SYNC_FAILED, SYNC_RUNNING, now);
    if stop.Some? then (s1, stop.value)
    else if p.schemaCheck == None then (Promote(s1, p, now), Settled)
    else
      var (s2, stop) :=
        Phase(s1, p, check, SCHEMA_CHECK, p.schemaCheck.value, f.check, f.checkPatch, CHECK_FAILED, CHECK_RUNNING, now);
      if stop.Some? then (s2, stop.value) else (Promote(s2, p, now), Settled)
  }

  /** The custom resource and its Jobs. */
  class Database {
    const client: Client
    var owner: Owner
    var conditions: seq<Condition>
    var installedRelease: string

    constructor (jobs: Store<Job>, owner: Owner, conditions: seq<Condition>, installedRelease: string)
      ensures fresh(client) && State() == SyncState(jobs, owner, conditions, installedRelease)
    {
      client := new Client(jobs);
      this.owner := owner;
      this.conditions := conditions;
      this.installedRelease := installedRelease;
    }

    function State(): SyncState
      reads this, client
    {
      SyncState(client.jobs, owner, conditions, installedRelease)
    }

    method RecordTerminal(p: SyncParams, suffix: string, observed: Option<Object<Job>>, patchFails: bool)
      modifies this`owner
      ensures owner == if p.records then Recorded(old(owner), suffix, observed, patchFails) else old(owner)
    {
      if p.records { owner := RecordJobTerminalState(owner, suffix, observed, patchFails); }
    }

    method ReconcileSyncJobs(p: SyncParams, f: SyncFaults, now: nat) returns (result: FlowResult)
      modifies this, client
      ensures (State(), result) == SyncPass(old(State()), p, f, now)
    {
      var r := client.RunJobWithRerunKey(JobName(p.instance, DB_SYNC), p.sync, f.sync);
      RecordTerminal(p, DB_SYNC, r.observed, f.syncPatch);
      if r.error.Some? {
        conditions := SetStatusCondition(conditions, Cond(p, False, SYNC_FAILED.0, SYNC_FAILED.1 + Text(r.error.value)), now);
        return Failing(r.error.value);
      }
      if !r.done {
        conditions := SetStatusCondition(conditions, Cond(p, False, SYNC_RUNNING.0, SYNC_RUNNING.1), now);
        return Requeue(p.requeueAfter);
      }
      if p.schemaCheck.Some? {
        r := client.RunJobWithRerunKey(JobName(p.instance, SCHEMA_CHECK), p.schemaCheck.value, f.check);
        RecordTerminal(p, SCHEMA_CHECK, r.observed, f.checkPatch);
        if r.error.Some? {
          conditions := SetStatusCondition(conditions, Cond(p, False, CHECK_FAILED.0, CHECK_FAILED.1 + Text(r.error.value)), now);
          return Failing(r.error.value);
        }
        if !r.done {
          conditions := SetStatusCondition(conditions, Cond(p, False, CHECK_RUNNING.0, CHECK_RUNNING.1), now);
          return Requeue(p.requeueAfter);
        }
      }
      if p.tracks && p.imageTag != "" { installedRelease := p.imageTag; }
      conditions := SetStatusCondition(conditions, Cond(p, True, SYNCED.0, SYNCED.1), now);
      return Settled;
    }
  }

  /** Both Jobs the pass needs have succeeded under the pass's own keys. */
  ghost predicate BothSucceeded(jobs: Store<Job>, p: SyncParams) {
    var sync, check := JobName(p.instance, DB_SYNC), JobName(p.instance, SCHEMA_CHECK);
    && sync in jobs.objects && Succeeded(jobs.objects[sync].body, p.sync.key)
    && (p.schemaCheck.Some? ==> check in jobs.objects && Succeeded(jobs.objects[check].body, p.schemaCheck.value.key))
  }

  /** The reads of the Jobs the pass needs do not fail. */
  predicate BothRead(p: SyncParams, f: SyncFaults) {
    f.sync != Some(GetJob) && (p.schemaCheck.Some? ==> f.check != Some(GetJob))
  }

  /** A pass settles, reports the schema synced and promotes the tag exactly when
      it could read both Jobs and both have succeeded, and then it writes no Job. */
  lemma SettledMeansSynced(s: SyncState, p: SyncParams, f: SyncFaults, now: nat)
    ensures
      var (s', result) := SyncPass(s, p, f, now);
      var condition := GetCondition(s'.conditions, p.conditionType);
      && (result == Settled <==> BothRead(p, f) && BothSucceeded(s.jobs, p))
      && condition.Some? && (condition.value.status == True <==> result == Settled)
      && condition.value.generation == p.generation
      && (result == Settled ==> s'.jobs == s.jobs)
      && s'.installed == (if result == Settled && p.tracks && p.imageTag != "" then p.imageTag else s.installed)
  {
    var (s', _) := SyncPass(s, p, f, now);
    DoneMeansSucceeded(s.jobs, JobName(p.instance, DB_SYNC), p.sync, f.sync);
    if p.schemaCheck.Some? {
      DoneMeansSucceeded(s.jobs, JobName(p.instance, SCHEMA_CHECK), p.schemaCheck.value, f.check);
    }
    forall c: Condition | s'.conditions == SetCondition(s.conditions, c, now)
      ensures GetCondition(s'.conditions, c.kind) == Some(Upserted(GetCondition(s.conditions, c.kind), c, now))
    {
      SetThenGet(s.conditions, c, now, c.kind);
    }
  }

  lemma PhaseNamesDiffer(instance: string)
    ensures JobName(instance, DB_SYNC) != JobName(instance, SCHEMA_CHECK)
  {
    assert |JobName(instance, DB_SYNC)| != |JobName(instance, SCHEMA_CHECK)|;
  }

  /** The schema check waits for the migration: as long as no db-sync Job has
      succeeded under the pass's key, the pass leaves the schema-check Job and the
      release marker alone and its condition speaks of db-sync. */
  lemma CheckWaitsForSync(s: SyncState, p: SyncParams, f: SyncFaults, now: nat)
    requires
      var name := JobName(p.instance, DB_SYNC);
      f.sync == Some(GetJob) || name !in s.jobs.objects || !Succeeded(s.jobs.objects[name].body, p.sync.key)
    ensures
      var (s', result) := SyncPass(s, p, f, now);
      var check := JobName(p.instance, SCHEMA_CHECK);
      var condition := GetCondition(s'.conditions, p.conditionType);
      && s'.jobs.Get(check) == s.jobs.Get(check) && s'.installed == s.installed
      && condition.Some? && condition.value.status == False
      && condition.value.reason == (if result.Failing? then "DBSyncFailed" else "DBSyncInProgress")
  {
    var (jobs, r) := Run(s.jobs, JobName(p.instance, DB_SYNC), p.sync, f.sync);
    var check := JobName(p.instance, SCHEMA_CHECK);
    DoneMeansSucceeded(s.jobs, JobName(p.instance, DB_SYNC), p.sync, f.sync);
    RunTouchesOnlyStale(s.jobs, JobName(p.instance, DB_SYNC), p.sync, f.sync);
    PhaseNamesDiffer(p.instance);
    assert (jobs.objects - {JobName(p.instance, DB_SYNC)}).Keys == (s.jobs.objects - {JobName(p.instance, DB_SYNC)}).Keys;
    assert check in jobs.objects <==> check in s.jobs.objects;
    if check in jobs.objects {
      assert (jobs.objects - {JobName(p.instance, DB_SYNC)})[check] == jobs.objects[check];
      assert (s.jobs.objects - {JobName(p.instance, DB_SYNC)})[check] == s.jobs.objects[check];
    }
    var c := if r.error.Some? then Cond(p, False, SYNC_FAILED.0, SYNC_FAILED.1 + Text(r.error.value))
             else Cond(p, False, SYNC_RUNNING.0, SYNC_RUNNING.1);
    SetThenGet(s.conditions, c, now, p.conditionType);
  }

  /** Success or failure, a terminal Job that was observed is recorded, unless
      the patch fails. */
  lemma TerminalIsRecorded(o: Owner, suffix: string, observed: Object<Job>, patchFails: bool)
    requires Terminal(observed.body)
    ensures
      var o' := Recorded(o, suffix, Some(observed), patchFails);
      && (!patchFails ==> suffix in o'.annotations && o'.annotations[suffix] == observed.uid)
      && (o'.records == o.records
          || (&& o'.records == o.records + [o'.records[|o.records|]]
              && o'.records[|o.records|].uid == observed.uid && o'.records[|o.records|].duration >= 0
              && (o'.records[|o.records|].succeeded ==> Holds(observed.body, JobComplete))
              && (!o'.records[|o.records|].succeeded ==> Holds(observed.body, JobFailed))))
  {
    TerminalOfTerminal(observed.body.conditions, observed.body);
    TerminalOfHolds(observed.body.conditions, observed.body);
  }

  lemma {:induction false} TerminalOfHolds(cs: seq<JobCondition>, j: Job)
    requires j.conditions == cs
    ensures TerminalOf(cs).Some? ==> Holds(j, if TerminalOf(cs).value.0 then JobComplete else JobFailed)
    decreases |cs|
  {
    if cs != [] && TerminalOf(cs).Some? {
      if cs[0].status == True && cs[0].kind in {JobComplete, JobFailed} {
        assert j.conditions[0].status == True;
      } else {
        var rest := j.(conditions := cs[1..]);
        TerminalOfHolds(cs[1..], rest);
        var kind := if TerminalOf(cs).value.0 then JobComplete else JobFailed;
        var i :| 0 <= i < |cs[1..]| && cs[1..][i].kind == kind && cs[1..][i].status == True;
        assert j.conditions[i + 1].kind == kind;
      }
    }
  }
}
