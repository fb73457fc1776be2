/** The runner, the recorder and the db-sync flow, case by case: what each does
    to a Job in each state, with each call failing, and what the condition then
    says. */
module JobLaws {
  import opened Options
  import opened Kube
  import opened Conditions
  import opened Jobs

  /* ---- The runner ---- */

  /** Some condition of this type is True. */
  ghost predicate Shows(j: Job, kind: JobConditionType) {
    exists c :: c in j.conditions && c.kind == kind && c.status == True
  }

  lemma ShowsHolds(j: Job, kind: JobConditionType)
    ensures Shows(j, kind) <==> Holds(j, kind)
  {
    if Holds(j, kind) {
      var i :| 0 <= i < |j.conditions| && j.conditions[i].kind == kind && j.conditions[i].status == True;
      assert j.conditions[i] in j.conditions;
    }
  }

  /** Complete or failed under another key. */
  ghost predicate Stale(j: Job, key: string) { (Shows(j, JobComplete) || Shows(j, JobFailed)) && j.key != key }

  /** The Job as it is once a held one is deleted. */
  ghost predicate Going(jobs: Store<Job>, name: string, seen: Object<Job>) {
    name in jobs.objects && jobs.objects[name].uid == seen.uid && jobs.objects[name].body == seen.body.(deleting := true)
  }

  /** A new Job of this template is under the name, and nothing else has moved. */
  ghost predicate Fresh(before: Store<Job>, after: Store<Job>, name: string, job: Job) {
    && name in after.objects && after.objects[name].body == job && after.objects[name].uid == before.clock
    && after.objects - {name} == before.objects - {name}
  }

  /** An absent Job is created; a running one is waited for; a failed one of the
      wanted key is an error and a completed one is done; one of another key goes,
      and is replaced at once unless a finalizer holds it. */
  lemma RunDecides(jobs: Store<Job>, name: string, job: Job)
    ensures
      var (jobs', r) := Run(jobs, name, job, None);
      if name !in jobs.objects then Fresh(jobs, jobs', name, job) && r == RunResult(false, None, None)
      else
        var seen := jobs.objects[name];
        var failed, complete := Shows(seen.body, JobFailed), Shows(seen.body, JobComplete);
        && r.observed == Some(seen)
        && (r.done <==> complete && !failed && seen.body.key == job.key)
        && (r.error == if failed && seen.body.key == job.key then Some(JobHasFailed) else None)
        && (!Stale(seen.body, job.key) ==> jobs' == jobs)
        && (Stale(seen.body, job.key) && !seen.body.held ==> Fresh(jobs, jobs', name, job))
        && (Stale(seen.body, job.key) && seen.body.held ==>
              Going(jobs', name, seen) && jobs'.objects - {name} == jobs.objects - {name})
  {
    if name in jobs.objects {
      ShowsHolds(jobs.objects[name].body, JobFailed);
      ShowsHolds(jobs.objects[name].body, JobComplete);
    }
  }

  /** The run makes the call: it always reads, deletes a stale Job, and creates
      where there is none or a stale one. */
  ghost predicate Makes(jobs: Store<Job>, name: string, key: string, call: JobCall) {
    match call
    case GetJob => true
    case DeleteJob => name in jobs.objects && Stale(jobs.objects[name].body, key)
    case CreateJob => name !in jobs.objects || Stale(jobs.objects[name].body, key)
  }

  /** A failing call is the run's error exactly when the run makes it; a failing
      read or delete leaves the Jobs alone, a failing create leaves the stale one
      deleted. */
  lemma RunFails(jobs: Store<Job>, name: string, job: Job, call: JobCall)
    ensures
      var (jobs', r) := Run(jobs, name, job, Some(call));
      if !Makes(jobs, name, job.key, call) then (jobs', r) == Run(jobs, name, job, None)
      else
        && !r.done && r.error == Some(CallFailed(call))
        && r.observed == (if call.GetJob? || name !in jobs.objects then None else Some(jobs.objects[name]))
        && (call.GetJob? || call.DeleteJob? || name !in jobs.objects ==> jobs' == jobs)
        && (call.CreateJob? && name in jobs.objects ==>
              && jobs'.objects - {name} == jobs.objects - {name}
              && (if jobs.objects[name].body.held then Going(jobs', name, jobs.objects[name]) else name !in jobs'.objects))
  {
    if name in jobs.objects {
      ShowsHolds(jobs.objects[name].body, JobFailed);
      ShowsHolds(jobs.objects[name].body, JobComplete);
    }
  }

  /* ---- The recorder ---- */

  predicate IsTerminal(c: JobCondition) { c.status == True && (c.kind == JobComplete || c.kind == JobFailed) }

  lemma {:induction false} TerminalOfFirst(cs: seq<JobCondition>, i: nat)
    requires i < |cs| && IsTerminal(cs[i]) && forall k :: 0 <= k < i ==> !IsTerminal(cs[k])
    ensures TerminalOf(cs) == Some((cs[i].kind == JobComplete, cs[i].at))
    decreases i
  {
    if i > 0 {
      assert !IsTerminal(cs[0]);
      assert cs[1..][i - 1] == cs[i];
      TerminalOfFirst(cs[1..], i - 1);
    }
  }

  lemma {:induction false} TerminalOfNone(cs: seq<JobCondition>)
    requires forall k :: 0 <= k < |cs| ==> !IsTerminal(cs[k])
    ensures TerminalOf(cs) == None
  {
    if cs != [] {
      assert !IsTerminal(cs[0]);
      TerminalOfNone(cs[1..]);
    }
  }

  /** The first terminal condition is recorded once per Job uid: outcome, and the
      time from creation, never negative. A failed patch and a uid already noted
      record nothing. */
  lemma RecordsFirstTerminal(o: Owner, suffix: string, seen: Object<Job>, i: nat, patchFails: bool)
    requires i < |seen.body.conditions| && IsTerminal(seen.body.conditions[i])
    requires forall k :: 0 <= k < i ==> !IsTerminal(seen.body.conditions[k])
    ensures
      var o' := Recorded(o, suffix, Some(seen), patchFails);
      var c := seen.body.conditions[i];
      if patchFails || (suffix in o.annotations && o.annotations[suffix] == seen.uid) then o' == o
      else
        && o'.annotations == o.annotations[suffix := seen.uid]
        && |o'.records| == |o.records| + 1 && o.records < o'.records
        && var r := o'.records[|o.records|];
        && r.suffix == suffix && r.uid == seen.uid && (r.succeeded <==> c.kind == JobComplete)
        && r.duration >= 0 && (c.at >= seen.body.createdAt ==> seen.body.createdAt + r.duration == c.at)
        && (c.at < seen.body.createdAt ==> r.duration == 0)
  {
    TerminalOfFirst(seen.body.conditions, i);
  }

  /** Nothing observed, or nothing terminal, records nothing. */
  lemma RecordsNothingElse(o: Owner, suffix: string, observed: Option<Object<Job>>, patchFails: bool)
    requires observed.Some? ==> forall k :: 0 <= k < |observed.value.body.conditions| ==> !IsTerminal(observed.value.body.conditions[k])
    ensures Recorded(o, suffix, observed, patchFails) == o
  {
    if observed.Some? { TerminalOfNone(observed.value.body.conditions); }
  }

  /* ---- The flow ---- */

  /** The Job is there, complete, not failed, and carries the key. */
  ghost predicate HasSucceeded(jobs: Store<Job>, name: string, key: string) {
    && name in jobs.objects && jobs.objects[name].body.key == key
    && Shows(jobs.objects[name].body, JobComplete) && !Shows(jobs.objects[name].body, JobFailed)
  }

  lemma DoneIsSucceeded(jobs: Store<Job>, name: string, job: Job, fault: Option<JobCall>)
    ensures Run(jobs, name, job, fault).1.done <==> fault != Some(GetJob) && HasSucceeded(jobs, name, job.key)
    ensures Run(jobs, name, job, fault).1.done ==> Run(jobs, name, job, fault).0 == jobs && Run(jobs, name, job, fault).1.error == None
  {
    if name in jobs.objects {
      ShowsHolds(jobs.objects[name].body, JobFailed);
      ShowsHolds(jobs.objects[name].body, JobComplete);
    }
  }

  ghost predicate Says(cs: seq<Condition>, p: SyncParams, status: ConditionStatus, reason: string, message: string) {
    var c := GetCondition(cs, p.conditionType);
    && c.Some? && c.value.kind == p.conditionType && c.value.generation == p.generation
    && c.value.status == status && c.value.reason == reason && c.value.message == message
  }

  lemma SetSays(cs: seq<Condition>, p: SyncParams, status: ConditionStatus, reason: string, message: string, now: nat)
    ensures Says(SetCondition(cs, Cond(p, status, reason, message), now), p, status, reason, message)
  {
    SetThenGet(cs, Cond(p, status, reason, message), now, p.conditionType);
  }

  /** What a phase that is not done makes the flow return. */
  function StopsWith(r: RunResult, requeueAfter: nat): FlowResult {
    if r.error == None then Requeue(requeueAfter) else Failing(r.error.value)
  }

  function Noted(p: SyncParams, o: Owner, suffix: string, observed: Option<Object<Job>>, patchFails: bool): Owner {
    if p.records then Recorded(o, suffix, observed, patchFails) else o
  }

  /** As long as db-sync is not done the flow does what its run does, and the
      condition speaks of db-sync: failed where it returns an error, in progress
      where it requeues. */
  lemma SyncPhaseReports(s: SyncState, p: SyncParams, f: SyncFaults, now: nat)
    requires f.sync == Some(GetJob) || !HasSucceeded(s.jobs, p.instance + "-db-sync", p.sync.key)
    ensures
      var (s', result) := SyncPass(s, p, f, now);
      var (jobs, r) := Run(s.jobs, p.instance + "-db-sync", p.sync, f.sync);
      && s'.jobs == jobs && s'.installed == s.installed && s'.owner == Noted(p, s.owner, "db-sync", r.observed, f.syncPatch)
      && result == StopsWith(r, p.requeueAfter)
      && (result.Failing? ==> Says(s'.conditions, p, False, "DBSyncFailed", "db_sync job failed: " + Text(result.error)))
      && (result.Requeue? ==> Says(s'.conditions, p, False, "DBSyncInProgress", "db_sync job is running"))
  {
    var name := p.instance + "-db-sync";
    assert name == JobName(p.instance, DB_SYNC);
    DoneIsSucceeded(s.jobs, name, p.sync, f.sync);
    var r := Run(s.jobs, name, p.sync, f.sync).1;
    if r.error.Some? {
      SetSays(s.conditions, p, False, "DBSyncFailed", "db_sync job failed: " + Text(r.error.value), now);
    } else {
      SetSays(s.conditions, p, False, "DBSyncInProgress", "db_sync job is running", now);
    }
  }

  /** Once db-sync has succeeded and a check is configured, the flow does what
      the check's run does: a failing check is reported as drift, one that has not
      succeeded yet as in progress. */
  lemma CheckPhaseReports(s: SyncState, p: SyncParams, f: SyncFaults, now: nat)
    requires f.sync != Some(GetJob) && HasSucceeded(s.jobs, p.instance + "-db-sync", p.sync.key)
    requires p.schemaCheck.Some?
    requires f.check == Some(GetJob) || !HasSucceeded(s.jobs, p.instance + "-schema-check", p.schemaCheck.value.key)
    ensures
      var (s', result) := SyncPass(s, p, f, now);
      var synced := Some(s.jobs.objects[p.instance + "-db-sync"]);
      var (jobs, r) := Run(s.jobs, p.instance + "-schema-check", p.schemaCheck.value, f.check);
      && s'.jobs == jobs && s'.installed == s.installed
      && s'.owner == Noted(p, Noted(p, s.owner, "db-sync", synced, f.syncPatch), "schema-check", r.observed, f.checkPatch)
      && result == StopsWith(r, p.requeueAfter)
      && (result.Failing? ==> Says(s'.conditions, p, False, "SchemaDriftDetected", "schema-check job failed: " + Text(result.error)))
      && (result.Requeue? ==> Says(s'.conditions, p, False, "SchemaCheckInProgress", "schema-check job is running"))
  {
    var name, check := p.instance + "-db-sync", p.instance + "-schema-check";
    assert name == JobName(p.instance, DB_SYNC) && check == JobName(p.instance, SCHEMA_CHECK);
    DoneIsSucceeded(s.jobs, name, p.sync, f.sync);
    DoneIsSucceeded(s.jobs, check, p.schemaCheck.value, f.check);
    var r := Run(s.jobs, check, p.schemaCheck.value, f.check).1;
    if r.error.Some? {
      SetSays(s.conditions, p, False, "SchemaDriftDetected", "schema-check job failed: " + Text(r.error.value), now);
    } else {
      SetSays(s.conditions, p, False, "SchemaCheckInProgress", "schema-check job is running", now);
    }
  }

  /** With both succeeded the flow settles, reports the schema synced, promotes
      the tag if there is one to keep track of, and writes no Job. */
  lemma SettledReports(s: SyncState, p: SyncParams, f: SyncFaults, now: nat)
    requires f.sync != Some(GetJob) && HasSucceeded(s.jobs, p.instance + "-db-sync", p.sync.key)
    requires p.schemaCheck.Some? ==>
               f.check != Some(GetJob) && HasSucceeded(s.jobs, p.instance + "-schema-check", p.schemaCheck.value.key)
    ensures
      var (s', result) := SyncPass(s, p, f, now);
      var synced := Noted(p, s.owner, "db-sync", Some(s.jobs.objects[p.instance + "-db-sync"]), f.syncPatch);
      && result == Settled && s'.jobs == s.jobs
      && (p.schemaCheck == None ==> s'.owner == synced)
      && (p.schemaCheck.Some? ==>
            s'.owner == Noted(p, synced, "schema-check", Some(s.jobs.objects[p.instance + "-schema-check"]), f.checkPatch))
      && (p.tracks && p.imageTag != "" ==> s'.installed == p.imageTag)
      && (!p.tracks || p.imageTag == "" ==> s'.installed == s.installed)
      && Says(s'.conditions, p, True, "DatabaseSynced", "Database schema is up to date (revision verified)")
  {
    var name, check := p.instance + "-db-sync", p.instance + "-schema-check";
    assert name == JobName(p.instance, DB_SYNC) && check == JobName(p.instance, SCHEMA_CHECK);
    DoneIsSucceeded(s.jobs, name, p.sync, f.sync);
    if p.schemaCheck.Some? { DoneIsSucceeded(s.jobs, check, p.schemaCheck.value, f.check); }
    SetSays(s.conditions, p, True, "DatabaseSynced", "Database schema is up to date (revision verified)", now);
  }
}
