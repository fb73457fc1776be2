/** What holds between completions: a world where nothing waits has the last
    valid payload on the target, and one undisturbed pass leads there. */
module RotationConvergence {
  import opened Options
  import opened Kube
  import opened Rotation
  import opened RotationProtocol

  /** No completed payload waits on the staging Secret. */
  ghost predicate Quiet(c: Config, w: World) {
    c.staging in w.store.objects ==> StampOf(w.store.objects[c.staging].body) == ""
  }

  /** The position of the last payload a CronJob run completed. */
  function LastCompleted(staged: seq<Payload>): (r: Option<nat>)
    ensures r.Some? ==> r.value < |staged| && staged[r.value].stamp != ""
    ensures forall i :: 0 <= i < |staged| && staged[i].stamp != "" ==> r.Some? && i <= r.value
  {
    if staged == [] then None
    else if staged[|staged| - 1].stamp != "" then Some(|staged| - 1)
    else LastCompleted(staged[..|staged| - 1])
  }

  lemma LastCompletedAppend(staged: seq<Payload>, p: Payload)
    ensures LastCompleted(staged + [p]) == if p.stamp != "" then Some(|staged|) else LastCompleted(staged)
  {
    assert (staged + [p])[..|staged|] == staged;
  }

  /** The last completed payload, when it may be committed, is on the target. */
  ghost predicate Delivered(c: Config, w: World)
    requires c.target in w.store.objects
  {
    var m := LastCompleted(w.staged);
    m.Some? && Committable(c.spec, w.staged[m.value]) ==> TargetPayload(c, w) == w.staged[m.value]
  }

  ghost predicate Lasting(c: Config, w: World) {
    c.target in w.store.objects && (Quiet(c, w) ==> Delivered(c, w))
  }

  lemma StagingWriteLasting(c: Config, w: World, s: Store<Secret>)
    requires Recorded(c, w) && Lasting(c, w) && StagingWrite(c, w, s)
    requires Quiet(c, w) || StampOf(s.objects[c.staging].body) != ""
          || !Committable(c.spec, PayloadOf(w.store.objects[c.staging].body))
    ensures Lasting(c, Record(c, w, s))
  {
    LastCompletedAppend(w.staged, PayloadOf(s.objects[c.staging].body));
  }

  lemma CommitLasting(c: Config, w: World, t: Object<Secret>, o: Object<Secret>)
    requires Recorded(c, w) && Committed(c, w) && Committing(c, w, t, o) && Lasting(c, w)
    ensures Lasting(c, CommitTo(c, w, t, o))
  {
    var m := LastCompleted(w.staged);
    assert m.Some? && w.index[o.rv] <= m.value;
  }

  lemma RemoveLasting(c: Config, w: World, pass: Pass, fault: bool)
    requires Recorded(c, w) && Lasting(c, w) && pass.Deleting? && PassOk(c, w, pass)
    ensures Lasting(c, w.(store := CommitDelete(w.store, c.staging, pass.staging, fault).0))
  {
    var m := LastCompleted(w.staged);
    if !Quiet(c, w) { assert m == Some(|w.staged| - 1); }
  }

  lemma SameLasting(c: Config, w: World, w': World)
    requires Lasting(c, w) && w'.store == w.store && w'.staged == w.staged
    ensures Lasting(c, w')
  {
  }

  lemma EnsureLasting(c: Config, w: World, pass: Pass)
    requires Recorded(c, w) && Committed(c, w) && Lasting(c, w) && pass.Ensuring? && PassOk(c, w, pass)
    requires EnsureWrite(w.store, c.staging, pass.seen, c.labels, c.owner).1 == Ok
    ensures Lasting(c, Record(c, w, EnsureWrite(w.store, c.staging, pass.seen, c.labels, c.owner).0))
  {
    var s := EnsureWrite(w.store, c.staging, pass.seen, c.labels, c.owner).0;
    EnsuredSnapshot(c, w, pass.target, pass.seen);
    if s == w.store { assert Record(c, w, s) == w; } else { StagingWriteLasting(c, w, s); }
  }

  lemma RejectLasting(c: Config, w: World, p: Pass, faults: Faults)
    requires Inv(c, w) && Lasting(c, w) && p.GotStaging? && PassOk(c, w, p)
    requires Decide(c.spec, p.staging.body, p.target.body) == Reject
    ensures
      var s := CommitWrite(w.store, c.staging, c.target, p.staging, p.target, c.spec, faults).0;
      Lasting(c, Record(c, w, s))
  {
    var s := CommitWrite(w.store, c.staging, c.target, p.staging, p.target, c.spec, faults).0;
    if s != w.store { StagingWriteLasting(c, w, s); } else { assert Record(c, w, s) == w; }
  }

  lemma CommitWriteLasting(c: Config, w: World, pid: nat, faults: Faults)
    requires Inv(c, w) && Lasting(c, w) && Enabled(c, w, Write(pid, faults)) && PassOk(c, w, w.passes[pid])
    requires Decide(c.spec, w.passes[pid].staging.body, w.passes[pid].target.body) == Commit
    ensures Lasting(c, Apply(c, w, Write(pid, faults)))
  {
    var p := w.passes[pid];
    var w' := Apply(c, w, Write(pid, faults));
    if pid !in w'.passes {
      SameLasting(c, w, w');
    } else {
      CommitLasting(c, w, p.target, p.staging);
      SameLasting(c, CommitTo(c, w, p.target, p.staging), w');
    }
  }

  lemma RejectWriteLasting(c: Config, w: World, pid: nat, faults: Faults)
    requires Inv(c, w) && Lasting(c, w) && Enabled(c, w, Write(pid, faults)) && PassOk(c, w, w.passes[pid])
    requires Decide(c.spec, w.passes[pid].staging.body, w.passes[pid].target.body) == Reject
    ensures Lasting(c, Apply(c, w, Write(pid, faults)))
  {
    var w' := Apply(c, w, Write(pid, faults));
    var p := w.passes[pid];
    RejectLasting(c, w, p, faults);
    assert w' == Drop(Record(c, w, CommitWrite(w.store, c.staging, c.target, p.staging, p.target, c.spec, faults).0), pid);
    SameLasting(c, Record(c, w, CommitWrite(w.store, c.staging, c.target, p.staging, p.target, c.spec, faults).0), w');
  }

  lemma IdleWriteLasting(c: Config, w: World, pid: nat, faults: Faults)
    requires Recorded(c, w) && Lasting(c, w) && Enabled(c, w, Write(pid, faults))
    requires Decide(c.spec, w.passes[pid].staging.body, w.passes[pid].target.body) in {Skip, Already}
    ensures Lasting(c, Apply(c, w, Write(pid, faults)))
  {
    assert Record(c, w, w.store) == w;
    SameLasting(c, w, Apply(c, w, Write(pid, faults)));
  }

  lemma WriteLasting(c: Config, w: World, pid: nat, faults: Faults)
    requires Inv(c, w) && Lasting(c, w) && Enabled(c, w, Write(pid, faults))
    ensures Lasting(c, Apply(c, w, Write(pid, faults)))
  {
    var p := w.passes[pid];
    assert PassOk(c, w, p);
    match Decide(c.spec, p.staging.body, p.target.body)
    case Reject => RejectWriteLasting(c, w, pid, faults);
    case Commit => CommitWriteLasting(c, w, pid, faults);
    case _ => IdleWriteLasting(c, w, pid, faults);
  }

  lemma StepLasting(c: Config, w: World, a: Action)
    requires Inv(c, w) && Lasting(c, w) && Enabled(c, w, a)
    ensures Lasting(c, Apply(c, w, a))
  {
    var w' := Apply(c, w, a);
    match a
    case EnsureFinish(pid, fault) =>
      var (s, status) := EnsureWrite(w.store, c.staging, w.passes[pid].seen, c.labels, c.owner);
      if !fault && status == Ok {
        EnsureLasting(c, w, w.passes[pid]);
        SameLasting(c, Record(c, w, s), w');
      } else {
        SameLasting(c, w, w');
      }
    case Write(pid, faults) => WriteLasting(c, w, pid, faults);
    case Remove(pid, fault) =>
      RemoveLasting(c, w, w.passes[pid], fault);
      SameLasting(c, w.(store := w'.store), w');
    case CronPatch(data, stamp) =>
      var s := w.store.Patch(c.staging, Patched(w.store.objects[c.staging].body, data, stamp)).0;
      if s != w.store { StagingWriteLasting(c, w, s); } else { assert Record(c, w, s) == w; }
    case Relabel(labels, owner) =>
      var live := w.store.objects[c.staging].body;
      var s := w.store.Patch(c.staging, live.(labels := labels, owner := owner)).0;
      if s != w.store { StagingWriteLasting(c, w, s); } else { assert Record(c, w, s) == w; }
    case _ => SameLasting(c, w, w');
  }

  lemma {:induction false} RunLasting(c: Config, run: seq<World>, k: nat)
    requires Run(c, run) && k < |run|
    ensures Inv(c, run[k]) && Lasting(c, run[k])
  {
    RunInv(c, run, k);
    if k > 0 {
      RunLasting(c, run, k - 1);
      assert Step(c, run[k - 1], run[k]);
      var a :| Enabled(c, run[k - 1], a) && run[k] == Apply(c, run[k - 1], a);
      StepLasting(c, run[k - 1], a);
    }
  }

  /** Once nothing completed is waiting, no operator step brings it back, and
      the last completed payload stays the last. */
  lemma StepQuiet(c: Config, w: World, a: Action)
    requires Inv(c, w) && Quiet(c, w) && Enabled(c, w, a) && !a.CronPatch?
    ensures Quiet(c, Apply(c, w, a))
  {
    StoreStep(c, w, a);
    match a
    case EnsureFinish(pid, _) =>
      assert PassOk(c, w, w.passes[pid]);
      EnsureQuiet(c, w, w.passes[pid]);
    case Write(pid, faults) => WriteQuiet(c, w, w.passes[pid], faults);
    case _ =>
  }

  lemma EnsureQuiet(c: Config, w: World, p: Pass)
    requires Recorded(c, w) && c.target in w.store.objects && PassOk(c, w, p) && p.Ensuring? && Quiet(c, w)
    ensures Quiet(c, w.(store := EnsureWrite(w.store, c.staging, p.seen, c.labels, c.owner).0))
  {
    if c.staging in w.store.objects {
      EnsureKeeps(c, w, p, PayloadOf(w.store.objects[c.staging].body));
    }
  }

  lemma WriteQuiet(c: Config, w: World, p: Pass, faults: Faults)
    requires c.staging != c.target && Quiet(c, w) && p.GotStaging?
    ensures Quiet(c, w.(store := CommitWrite(w.store, c.staging, c.target, p.staging, p.target, c.spec, faults).0))
  {
  }

  /** The last payload a CronJob run completed. */
  function LastPayload(w: World): Option<Payload> {
    var m := LastCompleted(w.staged);
    if m == None then None else Some(w.staged[m.value])
  }

  /** Settled on a payload: nothing waits, it was the last one completed, and the
      target holds it. */
  ghost predicate SettledOn(c: Config, w: World, p: Payload) {
    && c.target in w.store.objects && Inv(c, w) && Lasting(c, w) && Quiet(c, w)
    && LastPayload(w) == Some(p) && TargetPayload(c, w) == p
  }

  /** What a quiet world stages is not a completed payload. */
  lemma NothingNewCompleted(c: Config, w: World, w': World)
    requires Extends(c, w, w') && Quiet(c, w')
    ensures LastPayload(w') == LastPayload(w)
  {
    forall i | |w.staged| <= i < |w'.staged| ensures w'.staged[i].stamp == "" {
      assert Holds(c, w', w'.staged[i]);
    }
  }

  /** The first three calls of a pass that nothing disturbs: the target read, the
      staging read, and the ensure. */
  function Begin(c: Config, w: World, pid: nat): World
    requires pid !in w.passes && c.target in w.store.objects
  {
    var w1 := Apply(c, w, ReadTarget(pid));
    var w2 := Apply(c, w1, EnsureRead(pid));
    Apply(c, w2, EnsureFinish(pid, false))
  }

  /** The commit that follows: the write and, if it is due, the delete. */
  function Finish(c: Config, w: World, pid: nat): World
    requires Enabled(c, w, Write(pid, NO_FAULTS))
  {
    var w' := Apply(c, w, Write(pid, NO_FAULTS));
    if Enabled(c, w', Remove(pid, false)) then Apply(c, w', Remove(pid, false)) else w'
  }

  const NO_FAULTS := Faults(false, false, false)

  lemma BeginReads(c: Config, w: World, pid: nat)
    requires pid !in w.passes && c.target in w.store.objects && c.staging != c.target
    requires c.staging in w.store.objects && (w.store.objects[c.staging].body.owner in {None, Some(c.owner)})
    ensures
      var w' := Begin(c, w, pid);
      && pid in w'.passes && c.target in w'.store.objects && c.staging in w'.store.objects
      && w'.store.objects[c.target] == w.store.objects[c.target]
      && PayloadOf(w'.store.objects[c.staging].body) == PayloadOf(w.store.objects[c.staging].body)
      && w'.passes[pid] == GotStaging(w'.store.objects[c.target], w'.store.objects[c.staging])
  {
  }

  /** Undisturbed, the two commit calls are the sequential CommitStaged. */
  lemma FinishIsCommitStaged(c: Config, w: World, pid: nat)
    requires Enabled(c, w, Write(pid, NO_FAULTS))
    ensures
      var p := w.passes[pid];
      var (s, applied, err) := CommitRun(w.store, c.staging, c.target, p.staging, p.target, c.spec, NO_FAULTS);
      && Finish(c, w, pid).store == s
      && (applied <==> Finish(c, w, pid).reports == w.reports + [PayloadOf(p.staging.body)])
  {
    assert |w.reports + [PayloadOf(w.passes[pid].staging.body)]| > |w.reports|;
  }

  /** CommitStaged on the live objects: the payload moves. */
  lemma CommitStagedDelivers(c: Config, store: Store<Secret>)
    requires c.staging != c.target && c.staging in store.objects && c.target in store.objects
    requires Committable(c.spec, PayloadOf(store.objects[c.staging].body))
    ensures
      var s := CommitRun(store, c.staging, c.target, store.objects[c.staging], store.objects[c.target], c.spec, NO_FAULTS).0;
      && c.staging !in s.objects && c.target in s.objects
      && PayloadOf(s.objects[c.target].body) == PayloadOf(store.objects[c.staging].body)
  {
  }

  lemma BeginInv(c: Config, w: World, pid: nat)
    requires Inv(c, w) && pid !in w.passes
    ensures Inv(c, Begin(c, w, pid))
  {
    var w1 := Apply(c, w, ReadTarget(pid));
    StepInv(c, w, ReadTarget(pid));
    StepInv(c, w1, EnsureRead(pid));
    StepInv(c, Apply(c, w1, EnsureRead(pid)), EnsureFinish(pid, false));
  }

  ghost predicate LiveKnown(c: Config, w: World) {
    c.staging in w.store.objects ==> w.store.objects[c.staging].rv in w.index
  }

  /** From any reachable world, one undisturbed pass puts a waiting committable
      payload on the target and removes it from staging. */
  lemma OnePassDelivers(c: Config, run: seq<World>, k: nat, pid: nat, p: Payload)
    requires Run(c, run) && k < |run| && pid !in run[k].passes && Holds(c, run[k], p) && Committable(c.spec, p)
    requires run[k].store.objects[c.staging].body.owner in {None, Some(c.owner)}
    ensures c.target in run[k].store.objects
    ensures Enabled(c, Begin(c, run[k], pid), Write(pid, NO_FAULTS))
    ensures
      var w' := Finish(c, Begin(c, run[k], pid), pid);
      c.staging !in w'.store.objects && c.target in w'.store.objects && TargetPayload(c, w') == p
  {
    RunInv(c, run, k);
    BeginInv(c, run[k], pid);
    BeginReads(c, run[k], pid);
    var w := Begin(c, run[k], pid);
    assert LiveKnown(c, w);
    FinishIsCommitStaged(c, w, pid);
    CommitStagedDelivers(c, w.store);
  }

  /** The whole undisturbed pass. */
  function OnePass(c: Config, w: World, pid: nat): World
    requires pid !in w.passes && c.target in w.store.objects
  {
    var w1 := Begin(c, w, pid);
    if Enabled(c, w1, Write(pid, NO_FAULTS)) then Finish(c, w1, pid) else w1
  }

  /** An undisturbed pass over a waiting payload stages nothing. */
  lemma BeginStages(c: Config, w: World, pid: nat)
    requires Recorded(c, w) && pid !in w.passes && c.target in w.store.objects && c.staging in w.store.objects
    requires w.store.objects[c.staging].body.owner in {None, Some(c.owner)}
    ensures Begin(c, w, pid).staged == w.staged
  {
    BeginReads(c, w, pid);
  }

  lemma FinishStages(c: Config, w: World, pid: nat)
    requires Enabled(c, w, Write(pid, NO_FAULTS)) && Committable(c.spec, PayloadOf(w.passes[pid].staging.body))
    requires Recorded(c, w)
    ensures Finish(c, w, pid).staged == w.staged
  {
    assert LiveKnown(c, w);
    assert LiveKnown(c, Apply(c, w, Write(pid, NO_FAULTS)));
  }

  lemma BeginLasting(c: Config, w: World, pid: nat)
    requires Inv(c, w) && Lasting(c, w) && pid !in w.passes
    ensures Inv(c, Begin(c, w, pid)) && Lasting(c, Begin(c, w, pid))
  {
    BeginInv(c, w, pid);
    var w1 := Apply(c, w, ReadTarget(pid));
    StepInv(c, w, ReadTarget(pid));
    StepInv(c, w1, EnsureRead(pid));
    StepLasting(c, w, ReadTarget(pid));
    StepLasting(c, w1, EnsureRead(pid));
    StepLasting(c, Apply(c, w1, EnsureRead(pid)), EnsureFinish(pid, false));
  }

  lemma FinishLasting(c: Config, w: World, pid: nat)
    requires Inv(c, w) && Lasting(c, w) && Enabled(c, w, Write(pid, NO_FAULTS))
    ensures Inv(c, Finish(c, w, pid)) && Lasting(c, Finish(c, w, pid))
  {
    var w1 := Apply(c, w, Write(pid, NO_FAULTS));
    StepInv(c, w, Write(pid, NO_FAULTS));
    StepLasting(c, w, Write(pid, NO_FAULTS));
    if Enabled(c, w1, Remove(pid, false)) {
      StepInv(c, w1, Remove(pid, false));
      StepLasting(c, w1, Remove(pid, false));
    }
  }

  /** The payload on the staging Secret is the last one completed. */
  lemma HeldIsLast(c: Config, w: World, p: Payload)
    requires Recorded(c, w) && Holds(c, w, p) && p.stamp != ""
    ensures LastPayload(w) == Some(p)
  {
    assert w.staged[|w.staged| - 1] == p;
  }

  /** An undisturbed pass from any reachable world with a valid payload waiting
      settles it. */
  lemma OnePassSettles(c: Config, run: seq<World>, k: nat, pid: nat, p: Payload)
    requires Run(c, run) && k < |run| && pid !in run[k].passes && Holds(c, run[k], p) && Committable(c.spec, p)
    requires run[k].store.objects[c.staging].body.owner in {None, Some(c.owner)}
    ensures c.target in run[k].store.objects && SettledOn(c, OnePass(c, run[k], pid), p)
  {
    RunLasting(c, run, k);
    OnePassDelivers(c, run, k, pid, p);
    var w := Begin(c, run[k], pid);
    BeginLasting(c, run[k], pid);
    BeginReads(c, run[k], pid);
    BeginStages(c, run[k], pid);
    FinishLasting(c, w, pid);
    FinishStages(c, w, pid);
    HeldIsLast(c, run[k], p);
  }
}
