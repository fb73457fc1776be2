/** Terminal metrics across crashes and failed patches: each Job is recorded at
    most once per phase. */
module JobRecords {
  import opened Options
  import opened Kube
  import opened Conditions
  import opened Jobs
  import opened JobProtocol

  /** The annotation names no newer Job than `uid`. */
  ghost predicate Covers(o: Owner, suffix: string, uid: nat) {
    suffix in o.annotations ==> o.annotations[suffix] <= uid
  }

  ghost predicate RecordsOk(o: Owner) {
    && (forall i :: 0 <= i < |o.records| ==>
          o.records[i].suffix in o.annotations && o.records[i].uid <= o.annotations[o.records[i].suffix])
    && (forall i, j :: 0 <= i < j < |o.records| && o.records[i].suffix == o.records[j].suffix ==>
          o.records[i].uid != o.records[j].uid)
  }

  /** The store's Jobs are no older than the annotations. */
  ghost predicate UidsOk(w: World) {
    && (forall n :: n in w.owner.annotations ==> w.owner.annotations[n] < w.jobs.clock)
    && (forall n :: n in w.jobs.objects ==> w.jobs.objects[n].uid < w.jobs.clock && Covers(w.owner, n, w.jobs.objects[n].uid))
  }

  ghost predicate SeenOk(w: World, name: string, seen: Object<Job>) {
    && seen.uid < w.jobs.clock && Covers(w.owner, name, seen.uid)
    && (name in w.jobs.objects ==> seen.uid <= w.jobs.objects[name].uid)
  }

  ghost predicate PassOk(w: World, p: Pass) {
    match p.pc
    case Deleting(name, seen) => SeenOk(w, name, seen)
    case Creating(name, saw) => saw.Some? ==> SeenOk(w, name, saw.value)
    case Patching(name, seen, _) => SeenOk(w, name, seen)
    case Emitting(name, seen, record, _) =>
      && SeenOk(w, name, seen) && record.suffix == name && record.uid == seen.uid
      && name in w.owner.annotations && w.owner.annotations[name] == seen.uid
      && (forall i :: 0 <= i < |w.owner.records| && w.owner.records[i].suffix == name ==> w.owner.records[i].uid < seen.uid)
    case _ => true
  }

  ghost predicate RecordInv(w: World) {
    RecordsOk(w.owner) && UidsOk(w) && (w.pass.Some? ==> PassOk(w, w.pass.value))
  }

  lemma ClusterKeepsRecords(check: bool, w: World, a: Action)
    requires RecordInv(w) && Enabled(w, a) && (a.AddCondition? || a.Finalise? || a.ExternalDelete? || a.Edit? || a.Begin?)
    ensures RecordInv(Apply(check, w, a))
  {
    assert Apply(check, w, a).owner == w.owner;
  }

  lemma GetKeepsRecords(check: bool, w: World)
    requires RecordInv(w) && Enabled(w, Get)
    ensures RecordInv(Apply(check, w, Get))
  {
    var w' := Apply(check, w, Get);
    assert w'.owner == w.owner && w'.jobs == w.jobs;
    var name := w.pass.value.pc.name;
    if name in w.jobs.objects { assert SeenOk(w', name, w.jobs.objects[name]); }
  }

  lemma DeleteKeepsRecords(check: bool, w: World)
    requires RecordInv(w) && Enabled(w, Delete)
    ensures RecordInv(Apply(check, w, Delete))
  {
    var w' := Apply(check, w, Delete);
    assert w'.owner == w.owner && w'.jobs.clock >= w.jobs.clock && w'.jobs.objects.Keys <= w.jobs.objects.Keys;
    assert forall n :: n in w'.jobs.objects ==> w'.jobs.objects[n].uid == w.jobs.objects[n].uid;
    assert SeenOk(w', w.pass.value.pc.name, w.pass.value.pc.seen);
  }

  /** A replacement is newer than anything an annotation can name. */
  lemma CreateKeepsRecords(check: bool, w: World, held: bool)
    requires RecordInv(w) && Enabled(w, Create(held))
    ensures RecordInv(Apply(check, w, Create(held)))
  {
    var w' := Apply(check, w, Create(held));
    var pc := w.pass.value.pc;
    assert w'.owner == w.owner && w'.jobs.clock >= w.jobs.clock;
    assert forall n :: n in w'.jobs.objects ==>
        (n in w.jobs.objects && w'.jobs.objects[n] == w.jobs.objects[n]) || w'.jobs.objects[n].uid == w.jobs.clock;
    if pc.saw.Some? { assert SeenOk(w', pc.name, pc.saw.value); }
  }

  lemma OwedIsNew(o: Owner, suffix: string, seen: Object<Job>)
    requires Owed(o, suffix, Some(seen)).Some?
    ensures
      var r := Owed(o, suffix, Some(seen)).value;
      && r.suffix == suffix && r.uid == seen.uid
      && (suffix in o.annotations ==> o.annotations[suffix] != seen.uid)
  {
  }

  lemma ContinueIsFresh(check: bool, w: World, p: Pass, name: string, end: PhaseEnd)
    ensures var next := Continue(check, p, name, end); next.Some? ==> PassOk(w, next.value)
  {
  }

  lemma PatchKeepsRecords(check: bool, w: World)
    requires RecordInv(w) && Enabled(w, Patch)
    ensures RecordInv(Apply(check, w, Patch))
  {
    var w' := Apply(check, w, Patch);
    var p := w.pass.value;
    var owed := Owed(w.owner, p.pc.name, Some(p.pc.seen));
    ContinueIsFresh(check, w', p, p.pc.name, p.pc.end);
    if owed.Some? {
      OwedIsNew(w.owner, p.pc.name, p.pc.seen);
      assert w'.owner.annotations == w.owner.annotations[p.pc.name := p.pc.seen.uid];
      assert w'.owner.records == w.owner.records && w'.jobs == w.jobs;
      assert SeenOk(w', p.pc.name, p.pc.seen);
    } else {
      assert w'.owner == w.owner && w'.jobs == w.jobs;
    }
  }

  lemma EmitKeepsRecords(check: bool, w: World)
    requires RecordInv(w) && Enabled(w, Emit)
    ensures RecordInv(Apply(check, w, Emit))
  {
    var w' := Apply(check, w, Emit);
    var p := w.pass.value;
    ContinueIsFresh(check, w', p, p.pc.name, p.pc.end);
    assert w'.owner == Owner(w.owner.annotations, w.owner.records + [p.pc.record]) && w'.jobs == w.jobs;
  }

  lemma SkipKeepsRecords(check: bool, w: World, a: Action)
    requires RecordInv(w) && w.pass.Some? && AtPc(w, a)
    requires a.GetFails? || a.DeleteFails? || a.CreateFails? || a.PatchFails? || a.PromoteTag? || a.Crash?
    ensures RecordInv(Apply(check, w, a))
  {
    var w' := Apply(check, w, a);
    var p := w.pass.value;
    assert w'.owner == w.owner && w'.jobs == w.jobs;
    if a.PatchFails? { ContinueIsFresh(check, w', p, p.pc.name, p.pc.end); }
  }

  lemma StepKeepsRecords(check: bool, w: World, a: Action)
    requires RecordInv(w) && Enabled(w, a)
    ensures RecordInv(Apply(check, w, a))
  {
    match a
    case Get => GetKeepsRecords(check, w);
    case Delete => DeleteKeepsRecords(check, w);
    case Create(held) => CreateKeepsRecords(check, w, held);
    case Patch => PatchKeepsRecords(check, w);
    case Emit => EmitKeepsRecords(check, w);
    case GetFails => SkipKeepsRecords(check, w, a);
    case DeleteFails => SkipKeepsRecords(check, w, a);
    case CreateFails => SkipKeepsRecords(check, w, a);
    case PatchFails => SkipKeepsRecords(check, w, a);
    case PromoteTag => SkipKeepsRecords(check, w, a);
    case Crash => SkipKeepsRecords(check, w, a);
    case _ => ClusterKeepsRecords(check, w, a);
  }

  /** What a step may do to the records. */
  ghost predicate RecordsStep(before: Owner, after: Owner) {
    || after.records == before.records
    || (&& after.annotations == before.annotations && |after.records| == |before.records| + 1
        && before.records < after.records
        && var r := after.records[|before.records|];
           r.suffix in before.annotations && before.annotations[r.suffix] == r.uid)
  }

  lemma StepRecords(check: bool, w: World, a: Action)
    requires RecordInv(w) && Enabled(w, a)
    ensures RecordsStep(w.owner, Apply(check, w, a).owner)
  {
    var w' := Apply(check, w, a);
    if a.Emit? {
      assert w'.owner == Owner(w.owner.annotations, w.owner.records + [w.pass.value.pc.record]);
    } else {
      assert w'.owner.records == w.owner.records;
    }
  }

  lemma SomeStepRecords(check: bool, w: World, w': World)
    requires RecordInv(w) && Step(check, w, w')
    ensures RecordInv(w') && RecordsStep(w.owner, w'.owner)
  {
    var a :| Enabled(w, a) && w' == Apply(check, w, a);
    StepKeepsRecords(check, w, a);
    StepRecords(check, w, a);
  }

  lemma {:induction false} RunRecords(check: bool, run: seq<World>, k: nat)
    requires RunFrom(check, run) && k < |run|
    ensures RecordInv(run[k])
  {
    if k > 0 {
      RunRecords(check, run, k - 1);
      assert StepAt(check, run, k);
      SomeStepRecords(check, run[k - 1], run[k]);
    }
  }

  /** Over any run, with any patch failures and crashes, no Job is recorded twice
      for one phase. */
  lemma RecordedAtMostOnce(check: bool, run: seq<World>, k: nat, i: nat, j: nat)
    requires RunFrom(check, run) && k < |run| && i < j < |run[k].owner.records|
    ensures var records := run[k].owner.records;
            records[i].suffix == records[j].suffix ==> records[i].uid != records[j].uid
  {
    RunRecords(check, run, k);
  }

  /** A record is written only once its annotation has been persisted: a failed
      patch and a crash record nothing. */
  lemma RecordsFollowThePatch(check: bool, run: seq<World>, k: nat)
    requires RunFrom(check, run) && 0 < k < |run|
    ensures RecordsStep(run[k - 1].owner, run[k].owner)
  {
    RunRecords(check, run, k - 1);
    assert StepAt(check, run, k);
    SomeStepRecords(check, run[k - 1], run[k]);
  }

  /** The annotation key of a phase: no two phases share one. */
  function JobUIDAnnotationKey(suffix: string): string { "forge.c5c3.io/last-" + suffix + "-job-uid" }

  lemma AnnotationKeyInjective(s: string, t: string)
    requires JobUIDAnnotationKey(s) == JobUIDAnnotationKey(t)
    ensures s == t
  {
    var prefix := "forge.c5c3.io/last-";
    var a, b := JobUIDAnnotationKey(s), JobUIDAnnotationKey(t);
    assert |s| == |t|;
    assert a[|prefix|..|prefix| + |s|] == s;
    assert b[|prefix|..|prefix| + |t|] == t;
  }
}
