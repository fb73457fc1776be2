/** Replacement of a Job over whole runs: once a pass has seen the newest spec,
    the Job under a name only comes nearer to the wanted one, whatever else
    steps in between, and two passes are enough to replace a stale one. */
module JobProgress {
  import opened Options
  import opened Kube
  import opened Conditions
  import opened Jobs
  import opened JobProtocol

  /** The newest pass has read the newest spec. */
  ghost predicate UpToDate(w: World) { w.latest == |w.specs| - 1 }

  function Wanted(w: World, name: string): string
    requires w.specs != []
  {
    KeyOf(w.specs[|w.specs| - 1], name)
  }

  /** How far the name is from a Job of the wanted key: there, absent, going,
      finished under another key, running under another key. */
  function Rank(w: World, name: string): nat
    requires w.specs != []
  {
    if name !in w.jobs.objects then 1
    else
      var live := w.jobs.objects[name].body;
      if live.deleting then 2
      else if live.key == Wanted(w, name) then 0
      else if Terminal(live) then 3
      else 4
  }

  /** The pass is between the read of the Job `name` and its last call on it. */
  predicate InPhase(w: World, name: string) {
    w.pass.Some? &&
    var pc := w.pass.value.pc;
    (pc.Getting? || pc.Deleting? || pc.Creating?) && pc.name == name
  }

  /* ---- One step ---- */

  lemma RankDelete(check: bool, w: World, name: string)
    requires NameInv(w, name) && UpToDate(w) && Enabled(w, Delete)
    ensures
      var w' := Apply(check, w, Delete);
      && Rank(w', name) <= Rank(w, name)
      && (w.pass.value.pc.name == name ==> Rank(w', name) in {1, 2})
  {
  }

  lemma RankCreate(check: bool, w: World, held: bool, name: string)
    requires NameInv(w, name) && UpToDate(w) && Enabled(w, Create(held))
    ensures
      var w' := Apply(check, w, Create(held));
      && Rank(w', name) <= Rank(w, name)
      && (w.pass.value.pc.name == name && Rank(w, name) == 1 ==> Rank(w', name) == 0)
  {
    CreateEffect(check, w, held);
  }

  /** Finishing a Job, and letting a deleted one go, brings the name nearer. */
  lemma RankCluster(check: bool, w: World, a: Action, name: string)
    requires w.specs != [] && Enabled(w, a) && (a.AddCondition? || a.Finalise?)
    ensures
      var w' := Apply(check, w, a);
      && Rank(w', name) <= Rank(w, name)
      && (a == Finalise(name) ==> Rank(w, name) == 2 && Rank(w', name) == 1)
      && (a.AddCondition? && a.name == name && a.kind in {JobComplete, JobFailed} && Rank(w, name) == 4 ==> Rank(w', name) == 3)
  {
    var w' := Apply(check, w, a);
    if a.AddCondition? && a.name == name {
      var before, after := w.jobs.objects[name].body, w'.jobs.objects[name].body;
      assert after == Finish(before, a.kind, w.time);
      assert after.conditions[|before.conditions|] == JobCondition(a.kind, True, w.time);
    }
  }

  /** Only a Job deleted from outside moves the name away, by two at most. */
  lemma RankExternal(check: bool, w: World, a: Action, name: string)
    requires w.specs != [] && Enabled(w, a) && a.ExternalDelete?
    ensures
      var w' := Apply(check, w, a);
      && Rank(w', name) + 2 * w.external[name] <= Rank(w, name) + 2 * w'.external[name]
      && (a.name != name ==> w'.external[name] == w.external[name])
  {
  }

  /** The other steps leave the name where it is. */
  lemma RankStands(check: bool, w: World, a: Action, name: string)
    requires w.specs != [] && Enabled(w, a)
    requires !a.Edit? && !a.Delete? && !a.Create? && !a.AddCondition? && !a.Finalise? && !a.ExternalDelete?
    ensures
      var w' := Apply(check, w, a);
      w'.specs == w.specs && w'.jobs == w.jobs && w'.external == w.external && Rank(w', name) == Rank(w, name)
  {
    if !a.Begin? { CallStands(check, w, a, w.pass.value); }
  }

  lemma CallStands(check: bool, w: World, a: Action, p: Pass)
    requires w.pass == Some(p) && AtPc(w, a) && !a.Delete? && !a.Create?
    ensures
      var w' := Operate(check, w, a, p);
      w'.specs == w.specs && w'.jobs == w.jobs && w'.external == w.external && w'.latest == w.latest
  {
  }

  /** Without an edit no step moves the name away, but for Jobs deleted from
      outside, which count two each. */
  lemma RankStep(check: bool, w: World, a: Action, name: string)
    requires NameInv(w, name) && UpToDate(w) && Enabled(w, a) && !a.Edit?
    ensures
      var w' := Apply(check, w, a);
      && w'.specs == w.specs
      && Rank(w', name) + 2 * w.external[name] <= Rank(w, name) + 2 * w'.external[name]
  {
    match a
    case Delete => RankDelete(check, w, name);
    case Create(held) => RankCreate(check, w, held, name); CreateEffect(check, w, held);
    case AddCondition(_, _) => RankCluster(check, w, a, name);
    case Finalise(_) => RankCluster(check, w, a, name);
    case ExternalDelete(_) => RankExternal(check, w, a, name);
    case _ => RankStands(check, w, a, name);
  }

  /* ---- Runs without an edit ---- */

  lemma StepGrows(check: bool, w: World, a: Action, name: string)
    requires Enabled(w, a)
    ensures
      var w' := Apply(check, w, a);
      w.specs <= w'.specs && (a.Edit? ==> |w.specs| < |w'.specs|) && w.external[name] <= w'.external[name]
  {
    match a
    case Edit(_) =>
    case Begin =>
    case AddCondition(_, _) =>
    case Finalise(_) =>
    case ExternalDelete(_) =>
    case Delete =>
    case Create(held) => CreateEffect(check, w, held);
    case _ => CallStands(check, w, a, w.pass.value);
  }

  lemma SomeStepGrows(check: bool, w: World, w': World, name: string)
    requires Step(check, w, w')
    ensures w.specs <= w'.specs && w.external[name] <= w'.external[name]
  {
    var a :| Enabled(w, a) && w' == Apply(check, w, a);
    StepGrows(check, w, a, name);
  }

  lemma {:induction false} RunGrows(check: bool, run: seq<World>, j: nat, k: nat, name: string)
    requires RunFrom(check, run) && j <= k < |run|
    ensures run[j].specs <= run[k].specs && run[j].external[name] <= run[k].external[name]
    decreases k - j
  {
    if j < k {
      RunGrows(check, run, j, k - 1, name);
      assert StepAt(check, run, k);
      SomeStepGrows(check, run[k - 1], run[k], name);
    }
  }

  lemma HasSpecs(check: bool, run: seq<World>, k: nat)
    requires RunFrom(check, run) && k < |run|
    ensures run[k].specs != []
  {
    RunGrows(check, run, 0, k, "");
  }

  /** Between `j` and `k` the spec stays. */
  ghost predicate Unedited(run: seq<World>, j: nat, k: nat) {
    j <= k < |run| && run[k].specs == run[j].specs
  }

  /** Nor does anyone else delete a Job of this name. */
  ghost predicate Steady(run: seq<World>, j: nat, k: nat, name: string) {
    Unedited(run, j, k) && run[k].external[name] == run[j].external[name]
  }

  lemma Within(check: bool, run: seq<World>, j: nat, i: nat, k: nat, name: string)
    requires RunFrom(check, run) && j <= i <= k && Unedited(run, j, k)
    ensures Unedited(run, j, i) && Unedited(run, i, k)
    ensures Steady(run, j, k, name) ==> Steady(run, j, i, name) && Steady(run, i, k, name)
  {
    RunGrows(check, run, j, i, name);
    RunGrows(check, run, i, k, name);
  }

  lemma LatestStays(check: bool, w: World, a: Action)
    requires UpToDate(w) && Enabled(w, a) && !a.Edit?
    ensures UpToDate(Apply(check, w, a))
  {
    match a
    case Edit(_) =>
    case Begin =>
    case AddCondition(_, _) =>
    case Finalise(_) =>
    case ExternalDelete(_) =>
    case Delete =>
    case Create(held) => CreateEffect(check, w, held);
    case _ => CallStands(check, w, a, w.pass.value);
  }

  lemma SomeStep(check: bool, w: World, w': World, name: string)
    requires NameInv(w, name) && UpToDate(w) && Step(check, w, w') && w'.specs == w.specs
    ensures UpToDate(w')
    ensures Rank(w', name) + 2 * w.external[name] <= Rank(w, name) + 2 * w'.external[name]
  {
    var a :| Enabled(w, a) && w' == Apply(check, w, a);
    StepGrows(check, w, a, name);
    RankStep(check, w, a, name);
    LatestStays(check, w, a);
  }

  lemma LastStep(check: bool, run: seq<World>, k: nat, name: string)
    requires RunFrom(check, run) && 0 < k < |run| && UpToDate(run[k - 1]) && Unedited(run, k - 1, k)
    ensures UpToDate(run[k]) && run[k].specs != []
    ensures Rank(run[k], name) + 2 * run[k - 1].external[name] <= Rank(run[k - 1], name) + 2 * run[k].external[name]
  {
    RunNames(check, run, k - 1, name);
    assert StepAt(check, run, k);
    SomeStep(check, run[k - 1], run[k], name);
  }

  /** Over any run without an edit, from a world whose newest pass has read the
      newest spec, a name never gets farther from its wanted Job, but for the
      Jobs deleted from outside. */
  lemma {:induction false} NeverFarther(check: bool, run: seq<World>, j: nat, k: nat, name: string)
    requires RunFrom(check, run) && Unedited(run, j, k) && UpToDate(run[j])
    ensures UpToDate(run[k]) && run[j].specs != []
    ensures Rank(run[k], name) + 2 * run[j].external[name] <= Rank(run[j], name) + 2 * run[k].external[name]
    decreases k - j
  {
    HasSpecs(check, run, j);
    if j < k {
      Within(check, run, j, k - 1, k, name);
      NeverFarther(check, run, j, k - 1, name);
      LastStep(check, run, k, name);
    }
  }

  /* ---- The wanted Job stays ---- */

  lemma WantedStep(check: bool, w: World, a: Action, name: string)
    requires NameInv(w, name) && UpToDate(w) && Enabled(w, a) && !a.Edit? && Rank(w, name) == 0
    requires Apply(check, w, a).external[name] == w.external[name]
    ensures
      var w' := Apply(check, w, a);
      w'.specs == w.specs && Rank(w', name) == 0 && w'.jobs.objects[name].uid == w.jobs.objects[name].uid
  {
    RankStep(check, w, a, name);
    match a
    case Delete => assert w.pass.value.pc.name != name;
    case Create(held) => CreateEffect(check, w, held);
    case AddCondition(_, _) =>
    case Finalise(_) =>
    case ExternalDelete(_) =>
    case _ => RankStands(check, w, a, name);
  }

  lemma WantedSomeStep(check: bool, w: World, w': World, name: string)
    requires NameInv(w, name) && UpToDate(w) && Step(check, w, w') && w'.specs == w.specs
    requires w'.external[name] == w.external[name] && Rank(w, name) == 0
    ensures Rank(w', name) == 0 && w'.jobs.objects[name].uid == w.jobs.objects[name].uid
  {
    var a :| Enabled(w, a) && w' == Apply(check, w, a);
    StepGrows(check, w, a, name);
    WantedStep(check, w, a, name);
  }

  lemma WantedLastStep(check: bool, run: seq<World>, k: nat, name: string)
    requires RunFrom(check, run) && 0 < k < |run| && UpToDate(run[k - 1]) && Steady(run, k - 1, k, name)
    requires run[k].specs != [] && Rank(run[k - 1], name) == 0
    ensures Rank(run[k], name) == 0 && run[k].jobs.objects[name].uid == run[k - 1].jobs.objects[name].uid
  {
    RunNames(check, run, k - 1, name);
    assert StepAt(check, run, k);
    WantedSomeStep(check, run[k - 1], run[k], name);
  }

  lemma WantedNotDeleted(w: World, name: string)
    requires NameInv(w, name) && UpToDate(w) && Rank(w, name) == 0 && Enabled(w, Delete)
    ensures w.pass.value.pc.name != name
  {
  }

  /** A live Job of the wanted key stays that very Job as long as the spec stays
      and nobody else deletes it: the operator is never about to. */
  lemma {:induction false} WantedStays(check: bool, run: seq<World>, j: nat, k: nat, name: string)
    requires RunFrom(check, run) && Steady(run, j, k, name) && UpToDate(run[j])
    requires run[j].specs != [] && Rank(run[j], name) == 0
    ensures Rank(run[k], name) == 0 && run[k].jobs.objects[name].uid == run[j].jobs.objects[name].uid
    ensures Enabled(run[k], Delete) ==> run[k].pass.value.pc.name != name
    decreases k - j
  {
    NeverFarther(check, run, j, k, name);
    if j < k {
      Within(check, run, j, k - 1, k, name);
      WantedStays(check, run, j, k - 1, name);
      NeverFarther(check, run, j, k - 1, name);
      WantedLastStep(check, run, k, name);
    }
    RunNames(check, run, k, name);
    if Enabled(run[k], Delete) { WantedNotDeleted(run[k], name); }
  }

  /* ---- A phase brings the name nearer ---- */

  predicate Succeeds(a: Action) { !a.GetFails? && !a.DeleteFails? && !a.CreateFails? && !a.Crash? }

  /** Some step other than a failing call or a crash. */
  ghost predicate CalmStep(check: bool, w: World, w': World) {
    exists a :: Enabled(w, a) && w' == Apply(check, w, a) && Succeeds(a)
  }

  ghost predicate CalmAt(check: bool, run: seq<World>, i: int)
    requires 0 < i < |run|
  {
    CalmStep(check, run[i - 1], run[i])
  }

  /** A pass enters its phase on `name` at `j` and has left it at `k`; none of
      its calls fails. Everyone else may step in between. */
  ghost predicate PhaseRan(check: bool, run: seq<World>, j: nat, k: nat, name: string) {
    && j <= k < |run|
    && run[j].pass.Some? && run[j].pass.value.pc == Getting(name)
    && (forall i :: j < i <= k ==> CalmAt(check, run, i))
    && !InPhase(run[k], name)
  }

  /** As near as `r`, and nearer once the phase is over. */
  ghost predicate Nearing(w: World, name: string, r: nat)
    requires w.specs != []
  {
    && Rank(w, name) <= r
    && (Rank(w, name) == r ==>
          InPhase(w, name) && (r == 3 ==> !w.pass.value.pc.Creating?) && (r == 1 ==> !w.pass.value.pc.Deleting?))
  }

  lemma NearingGet(check: bool, w: World, name: string, r: nat)
    requires NameInv(w, name) && UpToDate(w) && Enabled(w, Get) && r in {1, 3} && Nearing(w, name, r)
    ensures Nearing(Apply(check, w, Get), name, r)
  {
    var w' := Apply(check, w, Get);
    RankStands(check, w, Get, name);
    if Rank(w, name) == r {
      assert w'.pass.value.pc == if r == 1 then Creating(name, None) else Deleting(name, w.jobs.objects[name]);
    }
  }

  lemma NearingStep(check: bool, w: World, a: Action, name: string, r: nat)
    requires NameInv(w, name) && UpToDate(w) && Enabled(w, a) && !a.Edit? && Succeeds(a)
    requires r in {1, 3} && Nearing(w, name, r)
    requires Apply(check, w, a).external[name] == w.external[name]
    ensures Nearing(Apply(check, w, a), name, r)
  {
    RankStep(check, w, a, name);
    match a
    case Get => NearingGet(check, w, name, r);
    case Delete => RankDelete(check, w, name);
    case Create(held) => RankCreate(check, w, held, name);
    case AddCondition(_, _) =>
    case Finalise(_) =>
    case ExternalDelete(_) =>
    case _ =>
  }

  lemma NearingSomeStep(check: bool, w: World, w': World, name: string, r: nat)
    requires NameInv(w, name) && UpToDate(w) && CalmStep(check, w, w') && w'.specs == w.specs
    requires w'.external[name] == w.external[name] && r in {1, 3} && Nearing(w, name, r)
    ensures Nearing(w', name, r)
  {
    var a :| Enabled(w, a) && w' == Apply(check, w, a) && Succeeds(a);
    StepGrows(check, w, a, name);
    NearingStep(check, w, a, name, r);
  }

  lemma NearingLastStep(check: bool, run: seq<World>, k: nat, name: string, r: nat)
    requires RunFrom(check, run) && 0 < k < |run| && UpToDate(run[k - 1]) && Steady(run, k - 1, k, name)
    requires CalmAt(check, run, k)
    requires run[k].specs != [] && r in {1, 3} && Nearing(run[k - 1], name, r)
    ensures Nearing(run[k], name, r)
  {
    RunNames(check, run, k - 1, name);
    NearingSomeStep(check, run[k - 1], run[k], name, r);
  }

  lemma {:induction false} NearingRun(check: bool, run: seq<World>, j: nat, k: nat, name: string, r: nat)
    requires RunFrom(check, run) && Steady(run, j, k, name) && UpToDate(run[j])
    requires forall i :: j < i <= k ==> CalmAt(check, run, i)
    requires run[j].specs != [] && r in {1, 3} && Nearing(run[j], name, r)
    ensures Nearing(run[k], name, r)
    decreases k - j
  {
    if j < k {
      Within(check, run, j, k - 1, k, name);
      NearingRun(check, run, j, k - 1, name, r);
      NeverFarther(check, run, j, k - 1, name);
      assert CalmAt(check, run, k);
      NearingLastStep(check, run, k, name, r);
    }
  }

  /** A phase takes an absent name to its wanted Job, and a stale finished Job
      out of the way. */
  lemma PhaseLowers(check: bool, run: seq<World>, j: nat, k: nat, name: string, r: nat)
    requires RunFrom(check, run) && PhaseRan(check, run, j, k, name) && Steady(run, j, k, name) && UpToDate(run[j])
    requires run[j].specs != [] && r in {1, 3} && Rank(run[j], name) <= r
    ensures Rank(run[k], name) < r
  {
    NearingRun(check, run, j, k, name, r);
  }

  /** A stale Job is replaced. Over any run in which the spec stays and nobody
      else deletes the Job: if a pass that has read the newest spec finds the
      name without a running Job of another key, and, once a deletion under way
      has finalised, a second pass runs its phase, then the name has a live Job
      of the wanted key. */
  lemma StaleJobIsReplaced(check: bool, run: seq<World>, j1: nat, k1: nat, j2: nat, k2: nat, name: string)
    requires RunFrom(check, run) && PhaseRan(check, run, j1, k1, name) && PhaseRan(check, run, j2, k2, name) && k1 <= j2
    requires Steady(run, j1, k2, name) && UpToDate(run[j1]) && run[j1].specs != []
    requires Rank(run[j1], name) <= 3
    requires name in run[j2].jobs.objects ==> !run[j2].jobs.objects[name].body.deleting
    ensures Rank(run[k2], name) == 0
  {
    Within(check, run, j1, j2, k2, name);
    Within(check, run, j1, k1, j2, name);
    PhaseLowers(check, run, j1, k1, name, 3);
    NeverFarther(check, run, j1, k1, name);
    NeverFarther(check, run, k1, j2, name);
    PhaseLowers(check, run, j2, k2, name, 1);
  }
}
