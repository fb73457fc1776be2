/** Delivery over whole runs: while the CronJob is silent, a waiting payload only
    comes nearer to the target, whatever passes overlap, and every pass that
    ends without an error brings it there. */
module RotationProgress {
  import opened Options
  import opened Kube
  import opened Rotation
  import opened RotationProtocol
  import opened RotationConvergence

  /** `p` was the last payload completed, and waits or has been dealt with. */
  ghost predicate Tracks(c: Config, w: World, p: Payload) {
    && c.target in w.store.objects && Inv(c, w) && Lasting(c, w)
    && Committable(c.spec, p) && LastPayload(w) == Some(p) && (Quiet(c, w) || Holds(c, w, p))
  }

  /** How far `p` is from being settled: committed and cleaned up, committed,
      waiting. */
  ghost function Rank(c: Config, w: World, p: Payload): nat
    requires c.target in w.store.objects
  {
    if Quiet(c, w) then 0 else if TargetPayload(c, w) == p then 1 else 2
  }

  lemma WaitingTracks(c: Config, w: World, p: Payload)
    requires Inv(c, w) && Lasting(c, w) && Holds(c, w, p) && Committable(c.spec, p)
    ensures Tracks(c, w, p)
  {
    HeldIsLast(c, w, p);
  }

  lemma RankMeans(c: Config, w: World, p: Payload)
    requires Tracks(c, w, p)
    ensures Rank(c, w, p) <= 1 <==> TargetPayload(c, w) == p
    ensures Rank(c, w, p) == 0 <==> SettledOn(c, w, p)
  {
    if Quiet(c, w) { assert Delivered(c, w); }
  }

  /* ---- One step ---- */

  /** A version of the staging Secret that carries a committable payload is
      neither rejected nor skipped. */
  lemma CommittableIsTaken(c: Config, o: Object<Secret>, t: Object<Secret>)
    requires Committable(c.spec, PayloadOf(o.body))
    ensures Decide(c.spec, o.body, t.body) == if PayloadOf(t.body) == PayloadOf(o.body) then Already else Commit
  {
  }

  /** The commit of a stale or current pass leaves a committable payload on the
      staging Secret untouched. */
  lemma WriteSpares(c: Config, w: World, pass: Pass, faults: Faults, p: Payload)
    requires Recorded(c, w) && c.target in w.store.objects && PassOk(c, w, pass) && pass.GotStaging?
    requires Committable(c.spec, p) && Holds(c, w, p)
    ensures
      var s := CommitWrite(w.store, c.staging, c.target, pass.staging, pass.target, c.spec, faults).0;
      c.staging in s.objects && s.objects[c.staging] == w.store.objects[c.staging]
  {
    if pass.staging.rv == w.store.objects[c.staging].rv { CommittableIsTaken(c, pass.staging, pass.target); }
  }

  /** Until it is cleaned up, a waiting payload stays on the staging Secret. */
  lemma WaitingStep(c: Config, w: World, a: Action, p: Payload)
    requires Inv(c, w) && Holds(c, w, p) && Committable(c.spec, p) && Enabled(c, w, a) && !a.CronPatch?
    ensures c.staging in StoreAfter(c, w, a).objects ==> PayloadOf(StoreAfter(c, w, a).objects[c.staging].body) == p
  {
    match a
    case EnsureFinish(pid, _) =>
      assert PassOk(c, w, w.passes[pid]);
      EnsureKeeps(c, w, w.passes[pid], p);
    case Write(pid, faults) =>
      assert PassOk(c, w, w.passes[pid]);
      WriteSpares(c, w, w.passes[pid], faults, p);
    case Remove(_, _) =>
    case Relabel(_, _) =>
    case CronPatch(_, _) =>
    case _ =>
  }

  /** Once the newest payload is on the target, no commit can replace it. */
  lemma NoOtherCommit(c: Config, w: World, t: Object<Secret>, o: Object<Secret>)
    requires Recorded(c, w) && Committed(c, w) && |w.staged| > 0 && w.staged[|w.staged| - 1].stamp != ""
    requires TargetPayload(c, w) == w.staged[|w.staged| - 1]
    ensures !Committing(c, w, t, o)
  {
    if Committing(c, w, t, o) { CommitIsNewer(c, w, t, o); }
  }

  lemma WriteTarget(c: Config, w: World, pass: Pass, faults: Faults)
    requires c.staging != c.target && c.target in w.store.objects && PassOk(c, w, pass) && pass.GotStaging?
    requires !Committing(c, w, pass.target, pass.staging)
    ensures
      var s := CommitWrite(w.store, c.staging, c.target, pass.staging, pass.target, c.spec, faults).0;
      c.target in s.objects && s.objects[c.target] == w.store.objects[c.target]
  {
  }

  lemma TargetStays(c: Config, w: World, a: Action, p: Payload)
    requires Inv(c, w) && Holds(c, w, p) && p.stamp != "" && TargetPayload(c, w) == p && Enabled(c, w, a)
    ensures c.target in StoreAfter(c, w, a).objects && PayloadOf(StoreAfter(c, w, a).objects[c.target].body) == p
  {
    if a.Write? {
      var pass := w.passes[a.pid];
      assert PassOk(c, w, pass);
      NoOtherCommit(c, w, pass.target, pass.staging);
      WriteTarget(c, w, pass, a.faults);
    } else {
      TargetSpared(c, w, a);
    }
  }

  lemma TargetSpared(c: Config, w: World, a: Action)
    requires c.staging != c.target && c.target in w.store.objects && Enabled(c, w, a) && !a.Write?
    ensures c.target in StoreAfter(c, w, a).objects && StoreAfter(c, w, a).objects[c.target] == w.store.objects[c.target]
  {
  }

  /** While the CronJob is silent, no step of any pass, stale or new, error or
      not, and no relabelling takes the payload farther from the target. */
  lemma RankStep(c: Config, w: World, a: Action, p: Payload)
    requires Tracks(c, w, p) && Enabled(c, w, a) && !a.CronPatch?
    ensures Tracks(c, Apply(c, w, a), p) && Rank(c, Apply(c, w, a), p) <= Rank(c, w, p)
  {
    var w' := Apply(c, w, a);
    StepInv(c, w, a);
    StepLasting(c, w, a);
    StepExtends(c, w, a);
    StoreStep(c, w, a);
    if Quiet(c, w) { StepQuiet(c, w, a); } else {
      WaitingStep(c, w, a, p);
      if TargetPayload(c, w) == p { TargetStays(c, w, a, p); }
    }
    if Quiet(c, w') { NothingNewCompleted(c, w, w'); } else { HeldIsLast(c, w', p); }
  }

  /* ---- A pass that ends without an error ---- */

  /** The step is none of `pid`'s that fails or is cut short. */
  predicate Smooth(c: Config, w: World, a: Action, pid: nat)
    requires Enabled(c, w, a)
  {
    match a
    case EnsureFinish(q, fault) =>
      q == pid ==> !fault && EnsureWrite(w.store, c.staging, w.passes[q].seen, c.labels, c.owner).1 == Ok
    case Write(q, faults) =>
      q == pid ==>
        var p := w.passes[q];
        CommitWrite(w.store, c.staging, c.target, p.staging, p.target, c.spec, faults).1 == Ok
    case Remove(q, fault) => q == pid ==> !fault
    case Crash(q) => q != pid
    case _ => true
  }

  /** The pass has read `p`, or will. */
  ghost predicate Carries(pass: Pass, p: Payload) {
    match pass
    case GotTarget(_) => true
    case Ensuring(_, seen) => seen.Some? && PayloadOf(seen.value.body) == p
    case GotStaging(_, o) => PayloadOf(o.body) == p
    case Deleting(_, _) => false
  }

  /** As long as `p` waits, the pass is on its way to commit it. */
  ghost predicate Nearing(c: Config, w: World, p: Payload, pid: nat) {
    Tracks(c, w, p) && (Rank(c, w, p) == 2 ==> pid in w.passes && Carries(w.passes[pid], p))
  }

  lemma OtherPass(c: Config, w: World, a: Action, pid: nat)
    requires Enabled(c, w, a) && pid in w.passes && (a.CronPatch? || a.Relabel? || a.pid != pid)
    ensures pid in Apply(c, w, a).passes && Apply(c, w, a).passes[pid] == w.passes[pid]
  {
  }

  /** A commit of the waiting payload that reports no error puts it on the
      target. */
  lemma CommitArrives(c: Config, w: World, pass: Pass, faults: Faults, p: Payload)
    requires c.staging != c.target && c.target in w.store.objects && PassOk(c, w, pass) && pass.GotStaging?
    requires Holds(c, w, p) && Committable(c.spec, p) && PayloadOf(pass.staging.body) == p
    requires CommitWrite(w.store, c.staging, c.target, pass.staging, pass.target, c.spec, faults).1 == Ok
    ensures
      var s := CommitWrite(w.store, c.staging, c.target, pass.staging, pass.target, c.spec, faults).0;
      c.target in s.objects && PayloadOf(s.objects[c.target].body) == p
  {
    CommittableIsTaken(c, pass.staging, pass.target);
  }

  lemma EnsureCarries(c: Config, s: Store<Secret>, seen: Object<Secret>)
    requires EnsureWrite(s, c.staging, Some(seen), c.labels, c.owner).1 == Ok
    ensures PayloadOf(Ensured(c, s, Some(seen)).body) == PayloadOf(seen.body)
  {
  }

  lemma OwnStep(c: Config, w: World, a: Action, p: Payload, pid: nat)
    requires Nearing(c, w, p, pid) && Enabled(c, w, a) && !a.CronPatch? && !a.Relabel? && a.pid == pid && Smooth(c, w, a, pid)
    requires c.target in Apply(c, w, a).store.objects && Rank(c, w, p) == 2 && Rank(c, Apply(c, w, a), p) == 2
    ensures pid in Apply(c, w, a).passes && Carries(Apply(c, w, a).passes[pid], p)
  {
    assert PassOk(c, w, w.passes[pid]);
    match a
    case EnsureFinish(_, _) => EnsureCarries(c, w.store, w.passes[pid].seen.value);
    case Write(_, faults) =>
      StoreStep(c, w, a);
      CommitArrives(c, w, w.passes[pid], faults, p);
    case _ =>
  }

  lemma NearingStep(c: Config, w: World, a: Action, p: Payload, pid: nat)
    requires Nearing(c, w, p, pid) && Enabled(c, w, a) && !a.CronPatch? && Smooth(c, w, a, pid)
    ensures Nearing(c, Apply(c, w, a), p, pid)
  {
    RankStep(c, w, a, p);
    if Rank(c, Apply(c, w, a), p) == 2 {
      if a.Relabel? || a.pid != pid { OtherPass(c, w, a, pid); } else { OwnStep(c, w, a, p, pid); }
    }
  }

  /* ---- Snapshots of the staging Secret ---- */

  /** A snapshot that is not the live object is of another version. */
  ghost predicate SnapOk(c: Config, s: Store<Secret>, o: Object<Secret>) {
    o.rv < s.clock && (c.staging in s.objects && s.objects[c.staging].rv == o.rv ==> s.objects[c.staging] == o)
  }

  ghost predicate PassSnapOk(c: Config, s: Store<Secret>, pass: Pass) {
    match pass
    case GotTarget(_) => true
    case Ensuring(_, seen) => seen.Some? ==> SnapOk(c, s, seen.value)
    case GotStaging(_, o) => SnapOk(c, s, o)
    case Deleting(o, _) => SnapOk(c, s, o)
  }

  ghost predicate SnapsOk(c: Config, w: World) {
    && (c.staging in w.store.objects ==> SnapOk(c, w.store, w.store.objects[c.staging]))
    && forall pid :: pid in w.passes ==> PassSnapOk(c, w.store, w.passes[pid])
  }

  /** The staging Secret stays, goes, or gets a new version. */
  ghost predicate SlotMoves(c: Config, s: Store<Secret>, t: Store<Secret>) {
    && s.clock <= t.clock
    && (c.staging in t.objects ==>
          || (c.staging in s.objects && t.objects[c.staging] == s.objects[c.staging])
          || s.clock == t.objects[c.staging].rv < t.clock)
  }

  lemma SlotStep(c: Config, w: World, a: Action)
    requires c.staging != c.target && Enabled(c, w, a)
    ensures SlotMoves(c, w.store, StoreAfter(c, w, a))
  {
  }

  lemma SnapLater(c: Config, s: Store<Secret>, t: Store<Secret>, pass: Pass)
    requires SlotMoves(c, s, t) && PassSnapOk(c, s, pass)
    ensures PassSnapOk(c, t, pass)
  {
  }

  /** What a step hands to its pass is an old snapshot or the live object. */
  lemma NewSnap(c: Config, w: World, a: Action, pid: nat)
    requires SnapsOk(c, w) && c.staging != c.target && Enabled(c, w, a) && pid in Apply(c, w, a).passes
    ensures PassSnapOk(c, StoreAfter(c, w, a), Apply(c, w, a).passes[pid])
  {
    SlotStep(c, w, a);
    if pid in w.passes { SnapLater(c, w.store, StoreAfter(c, w, a), w.passes[pid]); }
  }

  lemma SnapsStep(c: Config, w: World, a: Action)
    requires SnapsOk(c, w) && c.staging != c.target && Enabled(c, w, a)
    ensures SnapsOk(c, Apply(c, w, a))
  {
    StoreStep(c, w, a);
    SlotStep(c, w, a);
    forall pid | pid in Apply(c, w, a).passes ensures PassSnapOk(c, Apply(c, w, a).store, Apply(c, w, a).passes[pid]) {
      NewSnap(c, w, a, pid);
    }
  }

  /* ---- A pass nobody relabels under cleans up as well ---- */

  predicate IsAdopted(c: Config, s: Secret) { Adopted(s, c.labels, c.owner) == s }

  predicate Live(c: Config, s: Store<Secret>, o: Object<Secret>) { c.staging in s.objects && s.objects[c.staging] == o }

  /** The pass holds, or will hold, the live staging Secret, which is in order. */
  ghost predicate Grips(c: Config, s: Store<Secret>, pass: Pass, p: Payload) {
    match pass
    case GotTarget(_) => true
    case Ensuring(_, seen) =>
      seen.Some? && PayloadOf(seen.value.body) == p && (IsAdopted(c, seen.value.body) ==> Live(c, s, seen.value))
    case GotStaging(_, o) => Live(c, s, o) && PayloadOf(o.body) == p && IsAdopted(c, o.body)
    case Deleting(o, _) => Live(c, s, o) && IsAdopted(c, o.body)
  }

  /** As long as `p` is not cleaned up, the pass is on its way to do so. */
  ghost predicate Closing(c: Config, w: World, p: Payload, pid: nat) {
    && Tracks(c, w, p) && SnapsOk(c, w)
    && (Rank(c, w, p) > 0 ==> pid in w.passes && Grips(c, w.store, w.passes[pid], p))
  }

  /** No pass gives a staging Secret in order a new version while `p` is on it. */
  lemma AdoptedStays(c: Config, w: World, a: Action, p: Payload)
    requires Inv(c, w) && SnapsOk(c, w) && Holds(c, w, p) && Committable(c.spec, p) && Enabled(c, w, a)
    requires !a.CronPatch? && !a.Relabel? && IsAdopted(c, w.store.objects[c.staging].body)
    ensures c.staging in StoreAfter(c, w, a).objects ==> Live(c, StoreAfter(c, w, a), w.store.objects[c.staging])
  {
    match a
    case EnsureFinish(q, _) =>
      assert PassSnapOk(c, w.store, w.passes[q]);
    case Write(q, faults) =>
      assert PassOk(c, w, w.passes[q]);
      WriteSpares(c, w, w.passes[q], faults, p);
    case _ =>
  }

  /** An ensure without an error hands on the live Secret, in order. */
  lemma EnsureGrips(c: Config, s: Store<Secret>, seen: Object<Secret>)
    requires EnsureWrite(s, c.staging, Some(seen), c.labels, c.owner).1 == Ok
    requires IsAdopted(c, seen.body) ==> Live(c, s, seen)
    ensures
      var o := Ensured(c, s, Some(seen));
      Live(c, EnsureWrite(s, c.staging, Some(seen), c.labels, c.owner).0, o) && IsAdopted(c, o.body)
  {
  }

  lemma CommitGrips(c: Config, w: World, pid: nat, faults: Faults, p: Payload)
    requires Inv(c, w) && Holds(c, w, p) && Committable(c.spec, p) && Enabled(c, w, Write(pid, faults))
    requires Grips(c, w.store, w.passes[pid], p) && Smooth(c, w, Write(pid, faults), pid)
    ensures
      var w' := Apply(c, w, Write(pid, faults));
      pid in w'.passes && Grips(c, StoreAfter(c, w, Write(pid, faults)), w'.passes[pid], p)
  {
    var pass := w.passes[pid];
    assert PassOk(c, w, pass);
    WriteSpares(c, w, pass, faults, p);
    CommittableIsTaken(c, pass.staging, pass.target);
  }

  lemma OwnGrips(c: Config, w: World, a: Action, p: Payload, pid: nat)
    requires Closing(c, w, p, pid) && Enabled(c, w, a) && !a.CronPatch? && !a.Relabel? && a.pid == pid && Smooth(c, w, a, pid)
    requires Holds(c, w, p) && c.staging in StoreAfter(c, w, a).objects && Rank(c, w, p) > 0
    ensures pid in Apply(c, w, a).passes && Grips(c, StoreAfter(c, w, a), Apply(c, w, a).passes[pid], p)
  {
    match a
    case EnsureFinish(_, _) =>
      EnsureCarries(c, w.store, w.passes[pid].seen.value);
      EnsureGrips(c, w.store, w.passes[pid].seen.value);
    case Write(_, faults) => CommitGrips(c, w, pid, faults, p);
    case _ =>
  }

  lemma OtherGrips(c: Config, w: World, a: Action, p: Payload, pid: nat)
    requires Closing(c, w, p, pid) && Enabled(c, w, a) && !a.CronPatch? && !a.Relabel? && a.pid != pid
    requires Holds(c, w, p) && c.staging in StoreAfter(c, w, a).objects && Rank(c, w, p) > 0
    ensures pid in Apply(c, w, a).passes && Grips(c, StoreAfter(c, w, a), Apply(c, w, a).passes[pid], p)
  {
    OtherPass(c, w, a, pid);
    if IsAdopted(c, w.store.objects[c.staging].body) { AdoptedStays(c, w, a, p); }
  }

  lemma ClosingStep(c: Config, w: World, a: Action, p: Payload, pid: nat)
    requires Closing(c, w, p, pid) && Enabled(c, w, a) && !a.CronPatch? && !a.Relabel? && Smooth(c, w, a, pid)
    ensures Closing(c, Apply(c, w, a), p, pid)
  {
    RankStep(c, w, a, p);
    SnapsStep(c, w, a);
    StoreStep(c, w, a);
    if Rank(c, Apply(c, w, a), p) > 0 {
      if a.pid == pid { OwnGrips(c, w, a, p, pid); } else { OtherGrips(c, w, a, p, pid); }
    }
  }

  /* ---- Whole runs ---- */

  /** Some step other than the CronJob's, none of `pid`'s that fails, and, where
      `calm`, no relabelling. */
  ghost predicate SmoothStep(c: Config, w: World, w': World, pid: nat, calm: bool) {
    exists a :: Enabled(c, w, a) && !a.CronPatch? && Smooth(c, w, a, pid) && (calm ==> !a.Relabel?) && w' == Apply(c, w, a)
  }

  ghost predicate SmoothAt(c: Config, run: seq<World>, i: int, pid: nat, calm: bool)
    requires 0 < i < |run|
  {
    SmoothStep(c, run[i - 1], run[i], pid, calm)
  }

  /** At `j` the pass `pid` has yet to read the staging Secret, at `k` it has
      ended, and none of its calls has failed. The CronJob is silent; any other
      passes overlap, fail or crash as they like. */
  ghost predicate PassRan(c: Config, run: seq<World>, j: nat, k: nat, pid: nat, calm: bool) {
    && j <= k < |run|
    && pid in run[j].passes && run[j].passes[pid].GotTarget? && pid !in run[k].passes
    && forall i :: j < i <= k ==> SmoothAt(c, run, i, pid, calm)
  }

  ghost predicate CronFreeStep(c: Config, w: World, w': World) {
    exists a :: Enabled(c, w, a) && !a.CronPatch? && w' == Apply(c, w, a)
  }

  ghost predicate CronFreeAt(c: Config, run: seq<World>, i: int)
    requires 0 < i < |run|
  {
    CronFreeStep(c, run[i - 1], run[i])
  }

  lemma SomeRankStep(c: Config, w: World, w': World, p: Payload)
    requires Tracks(c, w, p) && CronFreeStep(c, w, w')
    ensures Tracks(c, w', p) && Rank(c, w', p) <= Rank(c, w, p)
  {
    var a :| Enabled(c, w, a) && !a.CronPatch? && w' == Apply(c, w, a);
    RankStep(c, w, a, p);
  }

  /** While the CronJob is silent a payload never gets farther from its target. */
  lemma {:induction false} NeverFarther(c: Config, run: seq<World>, j: nat, k: nat, p: Payload)
    requires j <= k < |run| && Tracks(c, run[j], p)
    requires forall i :: j < i <= k ==> CronFreeAt(c, run, i)
    ensures Tracks(c, run[k], p) && Rank(c, run[k], p) <= Rank(c, run[j], p)
    decreases k - j
  {
    if j < k {
      NeverFarther(c, run, j, k - 1, p);
      assert CronFreeAt(c, run, k);
      SomeRankStep(c, run[k - 1], run[k], p);
    }
  }

  lemma SomeNearingStep(c: Config, w: World, w': World, p: Payload, pid: nat, calm: bool)
    requires SmoothStep(c, w, w', pid, calm)
    ensures Nearing(c, w, p, pid) ==> Nearing(c, w', p, pid)
    ensures calm && Closing(c, w, p, pid) ==> Closing(c, w', p, pid)
  {
    var a :| Enabled(c, w, a) && !a.CronPatch? && Smooth(c, w, a, pid) && (calm ==> !a.Relabel?) && w' == Apply(c, w, a);
    if Nearing(c, w, p, pid) { NearingStep(c, w, a, p, pid); }
    if calm && Closing(c, w, p, pid) { ClosingStep(c, w, a, p, pid); }
  }

  lemma {:induction false} PassNears(c: Config, run: seq<World>, j: nat, k: nat, p: Payload, pid: nat, calm: bool)
    requires j <= k < |run| && forall i :: j < i <= k ==> SmoothAt(c, run, i, pid, calm)
    ensures Nearing(c, run[j], p, pid) ==> Nearing(c, run[k], p, pid)
    ensures calm && Closing(c, run[j], p, pid) ==> Closing(c, run[k], p, pid)
    decreases k - j
  {
    if j < k {
      PassNears(c, run, j, k - 1, p, pid, calm);
      assert SmoothAt(c, run, k, pid, calm);
      SomeNearingStep(c, run[k - 1], run[k], p, pid, calm);
    }
  }

  lemma SomeSnapsStep(c: Config, w: World, w': World)
    requires SnapsOk(c, w) && c.staging != c.target && Step(c, w, w')
    ensures SnapsOk(c, w')
  {
    var a :| Enabled(c, w, a) && w' == Apply(c, w, a);
    SnapsStep(c, w, a);
  }

  lemma {:induction false} RunSnaps(c: Config, run: seq<World>, k: nat)
    requires Run(c, run) && k < |run|
    ensures SnapsOk(c, run[k])
  {
    if k > 0 {
      RunSnaps(c, run, k - 1);
      assert Step(c, run[k - 1], run[k]);
      SomeSnapsStep(c, run[k - 1], run[k]);
    }
  }

  /** A pass that ends without an error brings the last completed payload
      nearer, whatever overlaps it: a waiting one reaches the target, and unless
      the staging Secret is relabelled meanwhile it is cleaned up as well. */
  lemma PassLowers(c: Config, run: seq<World>, j: nat, k: nat, pid: nat, calm: bool, p: Payload)
    requires Run(c, run) && PassRan(c, run, j, k, pid, calm) && Tracks(c, run[j], p)
    ensures Tracks(c, run[k], p) && Rank(c, run[k], p) <= if calm then 0 else 1
  {
    RunSnaps(c, run, j);
    PassNears(c, run, j, k, p, pid, calm);
  }

  /** A valid completed payload reaches the target for good. Over any run: once a
      pass that reads the staging Secret after the completion ends without an
      error, the target holds that payload in every later world without another
      completion, whatever passes run, overlap, fail or crash; and the staging
      Secret is quiet unless it was relabelled under that pass. */
  lemma DeliveredForGood(c: Config, run: seq<World>, j: nat, k: nat, pid: nat, calm: bool, p: Payload, m: nat)
    requires Run(c, run) && PassRan(c, run, j, k, pid, calm) && Holds(c, run[j], p) && Committable(c.spec, p)
    requires k <= m < |run| && forall i :: k < i <= m ==> CronFreeAt(c, run, i)
    ensures c.target in run[m].store.objects && TargetPayload(c, run[m]) == p
    ensures calm ==> SettledOn(c, run[m], p)
  {
    RunLasting(c, run, j);
    WaitingTracks(c, run[j], p);
    PassLowers(c, run, j, k, pid, calm, p);
    NeverFarther(c, run, k, m, p);
    RankMeans(c, run[m], p);
  }
}
