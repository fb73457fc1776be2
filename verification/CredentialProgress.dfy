/** No wedge: where no agent has anything left to do, the materialised Secret
    carries the assembled credential; and every run gets there after finitely
    many nudges, pushes and read-backs, without a timed refresh. */
module CredentialProgress {
  import opened Options
  import opened Kube
  import opened AppCredential
  import opened CredentialProtocol
  import opened CredentialConvergence

  /* ---- One pass that nobody interrupts ---- */

  datatype Operator = Operator(pid: nat, id: string, cloud: string)

  function Then(fold: bool, w: World, a: Action): World {
    if Enabled(w, a) then Apply(fold, w, a) else w
  }

  function SoloAssemble(fold: bool, w: World, op: Operator): World {
    var w1 := Then(fold, w, Begin(op.pid, op.id, op.cloud));
    Then(fold, Then(fold, w1, Get(op.pid)), Write(op.pid))
  }

  function SoloNudge(fold: bool, w: World, pid: nat): World {
    Then(fold, Then(fold, Then(fold, w, NudgePush(pid)), SeePush(pid)), NudgeSync(pid))
  }

  function BeforeReport(fold: bool, w: World, op: Operator): World {
    SoloNudge(fold, SoloAssemble(fold, w, op), op.pid)
  }

  function SoloPass(fold: bool, w: World, op: Operator): World {
    Then(fold, BeforeReport(fold, w, op), Report(op.pid))
  }

  function InputsOf(op: Operator): Inputs { Inputs(KorcReady, true, op.id, op.cloud, None) }

  function Target(w: World, op: Operator): ContentHash
    requires SOURCE in w.c.source.objects
  {
    HashOf(Assembled(Current(w), op.id, op.cloud))
  }

  ghost predicate GatesOpen(w: World, op: Operator) {
    op.pid !in w.passes && Gate(w.c, InputsOf(op), None) == None
  }

  lemma SoloAssembles(w: World, op: Operator)
    requires GatesOpen(w, op)
    ensures
      var w' := SoloAssemble(true, w, op);
      var o := w.c.source.objects[SOURCE];
      && w'.c == Assemble(w.c, o, op.id, op.cloud).0
      && w'.passes == w.passes[op.pid := Written(HashOf(Assembled(o.body, op.id, op.cloud)), w.retired)]
  {
    var w1 := Then(true, w, Begin(op.pid, op.id, op.cloud));
    var o := w.c.source.objects[SOURCE];
    var w2 := Then(true, w1, Get(op.pid));
    assert w2 == Move(w1, op.pid, Read(op.id, op.cloud, w.retired, o));
    var (c, status) := Assemble(w.c, o, op.id, op.cloud);
    assert status == Ok;
  }

  lemma SoloStamps(w: World, pid: nat)
    requires pid in w.passes && w.passes[pid].Written?
    ensures
      var p := w.passes[pid];
      var w' := Then(true, Then(true, w, NudgePush(pid)), SeePush(pid));
      && w'.c == StampPush(EnsurePushSecret(w.c), p.hash)
      && w'.passes - {pid} == w.passes - {pid}
      && (if w'.c.push.value.ready then pid in w'.passes && w'.passes[pid] == Pushed(p.hash, p.retired, w'.c.push.value.synced)
          else pid !in w'.passes)
  {
    var p := w.passes[pid];
    var w1 := Then(true, w, NudgePush(pid));
    assert w1.c == StampPush(EnsurePushSecret(w.c), p.hash) && w1.passes == w.passes[pid := Stamped(p.hash, p.retired)];
  }

  lemma SoloNudges(w: World, pid: nat)
    requires pid in w.passes && w.passes[pid].Written?
    ensures
      var w' := SoloNudge(true, w, pid);
      var inp := Inputs(KorcReady, true, "", "", None);
      var result := Propagate(w.c, w.passes[pid].hash, inp, None);
      && w'.c == result.0
      && w'.passes - {pid} == w.passes - {pid}
      && (ReportsReady(w', pid) <==> result.1 == Ready)
      && (pid in w'.passes ==> w'.passes[pid].Synced?)
  {
    SoloStamps(w, pid);
    var w2 := Then(true, Then(true, w, NudgePush(pid)), SeePush(pid));
    SoloTriggers(w2, pid);
  }

  lemma SoloTriggers(w: World, pid: nat)
    ensures
      var w' := Then(true, w, NudgeSync(pid));
      if pid in w.passes && w.passes[pid].Pushed? then
        var p := w.passes[pid];
        w'.c == StampSync(w.c, Trigger(p.hash, p.synced)) && w'.passes == w.passes[pid := Synced(p.hash, p.retired)]
      else w' == w
  {
  }

  lemma PassFactors(w: World, w1: World, w2: World, op: Operator)
    requires GatesOpen(w, op)
    requires w1.c == Assemble(w.c, w.c.source.objects[SOURCE], op.id, op.cloud).0
    requires w1.passes == w.passes[op.pid := Written(Target(w, op), w.retired)]
    requires w2.c == Propagate(w1.c, Target(w, op), Inputs(KorcReady, true, "", "", None), None).0
    requires w2.passes - {op.pid} == w1.passes - {op.pid}
    requires op.pid in w2.passes ==> w2.passes[op.pid].Synced?
    ensures Then(true, w2, Report(op.pid)).c == Pass(w.c, InputsOf(op), None).0
    ensures Then(true, w2, Report(op.pid)).passes == w.passes
    ensures Pass(w.c, InputsOf(op), None).1
         == Propagate(w1.c, Target(w, op), Inputs(KorcReady, true, "", "", None), None).1
  {
    assert w1.passes - {op.pid} == w.passes;
    if op.pid !in w2.passes { assert w2.passes == w2.passes - {op.pid}; }
  }

  /** The machine's steps, taken in a row, are the pass. */
  lemma SoloPassIsPass(w: World, op: Operator)
    requires GatesOpen(w, op)
    ensures SoloPass(true, w, op).c == Pass(w.c, InputsOf(op), None).0
    ensures SoloPass(true, w, op).passes == w.passes
    ensures ReportsReady(BeforeReport(true, w, op), op.pid) <==> Pass(w.c, InputsOf(op), None).1 == Ready
  {
    SoloAssembles(w, op);
    SoloNudges(SoloAssemble(true, w, op), op.pid);
    PassFactors(w, SoloAssemble(true, w, op), BeforeReport(true, w, op), op);
  }

  /* ---- Nothing left to do ---- */

  predicate PushPending(w: World) {
    w.c.push.Some? && (if w.push.Some? then w.push.value.meta != MetaOf(w.c.push.value)
                       else w.lastPush != Some(MetaOf(w.c.push.value)))
  }

  predicate PullPending(w: World) {
    w.c.sync.Some? && (if w.pull.Some? then w.pull.value.trigger != w.c.sync.value.forceSync
                       else w.lastPull != Some(w.c.sync.value.forceSync))
  }

  /** ESO owes neither a push nor a read-back. */
  predicate Idle(w: World) {
    w.push == None && w.pull == None && !PushPending(w) && !PullPending(w)
  }

  /** No content the source Secret had before the current one carries the hash:
      what was replaced has not come back. */
  ghost predicate NotRecurred(w: World, h: ContentHash) {
    forall i :: 0 <= i < |w.history| - 1 ==> w.history[i].doc != Some(h.doc) || w.history[i].cacert != h.cacert
  }

  /** Nobody has anything left to do: ESO is idle and a pass changes nothing. */
  ghost predicate Settled(w: World, op: Operator) {
    Idle(w) && Pass(w.c, InputsOf(op), None).0 == w.c
  }

  ghost predicate Mirrors(w: World, op: Operator) {
    && SOURCE in w.c.source.objects
    && w.c.materialised == Some(Some(AppCred(op.id, Current(w).value, op.cloud)))
    && Pass(w.c, InputsOf(op), None).1 == Ready
  }

  lemma SettledIsMirrored(w: World, op: Operator)
    requires FlowInv(w) && GatesOpen(w, op) && NotRecurred(w, Target(w, op)) && Settled(w, op)
    ensures Mirrors(w, op)
  {
    QuietPass(w.c, InputsOf(op));
    SettledMirrors(w, Target(w, op));
  }

  /** Where ESO is idle and an operator pass changes nothing, the materialised
      Secret carries the reported id and the source Secret's value, and the pass
      says so; provided the content has not recurred. */
  lemma NoWedge(run: seq<World>, k: nat, op: Operator)
    requires Run(true, run) && k < |run| && GatesOpen(run[k], op)
    requires NotRecurred(run[k], Target(run[k], op))
    requires Settled(run[k], op)
    ensures Mirrors(run[k], op)
  {
    RunFlow(true, run, k);
    SettledIsMirrored(run[k], op);
  }

  /** An idle ESO whose push carries the newest hash, and whose trigger names that
      hash and the last push, has materialised the newest document. */
  lemma SettledMirrors(w: World, h: ContentHash)
    requires PushOk(w) && PullOk(w) && Idle(w) && SourceIsLast(w) && NotRecurred(w, h)
    requires SOURCE in w.c.source.objects && Current(w).doc == Some(h.doc) && Current(w).cacert == h.cacert
    requires w.c.push.Some? && w.c.push.value.contentHash == Some(h)
    requires w.c.push.value.ready ==> w.c.sync.Some? && w.c.sync.value.forceSync == Some(Trigger(h, w.c.push.value.synced))
    ensures w.c.push.value.ready && w.c.materialised == Some(Some(h.doc))
  {
    assert w.lastPush == Some(MetaOf(w.c.push.value));
    assert NewestMeta(w, w.lastPush);
  }

  /** What a pass that changes nothing has found. */
  lemma QuietPass(c: Cluster, inp: Inputs)
    requires Gate(c, inp, None) == None && Pass(c, inp, None).0 == c
    ensures
      var assembled := Assembled(c.source.objects[SOURCE].body, inp.id, inp.cloud);
      && c.source.objects[SOURCE].body == assembled
      && c.push.Some? && c.push.value.contentHash == Some(HashOf(assembled))
      && (c.push.value.ready ==>
            c.sync.Some? && c.sync.value.forceSync == Some(Trigger(HashOf(assembled), c.push.value.synced)))
  {
    var o := c.source.objects[SOURCE];
    var assembled := Assembled(o.body, inp.id, inp.cloud);
    var c1 := Assemble(c, o, inp.id, inp.cloud).0;
    var result := Propagate(c1, HashOf(assembled), inp, None).0;
    assert Pass(c, inp, None).0 == result;
    assert result.source == c1.source;
    assert c1.source.objects[SOURCE].body == assembled;
  }

  /* ---- Finitely many nudges ---- */

  /** Whether a step changed something an agent can see. */
  function Effect(w: World, w': World): nat { if Observable(w) == Observable(w') then 0 else 1 }

  /** What a step can change besides the pass's own progress. */
  function Observable(w: World): (Cluster, Option<Source>, Option<Push>, Option<Meta>, Option<Pull>, Option<Option<Trigger>>) {
    (w.c, w.bao, w.push, w.lastPush, w.pull, w.lastPull)
  }

  /** The minted credential is stable: passes of one operator, pushes and
      read-backs that are due, and no failure, refresh or other writer. */
  predicate Undisturbed(w: World, a: Action, op: Operator) {
    match a
    case Begin(pid, id, cloud) => Operator(pid, id, cloud) == op
    case Get(pid) => pid == op.pid
    case Write(pid) => pid == op.pid
    case NudgePush(pid) => pid == op.pid
    case SeePush(pid) => pid == op.pid
    case NudgeSync(pid) => pid == op.pid
    case Report(pid) => pid == op.pid
    case Crash(pid) => pid == op.pid
    case PushRead => PushPending(w)
    case PushWrite => true
    case PushDone => true
    case PullRead => PullPending(w)
    case PullWrite => true
    case _ => false
  }

  function SyncedVersion(w: World): nat { if w.c.push.Some? then w.c.push.value.synced else 0 }

  /** The only pass is this operator's, and it works on the live Secret. */
  ghost predicate Steady(w: World, op: Operator) {
    && op.id != "" && w.c.sync.Some?
    && SOURCE in w.c.source.objects && Current(w).value != ""
    && w.passes.Keys <= {op.pid}
    && (op.pid in w.passes ==> StagePlan(w, w.passes[op.pid], op))
    && (w.c.sync.value.forceSync.Some? ==> w.c.sync.value.forceSync.value.synced <= SyncedVersion(w))
    && (w.lastPush.Some? ==> w.c.push.Some?)
    && (w.push.Some? ==> w.c.push.Some?)
  }

  ghost predicate StagePlan(w: World, p: PassState, op: Operator)
    requires SOURCE in w.c.source.objects && w.c.sync.Some?
  {
    match p
    case Begun(id, cloud, _) => id == op.id && cloud == op.cloud
    case Read(id, cloud, _, o) => id == op.id && cloud == op.cloud && o == w.c.source.objects[SOURCE]
    case Pushed(h, _, synced) =>
      && h == Target(w, op) && synced <= SyncedVersion(w)
      && (w.c.sync.value.forceSync.Some? ==> w.c.sync.value.forceSync.value.hash == h ==> w.c.sync.value.forceSync.value.synced <= synced)
    case _ => p.hash == Target(w, op)
  }

  function AssembleDebt(w: World, op: Operator): nat
    requires SOURCE in w.c.source.objects
  {
    if Current(w) == Assembled(Current(w), op.id, op.cloud) then 0 else 1
  }

  function StampDebt(w: World, op: Operator): nat
    requires SOURCE in w.c.source.objects
  {
    if w.c.push.Some? && w.c.push.value.contentHash == Some(Target(w, op)) then 0 else 1
  }

  function PushDebt(w: World): nat {
    (if w.push == None then 0 else if w.push.value.written then 1 else 2) + (if PushPending(w) then 3 else 0)
  }

  function SyncDebt(w: World, op: Operator): nat
    requires Steady(w, op)
  {
    var trigger := w.c.sync.value.forceSync;
    if trigger.Some? && trigger.value.hash == Target(w, op) then SyncedVersion(w) - trigger.value.synced
    else SyncedVersion(w) + 1
  }

  function PullDebt(w: World): nat {
    (if w.pull == None then 0 else 1) + (if PullPending(w) then 2 else 0)
  }

  /** What is left to do: a write costs a stamp at most, a stamp one push, a push
      one more trigger, a trigger one read-back. */
  function Measure(w: World, op: Operator): nat
    requires Steady(w, op)
  {
    AssembleDebt(w, op) + 13 * StampDebt(w, op) + 4 * PushDebt(w) + 3 * SyncDebt(w, op) + PullDebt(w)
  }

  ghost predicate Improves(w: World, w': World, op: Operator)
    requires Steady(w, op)
  {
    Steady(w', op) && Measure(w', op) + Effect(w, w') <= Measure(w, op)
  }

  /** A step on the read-back's side moves only the read-back's debt. */
  lemma PullSide(w: World, w': World, op: Operator)
    requires Steady(w, op)
    requires w'.c.source == w.c.source && w'.c.push == w.c.push && w'.passes == w.passes
    requires w'.push == w.push && w'.lastPush == w.lastPush
    requires w'.c.sync.Some? && w'.c.sync.value.forceSync == w.c.sync.value.forceSync
    ensures Steady(w', op) && Measure(w', op) - PullDebt(w') == Measure(w, op) - PullDebt(w)
  {
  }

  /** A step on the push's side moves only the push's debt, and, with a newly
      synced version, the trigger's. */
  lemma PushSide(w: World, w': World, op: Operator)
    requires Steady(w, op)
    requires w'.c.source == w.c.source && w'.c.sync == w.c.sync && w'.passes == w.passes
    requires w.c.push.Some? && w'.c.push.Some? && w'.c.push.value.contentHash == w.c.push.value.contentHash
    requires w'.c.push.value.synced >= w.c.push.value.synced
    requires w'.pull == w.pull && w'.lastPull == w.lastPull
    ensures Steady(w', op)
    ensures Measure(w', op) - 4 * PushDebt(w') - 3 * SyncedVersion(w')
         == Measure(w, op) - 4 * PushDebt(w) - 3 * SyncedVersion(w)
  {
  }

  lemma PushReadImproves(w: World, op: Operator)
    requires Steady(w, op) && Enabled(w, PushRead) && Undisturbed(w, PushRead, op)
    ensures Improves(w, Apply(true, w, PushRead), op)
  {
    PushSide(w, Apply(true, w, PushRead), op);
  }

  lemma PushWriteImproves(w: World, op: Operator)
    requires Steady(w, op) && Enabled(w, PushWrite) && Undisturbed(w, PushWrite, op)
    ensures Improves(w, Apply(true, w, PushWrite), op)
  {
    PushSide(w, Apply(true, w, PushWrite), op);
  }

  lemma PushDoneImproves(w: World, op: Operator)
    requires Steady(w, op) && Enabled(w, PushDone) && Undisturbed(w, PushDone, op)
    ensures Improves(w, Apply(true, w, PushDone), op)
  {
    PushSide(w, Apply(true, w, PushDone), op);
  }

  lemma PullReadImproves(w: World, op: Operator)
    requires Steady(w, op) && Enabled(w, PullRead) && Undisturbed(w, PullRead, op)
    ensures Improves(w, Apply(true, w, PullRead), op)
  {
    PullSide(w, Apply(true, w, PullRead), op);
  }

  lemma PullWriteImproves(w: World, op: Operator)
    requires Steady(w, op) && Enabled(w, PullWrite) && Undisturbed(w, PullWrite, op)
    ensures Improves(w, Apply(true, w, PullWrite), op)
  {
    PullSide(w, Apply(true, w, PullWrite), op);
  }

  lemma SameMeasure(w: World, w': World, op: Operator)
    requires Steady(w, op) && Steady(w', op) && Observable(w) == Observable(w')
    ensures Improves(w, w', op)
  {
    assert Target(w, op) == Target(w', op);
    assert SyncDebt(w, op) == SyncDebt(w', op);
  }

  lemma BookkeepingImproves(w: World, a: Action, op: Operator)
    requires Steady(w, op) && Enabled(w, a) && Undisturbed(w, a, op)
    requires a.Begin? || a.Get? || a.SeePush? || a.Report? || a.Crash?
    ensures Improves(w, Apply(true, w, a), op)
  {
    var w' := Apply(true, w, a);
    assert Observable(w') == Observable(w);
    assert Steady(w', op);
    SameMeasure(w, w', op);
  }

  /** What the write of a pass in step does: the live Secret gets the document,
      and nothing else moves. */
  lemma WriteEffect(w: World, op: Operator)
    requires Steady(w, op) && Enabled(w, Write(op.pid))
    ensures
      var w' := Apply(true, w, Write(op.pid));
      && w'.c == w.c.(source := w'.c.source) && SOURCE in w'.c.source.objects
      && Current(w') == Assembled(Current(w), op.id, op.cloud)
      && (Current(w') == Current(w) ==> w'.c == w.c)
      && w'.passes == w.passes[op.pid := Written(Target(w, op), w.passes[op.pid].retired)]
      && (w'.bao, w'.push, w'.lastPush, w'.pull, w'.lastPull) == (w.bao, w.push, w.lastPush, w.pull, w.lastPull)
  {
    var o := w.c.source.objects[SOURCE];
    assert w.passes[op.pid].secret == o;
    assert Assemble(w.c, o, op.id, op.cloud).1 == Ok;
  }

  lemma WriteImproves(w: World, op: Operator)
    requires Steady(w, op) && Enabled(w, Write(op.pid))
    ensures Improves(w, Apply(true, w, Write(op.pid)), op)
  {
    WriteEffect(w, op);
    Rewritten(w, Apply(true, w, Write(op.pid)), op);
  }

  lemma Rewritten(w: World, w': World, op: Operator)
    requires Steady(w, op) && w'.c == w.c.(source := w'.c.source) && SOURCE in w'.c.source.objects
    requires Current(w') == Assembled(Current(w), op.id, op.cloud) && (Current(w') == Current(w) ==> w'.c == w.c)
    requires op.pid in w.passes && !w.passes[op.pid].Begun?
    requires w'.passes == w.passes[op.pid := Written(Target(w, op), w.passes[op.pid].retired)]
    requires (w'.bao, w'.push, w'.lastPush, w'.pull, w'.lastPull) == (w.bao, w.push, w.lastPush, w.pull, w.lastPull)
    ensures Improves(w, w', op)
  {
    assert Target(w', op) == Target(w, op);
    assert Steady(w', op);
    assert SyncDebt(w', op) == SyncDebt(w, op);
    assert AssembleDebt(w', op) == 0;
  }

  /** A pass that stamps the push owes the stamp no longer, and a push at most. */
  lemma Stamp(w: World, w': World, op: Operator)
    requires Steady(w, op) && op.pid in w.passes && w.passes[op.pid].Written?
    requires w'.c == StampPush(EnsurePushSecret(w.c), Target(w, op))
    requires w'.passes == w.passes[op.pid := Stamped(Target(w, op), w.passes[op.pid].retired)]
    requires (w'.bao, w'.push, w'.lastPush, w'.pull, w'.lastPull) == (w.bao, w.push, w.lastPush, w.pull, w.lastPull)
    ensures Improves(w, w', op)
  {
    assert w'.c.source == w.c.source && w'.c.sync == w.c.sync && SyncedVersion(w') == SyncedVersion(w);
    assert Steady(w', op) && SyncDebt(w', op) == SyncDebt(w, op);
    assert StampDebt(w', op) == 0;
    if StampDebt(w, op) == 0 { assert w'.c == w.c; }
  }

  lemma NudgePushImproves(w: World, op: Operator)
    requires Steady(w, op) && Enabled(w, NudgePush(op.pid))
    ensures Improves(w, Apply(true, w, NudgePush(op.pid)), op)
  {
    Stamp(w, Apply(true, w, NudgePush(op.pid)), op);
  }

  /** A pass that sets the trigger owes the versions it names no longer, and a
      read-back at most. */
  lemma SetTrigger(w: World, w': World, op: Operator)
    requires Steady(w, op) && op.pid in w.passes && w.passes[op.pid].Pushed?
    requires w'.c == StampSync(w.c, Trigger(Target(w, op), w.passes[op.pid].synced))
    requires w'.passes == w.passes[op.pid := Synced(Target(w, op), w.passes[op.pid].retired)]
    requires (w'.bao, w'.push, w'.lastPush, w'.pull, w'.lastPull) == (w.bao, w.push, w.lastPush, w.pull, w.lastPull)
    ensures Improves(w, w', op)
  {
    assert w'.c.source == w.c.source && w'.c.push == w.c.push;
    assert Steady(w', op);
    assert SyncDebt(w', op) == SyncedVersion(w) - w.passes[op.pid].synced;
    if SyncDebt(w', op) == SyncDebt(w, op) { assert w'.c == w.c; }
  }

  lemma NudgeSyncImproves(w: World, op: Operator)
    requires Steady(w, op) && Enabled(w, NudgeSync(op.pid))
    ensures Improves(w, Apply(true, w, NudgeSync(op.pid)), op)
  {
    SetTrigger(w, Apply(true, w, NudgeSync(op.pid)), op);
  }

  /** Every step either changes nothing the agents can see or pays off debt. */
  lemma SteadyStep(w: World, a: Action, op: Operator)
    requires Steady(w, op) && Enabled(w, a) && Undisturbed(w, a, op)
    ensures Improves(w, Apply(true, w, a), op)
  {
    match a
    case Write(_) => WriteImproves(w, op);
    case NudgePush(_) => NudgePushImproves(w, op);
    case NudgeSync(_) => NudgeSyncImproves(w, op);
    case Begin(_, _, _) => BookkeepingImproves(w, a, op);
    case Get(_) => BookkeepingImproves(w, a, op);
    case SeePush(_) => BookkeepingImproves(w, a, op);
    case Report(_) => BookkeepingImproves(w, a, op);
    case Crash(_) => BookkeepingImproves(w, a, op);
    case PushRead => PushReadImproves(w, op);
    case PushWrite => PushWriteImproves(w, op);
    case PushDone => PushDoneImproves(w, op);
    case PullRead => PullReadImproves(w, op);
    case PullWrite => PullWriteImproves(w, op);
  }

  ghost predicate UndisturbedStep(op: Operator, w: World, w': World) {
    exists a :: Enabled(w, a) && Undisturbed(w, a, op) && w' == Apply(true, w, a)
  }

  ghost predicate UndisturbedRun(op: Operator, run: seq<World>) {
    |run| > 0 && forall i :: 0 < i < |run| ==> UndisturbedStep(op, run[i - 1], run[i])
  }

  /** The steps of a run that changed something an agent can see. */
  function Effects(run: seq<World>): nat {
    if |run| < 2 then 0
    else Effects(run[..|run| - 1]) + Effect(run[|run| - 2], run[|run| - 1])
  }

  lemma UndisturbedPays(w: World, w': World, op: Operator)
    requires Steady(w, op) && UndisturbedStep(op, w, w')
    ensures Improves(w, w', op)
  {
    var a :| Enabled(w, a) && Undisturbed(w, a, op) && w' == Apply(true, w, a);
    SteadyStep(w, a, op);
  }

  /** However the passes, the pushes and the read-backs interleave, they change
      something at most as often as the measure of the starting point. */
  lemma {:induction false} FinitelyManyEffects(run: seq<World>, op: Operator)
    requires UndisturbedRun(op, run) && Steady(run[0], op)
    ensures Steady(run[|run| - 1], op)
    ensures Effects(run) + Measure(run[|run| - 1], op) <= Measure(run[0], op)
  {
    var n := |run| - 1;
    if n > 0 {
      FinitelyManyEffects(run[..n], op);
      assert UndisturbedStep(op, run[n - 1], run[n]);
      UndisturbedPays(run[n - 1], run[n], op);
    }
  }

  predicate EsoStep(a: Action) {
    a.PushRead? || a.PushWrite? || a.PushDone? || a.PullRead? || a.PullWrite?
  }

  predicate EsoDue(w: World, a: Action, op: Operator) { EsoStep(a) && Enabled(w, a) && Undisturbed(w, a, op) }

  lemma EsoHasStep(w: World, op: Operator)
    requires PushOk(w) && !Idle(w) && SOURCE in w.c.source.objects && w.c.sync.Some? && w.c.push.Some?
    ensures exists a :: EsoDue(w, a, op)
  {
    var a :=
      if w.push.Some? then (if w.push.value.written then PushDone else PushWrite)
      else if PushPending(w) then PushRead
      else if w.pull.Some? then PullWrite
      else PullRead;
    assert EsoDue(w, a, op);
  }

  /** As long as the credential has not been mirrored, either ESO has a step to
      take or the next pass changes something. */
  lemma UnsettledHasStep(w: World, op: Operator)
    requires FlowInv(w) && GatesOpen(w, op) && !Settled(w, op)
    ensures (exists a :: EsoDue(w, a, op)) || SoloPass(true, w, op).c != w.c
  {
    SoloPassIsPass(w, op);
    if SoloPass(true, w, op).c == w.c {
      QuietPass(w.c, InputsOf(op));
      EsoHasStep(w, op);
    }
  }
}
