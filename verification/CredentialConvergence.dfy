/** Why the credential pipeline cannot wedge: when nothing is left to do, the
    read-back has materialised the assembled credential. */
module CredentialConvergence {
  import opened Options
  import opened Kube
  import opened AppCredential
  import opened CredentialProtocol

  function Last(w: World): Source
    requires w.history != []
  {
    w.history[|w.history| - 1]
  }

  /** The source Secret has had this hashed content. */
  ghost predicate Known(w: World, h: ContentHash) {
    exists i :: 0 <= i < |w.history| && w.history[i].doc == Some(h.doc) && w.history[i].cacert == h.cacert
  }

  /** The newest content's hash, and no earlier content's: what was replaced has
      not come back. */
  ghost predicate Newest(w: World, h: ContentHash) {
    && w.history != []
    && Last(w).doc == Some(h.doc) && Last(w).cacert == h.cacert
    && (forall i :: 0 <= i < |w.history| - 1 ==> w.history[i].doc != Some(h.doc) || w.history[i].cacert != h.cacert)
  }

  ghost predicate NewestMeta(w: World, m: Option<Meta>) {
    m.Some? && m.value.contentHash.Some? && Newest(w, m.value.contentHash.value)
  }

  ghost predicate KnownMeta(w: World, m: Meta) {
    m.contentHash.Some? ==> Known(w, m.contentHash.value)
  }

  ghost predicate KnownTrigger(w: World, t: Option<Trigger>) {
    t.Some? ==> Known(w, t.value.hash) && w.c.push.Some? && t.value.synced <= w.c.push.value.synced
  }

  /** Every hash in flight was computed from a content the source had, and every
      synced version from a completed push. */
  ghost predicate HashesOk(w: World) {
    && (w.c.push.Some? ==> KnownMeta(w, MetaOf(w.c.push.value)))
    && (w.push.Some? ==> KnownMeta(w, w.push.value.meta))
    && (w.lastPush.Some? ==> KnownMeta(w, w.lastPush.value))
    && (w.c.sync.Some? ==> KnownTrigger(w, w.c.sync.value.forceSync))
    && (w.pull.Some? ==> KnownTrigger(w, w.pull.value.trigger))
    && (w.lastPull.Some? ==> KnownTrigger(w, w.lastPull.value))
  }

  ghost predicate PassHashOk(w: World, p: PassState) {
    match p
    case Begun(_, _, _) => true
    case Read(_, _, _, o) => o.body in w.history
    case Pushed(h, _, synced) => Known(w, h) && w.c.push.Some? && synced <= w.c.push.value.synced
    case Written(h, _) => Known(w, h)
    case _ => Known(w, p.hash) && w.c.push.Some?
  }

  ghost predicate PassesHashOk(w: World) {
    forall pid :: pid in w.passes ==> PassHashOk(w, w.passes[pid])
  }

  /** A push that saw the newest hash has read the newest content; once it has
      completed, OpenBao holds that content. */
  ghost predicate PushOk(w: World) {
    && (w.push.Some? && NewestMeta(w, Some(w.push.value.meta)) ==> w.push.value.read == Last(w))
    && (w.push.Some? ==> w.c.push.Some?)
    && (w.push.Some? && w.push.value.written ==> w.bao == Some(w.push.value.read))
    && (w.lastPush.Some? ==> w.c.push.Some? && w.c.push.value.ready && w.bao.Some?)
    && (NewestMeta(w, w.lastPush) ==> w.bao == Some(Last(w)) && (w.push.Some? ==> w.push.value.read == Last(w)))
  }

  /** The trigger names the newest content and the latest completed push, which
      published that content. */
  ghost predicate Fresh(w: World, t: Option<Trigger>) {
    && t.Some? && Newest(w, t.value.hash) && NewestMeta(w, w.lastPush)
    && w.c.push.Some? && t.value.synced == w.c.push.value.synced
  }

  /** A read-back nudged by a fresh trigger reads the newest content. */
  ghost predicate PullOk(w: World) {
    && (w.pull.Some? && Fresh(w, w.pull.value.trigger) ==> w.pull.value.read == Last(w))
    && (w.lastPull.Some? ==> w.c.sync.Some? && w.c.sync.value.ready)
    && (w.lastPull.Some? && Fresh(w, w.lastPull.value) ==> w.c.materialised == Some(Last(w).doc))
  }

  ghost predicate SourceIsLast(w: World) {
    SOURCE in w.c.source.objects ==> w.history != [] && Last(w) == Current(w) && Snapshot(w, w.c.source.objects[SOURCE])
  }

  ghost predicate FlowInv(w: World) {
    HashesOk(w) && PassesHashOk(w) && PushOk(w) && PullOk(w) && SourceIsLast(w)
  }

  /* ---- A write of the source Secret ---- */

  /** The history grows, or stays with the source slot. */
  ghost predicate Grows(w: World, w': World) {
    && w.history < w'.history && |w'.history| == |w.history| + 1
    && w' == w.(c := w.c.(source := w'.c.source), history := w'.history, retired := w'.retired,
                writers := w'.writers, passes := w'.passes)
  }

  lemma GrowsHashes(w: World, w': World, h: ContentHash)
    requires Grows(w, w') && Known(w, h)
    ensures Known(w', h) && !Newest(w', h)
  {
    var i :| 0 <= i < |w.history| && w.history[i].doc == Some(h.doc) && w.history[i].cacert == h.cacert;
    assert w'.history[i] == w.history[i];
  }

  lemma GrowsFlow(w: World, w': World)
    requires Grows(w, w') && HashesOk(w) && PushOk(w) && PullOk(w)
    ensures HashesOk(w') && PushOk(w') && PullOk(w')
  {
    forall h | Known(w, h) ensures Known(w', h) && !Newest(w', h) {
      GrowsHashes(w, w', h);
    }
  }

  /** The source slot, the pushes and the pulls stay; only bookkeeping moves. */
  lemma SameFlow(w: World, w': World)
    requires HashesOk(w) && PushOk(w) && PullOk(w)
    requires w' == w.(writers := w'.writers, passes := w'.passes, used := w'.used, retired := w'.retired,
                      c := w.c.(source := w'.c.source))
    ensures HashesOk(w') && PushOk(w') && PullOk(w')
  {
    assert forall h :: Known(w', h) <==> Known(w, h);
    assert forall h :: Newest(w', h) <==> Newest(w, h);
  }

  lemma SettleFlow(w: World, s: Store<Source>)
    requires HashesOk(w) && PushOk(w) && PullOk(w) && SourceIsLast(w)
    requires s == w.c.source || SourceWrite(w, s)
    ensures HashesOk(Settle(w, s)) && PushOk(Settle(w, s)) && PullOk(Settle(w, s)) && SourceIsLast(Settle(w, s))
  {
    var w' := Settle(w, s);
    SettleIsLast(w, s);
    SettleShape(w, s);
    if w'.history == w.history { SameFlow(w, w'); } else { GrowsFlow(w, w'); }
  }

  lemma SettleShape(w: World, s: Store<Source>)
    requires s == w.c.source || SourceWrite(w, s)
    ensures
      var w' := Settle(w, s);
      Grows(w, w') || w' == w.(c := w.c.(source := s), retired := w'.retired)
  {
  }

  lemma SettleIsLast(w: World, s: Store<Source>)
    requires SourceIsLast(w) && (s == w.c.source || SourceWrite(w, s))
    ensures SourceIsLast(Settle(w, s))
  {
  }

  lemma SettlePassHash(w: World, s: Store<Source>, p: PassState)
    requires PassHashOk(w, p) && (s == w.c.source || SourceWrite(w, s))
    ensures PassHashOk(Settle(w, s), p)
  {
    var w' := Settle(w, s);
    forall h | Known(w, h) ensures Known(w', h) {
      var i :| 0 <= i < |w.history| && w.history[i].doc == Some(h.doc) && w.history[i].cacert == h.cacert;
      assert w'.history[i] == w.history[i];
    }
  }

  lemma WriterWriteFlow(fold: bool, w: World, pid: nat)
    requires SourceInv(w) && FlowInv(w) && Enabled(w, WriterWrite(pid))
    ensures FlowInv(Apply(fold, w, WriterWrite(pid)))
  {
    var wr := w.writers[pid];
    var w1 := w.(writers := w.writers - {pid});
    var s := EnsureOwned(w.c.source, wr.seen, wr.mutation).0;
    SameFlow(w, w1);
    SameSource(w, w1);
    assert WriterOk(w, wr) && WriterOk(w1, wr);
    EnsureOwnedWrites(w1, wr);
    SettleFlow(w1, s);
    KeepPassHashes(w, w1);
    SettlePassHashes(w1, s);
  }

  lemma SettlePassHashes(w: World, s: Store<Source>)
    requires PassesHashOk(w) && (s == w.c.source || SourceWrite(w, s))
    ensures PassesHashOk(Settle(w, s))
  {
    forall p | p in w.passes ensures PassHashOk(Settle(w, s), w.passes[p]) {
      assert PassHashOk(w, w.passes[p]);
      SettlePassHash(w, s, w.passes[p]);
    }
  }

  lemma SamePassHash(w: World, w': World, p: PassState)
    requires PassHashOk(w, p) && w'.history == w.history && w'.c.source == w.c.source
    requires w.c.push.Some? ==> w'.c.push.Some? && w.c.push.value.synced <= w'.c.push.value.synced
    ensures PassHashOk(w', p)
  {
    assert forall h :: Known(w', h) <==> Known(w, h);
  }

  lemma LoseSourceFlow(fold: bool, w: World)
    requires FlowInv(w) && Enabled(w, LoseSource)
    ensures FlowInv(Apply(fold, w, LoseSource))
  {
    var w' := Apply(fold, w, LoseSource);
    SameFlow(w, w');
    forall p | p in w'.passes ensures PassHashOk(w', w'.passes[p]) {
      assert PassHashOk(w, w.passes[p]);
      assert forall h :: Known(w', h) <==> Known(w, h);
    }
  }

  /** Moving passes along is harmless as long as each carries a known hash. */
  lemma PassesMove(w: World, w': World)
    requires FlowInv(w) && w' == w.(passes := w'.passes) && PassesHashOk(w')
    ensures FlowInv(w')
  {
    SameFlow(w, w');
  }

  lemma DropFlow(w: World, pid: nat)
    requires FlowInv(w)
    ensures FlowInv(Drop(w, pid))
  {
    var w' := Drop(w, pid);
    forall q | q in w'.passes ensures PassHashOk(w', w'.passes[q]) {
      assert PassHashOk(w, w.passes[q]);
      SamePassHash(w, w', w.passes[q]);
    }
    PassesMove(w, w');
  }

  lemma MoveFlow(w: World, pid: nat, p: PassState)
    requires FlowInv(w) && PassHashOk(w, p)
    ensures FlowInv(Move(w, pid, p))
  {
    var w' := Move(w, pid, p);
    forall q | q in w'.passes ensures PassHashOk(w', w'.passes[q]) {
      assert q != pid ==> PassHashOk(w, w.passes[q]);
      SamePassHash(w, w', w'.passes[q]);
    }
    PassesMove(w, w');
  }

  /** The hash a pass carries on belongs to a content the source has had. */
  lemma WriteKnown(w: World, p: PassState)
    requires SourceIsLast(w) && p.Read? && PassHashOk(w, p)
    requires Assemble(w.c, p.secret, p.id, p.cloud).1 == Ok
    ensures
      var s := Assemble(w.c, p.secret, p.id, p.cloud).0.source;
      Known(Settle(w, s), HashOf(Assembled(p.secret.body, p.id, p.cloud)))
  {
    var s := Assemble(w.c, p.secret, p.id, p.cloud).0.source;
    var w' := Settle(w, s);
    var assembled := Assembled(p.secret.body, p.id, p.cloud);
    if assembled == p.secret.body {
      var i :| 0 <= i < |w.history| && w.history[i] == p.secret.body;
      assert w'.history[i].doc == Some(HashOf(assembled).doc);
    } else {
      assert s.objects[SOURCE].body == assembled;
      assert w'.history[|w'.history| - 1] == assembled;
    }
  }

  lemma WriteFlow(fold: bool, w: World, pid: nat)
    requires FlowInv(w) && Enabled(w, Write(pid)) && PassSourceOk(w, w.passes[pid])
    ensures FlowInv(Apply(fold, w, Write(pid)))
  {
    var p := w.passes[pid];
    var (c, status) := Assemble(w.c, p.secret, p.id, p.cloud);
    if status != Ok {
      DropFlow(w, pid);
    } else {
      var w1 := Settle(w, c.source);
      SettleFlow(w, c.source);
      SettlePassHashes(w, c.source);
      WriteKnown(w, p);
      MoveFlow(w1, pid, Apply(fold, w, Write(pid)).passes[pid]);
    }
  }

  /* ---- Every other step ---- */

  /** Steps of the pushes and the read-backs leave the passes' hashes known. */
  lemma KeepPassHashes(w: World, w': World)
    requires PassesHashOk(w) && w'.history == w.history && w'.c.source == w.c.source
    requires w'.passes.Keys <= w.passes.Keys && (forall p :: p in w'.passes ==> w'.passes[p] == w.passes[p])
    requires w.c.push.Some? ==> w'.c.push.Some? && w.c.push.value.synced <= w'.c.push.value.synced
    ensures PassesHashOk(w')
  {
    forall p | p in w'.passes ensures PassHashOk(w', w'.passes[p]) {
      assert PassHashOk(w, w.passes[p]);
      SamePassHash(w, w', w.passes[p]);
    }
  }

  lemma SameHistory(w: World, w': World)
    requires w'.history == w.history
    ensures forall h :: Known(w', h) <==> Known(w, h)
    ensures forall h :: Newest(w', h) <==> Newest(w, h)
  {
  }

  lemma PushReadFlow(fold: bool, w: World)
    requires FlowInv(w) && Enabled(w, PushRead)
    ensures FlowInv(Apply(fold, w, PushRead))
  {
    SameHistory(w, Apply(fold, w, PushRead));
    KeepPassHashes(w, Apply(fold, w, PushRead));
  }

  lemma PushWriteFlow(fold: bool, w: World)
    requires FlowInv(w) && Enabled(w, PushWrite)
    ensures FlowInv(Apply(fold, w, PushWrite))
  {
    SameHistory(w, Apply(fold, w, PushWrite));
    KeepPassHashes(w, Apply(fold, w, PushWrite));
  }

  /** A completed push publishes a synced version no trigger can name yet. */
  lemma PushDoneFlow(fold: bool, w: World)
    requires FlowInv(w) && Enabled(w, PushDone)
    ensures FlowInv(Apply(fold, w, PushDone))
  {
    SameHistory(w, Apply(fold, w, PushDone));
    KeepPassHashes(w, Apply(fold, w, PushDone));
  }

  lemma PushFailFlow(fold: bool, w: World)
    requires FlowInv(w) && Enabled(w, PushFail)
    ensures FlowInv(Apply(fold, w, PushFail))
  {
    SameHistory(w, Apply(fold, w, PushFail));
    KeepPassHashes(w, Apply(fold, w, PushFail));
  }

  /** The read-back of a fresh trigger reads what the newest push wrote. */
  lemma PullReadFlow(fold: bool, w: World)
    requires FlowInv(w) && Enabled(w, PullRead)
    ensures FlowInv(Apply(fold, w, PullRead))
  {
    SameHistory(w, Apply(fold, w, PullRead));
    KeepPassHashes(w, Apply(fold, w, PullRead));
  }

  lemma PullWriteFlow(fold: bool, w: World)
    requires FlowInv(w) && Enabled(w, PullWrite)
    ensures FlowInv(Apply(fold, w, PullWrite))
  {
    SameHistory(w, Apply(fold, w, PullWrite));
    KeepPassHashes(w, Apply(fold, w, PullWrite));
  }

  lemma PullFailFlow(fold: bool, w: World)
    requires FlowInv(w) && Enabled(w, PullFail)
    ensures FlowInv(Apply(fold, w, PullFail))
  {
    SameHistory(w, Apply(fold, w, PullFail));
    KeepPassHashes(w, Apply(fold, w, PullFail));
  }

  lemma CreateFlow(fold: bool, w: World, a: Action)
    requires FlowInv(w) && Enabled(w, a) && (a.CreatePush? || a.CreateSync? || a.OtherStamp?)
    ensures FlowInv(Apply(fold, w, a))
  {
    SameHistory(w, Apply(fold, w, a));
    KeepPassHashes(w, Apply(fold, w, a));
  }

  lemma NudgePushFlow(fold: bool, w: World, pid: nat)
    requires FlowInv(w) && Enabled(w, NudgePush(pid))
    ensures FlowInv(Apply(fold, w, NudgePush(pid)))
  {
    var p := w.passes[pid];
    assert PassHashOk(w, p);
    var w1 := w.(c := StampPush(EnsurePushSecret(w.c), p.hash));
    SameHistory(w, w1);
    KeepPassHashes(w, w1);
    MoveFlow(w1, pid, Stamped(p.hash, p.retired));
  }

  lemma NudgeSyncFlow(fold: bool, w: World, pid: nat)
    requires FlowInv(w) && Enabled(w, NudgeSync(pid))
    ensures FlowInv(Apply(fold, w, NudgeSync(pid)))
  {
    var p := w.passes[pid];
    assert PassHashOk(w, p);
    var w1 := w.(c := StampSync(w.c, Trigger(p.hash, if fold then p.synced else 0)));
    SameHistory(w, w1);
    KeepPassHashes(w, w1);
    MoveFlow(w1, pid, Synced(p.hash, p.retired));
  }

  lemma GetFlow(fold: bool, w: World, pid: nat)
    requires SourceInv(w) && FlowInv(w) && Enabled(w, Get(pid))
    ensures FlowInv(Apply(fold, w, Get(pid)))
  {
    var w' := Apply(fold, w, Get(pid));
    if pid in w'.passes {
      assert Current(w) in w.history;
      MoveFlow(w, pid, w'.passes[pid]);
    } else {
      DropFlow(w, pid);
    }
  }

  lemma SeePushFlow(fold: bool, w: World, pid: nat)
    requires FlowInv(w) && Enabled(w, SeePush(pid))
    ensures FlowInv(Apply(fold, w, SeePush(pid)))
  {
    var w' := Apply(fold, w, SeePush(pid));
    assert PassHashOk(w, w.passes[pid]);
    if pid in w'.passes { MoveFlow(w, pid, w'.passes[pid]); } else { DropFlow(w, pid); }
  }

  lemma WriterFlow(fold: bool, w: World, a: Action)
    requires FlowInv(w) && Enabled(w, a) && (a.WriterRead? || a.WriterCrash?)
    ensures FlowInv(Apply(fold, w, a))
  {
    var w' := Apply(fold, w, a);
    SameFlow(w, w');
    KeepPassHashes(w, w');
  }

  /** The steps of the source's writers and of the operator. */
  predicate OnOperatorSide(a: Action) {
    a.WriterRead? || a.WriterWrite? || a.WriterCrash? || a.LoseSource? || a.Begin? || a.Get? || a.Write?
    || a.NudgePush? || a.SeePush? || a.NudgeSync? || a.Report? || a.Crash?
  }

  lemma OperatorFlow(fold: bool, w: World, a: Action)
    requires SourceInv(w) && FlowInv(w) && Enabled(w, a) && OnOperatorSide(a)
    ensures FlowInv(Apply(fold, w, a))
  {
    match a
    case WriterRead(_, _) => WriterFlow(fold, w, a);
    case WriterWrite(pid) => WriterWriteFlow(fold, w, pid);
    case WriterCrash(_) => WriterFlow(fold, w, a);
    case LoseSource => LoseSourceFlow(fold, w);
    case Begin(pid, id, cloud) => MoveFlow(w, pid, Begun(id, cloud, w.retired));
    case Get(pid) => GetFlow(fold, w, pid);
    case Write(pid) =>
      assert PassSourceOk(w, w.passes[pid]);
      WriteFlow(fold, w, pid);
    case NudgePush(pid) => NudgePushFlow(fold, w, pid);
    case SeePush(pid) => SeePushFlow(fold, w, pid);
    case NudgeSync(pid) => NudgeSyncFlow(fold, w, pid);
    case Report(pid) => DropFlow(w, pid);
    case Crash(pid) => DropFlow(w, pid);
    case _ =>
  }

  lemma EsoFlow(fold: bool, w: World, a: Action)
    requires FlowInv(w) && Enabled(w, a) && !OnOperatorSide(a)
    ensures FlowInv(Apply(fold, w, a))
  {
    match a
    case PushRead => PushReadFlow(fold, w);
    case PushWrite => PushWriteFlow(fold, w);
    case PushDone => PushDoneFlow(fold, w);
    case PushFail => PushFailFlow(fold, w);
    case PullRead => PullReadFlow(fold, w);
    case PullWrite => PullWriteFlow(fold, w);
    case PullFail => PullFailFlow(fold, w);
    case CreatePush => CreateFlow(fold, w, a);
    case CreateSync => CreateFlow(fold, w, a);
    case OtherStamp(_) => CreateFlow(fold, w, a);
    case _ =>
  }

  lemma StepFlow(fold: bool, w: World, a: Action)
    requires SourceInv(w) && FlowInv(w) && Enabled(w, a)
    ensures FlowInv(Apply(fold, w, a))
  {
    if OnOperatorSide(a) { OperatorFlow(fold, w, a); } else { EsoFlow(fold, w, a); }
  }

  lemma {:induction false} RunFlow(fold: bool, run: seq<World>, k: nat)
    requires Run(fold, run) && k < |run|
    ensures SourceInv(run[k]) && FlowInv(run[k])
  {
    RunSource(fold, run, k);
    if k > 0 {
      RunFlow(fold, run, k - 1);
      assert Step(fold, run[k - 1], run[k]);
      var a :| Enabled(run[k - 1], a) && run[k] == Apply(fold, run[k - 1], a);
      StepFlow(fold, run[k - 1], a);
    }
  }
}
