/** The credential pipeline as a state machine: any number of optimistic writers
    of the source Secret and of operator passes, ESO's push to OpenBao and ESO's
    read-back, all interleaved call by call. */
module CredentialProtocol {
  import opened Options
  import opened Kube
  import opened AppCredential

  /** The metadata ESO's push gate hashes, and what the read-back saw. */
  datatype Meta = Meta(contentHash: Option<ContentHash>, other: string)

  /** A push under way: it has read the source and may have written OpenBao. */
  datatype Push = Push(meta: Meta, read: Source, written: bool)

  /** A read-back under way: it has read OpenBao. */
  datatype Pull = Pull(trigger: Option<Trigger>, read: Source)

  datatype Writer = Writer(mutation: Mutation, seen: Option<Object<Source>>)

  /** Where an operator pass stands; `retired` is what had been replaced when it
      began. */
  datatype PassState =
    | Begun(id: string, cloud: string, retired: set<string>)
    | Read(id: string, cloud: string, retired: set<string>, secret: Object<Source>)
    | Written(hash: ContentHash, retired: set<string>)
    | Stamped(hash: ContentHash, retired: set<string>)
    | Pushed(hash: ContentHash, retired: set<string>, synced: nat)
    | Synced(hash: ContentHash, retired: set<string>)

  /** `history` lists the contents the source Secret has had, `used` the
      generated values, `retired` those a regenerate or a deletion replaced. */
  datatype World = World(
    c: Cluster, bao: Option<Source>,
    push: Option<Push>, lastPush: Option<Meta>,
    pull: Option<Pull>, lastPull: Option<Option<Trigger>>,
    writers: map<nat, Writer>, passes: map<nat, PassState>,
    history: seq<Source>, used: set<string>, retired: set<string>)

  datatype Action =
    | WriterRead(pid: nat, mutation: Mutation)
    | WriterWrite(pid: nat)
    | WriterCrash(pid: nat)
    | LoseSource
    | CreatePush | CreateSync | OtherStamp(other: string)
    | Begin(pid: nat, id: string, cloud: string)
    | Get(pid: nat)
    | Write(pid: nat)
    | NudgePush(pid: nat)
    | SeePush(pid: nat)
    | NudgeSync(pid: nat)
    | Report(pid: nat)
    | Crash(pid: nat)
    | PushRead | PushWrite | PushDone | PushFail
    | PullRead | PullWrite | PullFail

  function MetaOf(ps: PushSecret): Meta { Meta(ps.contentHash, ps.other) }

  function Current(w: World): Source
    requires SOURCE in w.c.source.objects
  {
    w.c.source.objects[SOURCE].body
  }

  function Generated(m: Mutation): set<string> {
    match m
    case EnsureValue(v, _) => {v}
    case Regenerate(v) => {v}
    case Seed(_, _) => {}
  }

  predicate Enabled(w: World, a: Action) {
    match a
    case WriterRead(pid, m) => pid !in w.writers && Generated(m) !! w.used + {""}
    case WriterWrite(pid) => pid in w.writers
    case WriterCrash(pid) => pid in w.writers
    case LoseSource => SOURCE in w.c.source.objects
    case CreatePush => w.c.push == None
    case CreateSync => w.c.sync == None
    case OtherStamp(_) => w.c.push.Some?
    case Begin(pid, id, _) => pid !in w.passes && id != "" && w.c.sync.Some? && w.c.sync.value.ready
    case Get(pid) => pid in w.passes && w.passes[pid].Begun?
    case Write(pid) => pid in w.passes && w.passes[pid].Read?
    case NudgePush(pid) => pid in w.passes && w.passes[pid].Written?
    case SeePush(pid) => pid in w.passes && w.passes[pid].Stamped? && w.c.push.Some?
    case NudgeSync(pid) => pid in w.passes && w.passes[pid].Pushed?
    case Report(pid) => pid in w.passes && w.passes[pid].Synced?
    case Crash(pid) => pid in w.passes
    case PushRead => w.c.push.Some? && w.push == None && SOURCE in w.c.source.objects
    case PushWrite => w.push.Some? && !w.push.value.written
    case PushDone => w.push.Some? && w.push.value.written && w.c.push.Some?
    case PushFail => w.c.push.Some?
    case PullRead => w.c.sync.Some? && w.pull == None && w.bao.Some?
    case PullWrite => w.pull.Some? && w.c.sync.Some?
    case PullFail => w.c.sync.Some?
  }

  /** The world after a write to the source slot: a changed content enters the
      history and the value it replaced is retired. */
  function Settle(w: World, s: Store<Source>): World {
    var before := if SOURCE in w.c.source.objects then Some(Current(w)) else None;
    var after := if SOURCE in s.objects then Some(s.objects[SOURCE].body) else None;
    if before == after then w.(c := w.c.(source := s))
    else w.(c := w.c.(source := s),
            history := if after == None then w.history else w.history + [after.value],
            retired := if before.Some? && before.value.value != "" && (after == None || after.value.value != before.value.value)
                       then w.retired + {before.value.value} else w.retired)
  }

  function Move(w: World, pid: nat, p: PassState): World { w.(passes := w.passes[pid := p]) }
  function Drop(w: World, pid: nat): World { w.(passes := w.passes - {pid}) }

  /** `fold` says whether the read-back nudge folds the completed push into its
      trigger, as the source does, or keys on the content hash alone. */
  function Apply(fold: bool, w: World, a: Action): World
    requires Enabled(w, a)
  {
    match a
    case WriterRead(pid, m) =>
      w.(writers := w.writers[pid := Writer(m, w.c.source.Get(SOURCE))], used := w.used + Generated(m))
    case WriterWrite(pid) =>
      var wr := w.writers[pid];
      Settle(w.(writers := w.writers - {pid}), EnsureOwned(w.c.source, wr.seen, wr.mutation).0)
    case WriterCrash(pid) => w.(writers := w.writers - {pid})
    case LoseSource => Settle(w, Store(w.c.source.objects - {SOURCE}, w.c.source.clock))
    case CreatePush => w.(c := EnsurePushSecret(w.c))
    case CreateSync => w.(c := w.c.(sync := Some(ExternalSecret(None, false))))
    case OtherStamp(other) => w.(c := w.c.(push := Some(w.c.push.value.(other := other))))
    case Begin(pid, id, cloud) => Move(w, pid, Begun(id, cloud, w.retired))
    case Get(pid) =>
      var p := w.passes[pid];
      if SOURCE !in w.c.source.objects || Current(w).value == "" then Drop(w, pid)
      else Move(w, pid, Read(p.id, p.cloud, p.retired, w.c.source.objects[SOURCE]))
    case Write(pid) =>
      var p := w.passes[pid];
      var (c, status) := Assemble(w.c, p.secret, p.id, p.cloud);
      if status != Ok then Drop(w, pid)
      else Move(Settle(w, c.source), pid, Written(HashOf(Assembled(p.secret.body, p.id, p.cloud)), p.retired))
    case NudgePush(pid) =>
      var p := w.passes[pid];
      Move(w.(c := StampPush(EnsurePushSecret(w.c), p.hash)), pid, Stamped(p.hash, p.retired))
    case SeePush(pid) =>
      var p := w.passes[pid];
      if !w.c.push.value.ready then Drop(w, pid)
      else Move(w, pid, Pushed(p.hash, p.retired, w.c.push.value.synced))
    case NudgeSync(pid) =>
      var p := w.passes[pid];
      Move(w.(c := StampSync(w.c, Trigger(p.hash, if fold then p.synced else 0))), pid, Synced(p.hash, p.retired))
    case Report(pid) => Drop(w, pid)
    case Crash(pid) => Drop(w, pid)
    case PushRead => w.(push := Some(Push(MetaOf(w.c.push.value), Current(w), false)))
    case PushWrite => w.(bao := Some(w.push.value.read), push := Some(w.push.value.(written := true)))
    case PushDone =>
      var ps := w.c.push.value;
      w.(c := w.c.(push := Some(ps.(ready := true, synced := ps.synced + 1))),
         lastPush := Some(w.push.value.meta), push := None)
    case PushFail => w.(c := w.c.(push := Some(w.c.push.value.(ready := false))), lastPush := None, push := None)
    case PullRead => w.(pull := Some(Pull(w.c.sync.value.forceSync, w.bao.value)))
    case PullWrite =>
      w.(c := w.c.(materialised := Some(w.pull.value.read.doc), sync := Some(w.c.sync.value.(ready := true))),
         lastPull := Some(w.pull.value.trigger), pull := None)
    case PullFail => w.(c := w.c.(sync := Some(w.c.sync.value.(ready := false))), lastPull := None, pull := None)
  }

  /** Whether the pass about to report finds the credential mirrored. */
  ghost predicate ReportsReady(w: World, pid: nat) {
    Enabled(w, Report(pid)) && Verdict(w.c, w.passes[pid].hash.doc, None, None) == Ready
  }

  const EMPTY_WORLD := World(
    Cluster(Store(map[], 0), None, None, None), None, None, None, None, None, map[], map[], [], {}, {})

  ghost predicate Step(fold: bool, w: World, w': World) {
    exists a :: Enabled(w, a) && w' == Apply(fold, w, a)
  }

  ghost predicate Run(fold: bool, run: seq<World>) {
    && |run| > 0 && run[0] == EMPTY_WORLD
    && forall i :: 0 < i < |run| ==> Step(fold, run[i - 1], run[i])
  }

  /* ---- The source Secret ---- */

  /** Absent, password-based, or the assembled document of the current value. */
  ghost predicate DocOk(s: Source) {
    s.doc.Some? && !s.doc.value.Password? ==> s.doc.value.AppCred? && s.doc.value.secret == s.value && s.value != ""
  }

  ghost predicate Snapshot(w: World, o: Object<Source>) {
    && o.rv < w.c.source.clock && DocOk(o.body)
    && (SOURCE in w.c.source.objects && w.c.source.objects[SOURCE].rv == o.rv ==> w.c.source.objects[SOURCE] == o)
  }

  ghost predicate EverHeld(w: World, v: string) {
    exists i :: 0 <= i < |w.history| && w.history[i].value == v
  }

  ghost predicate SourceOk(w: World) {
    && "" !in w.retired
    && (forall v :: v in w.retired ==> EverHeld(w, v))
    && (SOURCE in w.c.source.objects ==>
          && Snapshot(w, w.c.source.objects[SOURCE])
          && |w.history| > 0 && w.history[|w.history| - 1] == Current(w)
          && Current(w).value !in w.retired)
  }

  /** A generated value belongs to one writer and has not been stored yet. */
  ghost predicate WriterOk(w: World, wr: Writer) {
    && Generated(wr.mutation) <= w.used && "" !in Generated(wr.mutation)
    && (forall v :: v in Generated(wr.mutation) ==> !EverHeld(w, v))
    && (wr.seen.Some? ==> Snapshot(w, wr.seen.value))
  }

  ghost predicate WritersOk(w: World) {
    && (forall i :: 0 <= i < |w.history| ==> w.history[i].value == "" || w.history[i].value in w.used)
    && (forall pid :: pid in w.writers ==> WriterOk(w, w.writers[pid]))
    && (forall p, q :: p in w.writers && q in w.writers && p != q ==>
          Generated(w.writers[p].mutation) !! Generated(w.writers[q].mutation))
  }

  /** A pass works on a value that was current when it read the Secret. */
  ghost predicate PassSourceOk(w: World, p: PassState) {
    match p
    case Begun(id, _, retired) => id != "" && retired <= w.retired
    case Read(id, _, retired, o) => id != "" && Snapshot(w, o) && o.body.value != "" && o.body.value !in retired
    case _ => p.hash.doc.AppCred? && p.hash.doc.id != "" && p.hash.doc.secret != "" && p.hash.doc.secret !in p.retired
  }

  ghost predicate PassesSourceOk(w: World) {
    forall pid :: pid in w.passes ==> PassSourceOk(w, w.passes[pid])
  }

  ghost predicate SourceInv(w: World) {
    SourceOk(w) && WritersOk(w) && PassesSourceOk(w)
  }

  /** A write of the source slot: a new version whose value is empty, carried
      over, or freshly generated. */
  ghost predicate SourceWrite(w: World, s: Store<Source>) {
    && SOURCE in s.objects
    && s == Store(w.c.source.objects[SOURCE := s.objects[SOURCE]], w.c.source.clock + 1)
    && s.objects[SOURCE].rv == w.c.source.clock
    && var body := s.objects[SOURCE].body;
    && DocOk(body)
    && (|| body.value == ""
        || (SOURCE in w.c.source.objects && body.value == Current(w).value)
        || (body.value in w.used && !EverHeld(w, body.value)))
  }

  lemma SettleSource(w: World, s: Store<Source>)
    requires SourceOk(w) && SourceWrite(w, s)
    ensures SourceOk(Settle(w, s))
  {
    var w' := Settle(w, s);
    forall v | v in w'.retired ensures EverHeld(w', v) {
      if v in w.retired {
        var i :| 0 <= i < |w.history| && w.history[i].value == v;
        assert w'.history[i].value == v;
      } else {
        assert w'.history[|w.history| - 1].value == v;
      }
    }
  }

  /** What a create-or-update stores: nothing new, or the mutation of the live
      content it read. */
  lemma EnsureOwnedWrites(w: World, wr: Writer)
    requires SourceOk(w) && WriterOk(w, wr)
    ensures
      var s := EnsureOwned(w.c.source, wr.seen, wr.mutation).0;
      || s == w.c.source
      || (SourceWrite(w, s) &&
          s.objects[SOURCE].body == Mutate(wr.mutation, if SOURCE in w.c.source.objects then Current(w) else EMPTY_SOURCE))
  {
  }

  lemma SettleWriters(w: World, s: Store<Source>, mine: set<string>)
    requires WritersOk(w) && SourceOk(w) && SourceWrite(w, s)
    requires s.objects[SOURCE].body.value in mine || s.objects[SOURCE].body.value == ""
          || (SOURCE in w.c.source.objects && s.objects[SOURCE].body.value == Current(w).value)
    requires mine <= w.used
    requires forall pid :: pid in w.writers ==> Generated(w.writers[pid].mutation) !! mine
    ensures WritersOk(Settle(w, s))
  {
    var w' := Settle(w, s);
    forall pid | pid in w'.writers ensures WriterOk(w', w'.writers[pid]) {
      assert WriterOk(w, w.writers[pid]);
      forall v | v in Generated(w.writers[pid].mutation) ensures !EverHeld(w', v) {
        assert !EverHeld(w, v);
        if SOURCE in w.c.source.objects { assert w.history[|w.history| - 1] == Current(w); }
      }
    }
  }

  lemma SettlePasses(w: World, s: Store<Source>)
    requires PassesSourceOk(w) && SourceWrite(w, s)
    ensures PassesSourceOk(Settle(w, s))
  {
    forall pid | pid in w.passes ensures PassSourceOk(Settle(w, s), w.passes[pid]) {
      assert PassSourceOk(w, w.passes[pid]);
    }
  }

  lemma WriterWriteInv(fold: bool, w: World, pid: nat)
    requires SourceInv(w) && Enabled(w, WriterWrite(pid))
    ensures SourceInv(Apply(fold, w, WriterWrite(pid)))
  {
    var wr := w.writers[pid];
    var w1 := w.(writers := w.writers - {pid});
    var s := EnsureOwned(w.c.source, wr.seen, wr.mutation).0;
    assert WriterOk(w, wr) && WriterOk(w1, wr);
    assert SourceOk(w1) && WritersOk(w1) && PassesSourceOk(w1) by { SameSource(w, w1); }
    EnsureOwnedWrites(w1, wr);
    if s == w.c.source {
      assert Settle(w1, s) == w1;
    } else {
      SettleSource(w1, s);
      SettleWriters(w1, s, Generated(wr.mutation));
      SettlePasses(w1, s);
    }
  }

  /** Bookkeeping that leaves the source slot and its history alone. */
  lemma SameSource(w: World, w': World)
    requires SourceInv(w)
    requires w'.c.source == w.c.source && w'.history == w.history && w'.retired == w.retired && w'.used == w.used
    requires w'.writers.Keys <= w.writers.Keys && (forall p :: p in w'.writers ==> w'.writers[p] == w.writers[p])
    requires w'.passes.Keys <= w.passes.Keys && (forall p :: p in w'.passes ==> w'.passes[p] == w.passes[p])
    ensures SourceInv(w')
  {
    forall v | EverHeld(w', v) ensures EverHeld(w, v) {
      var i :| 0 <= i < |w'.history| && w'.history[i].value == v;
      assert w.history[i].value == v;
    }
    forall v | EverHeld(w, v) ensures EverHeld(w', v) {
      var i :| 0 <= i < |w.history| && w.history[i].value == v;
      assert w'.history[i].value == v;
    }
    forall p | p in w'.writers ensures WriterOk(w', w'.writers[p]) {
      assert WriterOk(w, w.writers[p]);
    }
    forall p | p in w'.passes ensures PassSourceOk(w', w'.passes[p]) {
      assert PassSourceOk(w, w.passes[p]);
    }
  }

  lemma WriterReadInv(fold: bool, w: World, pid: nat, m: Mutation)
    requires SourceInv(w) && Enabled(w, WriterRead(pid, m))
    ensures SourceInv(Apply(fold, w, WriterRead(pid, m)))
  {
    var w' := Apply(fold, w, WriterRead(pid, m));
    forall v | EverHeld(w', v) ensures EverHeld(w, v) && v in w.used + {""} {
      var i :| 0 <= i < |w'.history| && w'.history[i].value == v;
      assert w.history[i].value == v;
    }
    forall v | v in w.retired ensures EverHeld(w', v) {
      var i :| 0 <= i < |w.history| && w.history[i].value == v;
      assert w'.history[i].value == v;
    }
    forall p | p in w'.writers ensures WriterOk(w', w'.writers[p]) {
      if p != pid { assert WriterOk(w, w.writers[p]); }
    }
    forall p | p in w.writers ensures Generated(w.writers[p].mutation) !! Generated(m) {
      assert WriterOk(w, w.writers[p]);
    }
    forall p | p in w'.passes ensures PassSourceOk(w', w'.passes[p]) {
      assert PassSourceOk(w, w.passes[p]);
    }
  }

  lemma LoseSourceInv(fold: bool, w: World)
    requires SourceInv(w) && Enabled(w, LoseSource)
    ensures SourceInv(Apply(fold, w, LoseSource))
  {
    var w' := Apply(fold, w, LoseSource);
    assert w'.history == w.history;
    forall v | EverHeld(w', v) ensures EverHeld(w, v) {
      var i :| 0 <= i < |w'.history| && w'.history[i].value == v;
      assert w.history[i].value == v;
    }
    forall v | v in w'.retired ensures EverHeld(w', v) {
      if v in w.retired {
        var i :| 0 <= i < |w.history| && w.history[i].value == v;
        assert w'.history[i].value == v;
      } else {
        assert w'.history[|w.history| - 1].value == v;
      }
    }
    forall p | p in w'.writers ensures WriterOk(w', w'.writers[p]) {
      assert WriterOk(w, w.writers[p]);
    }
    forall p | p in w'.passes ensures PassSourceOk(w', w'.passes[p]) {
      assert PassSourceOk(w, w.passes[p]);
    }
  }

  lemma WriteInv(fold: bool, w: World, pid: nat)
    requires SourceInv(w) && Enabled(w, Write(pid))
    ensures SourceInv(Apply(fold, w, Write(pid)))
  {
    var p := w.passes[pid];
    var w' := Apply(fold, w, Write(pid));
    assert PassSourceOk(w, p);
    var (c, status) := Assemble(w.c, p.secret, p.id, p.cloud);
    if status != Ok {
      SameSource(w, w');
    } else {
      if c.source == w.c.source {
        assert Settle(w, c.source) == w;
      } else {
        assert SourceWrite(w, c.source);
        SettleSource(w, c.source);
        SettleWriters(w, c.source, {});
        SettlePasses(w, c.source);
      }
      MovePass(Settle(w, c.source), pid, w'.passes[pid]);
    }
  }

  lemma MovePass(w: World, pid: nat, p: PassState)
    requires SourceInv(w) && PassSourceOk(w, p)
    ensures SourceInv(Move(w, pid, p))
  {
    var w0 := Drop(w, pid);
    SameSource(w, w0);
    var w' := Move(w, pid, p);
    forall q | q in w'.passes ensures PassSourceOk(w', w'.passes[q]) {
      if q != pid { assert PassSourceOk(w0, w0.passes[q]); }
    }
    assert forall v :: EverHeld(w', v) <==> EverHeld(w0, v);
    forall q | q in w'.writers ensures WriterOk(w', w'.writers[q]) {
      assert WriterOk(w0, w0.writers[q]);
    }
  }

  lemma SourceStep(fold: bool, w: World, a: Action)
    requires SourceInv(w) && Enabled(w, a)
    ensures SourceInv(Apply(fold, w, a))
  {
    var w' := Apply(fold, w, a);
    match a
    case WriterRead(pid, m) => WriterReadInv(fold, w, pid, m);
    case WriterWrite(pid) => WriterWriteInv(fold, w, pid);
    case LoseSource => LoseSourceInv(fold, w);
    case Write(pid) => WriteInv(fold, w, pid);
    case Begin(pid, id, cloud) => MovePass(w, pid, w'.passes[pid]);
    case Get(pid) =>
      assert PassSourceOk(w, w.passes[pid]);
      if pid in w'.passes { MovePass(w, pid, w'.passes[pid]); } else { SameSource(w, w'); }
    case NudgePush(pid) => PassMoves(w, w', pid);
    case SeePush(pid) => if pid in w'.passes { PassMoves(w, w', pid); } else { SameSource(w, w'); }
    case NudgeSync(pid) => PassMoves(w, w', pid);
    case _ => SameSource(w, w');
  }

  /** A pass moves on with its hash while the source slot stays as it was. */
  lemma PassMoves(w: World, w': World, pid: nat)
    requires SourceInv(w) && pid in w.passes && !w.passes[pid].Begun? && !w.passes[pid].Read?
    requires pid in w'.passes && !w'.passes[pid].Begun? && !w'.passes[pid].Read?
    requires w'.passes[pid].hash == w.passes[pid].hash && w'.passes[pid].retired == w.passes[pid].retired
    requires w' == w.(c := w'.c, passes := w.passes[pid := w'.passes[pid]]) && w'.c.source == w.c.source
    ensures SourceInv(w')
  {
    var w1 := w.(c := w'.c);
    SameSource(w, w1);
    assert PassSourceOk(w, w.passes[pid]);
    MovePass(w1, pid, w'.passes[pid]);
  }

  lemma {:induction false} RunSource(fold: bool, run: seq<World>, k: nat)
    requires Run(fold, run) && k < |run|
    ensures SourceInv(run[k])
  {
    if k > 0 {
      RunSource(fold, run, k - 1);
      assert Step(fold, run[k - 1], run[k]);
      var a :| Enabled(run[k - 1], a) && run[k] == Apply(fold, run[k - 1], a);
      SourceStep(fold, run[k - 1], a);
    }
  }

  /** Whatever the writers do to each other, the document in the source Secret
      is absent, password-based, or built from the value stored beside it. */
  lemma DocumentMatchesValue(fold: bool, run: seq<World>, k: nat)
    requires Run(fold, run) && k < |run| && SOURCE in run[k].c.source.objects
    ensures
      var s := Current(run[k]);
      s.doc == None || s.doc.value.Password? || (s.doc.value.AppCred? && s.doc.value.secret == s.value && s.value != "")
  {
    RunSource(fold, run, k);
  }

  /** A stored value is replaced only by a regenerate that read this very
      version; a stale writer of any kind changes nothing. */
  lemma ValueChangesOnlyByRegenerate(fold: bool, w: World, a: Action)
    requires SourceInv(w) && Enabled(w, a)
    requires SOURCE in w.c.source.objects && Current(w).value != ""
    ensures
      var w' := Apply(fold, w, a);
      || (SOURCE in w'.c.source.objects && Current(w').value == Current(w).value)
      || (a == LoseSource && Current(w).value in w'.retired)
      || (&& a.WriterWrite? && w.writers[a.pid].mutation.Regenerate?
          && w.writers[a.pid].seen == Some(w.c.source.objects[SOURCE])
          && Current(w).value in w'.retired)
  {
    match a
    case WriterWrite(pid) =>
      assert WriterOk(w, w.writers[pid]);
      EnsureOwnedWrites(w, w.writers[pid]);
    case Write(pid) => assert PassSourceOk(w, w.passes[pid]);
    case _ =>
  }

  /** No pass reports readiness for a value that had been replaced before the
      pass began: what it found materialised was current when it read it. */
  lemma ReadyValueIsNotRetired(fold: bool, run: seq<World>, k: nat, pid: nat)
    requires Run(fold, run) && k < |run| && ReportsReady(run[k], pid)
    ensures
      var w := run[k];
      && w.c.materialised.Some? && Identity(w.c.materialised.value).Some?
      && Identity(w.c.materialised.value).value.1 !in w.passes[pid].retired
  {
    RunSource(fold, run, k);
    assert PassSourceOk(run[k], run[k].passes[pid]);
  }
}
