/** Any number of reconcile passes, each reading the target and then the staging
    Secret before it commits, interleaved call by call with CronJob patches,
    relabelling and crashes. */
module RotationProtocol {
  import opened Options
  import opened Kube
  import opened Rotation

  datatype Config = Config(
    spec: CommitSpec, staging: string, target: string, labels: map<string, string>, owner: nat)

  datatype Pass =
    | GotTarget(target: Object<Secret>)
    | Ensuring(target: Object<Secret>, seen: Option<Object<Secret>>)
    | GotStaging(target: Object<Secret>, staging: Object<Secret>)
    | Deleting(staging: Object<Secret>, wrote: bool)

  /** `staged` lists the payloads the staging Secret has held, in order, and
      `index` says which of them each of its resourceVersions carried. `held`
      are the payloads seen on either Secret, `commits` the positions in `staged`
      that were written to the target, and `reports` the payloads for which a
      pass returned applied. */
  datatype World = World(
    store: Store<Secret>, passes: map<nat, Pass>,
    staged: seq<Payload>, index: map<nat, nat>, held: set<Payload>,
    commits: seq<nat>, reports: seq<Payload>)

  datatype Action =
    | ReadTarget(pid: nat)
    | EnsureRead(pid: nat)
    | EnsureFinish(pid: nat, fault: bool)
    | Write(pid: nat, faults: Faults)
    | Remove(pid: nat, fault: bool)
    | Crash(pid: nat)
    | CronPatch(data: Data, stamp: string)
    | Relabel(labels: map<string, string>, owner: Option<nat>)

  /** The world after the staging slot of the store changed: its new version
      continues the newest payload or adds one. */
  function Record(c: Config, w: World, s: Store<Secret>): World {
    if c.staging !in s.objects || s.objects[c.staging].rv in w.index then w.(store := s)
    else
      var o := s.objects[c.staging];
      var p := PayloadOf(o.body);
      if c.staging in w.store.objects && |w.staged| > 0 && p == PayloadOf(w.store.objects[c.staging].body) then
        w.(store := s, index := w.index[o.rv := |w.staged| - 1])
      else
        w.(store := s, staged := w.staged + [p], index := w.index[o.rv := |w.staged|], held := w.held + {p})
  }

  function Drop(w: World, pid: nat): World { w.(passes := w.passes - {pid}) }

  function Advance(w: World, pid: nat, p: Pass): World { w.(passes := w.passes[pid := p]) }

  /** What a CronJob run makes of the staging Secret. */
  function Patched(live: Secret, data: Data, stamp: string): Secret {
    live.(data := live.data + data, annotations := live.annotations[COMPLETED := stamp])
  }

  predicate Enabled(c: Config, w: World, a: Action) {
    match a
    case ReadTarget(pid) => pid !in w.passes && c.target in w.store.objects
    case EnsureRead(pid) => pid in w.passes && w.passes[pid].GotTarget?
    case EnsureFinish(pid, _) => pid in w.passes && w.passes[pid].Ensuring?
    case Write(pid, _) => pid in w.passes && w.passes[pid].GotStaging? && w.passes[pid].staging.rv in w.index
    case Remove(pid, _) => pid in w.passes && w.passes[pid].Deleting?
    case Crash(pid) => pid in w.passes
    // a CronJob run stamps its completion, to the second: two runs may share a
    // stamp, but one that changes the Secret brings a payload of its own
    case CronPatch(data, stamp) =>
      && c.staging in w.store.objects && stamp != ""
      && var p := PayloadOf(Patched(w.store.objects[c.staging].body, data, stamp));
         p !in w.held || p == PayloadOf(w.store.objects[c.staging].body)
    case Relabel(_, _) => c.staging in w.store.objects
  }

  /** What a successful ensure hands to the commit: the object it wrote, or the
      one it read when nothing had to change. */
  function Ensured(c: Config, s: Store<Secret>, seen: Option<Object<Secret>>): Object<Secret>
    requires EnsureWrite(s, c.staging, seen, c.labels, c.owner).1 == Ok
  {
    if seen.Some? && Adopted(seen.value.body, c.labels, c.owner) == seen.value.body then seen.value
    else EnsureWrite(s, c.staging, seen, c.labels, c.owner).0.objects[c.staging]
  }

  function Apply(c: Config, w: World, a: Action): World
    requires Enabled(c, w, a)
  {
    match a
    case ReadTarget(pid) => Advance(w, pid, GotTarget(w.store.objects[c.target]))
    case EnsureRead(pid) => Advance(w, pid, Ensuring(w.passes[pid].target, w.store.Get(c.staging)))
    case EnsureFinish(pid, fault) =>
      var p := w.passes[pid];
      var (s, status) := EnsureWrite(w.store, c.staging, p.seen, c.labels, c.owner);
      if fault then Drop(w, pid)
      else if status == Ok then
        Advance(Record(c, w, s), pid, GotStaging(p.target, Ensured(c, w.store, p.seen)))
      else Drop(w, pid)
    case Write(pid, faults) =>
      var p := w.passes[pid];
      var (s, _, pending) := CommitWrite(w.store, c.staging, c.target, p.staging, p.target, c.spec, faults);
      if pending == None then Drop(Record(c, w, s), pid)
      else
        var commits := if pending.value then w.commits + [w.index[p.staging.rv]] else w.commits;
        Advance(w.(store := s, commits := commits), pid, Deleting(p.staging, pending.value))
    case Remove(pid, fault) =>
      var p := w.passes[pid];
      var (s, status) := CommitDelete(w.store, c.staging, p.staging, fault);
      var report := if p.wrote && status == Ok then [PayloadOf(p.staging.body)] else [];
      Drop(w.(store := s, reports := w.reports + report), pid)
    case Crash(pid) => Drop(w, pid)
    case CronPatch(data, stamp) =>
      Record(c, w, w.store.Patch(c.staging, Patched(w.store.objects[c.staging].body, data, stamp)).0)
    case Relabel(labels, owner) =>
      var live := w.store.objects[c.staging].body;
      Record(c, w, w.store.Patch(c.staging, live.(labels := labels, owner := owner)).0)
  }

  /** The two Secrets may start out with anything, one payload included: an
      earlier operator may have died between its update and its delete. */
  ghost predicate Init(c: Config, w: World) {
    && c.staging != c.target
    && w.store.Valid()
    && c.target in w.store.objects
    && w == Record(c, World(w.store, map[], [], map[], {TargetPayload(c, w)}, [], []), w.store)
  }

  ghost predicate Step(c: Config, w: World, w': World) {
    exists a :: Enabled(c, w, a) && w' == Apply(c, w, a)
  }

  ghost predicate Run(c: Config, run: seq<World>) {
    && |run| > 0 && Init(c, run[0])
    && forall i :: 0 < i < |run| ==> Step(c, run[i - 1], run[i])
  }

  /* ---- The invariant ---- */

  function TargetPayload(c: Config, w: World): Payload
    requires c.target in w.store.objects
  {
    PayloadOf(w.store.objects[c.target].body)
  }

  /** The position the newest committed payload has in `staged`. */
  function LastCommit(w: World): nat {
    if w.commits == [] then 0 else w.commits[|w.commits| - 1]
  }

  /** The record is complete: the live staging version carries the newest
      payload, later versions never carry an earlier completed payload. */
  ghost predicate Recorded(c: Config, w: World) {
    && w.store.Valid() && c.staging != c.target
    && (forall i :: 0 <= i < |w.staged| ==> w.staged[i] in w.held)
    && (forall i, j :: 0 <= i < j < |w.staged| && w.staged[i] == w.staged[j] ==> w.staged[i].stamp == "")
    && (forall r :: r in w.index ==> r < w.store.clock && w.index[r] < |w.staged|)
    && (c.staging in w.store.objects ==>
          KnownVersion(w, w.store.objects[c.staging]) && w.index[w.store.objects[c.staging].rv] == |w.staged| - 1)
  }

  /** The target holds the last commit, and no payload staged after it is the
      target's. */
  ghost predicate Committed(c: Config, w: World) {
    && c.target in w.store.objects
    && var t := TargetPayload(c, w);
    && t in w.held
    && (forall i :: 0 <= i < |w.staged| && w.staged[i] == t && t.stamp != "" ==> i <= LastCommit(w))
    && (forall i :: 0 <= i < |w.commits| ==>
          w.commits[i] < |w.staged| && Committable(c.spec, w.staged[w.commits[i]]))
    && (forall i, j :: 0 <= i < j < |w.commits| ==> w.commits[i] < w.commits[j])
    && (w.commits != [] ==> t == w.staged[LastCommit(w)])
  }

  /** A payload that once was on the target is still there as long as the live
      staging version carries it. */
  ghost predicate Guarded(c: Config, w: World, p: Payload)
    requires c.target in w.store.objects
  {
    && p in w.held
    && (c.staging in w.store.objects && PayloadOf(w.store.objects[c.staging].body) == p && p.stamp != "" ==>
          TargetPayload(c, w) == p)
  }

  ghost predicate KnownVersion(w: World, o: Object<Secret>) {
    o.rv in w.index && w.index[o.rv] < |w.staged| && w.staged[w.index[o.rv]] == PayloadOf(o.body)
  }

  ghost predicate TargetSnapshot(c: Config, w: World, o: Object<Secret>)
    requires c.target in w.store.objects
  {
    && o.rv <= w.store.objects[c.target].rv
    && (o.rv == w.store.objects[c.target].rv ==> o == w.store.objects[c.target])
    && Guarded(c, w, PayloadOf(o.body))
  }

  /** A staging snapshot taken after a target snapshot: while the target is
      unchanged it is no older than the last commit. */
  ghost predicate StagingSnapshot(c: Config, w: World, t: Object<Secret>, o: Object<Secret>)
    requires c.target in w.store.objects
  {
    KnownVersion(w, o) && (t.rv == w.store.objects[c.target].rv ==> LastCommit(w) <= w.index[o.rv])
  }

  ghost predicate PassOk(c: Config, w: World, p: Pass)
    requires c.target in w.store.objects
  {
    match p
    case GotTarget(t) => TargetSnapshot(c, w, t)
    case Ensuring(t, seen) => TargetSnapshot(c, w, t) && (seen.Some? ==> StagingSnapshot(c, w, t, seen.value))
    case GotStaging(t, s) => TargetSnapshot(c, w, t) && StagingSnapshot(c, w, t, s)
    case Deleting(s, wrote) =>
      && KnownVersion(w, s) && Committable(c.spec, PayloadOf(s.body)) && Guarded(c, w, PayloadOf(s.body))
      && (wrote ==> w.index[s.rv] in w.commits && PayloadOf(s.body) !in w.reports)
  }

  predicate Owes(w: World, pid: nat) {
    pid in w.passes && w.passes[pid].Deleting? && w.passes[pid].wrote
  }

  /** Every report, made or still owed, stands for a commit of its own. */
  ghost predicate ReportsOk(w: World) {
    && (forall i, j :: 0 <= i < j < |w.reports| ==> w.reports[i] != w.reports[j])
    && (forall p :: p in w.reports ==> exists i :: i in w.commits && i < |w.staged| && w.staged[i] == p)
    && (forall p, q :: Owes(w, p) && Owes(w, q) && p != q ==>
          PayloadOf(w.passes[p].staging.body) != PayloadOf(w.passes[q].staging.body))
  }

  ghost predicate PassesOk(c: Config, w: World)
    requires c.target in w.store.objects
  {
    forall pid :: pid in w.passes ==> PassOk(c, w, w.passes[pid])
  }

  ghost predicate Inv(c: Config, w: World) {
    && Recorded(c, w) && Committed(c, w) && ReportsOk(w)
    && PassesOk(c, w)
  }

  lemma {:induction false} InitInv(c: Config, w: World)
    requires Init(c, w)
    ensures Inv(c, w)
  {
  }

  /** A write to the staging Secret keeps its payload, empties its stamp, or
      brings a payload nobody has seen. */
  ghost predicate StagingWrite(c: Config, w: World, s: Store<Secret>) {
    && c.staging in s.objects && s.objects[c.staging].uid < s.clock
    && s == Store(w.store.objects[c.staging := s.objects[c.staging]], w.store.clock + 1)
    && s.objects[c.staging].rv == w.store.clock
    && var p := PayloadOf(s.objects[c.staging].body);
    || p.stamp == ""
    || p !in w.held
    || (c.staging in w.store.objects && p == PayloadOf(w.store.objects[c.staging].body))
  }

  lemma StagingWriteRecorded(c: Config, w: World, s: Store<Secret>)
    requires Recorded(c, w) && StagingWrite(c, w, s)
    ensures Recorded(c, Record(c, w, s))
  {
  }

  /** What a staging write adds to the record. */
  lemma RecordShape(c: Config, w: World, s: Store<Secret>)
    requires Recorded(c, w) && StagingWrite(c, w, s)
    ensures
      var w' := Record(c, w, s);
      var p := PayloadOf(s.objects[c.staging].body);
      && w'.store == s && w'.commits == w.commits && w.held <= w'.held
      && (w'.staged == w.staged || (w'.staged == w.staged + [p] && (p.stamp == "" || p !in w.held)))
  {
  }

  lemma StagingWriteCommitted(c: Config, w: World, s: Store<Secret>)
    requires Recorded(c, w) && Committed(c, w) && StagingWrite(c, w, s)
    ensures Committed(c, Record(c, w, s))
  {
    RecordShape(c, w, s);
    assert TargetPayload(c, Record(c, w, s)) == TargetPayload(c, w);
  }

  lemma StagingWriteGuarded(c: Config, w: World, s: Store<Secret>, p: Payload)
    requires c.staging != c.target && c.target in w.store.objects && Guarded(c, w, p) && StagingWrite(c, w, s)
    ensures Guarded(c, Record(c, w, s), p)
  {
  }

  lemma StagingWriteKnown(c: Config, w: World, s: Store<Secret>, o: Object<Secret>)
    requires Recorded(c, w) && KnownVersion(w, o) && StagingWrite(c, w, s)
    ensures KnownVersion(Record(c, w, s), o) && Record(c, w, s).index[o.rv] == w.index[o.rv]
  {
  }

  lemma StagingWritePass(c: Config, w: World, s: Store<Secret>, p: Pass)
    requires Recorded(c, w) && c.target in w.store.objects && PassOk(c, w, p) && StagingWrite(c, w, s)
    ensures PassOk(c, Record(c, w, s), p)
  {
    if p.Deleting? {
      StagingWriteKnown(c, w, s, p.staging);
      StagingWriteGuarded(c, w, s, PayloadOf(p.staging.body));
    } else {
      StagingWriteGuarded(c, w, s, PayloadOf(p.target.body));
      if p.GotStaging? { StagingWriteKnown(c, w, s, p.staging); }
      if p.Ensuring? && p.seen.Some? { StagingWriteKnown(c, w, s, p.seen.value); }
    }
  }

  lemma StagingWriteReports(c: Config, w: World, s: Store<Secret>)
    requires Recorded(c, w) && ReportsOk(w) && StagingWrite(c, w, s)
    ensures ReportsOk(Record(c, w, s))
  {
  }

  lemma StagingWriteInv(c: Config, w: World, s: Store<Secret>)
    requires Inv(c, w) && StagingWrite(c, w, s)
    ensures Inv(c, Record(c, w, s))
  {
    StagingWriteRecorded(c, w, s);
    StagingWriteCommitted(c, w, s);
    StagingWriteReports(c, w, s);
    forall pid | pid in w.passes ensures PassOk(c, Record(c, w, s), w.passes[pid]) {
      StagingWritePass(c, w, s, w.passes[pid]);
    }
  }

  /** The bookkeeping of passes touches neither Secret. */
  lemma SameSecrets(c: Config, w: World, w': World)
    requires w' == w.(passes := w'.passes, reports := w'.reports)
    requires Recorded(c, w) && Committed(c, w)
    ensures Recorded(c, w') && Committed(c, w')
  {
  }

  lemma SamePass(c: Config, w: World, w': World, p: Pass)
    requires w' == w.(passes := w'.passes) && c.target in w.store.objects && PassOk(c, w, p)
    ensures PassOk(c, w', p)
  {
  }

  lemma DropInv(c: Config, w: World, pid: nat)
    requires Inv(c, w)
    ensures Inv(c, Drop(w, pid))
  {
    var w' := Drop(w, pid);
    SameSecrets(c, w, w');
    assert ReportsOk(w');
    forall q | q in w'.passes ensures PassOk(c, w', w'.passes[q]) {
      SamePass(c, w, w', w.passes[q]);
    }
  }

  lemma AdvanceInv(c: Config, w: World, pid: nat, p: Pass)
    requires Inv(c, w) && PassOk(c, w, p) && (p.Deleting? ==> !p.wrote)
    ensures Inv(c, Advance(w, pid, p))
  {
    var w' := Advance(w, pid, p);
    SameSecrets(c, w, w');
    assert ReportsOk(w');
    forall q | q in w'.passes ensures PassOk(c, w', w'.passes[q]) {
      SamePass(c, w, w', w'.passes[q]);
    }
  }

  /** The snapshots a pass writes the target from, while they are current. */
  ghost predicate Committing(c: Config, w: World, t: Object<Secret>, o: Object<Secret>) {
    && c.target in w.store.objects && t == w.store.objects[c.target]
    && StagingSnapshot(c, w, t, o)
    && Decide(c.spec, o.body, t.body) == Commit
  }

  function CommitTo(c: Config, w: World, t: Object<Secret>, o: Object<Secret>): World
    requires c.target in w.store.objects && o.rv in w.index
  {
    w.(store := w.store.Put(c.target, WithPayload(t.body, PayloadOf(o.body))),
       commits := w.commits + [w.index[o.rv]])
  }

  lemma CommitIsNewer(c: Config, w: World, t: Object<Secret>, o: Object<Secret>)
    requires Recorded(c, w) && Committed(c, w) && Committing(c, w, t, o)
    ensures forall i :: i in w.commits ==> i < w.index[o.rv] && w.staged[i] != PayloadOf(o.body)
  {
    forall k | 0 <= k < |w.commits| ensures w.commits[k] < w.index[o.rv] {
      assert w.commits[k] <= LastCommit(w);
    }
  }

  lemma CommitRecorded(c: Config, w: World, t: Object<Secret>, o: Object<Secret>)
    requires Recorded(c, w) && Committing(c, w, t, o)
    ensures Recorded(c, CommitTo(c, w, t, o))
  {
  }

  lemma CommitCommitted(c: Config, w: World, t: Object<Secret>, o: Object<Secret>)
    requires Recorded(c, w) && Committed(c, w) && Committing(c, w, t, o)
    ensures Committed(c, CommitTo(c, w, t, o))
  {
    CommitIsNewer(c, w, t, o);
  }

  lemma CommitGuarded(c: Config, w: World, t: Object<Secret>, o: Object<Secret>, p: Payload)
    requires Recorded(c, w) && Committed(c, w) && Committing(c, w, t, o) && Guarded(c, w, p)
    ensures Guarded(c, CommitTo(c, w, t, o), p)
  {
  }

  lemma CommitPass(c: Config, w: World, t: Object<Secret>, o: Object<Secret>, p: Pass)
    requires Recorded(c, w) && Committed(c, w) && Committing(c, w, t, o) && PassOk(c, w, p)
    ensures PassOk(c, CommitTo(c, w, t, o), p)
  {
    CommitGuarded(c, w, t, o, if p.Deleting? then PayloadOf(p.staging.body) else PayloadOf(p.target.body));
  }

  lemma CommitReports(c: Config, w: World, pid: nat, t: Object<Secret>, o: Object<Secret>)
    requires Inv(c, w) && Committing(c, w, t, o)
    ensures ReportsOk(Advance(CommitTo(c, w, t, o), pid, Deleting(o, true)))
    ensures PayloadOf(o.body) !in w.reports
  {
    CommitIsNewer(c, w, t, o);
    forall q | Owes(w, q) ensures PayloadOf(w.passes[q].staging.body) != PayloadOf(o.body) {
      assert PassOk(c, w, w.passes[q]);
    }
  }

  lemma CommitInv(c: Config, w: World, pid: nat, t: Object<Secret>, o: Object<Secret>)
    requires Inv(c, w) && Committing(c, w, t, o)
    ensures Inv(c, Advance(CommitTo(c, w, t, o), pid, Deleting(o, true)))
  {
    var w1 := CommitTo(c, w, t, o);
    var w' := Advance(w1, pid, Deleting(o, true));
    CommitRecorded(c, w, t, o);
    CommitCommitted(c, w, t, o);
    CommitReports(c, w, pid, t, o);
    SameSecrets(c, w1, w');
    forall q | q in w'.passes ensures PassOk(c, w', w'.passes[q]) {
      if q != pid { CommitPass(c, w, t, o, w.passes[q]); SamePass(c, w1, w', w.passes[q]); }
    }
  }

  lemma RemoveSecrets(c: Config, w: World, o: Object<Secret>, s: Store<Secret>)
    requires Recorded(c, w) && Committed(c, w) && s == w.store.Delete(c.staging, o.uid, o.rv).0
    ensures Recorded(c, w.(store := s)) && Committed(c, w.(store := s))
  {
  }

  lemma RemovePass(c: Config, w: World, o: Object<Secret>, s: Store<Secret>, p: Pass)
    requires c.target in w.store.objects && c.staging != c.target && PassOk(c, w, p)
    requires s == w.store.Delete(c.staging, o.uid, o.rv).0
    ensures PassOk(c, w.(store := s), p)
  {
  }

  lemma ReportPass(c: Config, w: World, w': World, p: Pass, report: seq<Payload>)
    requires c.target in w.store.objects && PassOk(c, w, p)
    requires w' == w.(passes := w'.passes, reports := w.reports + report)
    requires p.Deleting? && p.wrote ==> PayloadOf(p.staging.body) !in report
    ensures PassOk(c, w', p)
  {
  }

  lemma RemoveReports(c: Config, w: World, pid: nat, fault: bool)
    requires Inv(c, w) && Enabled(c, w, Remove(pid, fault))
    ensures ReportsOk(Apply(c, w, Remove(pid, fault)))
  {
    assert PassOk(c, w, w.passes[pid]);
    assert Owes(w, pid) <==> w.passes[pid].wrote;
  }

  lemma RemoveOther(c: Config, w: World, pid: nat, fault: bool, q: nat)
    requires c.staging != c.target && c.target in w.store.objects && ReportsOk(w)
    requires Enabled(c, w, Remove(pid, fault)) && q in w.passes && q != pid && PassOk(c, w, w.passes[q])
    ensures PassOk(c, Apply(c, w, Remove(pid, fault)), w.passes[q])
  {
    var o := w.passes[pid].staging;
    var s := CommitDelete(w.store, c.staging, o, fault).0;
    var w' := Apply(c, w, Remove(pid, fault));
    assert w.passes[q].Deleting? && w.passes[q].wrote ==> Owes(w, q);
    assert w.passes[pid].wrote ==> Owes(w, pid);
    if fault { assert w.(store := s) == w; } else { RemovePass(c, w, o, s, w.passes[q]); }
    ReportPass(c, w.(store := s), w', w.passes[q], w'.reports[|w.reports|..]);
  }

  lemma RemoveInv(c: Config, w: World, pid: nat, fault: bool)
    requires Inv(c, w) && Enabled(c, w, Remove(pid, fault))
    ensures Inv(c, Apply(c, w, Remove(pid, fault)))
  {
    var o := w.passes[pid].staging;
    var s := CommitDelete(w.store, c.staging, o, fault).0;
    var w' := Apply(c, w, Remove(pid, fault));
    if fault { assert w.(store := s) == w; } else { RemoveSecrets(c, w, o, s); }
    SameSecrets(c, w.(store := s), w');
    RemoveReports(c, w, pid, fault);
    forall q | q in w'.passes ensures PassOk(c, w', w'.passes[q]) {
      RemoveOther(c, w, pid, fault, q);
    }
  }

  /** What an ensure returns is the live object, or the snapshot it found in
      order. */
  lemma EnsuredSnapshot(c: Config, w: World, t: Object<Secret>, seen: Option<Object<Secret>>)
    requires Recorded(c, w) && c.target in w.store.objects && PassOk(c, w, Ensuring(t, seen))
    requires EnsureWrite(w.store, c.staging, seen, c.labels, c.owner).1 == Ok
    requires |w.commits| > 0 ==> LastCommit(w) < |w.staged|
    ensures var s := EnsureWrite(w.store, c.staging, seen, c.labels, c.owner).0;
      && (s == w.store || StagingWrite(c, w, s))
      && PassOk(c, Record(c, w, s), GotStaging(t, Ensured(c, w.store, seen)))
  {
    var s := EnsureWrite(w.store, c.staging, seen, c.labels, c.owner).0;
    var o := Ensured(c, w.store, seen);
    if s == w.store {
      assert Record(c, w, s) == w;
    } else {
      assert StagingWrite(c, w, s);
      StagingWriteGuarded(c, w, s, PayloadOf(t.body));
      assert KnownVersion(Record(c, w, s), o);
    }
  }

  lemma EnsureInv(c: Config, w: World, pid: nat, fault: bool)
    requires Inv(c, w) && Enabled(c, w, EnsureFinish(pid, fault))
    ensures Inv(c, Apply(c, w, EnsureFinish(pid, fault)))
  {
    var p := w.passes[pid];
    var (s, status) := EnsureWrite(w.store, c.staging, p.seen, c.labels, c.owner);
    if fault || status != Ok {
      DropInv(c, w, pid);
    } else {
      EnsuredSnapshot(c, w, p.target, p.seen);
      if s == w.store { assert Record(c, w, s) == w; } else { StagingWriteInv(c, w, s); }
      AdvanceInv(c, Record(c, w, s), pid, GotStaging(p.target, Ensured(c, w.store, p.seen)));
    }
  }

  lemma RejectInv(c: Config, w: World, pid: nat, faults: Faults)
    requires Inv(c, w) && Enabled(c, w, Write(pid, faults))
    requires Decide(c.spec, w.passes[pid].staging.body, w.passes[pid].target.body) == Reject
    ensures Inv(c, Apply(c, w, Write(pid, faults)))
  {
    var p := w.passes[pid];
    var s := CommitWrite(w.store, c.staging, c.target, p.staging, p.target, c.spec, faults).0;
    assert PassOk(c, w, p);
    if s != w.store { StagingWriteInv(c, w, s); }
    DropInv(c, Record(c, w, s), pid);
  }

  lemma CommitWriteInv(c: Config, w: World, pid: nat, faults: Faults)
    requires Inv(c, w) && Enabled(c, w, Write(pid, faults))
    requires Decide(c.spec, w.passes[pid].staging.body, w.passes[pid].target.body) == Commit
    ensures Inv(c, Apply(c, w, Write(pid, faults)))
  {
    var p := w.passes[pid];
    var (s, _, pending) := CommitWrite(w.store, c.staging, c.target, p.staging, p.target, c.spec, faults);
    if pending == None {
      DropInv(c, Record(c, w, s), pid);
    } else {
      CommitInv(c, w, pid, p.target, p.staging);
    }
  }

  lemma WriteInv(c: Config, w: World, pid: nat, faults: Faults)
    requires Inv(c, w) && Enabled(c, w, Write(pid, faults))
    ensures Inv(c, Apply(c, w, Write(pid, faults)))
  {
    var p := w.passes[pid];
    match Decide(c.spec, p.staging.body, p.target.body)
    case Skip => DropInv(c, Record(c, w, w.store), pid);
    case Already => AdvanceInv(c, w, pid, Deleting(p.staging, false));
    case Reject => RejectInv(c, w, pid, faults);
    case Commit => CommitWriteInv(c, w, pid, faults);
  }

  lemma StepInv(c: Config, w: World, a: Action)
    requires Inv(c, w) && Enabled(c, w, a)
    ensures Inv(c, Apply(c, w, a))
  {
    match a
    case ReadTarget(pid) => AdvanceInv(c, w, pid, GotTarget(w.store.objects[c.target]));
    case EnsureRead(pid) =>
      assert PassOk(c, w, w.passes[pid]);
      AdvanceInv(c, w, pid, Ensuring(w.passes[pid].target, w.store.Get(c.staging)));
    case EnsureFinish(pid, fault) => EnsureInv(c, w, pid, fault);
    case Write(pid, faults) => WriteInv(c, w, pid, faults);
    case Remove(pid, fault) => RemoveInv(c, w, pid, fault);
    case Crash(pid) => DropInv(c, w, pid);
    case CronPatch(data, stamp) =>
      var s := w.store.Patch(c.staging, Patched(w.store.objects[c.staging].body, data, stamp)).0;
      if s != w.store { StagingWriteInv(c, w, s); } else { assert Record(c, w, s) == w; }
    case Relabel(labels, owner) =>
      var live := w.store.objects[c.staging].body;
      var s := w.store.Patch(c.staging, live.(labels := labels, owner := owner)).0;
      if s != w.store { StagingWriteInv(c, w, s); } else { assert Record(c, w, s) == w; }
  }

  /* ---- What holds over every run ---- */

  lemma {:induction false} RunInv(c: Config, run: seq<World>, k: nat)
    requires Run(c, run) && k < |run|
    ensures Inv(c, run[k])
  {
    if k == 0 {
      InitInv(c, run[0]);
    } else {
      RunInv(c, run, k - 1);
      assert Step(c, run[k - 1], run[k]);
      var a :| Enabled(c, run[k - 1], a) && run[k] == Apply(c, run[k - 1], a);
      StepInv(c, run[k - 1], a);
    }
  }

  ghost predicate Holds(c: Config, w: World, p: Payload) {
    c.staging in w.store.objects && PayloadOf(w.store.objects[c.staging].body) == p
  }

  /** How one step moves the record: by what the staging Secret holds next. */
  ghost predicate Extends(c: Config, w: World, w': World) {
    && w.staged <= w'.staged
    && (forall i :: |w.staged| <= i < |w'.staged| ==> Holds(c, w', w'.staged[i]))
    && w.commits <= w'.commits
    && c.target in w.store.objects && c.target in w'.store.objects
    && (w'.commits == [] ==> w'.store.objects[c.target].body == w.store.objects[c.target].body)
  }

  lemma RecordExtends(c: Config, w: World, s: Store<Secret>)
    requires c.target in w.store.objects && c.target in s.objects
    requires s.objects[c.target].body == w.store.objects[c.target].body
    ensures Extends(c, w, Record(c, w, s))
  {
  }

  lemma WriteExtends(c: Config, w: World, pid: nat, faults: Faults)
    requires c.staging != c.target && c.target in w.store.objects && Enabled(c, w, Write(pid, faults))
    ensures Extends(c, w, Apply(c, w, Write(pid, faults)))
  {
    var p := w.passes[pid];
    var (s, _, pending) := CommitWrite(w.store, c.staging, c.target, p.staging, p.target, c.spec, faults);
    if pending == None { RecordExtends(c, w, s); }
  }

  lemma StepExtends(c: Config, w: World, a: Action)
    requires c.staging != c.target && c.target in w.store.objects && Enabled(c, w, a)
    ensures Extends(c, w, Apply(c, w, a))
  {
    match a
    case EnsureFinish(pid, _) =>
      RecordExtends(c, w, EnsureWrite(w.store, c.staging, w.passes[pid].seen, c.labels, c.owner).0);
    case Write(pid, faults) => WriteExtends(c, w, pid, faults);
    case CronPatch(data, stamp) =>
      RecordExtends(c, w, w.store.Patch(c.staging, Patched(w.store.objects[c.staging].body, data, stamp)).0);
    case Relabel(labels, owner) =>
      var live := w.store.objects[c.staging].body;
      RecordExtends(c, w, w.store.Patch(c.staging, live.(labels := labels, owner := owner)).0);
    case _ =>
  }

  /** The staging Secret held the payload at some point up to `k`. */
  ghost predicate HeldBy(c: Config, run: seq<World>, k: nat, p: Payload)
    requires k < |run|
  {
    exists j :: 0 <= j <= k && Holds(c, run[j], p)
  }

  lemma TargetThere(c: Config, run: seq<World>, k: nat)
    requires Run(c, run) && k < |run|
    ensures c.staging != c.target && c.target in run[k].store.objects
  {
    RunInv(c, run, k);
  }

  lemma SomeStepExtends(c: Config, w: World, w': World)
    requires c.staging != c.target && c.target in w.store.objects && Step(c, w, w')
    ensures Extends(c, w, w')
  {
    var a :| Enabled(c, w, a) && w' == Apply(c, w, a);
    StepExtends(c, w, a);
  }

  ghost predicate AllHeld(c: Config, run: seq<World>, k: nat, staged: seq<Payload>)
    requires k < |run|
  {
    forall i :: 0 <= i < |staged| ==> HeldBy(c, run, k, staged[i])
  }

  lemma HeldStep(c: Config, run: seq<World>, k: nat, before: seq<Payload>, after: seq<Payload>)
    requires k + 1 < |run| && before <= after && AllHeld(c, run, k, before)
    requires forall i :: |before| <= i < |after| ==> Holds(c, run[k + 1], after[i])
    ensures AllHeld(c, run, k + 1, after)
  {
    forall i | 0 <= i < |after| ensures HeldBy(c, run, k + 1, after[i]) {
      if i < |before| {
        assert HeldBy(c, run, k, before[i]) && before[i] == after[i];
        var j :| 0 <= j <= k && Holds(c, run[j], before[i]);
      } else {
        assert Holds(c, run[k + 1], after[i]);
      }
    }
  }

  /** Every recorded payload was on the staging Secret at some point of the run. */
  lemma {:induction false} RunHistory(c: Config, run: seq<World>, k: nat)
    requires Run(c, run) && k < |run|
    ensures AllHeld(c, run, k, run[k].staged)
    ensures c.target in run[0].store.objects && c.target in run[k].store.objects
    ensures run[k].commits == [] ==> TargetPayload(c, run[k]) == TargetPayload(c, run[0])
  {
    TargetThere(c, run, 0);
    TargetThere(c, run, k);
    if k > 0 {
      RunHistory(c, run, k - 1);
      TargetThere(c, run, k - 1);
      assert Step(c, run[k - 1], run[k]);
      SomeStepExtends(c, run[k - 1], run[k]);
      HeldStep(c, run, k - 1, run[k - 1].staged, run[k].staged);
    } else {
      var staged := run[0].staged;
      forall i | 0 <= i < |staged| ensures HeldBy(c, run, 0, staged[i]) {
        assert Holds(c, run[0], staged[i]);
      }
    }
  }

  /** The target never holds anything but its initial payload or one committable
      payload the staging Secret held earlier in the run: no mixture of two
      rotations, nothing rejected. */
  lemma TargetIsInitialOrStaged(c: Config, run: seq<World>, k: nat)
    requires Run(c, run) && k < |run|
    ensures c.target in run[k].store.objects && c.target in run[0].store.objects
    ensures
      var t := TargetPayload(c, run[k]);
      t == TargetPayload(c, run[0]) || (Committable(c.spec, t) && HeldBy(c, run, k, t))
  {
    RunInv(c, run, k);
    RunHistory(c, run, k);
  }

  lemma EnsureKeeps(c: Config, w: World, pass: Pass, p: Payload)
    requires Recorded(c, w) && c.target in w.store.objects && PassOk(c, w, pass) && pass.Ensuring? && Holds(c, w, p)
    ensures Holds(c, w.(store := EnsureWrite(w.store, c.staging, pass.seen, c.labels, c.owner).0), p)
  {
  }

  lemma WriteKeeps(c: Config, w: World, pass: Pass, faults: Faults, p: Payload)
    requires Recorded(c, w) && c.target in w.store.objects && PassOk(c, w, pass) && pass.GotStaging?
    requires Committable(c.spec, p) && Holds(c, w, p)
    ensures Holds(c, w.(store := CommitWrite(w.store, c.staging, c.target, pass.staging, pass.target, c.spec, faults).0), p)
  {
  }

  lemma RemoveKeeps(c: Config, w: World, pass: Pass, fault: bool, p: Payload)
    requires c.staging != c.target && c.target in w.store.objects && PassOk(c, w, pass) && pass.Deleting?
    requires Recorded(c, w) && p.stamp != "" && Holds(c, w, p)
    ensures var w' := w.(store := CommitDelete(w.store, c.staging, pass.staging, fault).0);
      Holds(c, w', p) || (TargetPayload(c, w) == p && TargetPayload(c, w') == p)
  {
  }

  ghost predicate KeptOrCommitted(c: Config, w: World, w': World, p: Payload) {
    || Holds(c, w', p)
    || (c.target in w.store.objects && c.target in w'.store.objects &&
        TargetPayload(c, w) == p && TargetPayload(c, w') == p)
  }

  /** What a step does to the two Secrets. */
  function StoreAfter(c: Config, w: World, a: Action): Store<Secret>
    requires Enabled(c, w, a)
  {
    match a
    case EnsureFinish(pid, fault) =>
      if fault then w.store else EnsureWrite(w.store, c.staging, w.passes[pid].seen, c.labels, c.owner).0
    case Write(pid, faults) =>
      var p := w.passes[pid];
      CommitWrite(w.store, c.staging, c.target, p.staging, p.target, c.spec, faults).0
    case Remove(pid, fault) => CommitDelete(w.store, c.staging, w.passes[pid].staging, fault).0
    case CronPatch(data, stamp) => w.store.Patch(c.staging, Patched(w.store.objects[c.staging].body, data, stamp)).0
    case Relabel(labels, owner) =>
      w.store.Patch(c.staging, w.store.objects[c.staging].body.(labels := labels, owner := owner)).0
    case _ => w.store
  }

  lemma StoreStep(c: Config, w: World, a: Action)
    requires Enabled(c, w, a)
    ensures Apply(c, w, a).store == StoreAfter(c, w, a)
  {
  }

  /** No step but the CronJob's own patch takes a committable payload off the
      staging Secret unless the target already holds that very payload. */
  lemma NothingLost(c: Config, w: World, a: Action, p: Payload)
    requires Inv(c, w) && Enabled(c, w, a) && !a.CronPatch?
    requires Committable(c.spec, p) && Holds(c, w, p)
    ensures KeptOrCommitted(c, w, Apply(c, w, a), p)
  {
    StoreStep(c, w, a);
    match a
    case EnsureFinish(pid, _) =>
      assert PassOk(c, w, w.passes[pid]);
      EnsureKeeps(c, w, w.passes[pid], p);
    case Write(pid, faults) =>
      assert PassOk(c, w, w.passes[pid]);
      WriteKeeps(c, w, w.passes[pid], faults, p);
    case Remove(pid, fault) =>
      assert PassOk(c, w, w.passes[pid]);
      RemoveKeeps(c, w, w.passes[pid], fault, p);
    case _ =>
  }

  /** Each staged payload is reported as applied at most once, whatever crashes
      or fails between the update and the delete. */
  lemma AppliedAtMostOnce(c: Config, run: seq<World>, k: nat)
    requires Run(c, run) && k < |run|
    ensures forall i, j :: 0 <= i < j < |run[k].reports| ==> run[k].reports[i] != run[k].reports[j]
  {
    RunInv(c, run, k);
  }
}
