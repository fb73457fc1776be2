/** What one commit and one ensure do to the two Secrets, field by field, for
    snapshots that are live and for snapshots that are not. */
module CommitLaws {
  import opened Options
  import opened Kube
  import opened Rotation

  /** A completion stamp that can be read. */
  ghost predicate Stamped(spec: CommitSpec, s: Secret, stamp: string) {
    COMPLETED in s.annotations && s.annotations[COMPLETED] == stamp && stamp != "" && spec.parses(stamp)
  }

  /** No stamp, an empty one, or one that does not parse. */
  ghost predicate Unfinished(spec: CommitSpec, s: Secret) {
    COMPLETED !in s.annotations || s.annotations[COMPLETED] == "" || !spec.parses(s.annotations[COMPLETED])
  }

  lemma FinishedOrNot(spec: CommitSpec, s: Secret)
    ensures Unfinished(spec, s) <==> !(exists stamp :: Stamped(spec, s, stamp))
  {
    if !Unfinished(spec, s) { assert Stamped(spec, s, s.annotations[COMPLETED]); }
  }

  /** Both Secrets as they are in the cluster, under two names. */
  ghost predicate Live(store: Store<Secret>, staging: string, target: string, st: Object<Secret>, tg: Object<Secret>) {
    && staging != target
    && staging in store.objects && store.objects[staging] == st && target in store.objects && store.objects[target] == tg
  }

  /** The other objects of the cluster are as they were. */
  ghost predicate Elsewhere(before: Store<Secret>, after: Store<Secret>, name: string) {
    after.objects - {name} == before.objects - {name}
  }

  /** Everything about a Secret but its data and its completion stamp. */
  ghost predicate SameShell(s: Secret, t: Secret) {
    s.labels == t.labels && s.owner == t.owner && s.annotations - {COMPLETED} == t.annotations - {COMPLETED}
  }

  /** An unfinished rotation is left alone. */
  lemma UnfinishedIsLeftAlone(store: Store<Secret>, staging: string, target: string, st: Object<Secret>, tg: Object<Secret>,
                              spec: CommitSpec, faults: Faults)
    requires Unfinished(spec, st.body)
    ensures CommitRun(store, staging, target, st, tg, spec, faults) == (store, false, Ok)
  {
  }

  /** A rejected payload never reaches the target. It is wiped off the staging
      Secret, data and stamp and nothing else, exactly when the flavour asks for
      that and the write does not fail; otherwise the cluster stays as it was. */
  lemma RejectedPayload(store: Store<Secret>, staging: string, target: string, st: Object<Secret>, tg: Object<Secret>,
                        spec: CommitSpec, faults: Faults, stamp: string)
    requires Live(store, staging, target, st, tg) && Stamped(spec, st.body, stamp) && !spec.validate(st.body.data)
    ensures
      var (s, applied, err) := CommitRun(store, staging, target, st, tg, spec, faults);
      && !applied && target in s.objects && s.objects[target] == tg
      && (if spec.clearStagingOnReject && !faults.clear
          then && err == Ok && Elsewhere(store, s, staging) && staging in s.objects
               && s.objects[staging].body.data == map[] && COMPLETED !in s.objects[staging].body.annotations
               && SameShell(s.objects[staging].body, st.body) && s.objects[staging].uid == st.uid
          else s == store && err == (if spec.clearStagingOnReject then Failed else Ok))
  {
  }

  /** The target carries data and stamp of the staging Secret. */
  ghost predicate CarriesPayload(tg: Secret, st: Secret, stamp: string) {
    tg.data == st.data && COMPLETED in tg.annotations && tg.annotations[COMPLETED] == stamp
  }

  /** A valid payload ends up on the target, data and stamp and nothing else, and
      the staging Secret goes. A failing update leaves everything as it was; a
      failing delete leaves the staging Secret, and the run is not reported as
      applied. Applied means that this very run wrote the target. */
  lemma ValidPayload(store: Store<Secret>, staging: string, target: string, st: Object<Secret>, tg: Object<Secret>,
                     spec: CommitSpec, faults: Faults, stamp: string)
    requires Live(store, staging, target, st, tg) && Stamped(spec, st.body, stamp) && spec.validate(st.body.data)
    ensures
      var (s, applied, err) := CommitRun(store, staging, target, st, tg, spec, faults);
      var there := CarriesPayload(tg.body, st.body, stamp);
      && target in s.objects && s.objects - {staging, target} == store.objects - {staging, target}
      && (there ==> s.objects[target] == tg)
      && (if faults.update && !there then s == store && !applied && err == Failed
          else && CarriesPayload(s.objects[target].body, st.body, stamp)
               && SameShell(s.objects[target].body, tg.body) && s.objects[target].uid == tg.uid
               && (faults.delete ==> staging in s.objects && s.objects[staging] == st && !applied && err == Failed)
               && (!faults.delete ==> staging !in s.objects && err == Ok && (applied <==> !there)))
  {
    if StampOf(tg.body) == stamp { assert COMPLETED in tg.body.annotations; }
  }

  /** With a staging snapshot of an older version nothing happens to the live
      staging Secret: neither a clear nor a delete hits it, and neither is an
      error. */
  lemma StaleStagingIsSpared(store: Store<Secret>, staging: string, target: string, st: Object<Secret>, tg: Object<Secret>,
                             spec: CommitSpec, faults: Faults)
    requires staging != target && staging in store.objects && store.objects[staging].rv != st.rv
    requires !faults.clear && !faults.delete
    ensures
      var (s, applied, err) := CommitRun(store, staging, target, st, tg, spec, faults);
      && staging in s.objects && s.objects[staging] == store.objects[staging]
      && (Unfinished(spec, st.body) || !spec.validate(st.body.data) ==> s == store && err == Ok)
  {
  }

  /** With a target snapshot of an older version the update conflicts: the run
      ends in that error and changes nothing. */
  lemma StaleTargetConflicts(store: Store<Secret>, staging: string, target: string, st: Object<Secret>, tg: Object<Secret>,
                             spec: CommitSpec, faults: Faults, stamp: string)
    requires target in store.objects && store.objects[target].rv != tg.rv && !faults.update
    requires Stamped(spec, st.body, stamp) && spec.validate(st.body.data) && !CarriesPayload(tg.body, st.body, stamp)
    ensures CommitRun(store, staging, target, st, tg, spec, faults) == (store, false, Conflict)
  {
    if StampOf(tg.body) == stamp { assert COMPLETED in tg.body.annotations; }
  }

  /** An ensure creates the staging Secret empty, or restores labels and owner
      without touching data or annotations; another owner's Secret is refused. */
  lemma EnsureRestores(store: Store<Secret>, name: string, labels: map<string, string>, owner: nat)
    ensures
      var (s, status) := EnsureWrite(store, name, store.Get(name), labels, owner);
      && Elsewhere(store, s, name)
      && (name !in store.objects ==> status == Ok && name in s.objects && s.objects[name].body == Secret(map[], map[], labels, Some(owner)))
      && (name in store.objects ==>
            var was := store.objects[name].body;
            if was.owner.Some? && was.owner != Some(owner) then s == store && status == Failed
            else && status == Ok && name in s.objects && s.objects[name].uid == store.objects[name].uid
                 && s.objects[name].body == Secret(was.data, was.annotations, labels, Some(owner))
                 && (was.labels == labels && was.owner == Some(owner) ==> s == store))
  {
  }
}
