/** The operator side of a key rotation: a CronJob patches rotated key material
    into a staging Secret, the operator copies a completed payload onto the
    target Secret and deletes the staging Secret. */
module Rotation {
  import opened Options
  import opened Kube

  const COMPLETED := "forge.c5c3.io/rotation-completed-at"

  type Data = map<string, string>

  datatype Secret = Secret(
    data: Data, annotations: map<string, string>, labels: map<string, string>, owner: Option<nat>)

  /** What a rotation produced: the key material and its completion stamp. */
  datatype Payload = Payload(data: Data, stamp: string)

  /** One rotation flavour. `parses` is the RFC 3339 check on a stamp. */
  datatype CommitSpec = CommitSpec(
    validate: Data -> bool, parses: string -> bool, clearStagingOnReject: bool)

  /** An absent annotation reads as the empty string. */
  function StampOf(s: Secret): string {
    if COMPLETED in s.annotations then s.annotations[COMPLETED] else ""
  }

  function PayloadOf(s: Secret): Payload { Payload(s.data, StampOf(s)) }

  /** A payload the operator may commit. */
  predicate Committable(spec: CommitSpec, p: Payload) {
    p.stamp != "" && spec.parses(p.stamp) && spec.validate(p.data)
  }

  function WithPayload(target: Secret, p: Payload): Secret {
    target.(data := p.data, annotations := target.annotations[COMPLETED := p.stamp])
  }

  function Cleared(staging: Secret): Secret {
    staging.(data := map[], annotations := staging.annotations - {COMPLETED})
  }

  /** The shape EnsureStagingSecret drives a Secret to: labels and owner are
      the operator's, data and annotations the CronJob's. */
  function Adopted(s: Secret, labels: map<string, string>, owner: nat): Secret {
    s.(labels := labels, owner := Some(owner))
  }

  const EMPTY_SECRET := Secret(map[], map[], map[], None)

  /** The write half of a create-or-update, given what its read saw. */
  function EnsureWrite(
    store: Store<Secret>, name: string, seen: Option<Object<Secret>>, labels: map<string, string>, owner: nat)
    : (r: (Store<Secret>, Status))
  {
    match seen
    case None => store.Create(name, Adopted(EMPTY_SECRET, labels, owner))
    case Some(o) =>
      if o.body.owner.Some? && o.body.owner.value != owner then (store, Failed)
      else if Adopted(o.body, labels, owner) == o.body then (store, Ok)
      else store.Update(name, o.uid, o.rv, Adopted(o.body, labels, owner))
  }

  /** What the commit step decided to do next. */
  datatype Decision = Skip | Reject | Already | Commit

  function Decide(spec: CommitSpec, staging: Secret, target: Secret): Decision {
    if StampOf(staging) == "" || !spec.parses(StampOf(staging)) then Skip
    else if !spec.validate(staging.data) then Reject
    else if PayloadOf(target) == PayloadOf(staging) then Already
    else Commit
  }

  /** Transient API failures, one per write the commit may issue. */
  datatype Faults = Faults(clear: bool, update: bool, delete: bool)

  /** The part of a commit up to the target update: the new store and, when the
      staging Secret is due for deletion, whether this run wrote the target. */
  function CommitWrite(
    store: Store<Secret>, stagingName: string, targetName: string,
    staging: Object<Secret>, target: Object<Secret>, spec: CommitSpec, faults: Faults)
    : (Store<Secret>, Status, Option<bool>)
  {
    match Decide(spec, staging.body, target.body)
    case Skip => (store, Ok, None)
    case Reject =>
      if !spec.clearStagingOnReject then (store, Ok, None)
      else if faults.clear then (store, Failed, None)
      else (store.Update(stagingName, staging.uid, staging.rv, Cleared(staging.body)).0, Ok, None)
    case Already => (store, Ok, Some(false))
    case Commit =>
      if faults.update then (store, Failed, None)
      else
        var (s, status) :=
          store.Update(targetName, target.uid, target.rv, WithPayload(target.body, PayloadOf(staging.body)));
        (s, status, if status == Ok then Some(true) else None)
  }

  /** Deletion under the preconditions of the staging read. A staging Secret
      that is gone or was patched since is left alone, without an error. */
  function CommitDelete(store: Store<Secret>, stagingName: string, staging: Object<Secret>, fault: bool)
    : (Store<Secret>, Status)
  {
    if fault then (store, Failed) else (store.Delete(stagingName, staging.uid, staging.rv).0, Ok)
  }

  /** A whole commit without interference: store, `applied`, error. */
  function CommitRun(
    store: Store<Secret>, stagingName: string, targetName: string,
    staging: Object<Secret>, target: Object<Secret>, spec: CommitSpec, faults: Faults)
    : (Store<Secret>, bool, Status)
  {
    var (s, status, pending) := CommitWrite(store, stagingName, targetName, staging, target, spec, faults);
    match pending
    case None => (s, false, status)
    case Some(wrote) =>
      var (s', status') := CommitDelete(s, stagingName, staging, faults.delete);
      (s', wrote && status' == Ok, status')
  }

  /** The client's in-memory copy of a Secret; a successful write refreshes its
      version. */
  class SecretObject {
    const name: string
    var uid: nat
    var rv: nat
    var data: Data
    var annotations: map<string, string>
    var labels: map<string, string>
    var owner: Option<nat>

    constructor (name: string, o: Object<Secret>)
      ensures this.name == name && Value() == o
    {
      this.name := name;
      uid, rv := o.uid, o.rv;
      data, annotations, labels, owner := o.body.data, o.body.annotations, o.body.labels, o.body.owner;
    }

    function Body(): Secret
      reads this
    {
      Secret(data, annotations, labels, owner)
    }

    function Value(): Object<Secret>
      reads this
    {
      Object(uid, rv, Body())
    }
  }

  class Client {
    var store: Store<Secret>

    constructor (store: Store<Secret>)
      ensures this.store == store
    {
      this.store := store;
    }

    method Create(obj: SecretObject, fault: bool) returns (status: Status)
      modifies this`store, obj`uid, obj`rv
      ensures status == if fault then Failed else old(store).Create(obj.name, obj.Body()).1
      ensures store == if fault then old(store) else old(store).Create(obj.name, obj.Body()).0
      ensures status == Ok ==> store.Get(obj.name) == Some(obj.Value())
      ensures status != Ok ==> obj.Value() == old(obj.Value())
    {
      if fault { return Failed; }
      var (s, st) := store.Create(obj.name, obj.Body());
      if st == Ok { obj.uid, obj.rv := store.clock, store.clock; }
      store, status := s, st;
    }

    method Update(obj: SecretObject, fault: bool) returns (status: Status)
      modifies this`store, obj`rv
      ensures status == if fault then Failed else old(store).Update(obj.name, obj.uid, old(obj.rv), obj.Body()).1
      ensures store == if fault then old(store) else old(store).Update(obj.name, obj.uid, old(obj.rv), obj.Body()).0
      ensures status == Ok ==> store.Get(obj.name) == Some(obj.Value())
      ensures status != Ok ==> obj.rv == old(obj.rv)
    {
      if fault { return Failed; }
      var (s, st) := store.Update(obj.name, obj.uid, obj.rv, obj.Body());
      if st == Ok { obj.rv := s.objects[obj.name].rv; }
      store, status := s, st;
    }

    method Delete(obj: SecretObject, fault: bool) returns (status: Status)
      modifies this`store
      ensures status == if fault then Failed else old(store).Delete(obj.name, obj.uid, obj.rv).1
      ensures store == if fault then old(store) else old(store).Delete(obj.name, obj.uid, obj.rv).0
    {
      if fault { return Failed; }
      var (s, st) := store.Delete(obj.name, obj.uid, obj.rv);
      store, status := s, st;
    }

    /** EnsureStagingSecret: create the staging Secret empty, or restore its
        labels and owner, never touching its data. On success the result is the
        live object, so its uid and version can guard the later delete. */
    method EnsureStagingSecret(name: string, owner: nat, labels: map<string, string>, fault: bool)
      returns (res: Option<SecretObject>, status: Status)
      modifies this`store
      ensures res.Some? <==> status == Ok
      ensures !fault ==>
        (store, status) == EnsureWrite(old(store), name, old(store).Get(name), labels, owner)
      ensures fault ==> store == old(store)
      ensures status == Ok ==> fresh(res.value) && res.value.name == name && store.Get(name) == Some(res.value.Value())
    {
      if name !in store.objects {
        var obj := new SecretObject(name, Object(0, 0, EMPTY_SECRET));
        obj.labels := labels;
        obj.owner := Some(owner);
        status := Create(obj, fault);
        return (if status == Ok then Some(obj) else None), status;
      }
      var obj := new SecretObject(name, store.objects[name]);
      if obj.owner.Some? && obj.owner.value != owner { return None, Failed; }
      ghost var seen := obj.Value();
      if obj.labels == labels && obj.owner == Some(owner) { return Some(obj), Ok; }
      obj.labels := labels;
      obj.owner := Some(owner);
      assert obj.Body() == Adopted(seen.body, labels, owner);
      status := Update(obj, fault);
      return (if status == Ok then Some(obj) else None), status;
    }

    /** The rejected payload is taken off the staging Secret. */
    method ClearStaging(staging: SecretObject, fault: bool) returns (status: Status)
      modifies this`store, staging
      ensures status == if fault then Failed
                        else old(store).Update(staging.name, old(staging.uid), old(staging.rv), Cleared(old(staging.Body()))).1
      ensures store == if fault then old(store)
                       else old(store).Update(staging.name, old(staging.uid), old(staging.rv), Cleared(old(staging.Body()))).0
    {
      staging.data := map[];
      staging.annotations := staging.annotations - {COMPLETED};
      assert staging.Body() == Cleared(old(staging.Body()));
      status := Update(staging, fault);
    }

    /** The payload goes onto the target. */
    method WriteTarget(target: SecretObject, p: Payload, fault: bool) returns (status: Status)
      modifies this`store, target
      ensures status == if fault then Failed
                        else old(store).Update(target.name, old(target.uid), old(target.rv), WithPayload(old(target.Body()), p)).1
      ensures store == if fault then old(store)
                       else old(store).Update(target.name, old(target.uid), old(target.rv), WithPayload(old(target.Body()), p)).0
    {
      target.data := p.data;
      target.annotations := target.annotations[COMPLETED := p.stamp];
      assert target.Body() == WithPayload(old(target.Body()), p);
      status := Update(target, fault);
    }

    /** CommitStaged on snapshots that may be stale by the time of the call. */
    method CommitStaged(staging: SecretObject?, target: SecretObject, spec: CommitSpec, faults: Faults)
      returns (applied: bool, err: Status)
      requires staging != null ==> staging != target
      modifies this`store, staging, target
      ensures staging == null ==> !applied && err == Ok && store == old(store) && target.Value() == old(target.Value())
      ensures staging != null ==>
        (store, applied, err) == CommitRun(old(store), staging.name, target.name,
                                           old(staging.Value()), old(target.Value()), spec, faults)
    {
      if staging == null { return false, Ok; }
      var completedAt := StampOf(staging.Body());
      if completedAt == "" || !spec.parses(completedAt) { return false, Ok; }
      if !spec.validate(staging.data) {
        if spec.clearStagingOnReject {
          var st := ClearStaging(staging, faults.clear);
          if st == Failed { return false, Failed; }
        }
        return false, Ok;
      }
      var alreadyCommitted := target.data == staging.data && StampOf(target.Body()) == completedAt;
      if !alreadyCommitted {
        var st := WriteTarget(target, Payload(staging.data, completedAt), faults.update);
        if st != Ok { return false, st; }
      }
      var st := Delete(staging, faults.delete);
      if st == Failed { return false, Failed; }
      return !alreadyCommitted, Ok;
    }
  }
}
