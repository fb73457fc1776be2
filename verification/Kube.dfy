/** The API server as the operators see it: named objects with a `uid` and a
    `resourceVersion`, optimistic updates and preconditioned deletes. Fresh
    uids and versions come from one counter, so neither is ever handed out
    twice. */
module Kube {
  import opened Options

  datatype Object<+T> = Object(uid: nat, rv: nat, body: T)

  datatype Status = Ok | NotFound | Conflict | AlreadyExists | Failed

  datatype Store<T(==)> = Store(objects: map<string, Object<T>>, clock: nat)
  {
    function Get(name: string): Option<Object<T>> {
      if name in objects then Some(objects[name]) else None
    }

    function Create(name: string, body: T): (Store<T>, Status) {
      if name in objects then (this, AlreadyExists)
      else (Store(objects[name := Object(clock, clock, body)], clock + 1), Ok)
    }

    /** Writing back an unchanged body succeeds without a new version. */
    function Put(name: string, body: T): Store<T>
      requires name in objects
    {
      if objects[name].body == body then this
      else Store(objects[name := objects[name].(rv := clock, body := body)], clock + 1)
    }

    /** An optimistic update: refused when the live object is another one, or a
        newer version, than the caller read. */
    function Update(name: string, uid: nat, rv: nat, body: T): (Store<T>, Status) {
      if name !in objects then (this, NotFound)
      else if objects[name].uid != uid || objects[name].rv != rv then (this, Conflict)
      else (Put(name, body), Ok)
    }

    /** A patch carries no precondition. */
    function Patch(name: string, body: T): (Store<T>, Status) {
      if name !in objects then (this, NotFound) else (Put(name, body), Ok)
    }

    function Delete(name: string, uid: nat, rv: nat): (Store<T>, Status) {
      if name !in objects then (this, NotFound)
      else if objects[name].uid != uid || objects[name].rv != rv then (this, Conflict)
      else (Store(objects - {name}, clock), Ok)
    }

    ghost predicate Valid() {
      forall n :: n in objects ==> objects[n].uid < clock && objects[n].rv < clock
    }
  }
}
