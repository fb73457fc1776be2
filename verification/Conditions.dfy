/** Status conditions: find by type, and upsert as apimachinery does, moving the
    transition time only when the status changes. */
module Conditions {
  import opened Options

  datatype ConditionStatus = True | False | Unknown

  /** `at` is the last transition time; None stands for the zero time. */
  datatype Condition = Condition(
    kind: string, status: ConditionStatus, generation: int, reason: string, message: string, at: Option<nat>)

  function FindIndex(cs: seq<Condition>, kind: string): (i: nat)
    ensures i <= |cs|
    ensures i < |cs| ==> cs[i].kind == kind
    ensures forall j :: 0 <= j < i ==> cs[j].kind != kind
  {
    if cs == [] || cs[0].kind == kind then 0 else 1 + FindIndex(cs[1..], kind)
  }

  function GetCondition(cs: seq<Condition>, kind: string): Option<Condition> {
    var i := FindIndex(cs, kind);
    if i == |cs| then None else Some(cs[i])
  }

  /** What an upsert of `c` stores where `current` was. */
  function Upserted(current: Option<Condition>, c: Condition, now: nat): Condition {
    c.(at := if current.Some? && current.value.status == c.status then current.value.at
             else if c.at.Some? then c.at else Some(now))
  }

  function SetCondition(cs: seq<Condition>, c: Condition, now: nat): seq<Condition> {
    var i := FindIndex(cs, c.kind);
    if i == |cs| then cs + [Upserted(None, c, now)] else cs[i := Upserted(Some(cs[i]), c, now)]
  }

  lemma FindIndexUnique(cs: seq<Condition>, kind: string, i: nat)
    requires i <= |cs| && (i < |cs| ==> cs[i].kind == kind)
    requires forall j :: 0 <= j < i ==> cs[j].kind != kind
    ensures FindIndex(cs, kind) == i
  {
    var k := FindIndex(cs, kind);
    assert k < |cs| ==> cs[k].kind == kind;
  }

  /** An upsert is what a reader of its type then finds, and no other type's
      reader notices it. */
  lemma SetThenGet(cs: seq<Condition>, c: Condition, now: nat, kind: string)
    ensures GetCondition(SetCondition(cs, c, now), kind)
         == if kind == c.kind then Some(Upserted(GetCondition(cs, kind), c, now)) else GetCondition(cs, kind)
  {
    var cs' := SetCondition(cs, c, now);
    var i := FindIndex(cs, kind);
    if i < |cs| || kind == c.kind {
      FindIndexUnique(cs', kind, i);
    } else {
      FindIndexUnique(cs', kind, |cs'|);
    }
  }

  /** A reader gets the first condition of its type. */
  lemma GetsFirst(cs: seq<Condition>, kind: string, i: nat)
    requires i < |cs| && cs[i].kind == kind && forall j :: 0 <= j < i ==> cs[j].kind != kind
    ensures GetCondition(cs, kind) == Some(cs[i])
  {
    FindIndexUnique(cs, kind, i);
  }

  /** After an upsert the reader finds what was set. The transition time stays as
      long as the status does; with another status, or for a new condition, it is
      the one set, or now. */
  lemma TransitionFollowsStatus(cs: seq<Condition>, c: Condition, now: nat)
    ensures
      var was, got := GetCondition(cs, c.kind), GetCondition(SetCondition(cs, c, now), c.kind);
      && got.Some? && got.value == c.(at := got.value.at)
      && (was.Some? && was.value.status == c.status ==> got.value.at == was.value.at)
      && (was == None || was.value.status != c.status ==> got.value.at == if c.at == None then Some(now) else c.at)
  {
    SetThenGet(cs, c, now, c.kind);
  }

  /** An upsert keeps the order of the list, touches at most one entry, and
      appends at most one. */
  lemma UpsertKeepsOrder(cs: seq<Condition>, c: Condition, now: nat)
    ensures
      var cs' := SetCondition(cs, c, now);
      && |cs'| == |cs| + (if exists i :: 0 <= i < |cs| && cs[i].kind == c.kind then 0 else 1)
      && (forall i :: 0 <= i < |cs| ==> cs'[i].kind == cs[i].kind && (cs[i].kind != c.kind ==> cs'[i] == cs[i]))
      && (|cs'| > |cs| ==> cs'[|cs|].kind == c.kind)
  {
  }

  /** The source's loop: find the first condition of the type, then overwrite it
      in place or append. */
  method SetStatusCondition(cs: seq<Condition>, c: Condition, now: nat) returns (r: seq<Condition>)
    ensures r == SetCondition(cs, c, now)
  {
    var i := 0;
    while i < |cs| && cs[i].kind != c.kind
      invariant 0 <= i <= |cs|
      invariant forall j :: 0 <= j < i ==> cs[j].kind != c.kind
    {
      i := i + 1;
    }
    FindIndexUnique(cs, c.kind, i);
    if i == |cs| {
      return cs + [if c.at == None then c.(at := Some(now)) else c];
    }
    var existing := cs[i];
    if existing.status != c.status {
      existing := existing.(status := c.status, at := if c.at.Some? then c.at else Some(now));
    }
    existing := existing.(reason := c.reason, message := c.message, generation := c.generation);
    r := cs[i := existing];
  }
}
