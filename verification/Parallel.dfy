/** A group of sub-reconcilers run concurrently on their own copies, and the
    merge of what they report. */
module Parallel {
  import opened Options
  import opened Conditions

  /** A custom resource: what a sub-reconciler may read, and its conditions. */
  datatype Resource = Resource(spec: string, conditions: seq<Condition>)

  datatype Outcome = Requeue(after: int) | Failure(error: string)

  /** A member runs on its own copy; `cancelled` tells it that a peer failed. */
  datatype Step = Step(name: string, conditionType: string, fn: (Resource, bool) -> (Resource, Outcome))

  /* ---- The shortest requeue ---- */

  /** The smallest positive requeue, or none at all. */
  ghost predicate IsShortest(r: int, results: seq<int>) {
    if exists i :: 0 <= i < |results| && results[i] > 0
    then r > 0 && r in results && forall i :: 0 <= i < |results| && results[i] > 0 ==> r <= results[i]
    else r == 0
  }

  method ShortestRequeue(results: seq<int>) returns (shortest: int)
    ensures IsShortest(shortest, results)
  {
    shortest := 0;
    for i := 0 to |results|
      invariant IsShortest(shortest, results[..i])
    {
      assert results[..i + 1] == results[..i] + [results[i]];
      assert results[..i + 1][i] == results[i];
      assert forall k :: 0 <= k < i ==> results[..i + 1][k] == results[..i][k];
      if results[i] <= 0 { continue; }
      if shortest <= 0 || results[i] < shortest { shortest := results[i]; }
    }
    assert results[..|results|] == results;
  }

  /** Which requeue wins is settled by the set of results. */
  lemma ShortestUnique(a: int, b: int, r: seq<int>, s: seq<int>)
    requires IsShortest(a, r) && IsShortest(b, s) && forall x :: x in r <==> x in s
    ensures a == b
  {
    assert (exists i :: 0 <= i < |r| && r[i] > 0) <==> (exists x :: x in r && x > 0);
    assert (exists i :: 0 <= i < |s| && s[i] > 0) <==> (exists x :: x in s && x > 0);
  }

  /* ---- Merging ---- */

  function Merge(dst: seq<Condition>, src: seq<Condition>, kind: string, now: nat): seq<Condition> {
    var c := GetCondition(src, kind);
    if c == None then dst else SetCondition(dst, c.value, now)
  }

  method MergeCondition(dst: seq<Condition>, src: seq<Condition>, kind: string, now: nat) returns (r: seq<Condition>)
    ensures r == Merge(dst, src, kind, now)
  {
    var cond := GetCondition(src, kind);
    if cond == None { return dst; }
    r := SetStatusCondition(dst, cond.value, now);
  }

  function Ran(cr: Resource, step: Step, cancelled: bool): (Resource, Outcome) { step.fn(cr, cancelled) }

  /** What the members end up with when those in `cancelled` saw a cancellation. */
  function Results(cr: Resource, steps: seq<Step>, cancelled: set<nat>): (r: seq<(Resource, Outcome)>)
    ensures |r| == |steps| && forall i :: 0 <= i < |r| ==> r[i] == steps[i].fn(cr, i in cancelled)
  {
    seq(|steps|, i requires 0 <= i < |steps| => Ran(cr, steps[i], i in cancelled))
  }

  function MergeAll(conditions: seq<Condition>, steps: seq<Step>, results: seq<(Resource, Outcome)>, now: nat): seq<Condition>
    requires |steps| == |results|
  {
    if steps == [] then conditions
    else
      var n := |steps| - 1;
      Merge(MergeAll(conditions, steps[..n], results[..n], now), results[n].0.conditions, steps[n].conditionType, now)
  }

  function Requeues(results: seq<(Resource, Outcome)>): (r: seq<int>)
    ensures forall x :: x in r <==> exists i :: 0 <= i < |results| && results[i].1 == Requeue(x)
  {
    if results == [] then []
    else Requeues(results[..|results| - 1])
         + (if results[|results| - 1].1.Requeue? then [results[|results| - 1].1.after] else [])
  }

  predicate FailureFree(results: seq<(Resource, Outcome)>) {
    forall i :: 0 <= i < |results| ==> results[i].1.Requeue?
  }

  /** A completion order: every member, once. */
  ghost predicate Schedule(order: seq<nat>, n: nat) {
    && (forall i :: 0 <= i < n ==> i in order) && (forall k :: 0 <= k < |order| ==> order[k] < n)
    && forall j, k :: 0 <= j < k < |order| ==> order[j] != order[k]
  }

  /** A member can see a cancellation only if a peer has failed. */
  ghost predicate CancelledByFailure(results: seq<(Resource, Outcome)>, cancelled: set<nat>) {
    forall i :: i in cancelled ==> exists j :: 0 <= j < |results| && j != i && results[j].1.Failure?
  }

  ghost predicate FailedAt(results: seq<(Resource, Outcome)>, order: seq<nat>, k: nat) {
    k < |order| && order[k] < |results| && results[order[k]].1.Failure?
  }

  /** The first error among the first `n` members to complete. */
  ghost predicate FirstError(results: seq<(Resource, Outcome)>, order: seq<nat>, n: nat, error: string) {
    exists k :: 0 <= k < n && FailedAt(results, order, k) && results[order[k]].1.error == error
                && forall j :: 0 <= j < k ==> !FailedAt(results, order, j)
  }

  /** Merging one slot more. */
  lemma MergeStep(conditions: seq<Condition>, steps: seq<Step>, results: seq<(Resource, Outcome)>, now: nat, i: nat)
    requires |steps| == |results| && i < |steps|
    ensures
      && MergeAll(conditions, steps[..i + 1], results[..i + 1], now)
         == Merge(MergeAll(conditions, steps[..i], results[..i], now), results[i].0.conditions, steps[i].conditionType, now)
      && Requeues(results[..i + 1])
         == Requeues(results[..i]) + (if results[i].1.Requeue? then [results[i].1.after] else [])
  {
    assert steps[..i + 1][..i] == steps[..i] && results[..i + 1][..i] == results[..i];
  }

  class Primary {
    const spec: string
    var conditions: seq<Condition>

    constructor (cr: Resource)
      ensures Object() == cr
    {
      spec, conditions := cr.spec, cr.conditions;
    }

    function Object(): Resource
      reads this
    {
      Resource(spec, conditions)
    }

    /** The members finish in the given order, each writing its own slot. */
    method RunMembers(steps: seq<Step>, order: seq<nat>, cancelled: set<nat>)
      returns (outcomes: array<(Resource, Outcome)>, groupErr: Option<string>)
      requires Schedule(order, |steps|)
      ensures fresh(outcomes) && outcomes[..] == Results(Object(), steps, cancelled)
      ensures FailureFree(outcomes[..]) <==> groupErr == None
      ensures groupErr.Some? ==> FirstError(outcomes[..], order, |order|, groupErr.value)
    {
      var cr := Object();
      outcomes := new (Resource, Outcome)[|steps|](_ => (cr, Requeue(0)));
      ghost var results := Results(cr, steps, cancelled);
      groupErr := None;
      for k := 0 to |order|
        invariant forall j :: 0 <= j < k ==> outcomes[order[j]] == results[order[j]]
        invariant groupErr == None ==> forall j :: 0 <= j < k ==> !FailedAt(results, order, j)
        invariant groupErr.Some? ==> FirstError(results, order, k, groupErr.value)
      {
        var i := order[k];
        outcomes[i] := Ran(cr, steps[i], i in cancelled);
        if outcomes[i].1.Failure? && groupErr == None {
          groupErr := Some(outcomes[i].1.error);
          assert FailedAt(results, order, k);
        }
      }
      forall i | 0 <= i < |steps|
        ensures outcomes[i] == results[i] && (groupErr == None ==> results[i].1.Requeue?)
      {
        assert i in order;
        var j :| 0 <= j < |order| && order[j] == i;
        assert results[i].1.Failure? <==> FailedAt(results, order, j);
      }
      assert outcomes[..] == results;
    }

    /** The slots are merged in step order, whatever became of the members. */
    method MergeOutcomes(steps: seq<Step>, results: seq<(Resource, Outcome)>, now: nat) returns (requeues: seq<int>)
      requires |steps| == |results|
      modifies this
      ensures conditions == MergeAll(old(conditions), steps, results, now) && requeues == Requeues(results)
    {
      requeues := [];
      for i := 0 to |steps|
        invariant conditions == MergeAll(old(conditions), steps[..i], results[..i], now)
        invariant requeues == Requeues(results[..i])
      {
        MergeStep(old(conditions), steps, results, now, i);
        conditions := MergeCondition(conditions, results[i].0.conditions, steps[i].conditionType, now);
        if results[i].1.Requeue? { requeues := requeues + [results[i].1.after]; }
      }
      assert steps[..|steps|] == steps && results[..|steps|] == results;
    }

    method RunParallelGroup(steps: seq<Step>, order: seq<nat>, cancelled: set<nat>, now: nat) returns (r: Outcome)
      requires Schedule(order, |steps|)
      modifies this
      ensures
        var results := Results(old(Object()), steps, cancelled);
        && conditions == MergeAll(old(conditions), steps, results, now)
        && (FailureFree(results) ==> r.Requeue? && IsShortest(r.after, Requeues(results)))
        && (!FailureFree(results) ==> r.Failure? && FirstError(results, order, |order|, r.error))
    {
      var outcomes, groupErr := RunMembers(steps, order, cancelled);
      var requeues := MergeOutcomes(steps, outcomes[..], now);
      if groupErr.Some? { return Failure(groupErr.value); }
      var after := ShortestRequeue(requeues);
      return Requeue(after);
    }
  }

  /* ---- What a merge leaves ---- */

  ghost predicate DistinctTypes(steps: seq<Step>) {
    forall i, j :: 0 <= i < j < |steps| ==> steps[i].conditionType != steps[j].conditionType
  }

  lemma MergeReads(dst: seq<Condition>, src: seq<Condition>, own: string, now: nat, kind: string)
    ensures GetCondition(Merge(dst, src, own, now), kind)
         == if own == kind && GetCondition(src, kind).Some?
            then Some(Upserted(GetCondition(dst, kind), GetCondition(src, kind).value, now)) else GetCondition(dst, kind)
  {
    var c := GetCondition(src, own);
    if c.Some? { SetThenGet(dst, c.value, now, kind); }
  }

  /** No member of another type touches a condition. */
  lemma {:induction false} MergeAllSkips(conditions: seq<Condition>, steps: seq<Step>, results: seq<(Resource, Outcome)>,
                                         now: nat, kind: string)
    requires |steps| == |results| && forall i :: 0 <= i < |steps| ==> steps[i].conditionType != kind
    ensures GetCondition(MergeAll(conditions, steps, results, now), kind) == GetCondition(conditions, kind)
  {
    if steps != [] {
      var n := |steps| - 1;
      MergeAllSkips(conditions, steps[..n], results[..n], now, kind);
      MergeReads(MergeAll(conditions, steps[..n], results[..n], now), results[n].0.conditions, steps[n].conditionType, now, kind);
    }
  }

  /** Each member's own condition is merged, whether or not a peer failed. */
  lemma {:induction false} MergeAllReads(conditions: seq<Condition>, steps: seq<Step>, results: seq<(Resource, Outcome)>,
                                         now: nat, i: nat)
    requires |steps| == |results| && DistinctTypes(steps) && i < |steps|
    ensures
      var kind := steps[i].conditionType;
      GetCondition(MergeAll(conditions, steps, results, now), kind)
      == GetCondition(Merge(conditions, results[i].0.conditions, kind, now), kind)
  {
    var n := |steps| - 1;
    var kind := steps[i].conditionType;
    var before := MergeAll(conditions, steps[..n], results[..n], now);
    MergeReads(before, results[n].0.conditions, steps[n].conditionType, now, kind);
    MergeReads(conditions, results[i].0.conditions, kind, now, kind);
    if i < n {
      MergeAllReads(conditions, steps[..n], results[..n], now, i);
    } else {
      MergeAllSkips(conditions, steps[..n], results[..n], now, kind);
    }
  }

  /** After the group each member's own condition is what its copy says, with a
      transition time that follows the status; a member that says nothing leaves
      the condition as it was. */
  lemma MemberConditionMerged(conditions: seq<Condition>, steps: seq<Step>, results: seq<(Resource, Outcome)>, now: nat, i: nat)
    requires |steps| == |results| && DistinctTypes(steps) && i < |steps|
    ensures
      var kind := steps[i].conditionType;
      var was, says := GetCondition(conditions, kind), GetCondition(results[i].0.conditions, kind);
      var got := GetCondition(MergeAll(conditions, steps, results, now), kind);
      && (says == None ==> got == was)
      && (says.Some? ==>
            && got.Some? && got.value == says.value.(at := got.value.at)
            && (was.Some? && was.value.status == says.value.status ==> got.value.at == was.value.at)
            && (was == None || was.value.status != says.value.status ==>
                  got.value.at == if says.value.at == None then Some(now) else says.value.at))
  {
    var kind := steps[i].conditionType;
    MergeAllReads(conditions, steps, results, now, i);
    var says := GetCondition(results[i].0.conditions, kind);
    if says.Some? { TransitionFollowsStatus(conditions, says.value, now); }
  }

  /** Running the members one by one, each on its own copy, is the reference. */
  function Sequential(cr: Resource, steps: seq<Step>, now: nat): (seq<Condition>, seq<int>)
  {
    if steps == [] then (cr.conditions, [])
    else
      var (conditions, requeues) := Sequential(cr, steps[..|steps| - 1], now);
      var step := steps[|steps| - 1];
      var (copy, outcome) := Ran(cr, step, false);
      (Merge(conditions, copy.conditions, step.conditionType, now),
       if outcome.Requeue? then requeues + [outcome.after] else requeues)
  }

  lemma {:induction false} GroupIsSequential(cr: Resource, steps: seq<Step>, now: nat)
    ensures
      var results := Results(cr, steps, {});
      && MergeAll(cr.conditions, steps, results, now) == Sequential(cr, steps, now).0
      && Requeues(results) == Sequential(cr, steps, now).1
  {
    if steps != [] {
      var n := |steps| - 1;
      GroupIsSequential(cr, steps[..n], now);
      assert Results(cr, steps, {})[..n] == Results(cr, steps[..n], {});
    }
  }

  /** Without a failure nobody sees a cancellation, so every schedule ends in the
      sequential result. */
  lemma ScheduleIndependent(cr: Resource, steps: seq<Step>, cancelled: set<nat>, now: nat)
    requires CancelledByFailure(Results(cr, steps, cancelled), cancelled) && FailureFree(Results(cr, steps, cancelled))
    ensures
      var results := Results(cr, steps, cancelled);
      && MergeAll(cr.conditions, steps, results, now) == Sequential(cr, steps, now).0
      && Requeues(results) == Sequential(cr, steps, now).1
  {
    assert forall i :: i !in cancelled;
    assert cancelled == {};
    GroupIsSequential(cr, steps, now);
  }

  function Kinds(cs: seq<Condition>): (r: seq<string>)
    ensures |r| == |cs| && forall i :: 0 <= i < |r| ==> r[i] == cs[i].kind
  {
    seq(|cs|, i requires 0 <= i < |cs| => cs[i].kind)
  }

  /** The types the merge adds, in step order. */
  function Added(conditions: seq<Condition>, steps: seq<Step>, results: seq<(Resource, Outcome)>): seq<string>
    requires |steps| == |results|
  {
    if steps == [] then []
    else
      var n := |steps| - 1;
      var kind := steps[n].conditionType;
      Added(conditions, steps[..n], results[..n])
      + (if GetCondition(results[n].0.conditions, kind).Some? && GetCondition(conditions, kind) == None then [kind] else [])
  }

  /** Conditions keep their places; new ones come after them in step order. */
  lemma {:induction false} MergeAllOrder(conditions: seq<Condition>, steps: seq<Step>, results: seq<(Resource, Outcome)>, now: nat)
    requires |steps| == |results| && DistinctTypes(steps)
    ensures Kinds(MergeAll(conditions, steps, results, now)) == Kinds(conditions) + Added(conditions, steps, results)
  {
    if steps == [] {
      assert Kinds(conditions) + [] == Kinds(conditions);
    } else {
      var n := |steps| - 1;
      var kind := steps[n].conditionType;
      var before := MergeAll(conditions, steps[..n], results[..n], now);
      MergeAllOrder(conditions, steps[..n], results[..n], now);
      MergeAllSkips(conditions, steps[..n], results[..n], now, kind);
      assert GetCondition(before, kind).Some? <==> GetCondition(conditions, kind).Some?;
      var c := GetCondition(results[n].0.conditions, kind);
      if c.Some? {
        assert Kinds(SetCondition(before, c.value, now))
            == Kinds(before) + if GetCondition(before, kind) == None then [kind] else [];
      }
    }
  }
}
