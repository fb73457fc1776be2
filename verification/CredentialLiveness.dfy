/** Once the minted credential is stable, the pipeline reaches the mirrored
    state, in a bounded number of nudges and without any timed refresh. */
module CredentialLiveness {
  import opened Options
  import opened Kube
  import opened AppCredential
  import opened CredentialProtocol
  import opened CredentialConvergence
  import opened CredentialProgress

  /** A reachable world with the gates open and the content new. */
  ghost predicate Flowing(w: World, op: Operator) {
    && SourceInv(w) && FlowInv(w) && Steady(w, op)
    && Gate(w.c, InputsOf(op), None) == None && NotRecurred(w, Target(w, op))
  }

  lemma ReachableFlows(run: seq<World>, k: nat, op: Operator)
    requires Run(true, run) && k < |run|
    requires GatesOpen(run[k], op) && run[k].passes == map[] && NotRecurred(run[k], Target(run[k], op))
    ensures Flowing(run[k], op)
  {
    RunFlow(true, run, k);
  }

  /** What every undisturbed step leaves alone. */
  ghost predicate SameGates(w: World, w': World) {
    && (w.c.sync.Some? && w.c.sync.value.ready ==> w'.c.sync.Some? && w'.c.sync.value.ready)
    && w'.history == w.history && w'.c.source == w.c.source
  }

  lemma WriteKeepsContent(w: World, op: Operator)
    requires Flowing(w, op) && Enabled(w, Write(op.pid))
    ensures
      var w' := Apply(true, w, Write(op.pid));
      && Gate(w'.c, InputsOf(op), None) == None
      && Target(w', op) == Target(w, op) && NotRecurred(w', Target(w, op))
  {
    WriteEffect(w, op);
    var w' := Apply(true, w, Write(op.pid));
    assert w'.history == w.history || w'.history == w.history + [Current(w')];
  }

  lemma OthersKeepContent(w: World, a: Action, op: Operator)
    requires Flowing(w, op) && Enabled(w, a) && Undisturbed(w, a, op) && !a.Write?
    ensures SameGates(w, Apply(true, w, a))
  {
  }

  ghost predicate ContentKept(w: World, w': World, op: Operator)
    requires SOURCE in w.c.source.objects
  {
    && Gate(w'.c, InputsOf(op), None) == None && SOURCE in w'.c.source.objects
    && Target(w', op) == Target(w, op) && NotRecurred(w', Target(w', op))
  }

  lemma ContentStep(w: World, a: Action, op: Operator)
    requires Flowing(w, op) && Enabled(w, a) && Undisturbed(w, a, op)
    ensures ContentKept(w, Apply(true, w, a), op)
  {
    if a.Write? { WriteKeepsContent(w, op); } else { OthersKeepContent(w, a, op); }
  }

  lemma FlowingStep(w: World, a: Action, op: Operator)
    requires Flowing(w, op) && Enabled(w, a) && Undisturbed(w, a, op)
    ensures
      var w' := Apply(true, w, a);
      Flowing(w', op) && Target(w', op) == Target(w, op) && Improves(w, w', op)
  {
    SourceStep(true, w, a);
    StepFlow(true, w, a);
    SteadyStep(w, a, op);
    ContentStep(w, a, op);
  }

  /* ---- Runs from one world to another ---- */

  ghost predicate Leads(op: Operator, w: World, w': World) {
    exists run :: UndisturbedRun(op, run) && run[0] == w && run[|run| - 1] == w'
  }

  lemma LeadsSelf(op: Operator, w: World)
    ensures Leads(op, w, w)
  {
    var run := [w];
    assert UndisturbedRun(op, run) && run[|run| - 1] == w;
  }

  lemma LeadsStep(op: Operator, w: World, w1: World, a: Action)
    requires Leads(op, w, w1) && Enabled(w1, a) && Undisturbed(w1, a, op)
    ensures Leads(op, w, Apply(true, w1, a))
  {
    var run :| UndisturbedRun(op, run) && run[0] == w && run[|run| - 1] == w1;
    var w2 := Apply(true, w1, a);
    var longer := run + [w2];
    assert UndisturbedStep(op, w1, w2);
    forall i | 0 < i < |longer| ensures UndisturbedStep(op, longer[i - 1], longer[i]) {
      if i < |run| { assert UndisturbedStep(op, run[i - 1], run[i]); }
    }
    assert longer[0] == w && longer[|longer| - 1] == w2;
  }

  lemma LeadsJoin(op: Operator, w: World, w1: World, w2: World)
    requires Leads(op, w, w1) && Leads(op, w1, w2)
    ensures Leads(op, w, w2)
  {
    var a :| UndisturbedRun(op, a) && a[0] == w && a[|a| - 1] == w1;
    var b :| UndisturbedRun(op, b) && b[0] == w1 && b[|b| - 1] == w2;
    var run := a + b[1..];
    forall i | 0 < i < |run| ensures UndisturbedStep(op, run[i - 1], run[i]) {
      if i < |a| { assert UndisturbedStep(op, a[i - 1], a[i]); }
      else {
        var j := i - |a| + 1;
        assert run[i] == b[j] && run[i - 1] == b[j - 1];
        assert UndisturbedStep(op, b[j - 1], b[j]);
      }
    }
    assert run[0] == w && run[|run| - 1] == w2;
  }

  /** Reached, still flowing towards the same target, and paid for. */
  ghost predicate Onward(op: Operator, w: World, w': World) {
    && Flowing(w, op) && Flowing(w', op) && Leads(op, w, w') && Target(w', op) == Target(w, op)
    && Measure(w', op) + Effect(w, w') <= Measure(w, op)
  }

  lemma OnwardStep(op: Operator, w: World, w1: World, a: Action)
    requires Onward(op, w, w1) && Undisturbed(w1, a, op)
    ensures Onward(op, w, Then(true, w1, a))
  {
    if Enabled(w1, a) {
      FlowingStep(w1, a, op);
      LeadsStep(op, w, w1, a);
    }
  }

  lemma AssembleOnward(op: Operator, w: World)
    requires Flowing(w, op)
    ensures Onward(op, w, SoloAssemble(true, w, op))
  {
    LeadsSelf(op, w);
    OnwardStep(op, w, w, Begin(op.pid, op.id, op.cloud));
    var w1 := Then(true, w, Begin(op.pid, op.id, op.cloud));
    OnwardStep(op, w, w1, Get(op.pid));
    OnwardStep(op, w, Then(true, w1, Get(op.pid)), Write(op.pid));
  }

  lemma NudgeOnward(op: Operator, w: World, w1: World)
    requires Onward(op, w, w1)
    ensures Onward(op, w, SoloNudge(true, w1, op.pid))
  {
    OnwardStep(op, w, w1, NudgePush(op.pid));
    var w2 := Then(true, w1, NudgePush(op.pid));
    OnwardStep(op, w, w2, SeePush(op.pid));
    OnwardStep(op, w, Then(true, w2, SeePush(op.pid)), NudgeSync(op.pid));
  }

  lemma SoloOnward(op: Operator, w: World)
    requires Flowing(w, op)
    ensures Onward(op, w, SoloPass(true, w, op))
  {
    AssembleOnward(op, w);
    NudgeOnward(op, w, SoloAssemble(true, w, op));
    OnwardStep(op, w, BeforeReport(true, w, op), Report(op.pid));
  }

  lemma EsoStepTakesEffect(w: World, a: Action, op: Operator)
    requires EsoDue(w, a, op)
    ensures Effect(w, Apply(true, w, a)) == 1 && Apply(true, w, a).passes == w.passes
  {
  }

  /** One more pass, or one more step of ESO, that changes something. */
  lemma NextRound(op: Operator, w: World) returns (w': World)
    requires Flowing(w, op) && w.passes == map[] && !Settled(w, op)
    ensures Onward(op, w, w') && w'.passes == map[] && Measure(w', op) < Measure(w, op)
  {
    assert GatesOpen(w, op);
    UnsettledHasStep(w, op);
    if SoloPass(true, w, op).c != w.c {
      w' := SoloPass(true, w, op);
      SoloOnward(op, w);
      SoloPassIsPass(w, op);
    } else {
      var a :| EsoDue(w, a, op);
      w' := Apply(true, w, a);
      LeadsSelf(op, w);
      OnwardStep(op, w, w, a);
      EsoStepTakesEffect(w, a, op);
    }
  }

  /** From every reachable world with the gates open, no pass under way and new
      content, passes and due steps of ESO alone lead to a settled world whose
      materialised Secret is the assembled credential. */
  lemma {:induction false} Converges(op: Operator, w: World)
    requires Flowing(w, op) && w.passes == map[]
    ensures exists end :: Leads(op, w, end) && Settled(end, op) && Mirrors(end, op) && Target(end, op) == Target(w, op)
    decreases Measure(w, op)
  {
    if Settled(w, op) {
      SettledIsMirrored(w, op);
      LeadsSelf(op, w);
    } else {
      var w' := NextRound(op, w);
      Converges(op, w');
      var end :| Leads(op, w', end) && Settled(end, op) && Mirrors(end, op) && Target(end, op) == Target(w', op);
      LeadsJoin(op, w, w', end);
    }
  }

  /** However an undisturbed run goes, it changes something at most as often as
      the measure says, and where it can change nothing more the credential is
      mirrored. */
  lemma EveryRunConverges(op: Operator, run: seq<World>)
    requires UndisturbedRun(op, run) && Flowing(run[0], op)
    ensures Effects(run) <= Measure(run[0], op)
    ensures
      var w := run[|run| - 1];
      && Flowing(w, op) && Target(w, op) == Target(run[0], op)
      && (op.pid !in w.passes && Settled(w, op) ==> Mirrors(w, op))
  {
    FinitelyManyEffects(run, op);
    RunFlowing(op, run);
    var w := run[|run| - 1];
    if op.pid !in w.passes && Settled(w, op) { SettledIsMirrored(w, op); }
  }

  lemma {:induction false} RunFlowing(op: Operator, run: seq<World>)
    requires UndisturbedRun(op, run) && Flowing(run[0], op)
    ensures Flowing(run[|run| - 1], op) && Target(run[|run| - 1], op) == Target(run[0], op)
  {
    var n := |run| - 1;
    if n > 0 {
      RunFlowing(op, run[..n]);
      assert UndisturbedStep(op, run[n - 1], run[n]);
      var a :| Enabled(run[n - 1], a) && Undisturbed(run[n - 1], a, op) && run[n] == Apply(true, run[n - 1], a);
      FlowingStep(run[n - 1], a, op);
    }
  }
}
