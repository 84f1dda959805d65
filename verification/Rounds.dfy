/** Reconcile passes one after the other over a cluster in which what they create
    accumulates. */
module Rounds {
  import opened Api
  import opened Gates
  import opened Conditions
  import opened Admission
  import opened Controller
  import opened Runs
  import opened Supply
  import InfrastructureTier
  import CoreTier
  import RestTier

  // ------------------------------------------------ Ready means ready this pass

  ghost predicate InfrastructureUp(spec: Spec, o: Oracle) {
    spec.infrastructure.None? || InfrastructureTier.Run(o, spec.infrastructure.value).status.ready
  }

  ghost predicate AllUp(spec: Spec, inputs: Inputs) {
    && (spec.tls.Some? ==> inputs.detect == Yes && (IsSpiffeMode(spec) || IsCertManagerMode(spec)))
    && InfrastructureUp(spec, inputs.infra)
    && CoreTier.Run(inputs.core, spec).status.ready
    && (spec.rest.Some? ==> RestEnabled(spec) && RestTier.Run(inputs.rest, spec).status.ready)
  }

  lemma InfrastructureStatus(spec: Spec, generation: int, s: Status, o: Oracle)
    ensures var w := AfterInfrastructure(spec, generation, s, o);
            && (spec.infrastructure.None? || TierUp(w.status.infrastructure) <==> InfrastructureUp(spec, o))
            && w.status.rest == s.rest
  {
  }

  lemma CoreStatus(spec: Spec, generation: int, w: Work, o: Oracle)
    ensures var v := AfterCore(spec, generation, w, o);
            && v.status.infrastructure == w.status.infrastructure && v.status.rest == w.status.rest
            && (spec.infrastructure.None? || TierUp(w.status.infrastructure)
               ==> v.status.core == Some(CoreTier.Run(o, spec).status))
  {
  }

  lemma RestStatus(spec: Spec, generation: int, w: Work, o: Oracle)
    ensures var v := AfterRest(spec, generation, w, o);
            && v.status.infrastructure == w.status.infrastructure && v.status.core == w.status.core
            && v.status.rest == (if RestEnabled(spec) && TierUp(w.status.core)
                                 then Some(RestTier.Run(o, spec).status) else w.status.rest)
  {
  }

  lemma TiersUp(spec: Spec, generation: int, s: Status, inputs: Inputs)
    requires spec.rest.Some? && !RestEnabled(spec) ==> !TierUp(s.rest)
    ensures var t := Tiers(spec, generation, s, inputs).status;
            (spec.infrastructure.None? || TierUp(t.infrastructure)) && TierUp(t.core)
                && (spec.rest.None? || TierUp(t.rest))
            <==>
            && InfrastructureUp(spec, inputs.infra) && CoreTier.Run(inputs.core, spec).status.ready
            && (spec.rest.Some? ==> RestEnabled(spec) && RestTier.Run(inputs.rest, spec).status.ready)
  {
    InfrastructureStatus(spec, generation, s, inputs.infra);
    var w := AfterInfrastructure(spec, generation, s, inputs.infra);
    CoreStatus(spec, generation, w, inputs.core);
    RestStatus(spec, generation, AfterCore(spec, generation, w, inputs.core), inputs.rest);
  }

  /** A pass computes `Ready` exactly when it detected the TLS backend and each
      configured tier, reconciled in this very pass, reported ready: a status left
      over from an earlier pass never counts. */
  lemma ReadyMeansReadyNow(d: Stored, inputs: Inputs)
    requires Booked(d.status)
    requires d.spec.rest.Some? && !RestEnabled(d.spec) ==> !TierUp(d.status.rest)
    ensures Computed(d, inputs).status.phase == Ready <==> AllUp(d.spec, inputs)
  {
    ComputedFacts(d, inputs);
    TiersUp(d.spec, d.generation, WithTLSCheck(d.spec, Observed(d), d.generation, inputs.detect), inputs);
  }

  // -------------------------------------------------- what a pass brings about

  /** What the steps of a pass brought about, each tier answered by its own part of
      the cluster. */
  function TierOracle(inputs: Inputs, tier: Tier): Oracle {
    match tier case Infrastructure => inputs.infra case Core => inputs.core case Rest => inputs.rest
  }

  function StepsLand(inputs: Inputs, steps: seq<TierStep>): set<Obj> {
    if steps == [] then {}
    else
      var last := steps[|steps| - 1];
      StepsLand(inputs, steps[..|steps| - 1]) + Landed(TierOracle(inputs, last.tier), last.run.log)
  }

  lemma {:induction false} StepsLandConcat(inputs: Inputs, a: seq<TierStep>, b: seq<TierStep>)
    ensures StepsLand(inputs, a + b) == StepsLand(inputs, a) + StepsLand(inputs, b)
  {
    if b == [] {
      assert a + b == a;
    } else {
      assert (a + b)[..|a + b| - 1] == a + b[..|b| - 1];
      StepsLandConcat(inputs, a, b[..|b| - 1]);
    }
  }

  function InfrastructureRun(spec: Spec, inputs: Inputs): TierRun
    requires spec.infrastructure.Some?
  {
    InfrastructureTier.Run(inputs.infra, spec.infrastructure.value)
  }

  function Ran(o: Oracle, t: TierRun, ran: bool): set<Obj> { if ran then Landed(o, t.log) else {} }

  lemma OneStepLands(inputs: Inputs, step: TierStep)
    ensures StepsLand(inputs, [step]) == Landed(TierOracle(inputs, step.tier), step.run.log)
  {
    assert [step][..0] == [];
  }

  function AtMostOne(inputs: Inputs, steps: seq<TierStep>): set<Obj> {
    if steps == [] then {} else Landed(TierOracle(inputs, steps[0].tier), steps[0].run.log)
  }

  lemma AtMostOneLands(inputs: Inputs, steps: seq<TierStep>)
    requires |steps| <= 1
    ensures StepsLand(inputs, steps) == AtMostOne(inputs, steps)
  {
    if steps != [] {
      assert steps == [steps[0]];
      OneStepLands(inputs, steps[0]);
    }
  }

  lemma ThreeStepsLand(inputs: Inputs, i: seq<TierStep>, c: seq<TierStep>, t: seq<TierStep>)
    requires |i| <= 1 && |c| <= 1 && |t| <= 1
    ensures StepsLand(inputs, i + c + t) == AtMostOne(inputs, i) + AtMostOne(inputs, c) + AtMostOne(inputs, t)
  {
    StepsLandConcat(inputs, i + c, t);
    StepsLandConcat(inputs, i, c);
    AtMostOneLands(inputs, i);
    AtMostOneLands(inputs, c);
    AtMostOneLands(inputs, t);
  }

  /** What a pass brings about, tier by tier. */
  lemma StepsLandSplit(spec: Spec, inputs: Inputs, coreUp: bool)
    requires spec.infrastructure.Some?
    ensures var i, run := InfrastructureSteps(spec, inputs.infra), InfrastructureRun(spec, inputs);
            StepsLand(inputs, i + CoreSteps(spec, i, inputs.core) + RestSteps(spec, coreUp, inputs.rest))
            == Landed(inputs.infra, run.log)
               + Ran(inputs.core, CoreTier.Run(inputs.core, spec), run.status.ready)
               + Ran(inputs.rest, RestTier.Run(inputs.rest, spec), RestEnabled(spec) && coreUp)
  {
    var i := InfrastructureSteps(spec, inputs.infra);
    var c, t := CoreSteps(spec, i, inputs.core), RestSteps(spec, coreUp, inputs.rest);
    ThreeStepsLand(inputs, i, c, t);
    assert AtMostOne(inputs, i) == Landed(inputs.infra, InfrastructureRun(spec, inputs).log);
    assert AtMostOne(inputs, c)
        == Ran(inputs.core, CoreTier.Run(inputs.core, spec), InfrastructureRun(spec, inputs).status.ready);
    assert AtMostOne(inputs, t) == Ran(inputs.rest, RestTier.Run(inputs.rest, spec), RestEnabled(spec) && coreUp);
  }

  // ----------------------------------------------------------------- rounds

  /** The stored deployment, and the other objects that exist in the cluster: what
      administrators and users provide, and what the operator has created. */
  datatype World = World(cluster: Cluster, existing: set<Obj>)

  function Round(w: World, inputs: Inputs): World {
    var out := Pass(w.cluster, inputs, []);
    World(out.cluster, w.existing + StepsLand(inputs, out.steps))
  }

  /** The object as runs leave it. */
  ghost predicate Healthy(d: Stored) {
    && Admitted(d.name, d.spec) && !d.deleting && Booked(d.status)
    && (d.status.phase == NoPhase ==> d.status == FRESH_STATUS)
  }

  /** What a pass may leave of an object: as it found it, with the finalizer, with the
      initial status, or with the computed one. */
  ghost predicate LeftBy(d: Stored, inputs: Inputs, e: Stored) {
    || e == d || e == d.(finalizer := true)
    || (d.status.phase == NoPhase && e == d.(status := Initialized(d.spec, d.status, d.generation)))
    || (d.status.phase != NoPhase && e == d.(status := Computed(d, inputs).status))
  }

  /** Whatever becomes of the pass. */
  lemma RoundOutcome(w: World, inputs: Inputs, d: Stored)
    requires w.cluster.obj == Some(d) && Healthy(d)
    ensures var w', landed := Round(w, inputs), StepsLand(inputs, Computed(d, inputs).steps);
            && (w'.existing == w.existing || w'.existing == w.existing + landed)
            && w'.cluster.obj.Some? && LeftBy(d, inputs, w'.cluster.obj.value)
  {
    assert w.existing + StepsLand(inputs, []) == w.existing;
  }

  /** Every orderly run leaves a healthy object, unless it is being deleted; so a
      rollout goes on from wherever edits, failures and restarts have left it. */
  lemma ReachableIsHealthy(run: Run, k: nat)
    requires Orderly(run) && k < |run.states|
    requires run.states[k].cluster.obj.Some? && !run.states[k].cluster.obj.value.deleting
    ensures Healthy(run.states[k].cluster.obj.value)
  {
    RunsKeepInv(run, k);
    var s := run.states[k];
    var d := s.cluster.obj.value;
    assert Fit(d.name, d.spec.profile, s.history[d.generation]);
  }
}
