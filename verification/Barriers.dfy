/** Obstacles: actions that no honest cluster lets the operator get past. */
module Barriers {
  import opened Api
  import opened Gates
  import opened Admission
  import opened Controller
  import opened Runs
  import opened Supply
  import opened Progress
  import opened Deployability
  import opened Guards
  import opened Rounds
  import InfrastructureTier
  import CoreTier
  import RestTier

  /** In each tier the cluster answers Yes only where what exists suffices, or what the
      tiers before and this tier have brought about in this pass. */
  ghost predicate HonestInputs(spec: Spec, existing: set<Obj>, inputs: Inputs) {
    && Honest(spec, inputs.infra, existing)
    && Honest(spec, inputs.core, existing + InfrastructureObjects(spec))
    && Honest(spec, inputs.rest, existing + InfrastructureObjects(spec) + CoreObjects(spec))
  }

  /** Where a rollout is held up: at an action of PostgreSQL's, of a prelude, of the
      API's, of another gate's, or because REST is configured but off. */
  datatype Obstacle =
    | AtPostgres(i: nat) | AtCorePrelude(i: nat) | AtAPI(i: nat) | AtCoreGate(k: nat, i: nat)
    | AtRestPrelude(i: nat) | AtRestGate(k: nat, i: nat) | RestOff

  predicate InCore(ob: Obstacle) { ob.AtCorePrelude? || ob.AtAPI? || ob.AtCoreGate? }

  /** Behind such an obstacle the core tier is never ready. */
  predicate KeepsCoreDown(ob: Obstacle) { ob.AtPostgres? || InCore(ob) }

  predicate InPlan(slots: seq<Slot>, k: nat, i: nat) { k < |slots| && slots[k].Some? && i < |slots[k].value.plan| }

  /** The obstacle points at an action. */
  predicate Located(spec: Spec, ob: Obstacle) {
    match ob
    case AtPostgres(i) =>
      spec.infrastructure.Some? && InPlan(InfrastructureTier.Slots(spec.infrastructure.value), 0, i)
    case AtCorePrelude(i) => i < |CoreTier.Prelude(spec)|
    case AtAPI(i) => HasCore(spec) && InPlan(CoreTier.Slots(spec), 1, i)
    case AtCoreGate(k, i) => HasCore(spec) && InPlan(CoreTier.Slots(spec), k, i)
    case AtRestPrelude(i) => i < |RestTier.Prelude(spec)|
    case AtRestGate(k, i) => RestEnabled(spec) && InPlan(RestTier.Slots(spec), k, i)
    case RestOff => spec.rest.Some? && !RestEnabled(spec)
  }

  /** What the core tier can bring about before the obstacle. */
  function CoreBefore(spec: Spec, ob: Obstacle): set<Obj>
    requires Located(spec, ob)
  {
    match ob
    case AtPostgres(_) => {}
    case AtCorePrelude(i) => PlannedUpTo(CoreTier.Prelude(spec), i)
    case AtAPI(i) =>
      var slots := CoreTier.Slots(spec);
      Planned(CoreTier.Prelude(spec)) + SlotObjects(slots, 1) + PlannedUpTo(slots[1].value.plan, i)
    case _ => CoreObjects(spec)
  }

  function RestBefore(spec: Spec, ob: Obstacle): set<Obj>
    requires Located(spec, ob)
  {
    match ob
    case AtRestPrelude(i) => PlannedUpTo(RestTier.Prelude(spec), i)
    case AtRestGate(_, _) => RestObjects(spec)
    case RestOff => RestObjects(spec)
    case _ => {}
  }

  /** All that can ever exist as long as the obstacle stands. */
  function Bound(spec: Spec, start: set<Obj>, ob: Obstacle): set<Obj>
    requires Located(spec, ob)
  {
    start + InfrastructureObjects(spec) + CoreBefore(spec, ob) + RestBefore(spec, ob)
  }

  /** The action that the obstacle points at cannot succeed on that. */
  ghost predicate Hits(spec: Spec, start: set<Obj>, ob: Obstacle) {
    && Located(spec, ob)
    && var bound := Bound(spec, start, ob);
       match ob
       case AtPostgres(i) =>
         Hopeless(spec, InfrastructureTier.Slots(spec.infrastructure.value)[0].value.plan, i, bound)
       case AtCorePrelude(i) => Hopeless(spec, CoreTier.Prelude(spec), i, bound)
       case AtAPI(i) => Hopeless(spec, CoreTier.Slots(spec)[1].value.plan, i, bound)
       case AtCoreGate(k, i) => Hopeless(spec, CoreTier.Slots(spec)[k].value.plan, i, bound)
       case AtRestPrelude(i) => Hopeless(spec, RestTier.Prelude(spec), i, bound)
       case AtRestGate(k, i) => Hopeless(spec, RestTier.Slots(spec)[k].value.plan, i, bound)
       case RestOff => true
  }

  lemma HopelessLess(spec: Spec, plan: seq<Action>, i: nat, a: set<Obj>, b: set<Obj>)
    requires i < |plan| && a <= b && Hopeless(spec, plan, i, b)
    ensures Hopeless(spec, plan, i, a)
  {
    if !Blocked(plan[i]) && Supplied(spec, a, plan[i].call) { SuppliedMonotone(spec, a, b, plan[i].call); }
  }

  // --------------------------------------------------------------- one pass

  /** All later core gates need the API. */
  lemma AllNeedAPI(spec: Spec)
    requires HasCore(spec)
    ensures var slots := CoreTier.Slots(spec);
            && WellFormed(slots) && |slots| > 1 && slots[1].Some?
            && forall m | 1 < m < |slots| && slots[m].Some? :: slots[1].value.name in slots[m].value.needs
  {
    var slots := CoreTier.Slots(spec);
    assert WellFormed(slots) by { CoreTier.SlotsWellFormed(spec); }
    assert |slots| == 8 && slots[1].value.name == API;
    forall m | 1 < m < 8 && slots[m].Some? ensures API in slots[m].value.needs {
      CoreTier.SlotsAreWanted(spec, slots[m].value.name);
    }
  }

  lemma CoreLands(spec: Spec, o: Oracle)
    ensures Landed(o, CoreTier.Run(o, spec).log) <= CoreObjects(spec)
  {
    if HasCore(spec) { CoreTier.SlotsWellFormed(spec); }
    TierLanded(o, CoreTier.Prelude(spec), CoreTier.Slots(spec));
  }

  lemma RestLands(spec: Spec, o: Oracle)
    ensures Landed(o, RestTier.Run(o, spec).log) <= RestObjects(spec)
  {
    if RestEnabled(spec) { RestTier.SlotsWellFormed(spec); }
    TierLanded(o, RestTier.Prelude(spec), RestTier.Slots(spec));
  }

  /** An obstacle in the core tier keeps it from being ready, and from bringing about
      anything beyond the obstacle. */
  lemma CoreBarrier(spec: Spec, start: set<Obj>, ob: Obstacle, o: Oracle, existing: set<Obj>)
    requires Hits(spec, start, ob) && InCore(ob) && existing <= Bound(spec, start, ob)
    requires Honest(spec, o, existing + InfrastructureObjects(spec))
    ensures var t := CoreTier.Run(o, spec); !t.status.ready && Landed(o, t.log) <= CoreBefore(spec, ob)
  {
    var prelude, slots := CoreTier.Prelude(spec), CoreTier.Slots(spec);
    var base, bound := existing + InfrastructureObjects(spec), Bound(spec, start, ob);
    match ob
    case AtCorePrelude(i) =>
      HopelessLess(spec, prelude, i, base + PlannedUpTo(prelude, i), bound);
      PreludeBarrier(spec, o, base, prelude, slots, i);
    case AtAPI(i) =>
      AllNeedAPI(spec);
      HopelessLess(spec, slots[1].value.plan, i, base + CoreBefore(spec, ob), bound);
      GateBarrier(spec, o, base, prelude, slots, 1, i);
    case AtCoreGate(k, i) =>
      AllNeedAPI(spec);
      CoreLands(spec, o);
      HopelessLess(spec, slots[k].value.plan, i, base + TierObjects(prelude, slots), bound);
      SlotBarrier(spec, o, base, prelude, slots, k, i);
  }

  lemma RestBarrier(spec: Spec, start: set<Obj>, ob: Obstacle, o: Oracle, existing: set<Obj>)
    requires Hits(spec, start, ob) && (ob.AtRestPrelude? || ob.AtRestGate?) && existing <= Bound(spec, start, ob)
    requires Honest(spec, o, existing + InfrastructureObjects(spec) + CoreObjects(spec))
    ensures var t := RestTier.Run(o, spec); !t.status.ready && Landed(o, t.log) <= RestBefore(spec, ob)
  {
    var prelude, slots := RestTier.Prelude(spec), RestTier.Slots(spec);
    var base, bound := existing + InfrastructureObjects(spec) + CoreObjects(spec), Bound(spec, start, ob);
    match ob
    case AtRestPrelude(i) =>
      HopelessLess(spec, prelude, i, base + PlannedUpTo(prelude, i), bound);
      PreludeBarrier(spec, o, base, prelude, slots, i);
    case AtRestGate(k, i) =>
      RestTier.SlotsWellFormed(spec);
      RestLands(spec, o);
      HopelessLess(spec, slots[k].value.plan, i, base + TierObjects(prelude, slots), bound);
      SlotBarrier(spec, o, base, prelude, slots, k, i);
  }

  /** What a pass in front of an obstacle does: it brings nothing about beyond the
      obstacle, does not find all tiers up, and, when the obstacle is in the core
      tier or before it, leaves that tier not ready. */
  ghost predicate HeldUp(spec: Spec, start: set<Obj>, ob: Obstacle, d: Stored, inputs: Inputs)
    requires Located(spec, ob)
  {
    var c := Computed(d, inputs);
    && StepsLand(inputs, c.steps) <= Bound(spec, start, ob)
    && !AllUp(spec, inputs)
    && (KeepsCoreDown(ob) ==> !TierUp(c.status.core))
  }

  lemma InfrastructureLands(name: string, spec: Spec, o: Oracle)
    requires Admitted(name, spec)
    ensures var i := InfrastructureSteps(spec, o); i != [] ==> Landed(o, i[0].run.log) <= InfrastructureObjects(spec)
  {
    if spec.infrastructure.Some? {
      var infra := spec.infrastructure.value;
      InfrastructureSlotsWellFormed(infra);
      TierLanded(o, InfrastructureTier.Prelude(infra), InfrastructureTier.Slots(infra));
    }
  }

  /** What is found before the obstacle is within its bound. */
  lemma BoundHas(spec: Spec, start: set<Obj>, ob: Obstacle)
    requires Located(spec, ob)
    ensures InfrastructureObjects(spec) <= Bound(spec, start, ob) && CoreBefore(spec, ob) <= Bound(spec, start, ob)
    ensures RestBefore(spec, ob) <= Bound(spec, start, ob) && start <= Bound(spec, start, ob)
    ensures !KeepsCoreDown(ob) ==> CoreBefore(spec, ob) == CoreObjects(spec)
  {
  }

  /** Three tiers' steps, each within the bound. */
  lemma StepsWithin(inputs: Inputs, i: seq<TierStep>, c: seq<TierStep>, t: seq<TierStep>, bound: set<Obj>)
    requires |i| <= 1 && |c| <= 1 && |t| <= 1
    requires AtMostOne(inputs, i) <= bound && AtMostOne(inputs, c) <= bound && AtMostOne(inputs, t) <= bound
    ensures StepsLand(inputs, i + c + t) <= bound
  {
    ThreeStepsLand(inputs, i, c, t);
  }

  lemma CoreStepsBounded(name: string, spec: Spec, start: set<Obj>, ob: Obstacle, inputs: Inputs)
    requires Admitted(name, spec) && Located(spec, ob)
    requires Landed(inputs.core, CoreTier.Run(inputs.core, spec).log) <= CoreBefore(spec, ob)
    ensures var i := InfrastructureSteps(spec, inputs.infra);
            StepsLand(inputs, i + CoreSteps(spec, i, inputs.core) + []) <= Bound(spec, start, ob)
  {
    var bound, i := Bound(spec, start, ob), InfrastructureSteps(spec, inputs.infra);
    BoundHas(spec, start, ob);
    assert AtMostOne(inputs, i) <= bound by { InfrastructureLands(name, spec, inputs.infra); }
    assert AtMostOne(inputs, CoreSteps(spec, i, inputs.core)) <= bound;
    StepsWithin(inputs, i, CoreSteps(spec, i, inputs.core), [], bound);
  }

  lemma CoreHeldUp(d: Stored, start: set<Obj>, ob: Obstacle, inputs: Inputs, existing: set<Obj>)
    requires Admitted(d.name, d.spec) && Hits(d.spec, start, ob) && existing <= Bound(d.spec, start, ob)
    requires InCore(ob) && !TierUp(d.status.core)
    requires Honest(d.spec, inputs.core, existing + InfrastructureObjects(d.spec))
    ensures HeldUp(d.spec, start, ob, d, inputs)
  {
    ComputedSteps(d, inputs);
    CoreBarrier(d.spec, start, ob, inputs.core, existing);
    CoreStepsBounded(d.name, d.spec, start, ob, inputs);
  }

  /** An obstacle at PostgreSQL keeps infrastructure from being ready, and so the core
      tier from being reconciled at all. */
  lemma PostgresBarrier(spec: Spec, start: set<Obj>, ob: Obstacle, o: Oracle, existing: set<Obj>)
    requires Hits(spec, start, ob) && ob.AtPostgres? && existing <= Bound(spec, start, ob)
    requires Honest(spec, o, existing)
    ensures !InfrastructureTier.Run(o, spec.infrastructure.value).status.ready
  {
    var infra := spec.infrastructure.value;
    var prelude, slots := InfrastructureTier.Prelude(infra), InfrastructureTier.Slots(infra);
    InfrastructureSlotsWellFormed(infra);
    HopelessLess(spec, slots[0].value.plan, ob.i, existing + TierObjects(prelude, slots), Bound(spec, start, ob));
    SlotBarrier(spec, o, existing, prelude, slots, 0, ob.i);
  }

  lemma PostgresHeldUp(d: Stored, start: set<Obj>, ob: Obstacle, inputs: Inputs, existing: set<Obj>)
    requires Admitted(d.name, d.spec) && Hits(d.spec, start, ob) && existing <= Bound(d.spec, start, ob)
    requires ob.AtPostgres? && !TierUp(d.status.core) && Honest(d.spec, inputs.infra, existing)
    ensures HeldUp(d.spec, start, ob, d, inputs)
  {
    var i, bound := InfrastructureSteps(d.spec, inputs.infra), Bound(d.spec, start, ob);
    ComputedSteps(d, inputs);
    PostgresBarrier(d.spec, start, ob, inputs.infra, existing);
    BoundHas(d.spec, start, ob);
    assert AtMostOne(inputs, i) <= bound by { InfrastructureLands(d.name, d.spec, inputs.infra); }
    StepsWithin(inputs, i, [], [], bound);
  }

  /** An obstacle behind the core tier: REST is off or not ready, and brings nothing
      about beyond the obstacle. */
  lemma RestQuiet(spec: Spec, start: set<Obj>, ob: Obstacle, inputs: Inputs, existing: set<Obj>)
    requires Hits(spec, start, ob) && !KeepsCoreDown(ob) && existing <= Bound(spec, start, ob)
    requires Honest(spec, inputs.rest, existing + InfrastructureObjects(spec) + CoreObjects(spec))
    ensures !AllUp(spec, inputs)
    ensures Landed(inputs.rest, RestTier.Run(inputs.rest, spec).log) <= RestBefore(spec, ob)
  {
    if ob == RestOff {
      RestLands(spec, inputs.rest);
    } else {
      RestBarrier(spec, start, ob, inputs.rest, existing);
    }
  }

  lemma StepsBounded(name: string, spec: Spec, start: set<Obj>, ob: Obstacle, inputs: Inputs, coreUp: bool)
    requires Admitted(name, spec) && Located(spec, ob) && !KeepsCoreDown(ob)
    requires Landed(inputs.rest, RestTier.Run(inputs.rest, spec).log) <= RestBefore(spec, ob)
    ensures var i := InfrastructureSteps(spec, inputs.infra);
            StepsLand(inputs, i + CoreSteps(spec, i, inputs.core) + RestSteps(spec, coreUp, inputs.rest))
            <= Bound(spec, start, ob)
  {
    var bound, i := Bound(spec, start, ob), InfrastructureSteps(spec, inputs.infra);
    var k, t := CoreSteps(spec, i, inputs.core), RestSteps(spec, coreUp, inputs.rest);
    BoundHas(spec, start, ob);
    assert AtMostOne(inputs, i) <= bound by { InfrastructureLands(name, spec, inputs.infra); }
    assert AtMostOne(inputs, k) <= bound by { CoreLands(spec, inputs.core); }
    assert AtMostOne(inputs, t) <= bound;
    StepsWithin(inputs, i, k, t, bound);
  }

  lemma RestHeldUp(d: Stored, start: set<Obj>, ob: Obstacle, inputs: Inputs, existing: set<Obj>)
    requires Admitted(d.name, d.spec) && Hits(d.spec, start, ob) && existing <= Bound(d.spec, start, ob)
    requires !KeepsCoreDown(ob)
    requires Honest(d.spec, inputs.rest, existing + InfrastructureObjects(d.spec) + CoreObjects(d.spec))
    ensures HeldUp(d.spec, start, ob, d, inputs)
  {
    ComputedSteps(d, inputs);
    RestQuiet(d.spec, start, ob, inputs, existing);
    StepsBounded(d.name, d.spec, start, ob, inputs, TierUp(Computed(d, inputs).status.core));
  }

  // ------------------------------------------------------------------- runs

  ghost predicate HonestRound(spec: Spec, worlds: nat -> World, inputs: nat -> Inputs, n: nat) {
    worlds(n + 1) == Round(worlds(n), inputs(n)) && HonestInputs(spec, worlds(n).existing, inputs(n))
  }

  /** Round after round in an honest cluster; passes may fail in any way. */
  ghost predicate HonestRun(spec: Spec, worlds: nat -> World, inputs: nat -> Inputs) {
    forall n: nat :: HonestRound(spec, worlds, inputs, n)
  }

  /** The deployment in front of the obstacle. */
  ghost predicate Waiting(spec: Spec, start: set<Obj>, ob: Obstacle, w: World)
    requires Located(spec, ob)
  {
    w.existing <= Bound(spec, start, ob) && w.cluster.obj.Some? && WaitingObject(spec, ob, w.cluster.obj.value)
  }

  ghost predicate WaitingObject(spec: Spec, ob: Obstacle, d: Stored) {
    && Healthy(d) && d.spec == spec && d.status.phase != Ready
    && (KeepsCoreDown(ob) ==> !TierUp(d.status.core))
    && (!RestEnabled(spec) ==> !TierUp(d.status.rest))
  }

  /** The status that a held-up pass computes leaves the deployment waiting. */
  lemma StatusWaits(d: Stored, start: set<Obj>, ob: Obstacle, inputs: Inputs)
    requires Located(d.spec, ob) && WaitingObject(d.spec, ob, d) && HeldUp(d.spec, start, ob, d, inputs)
    ensures WaitingObject(d.spec, ob, d.(status := Computed(d, inputs).status))
  {
    ComputedFacts(d, inputs);
    ReadyMeansReadyNow(d, inputs);
  }

  lemma PassHeldUp(d: Stored, start: set<Obj>, ob: Obstacle, inputs: Inputs, existing: set<Obj>)
    requires Admitted(d.name, d.spec) && Hits(d.spec, start, ob) && existing <= Bound(d.spec, start, ob)
    requires HonestInputs(d.spec, existing, inputs) && (KeepsCoreDown(ob) ==> !TierUp(d.status.core))
    ensures HeldUp(d.spec, start, ob, d, inputs)
  {
    if ob.AtPostgres? {
      PostgresHeldUp(d, start, ob, inputs, existing);
    } else if InCore(ob) {
      CoreHeldUp(d, start, ob, inputs, existing);
    } else {
      RestHeldUp(d, start, ob, inputs, existing);
    }
  }

  lemma LeftWaiting(d: Stored, start: set<Obj>, ob: Obstacle, inputs: Inputs, e: Stored)
    requires Located(d.spec, ob) && WaitingObject(d.spec, ob, d) && HeldUp(d.spec, start, ob, d, inputs)
    requires LeftBy(d, inputs, e)
    ensures WaitingObject(d.spec, ob, e)
  {
    StatusWaits(d, start, ob, inputs);
    InitializedFacts(d.spec, d.generation);
  }

  lemma HeldUpWaits(start: set<Obj>, ob: Obstacle, w: World, inputs: Inputs, d: Stored)
    requires w.cluster.obj == Some(d) && Located(d.spec, ob) && w.existing <= Bound(d.spec, start, ob)
    requires WaitingObject(d.spec, ob, d) && HeldUp(d.spec, start, ob, d, inputs)
    ensures Waiting(d.spec, start, ob, Round(w, inputs))
  {
    RoundOutcome(w, inputs, d);
    LeftWaiting(d, start, ob, inputs, Round(w, inputs).cluster.obj.value);
  }

  lemma RoundWaits(spec: Spec, start: set<Obj>, ob: Obstacle, w: World, inputs: Inputs)
    requires Hits(spec, start, ob) && Waiting(spec, start, ob, w) && HonestInputs(spec, w.existing, inputs)
    ensures Waiting(spec, start, ob, Round(w, inputs))
  {
    PassHeldUp(w.cluster.obj.value, start, ob, inputs, w.existing);
    HeldUpWaits(start, ob, w, inputs, w.cluster.obj.value);
  }

  lemma NextWaits(spec: Spec, start: set<Obj>, ob: Obstacle, worlds: nat -> World, inputs: nat -> Inputs, n: nat)
    requires Hits(spec, start, ob) && Waiting(spec, start, ob, worlds(n)) && HonestRun(spec, worlds, inputs)
    ensures Waiting(spec, start, ob, worlds(n + 1))
  {
    assert HonestRound(spec, worlds, inputs, n);
    RoundWaits(spec, start, ob, worlds(n), inputs(n));
  }

  /** An obstacle holds a deployment up for ever. */
  lemma WaitsForEver(spec: Spec, start: set<Obj>, ob: Obstacle, worlds: nat -> World, inputs: nat -> Inputs, n: nat)
    requires Hits(spec, start, ob) && Waiting(spec, start, ob, worlds(0)) && HonestRun(spec, worlds, inputs)
    ensures Waiting(spec, start, ob, worlds(n))
  {
    for k := 0 to n
      invariant Waiting(spec, start, ob, worlds(k))
    {
      NextWaits(spec, start, ob, worlds, inputs, k);
    }
  }
}
