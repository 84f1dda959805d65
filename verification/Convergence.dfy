/** Fair rounds bring every deployable spec to Ready, their number bounded by the spec,
    whatever happens in between. */
module Convergence {
  import opened Api
  import opened Gates
  import opened Admission
  import opened Controller
  import opened Runs
  import opened Supply
  import opened Progress
  import opened Deployability
  import opened Guards
  import opened Rounds
  import InfrastructureTier
  import CoreTier
  import RestTier

  // --------------------------------------------------------- progress of a pass

  /** The pass meets no failure of its own and a cluster that is fair about what
      exists. */
  ghost predicate FairInputs(spec: Spec, existing: set<Obj>, inputs: Inputs) {
    && inputs.fetchOk && inputs.writeOk && inputs.refetchOk && inputs.detect == Yes
    && Fair(spec, inputs.infra, existing) && Fair(spec, inputs.core, existing) && Fair(spec, inputs.rest, existing)
  }

  /** The tier brought about nothing outside `all`; it is ready and brought it all
      about, or something that was given or that it brought about is new. */
  ghost predicate Advances(run: TierRun, landed: set<Obj>, all: set<Obj>, given: set<Obj>, existing: set<Obj>) {
    && landed <= all
    && (run.status.ready ==> landed == all)
    && (run.status.ready || !(given + landed <= existing))
  }

  lemma InfrastructureProgress(name: string, spec: Spec, inputs: Inputs, start: set<Obj>, existing: set<Obj>)
    requires Admitted(name, spec) && Deployable(spec, start) && Fair(spec, inputs.infra, existing)
    ensures var run := InfrastructureRun(spec, inputs);
            Advances(run, Landed(inputs.infra, run.log), InfrastructureObjects(spec), start, existing)
  {
    var infra := spec.infrastructure.value;
    var prelude, slots := InfrastructureTier.Prelude(infra), InfrastructureTier.Slots(infra);
    InfrastructurePreludeGuarded(spec, infra, start);
    InfrastructureSlotsGuarded(name, spec, start, start + Planned(prelude));
    InfrastructureSlotsWellFormed(infra);
    TierProgress(spec, inputs.infra, existing, start, prelude, slots);
    TierLanded(inputs.infra, prelude, slots);
  }

  lemma CoreProgress(name: string, spec: Spec, inputs: Inputs, start: set<Obj>, existing: set<Obj>)
    requires Admitted(name, spec) && Deployable(spec, start) && Fair(spec, inputs.core, existing)
    ensures var run := CoreTier.Run(inputs.core, spec);
            Advances(run, Landed(inputs.core, run.log), CoreObjects(spec), start + InfrastructureObjects(spec),
                existing)
  {
    var prelude, slots, given := CoreTier.Prelude(spec), CoreTier.Slots(spec), start + InfrastructureObjects(spec);
    if HasCore(spec) {
      CoreIsGuarded(name, spec, start);
      CoreTier.SlotsWellFormed(spec);
    }
    TierProgress(spec, inputs.core, existing, given, prelude, slots);
    TierLanded(inputs.core, prelude, slots);
  }

  lemma RestProgress(name: string, spec: Spec, inputs: Inputs, start: set<Obj>, existing: set<Obj>)
    requires Admitted(name, spec) && Deployable(spec, start) && Fair(spec, inputs.rest, existing)
    ensures var run := RestTier.Run(inputs.rest, spec);
            Advances(run, Landed(inputs.rest, run.log), RestObjects(spec), BeforeRest(spec, start), existing)
  {
    var prelude, slots := RestTier.Prelude(spec), RestTier.Slots(spec);
    if RestEnabled(spec) {
      RestIsGuarded(name, spec, start);
      RestTier.SlotsWellFormed(spec);
    }
    TierProgress(spec, inputs.rest, existing, BeforeRest(spec, start), prelude, slots);
    TierLanded(inputs.rest, prelude, slots);
  }

  lemma NoRestNoObjects(spec: Spec)
    requires !RestEnabled(spec)
    ensures RestObjects(spec) == {}
  {
  }

  /** Three tiers in order, each behind the one before; `start` existed all along. */
  lemma TiersProgress(i: TierRun, c: TierRun, t: TierRun, landI: set<Obj>, landC: set<Obj>, landT: set<Obj>,
                      allI: set<Obj>, allC: set<Obj>, allT: set<Obj>,
                      start: set<Obj>, existing: set<Obj>, rest: bool, coreUp: bool)
    requires start <= existing && Advances(i, landI, allI, start, existing)
    requires Advances(c, landC, allC, start + allI, existing) && Advances(t, landT, allT, start + allI + allC, existing)
    requires (!rest ==> allT == {}) && (i.status.ready ==> (coreUp <==> c.status.ready))
    ensures var landed := landI + (if i.status.ready then landC else {}) + (if rest && coreUp then landT else {});
            && landed <= allI + allC + allT
            && ((i.status.ready && c.status.ready && (rest ==> t.status.ready) && landed == allI + allC + allT)
                || !(landed <= existing))
  {
  }

  lemma StepsProgress(name: string, spec: Spec, inputs: Inputs, start: set<Obj>, existing: set<Obj>, coreUp: bool)
    requires Admitted(name, spec) && Deployable(spec, start) && start <= existing && FairInputs(spec, existing, inputs)
    requires InfrastructureUp(spec, inputs.infra) ==> (coreUp <==> CoreTier.Run(inputs.core, spec).status.ready)
    ensures var i := InfrastructureSteps(spec, inputs.infra);
            var landed := StepsLand(inputs, i + CoreSteps(spec, i, inputs.core) + RestSteps(spec, coreUp, inputs.rest));
            && landed <= Objects(spec)
            && ((AllUp(spec, inputs) && landed == Objects(spec)) || !(landed <= existing))
  {
    var i, c, t := InfrastructureRun(spec, inputs), CoreTier.Run(inputs.core, spec), RestTier.Run(inputs.rest, spec);
    var landI, landC, landT := Landed(inputs.infra, i.log), Landed(inputs.core, c.log), Landed(inputs.rest, t.log);
    var allI, allC, allT := InfrastructureObjects(spec), CoreObjects(spec), RestObjects(spec);
    assert Advances(i, landI, allI, start, existing) by { InfrastructureProgress(name, spec, inputs, start, existing); }
    assert Advances(c, landC, allC, start + allI, existing) by { CoreProgress(name, spec, inputs, start, existing); }
    assert Advances(t, landT, allT, start + allI + allC, existing) by {
      RestProgress(name, spec, inputs, start, existing);
    }
    assert !RestEnabled(spec) ==> allT == {} by { if !RestEnabled(spec) { NoRestNoObjects(spec); } }
    StepsLandSplit(spec, inputs, coreUp);
    TiersProgress(i, c, t, landI, landC, landT, allI, allC, allT, start, existing, RestEnabled(spec), coreUp);
  }

  /** In a fair cluster a pass over a spec that was deployable from the start finds
      everything ready, or it brings about something that did not exist; and it brings
      about nothing but the objects of the spec. */
  lemma PassProgress(d: Stored, inputs: Inputs, start: set<Obj>, existing: set<Obj>)
    requires Admitted(d.name, d.spec) && Deployable(d.spec, start) && start <= existing
    requires FairInputs(d.spec, existing, inputs)
    ensures var landed := StepsLand(inputs, Computed(d, inputs).steps);
            && landed <= Objects(d.spec)
            && ((AllUp(d.spec, inputs) && landed == Objects(d.spec)) || !(landed <= existing))
  {
    ComputedSteps(d, inputs);
    StepsProgress(d.name, d.spec, inputs, start, existing, TierUp(Computed(d, inputs).status.core));
  }

  // ---------------------------------------------------------------- the bound

  /** How far the object is from being Ready: finalizer, initialisation, and the
      objects of the spec that do not exist yet. */
  function Measure(d: Stored, existing: set<Obj>): nat {
    (if d.finalizer then 0 else 1) + (if d.status.phase == NoPhase then 1 else 0) + |Objects(d.spec) - existing|
  }

  lemma Shrinks(all: set<Obj>, existing: set<Obj>, landed: set<Obj>)
    requires landed <= all && !(landed <= existing)
    ensures |all - (existing + landed)| < |all - existing|
  {
    var x :| x in landed && x !in existing;
    var was, now := all - existing, all - (existing + landed);
    assert now <= was - {x};
    SubsetSize(now, was - {x});
  }

  lemma SubsetSize(a: set<Obj>, b: set<Obj>)
    requires a <= b
    ensures |a| <= |b|
  {
    assert b == a + (b - a);
  }

  /** `e` is `d` one round later: Ready with nothing left to create, or closer. */
  ghost predicate Closer(d: Stored, existing: set<Obj>, e: Stored, existing': set<Obj>) {
    && Healthy(e) && e == d.(finalizer := e.finalizer, status := e.status)
    && ((e.status.phase == Ready && Measure(e, existing') == 0) || Measure(e, existing') < Measure(d, existing))
  }

  /** Before its first real pass the object gets its finalizer and its conditions. */
  lemma EarlyRound(w: World, inputs: Inputs, d: Stored)
    requires w.cluster.obj == Some(d) && Healthy(d) && FairInputs(d.spec, w.existing, inputs)
    requires !d.finalizer || d.status.phase == NoPhase
    ensures var w' := Round(w, inputs);
            && w'.cluster.obj.Some? && w.existing <= w'.existing
            && Closer(d, w.existing, w'.cluster.obj.value, w'.existing)
  {
    if d.finalizer { InitializedFacts(d.spec, d.generation); }
    var out := Pass(w.cluster, inputs, []);
    assert out.steps == [] && w.existing + StepsLand(inputs, out.steps) == w.existing;
  }

  /** A status that is Ready, or something new, brings `d` closer. */
  lemma StatusCloser(d: Stored, existing: set<Obj>, t: Status, landed: set<Obj>)
    requires Healthy(d) && d.finalizer && d.status.phase != NoPhase && Booked(t) && t.phase != NoPhase
    requires landed <= Objects(d.spec)
    requires (t.phase == Ready && landed == Objects(d.spec)) || !(landed <= existing)
    ensures Closer(d, existing, d.(status := t), existing + landed)
  {
    if !(landed <= existing) {
      Shrinks(Objects(d.spec), existing, landed);
    } else {
      assert Objects(d.spec) - (existing + landed) == {};
    }
  }

  lemma WorkCloser(d: Stored, inputs: Inputs, start: set<Obj>, existing: set<Obj>)
    requires Healthy(d) && Deployable(d.spec, start) && start <= existing && FairInputs(d.spec, existing, inputs)
    requires d.finalizer && d.status.phase != NoPhase
    ensures var c := Computed(d, inputs);
            Closer(d, existing, d.(status := c.status), existing + StepsLand(inputs, c.steps))
  {
    var c := Computed(d, inputs);
    PassProgress(d, inputs, start, existing);
    ComputedFacts(d, inputs);
    ReadyMeansReadyNow(d, inputs);
    StatusCloser(d, existing, c.status, StepsLand(inputs, c.steps));
  }

  lemma WorkRound(w: World, inputs: Inputs, d: Stored)
    requires w.cluster.obj == Some(d) && !d.deleting && d.finalizer && d.status.phase != NoPhase
    requires inputs.fetchOk && inputs.writeOk && inputs.refetchOk
    ensures var c := Computed(d, inputs);
            Round(w, inputs)
                == World(w.cluster.(obj := Some(d.(status := c.status))), w.existing + StepsLand(inputs, c.steps))
  {
  }

  /** Each fair round over a spec that was deployable from the start ends Ready with
      nothing left to create, or strictly decreases the measure. */
  lemma RoundCloser(w: World, inputs: Inputs, start: set<Obj>)
    requires w.cluster.obj.Some? && Healthy(w.cluster.obj.value) && start <= w.existing
    requires Deployable(w.cluster.obj.value.spec, start)
    requires FairInputs(w.cluster.obj.value.spec, w.existing, inputs)
    ensures var w' := Round(w, inputs);
            && w'.cluster.obj.Some? && w.existing <= w'.existing
            && Closer(w.cluster.obj.value, w.existing, w'.cluster.obj.value, w'.existing)
  {
    var d := w.cluster.obj.value;
    if !d.finalizer || d.status.phase == NoPhase {
      EarlyRound(w, inputs, d);
    } else {
      WorkRound(w, inputs, d);
      WorkCloser(d, inputs, start, w.existing);
    }
  }

  // --------------------------------------------------------------- convergence

  lemma OutcomeHealthy(d: Stored, inputs: Inputs, e: Stored)
    requires Healthy(d) && LeftBy(d, inputs, e)
    ensures Healthy(e) && e.spec == d.spec
    ensures (d.finalizer ==> e.finalizer) && (d.status.phase != NoPhase ==> e.status.phase != NoPhase)
  {
    InitializedFacts(d.spec, d.generation);
    ComputedFacts(d, inputs);
  }

  /** Any round, whatever fails in it, leaves the object healthy and no further off. */
  lemma AnyRound(w: World, inputs: Inputs)
    requires w.cluster.obj.Some? && Healthy(w.cluster.obj.value)
    ensures var d, w' := w.cluster.obj.value, Round(w, inputs);
            && w.existing <= w'.existing && w'.cluster.obj.Some?
            && var e := w'.cluster.obj.value;
               Healthy(e) && e.spec == d.spec && Measure(e, w'.existing) <= Measure(d, w.existing)
  {
    var d, w' := w.cluster.obj.value, Round(w, inputs);
    RoundOutcome(w, inputs, d);
    OutcomeHealthy(d, inputs, w'.cluster.obj.value);
    SubsetSize(Objects(d.spec) - w'.existing, Objects(d.spec) - w.existing);
  }

  /** Round `n` of a run: a pass in whatever the cluster answers, after which others may
      have added objects. */
  ghost predicate RoundOf(worlds: nat -> World, inputs: nat -> Inputs, n: nat) {
    var w := Round(worlds(n), inputs(n));
    worlds(n + 1).cluster == w.cluster && w.existing <= worlds(n + 1).existing
  }

  ghost predicate IsRounds(worlds: nat -> World, inputs: nat -> Inputs) { forall n: nat :: RoundOf(worlds, inputs, n) }

  ghost predicate FairRound(spec: Spec, worlds: nat -> World, inputs: nat -> Inputs, n: nat) {
    FairInputs(spec, worlds(n).existing, inputs(n))
  }

  /** How many of the first `n` rounds were fair. */
  ghost function FairRounds(spec: Spec, worlds: nat -> World, inputs: nat -> Inputs, n: nat): nat {
    if n == 0 then 0
    else FairRounds(spec, worlds, inputs, n - 1) + (if FairRound(spec, worlds, inputs, n - 1) then 1 else 0)
  }

  /** After some rounds, `fair` of them fair: nothing left to create, or at most
      `bound - fair` to go. */
  ghost predicate OnTheWay(spec: Spec, start: set<Obj>, w: World, bound: nat, fair: nat) {
    && start <= w.existing && w.cluster.obj.Some?
    && Healthy(w.cluster.obj.value) && w.cluster.obj.value.spec == spec
    && var left := Measure(w.cluster.obj.value, w.existing); left == 0 || left + fair <= bound
  }

  /** Objects added by others bring the deployment no further off. */
  lemma MoreExists(spec: Spec, start: set<Obj>, w: World, more: set<Obj>, bound: nat, fair: nat)
    requires OnTheWay(spec, start, w, bound, fair) && w.existing <= more
    ensures OnTheWay(spec, start, w.(existing := more), bound, fair)
  {
    SubsetSize(Objects(spec) - more, Objects(spec) - w.existing);
  }

  lemma RoundOnTheWay(spec: Spec, start: set<Obj>, w: World, inputs: Inputs, bound: nat, fair: nat)
    requires Deployable(spec, start) && OnTheWay(spec, start, w, bound, fair)
    ensures OnTheWay(spec, start, Round(w, inputs), bound,
                fair + (if FairInputs(spec, w.existing, inputs) then 1 else 0))
  {
    if FairInputs(spec, w.existing, inputs) { RoundCloser(w, inputs, start); } else { AnyRound(w, inputs); }
  }

  /** The same for a round after which others have added objects. */
  lemma NextOnTheWay(spec: Spec, start: set<Obj>, w: World, inputs: Inputs, next: World, bound: nat, fair: nat)
    requires Deployable(spec, start) && OnTheWay(spec, start, w, bound, fair)
    requires next.cluster == Round(w, inputs).cluster && Round(w, inputs).existing <= next.existing
    ensures OnTheWay(spec, start, next, bound, fair + (if FairInputs(spec, w.existing, inputs) then 1 else 0))
  {
    RoundOnTheWay(spec, start, w, inputs, bound, fair);
    MoreExists(spec, start, Round(w, inputs), next.existing, bound,
        fair + (if FairInputs(spec, w.existing, inputs) then 1 else 0));
    assert next == Round(w, inputs).(existing := next.existing);
  }

  lemma WorldOnTheWay(spec: Spec, start: set<Obj>, worlds: nat -> World, inputs: nat -> Inputs, bound: nat, n: nat)
    requires Deployable(spec, start) && IsRounds(worlds, inputs)
    requires OnTheWay(spec, start, worlds(n), bound, FairRounds(spec, worlds, inputs, n))
    ensures OnTheWay(spec, start, worlds(n + 1), bound, FairRounds(spec, worlds, inputs, n + 1))
  {
    assert RoundOf(worlds, inputs, n);
    NextOnTheWay(spec, start, worlds(n), inputs(n), worlds(n + 1), bound, FairRounds(spec, worlds, inputs, n));
  }

  lemma RoundsOnTheWay(spec: Spec, start: set<Obj>, worlds: nat -> World, inputs: nat -> Inputs, bound: nat, n: nat)
    requires Deployable(spec, start) && OnTheWay(spec, start, worlds(0), bound, 0) && IsRounds(worlds, inputs)
    ensures OnTheWay(spec, start, worlds(n), bound, FairRounds(spec, worlds, inputs, n))
  {
    for k := 0 to n
      invariant OnTheWay(spec, start, worlds(k), bound, FairRounds(spec, worlds, inputs, k))
    {
      WorldOnTheWay(spec, start, worlds, inputs, bound, k);
    }
  }

  /** A fair round with nothing left to create ends Ready. */
  lemma LastRound(spec: Spec, start: set<Obj>, w: World, inputs: Inputs, bound: nat, fair: nat)
    requires Deployable(spec, start) && OnTheWay(spec, start, w, bound, fair) && fair >= bound
    requires FairInputs(spec, w.existing, inputs)
    ensures var obj := Round(w, inputs).cluster.obj;
            obj.Some? && obj.value.spec == spec && obj.value.status.phase == Ready
  {
    RoundCloser(w, inputs, start);
  }

  /** Convergence: from any healthy state of a spec that is deployable in that
      cluster, whatever else fails in between and whatever others add, the stored phase
      is Ready after every fair round but the first few, as many as there were gates
      left to open. */
  lemma Converges(d: Stored, worlds: nat -> World, inputs: nat -> Inputs, n: nat)
    requires worlds(0).cluster.obj == Some(d) && Healthy(d) && Deployable(d.spec, worlds(0).existing)
    requires IsRounds(worlds, inputs) && FairRound(d.spec, worlds, inputs, n)
    requires FairRounds(d.spec, worlds, inputs, n) >= Measure(d, worlds(0).existing)
    ensures var obj := worlds(n + 1).cluster.obj;
            obj.Some? && obj.value.spec == d.spec && obj.value.status.phase == Ready
  {
    var start, bound := worlds(0).existing, Measure(d, worlds(0).existing);
    RoundsOnTheWay(d.spec, start, worlds, inputs, bound, n);
    LastRound(d.spec, start, worlds(n), inputs(n), bound, FairRounds(d.spec, worlds, inputs, n));
    assert RoundOf(worlds, inputs, n);
  }

  /** Round after round, fair again and again. */
  ghost predicate FairRun(spec: Spec, worlds: nat -> World, inputs: nat -> Inputs) {
    IsRounds(worlds, inputs) && forall n: nat :: FairAgain(spec, worlds, inputs, n)
  }

  ghost predicate FairAgain(spec: Spec, worlds: nat -> World, inputs: nat -> Inputs, n: nat) {
    exists m: nat :: m >= n && FairRound(spec, worlds, inputs, m)
  }

  lemma {:induction false} FairRoundsGrow(spec: Spec, worlds: nat -> World, inputs: nat -> Inputs, n: nat, m: nat)
    requires n <= m
    ensures FairRounds(spec, worlds, inputs, n) <= FairRounds(spec, worlds, inputs, m)
  {
    if n < m { FairRoundsGrow(spec, worlds, inputs, n, m - 1); }
  }

  /** A fair run has a fair round after any number of fair rounds. */
  lemma {:induction false} NextFairRound(spec: Spec, worlds: nat -> World, inputs: nat -> Inputs, count: nat)
    returns (n: nat)
    requires FairRun(spec, worlds, inputs)
    ensures FairRound(spec, worlds, inputs, n) && FairRounds(spec, worlds, inputs, n) >= count
  {
    var after := 0;
    if count > 0 {
      var k := NextFairRound(spec, worlds, inputs, count - 1);
      after := k + 1;
    }
    assert FairAgain(spec, worlds, inputs, after);
    n :| n >= after && FairRound(spec, worlds, inputs, n);
    FairRoundsGrow(spec, worlds, inputs, after, n);
  }

  /** The bound depends on nothing but the spec. */
  lemma BoundFixedBySpec(d: Stored, existing: set<Obj>)
    ensures Measure(d, existing) <= 2 + |Objects(d.spec)|
  {
    SubsetSize(Objects(d.spec) - existing, Objects(d.spec));
  }
}
