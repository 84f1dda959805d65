/** The dividing line: a deployment becomes Ready in every fair run exactly if its spec
    is deployable in that cluster. */
module Exactness {
  import opened Api
  import opened Gates
  import opened Controller
  import opened Supply
  import opened Deployability
  import opened Guards
  import opened Rounds
  import opened Convergence
  import opened Barriers
  import opened Stuck

  /** Nothing has been reported ready yet, as for a deployment just created. */
  predicate Unready(d: Stored) {
    d.status.phase != Ready && !TierUp(d.status.core) && !TierUp(d.status.rest)
  }

  predicate IsReady(w: World) { w.cluster.obj.Some? && w.cluster.obj.value.status.phase == Ready }

  /** In an honest cluster no pass, failing or not, ever stores `Ready` for a
      deployment whose spec is not deployable there. */
  lemma UndeployableNeverReady(d: Stored, worlds: nat -> World, inputs: nat -> Inputs, n: nat)
    requires worlds(0).cluster.obj == Some(d) && Healthy(d) && Unready(d)
    requires !Deployable(d.spec, worlds(0).existing) && HonestRun(d.spec, worlds, inputs)
    ensures !IsReady(worlds(n))
  {
    var ob := FindObstacle(d.name, d.spec, worlds(0).existing);
    BoundHas(d.spec, worlds(0).existing, ob);
    WaitsForEver(d.spec, worlds(0).existing, ob, worlds, inputs, n);
  }

  // ------------------------------------------------------ the exact cluster

  /** The cluster that answers Yes exactly where what exists suffices. */
  ghost function ExactInput(spec: Spec, existing: set<Obj>): Inputs {
    var o: Oracle := (log: seq<Call>, c: Call) => if Supplied(spec, existing, c) then Yes else No;
    Inputs(true, true, true, Yes, o, o, o)
  }

  ghost function ExactWorld(spec: Spec, w: World, n: nat): World {
    if n == 0 then w else Round(ExactWorld(spec, w, n - 1), ExactInput(spec, ExactWorld(spec, w, n - 1).existing))
  }

  lemma ExactIsFair(spec: Spec, existing: set<Obj>)
    ensures FairInputs(spec, existing, ExactInput(spec, existing))
  {
  }

  /** An oracle that answers by what was there is honest about anything more. */
  lemma AnswersHonestly(spec: Spec, o: Oracle, existing: set<Obj>, base: set<Obj>)
    requires existing <= base && forall log, c :: o(log, c) == Yes ==> Supplied(spec, existing, c)
    ensures Honest(spec, o, base)
  {
    forall log, c | o(log, c) == Yes ensures Supplied(spec, base + Landed(o, log), c) {
      SuppliedMonotone(spec, existing, base + Landed(o, log), c);
    }
  }

  lemma ExactIsHonest(spec: Spec, existing: set<Obj>)
    ensures HonestInputs(spec, existing, ExactInput(spec, existing))
  {
    var o := ExactInput(spec, existing).infra;
    AnswersHonestly(spec, o, existing, existing);
    AnswersHonestly(spec, o, existing, existing + InfrastructureObjects(spec));
    AnswersHonestly(spec, o, existing, existing + InfrastructureObjects(spec) + CoreObjects(spec));
  }

  /** From every world there is a run that is fair and honest at once. */
  lemma ExactRunExists(spec: Spec, w: World) returns (worlds: nat -> World, inputs: nat -> Inputs)
    ensures worlds(0) == w && FairRun(spec, worlds, inputs) && HonestRun(spec, worlds, inputs)
  {
    worlds := (n: nat) => ExactWorld(spec, w, n);
    inputs := (n: nat) => ExactInput(spec, ExactWorld(spec, w, n).existing);
    forall n: nat
      ensures RoundOf(worlds, inputs, n) && FairAgain(spec, worlds, inputs, n) && HonestRound(spec, worlds, inputs, n)
    {
      ExactIsFair(spec, worlds(n).existing);
      ExactIsHonest(spec, worlds(n).existing);
      assert FairRound(spec, worlds, inputs, n);
    }
  }

  /** Some round of the run stores `Ready`. */
  ghost predicate BecomesReady(worlds: nat -> World) { exists n: nat :: IsReady(worlds(n)) }

  ghost predicate AlwaysBecomesReady(spec: Spec, w: World) {
    forall worlds: nat -> World, inputs: nat -> Inputs | worlds(0) == w && FairRun(spec, worlds, inputs) ::
      BecomesReady(worlds)
  }

  /** The dividing line is exact: a deployment that has not been ready yet becomes
      Ready in every fair run if and only if its spec is deployable in the cluster it
      is in. */
  lemma DeployableExactly(d: Stored, w: World)
    requires w.cluster.obj == Some(d) && Healthy(d) && Unready(d)
    ensures Deployable(d.spec, w.existing) <==> AlwaysBecomesReady(d.spec, w)
  {
    if Deployable(d.spec, w.existing) {
      forall worlds: nat -> World, inputs: nat -> Inputs | worlds(0) == w && FairRun(d.spec, worlds, inputs)
        ensures BecomesReady(worlds)
      {
        var n := NextFairRound(d.spec, worlds, inputs, Measure(d, w.existing));
        Converges(d, worlds, inputs, n);
        assert IsReady(worlds(n + 1));
      }
    } else {
      var worlds, inputs := ExactRunExists(d.spec, w);
      forall n: nat ensures !IsReady(worlds(n)) {
        UndeployableNeverReady(d, worlds, inputs, n);
      }
      assert !BecomesReady(worlds);
    }
  }
}
