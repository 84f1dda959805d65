/** What holds in every state that an orderly run can reach. */
module Safety {
  import opened Api
  import opened Gates
  import opened Conditions
  import opened Admission
  import opened Controller
  import opened Runs
  import InfrastructureTier

  /** Rollout order: no tier is reconciled in a pass whose object lacks the
      finalizer, is being deleted, is not initialised, or whose TLS backend was not
      detected; core only behind an infrastructure that was ready in that pass;
      REST only behind a core that some pass over the same object saw ready. */
  lemma RolloutOrder(run: Run, k: nat, pass: nat, i: nat)
    requires Orderly(run) && k < |run.states|
    requires var trace := run.states[k].trace; pass < |trace| && i < |trace[pass].steps|
    ensures var trace := run.states[k].trace; SafeStep(trace[pass], i, SeenBefore(trace, pass))
    ensures run.states[k].trace[pass].detect == Yes
  {
    RunsKeepInv(run, k);
    assert SafePass(run.states[k].trace, pass);
    assert SafeStep(run.states[k].trace[pass], i, SeenBefore(run.states[k].trace, pass));
  }

  /** Every admitted spec has one of the two known modes. */
  lemma AdmittedTLS(name: string, spec: Spec)
    requires Admitted(name, spec)
    ensures spec.tls.Some? && (spec.tls.value.mode == Spiffe || spec.tls.value.mode == CertManager)
  {
    assert spec.tls.value == DefaultedTLS(spec.tls);
  }

  predicate Settled(s: Status) { s.phase != NoPhase && s.phase != Pending }

  /** Once past initialisation, phase and Ready condition are one function of the
      spec at the observed generation, the TLSReady condition and the tier
      statuses: `Updating` is never stored, and `Failed` is stored exactly when the
      pass that wrote it was not told that the TLS backend is there; the conditions
      of the configured mode say the same. */
  lemma PhaseIsSummary(run: Run, k: nat)
    requires Orderly(run) && k < |run.states| && run.states[k].cluster.obj.Some?
    requires Settled(run.states[k].cluster.obj.value.status)
    ensures var s := run.states[k];
            var t := s.cluster.obj.value.status;
            && t.observedGeneration in s.history && s.writer.Some?
            && var spec := s.history[t.observedGeneration];
               && t.phase == Summary(spec, IsConditionTrue(t.conditions, TLSReady), t)
               && (IsConditionTrue(t.conditions, ReadyCondition) <==> t.phase == Ready)
               && t.phase != Updating
               && (t.phase == Failed <==> s.writer.value.detect != Yes)
               && (IsConditionTrue(t.conditions, TLSReady) <==> s.writer.value.detect == Yes)
               && (IsSpiffeMode(spec) || IsCertManagerMode(spec))
               && (IsConditionTrue(t.conditions, if IsSpiffeMode(spec) then SPIFFEAvailable else CertManagerAvailable)
                   <==> s.writer.value.detect == Yes)
  {
    RunsKeepInv(run, k);
    var s := run.states[k];
    var t := s.cluster.obj.value.status;
    var spec := s.history[t.observedGeneration];
    assert Fit(s.cluster.obj.value.name, s.cluster.obj.value.spec.profile, spec);
    AdmittedTLS(s.cluster.obj.value.name, spec);
  }

  /** The books are kept in every reachable state. */
  lemma StatusBookkeeping(run: Run, k: nat)
    requires Orderly(run) && k < |run.states| && run.states[k].cluster.obj.Some?
    ensures var d := run.states[k].cluster.obj.value;
            var cs := d.status.conditions;
            && UniqueTypes(cs)
            && (IsConditionTrue(cs, InfrastructureReady) <==> TierUp(d.status.infrastructure))
            && (IsConditionTrue(cs, CoreReady) <==> TierUp(d.status.core))
            && (IsConditionTrue(cs, RestReady) <==> TierUp(d.status.rest))
            && (IsConditionTrue(cs, ReadyCondition) <==> d.status.phase == Ready)
            && 0 <= d.status.observedGeneration <= d.generation
            && (d.status.observedGeneration == 0 <==> !Settled(d.status))
  {
    RunsKeepInv(run, k);
  }

  /** The conditions of Vault, RLA and PSM are never True, however ready those are. */
  lemma ServiceConditionsNeverTrue(run: Run, k: nat)
    requires Orderly(run) && k < |run.states| && run.states[k].cluster.obj.Some?
    ensures var cs := run.states[k].cluster.obj.value.status.conditions;
            !IsConditionTrue(cs, VaultReady) && !IsConditionTrue(cs, RLAReady) && !IsConditionTrue(cs, PSMReady)
  {
    RunsKeepInv(run, k);
  }

  /** What a run stored under `Ready` never had a REST block that was switched off;
      so a site deployment with a REST block is never stored as `Ready`. */
  lemma ReadyHasNoIdleRest(run: Run, k: nat)
    requires Orderly(run) && k < |run.states| && run.states[k].cluster.obj.Some?
    requires run.states[k].cluster.obj.value.status.phase == Ready
    ensures var s := run.states[k];
            var g := s.cluster.obj.value.status.observedGeneration;
            && g in s.history && (s.history[g].rest.None? || RestEnabled(s.history[g]))
            && (s.history[g].profile == Site ==> s.history[g].rest.None?)
  {
    RunsKeepInv(run, k);
    var s := run.states[k];
    var d := s.cluster.obj.value;
    var spec := s.history[d.status.observedGeneration];
    assert Fit(d.name, d.spec.profile, spec);
    if spec.rest.Some? { RestFollowsProfile(d.name, spec); }
  }

  // ------------------------------------------------------------ quiescence

  lemma InfrastructureDone(spec: Spec, generation: int, s: Status, o: Oracle)
    ensures var w := AfterInfrastructure(spec, generation, s, o);
            && (!w.err && !w.requeue <==> spec.infrastructure.None? || TierUp(w.status.infrastructure))
            && w.status.rest == s.rest
  {
  }

  lemma CoreDone(spec: Spec, generation: int, w: Work, o: Oracle)
    requires !w.err && !w.requeue <==> spec.infrastructure.None? || TierUp(w.status.infrastructure)
    ensures var v := AfterCore(spec, generation, w, o);
            && (!v.err && !v.requeue
               <==> (spec.infrastructure.None? || TierUp(v.status.infrastructure)) && TierUp(v.status.core))
            && v.status.rest == w.status.rest
  {
  }

  lemma RestDone(spec: Spec, generation: int, w: Work, o: Oracle)
    requires !w.err && !w.requeue
             <==> (spec.infrastructure.None? || TierUp(w.status.infrastructure)) && TierUp(w.status.core)
    ensures var v := AfterRest(spec, generation, w, o);
            && v.status.core == w.status.core && v.status.infrastructure == w.status.infrastructure
            && (!RestEnabled(spec) ==> v == w)
            && (RestEnabled(spec) ==>
                  (!v.err && !v.requeue <==> (spec.infrastructure.None? || TierUp(v.status.infrastructure))
                                             && TierUp(v.status.core) && TierUp(v.status.rest)))
  {
  }

  lemma TiersDone(spec: Spec, generation: int, s: Status, inputs: Inputs)
    requires spec.rest.Some? && !RestEnabled(spec) ==> !TierUp(s.rest)
    ensures var w := Tiers(spec, generation, s, inputs);
            (spec.infrastructure.None? || TierUp(w.status.infrastructure)) && TierUp(w.status.core)
            && (spec.rest.None? || TierUp(w.status.rest))
            <==> !w.err && !w.requeue && (spec.rest.None? || RestEnabled(spec))
  {
    InfrastructureDone(spec, generation, s, inputs.infra);
    var w := AfterInfrastructure(spec, generation, s, inputs.infra);
    CoreDone(spec, generation, w, inputs.core);
    RestDone(spec, generation, AfterCore(spec, generation, w, inputs.core), inputs.rest);
  }

  /** A pass computes `Ready` exactly when it asks for nothing more, given that a
      REST block it does not reconcile has no ready status from before. */
  lemma ComputedDone(d: Stored, inputs: Inputs)
    requires Booked(d.status)
    requires d.spec.rest.Some? && !RestEnabled(d.spec) ==> !TierUp(d.status.rest)
    ensures var w := Computed(d, inputs);
            w.status.phase == Ready <==> !w.err && !w.requeue && (d.spec.rest.None? || RestEnabled(d.spec))
  {
    ComputedFacts(d, inputs);
    TiersDone(d.spec, d.generation, WithTLSCheck(d.spec, Observed(d), d.generation, inputs.detect), inputs);
  }

  /** Quiescence means done: when a pass writes its status and asks for no further
      pass, the phase it stored is `Ready` exactly if the REST block is absent or
      enabled; and it never stores `Ready` while asking for more. */
  lemma QuiescentMeansReady(run: Run, k: nat, inputs: Inputs, mid: seq<EnvStep>)
    requires Orderly(run) && k < |run.states|
    requires var s := run.states[k];
             && inputs.fetchOk && s.cluster.obj.Some? && s.cluster.obj.value.finalizer && !s.cluster.obj.value.deleting
             && s.cluster.obj.value.status.phase != NoPhase && Pass(s.cluster, inputs, mid).wrote
    ensures var d, out := run.states[k].cluster.obj.value, Pass(run.states[k].cluster, inputs, mid);
            && out.cluster.obj.Some?
            && (out.cluster.obj.value.status.phase == Ready <==>
                  !out.err && !out.requeue && (d.spec.rest.None? || RestEnabled(d.spec)))
  {
    RunsKeepInv(run, k);
    var d := run.states[k].cluster.obj.value;
    if d.spec.rest.Some? { RestFollowsProfile(d.name, d.spec); }
    ComputedDone(d, inputs);
  }

  // -------------------------------------------------- observed generation

  predicate Holds(c: Cluster, uid: nat) { c.obj.Some? && c.obj.value.uid == uid }

  /** What the steps of others leave: the object with its status and at least its
      generation, or a new one with no status, or none. */
  lemma {:induction false} OthersLeave(c: Cluster, es: seq<EnvStep>)
    requires c.obj.Some? ==> c.obj.value.uid < c.nextUid
    ensures var b := EnvAll(c, es);
            && c.nextUid <= b.nextUid && (b.obj.Some? ==> b.obj.value.uid < b.nextUid)
            && (b.obj.Some? ==>
                  || (c.obj.Some? && b.obj.value.uid == c.obj.value.uid && b.obj.value.status == c.obj.value.status
                      && c.obj.value.generation <= b.obj.value.generation)
                  || (c.nextUid <= b.obj.value.uid && b.obj.value.status == FRESH_STATUS
                     && 1 <= b.obj.value.generation))
  {
    if es != [] { OthersLeave(c, es[..|es| - 1]); }
  }

  /** From `a` to `b` no gone object came back and no observed generation fell. */
  ghost predicate Moves(a: Cluster, b: Cluster, uid: nat) {
    uid < a.nextUid ==>
      && uid < b.nextUid
      && (Holds(b, uid)
         ==> Holds(a, uid) && a.obj.value.status.observedGeneration <= b.obj.value.status.observedGeneration)
  }

  lemma EnvMoves(c: Cluster, e: EnvStep, uid: nat)
    ensures Moves(c, Env(c, e), uid)
  {
  }

  lemma FetchedMoves(s: State, inputs: Inputs, mid: seq<EnvStep>, uid: nat)
    requires Inv(s)
    ensures Moves(s.cluster, Pass(s.cluster, inputs, mid).cluster, uid)
  {
    OthersLeave(s.cluster, mid);
    if s.cluster.obj.Some? { PassMoves(s.cluster, inputs, mid); }
  }

  lemma StepMoves(run: Run, k: nat, uid: nat)
    requires Orderly(run) && 0 < k < |run.states|
    ensures Moves(run.states[k - 1].cluster, run.states[k].cluster, uid)
  {
    RunsKeepInv(run, k - 1);
    var s := run.states[k - 1];
    assert Linked(run, k - 1) && Undisturbed(run.steps[k - 1]);
    match run.steps[k - 1]
    case Others(e) => EnvMoves(s.cluster, e, uid);
    case PassStep(inputs, mid) => FetchedMoves(s, inputs, mid, uid);
  }

  lemma PassMoves(c: Cluster, inputs: Inputs, mid: seq<EnvStep>)
    requires c.obj.Some? && c.obj.value.status.observedGeneration <= c.obj.value.generation
             && Booked(c.obj.value.status)
    requires c.obj.value.status.phase == NoPhase ==> c.obj.value.status == FRESH_STATUS
    ensures var now, out := EnvAll(c, mid), Pass(c, inputs, mid);
            && out.cluster.nextUid == now.nextUid
            && (out.cluster.obj.Some? ==> now.obj.Some? && now.obj.value.uid == out.cluster.obj.value.uid)
            && (out.cluster.obj.Some?
                && out.cluster.obj.value.status.observedGeneration < c.obj.value.status.observedGeneration
                ==> out.cluster.obj.value.status == now.obj.value.status)
  {
    ComputedFacts(c.obj.value, inputs);
    InitializedFacts(c.obj.value.spec, c.obj.value.generation);
  }

  lemma MovesTwo(a: Cluster, b: Cluster, c: Cluster, uid: nat)
    requires Moves(a, b, uid) && Moves(b, c, uid)
    ensures Moves(a, c, uid)
  {
  }

  lemma {:induction false} MovesAlong(run: Run, j: nat, k: nat, uid: nat)
    requires Orderly(run) && j <= k < |run.states|
    ensures Moves(run.states[j].cluster, run.states[k].cluster, uid)
  {
    if j < k {
      MovesAlong(run, j, k - 1, uid);
      StepMoves(run, k, uid);
      MovesTwo(run.states[j].cluster, run.states[k - 1].cluster, run.states[k].cluster, uid);
    }
  }

  /** Over the life of one object the observed generation never decreases. */
  lemma ObservedGenerationGrows(run: Run, j: nat, k: nat)
    requires Orderly(run) && j <= k < |run.states|
    requires var a, b := run.states[j].cluster.obj, run.states[k].cluster.obj;
             a.Some? && b.Some? && a.value.uid == b.value.uid
    ensures var a, b := run.states[j].cluster.obj.value, run.states[k].cluster.obj.value;
            a.status.observedGeneration <= b.status.observedGeneration
  {
    RunsKeepInv(run, j);
    MovesAlong(run, j, k, run.states[j].cluster.obj.value.uid);
  }

  // ------------------------------------- what the side conditions are there for

  /** A REST step need not follow a core step of its own pass: with a core status
      stored as ready, a pass that finds infrastructure down skips core and still
      reconciles REST. */
  lemma StaleCoreLetsRestIn(d: Stored, inputs: Inputs)
    requires d.spec.infrastructure.Some? && RestEnabled(d.spec)
             && inputs.detect == Yes && (IsSpiffeMode(d.spec) || IsCertManagerMode(d.spec))
             && TierUp(d.status.core)
    requires !InfrastructureTier.Run(inputs.infra, d.spec.infrastructure.value).status.ready
    ensures var steps := Computed(d, inputs).steps;
            |steps| == 2 && steps[0].tier == Infrastructure && steps[1].tier == Rest
  {
    ComputedSteps(d, inputs);
  }

  /** Why runs must be orderly: when somebody strips the finalizer of an edited
      object and recreates it in the middle of a pass, the pass writes onto the new
      object an observed generation that object has not reached. */
  lemma RecreatedTooFarObserved(c: Cluster, inputs: Inputs, name: string, user: Spec)
    requires c.obj.Some? && MayAct(c.obj.value, inputs.detect) && c.obj.value.generation > 1
    requires inputs.fetchOk && inputs.refetchOk && inputs.writeOk
    requires Valid(Defaulted(name, user)) && InSchema(Defaulted(name, user)) && Booked(c.obj.value.status)
    ensures var out := Pass(c, inputs, [RequestDelete, StripFinalizer, Create(name, user)]);
            out.cluster.obj.Some? && out.cluster.obj.value.status.observedGeneration > out.cluster.obj.value.generation
  {
    var mid := [RequestDelete, StripFinalizer, Create(name, user)];
    assert mid[..2] == [RequestDelete, StripFinalizer] && mid[..2][..1] == [RequestDelete] && mid[..2][..1][..0] == [];
    assert EnvAll(c, mid[..2]).obj.None? by {
      assert EnvAll(c, [RequestDelete]) == Env(c, RequestDelete);
    }
    ComputedFacts(c.obj.value, inputs);
  }

  predicate OverObserved(c: Cluster) {
    c.obj.Some? && c.obj.value.status.observedGeneration > c.obj.value.generation
  }

  /** The pass fetched an object it works on, and its last read and write go through. */
  predicate WritesWork(c: Cluster, inputs: Inputs) {
    && inputs.fetchOk && inputs.refetchOk && inputs.writeOk && c.obj.Some?
    && c.obj.value.finalizer && !c.obj.value.deleting && c.obj.value.status.phase != NoPhase
  }

  /** Exactly when a pass from a reachable state, with any steps of others in the middle
      of it, leaves an observed generation beyond the object's own: when it writes its
      status and by then those steps have replaced the object it fetched by one of a
      lower generation; and they cannot have done so without stripping the finalizer. */
  lemma OverObservedExactly(run: Run, k: nat, inputs: Inputs, mid: seq<EnvStep>)
    requires Orderly(run) && k < |run.states|
    ensures var c := run.states[k].cluster;
            var now := EnvAll(c, mid).obj;
            var replaced := c.obj.Some? && now.Some? && now.value.uid != c.obj.value.uid
                            && now.value.generation < c.obj.value.generation;
            && (OverObserved(Pass(c, inputs, mid).cluster) <==> WritesWork(c, inputs) && replaced)
            && (WritesWork(c, inputs) && replaced ==> StripFinalizer in mid)
  {
    RunsKeepInv(run, k);
    OverObservedInState(run.states[k], inputs, mid);
  }

  lemma OverObservedInState(s: State, inputs: Inputs, mid: seq<EnvStep>)
    requires Inv(s)
    ensures var c := s.cluster;
            var now := EnvAll(c, mid).obj;
            var replaced := c.obj.Some? && now.Some? && now.value.uid != c.obj.value.uid
                            && now.value.generation < c.obj.value.generation;
            && (OverObserved(Pass(c, inputs, mid).cluster) <==> WritesWork(c, inputs) && replaced)
            && (WritesWork(c, inputs) && replaced ==> StripFinalizer in mid)
  {
    OthersLeave(s.cluster, mid);
    if WritesWork(s.cluster, inputs) {
      WritesObserves(s.cluster, inputs, mid);
      KeptUnlessStripped(s, mid);
    } else {
      OtherwiseInBounds(s, inputs, mid);
    }
  }

  lemma WritesObserves(c: Cluster, inputs: Inputs, mid: seq<EnvStep>)
    requires WritesWork(c, inputs) && Booked(c.obj.value.status)
    ensures var now, left := EnvAll(c, mid).obj, Pass(c, inputs, mid).cluster.obj;
            && left.Some? == now.Some?
            && (now.Some? ==> left.value.generation == now.value.generation
                              && left.value.status.observedGeneration == c.obj.value.generation)
  {
    ComputedFacts(c.obj.value, inputs);
  }

  /** A pass that writes no full status leaves the books in order. */
  lemma OtherwiseInBounds(s: State, inputs: Inputs, mid: seq<EnvStep>)
    requires Inv(s) && !WritesWork(s.cluster, inputs)
    ensures !OverObserved(Pass(s.cluster, inputs, mid).cluster)
  {
    var c, now := s.cluster, EnvAll(s.cluster, mid);
    OthersLeave(c, mid);
    assert !OverObserved(now);
    if inputs.fetchOk && c.obj.Some? {
      var d := c.obj.value;
      assert Admitted(d.name, d.spec) by { assert Fit(d.name, d.spec.profile, s.history[d.generation]); }
      if d.deleting || !d.finalizer {
        assert Pass(c, inputs, mid) == FinalizerPass(now, d, inputs.writeOk);
      } else if d.status.phase == NoPhase {
        InitializedFacts(d.spec, d.generation);
        assert Pass(c, inputs, mid) == InitPass(now, d, inputs.writeOk);
      } else {
        assert Pass(c, inputs, mid).cluster == now;
      }
    }
  }

  lemma KeptUnlessStripped(s: State, mid: seq<EnvStep>)
    requires Inv(s) && s.cluster.obj.Some? && s.cluster.obj.value.finalizer
    ensures var now := EnvAll(s.cluster, mid).obj;
            StripFinalizer in mid || (now.Some? && now.value.uid == s.cluster.obj.value.uid)
  {
    if StripFinalizer !in mid {
      AllOthersKeepInv(s, mid);
      ByAllOthersCluster(s, mid);
    }
  }
}
