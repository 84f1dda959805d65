/** What one pass does to the stored object, case by case, whatever others do in the
    middle of it. */
module Passes {
  import opened Api
  import opened Gates
  import opened Conditions
  import opened Admission
  import opened Controller
  import opened Runs
  import opened Safety
  import InfrastructureTier
  import CoreTier
  import RestTier

  // ------------------------------------------------ what is and is not touched

  /** Fetched without error, nothing there: nothing to do. Not fetched: an error. In
      both cases the pass leaves the cluster as the others did. */
  lemma NothingFetched(c: Cluster, inputs: Inputs, mid: seq<EnvStep>)
    requires !inputs.fetchOk || c.obj.None?
    ensures var out := Pass(c, inputs, mid);
            && out.cluster == EnvAll(c, mid) && out.steps == [] && !out.wrote && !out.requeue
            && (out.err <==> !inputs.fetchOk)
  {
  }

  /** A pass over an object that is being deleted: without the finalizer it does
      nothing; with it the object goes, provided the write goes through and nobody has
      touched the object since the fetch, and otherwise the pass is an error. */
  lemma DeletionPass(c: Cluster, inputs: Inputs, mid: seq<EnvStep>)
    requires inputs.fetchOk && c.obj.Some? && Admitted(c.obj.value.name, c.obj.value.spec) && c.obj.value.deleting
    ensures var d, now, out := c.obj.value, EnvAll(c, mid), Pass(c, inputs, mid);
            && out.steps == [] && !out.wrote && !out.requeue
            && if d.finalizer && inputs.writeOk && now.obj == c.obj
               then out.cluster.obj.None? && out.cluster.nextUid == now.nextUid && !out.err
               else out.cluster == now && (out.err <==> d.finalizer)
  {
  }

  /** A pass over a live object without the finalizer: it is put on and another pass
      asked for, under the same conditions. */
  lemma FinalizerPassExactly(c: Cluster, inputs: Inputs, mid: seq<EnvStep>)
    requires inputs.fetchOk && c.obj.Some? && Admitted(c.obj.value.name, c.obj.value.spec)
    requires !c.obj.value.deleting && !c.obj.value.finalizer
    ensures var d, now, out := c.obj.value, EnvAll(c, mid), Pass(c, inputs, mid);
            && out.steps == [] && !out.wrote
            && if inputs.writeOk && now.obj == c.obj
               then out.cluster == now.(obj := Some(d.(finalizer := true))) && out.requeue && !out.err
               else out.cluster == now && out.err && !out.requeue
  {
  }

  /** Left alone, a deleted object is gone after one pass that goes through. */
  lemma DeletionCompletes(run: Run, k: nat, inputs: Inputs)
    requires Orderly(run) && k < |run.states| && run.states[k].cluster.obj.Some?
    requires run.states[k].cluster.obj.value.deleting && run.states[k].cluster.obj.value.finalizer
    requires inputs.fetchOk && inputs.writeOk
    ensures Pass(run.states[k].cluster, inputs, []).cluster.obj.None?
  {
    ReachableIsAdmitted(run, k);
    DeletionPass(run.states[k].cluster, inputs, []);
  }

  lemma ReachableIsAdmitted(run: Run, k: nat)
    requires Orderly(run) && k < |run.states| && run.states[k].cluster.obj.Some?
    ensures Admitted(run.states[k].cluster.obj.value.name, run.states[k].cluster.obj.value.spec)
  {
    RunsKeepInv(run, k);
    var s := run.states[k];
    var d := s.cluster.obj.value;
    assert Fit(d.name, d.spec.profile, s.history[d.generation]);
  }

  /** What the operator itself may do to an object: remove one that is being deleted, put
      the finalizer on, or change the status. */
  ghost predicate OwnChange(was: Stored, now: Option<Stored>) {
    if now.None? then was.deleting && was.finalizer
    else now.value == was.(finalizer := now.value.finalizer, status := now.value.status)
         && (was.finalizer ==> now.value.finalizer)
  }

  /** In every orderly run the operator takes its finalizer only off an object that is
      being deleted, and never changes name, spec, generation or deletion mark: whatever
      others do in the middle of a pass, that is all it adds to what they left. */
  lemma OperatorOnlyFinalizesDeleted(run: Run, k: nat, inputs: Inputs, mid: seq<EnvStep>)
    requires Orderly(run) && k < |run.states|
    ensures var c := run.states[k].cluster;
            var now, out := EnvAll(c, mid), Pass(c, inputs, mid);
            if now.obj.None? then out.cluster == now else OwnChange(now.obj.value, out.cluster.obj)
  {
    var c := run.states[k].cluster;
    if c.obj.Some? {
      ReachableIsAdmitted(run, k);
      if inputs.fetchOk && c.obj.value.deleting { DeletionPass(c, inputs, mid); }
      if inputs.fetchOk && !c.obj.value.deleting && !c.obj.value.finalizer { FinalizerPassExactly(c, inputs, mid); }
    }
  }

  // ---------------------------------------------------------- initialisation

  /** The conditions a new deployment starts with. */
  predicate StartsWith(spec: Spec, t: ConditionType) {
    match t
    case ReadyCondition | CoreReady => true
    case InfrastructureReady => spec.infrastructure.Some?
    case RestReady => spec.rest.Some? && spec.rest.value.enabled
    case TLSReady => spec.tls.Some?
    case SPIFFEAvailable => spec.tls.Some? && spec.tls.value.mode == Spiffe
    case CertManagerAvailable => spec.tls.Some? && spec.tls.value.mode == CertManager
    case VaultReady => spec.core.vault.Some?
    case RLAReady => spec.core.rla.Some? && spec.core.rla.value.enabled
    case PSMReady => spec.core.psm.Some? && spec.core.psm.value.enabled
  }

  lemma WhenFinds(cond: bool, s: Status, u: ConditionType, generation: int, t: ConditionType)
    ensures FindStatusCondition(When(cond, s, u, generation).conditions, t)
            == if cond && t == u then Some(Condition(u, Unknown, generation)) else FindStatusCondition(s.conditions, t)
  {
    FindAfterSet(s.conditions, Condition(u, Unknown, generation), t);
  }

  /** Exactly those conditions, each Unknown at that generation. */
  lemma InitializedExactly(spec: Spec, generation: int, t: ConditionType)
    ensures FindStatusCondition(Initialized(spec, FRESH_STATUS, generation).conditions, t)
            == if StartsWith(spec, t) then Some(Condition(t, Unknown, generation)) else None
  {
    var s0 := FRESH_STATUS;
    WhenFinds(true, s0, ReadyCondition, generation, t);
    var s1 := WithCondition(s0, ReadyCondition, Unknown, generation);
    WhenFinds(spec.infrastructure.Some?, s1, InfrastructureReady, generation, t);
    var s2 := When(spec.infrastructure.Some?, s1, InfrastructureReady, generation);
    WhenFinds(true, s2, CoreReady, generation, t);
    var s3 := WithCondition(s2, CoreReady, Unknown, generation);
    WhenFinds(RestEnabled(spec), s3, RestReady, generation, t);
    var s4 := When(RestEnabled(spec), s3, RestReady, generation);
    WhenFinds(spec.tls.Some?, s4, TLSReady, generation, t);
    var s5 := When(spec.tls.Some?, s4, TLSReady, generation);
    WhenFinds(IsSpiffeMode(spec), s5, SPIFFEAvailable, generation, t);
    var s6 := When(IsSpiffeMode(spec), s5, SPIFFEAvailable, generation);
    WhenFinds(IsCertManagerMode(spec), s6, CertManagerAvailable, generation, t);
    var s7 := When(IsCertManagerMode(spec), s6, CertManagerAvailable, generation);
    WhenFinds(spec.core.vault.Some?, s7, VaultReady, generation, t);
    var s8 := When(spec.core.vault.Some?, s7, VaultReady, generation);
    WhenFinds(Enabled(spec.core.rla), s8, RLAReady, generation, t);
    var s9 := When(Enabled(spec.core.rla), s8, RLAReady, generation);
    WhenFinds(Enabled(spec.core.psm), s9, PSMReady, generation, t);
  }

  /** The first pass over a finalized object writes the initial status, unless the write
      fails or somebody was faster, and asks for another pass in any case. */
  lemma InitializationPass(c: Cluster, inputs: Inputs, mid: seq<EnvStep>)
    requires inputs.fetchOk && c.obj.Some? && c.obj.value.finalizer && !c.obj.value.deleting
    requires c.obj.value.status == FRESH_STATUS
    ensures var d, now, out := c.obj.value, EnvAll(c, mid), Pass(c, inputs, mid);
            && out.steps == [] && out.requeue && !out.err
            && (out.wrote <==> inputs.writeOk && now.obj == c.obj)
            && (!out.wrote ==> out.cluster == now)
            && (out.wrote ==>
                  && out.cluster.obj.Some? && out.cluster.nextUid == now.nextUid
                  && var t := out.cluster.obj.value.status;
                     && out.cluster.obj.value == d.(status := t)
                     && t == FRESH_STATUS.(phase := Pending, conditions := t.conditions)
                     && forall u :: FindStatusCondition(t.conditions, u)
                           == if StartsWith(d.spec, u) then Some(Condition(u, Unknown, d.generation)) else None)
  {
    var d := c.obj.value;
    InitializedFacts(d.spec, d.generation);
    forall u ensures FindStatusCondition(Initialized(d.spec, FRESH_STATUS, d.generation).conditions, u)
           == if StartsWith(d.spec, u) then Some(Condition(u, Unknown, d.generation)) else None {
      InitializedExactly(d.spec, d.generation, u);
    }
  }

  // ------------------------------------------------------------- working passes

  predicate Failing(steps: seq<TierStep>) { exists i | 0 <= i < |steps| :: steps[i].run.err }

  predicate Unready(steps: seq<TierStep>) { exists i | 0 <= i < |steps| :: !steps[i].run.status.ready }

  /** A working pass tells its outcome truthfully. If the status is written: an error
      exactly if a tier failed, another pass exactly if the backend was not detected or
      some tier it reconciled is not ready. If the write is lost: an error, or another
      pass after a failed TLS check, and the cluster as the others left it. */
  lemma WorkPassExactly(c: Cluster, inputs: Inputs, mid: seq<EnvStep>)
    requires inputs.fetchOk && c.obj.Some? && Admitted(c.obj.value.name, c.obj.value.spec)
    requires c.obj.value.finalizer && !c.obj.value.deleting && c.obj.value.status.phase != NoPhase
    ensures var d, now, out := c.obj.value, EnvAll(c, mid), Pass(c, inputs, mid);
            && (out.wrote <==> inputs.refetchOk && inputs.writeOk && now.obj.Some?)
            && (inputs.detect != Yes ==> out.steps == [])
            && (!out.wrote ==>
                  && out.cluster == now
                  && (out.err <==> inputs.detect == Yes) && (out.requeue <==> inputs.detect != Yes))
            && (out.wrote ==>
                  && out.cluster == now.(obj := Some(now.obj.value.(status := out.cluster.obj.value.status)))
                  && (out.err <==> Failing(out.steps))
                  && (out.requeue <==> inputs.detect != Yes || Failing(out.steps) || Unready(out.steps)))
  {
    var d := c.obj.value;
    AdmittedTLS(d.name, d.spec);
    WorkTells(d, inputs);
  }

  /** So far the work tells the truth about its steps. */
  predicate Tells(w: Work) {
    (w.err <==> Failing(w.steps)) && (w.requeue || w.err <==> Failing(w.steps) || Unready(w.steps))
  }

  lemma TriedTells(w: Work, tier: Tier, run: TierRun, status: Status)
    requires Tells(w)
    ensures Tells(Tried(w, tier, run, status))
  {
    var more := w.steps + [TierStep(tier, run)];
    assert more[|w.steps|].run == run;
    if i :| 0 <= i < |w.steps| && w.steps[i].run.err { assert more[i].run.err; }
    if i :| 0 <= i < |w.steps| && !w.steps[i].run.status.ready { assert !more[i].run.status.ready; }
  }

  lemma WorkTells(d: Stored, inputs: Inputs)
    requires IsSpiffeMode(d.spec) || IsCertManagerMode(d.spec)
    ensures var w := Computed(d, inputs);
            && (w.err <==> Failing(w.steps))
            && (w.err || w.requeue <==> inputs.detect != Yes || Failing(w.steps) || Unready(w.steps))
            && (inputs.detect != Yes ==> w.steps == [])
  {
    var s := WithTLSCheck(d.spec, Observed(d), d.generation, inputs.detect);
    InfrastructureTells(d.spec, d.generation, s, inputs.infra);
    var w := AfterInfrastructure(d.spec, d.generation, s, inputs.infra);
    CoreTells(d.spec, d.generation, w, inputs.core);
    RestTells(d.spec, d.generation, AfterCore(d.spec, d.generation, w, inputs.core), inputs.rest);
  }

  lemma InfrastructureTells(spec: Spec, generation: int, s: Status, o: Oracle)
    ensures Tells(AfterInfrastructure(spec, generation, s, o))
  {
    if spec.infrastructure.Some? {
      var run := InfrastructureTier.Run(o, spec.infrastructure.value);
      TriedTells(Work(s, [], false, false), Infrastructure, run, WithInfrastructure(s, run.status, generation));
    }
  }

  lemma CoreTells(spec: Spec, generation: int, w: Work, o: Oracle)
    requires Tells(w)
    ensures Tells(AfterCore(spec, generation, w, o))
  {
    var run := CoreTier.Run(o, spec);
    TriedTells(w, Core, run, WithCore(w.status, run.status, generation));
  }

  lemma RestTells(spec: Spec, generation: int, w: Work, o: Oracle)
    requires Tells(w)
    ensures Tells(AfterRest(spec, generation, w, o))
  {
    var run := RestTier.Run(o, spec);
    TriedTells(w, Rest, run, WithRest(w.status, run.status, generation));
  }

  // ------------------------------------------------------ the written conditions

  function TierCondition(tier: Tier): ConditionType {
    match tier case Infrastructure => InfrastructureReady case Core => CoreReady case Rest => RestReady
  }

  function Said(b: bool): ConditionStatus { if b then True else False }

  /** The conditions of the tiers reconciled so far say what those tiers reported; all
      others are as in `before`. */
  ghost predicate TiersSay(before: seq<Condition>, w: Work, generation: int, t: ConditionType) {
    var found := FindStatusCondition(w.status.conditions, t);
    && (forall i | 0 <= i < |w.steps| && TierCondition(w.steps[i].tier) == t ::
          found == Some(Condition(t, Said(w.steps[i].run.status.ready), generation)))
    && (!HasStep(w.steps, t) ==> found == FindStatusCondition(before, t))
  }

  predicate HasStep(steps: seq<TierStep>, t: ConditionType) {
    exists i | 0 <= i < |steps| :: TierCondition(steps[i].tier) == t
  }

  lemma TriedSays(before: seq<Condition>, w: Work, tier: Tier, run: TierRun, status: Status, generation: int,
                  t: ConditionType)
    requires TiersSay(before, w, generation, t) && !HasStep(w.steps, TierCondition(tier))
    requires status.conditions
             == SetStatusCondition(w.status.conditions,
                    Condition(TierCondition(tier), Truth(run.status.ready), generation))
    ensures TiersSay(before, Tried(w, tier, run, status), generation, t)
  {
    var c := Condition(TierCondition(tier), Truth(run.status.ready), generation);
    FindAfterSet(w.status.conditions, c, t);
    var more := w.steps + [TierStep(tier, run)];
    assert more[|w.steps|].tier == tier;
    if HasStep(w.steps, t) {
      var i :| 0 <= i < |w.steps| && TierCondition(w.steps[i].tier) == t;
      assert TierCondition(more[i].tier) == t;
    }
  }

  lemma InfrastructureSays(spec: Spec, generation: int, s: Status, o: Oracle, t: ConditionType)
    ensures var w := AfterInfrastructure(spec, generation, s, o);
            TiersSay(s.conditions, w, generation, t) && !HasStep(w.steps, CoreReady) && !HasStep(w.steps, RestReady)
  {
    if spec.infrastructure.Some? {
      var run := InfrastructureTier.Run(o, spec.infrastructure.value);
      TriedSays(s.conditions, Work(s, [], false, false), Infrastructure, run,
          WithInfrastructure(s, run.status, generation), generation, t);
    }
  }

  lemma CoreSays(before: seq<Condition>, spec: Spec, generation: int, w: Work, o: Oracle, t: ConditionType)
    requires TiersSay(before, w, generation, t) && !HasStep(w.steps, CoreReady) && !HasStep(w.steps, RestReady)
    ensures var v := AfterCore(spec, generation, w, o);
            TiersSay(before, v, generation, t) && !HasStep(v.steps, RestReady)
  {
    var run := CoreTier.Run(o, spec);
    TriedSays(before, w, Core, run, WithCore(w.status, run.status, generation), generation, t);
  }

  lemma RestSays(before: seq<Condition>, spec: Spec, generation: int, w: Work, o: Oracle, t: ConditionType)
    requires TiersSay(before, w, generation, t) && !HasStep(w.steps, RestReady)
    ensures TiersSay(before, AfterRest(spec, generation, w, o), generation, t)
  {
    var run := RestTier.Run(o, spec);
    TriedSays(before, w, Rest, run, WithRest(w.status, run.status, generation), generation, t);
  }

  /** After the TLS check. */
  lemma TLSSays(spec: Spec, s: Status, generation: int, detect: Answer, t: ConditionType)
    requires IsSpiffeMode(spec) || IsCertManagerMode(spec)
    ensures var probed := if IsSpiffeMode(spec) then SPIFFEAvailable else CertManagerAvailable;
            FindStatusCondition(WithTLSCheck(spec, s, generation, detect).conditions, t)
            == if t == TLSReady || t == probed then Some(Condition(t, Said(detect == Yes), generation))
               else FindStatusCondition(s.conditions, t)
  {
    var first := Condition(if IsSpiffeMode(spec) then SPIFFEAvailable else CertManagerAvailable,
                           Truth(detect == Yes), generation);
    FindAfterSet(s.conditions, first, t);
    FindAfterSet(SetStatusCondition(s.conditions, first), Condition(TLSReady, Truth(detect == Yes), generation), t);
  }

  /** What a condition says after a pass: Ready, TLSReady and the condition of the TLS
      mode are True or False at the fetched generation; so is that of each tier that the
      pass reconciled; and all others are as before, in particular those of Vault, RLA
      and PSM, which no pass ever sets. */
  lemma ComputedConditions(d: Stored, inputs: Inputs, t: ConditionType)
    requires IsSpiffeMode(d.spec) || IsCertManagerMode(d.spec)
    ensures var w := Computed(d, inputs);
            var found, before := FindStatusCondition(w.status.conditions, t),
                FindStatusCondition(d.status.conditions, t);
            match t
            case ReadyCondition => found == Some(Condition(t, Said(w.status.phase == Ready), d.generation))
            case TLSReady => found == Some(Condition(t, Said(inputs.detect == Yes), d.generation))
            case SPIFFEAvailable | CertManagerAvailable =>
              found == (if IsSpiffeMode(d.spec) == t.SPIFFEAvailable?
                        then Some(Condition(t, Said(inputs.detect == Yes), d.generation)) else before)
            case InfrastructureReady | CoreReady | RestReady =>
              && (forall i | 0 <= i < |w.steps| && TierCondition(w.steps[i].tier) == t ::
                    found == Some(Condition(t, Said(w.steps[i].run.status.ready), d.generation)))
              && (!HasStep(w.steps, t) ==> found == before)
            case VaultReady | RLAReady | PSMReady => found == before
  {
    SummarySays(d, inputs, t);
    if inputs.detect == Yes {
      AllTiersSay(d, inputs, t);
    } else {
      TLSSays(d.spec, Observed(d), d.generation, inputs.detect, t);
    }
  }

  lemma StepsOfTiers(steps: seq<TierStep>, t: ConditionType)
    requires HasStep(steps, t)
    ensures t.InfrastructureReady? || t.CoreReady? || t.RestReady?
  {
  }

  /** What the conditions say before the summary, if the backend was detected. */
  lemma AllTiersSay(d: Stored, inputs: Inputs, t: ConditionType)
    requires (IsSpiffeMode(d.spec) || IsCertManagerMode(d.spec)) && inputs.detect == Yes
    ensures var s := WithTLSCheck(d.spec, Observed(d), d.generation, inputs.detect);
            var w := Tiers(d.spec, d.generation, s, inputs);
            var found := FindStatusCondition(w.status.conditions, t);
            && (HasStep(w.steps, t) ==> t.InfrastructureReady? || t.CoreReady? || t.RestReady?)
            && (forall i | 0 <= i < |w.steps| && TierCondition(w.steps[i].tier) == t ::
                  found == Some(Condition(t, Said(w.steps[i].run.status.ready), d.generation)))
            && (!HasStep(w.steps, t) ==>
                  var probed := if IsSpiffeMode(d.spec) then SPIFFEAvailable else CertManagerAvailable;
                  found == if t == TLSReady || t == probed then Some(Condition(t, True, d.generation))
                           else FindStatusCondition(d.status.conditions, t))
  {
    var s, g := WithTLSCheck(d.spec, Observed(d), d.generation, inputs.detect), d.generation;
    TLSSays(d.spec, Observed(d), g, inputs.detect, t);
    var w := Tiers(d.spec, g, s, inputs);
    assert TiersSay(s.conditions, w, g, t) by { TiersSayAll(d.spec, g, s, inputs, t); }
    if HasStep(w.steps, t) { StepsOfTiers(w.steps, t); }
  }

  lemma TiersSayAll(spec: Spec, generation: int, s: Status, inputs: Inputs, t: ConditionType)
    ensures TiersSay(s.conditions, Tiers(spec, generation, s, inputs), generation, t)
  {
    InfrastructureSays(spec, generation, s, inputs.infra, t);
    var w := AfterInfrastructure(spec, generation, s, inputs.infra);
    CoreSays(s.conditions, spec, generation, w, inputs.core, t);
    RestSays(s.conditions, spec, generation, AfterCore(spec, generation, w, inputs.core), inputs.rest, t);
  }

  lemma SummarySays(d: Stored, inputs: Inputs, t: ConditionType)
    ensures var s := WithTLSCheck(d.spec, Observed(d), d.generation, inputs.detect);
            var cs := if BackendUp(d.spec, inputs.detect) then Tiers(d.spec, d.generation, s, inputs).status.conditions
                      else s.conditions;
            var w := Computed(d, inputs);
            FindStatusCondition(w.status.conditions, t)
            == if t == ReadyCondition then Some(Condition(t, Said(w.status.phase == Ready), d.generation))
               else FindStatusCondition(cs, t)
  {
    var s := WithTLSCheck(d.spec, Observed(d), d.generation, inputs.detect);
    var cs := if BackendUp(d.spec, inputs.detect) then Tiers(d.spec, d.generation, s, inputs).status.conditions
              else s.conditions;
    FindAfterSet(cs, Condition(ReadyCondition, Truth(Computed(d, inputs).status.phase == Ready), d.generation), t);
  }
}
