/** Which answers make a tier fail, and which make it wait. */
module Failures {
  import opened Api
  import opened Gates
  import opened Logs
  import opened Admission
  import opened Credentials
  import opened Agreements
  import InfrastructureTier
  import CoreTier
  import RestTier

  /** A workload that is still rolling out, an object that is not ready yet. */
  predicate StillComing(c: Call, answer: Answer) { (c.Await? || c.Probe?) && answer == No }

  predicate AwaitedCertificate(spec: Spec, c: Call) {
    && IsCertManagerMode(spec)
    && exists i | 0 <= i < |CoreTier.AccountNames(spec)| ::
         c == SecretRead(CoreTier.TierNamespace(spec), CoreTier.AccountNames(spec)[i] + "-tls")
  }

  /** An action that only asks about progress. */
  predicate AsksOnly(a: Action) { a.Must? || Blocked(a) || (a.Poll? && (a.call.Await? || a.call.Probe?)) }

  predicate AskOnly(plan: seq<Action>) { forall i | 0 <= i < |plan| :: AsksOnly(plan[i]) }

  lemma ExcusedComing(o: Oracle, plan: seq<Action>, log: seq<Call>, i: nat)
    requires AskOnly(plan) && i < |log| && Excused(o, plan, log, i)
    ensures StillComing(log[i], o(log[..i], log[i]))
  {
  }

  lemma CoreAsks(spec: Spec)
    ensures forall s | 0 <= s < |CoreTier.Slots(spec)| && CoreTier.Slots(spec)[s].Some? ::
              AskOnly(CoreTier.Slots(spec)[s].value.plan)
  {
  }

  lemma CorePreludeAsks(spec: Spec, k: nat)
    requires k < |CoreTier.Prelude(spec)|
    ensures var a := CoreTier.Prelude(spec)[k];
            a.Must? || Blocked(a) || (a.Poll? && AwaitedCertificate(spec, a.call))
  {
    if spec.profile != Management {
      var ns := CoreTier.TierNamespace(spec);
      forall j | 0 <= j < |CoreTier.TLSPlan(spec, ns)|
        ensures var a := CoreTier.TLSPlan(spec, ns)[j];
                a.Must? || Blocked(a) || (a.Poll? && AwaitedCertificate(spec, a.call)) {}
      assert forall j | 0 <= j < |CoreTier.ConfigPlan(spec, ns)| ::
          var a := CoreTier.ConfigPlan(spec, ns)[j]; a.Must? || Blocked(a);
    }
  }

  /** The core tier swallows no error: unless it fails, each of its calls was answered Yes,
      or No to a question about a rollout, a claim or a certificate. */
  lemma CoreSwallowsNothing(o: Oracle, spec: Spec, i: nat)
    requires !CoreTier.Run(o, spec).err && i < |CoreTier.Run(o, spec).log|
    ensures var log := CoreTier.Run(o, spec).log;
            var answer := o(log[..i], log[i]);
            answer == Yes || StillComing(log[i], answer) || (answer == No && AwaitedCertificate(spec, log[i]))
  {
    var prelude, slots, log := CoreTier.Prelude(spec), CoreTier.Slots(spec), CoreTier.Run(o, spec).log;
    TierTells(o, prelude, slots);
    CoreAsks(spec);
    if Excused(o, prelude, log, i) {
      var k :| 0 <= k < |prelude| && Issues(prelude[k], log[i]) && Waits(prelude[k], o(log[..i], log[i]));
      CorePreludeAsks(spec, k);
    } else if !Passed(o, log, i) {
      var s :| 0 <= s < |slots| && slots[s].Some? && Excused(o, slots[s].value.plan, log, i);
      ExcusedComing(o, slots[s].value.plan, log, i);
    }
  }

  /** And it makes none up: if it fails for an admitted spec whose passwords can be looked
      up, its last call was not answered Yes. */
  lemma CoreFailsForACause(o: Oracle, name: string, spec: Spec)
    requires Admitted(name, spec) && Lacks(spec, {}) && CoreTier.Run(o, spec).err
    ensures var log := CoreTier.Run(o, spec).log; log != [] && o(log[..|log| - 1], log[|log| - 1]) != Yes
  {
    TierTells(o, CoreTier.Prelude(spec), CoreTier.Slots(spec));
    CorePreludeClean(name, spec, {});
    CoreSlotsClean(name, spec, {});
  }

  /** If it fails at all after its prelude, it lists the component that failed, as its last
      entry and not ready. */
  lemma CoreFailureIsListed(o: Oracle, spec: Spec)
    requires var t := CoreTier.Run(o, spec); t.err && !Fails(o, CoreTier.Prelude(spec), t.log)
    ensures var cs := CoreTier.Run(o, spec).status.components; cs != [] && !cs[|cs| - 1].ready
  {
    var slots, t := CoreTier.Slots(spec), CoreTier.Run(o, spec);
    if spec.profile != Management { CoreTier.SlotsWellFormed(spec); }
    TierFailedAt(o, CoreTier.Prelude(spec), slots);
    var s: nat :| s < |slots| && FailedAt(o, slots, t.log, t.status.components, s);
    CoreGateReports(spec, s);
  }

  lemma CoreGateReports(spec: Spec, s: nat)
    requires s < |CoreTier.Slots(spec)| && CoreTier.Slots(spec)[s].Some?
    ensures CoreTier.Slots(spec)[s].value.reported && CoreTier.Slots(spec)[s].value.reportsFailure
  {
  }

  // -------------------------------------------------------------------- REST

  /** The read of the forge password. */
  predicate ForgePassword(spec: Spec, c: Call) {
    var found := PasswordLookup(spec.infrastructure, "forge");
    found.At? && c == SecretRead(found.namespace, found.name)
  }

  lemma RestAsks(spec: Spec)
    ensures forall s | 0 <= s < |RestTier.Slots(spec)| && RestTier.Slots(spec)[s].Some? ::
              AskOnly(RestTier.Slots(spec)[s].value.plan)
  {
    if RestEnabled(spec) {
      var keycloak, ns := spec.rest.value.keycloak, RestTier.TierNamespace(spec);
      ProvidersAsk(keycloak.providers, ns, |keycloak.providers|);
      assert AskOnly(RestTier.KeycloakPlan(keycloak, ns));
      assert AskOnly(RestTier.TemporalPlan(spec, spec.rest.value.temporal, ns));
    }
  }

  lemma {:induction false} ProvidersAsk(providers: seq<AuthProvider>, ns: string, k: nat)
    requires k <= |providers|
    ensures AskOnly(RestTier.ProvidersPlan(providers, ns, k))
  {
    if k > 0 { ProvidersAsk(providers, ns, k - 1); }
  }

  lemma RestPreludeAsks(spec: Spec, k: nat)
    requires k < |RestTier.Prelude(spec)|
    ensures var a := RestTier.Prelude(spec)[k];
            (a.Must? && a.call.Write?) || Blocked(a) || (a.Hope? && ForgePassword(spec, a.call))
  {
    if RestEnabled(spec) {
      var ns := RestTier.TierNamespace(spec);
      assert forall j | 0 <= j < |RestTier.TLSPlan(spec, ns)| ::
          var a := RestTier.TLSPlan(spec, ns)[j]; (a.Must? && a.call.Write?) || Blocked(a);
    }
  }

  /** The REST tier swallows no error but one: whatever the read of the forge password is
      answered, it waits. */
  lemma RestSwallowsOnlyThePassword(o: Oracle, spec: Spec, i: nat)
    requires !RestTier.Run(o, spec).err && i < |RestTier.Run(o, spec).log|
    ensures var log := RestTier.Run(o, spec).log;
            var answer := o(log[..i], log[i]);
            answer == Yes || StillComing(log[i], answer) || ForgePassword(spec, log[i])
  {
    var prelude, slots, log := RestTier.Prelude(spec), RestTier.Slots(spec), RestTier.Run(o, spec).log;
    TierTells(o, prelude, slots);
    RestAsks(spec);
    if Excused(o, prelude, log, i) {
      var k :| 0 <= k < |prelude| && Issues(prelude[k], log[i]) && Waits(prelude[k], o(log[..i], log[i]));
      RestPreludeAsks(spec, k);
    } else if !Passed(o, log, i) {
      var s :| 0 <= s < |slots| && slots[s].Some? && Excused(o, slots[s].value.plan, log, i);
      ExcusedComing(o, slots[s].value.plan, log, i);
    }
  }

  lemma RestFailsForACause(o: Oracle, name: string, spec: Spec)
    requires Admitted(name, spec) && Lacks(spec, {}) && RestTier.Run(o, spec).err
    ensures var log := RestTier.Run(o, spec).log; log != [] && o(log[..|log| - 1], log[|log| - 1]) != Yes
  {
    TierTells(o, RestTier.Prelude(spec), RestTier.Slots(spec));
    RestPreludeClean(name, spec, {});
    RestSlotsClean(name, spec, {});
  }

  lemma PasswordAction(spec: Spec) returns (k: nat)
    requires RestEnabled(spec)
    ensures k < |RestTier.Prelude(spec)|
    ensures var a := RestTier.Prelude(spec)[k]; a.Stall? || (a.Hope? && ForgePassword(spec, a.call))
  {
    k := |RestTier.Prelude(spec)| - 3;
    assert RestTier.Prelude(spec)[k] == RestTier.SecretsPlan(spec, RestTier.TierNamespace(spec))[0];
  }

  ghost predicate PasswordRefused(o: Oracle, spec: Spec) { forall log, c | ForgePassword(spec, c) :: o(log, c) != Yes }

  lemma PreludeStops(o: Oracle, spec: Spec)
    requires RestEnabled(spec) && PasswordRefused(o, spec)
    ensures RunPlan(o, [], RestTier.Prelude(spec)).answer != Yes
  {
    var prelude := RestTier.Prelude(spec);
    PlanOutcome(o, [], prelude, |prelude|);
    var k := PasswordAction(spec);
  }

  lemma NotForThePassword(o: Oracle, spec: Spec, p: PlanRun, j: nat)
    requires PasswordRefused(o, spec) && j < |RestTier.Prelude(spec)| && p.answer == Error
    requires StoppedAt(o, [], RestTier.Prelude(spec), p, j)
    ensures p.log == [] || !ForgePassword(spec, p.log[|p.log| - 1])
  {
    RestPreludeAsks(spec, j);
    if Blocked(RestTier.Prelude(spec)[j]) && j > 0 {
      assert p.log[0 + (j - 1)] == RestTier.Prelude(spec)[j - 1].call && Passed(o, p.log, j - 1);
    }
  }

  /** Without the forge password the tier waits: no component is reported, and the missing
      password is not what it fails for. */
  lemma PasswordIsWaitedFor(o: Oracle, spec: Spec)
    requires RestEnabled(spec) && PasswordRefused(o, spec)
    ensures var t := RestTier.Run(o, spec);
            && !t.status.ready && t.status.components == []
            && (t.err ==> t.log == [] || !ForgePassword(spec, t.log[|t.log| - 1]))
  {
    var prelude := RestTier.Prelude(spec);
    var p := RunPlan(o, [], prelude);
    PreludeStops(o, spec);
    PlanOutcome(o, [], prelude, |prelude|);
    var j: nat :| j < |prelude| && StoppedAt(o, [], prelude, p, j);
    if p.answer == Error { NotForThePassword(o, spec, p, j); }
  }

  /** The REST tier lists the component that failed too, but for the workers and the
      Temporal namespaces: of these, one that failed is not listed at all. */
  lemma RestFailureIsListed(o: Oracle, spec: Spec)
    requires RestEnabled(spec)
    requires var t := RestTier.Run(o, spec); t.err && !Fails(o, RestTier.Prelude(spec), t.log)
    ensures var cs := RestTier.Run(o, spec).status.components;
            || (cs != [] && !cs[|cs| - 1].ready && cs[|cs| - 1].name !in {TemporalSetup, CloudWorker, SiteWorker})
            || exists c | c in {TemporalSetup, CloudWorker, SiteWorker} :: !Appears(cs, c)
  {
    var slots, t := RestTier.Slots(spec), RestTier.Run(o, spec);
    RestTier.SlotsWellFormed(spec);
    TierFailedAt(o, RestTier.Prelude(spec), slots);
    var s: nat :| s < |slots| && FailedAt(o, slots, t.log, t.status.components, s);
    RestGateReports(spec, s);
  }

  lemma RestGateReports(spec: Spec, s: nat)
    requires s < |RestTier.Slots(spec)| && RestTier.Slots(spec)[s].Some?
    ensures var g := RestTier.Slots(spec)[s].value;
            g.reported && g.reportsFailure <==> g.name !in {TemporalSetup, CloudWorker, SiteWorker}
  {
  }

  // ------------------------------------------------------------ infrastructure

  /** The infrastructure tier waits for nothing but the cluster, and fails for a cause. */
  lemma InfrastructureTells(o: Oracle, name: string, spec: Spec)
    requires Admitted(name, spec) && spec.infrastructure.Some?
    ensures var t := InfrastructureTier.Run(o, spec.infrastructure.value);
            && (!t.err ==> forall i | 0 <= i < |t.log| ::
                  Passed(o, t.log, i) || StillComing(t.log[i], o(t.log[..i], t.log[i])))
            && (t.err ==> t.log != [] && !Passed(o, t.log, |t.log| - 1))
  {
    var infra := spec.infrastructure.value;
    TierTells(o, InfrastructureTier.Prelude(infra), InfrastructureTier.Slots(infra));
    InfrastructureClean(name, spec);
  }
}
