/** Why an admitted spec that is not deployable in a cluster never becomes Ready there:
    each condition of deployability that fails leaves an obstacle. */
module Stuck {
  import opened Api
  import opened Gates
  import opened Pods
  import opened Admission
  import opened Credentials
  import opened Supply
  import opened CorePods
  import opened RestPods
  import opened Progress
  import opened Agreements
  import opened Deployability
  import opened Guards
  import opened Barriers
  import InfrastructureTier
  import CoreTier
  import RestTier

  // ------------------------------------------ where secrets can come from

  /** Objects that are secrets or bring secrets about. */
  predicate SecretMaker(x: Obj) {
    x.kind == SecretObject || x.kind == Certificate || x.kind == PostgresCluster
    || (x.kind == Job && x.name == CoreTier.VAULT_INIT)
  }

  /** No secret comes from `objects` but from what is in `stage`. */
  ghost predicate Yields(objects: set<Obj>, stage: set<Obj>) {
    forall x | x in objects && SecretMaker(x) :: x in stage
  }

  lemma SecretFromStage(spec: Spec, objects: set<Obj>, stage: set<Obj>, r: Obj)
    requires r.kind == SecretObject && Yields(objects, stage) && Exists(spec, objects, r)
    ensures Exists(spec, stage, r)
  {
    if r !in objects {
      var maker :| maker in objects && Makes(spec, maker, r);
      assert SecretMaker(maker);
    }
  }

  predicate PlanYields(plan: seq<Action>, k: nat, stage: set<Obj>)
    requires k <= |plan|
  {
    forall i | 0 <= i < k :: Puts(plan[i]).Some? && SecretMaker(Puts(plan[i]).value) ==> Puts(plan[i]).value in stage
  }

  lemma PlannedYields(plan: seq<Action>, k: nat, stage: set<Obj>)
    requires k <= |plan| && PlanYields(plan, k, stage)
    ensures Yields(PlannedUpTo(plan, k), stage)
  {
    forall x | x in PlannedUpTo(plan, k) && SecretMaker(x) ensures x in stage {
      PlannedOnly(plan, k, x);
      var j :| 0 <= j < k && Puts(plan[j]) == Some(x);
    }
  }

  ghost predicate SlotsYield(slots: seq<Slot>, k: nat, stage: set<Obj>)
    requires k <= |slots|
  {
    forall i | 0 <= i < k :: slots[i].Some? ==> PlanYields(slots[i].value.plan, |slots[i].value.plan|, stage)
  }

  lemma {:induction false} SlotObjectsYield(slots: seq<Slot>, k: nat, stage: set<Obj>)
    requires k <= |slots| && SlotsYield(slots, k, stage)
    ensures Yields(SlotObjects(slots, k), stage)
  {
    if k > 0 {
      SlotObjectsYield(slots, k - 1, stage);
      if slots[k - 1].Some? { PlannedYields(slots[k - 1].value.plan, |slots[k - 1].value.plan|, stage); }
    }
  }

  lemma InfrastructureYields(name: string, spec: Spec, stage: set<Obj>)
    requires Admitted(name, spec) && ManagedCluster(spec) <= stage
    ensures Yields(InfrastructureObjects(spec), stage)
  {
    if spec.infrastructure.Some? {
      var infra := spec.infrastructure.value;
      PlannedYields(InfrastructureTier.Prelude(infra), |InfrastructureTier.Prelude(infra)|, stage);
      SlotObjectsYield(InfrastructureTier.Slots(infra), 1, stage);
    }
  }

  lemma CoreTLSYields(spec: Spec, stage: set<Obj>)
    requires HasCore(spec) && CoreCertificates(spec) <= stage
    ensures PlanYields(CoreTier.TLSPlan(spec, CoreNs(spec)), |CoreTier.TLSPlan(spec, CoreNs(spec))|, stage)
  {
    var names, plan := CoreTier.AccountNames(spec), CoreTier.TLSPlan(spec, CoreNs(spec));
    if IsCertManagerMode(spec) {
      forall i | 0 <= i < |names| ensures CoreTier.CertificateObject(CoreNs(spec), names[i]) in stage {
        assert CoreTier.CertificateObject(CoreNs(spec), names[i]) in CoreCertificates(spec);
      }
    }
  }

  /** The core prelude up to its password: certificates; as a whole: those and the
      API's own secret. */
  lemma CorePreludeYields(spec: Spec, stage: set<Obj>)
    requires HasCore(spec) && spec.infrastructure.Some? && !CoreTier.ConnectionMissing(spec)
    requires CoreCertificates(spec) <= stage
    ensures |CoreTier.Prelude(spec)| >= 2
    ensures PlanYields(CoreTier.Prelude(spec), |CoreTier.Prelude(spec)| - 2, stage)
    ensures Secret(CoreNs(spec), "carbide-api-secret") in stage
            ==> PlanYields(CoreTier.Prelude(spec), |CoreTier.Prelude(spec)|, stage)
  {
    var ns, plan := CoreNs(spec), CoreTier.Prelude(spec);
    var start, tls, config := CoreStart(spec), CoreTier.TLSPlan(spec, ns), CoreTier.ConfigPlan(spec, ns);
    CoreTLSYields(spec, stage);
    assert plan == start + tls + config;
    forall i | 0 <= i < |plan|
      ensures Puts(plan[i]).Some? && SecretMaker(Puts(plan[i]).value) ==>
                Puts(plan[i]).value in stage
                || (i >= |plan| - 2 && Puts(plan[i]) == Some(Secret(ns, "carbide-api-secret")))
    {
      if i < |start| {
        assert plan[i] == start[i];
      } else if i < |start + tls| {
        assert plan[i] == tls[i - |start|];
      } else {
        assert plan[i] == config[i - |start + tls|];
      }
    }
  }

  lemma CorePlansYield(spec: Spec, ns: string, stage: set<Obj>)
    requires VaultManaged(spec) && ns == CoreNs(spec) ==> Obj(Job, ns, CoreTier.VAULT_INIT) in stage
    requires HasCore(spec) && ns == CoreNs(spec)
    ensures var p := CoreTier.PXEPlan(spec, ns); PlanYields(p, |p|, stage)
    ensures spec.core.vault.Some? ==> var p := CoreTier.VaultPlan(spec.core.vault.value, ns); PlanYields(p, |p|, stage)
  {
  }

  lemma CoreSlotsYield(spec: Spec, stage: set<Obj>)
    requires HasCore(spec) && (VaultManaged(spec) ==> Obj(Job, CoreNs(spec), CoreTier.VAULT_INIT) in stage)
    ensures SlotsYield(CoreTier.Slots(spec), |CoreTier.Slots(spec)|, stage)
  {
    CorePlansYield(spec, CoreNs(spec), stage);
  }

  lemma RestTLSYields(spec: Spec, stage: set<Obj>)
    requires RestCertificates(spec) <= stage
    ensures PlanYields(RestTier.TLSPlan(spec, CoreNs(spec)), |RestTier.TLSPlan(spec, CoreNs(spec))|, stage)
  {
    var names := RestTier.CertificateNames();
    if IsCertManagerMode(spec) {
      forall i | 0 <= i < |names| ensures CoreTier.CertificateObject(CoreNs(spec), names[i]) in stage {
        assert CoreTier.CertificateObject(CoreNs(spec), names[i]) in RestCertificates(spec);
      }
    }
  }

  lemma RestPreludeYields(spec: Spec, stage: set<Obj>)
    requires RestEnabled(spec) && CoreNs(spec) == RestTier.TierNamespace(spec) && RestCertificates(spec) <= stage
    ensures |RestTier.Prelude(spec)| >= 3
    ensures PlanYields(RestTier.Prelude(spec), |RestTier.Prelude(spec)| - 3, stage)
    ensures Secret(CoreNs(spec), REST_SECRET) in stage
            ==> PlanYields(RestTier.Prelude(spec), |RestTier.Prelude(spec)|, stage)
  {
    var ns, plan := CoreNs(spec), RestTier.Prelude(spec);
    var accounts, tls := CoreTier.AccountsPlan(RestTier.AccountNames(), ns), RestTier.TLSPlan(spec, ns);
    var secrets := RestTier.SecretsPlan(spec, ns);
    RestTLSYields(spec, stage);
    assert plan == accounts + tls + secrets;
    forall i | 0 <= i < |plan|
      ensures Puts(plan[i]).Some? && SecretMaker(Puts(plan[i]).value) ==>
                Puts(plan[i]).value in stage || (i >= |plan| - 3 && Puts(plan[i]) == Some(Secret(ns, REST_SECRET)))
    {
      if i < |accounts| {
        assert plan[i] == accounts[i];
      } else if i < |accounts + tls| {
        assert plan[i] == tls[i - |accounts|];
      } else {
        assert plan[i] == secrets[i - |accounts + tls|];
      }
    }
  }

  lemma {:induction false} ProvidersYield(providers: seq<AuthProvider>, ns: string, k: nat, stage: set<Obj>)
    requires k <= |providers|
    ensures var plan := RestTier.ProvidersPlan(providers, ns, k); PlanYields(plan, |plan|, stage)
  {
    if k > 0 { ProvidersYield(providers, ns, k - 1, stage); }
  }

  lemma RestPlansYield(spec: Spec, ns: string, stage: set<Obj>)
    requires spec.rest.Some?
    ensures var p := RestTier.TemporalPlan(spec, spec.rest.value.temporal, ns); PlanYields(p, |p|, stage)
    ensures var p := RestTier.KeycloakPlan(spec.rest.value.keycloak, ns); PlanYields(p, |p|, stage)
    ensures var p := RestTier.RestAPIPlan(ns); PlanYields(p, |p|, stage)
    ensures var p := RestTier.SiteManagerPlan(ns); PlanYields(p, |p|, stage)
    ensures var p := RestTier.SiteAgentPlan(ns); PlanYields(p, |p|, stage)
  {
    var providers := spec.rest.value.keycloak.providers;
    ProvidersYield(providers, ns, |providers|, stage);
  }

  lemma RestSlotsYield(spec: Spec, stage: set<Obj>)
    requires RestEnabled(spec)
    ensures SlotsYield(RestTier.Slots(spec), |RestTier.Slots(spec)|, stage)
  {
    RestPlansYield(spec, RestTier.TierNamespace(spec), stage);
  }

  // ------------------------------------------------ the stages of the rollout

  lemma ConfigStage(name: string, spec: Spec, start: set<Obj>)
    requires Admitted(name, spec) && spec.infrastructure.Some? && HasCore(spec)
    ensures |CoreTier.Prelude(spec)| >= 2
    ensures Yields(Bound(spec, start, AtCorePrelude(|CoreTier.Prelude(spec)| - 2)), BeforeConfig(spec, start))
  {
    var stage, prelude := BeforeConfig(spec, start), CoreTier.Prelude(spec);
    CorePreludeYields(spec, stage);
    InfrastructureYields(name, spec, stage);
    PlannedYields(prelude, |prelude| - 2, stage);
  }

  /** Before the API's pods are awaited: the core prelude and two writes. */
  lemma APISlots(spec: Spec)
    requires HasCore(spec)
    ensures var slots, plan := CoreTier.Slots(spec), CoreTier.ServicePlan(CoreNs(spec), API_NAME, APIServer);
            && Located(spec, AtAPI(2)) && slots[1].value.plan == plan
            && SlotObjects(slots, 1) == {} && PlanYields(plan, 2, {})
  {
    var slots := CoreTier.Slots(spec);
    assert slots[0].Some? && slots[0].value.plan == [];
    assert SlotObjects(slots, 1) == SlotObjects(slots, 0) + SlotPlanned(slots[0]);
  }

  lemma APIStage(name: string, spec: Spec, start: set<Obj>)
    requires Admitted(name, spec) && spec.infrastructure.Some? && HasCore(spec)
    ensures Located(spec, AtAPI(2)) && Yields(Bound(spec, start, AtAPI(2)), BeforeAPI(spec, start))
  {
    var stage, prelude := BeforeAPI(spec, start), CoreTier.Prelude(spec);
    var plan := CoreTier.ServicePlan(CoreNs(spec), API_NAME, APIServer);
    APISlots(spec);
    assert Yields(Planned(prelude), stage) by {
      CorePreludeYields(spec, stage);
      PlannedYields(prelude, |prelude|, stage);
    }
    assert Yields(InfrastructureObjects(spec), stage) by { InfrastructureYields(name, spec, stage); }
    assert Yields(PlannedUpTo(plan, 2), stage) by { PlannedYields(plan, 2, stage); }
  }

  lemma CoreStage(name: string, spec: Spec, start: set<Obj>)
    requires Admitted(name, spec) && spec.infrastructure.Some? && HasCore(spec)
    ensures Yields(start + InfrastructureObjects(spec) + CoreObjects(spec), AfterVault(spec, start))
  {
    var stage, prelude := AfterVault(spec, start), CoreTier.Prelude(spec);
    CorePreludeYields(spec, stage);
    InfrastructureYields(name, spec, stage);
    PlannedYields(prelude, |prelude|, stage);
    CoreSlotsYield(spec, stage);
    SlotObjectsYield(CoreTier.Slots(spec), |CoreTier.Slots(spec)|, stage);
  }

  lemma NoCoreNoObjects(spec: Spec)
    requires !HasCore(spec)
    ensures CoreObjects(spec) == {}
  {
  }

  lemma BeforeRestStage(name: string, spec: Spec, start: set<Obj>)
    requires Admitted(name, spec) && spec.infrastructure.Some?
    ensures Yields(start + InfrastructureObjects(spec) + CoreObjects(spec), AfterVault(spec, start))
  {
    if HasCore(spec) {
      CoreStage(name, spec, start);
    } else {
      InfrastructureYields(name, spec, AfterVault(spec, start));
      NoCoreNoObjects(spec);
    }
  }

  lemma RestSecretsStage(name: string, spec: Spec, start: set<Obj>)
    requires Admitted(name, spec) && spec.infrastructure.Some? && RestEnabled(spec)
    ensures |RestTier.Prelude(spec)| >= 3
    ensures Yields(Bound(spec, start, AtRestPrelude(|RestTier.Prelude(spec)| - 3)), BeforeRestSecrets(spec, start))
  {
    var stage, prelude := BeforeRestSecrets(spec, start), RestTier.Prelude(spec);
    OneNamespace(name, spec);
    RestPreludeYields(spec, stage);
    BeforeRestStage(name, spec, start);
    PlannedYields(prelude, |prelude| - 3, stage);
  }

  lemma RestStage(name: string, spec: Spec, start: set<Obj>, k: nat, i: nat)
    requires Admitted(name, spec) && spec.infrastructure.Some? && Located(spec, AtRestGate(k, i))
    ensures Yields(Bound(spec, start, AtRestGate(k, i)), AfterRestSecrets(spec, start))
  {
    var stage, prelude, slots := AfterRestSecrets(spec, start), RestTier.Prelude(spec), RestTier.Slots(spec);
    OneNamespace(name, spec);
    RestPreludeYields(spec, stage);
    BeforeRestStage(name, spec, start);
    PlannedYields(prelude, |prelude|, stage);
    RestSlotsYield(spec, stage);
    SlotObjectsYield(slots, |slots|, stage);
  }

  // ------------------------------------------------------- obstacles in core

  lemma PodNotReady(spec: Spec, existing: set<Obj>, ns: string, plain: Pod)
    requires plain.account != "" && !PodReady(spec, existing, ns, plain)
    ensures !PodReady(spec, existing, ns, Injected(spec.tls, plain))
  {
    InjectedReady(spec, existing, ns, plain);
  }

  /** The secrets that nothing brings about. */
  lemma NeverMade(spec: Spec, existing: set<Obj>, r: Obj)
    requires r.kind == SecretObject && (r.name == PXE_CERTIFICATE || r.name == ENCRYPTION_KEY)
    requires Exists(spec, existing, r)
    ensures r in existing
  {
    assert PXE_CERTIFICATE[9] == 'x' && ENCRYPTION_KEY[0] == 't';
    assert PXE_CERTIFICATE[|PXE_CERTIFICATE| - 1] == 'e' && ENCRYPTION_KEY[|ENCRYPTION_KEY| - 1] == 'y';
    assert |VAULT_UNSEAL_SECRET| == 19 && |PXE_CERTIFICATE| == 23 && |ENCRYPTION_KEY| == 23;
    if r !in existing {
      var maker :| maker in existing && Makes(spec, maker, r);
      NotMadeBy(spec, maker, r);
    }
  }

  lemma NotMadeBy(spec: Spec, maker: Obj, r: Obj)
    requires r.name == PXE_CERTIFICATE || r.name == ENCRYPTION_KEY
    ensures !Makes(spec, maker, r)
  {
    forall user: string ensures ManagedSecretName(user) != r.name {
      assert ManagedSecretName(user)[9] == 'o' && ManagedSecretName(user)[0] == 'c';
      assert PXE_CERTIFICATE[9] == 'x' && ENCRYPTION_KEY[0] == 't';
    }
    forall base: string ensures base + "-tls" != r.name {
      assert (base + "-tls")[|base| + 3] == 's';
      assert PXE_CERTIFICATE[|PXE_CERTIFICATE| - 1] == 'e' && ENCRYPTION_KEY[|ENCRYPTION_KEY| - 1] == 'y';
    }
    assert |VAULT_UNSEAL_SECRET| == 19 && |PXE_CERTIFICATE| == 23 && |ENCRYPTION_KEY| == 23;
  }

  /** In core's namespace those secrets are there from the start or never. */
  lemma OnlyFromStart(spec: Spec, start: set<Obj>, objects: set<Obj>, r: Obj)
    requires r.kind == SecretObject && (r.name == PXE_CERTIFICATE || r.name == ENCRYPTION_KEY)
    requires Yields(objects, AfterRestSecrets(spec, start)) && Exists(spec, objects, r)
    ensures r in start
  {
    SecretFromStage(spec, objects, AfterRestSecrets(spec, start), r);
    NeverMade(spec, AfterRestSecrets(spec, start), r);
    assert |"carbide-api-secret"| == 18 && |PXE_CERTIFICATE| == 23 && |ENCRYPTION_KEY| == 23;
    assert REST_SECRET[|REST_SECRET| - 1] == 't' && ENCRYPTION_KEY[|ENCRYPTION_KEY| - 1] == 'y';
    assert PXE_CERTIFICATE[|PXE_CERTIFICATE| - 1] == 'e';
  }

  lemma StagesNest(spec: Spec, start: set<Obj>, objects: set<Obj>)
    requires Yields(objects, AfterVault(spec, start))
    ensures Yields(objects, AfterRestSecrets(spec, start))
  {
  }

  /** An await whose pod cannot start. */
  lemma AwaitHopeless(spec: Spec, plan: seq<Action>, i: nat, existing: set<Obj>, w: Obj, pod: Workload)
    requires i < |plan| && plan[i] == Poll(Await(w, pod)) && !PodReady(spec, existing, w.namespace, Template(spec, pod))
    ensures Hopeless(spec, plan, i, existing)
  {
  }

  /** A probe that lacks one of the objects it needs. */
  lemma ProbeHopeless(spec: Spec, plan: seq<Action>, i: nat, existing: set<Obj>, x: Obj, needs: set<Obj>, r: Obj)
    requires i < |plan| && plan[i] == Poll(Probe(x, needs)) && r in needs && !Exists(spec, existing, r)
    ensures Hopeless(spec, plan, i, existing)
  {
  }

  /** Position of the Apply in the PXE plan. */
  function PXEApply(spec: Spec): nat { if spec.core.pxe.hasStorage then 2 else 0 }

  lemma PXESlot(spec: Spec)
    requires HasCore(spec) && spec.core.pxe.enabled
    ensures var slots, ns, k := CoreTier.Slots(spec), CoreNs(spec), PXEApply(spec);
            var w := Obj(Deployment, ns, PXE_NAME);
            && |slots| == 8 && slots[3].Some? && |slots[3].value.plan| == k + 2
            && slots[3].value.plan[k] == Must(Apply(w, PXEServer))
               && slots[3].value.plan[k + 1] == Poll(Await(w, PXEServer))
  {
  }

  /** Outside cert-manager mode the API server refuses the PXE workload; in
      cert-manager mode its pod lacks a secret that nothing brings about. */
  lemma PXEObstacle(name: string, spec: Spec, start: set<Obj>) returns (ob: Obstacle)
    requires Admitted(name, spec) && spec.infrastructure.Some? && HasCore(spec) && spec.core.pxe.enabled
    requires !(IsCertManagerMode(spec) && Secret(CoreNs(spec), PXE_CERTIFICATE) in start)
    ensures InCore(ob) && Hits(spec, start, ob)
  {
    PXESlot(spec);
    if IsCertManagerMode(spec) {
      PXECertificateObstacle(name, spec, start);
      ob := AtCoreGate(3, PXEApply(spec) + 1);
    } else {
      ob := AtCoreGate(3, PXEApply(spec));
      PXEAcceptedExactly(spec);
    }
  }

  lemma PXECertificateObstacle(name: string, spec: Spec, start: set<Obj>)
    requires Admitted(name, spec) && spec.infrastructure.Some? && HasCore(spec) && spec.core.pxe.enabled
    requires IsCertManagerMode(spec) && Secret(CoreNs(spec), PXE_CERTIFICATE) !in start
    ensures Hits(spec, start, AtCoreGate(3, PXEApply(spec) + 1))
  {
    PXESlot(spec);
    var ob, r, ns := AtCoreGate(3, PXEApply(spec) + 1), Secret(CoreNs(spec), PXE_CERTIFICATE), CoreNs(spec);
    var bound, plan := Bound(spec, start, ob), CoreTier.Slots(spec)[3].value.plan;
    assert !Exists(spec, bound, r) by {
      CoreStage(name, spec, start);
      assert bound == start + InfrastructureObjects(spec) + CoreObjects(spec);
      StagesNest(spec, start, bound);
      if Exists(spec, bound, r) { OnlyFromStart(spec, start, bound, r); }
    }
    PXENotReady(spec, bound);
    AwaitHopeless(spec, plan, PXEApply(spec) + 1, bound, Obj(Deployment, ns, PXE_NAME), PXEServer);
  }

  lemma PXENotReady(spec: Spec, existing: set<Obj>)
    requires IsCertManagerMode(spec) && !Exists(spec, existing, Secret(CoreNs(spec), PXE_CERTIFICATE))
    ensures !PodReady(spec, existing, CoreNs(spec), PXEPod(spec))
  {
    var p := PXEPlain(spec.tls);
    assert !VolumeReady(spec, existing, CoreNs(spec), p.volumes[0]);
    PodNotReady(spec, existing, CoreNs(spec), p);
  }

  /** A container lacks a secret. */
  lemma ContainerNotReady(spec: Spec, existing: set<Obj>, ns: string, p: Pod, j: nat)
    requires |p.containers| > 0 && j < |p.containers[0].secrets|
    requires !Exists(spec, existing, Secret(ns, p.containers[0].secrets[j]))
    ensures !PodReady(spec, existing, ns, p)
  {
    assert !ContainerReady(spec, existing, ns, p.containers[0]);
  }

  /** Nothing that infrastructure or the core prelude brings about is the password's
      secret, if it did not exist before the configuration. */
  lemma PasswordStaysMissing(name: string, spec: Spec, start: set<Obj>)
    requires Admitted(name, spec) && spec.infrastructure.Some? && HasCore(spec)
    requires !PasswordThere(spec, BeforeConfig(spec, start), "carbide")
    ensures |CoreTier.Prelude(spec)| >= 2
    ensures !PasswordThere(spec, Bound(spec, start, AtCorePrelude(|CoreTier.Prelude(spec)| - 2)), "carbide")
  {
    ConfigStage(name, spec, start);
    var bound := Bound(spec, start, AtCorePrelude(|CoreTier.Prelude(spec)| - 2));
    var found := PasswordLookup(spec.infrastructure, "carbide");
    if found.At? {
      var r := Secret(found.namespace, found.name);
      if Exists(spec, bound, r) { SecretFromStage(spec, bound, BeforeConfig(spec, start), r); }
    }
  }

  lemma PasswordObstacle(name: string, spec: Spec, start: set<Obj>) returns (ob: Obstacle)
    requires Admitted(name, spec) && spec.infrastructure.Some? && HasCore(spec)
    requires !PasswordThere(spec, BeforeConfig(spec, start), "carbide")
    ensures InCore(ob) && Hits(spec, start, ob)
  {
    var plan, config := CoreTier.Prelude(spec), CoreTier.ConfigPlan(spec, CoreNs(spec));
    PasswordStaysMissing(name, spec, start);
    ob := AtCorePrelude(|plan| - 2);
    assert plan[|plan| - 2] == config[|config| - 2];
  }

  lemma StillMissingAtAPI(name: string, spec: Spec, start: set<Obj>, r: Obj)
    requires Admitted(name, spec) && spec.infrastructure.Some? && HasCore(spec) && r.kind == SecretObject
    requires !Exists(spec, BeforeAPI(spec, start), r)
    ensures !Exists(spec, Bound(spec, start, AtAPI(2)), r)
  {
    APIStage(name, spec, start);
    if Exists(spec, Bound(spec, start, AtAPI(2)), r) {
      SecretFromStage(spec, Bound(spec, start, AtAPI(2)), BeforeAPI(spec, start), r);
    }
  }

  /** The API's pod lacks its database secret or Vault's token: nothing brings these
      about before the API is ready, and nothing of Vault is written before either. */
  lemma APIObstacle(name: string, spec: Spec, start: set<Obj>)
    requires Admitted(name, spec) && spec.infrastructure.Some? && HasCore(spec)
    requires !DatabaseSecretThere(spec, BeforeAPI(spec, start), "carbide")
             || !VaultSecretsThere(spec, BeforeAPI(spec, start))
    ensures Hits(spec, start, AtAPI(2))
  {
    var ns, stage := CoreNs(spec), BeforeAPI(spec, start);
    var bound, plain := Bound(spec, start, AtAPI(2)), APIPlain(spec);
    var j := APILacks(spec, stage);
    var r := Secret(ns, plain.containers[0].secrets[j]);
    StillMissingAtAPI(name, spec, start, r);
    assert !PodReady(spec, bound, ns, Template(spec, APIServer)) by {
      ContainerNotReady(spec, bound, ns, plain, j);
      PodNotReady(spec, bound, ns, plain);
    }
    APISlot(spec);
    AwaitHopeless(spec, CoreTier.ServicePlan(ns, API_NAME, APIServer), 2, bound, Obj(Deployment, ns, API_NAME),
        APIServer);
  }

  /** Which of its secrets the API lacks. */
  lemma APILacks(spec: Spec, stage: set<Obj>) returns (j: nat)
    requires !DatabaseSecretThere(spec, stage, "carbide") || !VaultSecretsThere(spec, stage)
    ensures var secrets := APIPlain(spec).containers[0].secrets;
            j < |secrets| && !Exists(spec, stage, Secret(CoreNs(spec), secrets[j]))
  {
    var secrets := APIPlain(spec).containers[0].secrets;
    if DatabaseSecretThere(spec, stage, "carbide") {
      var i :| 0 <= i < |VaultSecrets(spec)| && !Exists(spec, stage, Secret(CoreNs(spec), VaultSecrets(spec)[i]));
      assert secrets[i + 1] == VaultSecrets(spec)[i];
      j := i + 1;
    } else {
      j := 0;
    }
  }

  lemma APISlot(spec: Spec)
    requires HasCore(spec)
    ensures var slots, ns := CoreTier.Slots(spec), CoreNs(spec);
            |slots| == 8 && slots[1].Some? && slots[1].value.plan == CoreTier.ServicePlan(ns, API_NAME, APIServer)
  {
  }

  lemma BackendSlots(spec: Spec)
    requires HasCore(spec)
    ensures var slots, ns := CoreTier.Slots(spec), CoreNs(spec);
            && |slots| == 8
            && (Enabled(spec.core.rla)
               ==> slots[6].Some? && slots[6].value.plan == CoreTier.ServicePlan(ns, RLA_NAME, RLAServer))
            && (Enabled(spec.core.psm)
               ==> slots[7].Some? && slots[7].value.plan == CoreTier.ServicePlan(ns, PSM_NAME, PSMServer))
  {
  }

  /** No secret that is missing after Vault appears before core is done. */
  lemma StillMissingAfterCore(name: string, spec: Spec, start: set<Obj>, k: nat, r: Obj)
    requires Admitted(name, spec) && spec.infrastructure.Some? && HasCore(spec)
    requires InPlan(CoreTier.Slots(spec), k, 2) && r.kind == SecretObject
    requires !Exists(spec, AfterVault(spec, start), r)
    ensures !Exists(spec, Bound(spec, start, AtCoreGate(k, 2)), r)
  {
    var bound := Bound(spec, start, AtCoreGate(k, 2));
    CoreStage(name, spec, start);
    assert bound == start + InfrastructureObjects(spec) + CoreObjects(spec);
    if Exists(spec, bound, r) { SecretFromStage(spec, bound, AfterVault(spec, start), r); }
  }

  /** A core service lacks a secret even after Vault. */
  lemma ServiceObstacle(name: string, spec: Spec, start: set<Obj>, k: nat, service: string, pod: Workload, plain: Pod)
    requires Admitted(name, spec) && spec.infrastructure.Some? && HasCore(spec)
    requires InPlan(CoreTier.Slots(spec), k, 2)
    requires CoreTier.Slots(spec)[k].value.plan == CoreTier.ServicePlan(CoreNs(spec), service, pod)
    requires Template(spec, pod) == Injected(spec.tls, plain) && plain.account != ""
    requires |plain.containers| > 0 && |plain.containers[0].secrets| > 0
    requires !Exists(spec, AfterVault(spec, start), Secret(CoreNs(spec), plain.containers[0].secrets[0]))
    ensures Hits(spec, start, AtCoreGate(k, 2))
  {
    var ns := CoreNs(spec);
    var ob := AtCoreGate(k, 2);
    var bound, r := Bound(spec, start, ob), Secret(ns, plain.containers[0].secrets[0]);
    StillMissingAfterCore(name, spec, start, k, r);
    assert !PodReady(spec, bound, ns, Template(spec, pod)) by {
      ContainerNotReady(spec, bound, ns, plain, 0);
      PodNotReady(spec, bound, ns, plain);
    }
    AwaitHopeless(spec, CoreTier.ServicePlan(ns, service, pod), 2, bound, Obj(Deployment, ns, service), pod);
  }

  lemma RLAObstacle(name: string, spec: Spec, start: set<Obj>)
    requires Admitted(name, spec) && spec.infrastructure.Some? && HasCore(spec)
    requires Enabled(spec.core.rla) && !DatabaseSecretThere(spec, AfterVault(spec, start), "rla")
    ensures Hits(spec, start, AtCoreGate(6, 2))
  {
    BackendSlots(spec);
    ServiceObstacle(name, spec, start, 6, RLA_NAME, RLAServer, RLAPlain(spec));
  }

  lemma PSMObstacle(name: string, spec: Spec, start: set<Obj>)
    requires Admitted(name, spec) && spec.infrastructure.Some? && HasCore(spec)
    requires Enabled(spec.core.psm) && !DatabaseSecretThere(spec, AfterVault(spec, start), "psm")
    ensures Hits(spec, start, AtCoreGate(7, 2))
  {
    BackendSlots(spec);
    ServiceObstacle(name, spec, start, 7, PSM_NAME, PSMServer, PSMPlain(spec));
  }

  /** RLA or PSM lacks its database secret. */
  lemma BackendObstacle(name: string, spec: Spec, start: set<Obj>) returns (ob: Obstacle)
    requires Admitted(name, spec) && spec.infrastructure.Some? && HasCore(spec)
    requires (Enabled(spec.core.rla) && !DatabaseSecretThere(spec, AfterVault(spec, start), "rla"))
             || (Enabled(spec.core.psm) && !DatabaseSecretThere(spec, AfterVault(spec, start), "psm"))
    ensures InCore(ob) && Hits(spec, start, ob)
  {
    if Enabled(spec.core.rla) && !DatabaseSecretThere(spec, AfterVault(spec, start), "rla") {
      RLAObstacle(name, spec, start);
      ob := AtCoreGate(6, 2);
    } else {
      PSMObstacle(name, spec, start);
      ob := AtCoreGate(7, 2);
    }
  }

  /** Whichever condition of the core tier fails leaves an obstacle in it. */
  lemma CoreObstacle(name: string, spec: Spec, start: set<Obj>) returns (ob: Obstacle)
    requires Admitted(name, spec) && spec.infrastructure.Some? && HasCore(spec) && !CoreDeployable(spec, start)
    ensures InCore(ob) && Hits(spec, start, ob)
  {
    if spec.core.pxe.enabled && !(IsCertManagerMode(spec) && Secret(CoreNs(spec), PXE_CERTIFICATE) in start) {
      ob := PXEObstacle(name, spec, start);
    } else if !PasswordThere(spec, BeforeConfig(spec, start), "carbide") {
      ob := PasswordObstacle(name, spec, start);
    } else if !DatabaseSecretThere(spec, BeforeAPI(spec, start), "carbide")
              || !VaultSecretsThere(spec, BeforeAPI(spec, start))
    {
      APIObstacle(name, spec, start);
      ob := AtAPI(2);
    } else {
      ob := BackendObstacle(name, spec, start);
    }
  }

  // -------------------------------------------------- what is never created

  /** Objects that something the operator creates depends on, and that it never
      creates: the Keycloak instance it polls, the certificate of the site agent, and
      the service accounts of the site agent and of the Temporal Helm job. */
  predicate Orphan(x: Obj) {
    || (x.kind == KeycloakInstance && x.name == "carbide-keycloak")
    || (x.kind == Certificate && x.name == SITE_AGENT_NAME + "-cert")
    || (x.kind == ServiceAccount && (x.name == SITE_AGENT_NAME || x.name == TEMPORAL_INSTALLER))
  }

  predicate Free(plan: seq<Action>) {
    forall i | 0 <= i < |plan| :: Puts(plan[i]).Some? ==> !Orphan(Puts(plan[i]).value)
  }

  ghost predicate FreeSlots(slots: seq<Slot>) {
    forall i | 0 <= i < |slots| :: slots[i].Some? ==> Free(slots[i].value.plan)
  }

  lemma PlannedFree(plan: seq<Action>, x: Obj)
    requires Free(plan) && x in Planned(plan)
    ensures !Orphan(x)
  {
    PlannedOnly(plan, |plan|, x);
    var j :| 0 <= j < |plan| && Puts(plan[j]) == Some(x);
  }

  lemma {:induction false} SlotObjectsFree(slots: seq<Slot>, k: nat, x: Obj)
    requires k <= |slots| && FreeSlots(slots) && x in SlotObjects(slots, k)
    ensures !Orphan(x)
  {
    if slots[k - 1].Some? && x in Planned(slots[k - 1].value.plan) {
      PlannedFree(slots[k - 1].value.plan, x);
    } else {
      SlotObjectsFree(slots, k - 1, x);
    }
  }

  lemma TierFree(prelude: seq<Action>, slots: seq<Slot>, x: Obj)
    requires Free(prelude) && FreeSlots(slots) && x in TierObjects(prelude, slots)
    ensures !Orphan(x)
  {
    if x in Planned(prelude) { PlannedFree(prelude, x); } else { SlotObjectsFree(slots, |slots|, x); }
  }

  predicate Ordinary(names: seq<string>) {
    forall i | 0 <= i < |names| :: names[i] != SITE_AGENT_NAME && names[i] != TEMPORAL_INSTALLER
  }

  lemma OrdinaryPlans(names: seq<string>, ns: string)
    requires Ordinary(names)
    ensures Free(CoreTier.AccountsPlan(names, ns)) && Free(CoreTier.IdentitiesPlan(names))
    ensures Free(CoreTier.CertificatesPlan(names, ns)) && Free(CoreTier.CertificateWaits(names, ns))
  {
    forall i | 0 <= i < |names| ensures names[i] + "-cert" != SITE_AGENT_NAME + "-cert" {
      if |names[i]| == |SITE_AGENT_NAME| {
        var j :| 0 <= j < |names[i]| && names[i][j] != SITE_AGENT_NAME[j];
        assert (names[i] + "-cert")[j] != (SITE_AGENT_NAME + "-cert")[j];
      }
    }
  }

  lemma InfrastructureFree(infra: InfrastructureConfig)
    ensures Free(InfrastructureTier.Prelude(infra)) && FreeSlots(InfrastructureTier.Slots(infra))
  {
  }

  /** No core service bears one of the two names. */
  lemma CoreNamesOrdinary(spec: Spec)
    ensures Ordinary(CoreTier.AccountNames(spec))
  {
    assert |SITE_AGENT_NAME| == 23 && |TEMPORAL_INSTALLER| == 23;
    assert forall i | 0 <= i < |CoreTier.AccountNames(spec)| :: |CoreTier.AccountNames(spec)[i]| <= 12;
  }

  lemma CorePreludeFree(spec: Spec)
    ensures Free(CoreTier.Prelude(spec))
  {
    var ns := CoreTier.TierNamespace(spec);
    CoreNamesOrdinary(spec);
    OrdinaryPlans(CoreTier.AccountNames(spec), ns);
    assert Free(CoreTier.TLSPlan(spec, ns));
    assert Free(CoreTier.ConfigPlan(spec, ns));
  }

  lemma VaultFree(vault: VaultConfig, ns: string)
    ensures Free(CoreTier.VaultPlan(vault, ns))
  {
    assert VAULT_INSTALLER[0] == 'v' && TEMPORAL_INSTALLER[0] == 't' && SITE_AGENT_NAME[0] == 'c';
  }

  lemma CoreSlotsFree(spec: Spec)
    ensures FreeSlots(CoreTier.Slots(spec))
  {
    if HasCore(spec) && spec.core.vault.Some? { VaultFree(spec.core.vault.value, CoreTier.TierNamespace(spec)); }
  }

  /** Neither does a REST service with a certificate; the site agent has none. */
  lemma RestNamesOrdinary()
    ensures Ordinary(RestTier.AccountNames()) && Ordinary(RestTier.CertificateNames())
            && Ordinary(RestTier.IdentityNames())
  {
    assert |SITE_AGENT_NAME| == 23 && |TEMPORAL_INSTALLER| == 23;
    assert |REST_API_NAME| == 16 && |CLOUD_WORKER_NAME| == 25 && |SITE_WORKER_NAME| == 24 && |SITE_MANAGER_NAME| == 25;
  }

  lemma RestPreludeFree(spec: Spec)
    ensures Free(RestTier.Prelude(spec))
  {
    var ns := RestTier.TierNamespace(spec);
    RestNamesOrdinary();
    OrdinaryPlans(RestTier.AccountNames(), ns);
    OrdinaryPlans(RestTier.CertificateNames(), ns);
    OrdinaryPlans(RestTier.IdentityNames(), ns);
    assert Free(RestTier.TLSPlan(spec, ns));
    assert Free(RestTier.SecretsPlan(spec, ns));
  }

  lemma {:induction false} ProvidersFree(providers: seq<AuthProvider>, ns: string, k: nat)
    requires k <= |providers|
    ensures Free(RestTier.ProvidersPlan(providers, ns, k))
  {
    if k > 0 { ProvidersFree(providers, ns, k - 1); }
  }

  lemma RestPlansFree(spec: Spec, ns: string)
    requires spec.rest.Some?
    ensures Free(RestTier.TemporalPlan(spec, spec.rest.value.temporal, ns)) && Free(RestTier.TemporalSetupPlan(ns))
    ensures Free(RestTier.KeycloakPlan(spec.rest.value.keycloak, ns)) && Free(RestTier.RestAPIPlan(ns))
    ensures Free(RestTier.SiteManagerPlan(ns)) && Free(RestTier.SiteAgentPlan(ns))
  {
    var providers := spec.rest.value.keycloak.providers;
    ProvidersFree(providers, ns, |providers|);
    assert "carbide-keycloak"[0] == 'c' && "keycloak"[0] == 'k';
    RestNamesOrdinary();
    assert RestTier.CertificateNames()[3] == SITE_MANAGER_NAME;
  }

  lemma RestSlotsFree(spec: Spec)
    ensures FreeSlots(RestTier.Slots(spec))
  {
    if RestEnabled(spec) { RestPlansFree(spec, RestTier.TierNamespace(spec)); }
  }

  /** No spec whatsoever makes the operator create an orphan. */
  lemma OrphansAreNeverCreated(spec: Spec, x: Obj)
    requires Orphan(x)
    ensures x !in Objects(spec)
  {
    if x in Objects(spec) {
      if x in InfrastructureObjects(spec) {
        InfrastructureFree(spec.infrastructure.value);
        TierFree(InfrastructureTier.Prelude(spec.infrastructure.value),
            InfrastructureTier.Slots(spec.infrastructure.value), x);
      } else if x in CoreObjects(spec) {
        CorePreludeFree(spec);
        CoreSlotsFree(spec);
        TierFree(CoreTier.Prelude(spec), CoreTier.Slots(spec), x);
      } else {
        RestPreludeFree(spec);
        RestSlotsFree(spec);
        TierFree(RestTier.Prelude(spec), RestTier.Slots(spec), x);
      }
    }
  }

  // ------------------------------------------------------- obstacles in REST

  /** Only secrets come about from other objects. */
  lemma NothingElseMade(spec: Spec, existing: set<Obj>, x: Obj)
    requires x.kind != SecretObject && Exists(spec, existing, x)
    ensures x in existing
  {
  }

  /** The only namespaces written before REST are those of the other two tiers. */
  lemma NamespacesWritten(spec: Spec, x: Obj)
    requires spec.infrastructure.Some? && x.kind == Namespace && x in InfrastructureObjects(spec)
    ensures x == Home(InfrastructureTier.TierNamespace(spec.infrastructure.value))
  {
    var infra := spec.infrastructure.value;
    var prelude, slots := InfrastructureTier.Prelude(infra), InfrastructureTier.Slots(infra);
    if x in Planned(prelude) {
      PlannedOnly(prelude, |prelude|, x);
    } else {
      assert SlotObjects(slots, 1) == SlotObjects(slots, 0) + Planned(slots[0].value.plan);
      PlannedOnly(slots[0].value.plan, |slots[0].value.plan|, x);
    }
  }

  /** REST works in a namespace that nobody creates: its first write is refused. */
  lemma NamespaceObstacle(name: string, spec: Spec, start: set<Obj>)
    requires Admitted(name, spec) && spec.infrastructure.Some? && RestEnabled(spec) && !HasCore(spec)
    requires CoreNs(spec) != InfrastructureTier.TierNamespace(spec.infrastructure.value) && Home(CoreNs(spec)) !in start
    ensures Hits(spec, start, AtRestPrelude(0))
  {
    var plan, home := RestTier.Prelude(spec), Home(CoreNs(spec));
    OneNamespace(name, spec);
    NoCoreNoObjects(spec);
    assert plan[0] == Must(Write(Account(CoreNs(spec), REST_API_NAME)));
    var bound := Bound(spec, start, AtRestPrelude(0));
    assert !Exists(spec, bound, home) by {
      if home in InfrastructureObjects(spec) { NamespacesWritten(spec, home); }
    }
  }

  lemma ForgeObstacle(name: string, spec: Spec, start: set<Obj>) returns (ob: Obstacle)
    requires Admitted(name, spec) && spec.infrastructure.Some? && RestEnabled(spec)
    requires !PasswordThere(spec, BeforeRestSecrets(spec, start), "forge")
    ensures !KeepsCoreDown(ob) && Hits(spec, start, ob)
  {
    var plan, secrets := RestTier.Prelude(spec), RestTier.SecretsPlan(spec, RestTier.TierNamespace(spec));
    var found := PasswordLookup(spec.infrastructure, "forge");
    RestSecretsStage(name, spec, start);
    ob := AtRestPrelude(|plan| - 3);
    assert |secrets| == 3 && plan[|plan| - 3] == secrets[0];
    assert Hopeless(spec, plan, |plan| - 3, Bound(spec, start, ob)) by {
      if found.At? {
        var r := Secret(found.namespace, found.name);
        if Exists(spec, Bound(spec, start, ob), r) {
          SecretFromStage(spec, Bound(spec, start, ob), BeforeRestSecrets(spec, start), r);
        }
      }
    }
  }

  /** Everything that can exist at a REST gate is there from the start or an object of
      the spec; so orphans are there from the start or never. */
  lemma OrphanOnlyFromStart(spec: Spec, start: set<Obj>, k: nat, i: nat, x: Obj)
    requires Located(spec, AtRestGate(k, i)) && Orphan(x) && Exists(spec, Bound(spec, start, AtRestGate(k, i)), x)
    ensures x in start
  {
    NothingElseMade(spec, Bound(spec, start, AtRestGate(k, i)), x);
    OrphansAreNeverCreated(spec, x);
  }

  lemma SecretMissing(name: string, spec: Spec, start: set<Obj>, k: nat, i: nat, r: Obj)
    requires Admitted(name, spec) && spec.infrastructure.Some? && Located(spec, AtRestGate(k, i))
    requires r.kind == SecretObject && !Exists(spec, AfterRestSecrets(spec, start), r)
    ensures !Exists(spec, Bound(spec, start, AtRestGate(k, i)), r)
  {
    var bound := Bound(spec, start, AtRestGate(k, i));
    RestStage(name, spec, start, k, i);
    if Exists(spec, bound, r) { SecretFromStage(spec, bound, AfterRestSecrets(spec, start), r); }
  }

  lemma RestSlotPlans(name: string, spec: Spec)
    requires Admitted(name, spec) && spec.infrastructure.Some? && RestEnabled(spec)
    ensures var slots, ns, rest := RestTier.Slots(spec), CoreNs(spec), spec.rest.value;
            && |slots| == 8 && slots[0].Some? && slots[1].Some? && slots[4].Some?
            && slots[0].value.plan == RestTier.TemporalPlan(spec, rest.temporal, ns)
            && slots[1].value.plan == RestTier.KeycloakPlan(rest.keycloak, ns)
            && slots[4].value.plan == RestTier.WorkerPlan(ns, CLOUD_WORKER_NAME, CloudRunner)
            && (SiteAgentEnabled(spec) ==> slots[7].Some? && slots[7].value.plan == RestTier.SiteAgentPlan(ns))
  {
    OneNamespace(name, spec);
  }

  /** An action of a REST gate that cannot succeed is an obstacle. */
  lemma RestGateHit(spec: Spec, start: set<Obj>, k: nat, i: nat, plan: seq<Action>)
    requires RestEnabled(spec) && InPlan(RestTier.Slots(spec), k, i) && RestTier.Slots(spec)[k].value.plan == plan
    requires Hopeless(spec, plan, i, Bound(spec, start, AtRestGate(k, i)))
    ensures Hits(spec, start, AtRestGate(k, i))
  {
  }

  lemma HelmNotReady(spec: Spec, existing: set<Obj>, ns: string)
    requires !Exists(spec, existing, Account(ns, TEMPORAL_INSTALLER))
    ensures !PodReady(spec, existing, ns, Template(spec, TemporalHelm))
  {
  }

  lemma TemporalPlanShape(spec: Spec)
    requires spec.infrastructure.Some? && !CoreTier.ConnectionMissing(spec) && TemporalManaged(spec)
    ensures var ns, temporal := CoreNs(spec), spec.rest.value.temporal;
            var plan, helm := RestTier.TemporalPlan(spec, temporal, ns), Obj(Job, ns, "temporal-helm-install");
            && |plan| == 4 && plan[2] == Poll(Await(helm, TemporalHelm))
            && plan[3] == Poll(Probe(RestTier.Frontend(temporal), RestTier.ReleaseNeeds(spec, temporal, helm)))
  {
  }

  /** The account of the Helm job is missing. */
  lemma HelmObstacle(name: string, spec: Spec, start: set<Obj>)
    requires Admitted(name, spec) && spec.infrastructure.Some? && RestEnabled(spec) && TemporalManaged(spec)
    requires Account(CoreNs(spec), TEMPORAL_INSTALLER) !in start
    ensures Hits(spec, start, AtRestGate(0, 2))
  {
    var ns, account := CoreNs(spec), Account(CoreNs(spec), TEMPORAL_INSTALLER);
    var plan, helm := RestTier.TemporalPlan(spec, spec.rest.value.temporal, ns), Obj(Job, ns, "temporal-helm-install");
    TemporalPlanShape(spec);
    RestSlotPlans(name, spec);
    assert Hopeless(spec, plan, 2, Bound(spec, start, AtRestGate(0, 2))) by {
      var bound := Bound(spec, start, AtRestGate(0, 2));
      if Exists(spec, bound, account) { OrphanOnlyFromStart(spec, start, 0, 2, account); }
      HelmNotReady(spec, bound, ns);
      AwaitHopeless(spec, plan, 2, bound, helm, TemporalHelm);
    }
    RestGateHit(spec, start, 0, 2, plan);
  }

  /** The database secret of the release is missing. */
  lemma ReleaseObstacle(name: string, spec: Spec, start: set<Obj>)
    requires Admitted(name, spec) && spec.infrastructure.Some? && RestEnabled(spec) && TemporalManaged(spec)
    requires RestTier.TemporalSecret(spec) != ""
    requires var r := Secret(RestTier.ReleaseNamespace(spec.rest.value.temporal), RestTier.TemporalSecret(spec));
             !Exists(spec, AfterRestSecrets(spec, start), r)
    ensures Hits(spec, start, AtRestGate(0, 3))
  {
    var ns, temporal := CoreNs(spec), spec.rest.value.temporal;
    var plan, helm := RestTier.TemporalPlan(spec, temporal, ns), Obj(Job, ns, "temporal-helm-install");
    var r := Secret(RestTier.ReleaseNamespace(temporal), RestTier.TemporalSecret(spec));
    TemporalPlanShape(spec);
    RestSlotPlans(name, spec);
    SecretMissing(name, spec, start, 0, 3, r);
    ProbeHopeless(spec, plan, 3, Bound(spec, start, AtRestGate(0, 3)), RestTier.Frontend(temporal),
                  RestTier.ReleaseNeeds(spec, temporal, helm), r);
    RestGateHit(spec, start, 0, 3, plan);
  }

  lemma TemporalObstacle(name: string, spec: Spec, start: set<Obj>) returns (ob: Obstacle)
    requires Admitted(name, spec) && spec.infrastructure.Some? && RestEnabled(spec)
    requires TemporalManaged(spec) && !TemporalDeployable(spec, start)
    ensures !KeepsCoreDown(ob) && Hits(spec, start, ob)
  {
    if Account(CoreNs(spec), TEMPORAL_INSTALLER) !in start {
      HelmObstacle(name, spec, start);
      ob := AtRestGate(0, 2);
    } else {
      ReleaseObstacle(name, spec, start);
      ob := AtRestGate(0, 3);
    }
  }

  /** Where the client secret of provider `j` is looked up. */
  lemma {:induction false} ProviderAt(providers: seq<AuthProvider>, ns: string, k: nat, j: nat) returns (i: nat)
    requires j < k <= |providers| && providers[j].clientSecretRef.Some?
    ensures var plan := RestTier.ProvidersPlan(providers, ns, k);
            i < |plan| && plan[i] == Must(SecretRead(ns, providers[j].clientSecretRef.value.name))
  {
    if j == k - 1 {
      i := |RestTier.ProvidersPlan(providers, ns, k - 1)|;
    } else {
      i := ProviderAt(providers, ns, k - 1, j);
    }
  }

  /** A provider whose client secret is missing, and where it is looked up. */
  lemma ProviderMissing(spec: Spec, stage: set<Obj>, providers: seq<AuthProvider>) returns (i: nat, r: Obj)
    requires !ProvidersThere(spec, stage, providers)
    ensures var plan := RestTier.ProvidersPlan(providers, CoreNs(spec), |providers|);
            i < |plan| && plan[i] == Must(SecretRead(r.namespace, r.name))
    ensures r.kind == SecretObject && !Exists(spec, stage, r)
  {
    var j :| 0 <= j < |providers| && providers[j].clientSecretRef.Some?
             && !Exists(spec, stage, Secret(CoreNs(spec), providers[j].clientSecretRef.value.name));
    r := Secret(CoreNs(spec), providers[j].clientSecretRef.value.name);
    i := ProviderAt(providers, CoreNs(spec), |providers|, j);
  }

  lemma ReadHopeless(spec: Spec, plan: seq<Action>, i: nat, bound: set<Obj>, r: Obj)
    requires i < |plan| && plan[i] == Must(SecretRead(r.namespace, r.name))
    requires r.kind == SecretObject && !Exists(spec, bound, r)
    ensures Hopeless(spec, plan, i, bound)
  {
  }

  lemma ProviderHit(name: string, spec: Spec, start: set<Obj>, plan: seq<Action>, i: nat, r: Obj)
    requires Admitted(name, spec) && spec.infrastructure.Some? && RestEnabled(spec)
    requires InPlan(RestTier.Slots(spec), 1, i) && RestTier.Slots(spec)[1].value.plan == plan
    requires plan[i] == Must(SecretRead(r.namespace, r.name))
    requires r.kind == SecretObject && !Exists(spec, AfterRestSecrets(spec, start), r)
    ensures Hits(spec, start, AtRestGate(1, i))
  {
    SecretMissing(name, spec, start, 1, i, r);
    ReadHopeless(spec, plan, i, Bound(spec, start, AtRestGate(1, i)), r);
    RestGateHit(spec, start, 1, i, plan);
  }

  lemma ProvidersObstacle(name: string, spec: Spec, start: set<Obj>) returns (i: nat)
    requires Admitted(name, spec) && spec.infrastructure.Some? && RestEnabled(spec)
    requires spec.rest.value.keycloak.mode == AuthExternal && !KeycloakDeployable(spec, start)
    ensures Hits(spec, start, AtRestGate(1, i))
  {
    var r: Obj;
    i, r := ProviderMissing(spec, AfterRestSecrets(spec, start), spec.rest.value.keycloak.providers);
    RestSlotPlans(name, spec);
    ProviderHit(name, spec, start, RestTier.Slots(spec)[1].value.plan, i, r);
  }

  /** A managed instance that is never created under the name it is polled by. */
  lemma PollObstacle(name: string, spec: Spec, start: set<Obj>)
    requires Admitted(name, spec) && spec.infrastructure.Some? && RestEnabled(spec)
    requires KeycloakManaged(spec) && RestTier.KeycloakPolled(CoreNs(spec)) !in start
    ensures Hits(spec, start, AtRestGate(1, 3))
  {
    var ns, ob := CoreNs(spec), AtRestGate(1, 3);
    var plan, polled := RestTier.KeycloakPlan(spec.rest.value.keycloak, ns), RestTier.KeycloakPolled(ns);
    RestSlotPlans(name, spec);
    assert |plan| == 4 && plan[3] == Poll(Probe(polled, {polled}));
    if Exists(spec, Bound(spec, start, ob), polled) { OrphanOnlyFromStart(spec, start, 1, 3, polled); }
    ProbeHopeless(spec, plan, 3, Bound(spec, start, ob), polled, {polled}, polled);
    RestGateHit(spec, start, 1, 3, plan);
  }

  lemma KeycloakObstacle(name: string, spec: Spec, start: set<Obj>) returns (ob: Obstacle)
    requires Admitted(name, spec) && spec.infrastructure.Some? && RestEnabled(spec) && !KeycloakDeployable(spec, start)
    ensures !KeepsCoreDown(ob) && Hits(spec, start, ob)
  {
    if spec.rest.value.keycloak.mode == AuthExternal {
      var i := ProvidersObstacle(name, spec, start);
      ob := AtRestGate(1, i);
    } else {
      PollObstacle(name, spec, start);
      ob := AtRestGate(1, 3);
    }
  }

  lemma WorkerNotReady(spec: Spec, existing: set<Obj>)
    requires !Exists(spec, existing, Secret(CoreNs(spec), ENCRYPTION_KEY))
             || !Exists(spec, existing, Secret(CoreNs(spec), WORKER_DATABASE_SECRET))
    ensures !PodReady(spec, existing, CoreNs(spec), Template(spec, CloudRunner))
  {
    var ns, plain := CoreNs(spec), WorkerPlain(CLOUD_WORKER_NAME);
    if !Exists(spec, existing, Secret(ns, ENCRYPTION_KEY)) {
      assert !VolumeReady(spec, existing, ns, plain.volumes[1]);
    } else {
      ContainerNotReady(spec, existing, ns, plain, 0);
    }
    PodNotReady(spec, existing, ns, plain);
  }

  lemma WorkerObstacle(name: string, spec: Spec, start: set<Obj>)
    requires Admitted(name, spec) && spec.infrastructure.Some? && RestEnabled(spec)
    requires Secret(CoreNs(spec), ENCRYPTION_KEY) !in start
             || !Exists(spec, AfterRestSecrets(spec, start), Secret(CoreNs(spec), WORKER_DATABASE_SECRET))
    ensures Hits(spec, start, AtRestGate(4, 1))
  {
    var ns, ob := CoreNs(spec), AtRestGate(4, 1);
    var plan, key := RestTier.WorkerPlan(ns, CLOUD_WORKER_NAME, CloudRunner), Secret(ns, ENCRYPTION_KEY);
    RestSlotPlans(name, spec);
    assert Hopeless(spec, plan, 1, Bound(spec, start, ob)) by {
      if key !in start {
        RestStage(name, spec, start, 4, 1);
        if Exists(spec, Bound(spec, start, ob), key) { OnlyFromStart(spec, start, Bound(spec, start, ob), key); }
      } else {
        SecretMissing(name, spec, start, 4, 1, Secret(ns, WORKER_DATABASE_SECRET));
      }
      WorkerNotReady(spec, Bound(spec, start, ob));
      AwaitHopeless(spec, plan, 1, Bound(spec, start, ob), Obj(Deployment, ns, CLOUD_WORKER_NAME), CloudRunner);
    }
    RestGateHit(spec, start, 4, 1, plan);
  }

  lemma AgentNotReady(spec: Spec, existing: set<Obj>)
    requires !Exists(spec, existing, Account(CoreNs(spec), SITE_AGENT_NAME))
             || (IsCertManagerMode(spec) && !Exists(spec, existing, Secret(CoreNs(spec), SITE_AGENT_NAME + "-tls")))
    ensures !PodReady(spec, existing, CoreNs(spec), Template(spec, Agent))
  {
    InjectedReady(spec, existing, CoreNs(spec), SiteAgentPlain());
  }

  lemma AgentObstacle(name: string, spec: Spec, start: set<Obj>)
    requires Admitted(name, spec) && spec.infrastructure.Some? && RestEnabled(spec)
    requires SiteAgentEnabled(spec) && !SiteAgentDeployable(spec, start)
    ensures Hits(spec, start, AtRestGate(7, 2))
  {
    var ns, ob := CoreNs(spec), AtRestGate(7, 2);
    var plan, account := RestTier.SiteAgentPlan(ns), Account(ns, SITE_AGENT_NAME);
    RestSlotPlans(name, spec);
    assert Hopeless(spec, plan, 2, Bound(spec, start, ob)) by {
      if account !in start {
        if Exists(spec, Bound(spec, start, ob), account) { OrphanOnlyFromStart(spec, start, 7, 2, account); }
      } else {
        SecretMissing(name, spec, start, 7, 2, Secret(ns, SITE_AGENT_NAME + "-tls"));
      }
      AgentNotReady(spec, Bound(spec, start, ob));
      AwaitHopeless(spec, plan, 2, Bound(spec, start, ob), Obj(Deployment, ns, SITE_AGENT_NAME), Agent);
    }
    RestGateHit(spec, start, 7, 2, plan);
  }

  /** Whichever condition of the REST tier fails leaves an obstacle in it. */
  lemma RestObstacle(name: string, spec: Spec, start: set<Obj>) returns (ob: Obstacle)
    requires Admitted(name, spec) && spec.infrastructure.Some? && RestEnabled(spec) && !RestDeployable(spec, start)
    ensures !KeepsCoreDown(ob) && Hits(spec, start, ob)
  {
    if !HasCore(spec) && CoreNs(spec) != InfrastructureTier.TierNamespace(spec.infrastructure.value)
       && Home(CoreNs(spec)) !in start
    {
      NamespaceObstacle(name, spec, start);
      ob := AtRestPrelude(0);
    } else if !PasswordThere(spec, BeforeRestSecrets(spec, start), "forge") {
      ob := ForgeObstacle(name, spec, start);
    } else if TemporalManaged(spec) && !TemporalDeployable(spec, start) {
      ob := TemporalObstacle(name, spec, start);
    } else if !KeycloakDeployable(spec, start) {
      ob := KeycloakObstacle(name, spec, start);
    } else if SiteAgentEnabled(spec) && !SiteAgentDeployable(spec, start) {
      AgentObstacle(name, spec, start);
      ob := AtRestGate(7, 2);
    } else {
      WorkerObstacle(name, spec, start);
      ob := AtRestGate(4, 1);
    }
  }

  /** Without an infrastructure block the first tier that looks for a password stops. */
  lemma NoInfrastructureObstacle(name: string, spec: Spec, start: set<Obj>) returns (ob: Obstacle)
    requires Admitted(name, spec) && spec.infrastructure.None? && (HasCore(spec) || RestEnabled(spec))
    ensures Hits(spec, start, ob)
  {
    if HasCore(spec) {
      var plan, config := CoreTier.Prelude(spec), CoreTier.ConfigPlan(spec, CoreNs(spec));
      assert plan[|plan| - 1] == config[0];
      ob := AtCorePrelude(|plan| - 1);
    } else {
      var plan, secrets := RestTier.Prelude(spec), RestTier.SecretsPlan(spec, RestTier.TierNamespace(spec));
      assert |secrets| == 3 && plan[|plan| - 3] == secrets[0];
      ob := AtRestPrelude(|plan| - 3);
    }
  }

  /** An external PostgreSQL lacks the secret of one of its users: the infrastructure
      tier writes nothing that would bring it about. */
  lemma PostgresObstacle(name: string, spec: Spec, start: set<Obj>)
    requires Admitted(name, spec) && spec.infrastructure.Some? && !InfrastructureDeployable(spec, start)
    ensures Hits(spec, start, AtPostgres(0))
    ensures Bound(spec, start, AtPostgres(0)) == start + {Home(spec.infrastructure.value.namespace)}
  {
    var infra, bound := spec.infrastructure.value, Bound(spec, start, AtPostgres(0));
    var missing :| missing in InfrastructureTier.UserSecretObjects(infra) && !Exists(spec, start, missing);
    ExternalObjects(spec);
    NamespaceNonEmpty(name, spec);
    assert bound == start + {Home(infra.namespace)};
    assert !Exists(spec, bound, missing);
  }

  /** Every admitted spec that is not deployable in a cluster meets an obstacle. */
  lemma FindObstacle(name: string, spec: Spec, start: set<Obj>) returns (ob: Obstacle)
    requires Admitted(name, spec) && !Deployable(spec, start)
    ensures Hits(spec, start, ob)
  {
    if spec.rest.Some? && !RestEnabled(spec) {
      ob := RestOff;
    } else if spec.infrastructure.None? {
      ob := NoInfrastructureObstacle(name, spec, start);
    } else if !InfrastructureDeployable(spec, start) {
      PostgresObstacle(name, spec, start);
      ob := AtPostgres(0);
    } else if HasCore(spec) && !CoreDeployable(spec, start) {
      ob := CoreObstacle(name, spec, start);
    } else {
      ob := RestObstacle(name, spec, start);
    }
  }
}
