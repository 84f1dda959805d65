/** The plans of a deployable spec never wait for anything but what is there and what
    was written before. */
module Guards {
  import opened Api
  import opened Gates
  import opened Pods
  import opened Admission
  import opened Credentials
  import opened Supply
  import opened CorePods
  import opened RestPods
  import opened Progress
  import opened Agreements
  import opened Deployability
  import InfrastructureTier
  import CoreTier
  import RestTier

  // --------------------------------------------- the objects of the three tiers

  function InfrastructureObjects(spec: Spec): set<Obj> {
    if spec.infrastructure.None? then {}
    else
      var infra := spec.infrastructure.value;
      TierObjects(InfrastructureTier.Prelude(infra), InfrastructureTier.Slots(infra))
  }

  function CoreObjects(spec: Spec): set<Obj> { TierObjects(CoreTier.Prelude(spec), CoreTier.Slots(spec)) }

  function RestObjects(spec: Spec): set<Obj> { TierObjects(RestTier.Prelude(spec), RestTier.Slots(spec)) }

  /** Everything the operator creates for a spec. */
  function Objects(spec: Spec): set<Obj> { InfrastructureObjects(spec) + CoreObjects(spec) + RestObjects(spec) }

  // ------------------------------------------------------------- small plans

  lemma PlannedHasAll(plan: seq<Action>)
    ensures forall i, j | 0 <= j < i <= |plan| && Puts(plan[j]).Some? :: Puts(plan[j]).value in PlannedUpTo(plan, i)
  {
    forall i, j | 0 <= j < i <= |plan| && Puts(plan[j]).Some? ensures Puts(plan[j]).value in PlannedUpTo(plan, i) {
      PlannedHas(plan, i, j);
    }
  }

  lemma PlannedAppend(a: seq<Action>, b: seq<Action>)
    ensures Planned(a + b) == Planned(a) + Planned(b)
  {
    PlannedConcat(a, b, |b|);
  }

  lemma PodReadyMonotone(spec: Spec, a: set<Obj>, b: set<Obj>, ns: string, p: Pod)
    requires a <= b && PodReady(spec, a, ns, p)
    ensures PodReady(spec, b, ns, p)
  {
  }

  function Home(ns: string): Obj { Obj(Namespace, "", ns) }

  /** Plain writes into a namespace that is there. */
  predicate WritesInto(plan: seq<Action>, ns: string) {
    forall i | 0 <= i < |plan| ::
      plan[i].Must? && plan[i].call.Write? && (plan[i].call.obj.namespace == "" || plan[i].call.obj.namespace == ns)
  }

  lemma WritesGuarded(spec: Spec, plan: seq<Action>, ns: string, given: set<Obj>)
    requires WritesInto(plan, ns) && Home(ns) in given
    ensures Guarded(spec, plan, given)
  {
    forall i | 0 <= i < |plan| ensures Backed(spec, plan, i, given) {
      assert Home(ns) in given + PlannedUpTo(plan, i);
    }
  }

  /** A plan that begins with plain writes. */
  lemma WritesFirst(spec: Spec, plan: seq<Action>, n: nat, ns: string, given: set<Obj>)
    requires n <= |plan| && WritesInto(plan[..n], ns) && Home(ns) in given
    ensures forall i | 0 <= i < n :: Backed(spec, plan, i, given)
  {
    forall i | 0 <= i < n ensures Backed(spec, plan, i, given) {
      assert plan[..n][i] == plan[i] && Home(ns) in given + PlannedUpTo(plan, i);
    }
  }

  lemma ApplyBacked(spec: Spec, plan: seq<Action>, i: nat, given: set<Obj>, w: Obj, pod: Workload)
    requires i < |plan| && plan[i] == Must(Apply(w, pod)) && Home(w.namespace) in given && Accepted(Template(spec, pod))
    ensures Backed(spec, plan, i, given)
  {
    assert Home(w.namespace) in given + PlannedUpTo(plan, i);
  }

  lemma WriteBacked(spec: Spec, plan: seq<Action>, i: nat, given: set<Obj>, x: Obj)
    requires i < |plan| && plan[i] == Must(Write(x)) && (x.namespace == "" || Home(x.namespace) in given)
    ensures Backed(spec, plan, i, given)
  {
    assert Home(x.namespace) in given ==> Home(x.namespace) in given + PlannedUpTo(plan, i);
  }

  /** A workload written at `j` is awaited at `i`; what its pod needs is there. */
  lemma AwaitBacked(spec: Spec, plan: seq<Action>, j: nat, i: nat, given: set<Obj>, w: Obj, pod: Workload)
    requires j < i < |plan| && plan[j] == Must(Apply(w, pod)) && plan[i] == Poll(Await(w, pod))
    requires PodReady(spec, given + PlannedUpTo(plan, i), w.namespace, Template(spec, pod))
    ensures Backed(spec, plan, i, given)
  {
    PlannedHas(plan, i, j);
  }

  lemma ServiceGuarded(spec: Spec, ns: string, service: string, pod: Workload, given: set<Obj>)
    requires Home(ns) in given && Accepted(Template(spec, pod)) && PodReady(spec, given, ns, Template(spec, pod))
    ensures Guarded(spec, CoreTier.ServicePlan(ns, service, pod), given)
  {
    var plan, w := CoreTier.ServicePlan(ns, service, pod), Obj(Deployment, ns, service);
    ApplyBacked(spec, plan, 0, given, w, pod);
    WriteBacked(spec, plan, 1, given, Obj(Service, ns, service));
    PodReadyMonotone(spec, given, given + PlannedUpTo(plan, 2), ns, Template(spec, pod));
    AwaitBacked(spec, plan, 0, 2, given, w, pod);
  }

  lemma DaemonGuarded(spec: Spec, ns: string, daemon: string, pod: Workload, given: set<Obj>)
    requires Home(ns) in given && Accepted(Template(spec, pod)) && PodReady(spec, given, ns, Template(spec, pod))
    ensures Guarded(spec, CoreTier.DaemonPlan(ns, daemon, pod), given)
  {
    var plan, w := CoreTier.DaemonPlan(ns, daemon, pod), Obj(DaemonSet, ns, daemon);
    ApplyBacked(spec, plan, 0, given, w, pod);
    PodReadyMonotone(spec, given, given + PlannedUpTo(plan, 1), ns, Template(spec, pod));
    AwaitBacked(spec, plan, 0, 1, given, w, pod);
  }

  // ----------------------------------------------------------- infrastructure

  lemma InfrastructurePreludeGuarded(spec: Spec, infra: InfrastructureConfig, given: set<Obj>)
    ensures Guarded(spec, InfrastructureTier.Prelude(infra), given)
    ensures Home(InfrastructureTier.TierNamespace(infra)) in Planned(InfrastructureTier.Prelude(infra))
  {
    var plan := InfrastructureTier.Prelude(infra);
    PlannedHasAll(plan);
    assert Puts(plan[0]) == Some(Home(InfrastructureTier.TierNamespace(infra)));
    forall i | 0 <= i < |plan| ensures Backed(spec, plan, i, given) {
      assert i > 0 ==> Puts(plan[0]).value in PlannedUpTo(plan, i);
    }
    assert Puts(plan[0]).value in PlannedUpTo(plan, |plan|);
  }

  lemma InfrastructureSlotsGuarded(name: string, spec: Spec, existing: set<Obj>, given: set<Obj>)
    requires Admitted(name, spec) && spec.infrastructure.Some? && InfrastructureDeployable(spec, existing)
    requires existing <= given && Home(InfrastructureTier.TierNamespace(spec.infrastructure.value)) in given
    ensures GuardedSlots(spec, InfrastructureTier.Slots(spec.infrastructure.value), given)
  {
    var infra := spec.infrastructure.value;
    var plan := InfrastructureTier.PostgresPlan(infra);
    if UsesExternalPostgres(spec) {
      assert Supplied(spec, given, Reach(InfrastructureTier.ExternalCheck(infra))) by {
        assert Supplied(spec, existing, Reach(InfrastructureTier.ExternalCheck(infra)));
        SuppliedMonotone(spec, existing, given, Reach(InfrastructureTier.ExternalCheck(infra)));
      }
      assert given + PlannedUpTo(plan, 0) == given;
    } else {
      PlannedHasAll(plan);
    }
    assert Guarded(spec, plan, given + SlotObjects(InfrastructureTier.Slots(infra), 0));
  }

  lemma InfrastructureSlotsWellFormed(infra: InfrastructureConfig)
    ensures WellFormed(InfrastructureTier.Slots(infra))
  {
  }

  /** With an external PostgreSQL the tier writes nothing but its namespace. */
  lemma ExternalObjects(spec: Spec)
    requires UsesExternalPostgres(spec)
    ensures InfrastructureObjects(spec) == {Home(InfrastructureTier.TierNamespace(spec.infrastructure.value))}
  {
    var infra := spec.infrastructure.value;
    var prelude, plan := InfrastructureTier.Prelude(infra), InfrastructureTier.PostgresPlan(infra);
    assert PlannedUpTo(prelude, 1) == PlannedUpTo(prelude, 0) + {Home(InfrastructureTier.TierNamespace(infra))};
    assert |prelude| == 2 ==> PlannedUpTo(prelude, 2) == PlannedUpTo(prelude, 1) + {};
    assert Planned(plan) == PlannedUpTo(plan, 0) + {};
    assert SlotObjects(InfrastructureTier.Slots(infra), 1) == SlotObjects(InfrastructureTier.Slots(infra), 0) + {};
  }

  /** The cluster is among the objects of the infrastructure tier. */
  lemma ClusterIsWritten(name: string, spec: Spec)
    requires Admitted(name, spec) && spec.infrastructure.Some?
    ensures ManagedCluster(spec) <= InfrastructureObjects(spec)
    ensures Home(InfrastructureTier.TierNamespace(spec.infrastructure.value)) in InfrastructureObjects(spec)
  {
    var infra := spec.infrastructure.value;
    InfrastructurePreludeGuarded(spec, infra, {});
    SlotObjectsHave(InfrastructureTier.Slots(infra), 0, 1);
    if !UsesExternalPostgres(spec) { PlannedHas(InfrastructureTier.PostgresPlan(infra), 3, 1); }
  }

  // -------------------------------------------------------------------- core

  lemma {:induction false} PlannedOnly(plan: seq<Action>, k: nat, x: Obj)
    requires k <= |plan| && x in PlannedUpTo(plan, k)
    ensures exists j | 0 <= j < k :: Puts(plan[j]) == Some(x)
  {
    if Puts(plan[k - 1]) != Some(x) { PlannedOnly(plan, k - 1, x); }
  }

  lemma AccountsPlanned(names: seq<string>, ns: string)
    ensures forall n | n in names :: Account(ns, n) in Planned(CoreTier.AccountsPlan(names, ns))
  {
    forall n | n in names ensures Account(ns, n) in Planned(CoreTier.AccountsPlan(names, ns)) {
      var i :| 0 <= i < |names| && names[i] == n;
      PlannedHas(CoreTier.AccountsPlan(names, ns), |names|, i);
    }
  }

  lemma CertificatesPlanned(names: seq<string>, ns: string)
    ensures Planned(CoreTier.CertificatesPlan(names, ns)) == Certificates(ns, names)
  {
    var plan := CoreTier.CertificatesPlan(names, ns);
    forall i | 0 <= i < |names| ensures CoreTier.CertificateObject(ns, names[i]) in Planned(plan) {
      PlannedHas(plan, |plan|, i);
    }
    forall x | x in Planned(plan) ensures x in Certificates(ns, names) {
      PlannedOnly(plan, |plan|, x);
      var j :| 0 <= j < |plan| && Puts(plan[j]) == Some(x);
      assert x == CoreTier.CertificateObject(ns, names[j]);
    }
  }

  /** A certificate brings its secret about. */
  lemma CertificateMakes(spec: Spec, given: set<Obj>, ns: string, n: string)
    requires CoreTier.CertificateObject(ns, n) in given
    ensures Exists(spec, given, Secret(ns, n + "-tls"))
  {
    assert CoreTier.CertificateObject(ns, n).name == n + "-cert";
    assert Makes(spec, CoreTier.CertificateObject(ns, n), Secret(ns, n + "-tls"));
  }

  lemma WaitsGuarded(spec: Spec, names: seq<string>, ns: string, given: set<Obj>)
    requires Certificates(ns, names) <= given
    ensures Guarded(spec, CoreTier.CertificateWaits(names, ns), given)
  {
    var plan := CoreTier.CertificateWaits(names, ns);
    forall i | 0 <= i < |plan| ensures Backed(spec, plan, i, given) {
      assert CoreTier.CertificateObject(ns, names[i]) in given + PlannedUpTo(plan, i);
      CertificateMakes(spec, given + PlannedUpTo(plan, i), ns, names[i]);
    }
  }

  lemma ConfigGuarded(spec: Spec, given: set<Obj>)
    requires spec.infrastructure.Some? && !CoreTier.ConnectionMissing(spec)
    requires Home(CoreNs(spec)) in given && PasswordThere(spec, given, "carbide")
    ensures Guarded(spec, CoreTier.ConfigPlan(spec, CoreNs(spec)), given)
  {
    var plan, found := CoreTier.ConfigPlan(spec, CoreNs(spec)), PasswordLookup(spec.infrastructure, "carbide");
    forall i | 0 <= i < |plan| ensures Backed(spec, plan, i, given) {
      if plan[i].call.SecretRead? {
        ExistsMonotone(spec, given, given + PlannedUpTo(plan, i), Secret(found.namespace, found.name));
      } else {
        WriteBacked(spec, plan, i, given, plan[i].call.obj);
      }
    }
  }

  lemma ConfigPlanned(spec: Spec, ns: string)
    requires spec.infrastructure.Some? && !CoreTier.ConnectionMissing(spec)
    ensures var p := Planned(CoreTier.ConfigPlan(spec, ns));
            && Config(ns, "carbide-api-config") in p && Config(ns, "casbin-policy") in p
            && (spec.core.dns.enabled ==> Config(ns, "carbide-dns-config") in p)
            && Secret(ns, "carbide-api-secret") in p
  {
    var plan := CoreTier.ConfigPlan(spec, ns);
    PlannedHas(plan, |plan|, 0);
    PlannedHas(plan, |plan|, 1);
    if spec.core.dns.enabled { PlannedHas(plan, |plan|, 2); }
    PlannedHas(plan, |plan|, |plan| - 1);
  }

  /** What the pods of the core tier find once its prelude is done. */
  ghost predicate CoreGround(spec: Spec, ground: set<Obj>) {
    var ns := CoreNs(spec);
    && Home(ns) in ground
    && (forall n | n in CoreTier.AccountNames(spec) :: Account(ns, n) in ground)
    && Certificates(ns, CoreTier.AccountNames(spec)) <= ground
    && Config(ns, "carbide-api-config") in ground && Config(ns, "casbin-policy") in ground
    && (spec.core.dns.enabled ==> Config(ns, "carbide-dns-config") in ground)
    && Secret(ns, "carbide-api-secret") in ground
  }

  function CoreStart(spec: Spec): seq<Action> {
    [Must(Write(Home(CoreNs(spec))))] + CoreTier.AccountsPlan(CoreTier.AccountNames(spec), CoreNs(spec))
  }

  lemma CoreStartGuarded(spec: Spec, given: set<Obj>)
    ensures Guarded(spec, CoreStart(spec), given)
    ensures var p := Planned(CoreStart(spec));
            Home(CoreNs(spec)) in p && forall n | n in CoreTier.AccountNames(spec) :: Account(CoreNs(spec), n) in p
  {
    var ns, names := CoreNs(spec), CoreTier.AccountNames(spec);
    var first, accounts := [Must(Write(Home(ns)))], CoreTier.AccountsPlan(names, ns);
    PlannedHas(first, 1, 0);
    PlannedAppend(first, accounts);
    AccountsPlanned(names, ns);
    WriteBacked(spec, first, 0, given, Home(ns));
    WritesGuarded(spec, accounts, ns, given + Planned(first));
    GuardedConcat(spec, first, accounts, given);
  }

  lemma CorePreludeParts(spec: Spec)
    requires HasCore(spec) && IsCertManagerMode(spec) && spec.tls.value.certManager.Some?
    ensures var ns, names := CoreNs(spec), CoreTier.AccountNames(spec);
            CoreTier.Prelude(spec)
            == CoreStart(spec) + CoreTier.CertificatesPlan(names, ns) + CoreTier.CertificateWaits(names, ns)
               + CoreTier.ConfigPlan(spec, ns)
  {
  }

  /** The core prelude of a deployable spec, in cert-manager mode. */
  lemma CorePreludeGuarded(name: string, spec: Spec, existing: set<Obj>, given: set<Obj>)
    requires Admitted(name, spec) && spec.infrastructure.Some? && HasCore(spec) && IsCertManagerMode(spec)
    requires PasswordThere(spec, BeforeConfig(spec, existing), "carbide")
    requires existing + ManagedCluster(spec) <= given
    ensures Guarded(spec, CoreTier.Prelude(spec), given) && CoreGround(spec, Planned(CoreTier.Prelude(spec)))
  {
    var ns, names := CoreNs(spec), CoreTier.AccountNames(spec);
    var start, certs := CoreStart(spec), CoreTier.CertificatesPlan(names, ns);
    var waits, config := CoreTier.CertificateWaits(names, ns), CoreTier.ConfigPlan(spec, ns);
    TLSIsOn(name, spec);
    CorePreludeParts(spec);
    CertificatesPlanned(names, ns);
    CoreStartGuarded(spec, given);
    WritesGuarded(spec, certs, ns, given + Planned(start));
    GuardedConcat(spec, start, certs, given);
    PlannedAppend(start, certs);
    WaitsGuarded(spec, names, ns, given + Planned(start + certs));
    GuardedConcat(spec, start + certs, waits, given);
    PlannedAppend(start + certs, waits);
    var found, before := PasswordLookup(spec.infrastructure, "carbide"), given + Planned(start + certs + waits);
    ExistsMonotone(spec, BeforeConfig(spec, existing), before, Secret(found.namespace, found.name));
    ConfigGuarded(spec, before);
    GuardedConcat(spec, start + certs + waits, config, given);
    PlannedAppend(start + certs + waits, config);
    ConfigPlanned(spec, ns);
  }

  /** The account and the certificate secret of a core service. */
  lemma ServiceGround(spec: Spec, ground: set<Obj>, service: string)
    requires CoreGround(spec, ground) && service in CoreTier.AccountNames(spec)
    ensures Exists(spec, ground, Account(CoreNs(spec), service))
    ensures Exists(spec, ground, Secret(CoreNs(spec), service + "-tls"))
  {
    var names := CoreTier.AccountNames(spec);
    var i :| 0 <= i < |names| && names[i] == service;
    assert CoreTier.CertificateObject(CoreNs(spec), names[i]) in Certificates(CoreNs(spec), names);
    CertificateMakes(spec, ground, CoreNs(spec), service);
  }

  lemma AccountsListed(spec: Spec)
    ensures var names := CoreTier.AccountNames(spec);
            && API_NAME in names && DHCP_NAME in names && DNS_NAME in names && PXE_NAME in names
            && (Enabled(spec.core.rla) ==> RLA_NAME in names) && (Enabled(spec.core.psm) ==> PSM_NAME in names)
  {
    var names := CoreTier.AccountNames(spec);
    assert names[0] == API_NAME && names[1] == DHCP_NAME && names[2] == DNS_NAME && names[3] == PXE_NAME;
    assert Enabled(spec.core.rla) ==> names[4] == RLA_NAME;
    assert Enabled(spec.core.psm) ==> names[|names| - 1] == PSM_NAME;
  }

  /** A service pod is ready once its references are, since its account and its
      certificate are there. */
  lemma ServicePodReady(spec: Spec, ground: set<Obj>, plain: Pod)
    requires CoreGround(spec, ground) && IsCertManagerMode(spec) && plain.account in CoreTier.AccountNames(spec)
    requires plain.account != "" && PodReady(spec, ground, CoreNs(spec), plain.(account := ""))
    ensures PodReady(spec, ground, CoreNs(spec), Injected(spec.tls, plain))
  {
    ServiceGround(spec, ground, plain.account);
    InjectedReady(spec, ground, CoreNs(spec), plain);
  }

  lemma APIReady(spec: Spec, ground: set<Obj>)
    requires CoreGround(spec, ground) && IsCertManagerMode(spec)
    requires DatabaseSecretThere(spec, ground, "carbide") && VaultSecretsThere(spec, ground)
    ensures PodReady(spec, ground, CoreNs(spec), APIPod(spec))
  {
    AccountsListed(spec);
    var p := APIPlain(spec).(account := "");
    assert ContainerReady(spec, ground, CoreNs(spec), p.containers[0]);
    ServicePodReady(spec, ground, APIPlain(spec));
  }

  lemma NetworkPodsReady(spec: Spec, ground: set<Obj>)
    requires CoreGround(spec, ground) && IsCertManagerMode(spec)
    ensures PodReady(spec, ground, CoreNs(spec), DHCPPod(spec))
    ensures spec.core.dns.enabled ==> PodReady(spec, ground, CoreNs(spec), DNSPod(spec))
  {
    AccountsListed(spec);
    ServicePodReady(spec, ground, DHCPPlain());
    if spec.core.dns.enabled { ServicePodReady(spec, ground, DNSPlain()); }
  }

  lemma PXEReady(spec: Spec, ground: set<Obj>)
    requires CoreGround(spec, ground) && IsCertManagerMode(spec) && Secret(CoreNs(spec), PXE_CERTIFICATE) in ground
    ensures PodReady(spec, ground, CoreNs(spec), PXEPod(spec))
  {
    AccountsListed(spec);
    ServicePodReady(spec, ground, PXEPlain(spec.tls));
  }

  lemma RLAReady(spec: Spec, ground: set<Obj>)
    requires CoreGround(spec, ground) && IsCertManagerMode(spec) && Enabled(spec.core.rla)
    requires DatabaseSecretThere(spec, ground, "rla")
    ensures PodReady(spec, ground, CoreNs(spec), RLAPod(spec))
  {
    AccountsListed(spec);
    ServicePodReady(spec, ground, RLAPlain(spec));
  }

  lemma PSMReady(spec: Spec, ground: set<Obj>)
    requires CoreGround(spec, ground) && IsCertManagerMode(spec) && Enabled(spec.core.psm)
    requires DatabaseSecretThere(spec, ground, "psm") && VaultSecretsThere(spec, ground)
    ensures PodReady(spec, ground, CoreNs(spec), PSMPod(spec))
  {
    AccountsListed(spec);
    assert ContainerReady(spec, ground, CoreNs(spec), PSMPlain(spec).containers[0]);
    ServicePodReady(spec, ground, PSMPlain(spec));
  }

  lemma PXEGuarded(spec: Spec, ns: string, given: set<Obj>)
    requires Home(ns) in given && Accepted(PXEPod(spec)) && PodReady(spec, given, ns, PXEPod(spec))
    ensures Guarded(spec, CoreTier.PXEPlan(spec, ns), given)
  {
    var plan, w := CoreTier.PXEPlan(spec, ns), Obj(Deployment, ns, PXE_NAME);
    var k := |plan| - 2;
    if spec.core.pxe.hasStorage {
      WriteBacked(spec, plan, 0, given, Obj(PersistentVolumeClaim, ns, "carbide-pxe-data"));
      PlannedHas(plan, 1, 0);
      assert Backed(spec, plan, 1, given);
    }
    ApplyBacked(spec, plan, k, given, w, PXEServer);
    PodReadyMonotone(spec, given, given + PlannedUpTo(plan, k + 1), ns, PXEPod(spec));
    AwaitBacked(spec, plan, k, k + 1, given, w, PXEServer);
  }

  lemma VaultPodsReady(spec: Spec, ns: string, ground: set<Obj>)
    requires Account(ns, VAULT_INSTALLER) in ground && Config(ns, "vault-helm-values") in ground
    ensures PodReady(spec, ground, ns, Template(spec, VaultHelm))
            && PodReady(spec, ground, ns, Template(spec, VaultInit))
  {
  }

  lemma VaultHelmBacked(spec: Spec, vault: VaultConfig, ns: string, given: set<Obj>)
    requires vault.mode == Managed && Home(ns) in given
    ensures Backed(spec, CoreTier.VaultPlan(vault, ns), 3, given)
    ensures Backed(spec, CoreTier.VaultPlan(vault, ns), 4, given)
  {
    var plan, helm := CoreTier.VaultPlan(vault, ns), Obj(Job, ns, "vault-helm-install");
    CorePodsAccepted(spec);
    ApplyBacked(spec, plan, 3, given, helm, VaultHelm);
    PlannedHas(plan, 4, 0);
    PlannedHas(plan, 4, 2);
    VaultPodsReady(spec, ns, given + PlannedUpTo(plan, 4));
    AwaitBacked(spec, plan, 3, 4, given, helm, VaultHelm);
  }

  lemma VaultInitBacked(spec: Spec, vault: VaultConfig, ns: string, given: set<Obj>)
    requires vault.mode == Managed && Home(ns) in given
    ensures Backed(spec, CoreTier.VaultPlan(vault, ns), 5, given)
    ensures Backed(spec, CoreTier.VaultPlan(vault, ns), 6, given)
  {
    var plan, init := CoreTier.VaultPlan(vault, ns), Obj(Job, ns, CoreTier.VAULT_INIT);
    CorePodsAccepted(spec);
    ApplyBacked(spec, plan, 5, given, init, VaultInit);
    PlannedHas(plan, 6, 0);
    PlannedHas(plan, 6, 2);
    VaultPodsReady(spec, ns, given + PlannedUpTo(plan, 6));
    AwaitBacked(spec, plan, 5, 6, given, init, VaultInit);
  }

  /** The steps of managed Vault: its installer's account and values come first. */
  lemma ManagedVaultGuarded(spec: Spec, vault: VaultConfig, ns: string, given: set<Obj>)
    requires vault.mode == Managed && Home(ns) in given
    ensures Guarded(spec, CoreTier.VaultPlan(vault, ns), given)
  {
    WritesFirst(spec, CoreTier.VaultPlan(vault, ns), 3, ns, given);
    VaultHelmBacked(spec, vault, ns, given);
    VaultInitBacked(spec, vault, ns, given);
  }

  lemma VaultGuarded(name: string, spec: Spec, ns: string, given: set<Obj>)
    requires Admitted(name, spec) && spec.core.vault.Some? && Home(ns) in given && ns == CoreNs(spec)
    requires VaultSecretsThere(spec, given)
    ensures Guarded(spec, CoreTier.VaultPlan(spec.core.vault.value, ns), given)
  {
    var vault := spec.core.vault.value;
    if vault.mode == Managed {
      ManagedVaultGuarded(spec, vault, ns, given);
    } else {
      var plan := CoreTier.VaultPlan(vault, ns);
      assert VaultSecrets(spec)[0] == vault.tokenSecretRef.value.name;
      ExistsMonotone(spec, given, given + PlannedUpTo(plan, 0), Secret(ns, VaultSecrets(spec)[0]));
    }
  }

  lemma CoreGroundGrows(spec: Spec, a: set<Obj>, b: set<Obj>)
    requires CoreGround(spec, a) && a <= b
    ensures CoreGround(spec, b)
  {
  }

  /** Once the Vault slot is done its secrets can come about. */
  lemma VaultInitWritten(spec: Spec, k: nat)
    requires HasCore(spec) && 5 < k <= |CoreTier.Slots(spec)| && VaultManaged(spec)
    ensures Obj(Job, CoreNs(spec), CoreTier.VAULT_INIT) in SlotObjects(CoreTier.Slots(spec), k)
  {
    var slots, plan := CoreTier.Slots(spec), CoreTier.VaultPlan(spec.core.vault.value, CoreNs(spec));
    assert slots[5].Some? && slots[5].value.plan == plan;
    PlannedHas(plan, |plan|, 5);
    SlotObjectsHave(slots, 5, k);
  }

  lemma RLAGuarded(spec: Spec, stage: set<Obj>, now: set<Obj>)
    requires CoreGround(spec, now) && IsCertManagerMode(spec) && Enabled(spec.core.rla) && stage <= now
    requires DatabaseSecretThere(spec, stage, "rla")
    ensures Guarded(spec, CoreTier.ServicePlan(CoreNs(spec), RLA_NAME, RLAServer), now)
  {
    var ns := CoreNs(spec);
    assert Accepted(Template(spec, RLAServer)) by { CorePodsAccepted(spec); }
    assert PodReady(spec, now, ns, Template(spec, RLAServer)) by {
      ExistsMonotone(spec, stage, now, Secret(ns, ResolveUserSecret(spec, "rla")));
      RLAReady(spec, now);
    }
    ServiceGuarded(spec, ns, RLA_NAME, RLAServer, now);
  }

  lemma PSMGuarded(spec: Spec, stage: set<Obj>, now: set<Obj>)
    requires CoreGround(spec, now) && IsCertManagerMode(spec) && Enabled(spec.core.psm) && stage <= now
    requires DatabaseSecretThere(spec, stage, "psm") && VaultSecretsThere(spec, stage)
    ensures Guarded(spec, CoreTier.ServicePlan(CoreNs(spec), PSM_NAME, PSMServer), now)
  {
    var ns := CoreNs(spec);
    assert Accepted(Template(spec, PSMServer)) by { CorePodsAccepted(spec); }
    assert PodReady(spec, now, ns, Template(spec, PSMServer)) by {
      ExistsMonotone(spec, stage, now, Secret(ns, ResolveUserSecret(spec, "psm")));
      VaultSecretsStay(spec, stage, now);
      PSMReady(spec, now);
    }
    ServiceGuarded(spec, ns, PSM_NAME, PSMServer, now);
  }

  /** RLA and PSM, behind Vault. */
  lemma BackendsGuarded(spec: Spec, existing: set<Obj>, ground: set<Obj>, k: nat)
    requires HasCore(spec) && CoreDeployable(spec, existing) && IsCertManagerMode(spec)
    requires CoreGround(spec, ground) && BeforeAPI(spec, existing) <= ground && 5 < k <= |CoreTier.Slots(spec)|
    ensures var now, ns := ground + SlotObjects(CoreTier.Slots(spec), k), CoreNs(spec);
            && (Enabled(spec.core.rla) ==> Guarded(spec, CoreTier.ServicePlan(ns, RLA_NAME, RLAServer), now))
            && (Enabled(spec.core.psm) ==> Guarded(spec, CoreTier.ServicePlan(ns, PSM_NAME, PSMServer), now))
  {
    var now := ground + SlotObjects(CoreTier.Slots(spec), k);
    assert AfterVault(spec, existing) <= now by { if VaultManaged(spec) { VaultInitWritten(spec, k); } }
    CoreGroundGrows(spec, ground, now);
    if Enabled(spec.core.rla) { RLAGuarded(spec, AfterVault(spec, existing), now); }
    if Enabled(spec.core.psm) {
      VaultSecretsStay(spec, BeforeAPI(spec, existing), AfterVault(spec, existing));
      PSMGuarded(spec, AfterVault(spec, existing), now);
    }
  }

  lemma VaultSecretsStay(spec: Spec, a: set<Obj>, b: set<Obj>)
    requires a <= b && VaultSecretsThere(spec, a)
    ensures VaultSecretsThere(spec, b)
  {
  }

  /** The API and what follows it directly. */
  lemma FrontsGuarded(name: string, spec: Spec, existing: set<Obj>, ground: set<Obj>)
    requires Admitted(name, spec) && HasCore(spec) && CoreDeployable(spec, existing) && IsCertManagerMode(spec)
    requires CoreGround(spec, ground) && BeforeAPI(spec, existing) <= ground
    ensures var ns := CoreNs(spec);
            && Guarded(spec, CoreTier.ServicePlan(ns, API_NAME, APIServer), ground)
            && Guarded(spec, CoreTier.DaemonPlan(ns, DHCP_NAME, DHCPServer), ground)
            && (spec.core.pxe.enabled ==> Guarded(spec, CoreTier.PXEPlan(spec, ns), ground))
            && (spec.core.dns.enabled ==> Guarded(spec, CoreTier.DaemonPlan(ns, DNS_NAME, DNSServer), ground))
            && (spec.core.vault.Some? ==> Guarded(spec, CoreTier.VaultPlan(spec.core.vault.value, ns), ground))
  {
    var ns := CoreNs(spec);
    CorePodsAccepted(spec);
    PXEAcceptedExactly(spec);
    ExistsMonotone(spec, BeforeAPI(spec, existing), ground, Secret(ns, ResolveUserSecret(spec, "carbide")));
    VaultSecretsStay(spec, BeforeAPI(spec, existing), ground);
    APIReady(spec, ground);
    ServiceGuarded(spec, ns, API_NAME, APIServer, ground);
    NetworkPodsReady(spec, ground);
    DaemonGuarded(spec, ns, DHCP_NAME, DHCPServer, ground);
    if spec.core.dns.enabled { DaemonGuarded(spec, ns, DNS_NAME, DNSServer, ground); }
    if spec.core.pxe.enabled {
      PXEReady(spec, ground);
      PXEGuarded(spec, ns, ground);
    }
    if spec.core.vault.Some? { VaultGuarded(name, spec, ns, ground); }
  }

  lemma CoreSlotsGuarded(name: string, spec: Spec, existing: set<Obj>, ground: set<Obj>)
    requires Admitted(name, spec) && HasCore(spec) && CoreDeployable(spec, existing) && IsCertManagerMode(spec)
    requires CoreGround(spec, ground) && BeforeAPI(spec, existing) <= ground
    ensures GuardedSlots(spec, CoreTier.Slots(spec), ground)
  {
    var slots := CoreTier.Slots(spec);
    FrontsGuarded(name, spec, existing, ground);
    BackendsGuarded(spec, existing, ground, 6);
    BackendsGuarded(spec, existing, ground, 7);
    forall i | 0 <= i < |slots| && slots[i].Some?
      ensures Guarded(spec, slots[i].value.plan, ground + SlotObjects(slots, i))
    {
      if 0 < i < 6 { GuardedMore(spec, slots[i].value.plan, ground, ground + SlotObjects(slots, i)); }
    }
  }

  // -------------------------------------------------------------------- REST

  /** What the infrastructure and core tiers have left when REST begins. */
  function BeforeRest(spec: Spec, existing: set<Obj>): set<Obj> {
    existing + InfrastructureObjects(spec) + CoreObjects(spec)
  }

  lemma CoreLeaves(name: string, spec: Spec, existing: set<Obj>)
    requires Admitted(name, spec) && spec.infrastructure.Some? && HasCore(spec) && IsCertManagerMode(spec)
    requires PasswordThere(spec, BeforeConfig(spec, existing), "carbide")
    ensures Home(CoreNs(spec)) in CoreObjects(spec) && CoreCertificates(spec) <= CoreObjects(spec)
    ensures Secret(CoreNs(spec), "carbide-api-secret") in CoreObjects(spec)
    ensures VaultManaged(spec) ==> Obj(Job, CoreNs(spec), CoreTier.VAULT_INIT) in CoreObjects(spec)
  {
    CorePreludeGuarded(name, spec, existing, existing + ManagedCluster(spec));
    if VaultManaged(spec) { VaultInitWritten(spec, |CoreTier.Slots(spec)|); }
  }

  /** Every earlier stage is covered by what the tiers before REST leave. */
  lemma StagesCovered(name: string, spec: Spec, existing: set<Obj>)
    requires Admitted(name, spec) && Deployable(spec, existing) && spec.rest.Some?
    ensures AfterVault(spec, existing) <= BeforeRest(spec, existing)
    ensures Home(CoreNs(spec)) in BeforeRest(spec, existing)
  {
    ClusterIsWritten(name, spec);
    if HasCore(spec) {
      PXEFollowsProfile(name, spec);
      CoreLeaves(name, spec, existing);
    }
  }

  /** What the pods of the REST tier find once its prelude is done. */
  ghost predicate RestGround(spec: Spec, ground: set<Obj>) {
    var ns := CoreNs(spec);
    && Home(ns) in ground
    && (forall n | n in RestTier.AccountNames() :: Account(ns, n) in ground)
    && (IsSpiffeMode(spec) ==> Config(ns, "spiffe-helper-config") in ground)
    && RestCertificates(spec) <= ground
    && Secret(ns, REST_SECRET) in ground && Config(ns, "carbide-rest-workflow-config") in ground
  }

  lemma RestTLSGuarded(name: string, spec: Spec, given: set<Obj>)
    requires Admitted(name, spec) && Home(CoreNs(spec)) in given
    ensures Guarded(spec, RestTier.TLSPlan(spec, CoreNs(spec)), given)
    ensures var p := Planned(RestTier.TLSPlan(spec, CoreNs(spec)));
            (IsSpiffeMode(spec) ==> Config(CoreNs(spec), "spiffe-helper-config") in p) && RestCertificates(spec) <= p
  {
    var ns := CoreNs(spec);
    var plan := RestTier.TLSPlan(spec, ns);
    TLSIsOn(name, spec);
    WritesGuarded(spec, plan, ns, given);
    if IsSpiffeMode(spec) {
      PlannedHas(plan, |plan|, 0);
    } else {
      CertificatesPlanned(RestTier.CertificateNames(), ns);
    }
  }

  lemma SecretsGuarded(spec: Spec, given: set<Obj>)
    requires Home(CoreNs(spec)) in given && PasswordThere(spec, given, "forge")
    ensures var plan, ns := RestTier.SecretsPlan(spec, CoreNs(spec)), CoreNs(spec);
            && Guarded(spec, plan, given)
            && Secret(ns, REST_SECRET) in Planned(plan) && Config(ns, "carbide-rest-workflow-config") in Planned(plan)
  {
    var plan, found := RestTier.SecretsPlan(spec, CoreNs(spec)), PasswordLookup(spec.infrastructure, "forge");
    ExistsMonotone(spec, given, given + PlannedUpTo(plan, 0), Secret(found.namespace, found.name));
    WriteBacked(spec, plan, 1, given, Secret(CoreNs(spec), REST_SECRET));
    WriteBacked(spec, plan, 2, given, Config(CoreNs(spec), "carbide-rest-workflow-config"));
    PlannedHas(plan, 3, 1);
    PlannedHas(plan, 3, 2);
  }

  lemma RestPreludeGuarded(name: string, spec: Spec, existing: set<Obj>)
    requires Admitted(name, spec) && Deployable(spec, existing) && spec.rest.Some?
    ensures Guarded(spec, RestTier.Prelude(spec), BeforeRest(spec, existing))
    ensures RestGround(spec, BeforeRest(spec, existing) + Planned(RestTier.Prelude(spec)))
  {
    var ns, given := CoreNs(spec), BeforeRest(spec, existing);
    var accounts, tls := CoreTier.AccountsPlan(RestTier.AccountNames(), ns), RestTier.TLSPlan(spec, ns);
    var secrets := RestTier.SecretsPlan(spec, ns);
    OneNamespace(name, spec);
    StagesCovered(name, spec, existing);
    WritesGuarded(spec, accounts, ns, given);
    AccountsPlanned(RestTier.AccountNames(), ns);
    RestTLSGuarded(name, spec, given + Planned(accounts));
    GuardedConcat(spec, accounts, tls, given);
    PlannedAppend(accounts, tls);
    var before, found := given + Planned(accounts + tls), PasswordLookup(spec.infrastructure, "forge");
    ExistsMonotone(spec, BeforeRestSecrets(spec, existing), before, Secret(found.namespace, found.name));
    SecretsGuarded(spec, before);
    GuardedConcat(spec, accounts + tls, secrets, given);
    PlannedAppend(accounts + tls, secrets);
  }

  /** A REST pod is ready once its account and its references are, and in cert-manager
      mode its account's secret. */
  lemma RestPodReady(spec: Spec, ground: set<Obj>, plain: Pod)
    requires RestGround(spec, ground) && plain.account != ""
    requires PodReady(spec, ground, CoreNs(spec), plain)
    requires plain.account in RestTier.CertificateNames()
             || (IsCertManagerMode(spec) ==> Exists(spec, ground, Secret(CoreNs(spec), plain.account + "-tls")))
    ensures PodReady(spec, ground, CoreNs(spec), Injected(spec.tls, plain))
  {
    if IsCertManagerMode(spec) && plain.account in RestTier.CertificateNames() {
      var names := RestTier.CertificateNames();
      var i :| 0 <= i < |names| && names[i] == plain.account;
      CertificateMakes(spec, ground, CoreNs(spec), names[i]);
    }
    InjectedReady(spec, ground, CoreNs(spec), plain);
  }

  lemma TemporalGuarded(name: string, spec: Spec, existing: set<Obj>, ground: set<Obj>)
    requires Admitted(name, spec) && spec.infrastructure.Some? && spec.rest.Some?
    requires TemporalManaged(spec) ==> TemporalDeployable(spec, existing)
    requires RestGround(spec, ground) && AfterRestSecrets(spec, existing) <= ground
    ensures Guarded(spec, RestTier.TemporalPlan(spec, spec.rest.value.temporal, CoreNs(spec)), ground)
  {
    if spec.rest.value.temporal.mode != External { ManagedTemporalGuarded(spec, existing, ground); }
  }

  lemma ManagedTemporalGuarded(spec: Spec, existing: set<Obj>, ground: set<Obj>)
    requires spec.infrastructure.Some? && spec.rest.Some? && TemporalManaged(spec) && TemporalDeployable(spec, existing)
    requires !CoreTier.ConnectionMissing(spec) && Home(CoreNs(spec)) in ground
    requires AfterRestSecrets(spec, existing) <= ground
    ensures Guarded(spec, RestTier.TemporalPlan(spec, spec.rest.value.temporal, CoreNs(spec)), ground)
  {
    var ns, temporal := CoreNs(spec), spec.rest.value.temporal;
    var plan, helm := RestTier.TemporalPlan(spec, temporal, ns), Obj(Job, ns, "temporal-helm-install");
    var values := Config(ns, "temporal-helm-values");
    assert Accepted(Template(spec, TemporalHelm)) by { RestPodsAccepted(spec, ""); }
    assert Backed(spec, plan, 0, ground) by { WriteBacked(spec, plan, 0, ground, values); }
    assert Backed(spec, plan, 1, ground) by { ApplyBacked(spec, plan, 1, ground, helm, TemporalHelm); }
    assert Backed(spec, plan, 2, ground) by {
      PlannedHas(plan, 2, 0);
      HelmPodReady(spec, ns, ground + PlannedUpTo(plan, 2));
      AwaitBacked(spec, plan, 1, 2, ground, helm, TemporalHelm);
    }
    assert Backed(spec, plan, 3, ground) by {
      PlannedHas(plan, 3, 1);
      ReleaseReady(spec, existing, ground + PlannedUpTo(plan, 3), helm);
    }
  }

  lemma HelmPodReady(spec: Spec, ns: string, ground: set<Obj>)
    requires Account(ns, TEMPORAL_INSTALLER) in ground && Config(ns, "temporal-helm-values") in ground
    ensures PodReady(spec, ground, ns, Template(spec, TemporalHelm))
  {
  }

  lemma ReleaseReady(spec: Spec, existing: set<Obj>, ground: set<Obj>, helm: Obj)
    requires spec.rest.Some? && TemporalDeployable(spec, existing)
    requires AfterRestSecrets(spec, existing) <= ground && helm in ground
    ensures forall x | x in RestTier.ReleaseNeeds(spec, spec.rest.value.temporal, helm) :: Exists(spec, ground, x)
  {
    var secret := RestTier.TemporalSecret(spec);
    if secret != "" {
      ExistsMonotone(spec, AfterRestSecrets(spec, existing), ground,
                     Secret(RestTier.ReleaseNamespace(spec.rest.value.temporal), secret));
    }
  }

  lemma {:induction false} ProvidersGuarded(spec: Spec, providers: seq<AuthProvider>, k: nat, ground: set<Obj>)
    requires k <= |providers| && ProvidersThere(spec, ground, providers)
    ensures Guarded(spec, RestTier.ProvidersPlan(providers, CoreNs(spec), k), ground)
  {
    if k > 0 {
      ProvidersGuarded(spec, providers, k - 1, ground);
      var before := RestTier.ProvidersPlan(providers, CoreNs(spec), k - 1);
      if providers[k - 1].clientSecretRef.Some? {
        var secret := providers[k - 1].clientSecretRef.value.name;
        var last := [Must(SecretRead(CoreNs(spec), secret))];
        ExistsMonotone(spec, ground, ground + Planned(before) + PlannedUpTo(last, 0), Secret(CoreNs(spec), secret));
        GuardedConcat(spec, before, last, ground);
      } else {
        assert before + [] == before;
      }
    }
  }

  lemma KeycloakGuarded(name: string, spec: Spec, existing: set<Obj>, ground: set<Obj>)
    requires Admitted(name, spec) && spec.rest.Some? && KeycloakDeployable(spec, existing)
    requires RestGround(spec, ground) && AfterRestSecrets(spec, existing) <= ground
    ensures Guarded(spec, RestTier.KeycloakPlan(spec.rest.value.keycloak, CoreNs(spec)), ground)
  {
    var ns, keycloak := CoreNs(spec), spec.rest.value.keycloak;
    if keycloak.mode == AuthExternal {
      ProvidersStay(spec, AfterRestSecrets(spec, existing), ground, keycloak.providers);
      ProvidersGuarded(spec, keycloak.providers, |keycloak.providers|, ground);
    } else if KeycloakManaged(spec) {
      var plan := RestTier.KeycloakPlan(keycloak, ns);
      WriteBacked(spec, plan, 1, ground, Obj(KeycloakInstance, ns, "keycloak"));
      WriteBacked(spec, plan, 2, ground, Obj(KeycloakRealmImport, ns, "keycloak-" + keycloak.realm));
      assert RestTier.KeycloakPolled(ns) in ground + PlannedUpTo(plan, 3);
    }
  }

  lemma ProvidersStay(spec: Spec, a: set<Obj>, b: set<Obj>, providers: seq<AuthProvider>)
    requires a <= b && ProvidersThere(spec, a, providers)
    ensures ProvidersThere(spec, b, providers)
  {
  }

  lemma SetupGuarded(spec: Spec, ns: string, ground: set<Obj>)
    requires Home(ns) in ground
    ensures Guarded(spec, RestTier.TemporalSetupPlan(ns), ground)
  {
    var plan, job := RestTier.TemporalSetupPlan(ns), Obj(Job, ns, "temporal-namespace-init");
    RestPodsAccepted(spec, "");
    ApplyBacked(spec, plan, 0, ground, job, TemporalInit);
    AwaitBacked(spec, plan, 0, 1, ground, job, TemporalInit);
  }

  lemma RestAPIGuarded(spec: Spec, ground: set<Obj>)
    requires RestGround(spec, ground)
    ensures Guarded(spec, RestTier.RestAPIPlan(CoreNs(spec)), ground)
  {
    var ns := CoreNs(spec);
    var plan, w := RestTier.RestAPIPlan(ns), Obj(Deployment, ns, REST_API_NAME);
    var config := Config(ns, "carbide-rest-api-config");
    assert Accepted(Template(spec, RestServer)) by { RestPodsAccepted(spec, ""); }
    assert Backed(spec, plan, 0, ground) by { WriteBacked(spec, plan, 0, ground, config); }
    assert Backed(spec, plan, 1, ground) by { ApplyBacked(spec, plan, 1, ground, w, RestServer); }
    assert Backed(spec, plan, 2, ground) by { WriteBacked(spec, plan, 2, ground, Obj(Service, ns, REST_API_NAME)); }
    assert Backed(spec, plan, 3, ground) by {
      PlannedHas(plan, 3, 0);
      RestAPIReady(spec, ground + PlannedUpTo(plan, 3));
      AwaitBacked(spec, plan, 1, 3, ground, w, RestServer);
    }
  }

  lemma RestAPIReady(spec: Spec, now: set<Obj>)
    requires RestGround(spec, now) && Config(CoreNs(spec), "carbide-rest-api-config") in now
    ensures PodReady(spec, now, CoreNs(spec), RestAPIPod(spec))
  {
    assert RestTier.AccountNames()[0] == REST_API_NAME && RestTier.CertificateNames()[0] == REST_API_NAME;
    RestPodReady(spec, now, RestAPIPlain());
  }

  lemma WorkerReady(spec: Spec, ground: set<Obj>, worker: string)
    requires worker == CLOUD_WORKER_NAME || worker == SITE_WORKER_NAME
    requires RestGround(spec, ground) && Secret(CoreNs(spec), ENCRYPTION_KEY) in ground
    requires Exists(spec, ground, Secret(CoreNs(spec), WORKER_DATABASE_SECRET))
    ensures PodReady(spec, ground, CoreNs(spec), WorkerPod(spec, worker))
  {
    assert RestTier.AccountNames()[1] == CLOUD_WORKER_NAME && RestTier.AccountNames()[2] == SITE_WORKER_NAME;
    assert RestTier.CertificateNames()[1] == CLOUD_WORKER_NAME && RestTier.CertificateNames()[2] == SITE_WORKER_NAME;
    RestPodReady(spec, ground, WorkerPlain(worker));
  }

  lemma WorkerGuarded(spec: Spec, ground: set<Obj>, worker: string, pod: Workload)
    requires worker == CLOUD_WORKER_NAME || worker == SITE_WORKER_NAME
    requires Template(spec, pod) == WorkerPod(spec, worker)
    requires RestGround(spec, ground) && Secret(CoreNs(spec), ENCRYPTION_KEY) in ground
    requires Exists(spec, ground, Secret(CoreNs(spec), WORKER_DATABASE_SECRET))
    ensures Guarded(spec, RestTier.WorkerPlan(CoreNs(spec), worker, pod), ground)
  {
    var ns := CoreNs(spec);
    var plan, w := RestTier.WorkerPlan(ns, worker, pod), Obj(Deployment, ns, worker);
    RestPodsAccepted(spec, worker);
    ApplyBacked(spec, plan, 0, ground, w, pod);
    WorkerReady(spec, ground, worker);
    PodReadyMonotone(spec, ground, ground + PlannedUpTo(plan, 1), ns, Template(spec, pod));
    AwaitBacked(spec, plan, 0, 1, ground, w, pod);
  }

  lemma WorkersGuarded(spec: Spec, existing: set<Obj>, ground: set<Obj>)
    requires RestGround(spec, ground) && AfterRestSecrets(spec, existing) <= ground
    requires Secret(CoreNs(spec), ENCRYPTION_KEY) in existing
    requires Exists(spec, AfterRestSecrets(spec, existing), Secret(CoreNs(spec), WORKER_DATABASE_SECRET))
    ensures Guarded(spec, RestTier.WorkerPlan(CoreNs(spec), CLOUD_WORKER_NAME, CloudRunner), ground)
    ensures Guarded(spec, RestTier.WorkerPlan(CoreNs(spec), SITE_WORKER_NAME, SiteRunner), ground)
  {
    ExistsMonotone(spec, AfterRestSecrets(spec, existing), ground, Secret(CoreNs(spec), WORKER_DATABASE_SECRET));
    WorkerGuarded(spec, ground, CLOUD_WORKER_NAME, CloudRunner);
    WorkerGuarded(spec, ground, SITE_WORKER_NAME, SiteRunner);
  }

  lemma SiteManagerReady(spec: Spec, now: set<Obj>)
    requires RestGround(spec, now) && Account(CoreNs(spec), SITE_MANAGER_NAME) in now
    ensures PodReady(spec, now, CoreNs(spec), SiteManagerPod(spec))
  {
    assert RestTier.CertificateNames()[3] == SITE_MANAGER_NAME;
    RestPodReady(spec, now, SiteManagerPlain());
  }

  lemma SiteManagerGuarded(spec: Spec, ground: set<Obj>)
    requires RestGround(spec, ground)
    ensures Guarded(spec, RestTier.SiteManagerPlan(CoreNs(spec)), ground)
  {
    var ns := CoreNs(spec);
    var plan := RestTier.SiteManagerPlan(ns);
    var w, account := Obj(Deployment, ns, SITE_MANAGER_NAME), Account(ns, SITE_MANAGER_NAME);
    assert Accepted(Template(spec, Manager)) by { RestPodsAccepted(spec, ""); }
    WritesFirst(spec, plan, 3, ns, ground);
    assert Backed(spec, plan, 3, ground) by { ApplyBacked(spec, plan, 3, ground, w, Manager); }
    assert Backed(spec, plan, 4, ground) by { WriteBacked(spec, plan, 4, ground, Obj(Service, ns, SITE_MANAGER_NAME)); }
    assert Backed(spec, plan, 5, ground) by {
      PlannedHas(plan, 5, 0);
      SiteManagerReady(spec, ground + PlannedUpTo(plan, 5));
      AwaitBacked(spec, plan, 3, 5, ground, w, Manager);
    }
  }

  lemma SiteAgentReady(spec: Spec, existing: set<Obj>, now: set<Obj>)
    requires SiteAgentDeployable(spec, existing) && RestGround(spec, now) && AfterRestSecrets(spec, existing) <= now
    requires Config(CoreNs(spec), "carbide-rest-site-agent-config") in now
    ensures PodReady(spec, now, CoreNs(spec), SiteAgentPod(spec))
  {
    if IsCertManagerMode(spec) {
      ExistsMonotone(spec, AfterRestSecrets(spec, existing), now, Secret(CoreNs(spec), SITE_AGENT_NAME + "-tls"));
    }
    RestPodReady(spec, now, SiteAgentPlain());
  }

  lemma SiteAgentGuarded(spec: Spec, existing: set<Obj>, ground: set<Obj>)
    requires SiteAgentDeployable(spec, existing) && RestGround(spec, ground)
             && AfterRestSecrets(spec, existing) <= ground
    ensures Guarded(spec, RestTier.SiteAgentPlan(CoreNs(spec)), ground)
  {
    var ns := CoreNs(spec);
    var plan, w := RestTier.SiteAgentPlan(ns), Obj(Deployment, ns, SITE_AGENT_NAME);
    var config := Config(ns, "carbide-rest-site-agent-config");
    assert Accepted(Template(spec, Agent)) by { RestPodsAccepted(spec, ""); }
    assert Backed(spec, plan, 0, ground) by { WriteBacked(spec, plan, 0, ground, config); }
    assert Backed(spec, plan, 1, ground) by { ApplyBacked(spec, plan, 1, ground, w, Agent); }
    assert Backed(spec, plan, 2, ground) by {
      PlannedHas(plan, 2, 0);
      SiteAgentReady(spec, existing, ground + PlannedUpTo(plan, 2));
      AwaitBacked(spec, plan, 1, 2, ground, w, Agent);
    }
  }

  lemma RestSlotsGuarded(name: string, spec: Spec, existing: set<Obj>, ground: set<Obj>)
    requires Admitted(name, spec) && Deployable(spec, existing) && spec.rest.Some?
    requires RestGround(spec, ground) && AfterRestSecrets(spec, existing) <= ground
    ensures GuardedSlots(spec, RestTier.Slots(spec), ground)
  {
    var slots, ns := RestTier.Slots(spec), CoreNs(spec);
    OneNamespace(name, spec);
    TemporalGuarded(name, spec, existing, ground);
    KeycloakGuarded(name, spec, existing, ground);
    SetupGuarded(spec, ns, ground);
    RestAPIGuarded(spec, ground);
    WorkersGuarded(spec, existing, ground);
    SiteManagerGuarded(spec, ground);
    if SiteAgentEnabled(spec) { SiteAgentGuarded(spec, existing, ground); }
    forall i | 0 <= i < |slots| && slots[i].Some?
      ensures Guarded(spec, slots[i].value.plan, ground + SlotObjects(slots, i))
    {
      GuardedMore(spec, slots[i].value.plan, ground, ground + SlotObjects(slots, i));
    }
  }

  // ----------------------------------------------------------- the two tiers

  /** The core tier of a deployable spec is guarded throughout. */
  lemma CoreIsGuarded(name: string, spec: Spec, existing: set<Obj>)
    requires Admitted(name, spec) && Deployable(spec, existing) && HasCore(spec)
    ensures var given := existing + InfrastructureObjects(spec);
            && Guarded(spec, CoreTier.Prelude(spec), given)
            && GuardedSlots(spec, CoreTier.Slots(spec), given + Planned(CoreTier.Prelude(spec)))
  {
    var given := existing + InfrastructureObjects(spec);
    var ground := given + Planned(CoreTier.Prelude(spec));
    PXEFollowsProfile(name, spec);
    ClusterIsWritten(name, spec);
    CorePreludeGuarded(name, spec, existing, given);
    CoreGroundGrows(spec, Planned(CoreTier.Prelude(spec)), ground);
    CoreSlotsGuarded(name, spec, existing, ground);
  }

  /** The REST tier of a deployable spec is guarded throughout. */
  lemma RestIsGuarded(name: string, spec: Spec, existing: set<Obj>)
    requires Admitted(name, spec) && Deployable(spec, existing) && RestEnabled(spec)
    ensures var given := BeforeRest(spec, existing);
            && Guarded(spec, RestTier.Prelude(spec), given)
            && GuardedSlots(spec, RestTier.Slots(spec), given + Planned(RestTier.Prelude(spec)))
  {
    var given := BeforeRest(spec, existing);
    StagesCovered(name, spec, existing);
    RestPreludeGuarded(name, spec, existing);
    RestSlotsGuarded(name, spec, existing, given + Planned(RestTier.Prelude(spec)));
  }
}
