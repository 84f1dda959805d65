/** Everything that a tier creates, object by object. */
module Inventory {
  import opened Api
  import opened Gates
  import opened Admission
  import opened CorePods
  import opened RestPods
  import opened Supply
  import opened Progress
  import opened Agreements
  import opened Deployability
  import opened Guards
  import InfrastructureTier
  import CoreTier
  import RestTier

  // ------------------------------------------------------------ membership

  lemma {:induction false} PlannedIff(plan: seq<Action>, k: nat, x: Obj)
    requires k <= |plan|
    ensures x in PlannedUpTo(plan, k) <==> exists i | 0 <= i < k :: Puts(plan[i]) == Some(x)
  {
    if k > 0 { PlannedIff(plan, k - 1, x); }
  }

  predicate Writes(plan: seq<Action>, x: Obj) { exists i | 0 <= i < |plan| :: Puts(plan[i]) == Some(x) }

  lemma WritesIff(plan: seq<Action>, x: Obj)
    ensures x in Planned(plan) <==> Writes(plan, x)
  {
    PlannedIff(plan, |plan|, x);
  }

  lemma WritesEither(a: seq<Action>, b: seq<Action>, x: Obj)
    ensures Writes(a + b, x) <==> Writes(a, x) || Writes(b, x)
  {
    PlannedAppend(a, b);
    WritesIff(a, x);
    WritesIff(b, x);
    WritesIff(a + b, x);
  }

  lemma {:induction false} SlotsWrite(slots: seq<Slot>, k: nat, x: Obj)
    requires k <= |slots|
    ensures x in SlotObjects(slots, k) <==>
            exists i | 0 <= i < k :: slots[i].Some? && Writes(slots[i].value.plan, x)
  {
    if k > 0 {
      SlotsWrite(slots, k - 1, x);
      if slots[k - 1].Some? { WritesIff(slots[k - 1].value.plan, x); }
    }
  }

  // -------------------------------------------------------------------- core

  /** The components with an account, and so with an identity or a certificate. */
  predicate CoreAccount(spec: Spec, name: string) {
    || name in {"carbide-api", "carbide-dhcp", "carbide-dns", "carbide-pxe"}
    || (Enabled(spec.core.rla) && name == "carbide-rla")
    || (Enabled(spec.core.psm) && name == "carbide-psm")
  }

  lemma CoreAccounts(spec: Spec, name: string)
    ensures name in CoreTier.AccountNames(spec) <==> CoreAccount(spec, name)
  {
  }

  lemma AccountsWrite(spec: Spec, names: seq<string>, ns: string, x: Obj)
    ensures Writes(CoreTier.AccountsPlan(names, ns), x)
            <==> x.kind == ServiceAccount && x.namespace == ns && x.name in names
    ensures Writes(CoreTier.IdentitiesPlan(names), x)
            <==> x.kind == ClusterSPIFFEID && x.namespace == "" && x.name in names
    ensures Writes(CoreTier.CertificatesPlan(names, ns), x)
            <==> x.kind == Certificate && x.namespace == ns && exists name :: name in names && x.name == name + "-cert"
    ensures !Writes(CoreTier.CertificateWaits(names, ns), x)
  {
    if x.name in names {
      var i :| 0 <= i < |names| && names[i] == x.name;
      assert CoreTier.AccountsPlan(names, ns)[i] == Must(Write(Obj(ServiceAccount, ns, x.name)));
      assert CoreTier.IdentitiesPlan(names)[i] == Must(Write(Obj(ClusterSPIFFEID, "", x.name)));
    }
    if name :| name in names && x.name == name + "-cert" {
      var i :| 0 <= i < |names| && names[i] == name;
      assert CoreTier.CertificatesPlan(names, ns)[i] == Must(Write(Obj(Certificate, ns, x.name)));
    }
  }

  lemma CoreTLSWrites(spec: Spec, ns: string, x: Obj)
    requires IsCertManagerMode(spec) ==> spec.tls.value.certManager.Some?
    ensures Writes(CoreTier.TLSPlan(spec, ns), x) <==>
            || (IsSpiffeMode(spec) && x == Obj(ConfigMap, ns, "spiffe-helper-config"))
            || (IsSpiffeMode(spec) && x.kind == ClusterSPIFFEID && x.namespace == "" && CoreAccount(spec, x.name))
            || (IsCertManagerMode(spec) && x.kind == Certificate && x.namespace == ns
                && exists name :: CoreAccount(spec, name) && x.name == name + "-cert")
  {
    var names, cm := CoreTier.AccountNames(spec), [Must(Write(Obj(ConfigMap, ns, "spiffe-helper-config")))];
    AccountsWrite(spec, names, ns, x);
    WritesEither(cm, CoreTier.IdentitiesPlan(names), x);
    WritesEither(CoreTier.CertificatesPlan(names, ns), CoreTier.CertificateWaits(names, ns), x);
    forall name ensures name in names <==> CoreAccount(spec, name) { CoreAccounts(spec, name); }
    assert Writes(cm, x) <==> Puts(cm[0]) == Some(x);
  }

  lemma CoreConfigWrites(spec: Spec, ns: string, x: Obj)
    requires spec.infrastructure.Some? && !CoreTier.ConnectionMissing(spec)
    ensures Writes(CoreTier.ConfigPlan(spec, ns), x) <==>
            || x in {Obj(ConfigMap, ns, "carbide-api-config"), Obj(ConfigMap, ns, "casbin-policy"),
                     Obj(SecretObject, ns, "carbide-api-secret")}
            || (spec.core.dns.enabled && x == Obj(ConfigMap, ns, "carbide-dns-config"))
  {
    var plan := CoreTier.ConfigPlan(spec, ns);
    assert Puts(plan[0]) == Some(Obj(ConfigMap, ns, "carbide-api-config"));
    assert Puts(plan[1]) == Some(Obj(ConfigMap, ns, "casbin-policy"));
    assert spec.core.dns.enabled ==> Puts(plan[2]) == Some(Obj(ConfigMap, ns, "carbide-dns-config"));
    assert Puts(plan[|plan| - 1]) == Some(Obj(SecretObject, ns, "carbide-api-secret"));
  }

  lemma ServiceWrites(ns: string, name: string, pod: Workload, x: Obj)
    ensures Writes(CoreTier.ServicePlan(ns, name, pod), x)
            <==> x in {Obj(Deployment, ns, name), Obj(Service, ns, name)}
    ensures Writes(CoreTier.DaemonPlan(ns, name, pod), x) <==> x == Obj(DaemonSet, ns, name)
  {
    var plan, daemon := CoreTier.ServicePlan(ns, name, pod), CoreTier.DaemonPlan(ns, name, pod);
    assert Puts(plan[0]) == Some(Obj(Deployment, ns, name)) && Puts(plan[1]) == Some(Obj(Service, ns, name));
    assert Puts(daemon[0]) == Some(Obj(DaemonSet, ns, name));
  }

  lemma PXEWrites(spec: Spec, ns: string, x: Obj)
    ensures Writes(CoreTier.PXEPlan(spec, ns), x) <==>
            || x == Obj(Deployment, ns, "carbide-pxe")
            || (spec.core.pxe.hasStorage && x == Obj(PersistentVolumeClaim, ns, "carbide-pxe-data"))
  {
    var plan := CoreTier.PXEPlan(spec, ns);
    assert Puts(plan[|plan| - 2]) == Some(Obj(Deployment, ns, "carbide-pxe"));
    assert spec.core.pxe.hasStorage ==> Puts(plan[0]) == Some(Obj(PersistentVolumeClaim, ns, "carbide-pxe-data"));
  }

  lemma VaultWrites(vault: VaultConfig, ns: string, x: Obj)
    ensures Writes(CoreTier.VaultPlan(vault, ns), x) <==>
            && vault.mode == Managed
            && x in {Obj(ServiceAccount, ns, "vault-helm-installer"), Obj(ConfigMap, ns, "vault-helm-values"),
                     Obj(ClusterRoleBinding, "", "vault-helm-installer-" + ns),
                     Obj(Job, ns, "vault-helm-install"), Obj(Job, ns, "vault-init")}
  {
    var plan := CoreTier.VaultPlan(vault, ns);
    if vault.mode == Managed {
      assert Puts(plan[0]) == Some(Obj(ServiceAccount, ns, "vault-helm-installer"));
      assert Puts(plan[1]) == Some(Obj(ClusterRoleBinding, "", "vault-helm-installer-" + ns));
      assert Puts(plan[2]) == Some(Obj(ConfigMap, ns, "vault-helm-values"));
      assert Puts(plan[3]) == Some(Obj(Job, ns, "vault-helm-install"));
      assert Puts(plan[5]) == Some(Obj(Job, ns, "vault-init"));
    }
  }

  lemma CorePreludeWrites(spec: Spec, x: Obj)
    requires HasCore(spec) && spec.infrastructure.Some? && !CoreTier.ConnectionMissing(spec)
    requires IsCertManagerMode(spec) ==> spec.tls.value.certManager.Some?
    ensures var ns := CoreTier.TierNamespace(spec);
            Writes(CoreTier.Prelude(spec), x) <==>
            || x == Obj(Namespace, "", ns)
            || (x.kind == ServiceAccount && x.namespace == ns && CoreAccount(spec, x.name))
            || Writes(CoreTier.TLSPlan(spec, ns), x) || Writes(CoreTier.ConfigPlan(spec, ns), x)
  {
    var ns, names := CoreTier.TierNamespace(spec), CoreTier.AccountNames(spec);
    var home, accounts := [Must(Write(Obj(Namespace, "", ns)))], CoreTier.AccountsPlan(names, ns);
    var tls, config := CoreTier.TLSPlan(spec, ns), CoreTier.ConfigPlan(spec, ns);
    WritesEither(home + accounts + tls, config, x);
    WritesEither(home + accounts, tls, x);
    WritesEither(home, accounts, x);
    AccountsWrite(spec, names, ns, x);
    CoreAccounts(spec, x.name);
    assert Writes(home, x) <==> Puts(home[0]) == Some(x);
  }

  predicate SlotWrites(slot: Slot, x: Obj) { slot.Some? && Writes(slot.value.plan, x) }

  lemma EightSlots(slots: seq<Slot>, x: Obj)
    requires |slots| == 8
    ensures x in SlotObjects(slots, 8) <==>
            || SlotWrites(slots[0], x) || SlotWrites(slots[1], x) || SlotWrites(slots[2], x) || SlotWrites(slots[3], x)
            || SlotWrites(slots[4], x) || SlotWrites(slots[5], x) || SlotWrites(slots[6], x) || SlotWrites(slots[7], x)
  {
    SlotsWrite(slots, 8, x);
    assert x in SlotObjects(slots, 8) <==> exists i | 0 <= i < 8 :: SlotWrites(slots[i], x);
  }

  lemma CoreSlotsWrite(spec: Spec, x: Obj)
    requires HasCore(spec)
    ensures var ns, slots := CoreTier.TierNamespace(spec), CoreTier.Slots(spec);
            x in SlotObjects(slots, |slots|) <==>
            || x in {Obj(Deployment, ns, "carbide-api"), Obj(Service, ns, "carbide-api")}
            || (spec.core.dhcpEnabled && x == Obj(DaemonSet, ns, "carbide-dhcp"))
            || (spec.core.pxe.enabled && Writes(CoreTier.PXEPlan(spec, ns), x))
            || (spec.core.dns.enabled && x == Obj(DaemonSet, ns, "carbide-dns"))
            || (spec.core.vault.Some? && Writes(CoreTier.VaultPlan(spec.core.vault.value, ns), x))
            || (Enabled(spec.core.rla) && x in {Obj(Deployment, ns, "carbide-rla"), Obj(Service, ns, "carbide-rla")})
            || (Enabled(spec.core.psm) && x in {Obj(Deployment, ns, "carbide-psm"), Obj(Service, ns, "carbide-psm")})
  {
    var ns := CoreTier.TierNamespace(spec);
    EightSlots(CoreTier.Slots(spec), x);
    ServiceWrites(ns, API_NAME, APIServer, x);
    ServiceWrites(ns, DHCP_NAME, DHCPServer, x);
    ServiceWrites(ns, DNS_NAME, DNSServer, x);
    ServiceWrites(ns, RLA_NAME, RLAServer, x);
    ServiceWrites(ns, PSM_NAME, PSMServer, x);
  }

  ghost predicate CorePreludeCreates(spec: Spec, x: Obj) {
    var ns := CoreTier.TierNamespace(spec);
    || x == Obj(Namespace, "", ns)
    || (x.kind == ServiceAccount && x.namespace == ns && CoreAccount(spec, x.name))
    || (IsSpiffeMode(spec) && x == Obj(ConfigMap, ns, "spiffe-helper-config"))
    || (IsSpiffeMode(spec) && x.kind == ClusterSPIFFEID && x.namespace == "" && CoreAccount(spec, x.name))
    || (IsCertManagerMode(spec) && x.kind == Certificate && x.namespace == ns
        && exists name :: CoreAccount(spec, name) && x.name == name + "-cert")
    || x in {Obj(ConfigMap, ns, "carbide-api-config"), Obj(ConfigMap, ns, "casbin-policy"),
             Obj(SecretObject, ns, "carbide-api-secret")}
    || (spec.core.dns.enabled && x == Obj(ConfigMap, ns, "carbide-dns-config"))
  }

  lemma CorePreludeCreatesExactly(name: string, spec: Spec, x: Obj)
    requires Admitted(name, spec) && spec.infrastructure.Some? && HasCore(spec)
    ensures x in Planned(CoreTier.Prelude(spec)) <==> CorePreludeCreates(spec, x)
  {
    TLSIsOn(name, spec);
    WritesIff(CoreTier.Prelude(spec), x);
    CorePreludeWrites(spec, x);
    CoreTLSWrites(spec, CoreTier.TierNamespace(spec), x);
    CoreConfigWrites(spec, CoreTier.TierNamespace(spec), x);
  }

  predicate CoreSlotsCreate(spec: Spec, x: Obj) {
    var ns := CoreTier.TierNamespace(spec);
    || x in {Obj(Deployment, ns, "carbide-api"), Obj(Service, ns, "carbide-api")}
    || (spec.core.dhcpEnabled && x == Obj(DaemonSet, ns, "carbide-dhcp"))
    || (spec.core.pxe.enabled && x == Obj(Deployment, ns, "carbide-pxe"))
    || (spec.core.pxe.enabled && spec.core.pxe.hasStorage && x == Obj(PersistentVolumeClaim, ns, "carbide-pxe-data"))
    || (spec.core.dns.enabled && x == Obj(DaemonSet, ns, "carbide-dns"))
    || (VaultManaged(spec)
        && x in {Obj(ServiceAccount, ns, "vault-helm-installer"), Obj(ConfigMap, ns, "vault-helm-values"),
                 Obj(ClusterRoleBinding, "", "vault-helm-installer-" + ns),
                 Obj(Job, ns, "vault-helm-install"), Obj(Job, ns, "vault-init")})
    || (Enabled(spec.core.rla) && x in {Obj(Deployment, ns, "carbide-rla"), Obj(Service, ns, "carbide-rla")})
    || (Enabled(spec.core.psm) && x in {Obj(Deployment, ns, "carbide-psm"), Obj(Service, ns, "carbide-psm")})
  }

  lemma CoreSlotsCreateExactly(spec: Spec, x: Obj)
    requires HasCore(spec)
    ensures x in SlotObjects(CoreTier.Slots(spec), |CoreTier.Slots(spec)|) <==> CoreSlotsCreate(spec, x)
  {
    var ns := CoreTier.TierNamespace(spec);
    CoreSlotsWrite(spec, x);
    PXEWrites(spec, ns, x);
    if spec.core.vault.Some? { VaultWrites(spec.core.vault.value, ns, x); }
  }

  /** Everything the core tier creates. */
  ghost predicate CoreCreates(spec: Spec, x: Obj) { CorePreludeCreates(spec, x) || CoreSlotsCreate(spec, x) }

  /** The core tier calls for these objects and no others. */
  lemma CoreCreatesExactly(name: string, spec: Spec, x: Obj)
    requires Admitted(name, spec) && spec.infrastructure.Some?
    ensures x in CoreObjects(spec) <==> HasCore(spec) && CoreCreates(spec, x)
  {
    if HasCore(spec) {
      CorePreludeCreatesExactly(name, spec, x);
      CoreSlotsCreateExactly(spec, x);
    }
  }

  /** When the core tier is ready, exactly these were accepted in that pass. */
  lemma CoreReadyMeansCreated(o: Oracle, name: string, spec: Spec, x: Obj)
    requires Admitted(name, spec) && spec.infrastructure.Some? && HasCore(spec) && CoreTier.Run(o, spec).status.ready
    ensures x in Landed(o, CoreTier.Run(o, spec).log) <==> CoreCreates(spec, x)
  {
    CoreTier.SlotsWellFormed(spec);
    TierLanded(o, CoreTier.Prelude(spec), CoreTier.Slots(spec));
    CoreCreatesExactly(name, spec, x);
  }

  // -------------------------------------------------------------------- REST

  const REST_ACCOUNTS := {"carbide-rest-api", "carbide-rest-cloud-worker", "carbide-rest-site-worker"}

  ghost predicate RestPreludeCreates(spec: Spec, x: Obj) {
    var ns := RestTier.TierNamespace(spec);
    || (x.kind == ServiceAccount && x.namespace == ns && x.name in REST_ACCOUNTS)
    || (IsSpiffeMode(spec) && x == Obj(ConfigMap, ns, "spiffe-helper-config"))
    || (IsSpiffeMode(spec) && x.kind == ClusterSPIFFEID && x.namespace == ""
        && x.name in REST_ACCOUNTS + {"temporal", "carbide-rest-site-manager"})
    || (IsCertManagerMode(spec) && x.kind == Certificate && x.namespace == ns
        && exists name :: name in REST_ACCOUNTS + {"carbide-rest-site-manager"} && x.name == name + "-cert")
    || x in {Obj(SecretObject, ns, "carbide-rest-api-secret"), Obj(ConfigMap, ns, "carbide-rest-workflow-config")}
  }

  predicate RestSlotsCreate(spec: Spec, x: Obj)
    requires spec.rest.Some?
  {
    var ns, keycloak := RestTier.TierNamespace(spec), spec.rest.value.keycloak;
    || (TemporalManaged(spec)
        && x in {Obj(ConfigMap, ns, "temporal-helm-values"), Obj(Job, ns, "temporal-helm-install")})
    || (KeycloakManaged(spec)
        && x in {Obj(KeycloakInstance, ns, "keycloak"), Obj(KeycloakRealmImport, ns, "keycloak-" + keycloak.realm)})
    || x in {Obj(Job, ns, "temporal-namespace-init"), Obj(ConfigMap, ns, "carbide-rest-api-config"),
             Obj(Deployment, ns, "carbide-rest-api"), Obj(Service, ns, "carbide-rest-api"),
             Obj(Deployment, ns, "carbide-rest-cloud-worker"), Obj(Deployment, ns, "carbide-rest-site-worker")}
    || (ManagementProfile(spec.profile) && x.namespace == ns && x.name == "carbide-rest-site-manager"
        && x.kind in {ServiceAccount, Role, RoleBinding, Deployment, Service})
    || (SiteAgentEnabled(spec)
        && x in {Obj(ConfigMap, ns, "carbide-rest-site-agent-config"), Obj(Deployment, ns, "carbide-rest-site-agent")})
  }

  /** Everything the REST tier creates. */
  ghost predicate RestCreates(spec: Spec, x: Obj)
    requires spec.rest.Some?
  {
    RestPreludeCreates(spec, x) || RestSlotsCreate(spec, x)
  }

  lemma RestTLSWrites(spec: Spec, ns: string, x: Obj)
    requires IsCertManagerMode(spec) ==> spec.tls.value.certManager.Some?
    ensures Writes(RestTier.TLSPlan(spec, ns), x) <==>
            || (IsSpiffeMode(spec) && x == Obj(ConfigMap, ns, "spiffe-helper-config"))
            || (IsSpiffeMode(spec) && x.kind == ClusterSPIFFEID && x.namespace == ""
                && x.name in REST_ACCOUNTS + {"temporal", "carbide-rest-site-manager"})
            || (IsCertManagerMode(spec) && x.kind == Certificate && x.namespace == ns
                && exists name :: name in REST_ACCOUNTS + {"carbide-rest-site-manager"} && x.name == name + "-cert")
  {
    var cm := [Must(Write(Obj(ConfigMap, ns, "spiffe-helper-config")))];
    AccountsWrite(spec, RestTier.IdentityNames(), ns, x);
    AccountsWrite(spec, RestTier.CertificateNames(), ns, x);
    WritesEither(cm, CoreTier.IdentitiesPlan(RestTier.IdentityNames()), x);
    assert Writes(cm, x) <==> Puts(cm[0]) == Some(x);
  }

  lemma RestPreludeCreatesExactly(name: string, spec: Spec, x: Obj)
    requires Admitted(name, spec) && RestEnabled(spec)
    ensures x in Planned(RestTier.Prelude(spec)) <==> RestPreludeCreates(spec, x)
  {
    var ns := RestTier.TierNamespace(spec);
    var accounts, secrets := CoreTier.AccountsPlan(RestTier.AccountNames(), ns), RestTier.SecretsPlan(spec, ns);
    TLSIsOn(name, spec);
    WritesIff(RestTier.Prelude(spec), x);
    WritesEither(accounts + RestTier.TLSPlan(spec, ns), secrets, x);
    WritesEither(accounts, RestTier.TLSPlan(spec, ns), x);
    AccountsWrite(spec, RestTier.AccountNames(), ns, x);
    RestTLSWrites(spec, ns, x);
    assert Writes(secrets, x) <==> Puts(secrets[1]) == Some(x) || Puts(secrets[2]) == Some(x);
  }

  lemma TemporalWrites(name: string, spec: Spec, ns: string, x: Obj)
    requires Admitted(name, spec) && spec.infrastructure.Some? && RestEnabled(spec)
    ensures Writes(RestTier.TemporalPlan(spec, spec.rest.value.temporal, ns), x) <==>
            TemporalManaged(spec)
            && x in {Obj(ConfigMap, ns, "temporal-helm-values"), Obj(Job, ns, "temporal-helm-install")}
  {
    var plan := RestTier.TemporalPlan(spec, spec.rest.value.temporal, ns);
    if TemporalManaged(spec) {
      assert Puts(plan[0]) == Some(Obj(ConfigMap, ns, "temporal-helm-values"));
      assert Puts(plan[1]) == Some(Obj(Job, ns, "temporal-helm-install"));
    }
  }

  lemma {:induction false} ProvidersWriteNothing(providers: seq<AuthProvider>, ns: string, k: nat, x: Obj)
    requires k <= |providers|
    ensures !Writes(RestTier.ProvidersPlan(providers, ns, k), x)
  {
    if k > 0 { ProvidersWriteNothing(providers, ns, k - 1, x); }
  }

  lemma KeycloakWrites(keycloak: KeycloakConfig, ns: string, x: Obj)
    ensures Writes(RestTier.KeycloakPlan(keycloak, ns), x) <==>
            && (keycloak.mode == AuthManaged || keycloak.mode == AuthUnset)
            && x in {Obj(KeycloakInstance, ns, "keycloak"), Obj(KeycloakRealmImport, ns, "keycloak-" + keycloak.realm)}
  {
    var plan := RestTier.KeycloakPlan(keycloak, ns);
    ProvidersWriteNothing(keycloak.providers, ns, |keycloak.providers|, x);
    if keycloak.mode == AuthManaged || keycloak.mode == AuthUnset {
      assert Puts(plan[1]) == Some(Obj(KeycloakInstance, ns, "keycloak"));
      assert Puts(plan[2]) == Some(Obj(KeycloakRealmImport, ns, "keycloak-" + keycloak.realm));
    }
  }

  lemma WorkerWrites(ns: string, name: string, pod: Workload, x: Obj)
    ensures Writes(RestTier.WorkerPlan(ns, name, pod), x) <==> x == Obj(Deployment, ns, name)
    ensures Writes(RestTier.TemporalSetupPlan(ns), x) <==> x == Obj(Job, ns, "temporal-namespace-init")
  {
    assert Puts(RestTier.WorkerPlan(ns, name, pod)[0]) == Some(Obj(Deployment, ns, name));
    assert Puts(RestTier.TemporalSetupPlan(ns)[0]) == Some(Obj(Job, ns, "temporal-namespace-init"));
  }

  lemma RestAPIWrites(ns: string, x: Obj)
    ensures Writes(RestTier.RestAPIPlan(ns), x)
            <==> x in {Obj(ConfigMap, ns, "carbide-rest-api-config"), Obj(Deployment, ns, "carbide-rest-api"),
                       Obj(Service, ns, "carbide-rest-api")}
    ensures Writes(RestTier.SiteAgentPlan(ns), x)
            <==> x in {Obj(ConfigMap, ns, "carbide-rest-site-agent-config"),
                       Obj(Deployment, ns, "carbide-rest-site-agent")}
  {
    var plan, agent := RestTier.RestAPIPlan(ns), RestTier.SiteAgentPlan(ns);
    assert Puts(plan[0]) == Some(Obj(ConfigMap, ns, "carbide-rest-api-config"));
    assert Puts(plan[1]) == Some(Obj(Deployment, ns, "carbide-rest-api"));
    assert Puts(plan[2]) == Some(Obj(Service, ns, "carbide-rest-api"));
    assert Puts(agent[0]) == Some(Obj(ConfigMap, ns, "carbide-rest-site-agent-config"));
    assert Puts(agent[1]) == Some(Obj(Deployment, ns, "carbide-rest-site-agent"));
  }

  lemma SiteManagerWrites(ns: string, x: Obj)
    ensures Writes(RestTier.SiteManagerPlan(ns), x)
            <==> x.namespace == ns && x.name == "carbide-rest-site-manager"
                 && x.kind in {ServiceAccount, Role, RoleBinding, Deployment, Service}
  {
    var plan := RestTier.SiteManagerPlan(ns);
    assert Puts(plan[0]) == Some(Obj(ServiceAccount, ns, "carbide-rest-site-manager"));
    assert Puts(plan[1]) == Some(Obj(Role, ns, "carbide-rest-site-manager"));
    assert Puts(plan[2]) == Some(Obj(RoleBinding, ns, "carbide-rest-site-manager"));
    assert Puts(plan[3]) == Some(Obj(Deployment, ns, "carbide-rest-site-manager"));
    assert Puts(plan[4]) == Some(Obj(Service, ns, "carbide-rest-site-manager"));
  }

  lemma RestSlotsCreateExactly(name: string, spec: Spec, x: Obj)
    requires Admitted(name, spec) && spec.infrastructure.Some? && RestEnabled(spec)
    ensures x in SlotObjects(RestTier.Slots(spec), |RestTier.Slots(spec)|) <==> RestSlotsCreate(spec, x)
  {
    var ns := RestTier.TierNamespace(spec);
    EightSlots(RestTier.Slots(spec), x);
    TemporalWrites(name, spec, ns, x);
    KeycloakWrites(spec.rest.value.keycloak, ns, x);
    WorkerWrites(ns, CLOUD_WORKER_NAME, CloudRunner, x);
    WorkerWrites(ns, SITE_WORKER_NAME, SiteRunner, x);
    RestAPIWrites(ns, x);
    SiteManagerWrites(ns, x);
  }

  /** The REST tier calls for these objects and no others. */
  lemma RestCreatesExactly(name: string, spec: Spec, x: Obj)
    requires Admitted(name, spec) && spec.infrastructure.Some?
    ensures x in RestObjects(spec) <==> RestEnabled(spec) && RestCreates(spec, x)
  {
    if RestEnabled(spec) {
      RestPreludeCreatesExactly(name, spec, x);
      RestSlotsCreateExactly(name, spec, x);
    }
  }

  lemma RestReadyMeansCreated(o: Oracle, name: string, spec: Spec, x: Obj)
    requires Admitted(name, spec) && spec.infrastructure.Some? && RestEnabled(spec)
    requires RestTier.Run(o, spec).status.ready
    ensures x in Landed(o, RestTier.Run(o, spec).log) <==> RestCreates(spec, x)
  {
    RestTier.SlotsWellFormed(spec);
    TierLanded(o, RestTier.Prelude(spec), RestTier.Slots(spec));
    RestCreatesExactly(name, spec, x);
  }

  // ------------------------------------------------------------ infrastructure

  predicate InfrastructureCreates(infra: InfrastructureConfig, x: Obj) {
    var ns := OrElse(infra.namespace, "carbide-operators");
    || x == Obj(Namespace, "", ns)
    || (infra.postgresql.mode != External
        && x in {Obj(ConfigMap, ns, "carbide-postgres-init"), Obj(PostgresCluster, ns, "carbide-postgres")})
  }

  /** When the infrastructure tier is ready, exactly these were accepted in that pass. */
  lemma InfrastructureReadyMeansCreated(o: Oracle, name: string, spec: Spec, x: Obj)
    requires Admitted(name, spec) && spec.infrastructure.Some?
    ensures var infra := spec.infrastructure.value;
            && (x in InfrastructureObjects(spec) <==> InfrastructureCreates(infra, x))
            && (InfrastructureTier.Run(o, infra).status.ready ==>
                  (x in Landed(o, InfrastructureTier.Run(o, infra).log) <==> InfrastructureCreates(infra, x)))
  {
    var infra := spec.infrastructure.value;
    var prelude, slots := InfrastructureTier.Prelude(infra), InfrastructureTier.Slots(infra);
    var plan, ns := InfrastructureTier.PostgresPlan(infra), OrElse(infra.namespace, "carbide-operators");
    InfrastructureSlotsWellFormed(infra);
    TierLanded(o, prelude, slots);
    WritesIff(prelude, x);
    SlotsWrite(slots, 1, x);
    assert Puts(prelude[0]) == Some(Obj(Namespace, "", ns));
    if infra.postgresql.mode != External {
      assert Puts(prelude[|prelude| - 1]) == Some(Obj(ConfigMap, ns, "carbide-postgres-init"));
      assert Puts(plan[1]) == Some(Obj(PostgresCluster, ns, "carbide-postgres"));
    }
    assert slots[0].Some? && (x in SlotObjects(slots, 1) <==> Writes(plan, x));
  }
}
