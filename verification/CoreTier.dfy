/** The core tier: carbide-api, then DHCP, PXE, DNS and Vault, then RLA and PSM. */
module CoreTier {
  import opened Api
  import opened Gates
  import opened Clients
  import opened Credentials
  import opened CorePods

  function TierNamespace(spec: Spec): string {
    if spec.core.namespace != "" then spec.core.namespace
    else if spec.infrastructure.Some? && spec.infrastructure.value.namespace != ""
    then spec.infrastructure.value.namespace
    else DEFAULT_NAMESPACE
  }

  /** One service account, identity and certificate per name. */
  function AccountNames(spec: Spec): seq<string> {
    [API_NAME, DHCP_NAME, DNS_NAME, PXE_NAME]
    + (if Enabled(spec.core.rla) then [RLA_NAME] else [])
    + (if Enabled(spec.core.psm) then [PSM_NAME] else [])
  }

  function CertificateObject(namespace: string, name: string): Obj { Obj(Certificate, namespace, name + "-cert") }

  function CertificateSecret(namespace: string, name: string): Call {
    SecretRead(namespace, name + "-tls")
  }

  // ------------------------------------------------------------------ plans

  function AccountsPlan(names: seq<string>, ns: string): seq<Action> {
    seq(|names|, i requires 0 <= i < |names| => Must(Write(Obj(ServiceAccount, ns, names[i]))))
  }

  function IdentitiesPlan(names: seq<string>): seq<Action> {
    seq(|names|, i requires 0 <= i < |names| => Must(Write(Obj(ClusterSPIFFEID, "", names[i]))))
  }

  function CertificatesPlan(names: seq<string>, ns: string): seq<Action> {
    seq(|names|, i requires 0 <= i < |names| => Must(Write(CertificateObject(ns, names[i]))))
  }

  function CertificateWaits(names: seq<string>, ns: string): seq<Action> {
    seq(|names|, i requires 0 <= i < |names| => Poll(CertificateSecret(ns, names[i])))
  }

  function TLSPlan(spec: Spec, ns: string): seq<Action> {
    var names := AccountNames(spec);
    if IsSpiffeMode(spec) then [Must(Write(Obj(ConfigMap, ns, "spiffe-helper-config")))] + IdentitiesPlan(names)
    else if IsCertManagerMode(spec) then
      if spec.tls.value.certManager.None? then [Abort(NilDereference)]
      else CertificatesPlan(names, ns) + CertificateWaits(names, ns)
    else []
  }

  predicate ConnectionMissing(spec: Spec) {
    UsesExternalPostgres(spec) && spec.infrastructure.value.postgresql.connection.None?
  }

  function ConfigPlan(spec: Spec, ns: string): seq<Action> {
    if spec.infrastructure.None? then [Abort(NoInfrastructure)]
    else if ConnectionMissing(spec) then [Abort(MissingConnection)]
    else
      var password := PasswordLookup(spec.infrastructure, "carbide");
      [Must(Write(Obj(ConfigMap, ns, "carbide-api-config"))), Must(Write(Obj(ConfigMap, ns, "casbin-policy")))]
      + (if spec.core.dns.enabled then [Must(Write(Obj(ConfigMap, ns, "carbide-dns-config")))] else [])
      + [if password.At? then Must(SecretRead(password.namespace, password.name)) else Abort(password.why),
         Must(Write(Obj(SecretObject, ns, "carbide-api-secret")))]
  }

  /** Apply a workload and its service, then await the workload. */
  function ServicePlan(ns: string, name: string, pod: Workload): seq<Action> {
    var w := Obj(Deployment, ns, name);
    [Must(Apply(w, pod)), Must(Write(Obj(Service, ns, name))), Poll(Await(w, pod))]
  }

  function DaemonPlan(ns: string, name: string, pod: Workload): seq<Action> {
    var w := Obj(DaemonSet, ns, name);
    [Must(Apply(w, pod)), Poll(Await(w, pod))]
  }

  function PXEPlan(spec: Spec, ns: string): seq<Action> {
    var w, pvc := Obj(Deployment, ns, PXE_NAME), Obj(PersistentVolumeClaim, ns, "carbide-pxe-data");
    (if spec.core.pxe.hasStorage then [Must(Write(pvc)), Poll(Probe(pvc, {pvc}))] else [])
    + [Must(Apply(w, PXEServer)), Poll(Await(w, PXEServer))]
  }

  const VAULT_INIT := "vault-init"

  function VaultPlan(vault: VaultConfig, ns: string): seq<Action> {
    match vault.mode
    case Managed =>
      var helm, init := Obj(Job, ns, "vault-helm-install"), Obj(Job, ns, VAULT_INIT);
      [Must(Write(Obj(ServiceAccount, ns, VAULT_INSTALLER))),
       Must(Write(Obj(ClusterRoleBinding, "", "vault-helm-installer-" + ns))),
       Must(Write(Obj(ConfigMap, ns, "vault-helm-values"))),
       Must(Apply(helm, VaultHelm)), Poll(Await(helm, VaultHelm)),
       Must(Apply(init, VaultInit)), Poll(Await(init, VaultInit))]
    case External =>
      if vault.address == "" then [Abort(MissingAddress)]
      else if vault.tokenSecretRef.None? then []
      else [Must(SecretRead(ns, vault.tokenSecretRef.value.name))]
    case _ => [Abort(UnknownMode)]
  }

  function Prelude(spec: Spec): seq<Action> {
    if spec.profile == Management then []
    else
      var ns := TierNamespace(spec);
      [Must(Write(Obj(Namespace, "", ns)))] + AccountsPlan(AccountNames(spec), ns) + TLSPlan(spec, ns)
          + ConfigPlan(spec, ns)
  }

  function AfterVault(spec: Spec): set<Component> {
    if spec.core.vault.Some? then {API, Vault} else {API}
  }

  function Slots(spec: Spec): seq<Slot> {
    if spec.profile == Management then []
    else
      var ns := TierNamespace(spec);
      [Some(Gate(Migration, true, true, {}, [])),
       Some(Gate(API, true, true, {Migration}, ServicePlan(ns, API_NAME, APIServer))),
       Opt(spec.core.dhcpEnabled, Gate(DHCP, true, true, {API}, DaemonPlan(ns, DHCP_NAME, DHCPServer))),
       Opt(spec.core.pxe.enabled, Gate(PXE, true, true, {API}, PXEPlan(spec, ns))),
       Opt(spec.core.dns.enabled, Gate(DNS, true, true, {API}, DaemonPlan(ns, DNS_NAME, DNSServer))),
       if spec.core.vault.Some?
       then Some(Gate(Vault, true, true, {API}, VaultPlan(spec.core.vault.value, ns))) else None,
       Opt(Enabled(spec.core.rla), Gate(RLA, true, true, AfterVault(spec), ServicePlan(ns, RLA_NAME, RLAServer))),
       Opt(Enabled(spec.core.psm), Gate(PSM, true, true, AfterVault(spec), ServicePlan(ns, PSM_NAME, PSMServer)))]
  }

  function Run(o: Oracle, spec: Spec): TierRun { RunTier(o, Prelude(spec), Slots(spec)) }

  // ------------------------------------------------------------ reconcilers

  method CreateServiceAccounts(c: Client, names: seq<string>, ns: string) returns (err: bool)
    modifies c
    ensures Follows(c.oracle, old(c.log), AccountsPlan(names, ns), c.log, !err, err)
  {
    ghost var plan := AccountsPlan(names, ns);
    for i := 0 to |names|
      invariant PlanAfter(c.oracle, old(c.log), plan, i) == PlanRun(c.log, Yes)
    {
      err := c.CreateOrUpdate(Obj(ServiceAccount, ns, names[i]));
      if err {
        PlanStuck(c.oracle, old(c.log), plan, i + 1, |plan|);
        return;
      }
    }
    err := false;
  }

  method CreateIdentities(c: Client, names: seq<string>) returns (err: bool)
    modifies c
    ensures Follows(c.oracle, old(c.log), IdentitiesPlan(names), c.log, !err, err)
  {
    ghost var plan := IdentitiesPlan(names);
    for i := 0 to |names|
      invariant PlanAfter(c.oracle, old(c.log), plan, i) == PlanRun(c.log, Yes)
    {
      err := c.CreateOrUpdate(Obj(ClusterSPIFFEID, "", names[i]));
      if err {
        PlanStuck(c.oracle, old(c.log), plan, i + 1, |plan|);
        return;
      }
    }
    err := false;
  }

  method CreateCertificates(c: Client, names: seq<string>, ns: string) returns (err: bool)
    modifies c
    ensures Follows(c.oracle, old(c.log), CertificatesPlan(names, ns), c.log, !err, err)
  {
    ghost var plan := CertificatesPlan(names, ns);
    for i := 0 to |names|
      invariant PlanAfter(c.oracle, old(c.log), plan, i) == PlanRun(c.log, Yes)
    {
      err := c.CreateOrUpdate(CertificateObject(ns, names[i]));
      if err {
        PlanStuck(c.oracle, old(c.log), plan, i + 1, |plan|);
        return;
      }
    }
    err := false;
  }

  method AwaitCertificates(c: Client, names: seq<string>, ns: string) returns (ready: bool, err: bool)
    modifies c
    ensures Follows(c.oracle, old(c.log), CertificateWaits(names, ns), c.log, ready, err)
  {
    ghost var plan := CertificateWaits(names, ns);
    for i := 0 to |names|
      invariant PlanAfter(c.oracle, old(c.log), plan, i) == PlanRun(c.log, Yes)
    {
      ready, err := c.IsSecretAvailable(ns, names[i] + "-tls");
      if err || !ready {
        PlanStuck(c.oracle, old(c.log), plan, i + 1, |plan|);
        return;
      }
    }
    ready, err := true, false;
  }

  method CreateTLSResources(c: Client, spec: Spec, ns: string) returns (ready: bool, err: bool)
    modifies c
    ensures Follows(c.oracle, old(c.log), TLSPlan(spec, ns), c.log, ready, err)
  {
    var names := AccountNames(spec);
    if IsSpiffeMode(spec) {
      var cm := Obj(ConfigMap, ns, "spiffe-helper-config");
      PlanConcat(c.oracle, c.log, [Must(Write(cm))], IdentitiesPlan(names));
      PlanUnroll(c.oracle, c.log, [Must(Write(cm))]);
      err := c.CreateOrUpdate(cm);
      if !err { err := CreateIdentities(c, names); }
      ready := !err;
    } else if IsCertManagerMode(spec) {
      if spec.tls.value.certManager.None? {
        PlanUnroll(c.oracle, c.log, TLSPlan(spec, ns));
        return false, true;
      }
      PlanConcat(c.oracle, c.log, CertificatesPlan(names, ns), CertificateWaits(names, ns));
      err := CreateCertificates(c, names, ns);
      if err { return false, true; }
      ready, err := AwaitCertificates(c, names, ns);
    } else {
      ready, err := true, false;
    }
  }

  method ReconcileConfig(c: Client, spec: Spec, ns: string) returns (ready: bool, err: bool)
    modifies c
    ensures Follows(c.oracle, old(c.log), ConfigPlan(spec, ns), c.log, ready, err)
    ensures ready == !err
  {
    PlanUnroll(c.oracle, c.log, ConfigPlan(spec, ns));
    // getInfrastructureConnections
    if spec.infrastructure.None? { return false, true; }
    var pg := spec.infrastructure.value.postgresql;
    if pg.mode == External && pg.connection.None? { return false, true; }
    err := c.CreateOrUpdate(Obj(ConfigMap, ns, "carbide-api-config"));
    if err { return false, true; }
    err := c.CreateOrUpdate(Obj(ConfigMap, ns, "casbin-policy"));
    if err { return false, true; }
    if spec.core.dns.enabled {
      err := c.CreateOrUpdate(Obj(ConfigMap, ns, "carbide-dns-config"));
      if err { return false, true; }
    }
    // getPostgreSQLPassword
    match PasswordLookup(spec.infrastructure, "carbide") {
      case Missing(_) => return false, true;
      case At(namespace, name) =>
        err := c.ReadSecret(namespace, name);
        if err { return false, true; }
    }
    err := c.CreateOrUpdate(Obj(SecretObject, ns, "carbide-api-secret"));
    ready := !err;
  }

  method ReconcileDaemon(c: Client, ns: string, name: string, pod: Workload) returns (ready: bool, err: bool)
    modifies c
    ensures Follows(c.oracle, old(c.log), DaemonPlan(ns, name, pod), c.log, ready, err)
  {
    PlanUnroll(c.oracle, c.log, DaemonPlan(ns, name, pod));
    var w := Obj(DaemonSet, ns, name);
    err := c.Deploy(w, pod);
    if err { return false, true; }
    ready, err := c.IsRolledOut(w, pod);
  }

  method ReconcilePXE(c: Client, spec: Spec, ns: string) returns (ready: bool, err: bool)
    modifies c
    ensures Follows(c.oracle, old(c.log), PXEPlan(spec, ns), c.log, ready, err)
  {
    PlanUnroll(c.oracle, c.log, PXEPlan(spec, ns));
    if spec.core.pxe.hasStorage {
      var pvc := Obj(PersistentVolumeClaim, ns, "carbide-pxe-data");
      err := c.CreateOrUpdate(pvc);
      if err { return false, true; }
      var bound;
      bound, err := c.IsReady(pvc, {pvc});
      if err || !bound { return false, err; }
    }
    var w := Obj(Deployment, ns, PXE_NAME);
    err := c.Deploy(w, PXEServer);
    if err { return false, true; }
    ready, err := c.IsRolledOut(w, PXEServer);
  }

  method ReconcileVault(c: Client, vault: VaultConfig, ns: string) returns (ready: bool, err: bool)
    modifies c
    ensures Follows(c.oracle, old(c.log), VaultPlan(vault, ns), c.log, ready, err)
  {
    PlanUnroll(c.oracle, c.log, VaultPlan(vault, ns));
    match vault.mode {
      case Managed =>
        err := c.CreateOrUpdate(Obj(ServiceAccount, ns, VAULT_INSTALLER));
        if err { return false, true; }
        err := c.CreateOrUpdate(Obj(ClusterRoleBinding, "", "vault-helm-installer-" + ns));
        if err { return false, true; }
        err := c.CreateOrUpdate(Obj(ConfigMap, ns, "vault-helm-values"));
        if err { return false, true; }
        var helm := Obj(Job, ns, "vault-helm-install");
        err := c.Deploy(helm, VaultHelm);
        if err { return false, true; }
        var helmComplete;
        helmComplete, err := c.IsRolledOut(helm, VaultHelm);
        if err || !helmComplete { return false, err; }
        var init := Obj(Job, ns, VAULT_INIT);
        err := c.Deploy(init, VaultInit);
        if err { return false, true; }
        ready, err := c.IsRolledOut(init, VaultInit);
      case External =>
        if vault.address == "" { return false, true; }
        if vault.tokenSecretRef.Some? {
          var available;
          available, err := c.IsSecretAvailable(ns, vault.tokenSecretRef.value.name);
          if err || !available { return false, true; }
        }
        ready, err := true, false;
      case _ =>
        return false, true;
    }
  }

  /** reconcileAPI, reconcileRLA and reconcilePSM. */
  method ReconcileService(c: Client, ns: string, name: string, pod: Workload) returns (ready: bool, err: bool)
    modifies c
    ensures Follows(c.oracle, old(c.log), ServicePlan(ns, name, pod), c.log, ready, err)
  {
    PlanUnroll(c.oracle, c.log, ServicePlan(ns, name, pod));
    var w := Obj(Deployment, ns, name);
    err := c.Deploy(w, pod);
    if err { return false, true; }
    err := c.CreateOrUpdate(Obj(Service, ns, name));
    if err { return false, true; }
    ready, err := c.IsRolledOut(w, pod);
  }

  method ReconcilePrelude(c: Client, spec: Spec, ns: string) returns (ready: bool, err: bool)
    requires spec.profile != Management && ns == TierNamespace(spec)
    modifies c
    ensures Follows(c.oracle, old(c.log), Prelude(spec), c.log, ready, err)
  {
    ghost var o, log, names := c.oracle, c.log, AccountNames(spec);
    ghost var p0 := [Must(Write(Obj(Namespace, "", ns)))];
    ghost var p1 := p0 + AccountsPlan(names, ns);
    ghost var p2 := p1 + TLSPlan(spec, ns);
    PlanUnroll(o, log, p0);
    PlanConcat(o, log, p0, AccountsPlan(names, ns));
    PlanConcat(o, log, p1, TLSPlan(spec, ns));
    PlanConcat(o, log, p2, ConfigPlan(spec, ns));
    ready := false;
    err := c.CreateOrUpdate(Obj(Namespace, "", ns));
    if err { return; }
    err := CreateServiceAccounts(c, AccountNames(spec), ns);
    if err { return; }
    ready, err := CreateTLSResources(c, spec, ns);
    if err || !ready { return; }
    ready, err := ReconcileConfig(c, spec, ns);
  }

  /** DHCP, PXE and DNS, entered together once the API is known to be up or not. */
  method ReconcileNetworkServices(c: Client, spec: Spec, ns: string, apiReady: bool, before: seq<ComponentStatus>,
      ghost start: Net)
    returns (components: seq<ComponentStatus>, dhcpReady: bool, pxeReady: bool, dnsReady: bool, err: bool)
    requires spec.profile != Management && ns == TierNamespace(spec)
    requires Standing(c.oracle, start, Slots(spec), 2, c.log, before)
    requires NetAfter(c.oracle, start, Slots(spec), 2).ready == if apiReady then {Migration, API} else {Migration}
    modifies c
    ensures err ==> Broken(c.oracle, start, Slots(spec), c.log, components)
    ensures !err ==>
      && Standing(c.oracle, start, Slots(spec), 5, c.log, components)
      && var ready := NetAfter(c.oracle, start, Slots(spec), 5).ready;
         && (apiReady <==> API in ready) && Migration in ready && Vault !in ready && RLA !in ready && PSM !in ready
         && (dhcpReady <==> apiReady && (spec.core.dhcpEnabled ==> DHCP in ready))
         && (pxeReady <==> apiReady && (spec.core.pxe.enabled ==> PXE in ready))
         && (dnsReady <==> apiReady && (spec.core.dns.enabled ==> DNS in ready))
  {
    ghost var o, slots := c.oracle, Slots(spec);
    ghost var log;
    components, dhcpReady, pxeReady, dnsReady, err := before, false, false, false, false;
    if !apiReady {
      SlotSkipped(o, start, slots, 2, c.log, components);
      SlotSkipped(o, start, slots, 3, c.log, components);
      SlotSkipped(o, start, slots, 4, c.log, components);
      return;
    }
    if spec.core.dhcpEnabled {
      log := c.log;
      dhcpReady, err := ReconcileDaemon(c, ns, DHCP_NAME, DHCPServer);
      SlotRan(o, start, slots, 2, log, components, c.log, dhcpReady, err);
      components := components + [ComponentStatus(DHCP, dhcpReady)];
      if err { return; }
    } else {
      dhcpReady := true;
      SlotSkipped(o, start, slots, 2, c.log, components);
    }
    if spec.core.pxe.enabled {
      log := c.log;
      pxeReady, err := ReconcilePXE(c, spec, ns);
      SlotRan(o, start, slots, 3, log, components, c.log, pxeReady, err);
      components := components + [ComponentStatus(PXE, pxeReady)];
      if err { return; }
    } else {
      pxeReady := true;
      SlotSkipped(o, start, slots, 3, c.log, components);
    }
    if spec.core.dns.enabled {
      log := c.log;
      dnsReady, err := ReconcileDaemon(c, ns, DNS_NAME, DNSServer);
      SlotRan(o, start, slots, 4, log, components, c.log, dnsReady, err);
      components := components + [ComponentStatus(DNS, dnsReady)];
      if err { return; }
    } else {
      dnsReady := true;
      SlotSkipped(o, start, slots, 4, c.log, components);
    }
  }

  /** Vault, then RLA and PSM behind it. */
  method ReconcileVaultAndServices(c: Client, spec: Spec, ns: string, apiReady: bool, before: seq<ComponentStatus>,
      ghost start: Net)
    returns (components: seq<ComponentStatus>, vaultReady: bool, rlaReady: bool, psmReady: bool, err: bool)
    requires spec.profile != Management && ns == TierNamespace(spec)
    requires Standing(c.oracle, start, Slots(spec), 5, c.log, before)
    requires var ready := NetAfter(c.oracle, start, Slots(spec), 5).ready;
             (apiReady <==> API in ready) && Vault !in ready && RLA !in ready && PSM !in ready
    modifies c
    ensures err ==> Broken(c.oracle, start, Slots(spec), c.log, components)
    ensures !err ==>
      && Standing(c.oracle, start, Slots(spec), 8, c.log, components)
      && var ready, was := NetAfter(c.oracle, start, Slots(spec), 8).ready,
         NetAfter(c.oracle, start, Slots(spec), 5).ready;
         && (Migration in ready <==> Migration in was) && (API in ready <==> API in was)
         && (DHCP in ready <==> DHCP in was) && (PXE in ready <==> PXE in was) && (DNS in ready <==> DNS in was)
         && (apiReady && vaultReady <==> apiReady && (spec.core.vault.Some? ==> Vault in ready))
         && (apiReady && vaultReady && rlaReady
            <==> apiReady && vaultReady && (Enabled(spec.core.rla) ==> RLA in ready))
         && (apiReady && vaultReady && psmReady
            <==> apiReady && vaultReady && (Enabled(spec.core.psm) ==> PSM in ready))
  {
    ghost var o, slots := c.oracle, Slots(spec);
    ghost var log;
    components, vaultReady, rlaReady, psmReady, err := before, true, true, true, false;
    if apiReady && spec.core.vault.Some? {
      log := c.log;
      vaultReady, err := ReconcileVault(c, spec.core.vault.value, ns);
      SlotRan(o, start, slots, 5, log, components, c.log, vaultReady, err);
      components := components + [ComponentStatus(Vault, vaultReady)];
      if err { return; }
    } else {
      SlotSkipped(o, start, slots, 5, c.log, components);
    }
    if apiReady && vaultReady && Enabled(spec.core.rla) {
      log := c.log;
      rlaReady, err := ReconcileService(c, ns, RLA_NAME, RLAServer);
      SlotRan(o, start, slots, 6, log, components, c.log, rlaReady, err);
      components := components + [ComponentStatus(RLA, rlaReady)];
      if err { return; }
    } else {
      SlotSkipped(o, start, slots, 6, c.log, components);
    }
    if apiReady && vaultReady && Enabled(spec.core.psm) {
      log := c.log;
      psmReady, err := ReconcileService(c, ns, PSM_NAME, PSMServer);
      SlotRan(o, start, slots, 7, log, components, c.log, psmReady, err);
      components := components + [ComponentStatus(PSM, psmReady)];
      if err { return; }
    } else {
      SlotSkipped(o, start, slots, 7, c.log, components);
    }
  }

  /** Migration and the API. reconcileMigration always reports completion, since
      migrations run in init containers. */
  method ReconcileMigrationAndAPI(c: Client, spec: Spec, ns: string, ghost start: Net)
    returns (components: seq<ComponentStatus>, migrationComplete: bool, apiReady: bool, err: bool)
    requires spec.profile != Management && ns == TierNamespace(spec) && start == START.(log := c.log)
    modifies c
    ensures err ==> Broken(c.oracle, start, Slots(spec), c.log, components)
    ensures !err ==>
      && Standing(c.oracle, start, Slots(spec), 2, c.log, components) && migrationComplete
      && NetAfter(c.oracle, start, Slots(spec), 2).ready == if apiReady then {Migration, API} else {Migration}
  {
    ghost var o, slots, log := c.oracle, Slots(spec), c.log;
    migrationComplete := true;
    SlotRan(o, start, slots, 0, log, [], log, true, false);
    components := [ComponentStatus(Migration, migrationComplete)];
    apiReady, err := ReconcileService(c, ns, API_NAME, APIServer);
    SlotRan(o, start, slots, 1, log, components, c.log, apiReady, err);
    components := components + [ComponentStatus(API, apiReady)];
  }

  lemma ReadyFlags(spec: Spec, ready: set<Component>)
    requires spec.profile != Management
    ensures AllReady(Slots(spec), ready) <==>
            && Migration in ready && API in ready
            && (spec.core.dhcpEnabled ==> DHCP in ready)
            && (spec.core.pxe.enabled ==> PXE in ready)
            && (spec.core.dns.enabled ==> DNS in ready)
            && (spec.core.vault.Some? ==> Vault in ready)
            && (Enabled(spec.core.rla) ==> RLA in ready)
            && (Enabled(spec.core.psm) ==> PSM in ready)
  {
    var s := Slots(spec);
    assert s[0].Some? && s[1].Some?;
    assert s[2].Some? == spec.core.dhcpEnabled && s[3].Some? == spec.core.pxe.enabled
        && s[4].Some? == spec.core.dns.enabled;
    assert s[5].Some? == spec.core.vault.Some? && s[6].Some? == Enabled(spec.core.rla)
        && s[7].Some? == Enabled(spec.core.psm);
  }

  method Reconcile(c: Client, spec: Spec) returns (status: TierStatus, err: bool)
    requires c.log == []
    modifies c
    ensures TierRun(status, err, c.log) == Run(c.oracle, spec)
  {
    if spec.profile == Management {
      return TierStatus(true, []), false;
    }
    var ns := TierNamespace(spec);
    status := TierStatus(false, []);
    var configReady;
    configReady, err := ReconcilePrelude(c, spec, ns);
    if err || !configReady { return; }

    ghost var start := START.(log := c.log);
    var components, migrationComplete, apiReady, dhcpReady, pxeReady, dnsReady, vaultReady, rlaReady, psmReady;
    components, migrationComplete, apiReady, err := ReconcileMigrationAndAPI(c, spec, ns, start);
    status := status.(components := components);
    if err { return; }
    components, dhcpReady, pxeReady, dnsReady, err :=
      ReconcileNetworkServices(c, spec, ns, apiReady, components, start);
    status := status.(components := components);
    if err { return; }
    components, vaultReady, rlaReady, psmReady, err :=
      ReconcileVaultAndServices(c, spec, ns, apiReady, components, start);
    status := status.(components := components);
    if err { return; }

    status := status.(ready := configReady && migrationComplete && apiReady && dhcpReady && pxeReady && dnsReady
                               && vaultReady && rlaReady && psmReady);
    ReadyFlags(spec, NetAfter(c.oracle, start, Slots(spec), 8).ready);
  }

  // ----------------------------------------------------- what the tier promises

  predicate Wanted(spec: Spec, c: Component) {
    match c
    case Migration => true
    case API => true
    case DHCP => spec.core.dhcpEnabled
    case PXE => spec.core.pxe.enabled
    case DNS => spec.core.dns.enabled
    case Vault => spec.core.vault.Some?
    case RLA => Enabled(spec.core.rla)
    case PSM => Enabled(spec.core.psm)
    case _ => false
  }

  function WantedBefore(spec: Spec, c: Component): set<Component> {
    match c
    case API => {Migration}
    case DHCP => {API}
    case PXE => {API}
    case DNS => {API}
    case Vault => {API}
    case RLA => AfterVault(spec)
    case PSM => AfterVault(spec)
    case _ => {}
  }

  lemma SlotsAreWanted(spec: Spec, c: Component)
    requires spec.profile != Management
    ensures Expected(Slots(spec), c) <==> Wanted(spec, c)
    ensures Wanted(spec, c) ==> var g := Slots(spec)[Rank(c)].value; g.reported && g.needs == WantedBefore(spec, c)
  {
  }

  lemma SlotsWellFormed(spec: Spec)
    requires spec.profile != Management
    ensures WellFormed(Slots(spec)) && SomethingExpected(Slots(spec))
  {
    var s := Slots(spec);
    assert s[0].Some? && s[0].value.reported;
    forall i | 0 <= i < |s| && s[i].Some?
      ensures Rank(s[i].value.name) == i && s[i].value.reported
      ensures forall d | d in s[i].value.needs :: Expected(s, d) && Rank(d) < i
    {
    }
  }

  /** The core tier reports exactly the truth, whatever the cluster answers. */
  lemma CoreStatusExact(o: Oracle, spec: Spec)
    requires spec.profile != Management
    ensures StatusExact(c => Wanted(spec, c), c => WantedBefore(spec, c), Run(o, spec).status)
    ensures Run(o, spec).err ==> !Run(o, spec).status.ready
  {
    SlotsWellFormed(spec);
    forall c ensures Wanted(spec, c) <==> Expected(Slots(spec), c) && Slots(spec)[Rank(c)].value.reported
             ensures Wanted(spec, c) ==> Slots(spec)[Rank(c)].value.needs == WantedBefore(spec, c)
    {
      SlotsAreWanted(spec, c);
    }
    TierStatusExact(o, Prelude(spec), Slots(spec), c => Wanted(spec, c), c => WantedBefore(spec, c));
  }
}
