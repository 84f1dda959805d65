/** The REST tier: Temporal and Keycloak, the REST API and workers behind them,
    then site manager and site agent behind the REST API. */
module RestTier {
  import opened Api
  import opened Gates
  import opened Clients
  import opened Credentials
  import opened RestPods
  import CoreTier

  function TierNamespace(spec: Spec): string { OrElse(spec.core.namespace, DEFAULT_NAMESPACE) }

  function AccountNames(): seq<string> { [REST_API_NAME, CLOUD_WORKER_NAME, SITE_WORKER_NAME] }

  function IdentityNames(): seq<string> { AccountNames() + ["temporal", SITE_MANAGER_NAME] }

  function CertificateNames(): seq<string> { AccountNames() + [SITE_MANAGER_NAME] }

  // ------------------------------------------------------------------ plans

  function TLSPlan(spec: Spec, ns: string): seq<Action> {
    if IsSpiffeMode(spec) then
      [Must(Write(Obj(ConfigMap, ns, "spiffe-helper-config")))] + CoreTier.IdentitiesPlan(IdentityNames())
    else if IsCertManagerMode(spec) then
      if spec.tls.value.certManager.None? then [Abort(NilDereference)]
      else CoreTier.CertificatesPlan(CertificateNames(), ns)
    else []
  }

  /** Every failure to find the forge password is a reason to wait, not an error. */
  function SecretsPlan(spec: Spec, ns: string): seq<Action> {
    var password := PasswordLookup(spec.infrastructure, "forge");
    [if password.At? then Hope(SecretRead(password.namespace, password.name)) else Stall(password.why),
     Must(Write(Obj(SecretObject, ns, REST_SECRET))),
     Must(Write(Obj(ConfigMap, ns, "carbide-rest-workflow-config")))]
  }

  function ReleaseNamespace(temporal: TemporalConfig): string { OrElse(temporal.namespace, TEMPORAL_NAMESPACE) }

  function Frontend(temporal: TemporalConfig): Obj { Obj(Deployment, ReleaseNamespace(temporal), "temporal-frontend") }

  /** The secret that the Helm values name for the database, if any. */
  function TemporalSecret(spec: Spec): string {
    if !UsesExternalPostgres(spec) then ManagedSecretName("temporal")
    else if "temporal" in UserSecrets(spec) then UserSecrets(spec)["temporal"].name
    else ""
  }

  /** The release is brought about by its job, and its pods refer to that secret in
      the namespace of the release. */
  function ReleaseNeeds(spec: Spec, temporal: TemporalConfig, helm: Obj): set<Obj> {
    {helm} + (if TemporalSecret(spec) == "" then {} else {Secret(ReleaseNamespace(temporal), TemporalSecret(spec))})
  }

  function TemporalPlan(spec: Spec, temporal: TemporalConfig, ns: string): seq<Action> {
    match temporal.mode
    case ModeUnset | Managed =>
      if spec.infrastructure.None? then [Abort(NoInfrastructure)]
      else if CoreTier.ConnectionMissing(spec) then [Abort(MissingConnection)]
      else
        var helm := Obj(Job, ns, "temporal-helm-install");
        [Must(Write(Obj(ConfigMap, ns, "temporal-helm-values"))), Must(Apply(helm, TemporalHelm)),
         Poll(Await(helm, TemporalHelm)), Poll(Probe(Frontend(temporal), ReleaseNeeds(spec, temporal, helm)))]
    case External =>
      if temporal.endpoint == "" then [Abort(MissingEndpoint)] else [Must(Reach(ExternalTemporal(temporal.endpoint)))]
    case OtherMode => [Abort(UnknownMode)]
  }

  /** The secret checks of the first `k` providers. */
  function ProvidersPlan(providers: seq<AuthProvider>, ns: string, k: nat): seq<Action>
    requires k <= |providers|
  {
    if k == 0 then []
    else
      ProvidersPlan(providers, ns, k - 1)
      + (if providers[k - 1].clientSecretRef.Some?
         then [Must(SecretRead(ns, providers[k - 1].clientSecretRef.value.name))] else [])
  }

  /** The instance is written as `keycloak` and polled as `carbide-keycloak`. */
  function KeycloakPolled(ns: string): Obj { Obj(KeycloakInstance, ns, "carbide-keycloak") }

  function KeycloakPlan(keycloak: KeycloakConfig, ns: string): seq<Action> {
    match keycloak.mode
    case AuthUnset | AuthManaged =>
      [Must(Reach(KeycloakOperator)), Must(Write(Obj(KeycloakInstance, ns, "keycloak"))),
       Must(Write(Obj(KeycloakRealmImport, ns, "keycloak-" + keycloak.realm))),
       Poll(Probe(KeycloakPolled(ns), {KeycloakPolled(ns)}))]
    case AuthExternal =>
      if keycloak.providers == [] then [Abort(MissingProvider)]
      else ProvidersPlan(keycloak.providers, ns, |keycloak.providers|)
    case AuthDisabled => []
    case OtherAuth => [Abort(UnknownMode)]
  }

  function TemporalSetupPlan(ns: string): seq<Action> {
    var job := Obj(Job, ns, "temporal-namespace-init");
    [Must(Apply(job, TemporalInit)), Poll(Await(job, TemporalInit))]
  }

  function RestAPIPlan(ns: string): seq<Action> {
    var w := Obj(Deployment, ns, REST_API_NAME);
    [Must(Write(Obj(ConfigMap, ns, "carbide-rest-api-config"))), Must(Apply(w, RestServer)),
     Must(Write(Obj(Service, ns, REST_API_NAME))), Poll(Await(w, RestServer))]
  }

  function WorkerPlan(ns: string, name: string, pod: Workload): seq<Action> {
    var w := Obj(Deployment, ns, name);
    [Must(Apply(w, pod)), Poll(Await(w, pod))]
  }

  function SiteManagerPlan(ns: string): seq<Action> {
    var w := Obj(Deployment, ns, SITE_MANAGER_NAME);
    [Must(Write(Obj(ServiceAccount, ns, SITE_MANAGER_NAME))), Must(Write(Obj(Role, ns, SITE_MANAGER_NAME))),
     Must(Write(Obj(RoleBinding, ns, SITE_MANAGER_NAME))), Must(Apply(w, Manager)),
     Must(Write(Obj(Service, ns, SITE_MANAGER_NAME))), Poll(Await(w, Manager))]
  }

  function SiteAgentPlan(ns: string): seq<Action> {
    var w := Obj(Deployment, ns, SITE_AGENT_NAME);
    [Must(Write(Obj(ConfigMap, ns, "carbide-rest-site-agent-config"))), Must(Apply(w, Agent)),
     Poll(Await(w, Agent))]
  }

  function Prelude(spec: Spec): seq<Action> {
    if !RestEnabled(spec) then []
    else
      var ns := TierNamespace(spec);
      CoreTier.AccountsPlan(AccountNames(), ns) + TLSPlan(spec, ns) + SecretsPlan(spec, ns)
  }

  function Slots(spec: Spec): seq<Slot> {
    if !RestEnabled(spec) then []
    else
      var ns, rest := TierNamespace(spec), spec.rest.value;
      [Some(Gate(Temporal, true, true, {}, TemporalPlan(spec, rest.temporal, ns))),
       Some(Gate(Keycloak, true, true, {}, KeycloakPlan(rest.keycloak, ns))),
       Some(Gate(TemporalSetup, false, false, {Temporal}, TemporalSetupPlan(ns))),
       Some(Gate(RestAPI, true, true, {Temporal, Keycloak, TemporalSetup}, RestAPIPlan(ns))),
       Some(Gate(CloudWorker, true, false, {Temporal, TemporalSetup}, WorkerPlan(ns, CLOUD_WORKER_NAME, CloudRunner))),
       Some(Gate(SiteWorker, true, false, {Temporal, TemporalSetup}, WorkerPlan(ns, SITE_WORKER_NAME, SiteRunner))),
       Opt(ManagementProfile(spec.profile), Gate(SiteManager, true, true, {RestAPI}, SiteManagerPlan(ns))),
       Opt(SiteAgentEnabled(spec), Gate(SiteAgent, true, true, {RestAPI}, SiteAgentPlan(ns)))]
  }

  function Run(o: Oracle, spec: Spec): TierRun { RunTier(o, Prelude(spec), Slots(spec)) }

  // ------------------------------------------------------------ reconcilers

  method CreateTLSResources(c: Client, spec: Spec, ns: string) returns (err: bool)
    modifies c
    ensures Follows(c.oracle, old(c.log), TLSPlan(spec, ns), c.log, !err, err)
  {
    err := false;
    if IsSpiffeMode(spec) {
      var cm := Obj(ConfigMap, ns, "spiffe-helper-config");
      PlanConcat(c.oracle, c.log, [Must(Write(cm))], CoreTier.IdentitiesPlan(IdentityNames()));
      PlanUnroll(c.oracle, c.log, [Must(Write(cm))]);
      err := c.CreateOrUpdate(cm);
      if err { return; }
      err := CoreTier.CreateIdentities(c, IdentityNames());
    } else if IsCertManagerMode(spec) {
      PlanUnroll(c.oracle, c.log, TLSPlan(spec, ns));
      if spec.tls.value.certManager.None? { return true; }
      err := CoreTier.CreateCertificates(c, CertificateNames(), ns);
    }
  }

  method CreateSecrets(c: Client, spec: Spec, ns: string) returns (ready: bool, err: bool)
    modifies c
    ensures Follows(c.oracle, old(c.log), SecretsPlan(spec, ns), c.log, ready, err)
  {
    PlanUnroll(c.oracle, c.log, SecretsPlan(spec, ns));
    // getForgePassword
    match PasswordLookup(spec.infrastructure, "forge") {
      case Missing(_) => return false, false;
      case At(namespace, name) =>
        err := c.ReadSecret(namespace, name);
        if err { return false, false; }
    }
    err := c.CreateOrUpdate(Obj(SecretObject, ns, REST_SECRET));
    if err { return false, true; }
    err := c.CreateOrUpdate(Obj(ConfigMap, ns, "carbide-rest-workflow-config"));
    ready := !err;
  }

  method ReconcileTemporal(c: Client, spec: Spec, temporal: TemporalConfig, ns: string) returns (ready: bool, err: bool)
    modifies c
    ensures Follows(c.oracle, old(c.log), TemporalPlan(spec, temporal, ns), c.log, ready, err)
  {
    PlanUnroll(c.oracle, c.log, TemporalPlan(spec, temporal, ns));
    var mode := if temporal.mode == ModeUnset then Managed else temporal.mode;
    match mode {
      case Managed =>
        // getPostgreSQLConnection
        if spec.infrastructure.None? { return false, true; }
        var pg := spec.infrastructure.value.postgresql;
        if pg.mode == External && pg.connection.None? { return false, true; }
        err := c.CreateOrUpdate(Obj(ConfigMap, ns, "temporal-helm-values"));
        if err { return false, true; }
        var helm := Obj(Job, ns, "temporal-helm-install");
        err := c.Deploy(helm, TemporalHelm);
        if err { return false, true; }
        var helmComplete;
        helmComplete, err := c.IsRolledOut(helm, TemporalHelm);
        if err || !helmComplete { return false, err; }
        ready, err := c.IsReady(Frontend(temporal), ReleaseNeeds(spec, temporal, helm));
      case External =>
        if temporal.endpoint == "" { return false, true; }
        err := c.Validate(ExternalTemporal(temporal.endpoint));
        ready := !err;
      case _ =>
        return false, true;
    }
  }

  method ReconcileKeycloak(c: Client, keycloak: KeycloakConfig, ns: string) returns (ready: bool, err: bool)
    modifies c
    ensures Follows(c.oracle, old(c.log), KeycloakPlan(keycloak, ns), c.log, ready, err)
  {
    PlanUnroll(c.oracle, c.log, KeycloakPlan(keycloak, ns));
    match keycloak.mode {
      case AuthExternal =>
        if keycloak.providers == [] { return false, true; }
        ready, err := CheckProviders(c, keycloak.providers, ns);
      case AuthDisabled =>
        return true, false;
      case OtherAuth =>
        return false, true;
      case _ =>
        err := c.Validate(KeycloakOperator);
        if err { return false, true; }
        err := c.CreateOrUpdate(Obj(KeycloakInstance, ns, "keycloak"));
        if err { return false, true; }
        err := c.CreateOrUpdate(Obj(KeycloakRealmImport, ns, "keycloak-" + keycloak.realm));
        if err { return false, true; }
        ready, err := c.IsReady(KeycloakPolled(ns), {KeycloakPolled(ns)});
    }
  }

  method CheckProviders(c: Client, providers: seq<AuthProvider>, ns: string) returns (ready: bool, err: bool)
    modifies c
    ensures Follows(c.oracle, old(c.log), ProvidersPlan(providers, ns, |providers|), c.log, ready, err)
  {
    for i := 0 to |providers|
      invariant RunPlan(c.oracle, old(c.log), ProvidersPlan(providers, ns, i)) == PlanRun(c.log, Yes)
    {
      if providers[i].clientSecretRef.Some? {
        var name := providers[i].clientSecretRef.value.name;
        ghost var check := [Must(SecretRead(ns, name))];
        PlanUnroll(c.oracle, c.log, check);
        PlanConcat(c.oracle, old(c.log), ProvidersPlan(providers, ns, i), check);
        var available;
        available, err := c.IsSecretAvailable(ns, name);
        if err || !available {
          ProvidersStuck(c.oracle, old(c.log), providers, ns, i + 1, |providers|);
          return false, true;
        }
      } else {
        assert ProvidersPlan(providers, ns, i + 1) == ProvidersPlan(providers, ns, i);
      }
    }
    ready, err := true, false;
  }

  lemma {:induction false} ProvidersStuck(o: Oracle, log: seq<Call>, providers: seq<AuthProvider>, ns: string, k: nat,
      m: nat)
    requires k <= m <= |providers|
    requires RunPlan(o, log, ProvidersPlan(providers, ns, k)).answer != Yes
    ensures RunPlan(o, log, ProvidersPlan(providers, ns, m)) == RunPlan(o, log, ProvidersPlan(providers, ns, k))
  {
    if k < m {
      ProvidersStuck(o, log, providers, ns, k, m - 1);
      var rest := if providers[m - 1].clientSecretRef.Some?
                  then [Must(SecretRead(ns, providers[m - 1].clientSecretRef.value.name))] else [];
      PlanConcat(o, log, ProvidersPlan(providers, ns, m - 1), rest);
    }
  }

  method ReconcileTemporalSetup(c: Client, ns: string) returns (ready: bool, err: bool)
    modifies c
    ensures Follows(c.oracle, old(c.log), TemporalSetupPlan(ns), c.log, ready, err)
  {
    PlanUnroll(c.oracle, c.log, TemporalSetupPlan(ns));
    var job := Obj(Job, ns, "temporal-namespace-init");
    err := c.Deploy(job, TemporalInit);
    if err { return false, true; }
    ready, err := c.IsRolledOut(job, TemporalInit);
  }

  method ReconcileRestAPI(c: Client, ns: string) returns (ready: bool, err: bool)
    modifies c
    ensures Follows(c.oracle, old(c.log), RestAPIPlan(ns), c.log, ready, err)
  {
    PlanUnroll(c.oracle, c.log, RestAPIPlan(ns));
    err := c.CreateOrUpdate(Obj(ConfigMap, ns, "carbide-rest-api-config"));
    if err { return false, true; }
    var w := Obj(Deployment, ns, REST_API_NAME);
    err := c.Deploy(w, RestServer);
    if err { return false, true; }
    err := c.CreateOrUpdate(Obj(Service, ns, REST_API_NAME));
    if err { return false, true; }
    ready, err := c.IsRolledOut(w, RestServer);
  }

  method ReconcileWorker(c: Client, ns: string, name: string, pod: Workload) returns (ready: bool, err: bool)
    modifies c
    ensures Follows(c.oracle, old(c.log), WorkerPlan(ns, name, pod), c.log, ready, err)
  {
    PlanUnroll(c.oracle, c.log, WorkerPlan(ns, name, pod));
    var w := Obj(Deployment, ns, name);
    err := c.Deploy(w, pod);
    if err { return false, true; }
    ready, err := c.IsRolledOut(w, pod);
  }

  method ReconcileSiteManager(c: Client, ns: string) returns (ready: bool, err: bool)
    modifies c
    ensures Follows(c.oracle, old(c.log), SiteManagerPlan(ns), c.log, ready, err)
  {
    PlanUnroll(c.oracle, c.log, SiteManagerPlan(ns));
    err := c.CreateOrUpdate(Obj(ServiceAccount, ns, SITE_MANAGER_NAME));
    if err { return false, true; }
    err := c.CreateOrUpdate(Obj(Role, ns, SITE_MANAGER_NAME));
    if err { return false, true; }
    err := c.CreateOrUpdate(Obj(RoleBinding, ns, SITE_MANAGER_NAME));
    if err { return false, true; }
    var w := Obj(Deployment, ns, SITE_MANAGER_NAME);
    err := c.Deploy(w, Manager);
    if err { return false, true; }
    err := c.CreateOrUpdate(Obj(Service, ns, SITE_MANAGER_NAME));
    if err { return false, true; }
    ready, err := c.IsRolledOut(w, Manager);
  }

  method ReconcileSiteAgent(c: Client, ns: string) returns (ready: bool, err: bool)
    modifies c
    ensures Follows(c.oracle, old(c.log), SiteAgentPlan(ns), c.log, ready, err)
  {
    PlanUnroll(c.oracle, c.log, SiteAgentPlan(ns));
    err := c.CreateOrUpdate(Obj(ConfigMap, ns, "carbide-rest-site-agent-config"));
    if err { return false, true; }
    var w := Obj(Deployment, ns, SITE_AGENT_NAME);
    err := c.Deploy(w, Agent);
    if err { return false, true; }
    ready, err := c.IsRolledOut(w, Agent);
  }

  method ReconcilePrelude(c: Client, spec: Spec, ns: string) returns (ready: bool, err: bool)
    requires RestEnabled(spec) && ns == TierNamespace(spec)
    modifies c
    ensures Follows(c.oracle, old(c.log), Prelude(spec), c.log, ready, err)
  {
    ghost var accounts := CoreTier.AccountsPlan(AccountNames(), ns);
    PlanConcat(c.oracle, c.log, accounts, TLSPlan(spec, ns));
    PlanConcat(c.oracle, c.log, accounts + TLSPlan(spec, ns), SecretsPlan(spec, ns));
    ready := false;
    err := CoreTier.CreateServiceAccounts(c, AccountNames(), ns);
    if err { return; }
    err := CreateTLSResources(c, spec, ns);
    if err { return; }
    ready, err := CreateSecrets(c, spec, ns);
  }

  /** Temporal, Keycloak and, behind Temporal, its namespace setup (not reported). */
  method ReconcileFoundations(c: Client, spec: Spec, ns: string, ghost start: Net)
    returns (components: seq<ComponentStatus>, temporalReady: bool, keycloakReady: bool, setupReady: bool, err: bool)
    requires RestEnabled(spec) && ns == TierNamespace(spec) && start == START.(log := c.log)
    modifies c
    ensures err ==> Broken(c.oracle, start, Slots(spec), c.log, components)
    ensures !err ==>
      && Standing(c.oracle, start, Slots(spec), 3, c.log, components)
      && NetAfter(c.oracle, start, Slots(spec), 3).ready
         == (if temporalReady then {Temporal} else {}) + (if keycloakReady then {Keycloak} else {})
            + (if setupReady then {TemporalSetup} else {})
      && (setupReady ==> temporalReady)
  {
    ghost var o, slots, log := c.oracle, Slots(spec), c.log;
    components, keycloakReady, setupReady := [], false, false;
    temporalReady, err := ReconcileTemporal(c, spec, spec.rest.value.temporal, ns);
    SlotRan(o, start, slots, 0, log, components, c.log, temporalReady, err);
    components := components + [ComponentStatus(Temporal, temporalReady)];
    if err { return; }
    log := c.log;
    keycloakReady, err := ReconcileKeycloak(c, spec.rest.value.keycloak, ns);
    SlotRan(o, start, slots, 1, log, components, c.log, keycloakReady, err);
    components := components + [ComponentStatus(Keycloak, keycloakReady)];
    if err { return; }
    if temporalReady {
      log := c.log;
      setupReady, err := ReconcileTemporalSetup(c, ns);
      SlotRan(o, start, slots, 2, log, components, c.log, setupReady, err);
    } else {
      SlotSkipped(o, start, slots, 2, c.log, components);
    }
  }

  /** The REST API, behind Temporal, Keycloak and the Temporal setup. */
  method ReconcileAPIGate(c: Client, spec: Spec, ns: string, temporalReady: bool, keycloakReady: bool, setupReady: bool,
                          before: seq<ComponentStatus>, ghost start: Net)
    returns (components: seq<ComponentStatus>, restAPIReady: bool, err: bool)
    requires RestEnabled(spec) && ns == TierNamespace(spec)
    requires Standing(c.oracle, start, Slots(spec), 3, c.log, before)
    requires NetAfter(c.oracle, start, Slots(spec), 3).ready
             == (if temporalReady then {Temporal} else {}) + (if keycloakReady then {Keycloak} else {})
                + (if setupReady then {TemporalSetup} else {})
    modifies c
    ensures err ==> Broken(c.oracle, start, Slots(spec), c.log, components)
    ensures !err ==>
      && Standing(c.oracle, start, Slots(spec), 4, c.log, components)
      && NetAfter(c.oracle, start, Slots(spec), 4).ready
         == NetAfter(c.oracle, start, Slots(spec), 3).ready + (if restAPIReady then {RestAPI} else {})
  {
    ghost var o, slots, log := c.oracle, Slots(spec), c.log;
    components, restAPIReady, err := before, false, false;
    if temporalReady && keycloakReady && setupReady {
      restAPIReady, err := ReconcileRestAPI(c, ns);
      SlotRan(o, start, slots, 3, log, components, c.log, restAPIReady, err);
      components := components + [ComponentStatus(RestAPI, restAPIReady)];
    } else {
      SlotSkipped(o, start, slots, 3, c.log, components);
    }
  }

  /** The two workers. One that fails is not reported. */
  method ReconcileWorkers(c: Client, spec: Spec, ns: string, temporalReady: bool, setupReady: bool,
                          before: seq<ComponentStatus>, ghost start: Net)
    returns (components: seq<ComponentStatus>, cloudWorkerReady: bool, siteWorkerReady: bool, err: bool)
    requires RestEnabled(spec) && ns == TierNamespace(spec)
    requires Standing(c.oracle, start, Slots(spec), 4, c.log, before)
    requires var ready := NetAfter(c.oracle, start, Slots(spec), 4).ready;
             && (temporalReady <==> Temporal in ready) && (setupReady <==> TemporalSetup in ready)
             && CloudWorker !in ready && SiteWorker !in ready
    modifies c
    ensures err ==> Broken(c.oracle, start, Slots(spec), c.log, components)
    ensures !err ==>
      && Standing(c.oracle, start, Slots(spec), 6, c.log, components)
      && var ready, was := NetAfter(c.oracle, start, Slots(spec), 6).ready,
         NetAfter(c.oracle, start, Slots(spec), 4).ready;
         && (Temporal in ready <==> Temporal in was) && (Keycloak in ready <==> Keycloak in was)
         && (TemporalSetup in ready <==> TemporalSetup in was) && (RestAPI in ready <==> RestAPI in was)
         && (SiteManager in ready <==> SiteManager in was) && (SiteAgent in ready <==> SiteAgent in was)
         && (temporalReady && setupReady && cloudWorkerReady <==> temporalReady && setupReady && CloudWorker in ready)
         && (temporalReady && setupReady && siteWorkerReady <==> temporalReady && setupReady && SiteWorker in ready)
  {
    ghost var o, slots, log := c.oracle, Slots(spec), c.log;
    components, cloudWorkerReady, siteWorkerReady, err := before, true, true, false;
    if temporalReady && setupReady {
      cloudWorkerReady, err := ReconcileWorker(c, ns, CLOUD_WORKER_NAME, CloudRunner);
      SlotRan(o, start, slots, 4, log, components, c.log, cloudWorkerReady, err);
      if err { return; }
      components := components + [ComponentStatus(CloudWorker, cloudWorkerReady)];
      log := c.log;
      siteWorkerReady, err := ReconcileWorker(c, ns, SITE_WORKER_NAME, SiteRunner);
      SlotRan(o, start, slots, 5, log, components, c.log, siteWorkerReady, err);
      if err { return; }
      components := components + [ComponentStatus(SiteWorker, siteWorkerReady)];
    } else {
      SlotSkipped(o, start, slots, 4, c.log, components);
      SlotSkipped(o, start, slots, 5, c.log, components);
    }
  }

  method ReconcileAPIAndWorkers(c: Client, spec: Spec, ns: string, temporalReady: bool, keycloakReady: bool,
      setupReady: bool,
                                before: seq<ComponentStatus>, ghost start: Net)
    returns (components: seq<ComponentStatus>, restAPIReady: bool, cloudWorkerReady: bool, siteWorkerReady: bool,
        err: bool)
    requires RestEnabled(spec) && ns == TierNamespace(spec)
    requires Standing(c.oracle, start, Slots(spec), 3, c.log, before)
    requires setupReady ==> temporalReady
    requires NetAfter(c.oracle, start, Slots(spec), 3).ready
             == (if temporalReady then {Temporal} else {}) + (if keycloakReady then {Keycloak} else {})
                + (if setupReady then {TemporalSetup} else {})
    modifies c
    ensures err ==> Broken(c.oracle, start, Slots(spec), c.log, components)
    ensures !err ==>
      && Standing(c.oracle, start, Slots(spec), 6, c.log, components)
      && var ready := NetAfter(c.oracle, start, Slots(spec), 6).ready;
         && (temporalReady <==> Temporal in ready) && (keycloakReady <==> Keycloak in ready)
         && (setupReady <==> TemporalSetup in ready) && (restAPIReady <==> RestAPI in ready)
         && (setupReady && cloudWorkerReady <==> setupReady && CloudWorker in ready)
         && (setupReady && siteWorkerReady <==> setupReady && SiteWorker in ready)
         && SiteManager !in ready && SiteAgent !in ready
  {
    cloudWorkerReady, siteWorkerReady := true, true;
    components, restAPIReady, err :=
      ReconcileAPIGate(c, spec, ns, temporalReady, keycloakReady, setupReady, before, start);
    if err { return; }
    components, cloudWorkerReady, siteWorkerReady, err :=
      ReconcileWorkers(c, spec, ns, temporalReady, setupReady, components, start);
  }

  /** Site manager and site agent, behind the REST API. */
  method ReconcileSiteServices(c: Client, spec: Spec, ns: string, restAPIReady: bool, before: seq<ComponentStatus>,
      ghost start: Net)
    returns (components: seq<ComponentStatus>, siteManagerReady: bool, siteAgentReady: bool, err: bool)
    requires RestEnabled(spec) && ns == TierNamespace(spec)
    requires Standing(c.oracle, start, Slots(spec), 6, c.log, before)
    requires var ready := NetAfter(c.oracle, start, Slots(spec), 6).ready;
             (restAPIReady <==> RestAPI in ready) && SiteManager !in ready && SiteAgent !in ready
    modifies c
    ensures err ==> Broken(c.oracle, start, Slots(spec), c.log, components)
    ensures !err ==>
      && Standing(c.oracle, start, Slots(spec), 8, c.log, components)
      && var ready, was := NetAfter(c.oracle, start, Slots(spec), 8).ready,
         NetAfter(c.oracle, start, Slots(spec), 6).ready;
         && (Temporal in ready <==> Temporal in was) && (Keycloak in ready <==> Keycloak in was)
         && (TemporalSetup in ready <==> TemporalSetup in was) && (RestAPI in ready <==> RestAPI in was)
         && (CloudWorker in ready <==> CloudWorker in was) && (SiteWorker in ready <==> SiteWorker in was)
         && (restAPIReady && siteManagerReady
            <==> restAPIReady && (ManagementProfile(spec.profile) ==> SiteManager in ready))
         && (restAPIReady && siteAgentReady <==> restAPIReady && (SiteAgentEnabled(spec) ==> SiteAgent in ready))
  {
    ghost var o, slots, log := c.oracle, Slots(spec), c.log;
    components, siteManagerReady, siteAgentReady, err := before, true, true, false;
    if (spec.profile == Management || spec.profile == ManagementWithSite) && restAPIReady {
      siteManagerReady, err := ReconcileSiteManager(c, ns);
      SlotRan(o, start, slots, 6, log, components, c.log, siteManagerReady, err);
      components := components + [ComponentStatus(SiteManager, siteManagerReady)];
      if err { return; }
    } else {
      SlotSkipped(o, start, slots, 6, c.log, components);
    }
    if spec.rest.value.siteAgent == Some(true) && restAPIReady {
      log := c.log;
      siteAgentReady, err := ReconcileSiteAgent(c, ns);
      SlotRan(o, start, slots, 7, log, components, c.log, siteAgentReady, err);
      components := components + [ComponentStatus(SiteAgent, siteAgentReady)];
    } else {
      SlotSkipped(o, start, slots, 7, c.log, components);
    }
  }

  lemma ReadyFlags(spec: Spec, ready: set<Component>)
    requires RestEnabled(spec)
    ensures AllReady(Slots(spec), ready) <==>
            && Temporal in ready && Keycloak in ready && TemporalSetup in ready && RestAPI in ready
            && CloudWorker in ready && SiteWorker in ready
            && (ManagementProfile(spec.profile) ==> SiteManager in ready)
            && (SiteAgentEnabled(spec) ==> SiteAgent in ready)
  {
    var s := Slots(spec);
    assert s[0].Some? && s[1].Some? && s[2].Some? && s[3].Some? && s[4].Some? && s[5].Some?;
    assert s[6].Some? == ManagementProfile(spec.profile) && s[7].Some? == SiteAgentEnabled(spec);
  }

  method Reconcile(c: Client, spec: Spec) returns (status: TierStatus, err: bool)
    requires c.log == []
    modifies c
    ensures TierRun(status, err, c.log) == Run(c.oracle, spec)
  {
    if spec.rest.None? || !spec.rest.value.enabled {
      return TierStatus(true, []), false;
    }
    var ns := TierNamespace(spec);
    status := TierStatus(false, []);
    var secretsReady;
    secretsReady, err := ReconcilePrelude(c, spec, ns);
    if err || !secretsReady { return; }

    ghost var start := START.(log := c.log);
    var components, temporalReady, keycloakReady, setupReady, restAPIReady, cloudWorkerReady, siteWorkerReady;
    var siteManagerReady, siteAgentReady;
    components, temporalReady, keycloakReady, setupReady, err := ReconcileFoundations(c, spec, ns, start);
    status := status.(components := components);
    if err { return; }
    components, restAPIReady, cloudWorkerReady, siteWorkerReady, err :=
      ReconcileAPIAndWorkers(c, spec, ns, temporalReady, keycloakReady, setupReady, components, start);
    status := status.(components := components);
    if err { return; }
    components, siteManagerReady, siteAgentReady, err :=
      ReconcileSiteServices(c, spec, ns, restAPIReady, components, start);
    status := status.(components := components);
    if err { return; }

    status := status.(ready := temporalReady && keycloakReady && setupReady && restAPIReady
                               && cloudWorkerReady && siteWorkerReady && siteManagerReady && siteAgentReady);
    ReadyFlags(spec, NetAfter(c.oracle, start, Slots(spec), 8).ready);
  }

  // ----------------------------------------------------- what the tier promises

  predicate Wanted(spec: Spec, c: Component) {
    match c
    case Temporal => true
    case Keycloak => true
    case RestAPI => true
    case CloudWorker => true
    case SiteWorker => true
    case SiteManager => ManagementProfile(spec.profile)
    case SiteAgent => SiteAgentEnabled(spec)
    case _ => false
  }

  function WantedBefore(c: Component): set<Component> {
    match c
    case RestAPI => {Temporal, Keycloak}
    case CloudWorker => {Temporal}
    case SiteWorker => {Temporal}
    case SiteManager => {RestAPI}
    case SiteAgent => {RestAPI}
    case _ => {}
  }

  lemma SlotsAreWanted(spec: Spec, c: Component)
    requires RestEnabled(spec)
    ensures Expected(Slots(spec), c) && Slots(spec)[Rank(c)].value.reported <==> Wanted(spec, c)
    ensures Wanted(spec, c) ==> WantedBefore(c) <= Slots(spec)[Rank(c)].value.needs
  {
  }

  lemma SlotsWellFormed(spec: Spec)
    requires RestEnabled(spec)
    ensures WellFormed(Slots(spec)) && SomethingExpected(Slots(spec))
  {
    var s := Slots(spec);
    assert s[0].Some? && s[0].value.reported;
    assert s[3].Some? && s[3].value.reported && TemporalSetup in s[3].value.needs;
    forall i | 0 <= i < |s| && s[i].Some?
      ensures Rank(s[i].value.name) == i && (s[i].value.reported || s[i].value.name == TemporalSetup)
      ensures forall d | d in s[i].value.needs :: Expected(s, d) && Rank(d) < i
    {
    }
  }

  /** The REST tier reports exactly the truth, whatever the cluster answers: the
      flags that default to true never hide a skipped step. */
  lemma RestStatusExact(o: Oracle, spec: Spec)
    requires RestEnabled(spec)
    ensures StatusExact(c => Wanted(spec, c), WantedBefore, Run(o, spec).status)
    ensures Run(o, spec).err ==> !Run(o, spec).status.ready
  {
    SlotsWellFormed(spec);
    var slots := Slots(spec);
    forall c ensures Wanted(spec, c) <==> Expected(slots, c) && slots[Rank(c)].value.reported {
      SlotsAreWanted(spec, c);
    }
    forall c, d | Wanted(spec, c) && d in WantedBefore(c)
      ensures Expected(slots, c) && d in slots[Rank(c)].value.needs && Wanted(spec, d)
    {
      SlotsAreWanted(spec, c);
    }
    TierStatusExact(o, Prelude(spec), slots, c => Wanted(spec, c), WantedBefore);
  }
}
