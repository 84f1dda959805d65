/** What stands behind a component that is reported ready, and before a workload that is
    applied, told by the calls of the pass alone. */
module Evidence {
  import opened Api
  import opened Gates
  import opened Logs
  import opened CorePods
  import opened RestPods
  import InfrastructureTier
  import CoreTier
  import RestTier

  // -------------------------------------------------------------------- core

  /** The workload and its service were applied, and the workload then rolled out. */
  ghost predicate ServiceUp(o: Oracle, log: seq<Call>, ns: string, name: string, pod: Workload) {
    RolledOut(o, log, Obj(Deployment, ns, name), pod) && Answered(o, log, Write(Obj(Service, ns, name)))
  }

  ghost predicate PXEUp(o: Oracle, log: seq<Call>, spec: Spec, ns: string) {
    var w, claim := Obj(Deployment, ns, PXE_NAME), Obj(PersistentVolumeClaim, ns, "carbide-pxe-data");
    && RolledOut(o, log, w, PXEServer)
    && (spec.core.pxe.hasStorage ==>
          Followed(o, log, Write(claim), Probe(claim, {claim}))
          && Followed(o, log, Probe(claim, {claim}), Apply(w, PXEServer)))
  }

  /** Managed: the Helm job completed, then the init job was applied and completed too.
      External: an address, and the token's secret if one is named. */
  ghost predicate VaultUp(o: Oracle, log: seq<Call>, vault: VaultConfig, ns: string) {
    var helm, init := Obj(Job, ns, "vault-helm-install"), Obj(Job, ns, "vault-init");
    match vault.mode
    case Managed =>
      RolledOut(o, log, helm, VaultHelm) && RolledOut(o, log, init, VaultInit)
      && Followed(o, log, Await(helm, VaultHelm), Apply(init, VaultInit))
    case External =>
      vault.address != ""
      && (vault.tokenSecretRef.Some? ==> Answered(o, log, SecretRead(ns, vault.tokenSecretRef.value.name)))
    case _ => false
  }

  ghost predicate CoreEvidence(o: Oracle, log: seq<Call>, spec: Spec, c: Component) {
    var ns := CoreTier.TierNamespace(spec);
    match c
    case Migration => true
    case API => ServiceUp(o, log, ns, API_NAME, APIServer)
    case DHCP => RolledOut(o, log, Obj(DaemonSet, ns, DHCP_NAME), DHCPServer)
    case PXE => PXEUp(o, log, spec, ns)
    case DNS => RolledOut(o, log, Obj(DaemonSet, ns, DNS_NAME), DNSServer)
    case Vault => spec.core.vault.Some? && VaultUp(o, log, spec.core.vault.value, ns)
    case RLA => ServiceUp(o, log, ns, RLA_NAME, RLAServer)
    case PSM => ServiceUp(o, log, ns, PSM_NAME, PSMServer)
    case _ => false
  }

  lemma ServiceDone(o: Oracle, log: seq<Call>, ns: string, name: string, pod: Workload)
    requires Done(o, log, CoreTier.ServicePlan(ns, name, pod))
    ensures ServiceUp(o, log, ns, name, pod)
  {
    DoneFollowed(o, log, CoreTier.ServicePlan(ns, name, pod), 0, 2);
    DoneAnswered(o, log, CoreTier.ServicePlan(ns, name, pod), 1);
  }

  lemma DaemonDone(o: Oracle, log: seq<Call>, ns: string, name: string, pod: Workload)
    requires Done(o, log, CoreTier.DaemonPlan(ns, name, pod))
    ensures RolledOut(o, log, Obj(DaemonSet, ns, name), pod)
  {
    DoneFollowed(o, log, CoreTier.DaemonPlan(ns, name, pod), 0, 1);
  }

  lemma PXEDone(o: Oracle, log: seq<Call>, spec: Spec, ns: string)
    requires Done(o, log, CoreTier.PXEPlan(spec, ns))
    ensures PXEUp(o, log, spec, ns)
  {
    var plan := CoreTier.PXEPlan(spec, ns);
    DoneFollowed(o, log, plan, |plan| - 2, |plan| - 1);
    if spec.core.pxe.hasStorage {
      DoneFollowed(o, log, plan, 0, 1);
      DoneFollowed(o, log, plan, 1, 2);
    }
  }

  lemma VaultDone(o: Oracle, log: seq<Call>, vault: VaultConfig, ns: string)
    requires Done(o, log, CoreTier.VaultPlan(vault, ns))
    ensures VaultUp(o, log, vault, ns)
  {
    var plan := CoreTier.VaultPlan(vault, ns);
    if vault.mode == Managed {
      DoneFollowed(o, log, plan, 3, 4);
      DoneFollowed(o, log, plan, 4, 5);
      DoneFollowed(o, log, plan, 5, 6);
    } else if |plan| > 0 {
      DoneAnswered(o, log, plan, 0);
    }
  }

  lemma CoreGateDone(o: Oracle, log: seq<Call>, spec: Spec, c: Component)
    requires Expected(CoreTier.Slots(spec), c)
    requires Done(o, log, CoreTier.Slots(spec)[Rank(c)].value.plan)
    ensures CoreEvidence(o, log, spec, c)
  {
    var ns := CoreTier.TierNamespace(spec);
    match c
    case API => ServiceDone(o, log, ns, API_NAME, APIServer);
    case DHCP => DaemonDone(o, log, ns, DHCP_NAME, DHCPServer);
    case PXE => PXEDone(o, log, spec, ns);
    case DNS => DaemonDone(o, log, ns, DNS_NAME, DNSServer);
    case Vault => VaultDone(o, log, spec.core.vault.value, ns);
    case RLA => ServiceDone(o, log, ns, RLA_NAME, RLAServer);
    case PSM => ServiceDone(o, log, ns, PSM_NAME, PSMServer);
    case _ =>
  }

  lemma CoreWellFormed(spec: Spec)
    ensures WellFormed(CoreTier.Slots(spec))
  {
    if spec.profile != Management { CoreTier.SlotsWellFormed(spec); }
  }

  /** Every core component that is reported ready was brought up in that pass: its workload
      was applied and then seen rolled out, with what goes with it. */
  lemma CoreEntriesAreEarned(o: Oracle, spec: Spec, e: ComponentStatus)
    requires e in CoreTier.Run(o, spec).status.components && e.ready
    ensures CoreEvidence(o, CoreTier.Run(o, spec).log, spec, e.name)
  {
    CoreWellFormed(spec);
    TierLogged(o, CoreTier.Prelude(spec), CoreTier.Slots(spec));
    CoreGateDone(o, CoreTier.Run(o, spec).log, spec, e.name);
  }

  predicate BehindAPI(pod: Workload) {
    pod in {DHCPServer, PXEServer, DNSServer, VaultHelm, VaultInit, RLAServer, PSMServer}
  }

  lemma CorePodGate(spec: Spec, s: nat, j: nat, pod: Workload)
    requires s < |CoreTier.Slots(spec)| && CoreTier.Slots(spec)[s].Some? && j < |CoreTier.Slots(spec)[s].value.plan|
    requires var a := CoreTier.Slots(spec)[s].value.plan[j]; !Blocked(a) && a.call.Apply? && a.call.pod == pod
    ensures var needs := CoreTier.Slots(spec)[s].value.needs;
            && (BehindAPI(pod) ==> API in needs)
            && (pod in {RLAServer, PSMServer} && spec.core.vault.Some? ==> Vault in needs)
  {
  }

  /** No workload is applied too early: whenever a core workload other than the API's is
      applied, the API had been applied and seen rolled out before, in the same pass; and
      whenever RLA or PSM is, a configured Vault had been brought up. */
  lemma CoreWorkloadsWait(o: Oracle, spec: Spec, i: nat)
    requires i < |CoreTier.Run(o, spec).log| && CoreTier.Run(o, spec).log[i].Apply?
    ensures var log := CoreTier.Run(o, spec).log;
            && (BehindAPI(log[i].pod) ==> CoreEvidence(o, log[..i], spec, API))
            && (log[i].pod in {RLAServer, PSMServer} && spec.core.vault.Some?
                ==> CoreEvidence(o, log[..i], spec, Vault))
  {
    var prelude, slots, log := CoreTier.Prelude(spec), CoreTier.Slots(spec), CoreTier.Run(o, spec).log;
    CoreWellFormed(spec);
    TierLogged(o, prelude, slots);
    if InPlace(o, log, prelude, i, i) {
      CorePreludeApplies(spec, i);
    } else {
      var s: nat, j: nat :| s < |slots| && slots[s].Some? && InPlace(o, log, slots[s].value.plan, i, j)
          && forall d | d in slots[s].value.needs :: Expected(slots, d) && Done(o, log[..i], slots[Rank(d)].value.plan);
      CorePodGate(spec, s, j, log[i].pod);
      if API in slots[s].value.needs { CoreGateDone(o, log[..i], spec, API); }
      if Vault in slots[s].value.needs { CoreGateDone(o, log[..i], spec, Vault); }
    }
  }

  lemma CorePreludeApplies(spec: Spec, i: nat)
    requires i < |CoreTier.Prelude(spec)|
    ensures var a := CoreTier.Prelude(spec)[i]; !Blocked(a) ==> !a.call.Apply?
  {
    if spec.profile != Management {
      var ns := CoreTier.TierNamespace(spec);
      assert forall j | 0 <= j < |CoreTier.TLSPlan(spec, ns)| ::
          var a := CoreTier.TLSPlan(spec, ns)[j]; !Blocked(a) ==> !a.call.Apply?;
      assert forall j | 0 <= j < |CoreTier.ConfigPlan(spec, ns)| ::
          var a := CoreTier.ConfigPlan(spec, ns)[j]; !Blocked(a) ==> !a.call.Apply?;
    }
  }

  // -------------------------------------------------------------------- REST

  /** Managed: the Helm job completed, then the release's frontend was seen ready.
      External: the endpoint was reached. */
  ghost predicate TemporalUp(o: Oracle, log: seq<Call>, spec: Spec, temporal: TemporalConfig, ns: string) {
    var helm := Obj(Job, ns, "temporal-helm-install");
    match temporal.mode
    case ModeUnset | Managed =>
      && RolledOut(o, log, helm, TemporalHelm)
      && exists frontend: Call | frontend.Probe?
           && frontend.obj == Obj(Deployment, OrElse(temporal.namespace, "temporal"), "temporal-frontend") ::
           Followed(o, log, Await(helm, TemporalHelm), frontend)
    case External => temporal.endpoint != "" && Answered(o, log, Reach(ExternalTemporal(temporal.endpoint)))
    case OtherMode => false
  }

  /** Managed: the operator is there, instance and realm were written, and an instance of
      another name was seen ready. External: each client secret that is named was read. */
  ghost predicate KeycloakUp(o: Oracle, log: seq<Call>, keycloak: KeycloakConfig, ns: string) {
    match keycloak.mode
    case AuthUnset | AuthManaged =>
      var polled := Obj(KeycloakInstance, ns, "carbide-keycloak");
      && Answered(o, log, Reach(KeycloakOperator)) && Answered(o, log, Write(Obj(KeycloakInstance, ns, "keycloak")))
      && Answered(o, log, Write(Obj(KeycloakRealmImport, ns, "keycloak-" + keycloak.realm)))
      && Answered(o, log, Probe(polled, {polled}))
    case AuthExternal =>
      && keycloak.providers != []
      && forall i | 0 <= i < |keycloak.providers| && keycloak.providers[i].clientSecretRef.Some? ::
           Answered(o, log, SecretRead(ns, keycloak.providers[i].clientSecretRef.value.name))
    case AuthDisabled => true
    case OtherAuth => false
  }

  ghost predicate RestEvidence(o: Oracle, log: seq<Call>, spec: Spec, c: Component)
    requires spec.rest.Some?
  {
    var ns, rest := RestTier.TierNamespace(spec), spec.rest.value;
    match c
    case Temporal => TemporalUp(o, log, spec, rest.temporal, ns)
    case Keycloak => KeycloakUp(o, log, rest.keycloak, ns)
    case TemporalSetup => RolledOut(o, log, Obj(Job, ns, "temporal-namespace-init"), TemporalInit)
    case RestAPI => ServiceUp(o, log, ns, REST_API_NAME, RestServer)
    case CloudWorker => RolledOut(o, log, Obj(Deployment, ns, CLOUD_WORKER_NAME), CloudRunner)
    case SiteWorker => RolledOut(o, log, Obj(Deployment, ns, SITE_WORKER_NAME), SiteRunner)
    case SiteManager => ServiceUp(o, log, ns, SITE_MANAGER_NAME, Manager)
    case SiteAgent => RolledOut(o, log, Obj(Deployment, ns, SITE_AGENT_NAME), Agent)
    case _ => false
  }

  lemma TemporalDone(o: Oracle, log: seq<Call>, spec: Spec, temporal: TemporalConfig, ns: string)
    requires Done(o, log, RestTier.TemporalPlan(spec, temporal, ns))
    ensures TemporalUp(o, log, spec, temporal, ns)
  {
    var plan := RestTier.TemporalPlan(spec, temporal, ns);
    DoneAnswered(o, log, plan, 0);
    if temporal.mode == Managed || temporal.mode == ModeUnset {
      DoneFollowed(o, log, plan, 1, 2);
      DoneFollowed(o, log, plan, 2, 3);
    }
  }

  lemma {:induction false} ProviderPlanned(providers: seq<AuthProvider>, ns: string, k: nat, i: nat) returns (j: nat)
    requires i < k <= |providers| && providers[i].clientSecretRef.Some?
    ensures var plan := RestTier.ProvidersPlan(providers, ns, k);
            j < |plan| && plan[j] == Must(SecretRead(ns, providers[i].clientSecretRef.value.name))
  {
    if i == k - 1 {
      j := |RestTier.ProvidersPlan(providers, ns, k - 1)|;
    } else {
      j := ProviderPlanned(providers, ns, k - 1, i);
    }
  }

  lemma KeycloakDone(o: Oracle, log: seq<Call>, keycloak: KeycloakConfig, ns: string)
    requires Done(o, log, RestTier.KeycloakPlan(keycloak, ns))
    ensures KeycloakUp(o, log, keycloak, ns)
  {
    var plan := RestTier.KeycloakPlan(keycloak, ns);
    if keycloak.mode == AuthExternal && keycloak.providers != [] {
      forall i | 0 <= i < |keycloak.providers| && keycloak.providers[i].clientSecretRef.Some?
        ensures Answered(o, log, SecretRead(ns, keycloak.providers[i].clientSecretRef.value.name))
      {
        var j := ProviderPlanned(keycloak.providers, ns, |keycloak.providers|, i);
        DoneAnswered(o, log, plan, j);
      }
    } else if keycloak.mode != AuthDisabled {
      DoneAnswered(o, log, plan, 0);
      if keycloak.mode == AuthManaged || keycloak.mode == AuthUnset {
        DoneAnswered(o, log, plan, 1);
        DoneAnswered(o, log, plan, 2);
        DoneAnswered(o, log, plan, 3);
      }
    }
  }

  lemma RestGateDone(o: Oracle, log: seq<Call>, spec: Spec, c: Component)
    requires RestEnabled(spec) && Expected(RestTier.Slots(spec), c)
    requires Done(o, log, RestTier.Slots(spec)[Rank(c)].value.plan)
    ensures RestEvidence(o, log, spec, c)
  {
    var ns, rest := RestTier.TierNamespace(spec), spec.rest.value;
    match c
    case Temporal => TemporalDone(o, log, spec, rest.temporal, ns);
    case Keycloak => KeycloakDone(o, log, rest.keycloak, ns);
    case TemporalSetup => DoneFollowed(o, log, RestTier.TemporalSetupPlan(ns), 0, 1);
    case RestAPI =>
      DoneFollowed(o, log, RestTier.RestAPIPlan(ns), 1, 3);
      DoneAnswered(o, log, RestTier.RestAPIPlan(ns), 2);
    case CloudWorker => DoneFollowed(o, log, RestTier.WorkerPlan(ns, CLOUD_WORKER_NAME, CloudRunner), 0, 1);
    case SiteWorker => DoneFollowed(o, log, RestTier.WorkerPlan(ns, SITE_WORKER_NAME, SiteRunner), 0, 1);
    case SiteManager =>
      DoneFollowed(o, log, RestTier.SiteManagerPlan(ns), 3, 5);
      DoneAnswered(o, log, RestTier.SiteManagerPlan(ns), 4);
    case SiteAgent => DoneFollowed(o, log, RestTier.SiteAgentPlan(ns), 1, 2);
    case _ =>
  }

  /** The same for the REST tier. */
  lemma RestEntriesAreEarned(o: Oracle, spec: Spec, e: ComponentStatus)
    requires RestEnabled(spec) && e in RestTier.Run(o, spec).status.components && e.ready
    ensures RestEvidence(o, RestTier.Run(o, spec).log, spec, e.name)
  {
    RestTier.SlotsWellFormed(spec);
    TierLogged(o, RestTier.Prelude(spec), RestTier.Slots(spec));
    RestGateDone(o, RestTier.Run(o, spec).log, spec, e.name);
  }

  /** What a REST workload waits for. */
  function RestBehind(pod: Workload): set<Component> {
    match pod
    case TemporalInit => {Temporal}
    case RestServer => {Temporal, Keycloak, TemporalSetup}
    case CloudRunner => {Temporal, TemporalSetup}
    case SiteRunner => {Temporal, TemporalSetup}
    case Manager => {RestAPI}
    case Agent => {RestAPI}
    case _ => {}
  }

  lemma RestPodGate(spec: Spec, s: nat, j: nat, pod: Workload)
    requires s < |RestTier.Slots(spec)| && RestTier.Slots(spec)[s].Some? && j < |RestTier.Slots(spec)[s].value.plan|
    requires var a := RestTier.Slots(spec)[s].value.plan[j]; !Blocked(a) && a.call.Apply? && a.call.pod == pod
    ensures RestBehind(pod) <= RestTier.Slots(spec)[s].value.needs
  {
    var keycloak, ns := spec.rest.value.keycloak, RestTier.TierNamespace(spec);
    if s == 1 && keycloak.mode == AuthExternal {
      ProvidersOnlyRead(keycloak.providers, ns, |keycloak.providers|);
    }
  }

  lemma {:induction false} ProvidersOnlyRead(providers: seq<AuthProvider>, ns: string, k: nat)
    requires k <= |providers|
    ensures forall a | a in RestTier.ProvidersPlan(providers, ns, k) :: a.Must? && a.call.SecretRead?
  {
    if k > 0 { ProvidersOnlyRead(providers, ns, k - 1); }
  }

  /** When a REST workload is applied, all it waits for had been brought up before, in the
      same pass, the Temporal namespaces, which no status shows, included. */
  lemma RestWorkloadsWait(o: Oracle, spec: Spec, i: nat, c: Component)
    requires RestEnabled(spec) && i < |RestTier.Run(o, spec).log| && RestTier.Run(o, spec).log[i].Apply?
    requires c in RestBehind(RestTier.Run(o, spec).log[i].pod)
    ensures RestEvidence(o, RestTier.Run(o, spec).log[..i], spec, c)
  {
    var prelude, slots, log := RestTier.Prelude(spec), RestTier.Slots(spec), RestTier.Run(o, spec).log;
    RestTier.SlotsWellFormed(spec);
    TierLogged(o, prelude, slots);
    if InPlace(o, log, prelude, i, i) {
      RestPreludeApplies(spec, i);
    } else {
      var s: nat, j: nat :| s < |slots| && slots[s].Some? && InPlace(o, log, slots[s].value.plan, i, j)
          && forall d | d in slots[s].value.needs :: Expected(slots, d) && Done(o, log[..i], slots[Rank(d)].value.plan);
      RestPodGate(spec, s, j, log[i].pod);
      RestGateDone(o, log[..i], spec, c);
    }
  }

  lemma RestPreludeApplies(spec: Spec, i: nat)
    requires i < |RestTier.Prelude(spec)|
    ensures var a := RestTier.Prelude(spec)[i]; !Blocked(a) ==> !a.call.Apply?
  {
    if RestEnabled(spec) {
      var ns := RestTier.TierNamespace(spec);
      assert forall j | 0 <= j < |RestTier.TLSPlan(spec, ns)| ::
          var a := RestTier.TLSPlan(spec, ns)[j]; !Blocked(a) ==> !a.call.Apply?;
    }
  }

  // --------------------------------------------------------------- passwords

  /** The password of `user` was read: in managed mode from the secret that the database
      operator names after the user, else from the secret that the user's entry names. */
  ghost predicate PasswordRead(o: Oracle, log: seq<Call>, spec: Spec, user: string) {
    && spec.infrastructure.Some?
    && var infra := spec.infrastructure.value;
       if infra.postgresql.mode == External then
         && infra.postgresql.connection.Some? && user in infra.postgresql.connection.value.userSecrets
         && Answered(o, log, SecretRead(infra.namespace, infra.postgresql.connection.value.userSecrets[user].name))
       else
         Answered(o, log, SecretRead(OrElse(infra.namespace, "nvidia-carbide"), "carbide-postgres-pguser-" + user))
  }

  /** No tier is ready, nor any of its components, unless it has read its password. */
  lemma CoreHasReadItsPassword(o: Oracle, spec: Spec)
    requires spec.profile != Management
    requires CoreTier.Run(o, spec).status.ready || CoreTier.Run(o, spec).status.components != []
    ensures PasswordRead(o, CoreTier.Run(o, spec).log, spec, "carbide")
  {
    CoreWellFormed(spec);
    GateImpliesPrelude(o, CoreTier.Prelude(spec), CoreTier.Slots(spec));
    CoreTail(spec);
    TailDone(o, CoreTier.Run(o, spec).log, CoreTier.Prelude(spec),
        CoreTier.ConfigPlan(spec, CoreTier.TierNamespace(spec)));
    ConfigDone(o, CoreTier.Run(o, spec).log, spec, CoreTier.TierNamespace(spec));
  }

  lemma CoreTail(spec: Spec)
    requires spec.profile != Management
    ensures var prelude, config := CoreTier.Prelude(spec), CoreTier.ConfigPlan(spec, CoreTier.TierNamespace(spec));
            |config| <= |prelude| && prelude[|prelude| - |config|..] == config
  {
  }

  /** Where a plan is done, so is its tail. */
  lemma TailDone(o: Oracle, log: seq<Call>, plan: seq<Action>, tail: seq<Action>)
    requires DoneAt(o, log, plan, 0) && |tail| <= |plan| && plan[|plan| - |tail|..] == tail
    ensures Done(o, log, tail)
  {
    var b := |plan| - |tail|;
    forall i | 0 <= i < |tail| ensures !Blocked(tail[i]) && log[b + i] == tail[i].call && Passed(o, log, b + i) {
      assert tail[i] == plan[b + i] && log[0 + (b + i)] == plan[b + i].call;
    }
    assert DoneAt(o, log, tail, b);
  }

  lemma ConfigDone(o: Oracle, log: seq<Call>, spec: Spec, ns: string)
    requires Done(o, log, CoreTier.ConfigPlan(spec, ns))
    ensures PasswordRead(o, log, spec, "carbide")
  {
    var config := CoreTier.ConfigPlan(spec, ns);
    DoneAnswered(o, log, config, |config| - 1);
    if |config| > 1 { DoneAnswered(o, log, config, |config| - 2); }
  }

  lemma RestHasReadItsPassword(o: Oracle, spec: Spec)
    requires RestEnabled(spec)
    requires RestTier.Run(o, spec).status.ready || RestTier.Run(o, spec).status.components != []
    ensures PasswordRead(o, RestTier.Run(o, spec).log, spec, "forge")
  {
    RestTier.SlotsWellFormed(spec);
    GateImpliesPrelude(o, RestTier.Prelude(spec), RestTier.Slots(spec));
    RestTail(spec);
    TailDone(o, RestTier.Run(o, spec).log, RestTier.Prelude(spec),
        RestTier.SecretsPlan(spec, RestTier.TierNamespace(spec)));
    SecretsDone(o, RestTier.Run(o, spec).log, spec, RestTier.TierNamespace(spec));
  }

  lemma RestTail(spec: Spec)
    requires RestEnabled(spec)
    ensures var prelude, secrets := RestTier.Prelude(spec), RestTier.SecretsPlan(spec, RestTier.TierNamespace(spec));
            |secrets| <= |prelude| && prelude[|prelude| - |secrets|..] == secrets
  {
  }

  lemma SecretsDone(o: Oracle, log: seq<Call>, spec: Spec, ns: string)
    requires Done(o, log, RestTier.SecretsPlan(spec, ns))
    ensures PasswordRead(o, log, spec, "forge")
  {
    DoneAnswered(o, log, RestTier.SecretsPlan(spec, ns), 0);
  }

  // ------------------------------------------------------------ infrastructure

  /** Managed: the operator was found, the cluster written, then seen ready. External: the
      check went through, which takes the secrets of all users. */
  ghost predicate PostgresUp(o: Oracle, log: seq<Call>, infra: InfrastructureConfig) {
    var ns := OrElse(infra.namespace, "carbide-operators");
    var cluster := Obj(PostgresCluster, ns, "carbide-postgres");
    match infra.postgresql.mode
    case ModeUnset | Managed =>
      && Answered(o, log, Reach(PostgresOperator))
      && Followed(o, log, Write(cluster), Probe(cluster, {cluster}))
    case External =>
      && infra.postgresql.connection.Some?
      && var connection := infra.postgresql.connection.value;
         exists secrets: set<Obj> :: Answered(o, log, Reach(ExternalPostgres(connection.host, secrets)))
           && forall user | user in connection.userSecrets ::
                Obj(SecretObject, ns, connection.userSecrets[user].name) in secrets
    case OtherMode => false
  }

  lemma PostgresDone(o: Oracle, log: seq<Call>, infra: InfrastructureConfig)
    requires Done(o, log, InfrastructureTier.PostgresPlan(infra))
    ensures PostgresUp(o, log, infra)
  {
    var plan := InfrastructureTier.PostgresPlan(infra);
    DoneAnswered(o, log, plan, 0);
    if infra.postgresql.mode == Managed || infra.postgresql.mode == ModeUnset { DoneFollowed(o, log, plan, 1, 2); }
  }

  lemma InfrastructureWellFormed(infra: InfrastructureConfig)
    ensures WellFormed(InfrastructureTier.Slots(infra))
  {
  }

  /** PostgreSQL reported ready, and so the tier, takes that, and the storage class, if one
      is named, to have been found. */
  lemma PostgresIsEarned(o: Oracle, infra: InfrastructureConfig)
    requires var s := InfrastructureTier.Run(o, infra).status;
             s.ready || ComponentStatus(PostgreSQL, true) in s.components
    ensures var log := InfrastructureTier.Run(o, infra).log;
            && PostgresUp(o, log, infra)
            && (infra.storageClass != "" ==> Answered(o, log, Reach(StorageClassNamed(infra.storageClass))))
  {
    var prelude, slots := InfrastructureTier.Prelude(infra), InfrastructureTier.Slots(infra);
    InfrastructureWellFormed(infra);
    TierLogged(o, prelude, slots);
    assert slots[0].Some?;
    PostgresDone(o, InfrastructureTier.Run(o, infra).log, infra);
    if infra.storageClass != "" {
      GateImpliesPrelude(o, prelude, slots);
      DoneAnswered(o, InfrastructureTier.Run(o, infra).log, prelude, 1);
    }
  }

  /** Nothing is ready, not even a component, unless the prelude went through. */
  lemma GateImpliesPrelude(o: Oracle, prelude: seq<Action>, slots: seq<Slot>)
    requires RunTier(o, prelude, slots).status.ready || RunTier(o, prelude, slots).status.components != []
    requires WellFormed(slots)
    ensures DoneAt(o, RunTier(o, prelude, slots).log, prelude, 0)
  {
    var p := RunPlan(o, [], prelude);
    PlanOutcome(o, [], prelude, |prelude|);
    NetLogged(o, START.(log := p.log), slots, |slots|);
    DoneUpToGrows(o, p.log, RunTier(o, prelude, slots).log, prelude, |prelude|, 0);
  }
}
