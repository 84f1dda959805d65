/** Which admitted specs can be rolled out to the end, given what exists in the
    cluster. */
module Deployability {
  import opened Api
  import opened Gates
  import opened Admission
  import opened Credentials
  import opened Supply
  import opened CorePods
  import opened RestPods
  import opened Agreements
  import InfrastructureTier
  import CoreTier
  import RestTier

  function CoreNs(spec: Spec): string { CoreTier.TierNamespace(spec) }

  // ------------------- what secrets can come from, stage by stage of the rollout

  function ManagedCluster(spec: Spec): set<Obj> {
    if spec.infrastructure.Some? && !UsesExternalPostgres(spec)
    then {InfrastructureTier.ClusterObject(spec.infrastructure.value)} else {}
  }

  predicate HasCore(spec: Spec) { spec.profile != Management }

  function Certificates(ns: string, names: seq<string>): set<Obj> {
    set i | 0 <= i < |names| :: CoreTier.CertificateObject(ns, names[i])
  }

  function CoreCertificates(spec: Spec): set<Obj> {
    if HasCore(spec) && IsCertManagerMode(spec) then Certificates(CoreNs(spec), CoreTier.AccountNames(spec)) else {}
  }

  function RestCertificates(spec: Spec): set<Obj> {
    if IsCertManagerMode(spec) then Certificates(CoreNs(spec), RestTier.CertificateNames()) else {}
  }

  /** When the core tier reads its password. */
  function BeforeConfig(spec: Spec, existing: set<Obj>): set<Obj> {
    existing + ManagedCluster(spec) + CoreCertificates(spec)
  }

  /** When the API's pods start. */
  function BeforeAPI(spec: Spec, existing: set<Obj>): set<Obj> {
    BeforeConfig(spec, existing) + (if HasCore(spec) then {Secret(CoreNs(spec), "carbide-api-secret")} else {})
  }

  predicate VaultManaged(spec: Spec) { HasCore(spec) && spec.core.vault.Some? && spec.core.vault.value.mode == Managed }

  /** When RLA and PSM start. */
  function AfterVault(spec: Spec, existing: set<Obj>): set<Obj> {
    BeforeAPI(spec, existing) + (if VaultManaged(spec) then {Obj(Job, CoreNs(spec), CoreTier.VAULT_INIT)} else {})
  }

  /** When the REST tier reads its password. */
  function BeforeRestSecrets(spec: Spec, existing: set<Obj>): set<Obj> {
    AfterVault(spec, existing) + RestCertificates(spec)
  }

  /** When the REST components start. */
  function AfterRestSecrets(spec: Spec, existing: set<Obj>): set<Obj> {
    BeforeRestSecrets(spec, existing) + {Secret(CoreNs(spec), REST_SECRET)}
  }

  // ------------------------------------------------------------- deployability

  /** The password of `user` can be looked up and its secret is there. */
  ghost predicate PasswordThere(spec: Spec, stage: set<Obj>, user: string) {
    var found := PasswordLookup(spec.infrastructure, user);
    found.At? && Exists(spec, stage, Secret(found.namespace, found.name))
  }

  /** The secret of a core service's database user is where the service runs. */
  ghost predicate DatabaseSecretThere(spec: Spec, stage: set<Obj>, user: string) {
    Exists(spec, stage, Secret(CoreNs(spec), ResolveUserSecret(spec, user)))
  }

  ghost predicate VaultSecretsThere(spec: Spec, stage: set<Obj>) {
    forall i | 0 <= i < |VaultSecrets(spec)| :: Exists(spec, stage, Secret(CoreNs(spec), VaultSecrets(spec)[i]))
  }

  /** The core tier can become ready: the PXE pod is acceptable and has its
      certificate; the API finds its database and Vault secrets before Vault is
      reconciled; RLA and PSM find theirs afterwards. */
  ghost predicate CoreDeployable(spec: Spec, existing: set<Obj>) {
    && (spec.core.pxe.enabled ==> IsCertManagerMode(spec) && Secret(CoreNs(spec), PXE_CERTIFICATE) in existing)
    && PasswordThere(spec, BeforeConfig(spec, existing), "carbide")
    && DatabaseSecretThere(spec, BeforeAPI(spec, existing), "carbide")
    && VaultSecretsThere(spec, BeforeAPI(spec, existing))
    && (Enabled(spec.core.rla) ==> DatabaseSecretThere(spec, AfterVault(spec, existing), "rla"))
    && (Enabled(spec.core.psm) ==> DatabaseSecretThere(spec, AfterVault(spec, existing), "psm"))
  }

  predicate KeycloakManaged(spec: Spec) {
    spec.rest.Some? && (spec.rest.value.keycloak.mode == AuthManaged || spec.rest.value.keycloak.mode == AuthUnset)
  }

  ghost predicate ProvidersThere(spec: Spec, stage: set<Obj>, providers: seq<AuthProvider>) {
    forall i | 0 <= i < |providers| && providers[i].clientSecretRef.Some? ::
      Exists(spec, stage, Secret(CoreNs(spec), providers[i].clientSecretRef.value.name))
  }

  /** The accounts of the Helm job and the secret of the Temporal release are there. */
  ghost predicate TemporalDeployable(spec: Spec, existing: set<Obj>)
    requires spec.rest.Some?
  {
    var secret := RestTier.TemporalSecret(spec);
    && Account(CoreNs(spec), TEMPORAL_INSTALLER) in existing
    && (secret != "" ==>
          Exists(spec, AfterRestSecrets(spec, existing),
              Secret(RestTier.ReleaseNamespace(spec.rest.value.temporal), secret)))
  }

  ghost predicate KeycloakDeployable(spec: Spec, existing: set<Obj>)
    requires spec.rest.Some?
  {
    match spec.rest.value.keycloak.mode
    case AuthUnset | AuthManaged => RestTier.KeycloakPolled(CoreNs(spec)) in existing
    case AuthExternal => ProvidersThere(spec, AfterRestSecrets(spec, existing), spec.rest.value.keycloak.providers)
    case _ => true
  }

  /** The account of the site agent, and in cert-manager mode its secret, are there. */
  ghost predicate SiteAgentDeployable(spec: Spec, existing: set<Obj>) {
    && Account(CoreNs(spec), SITE_AGENT_NAME) in existing
    && (IsCertManagerMode(spec) ==>
          Exists(spec, AfterRestSecrets(spec, existing), Secret(CoreNs(spec), SITE_AGENT_NAME + "-tls")))
  }

  /** The REST tier can become ready: its namespace is there although this tier does
      not create it, and so is everything that its pods refer to. */
  ghost predicate RestDeployable(spec: Spec, existing: set<Obj>)
    requires spec.rest.Some? && spec.infrastructure.Some?
  {
    && (HasCore(spec) || CoreNs(spec) == InfrastructureTier.TierNamespace(spec.infrastructure.value)
        || Obj(Namespace, "", CoreNs(spec)) in existing)
    && PasswordThere(spec, BeforeRestSecrets(spec, existing), "forge")
    && (TemporalManaged(spec) ==> TemporalDeployable(spec, existing))
    && KeycloakDeployable(spec, existing)
    && Secret(CoreNs(spec), ENCRYPTION_KEY) in existing
    && Exists(spec, AfterRestSecrets(spec, existing), Secret(CoreNs(spec), WORKER_DATABASE_SECRET))
    && (SiteAgentEnabled(spec) ==> SiteAgentDeployable(spec, existing))
  }

  /** The infrastructure tier can become ready: an external PostgreSQL has the secret of
      each of its users. */
  ghost predicate InfrastructureDeployable(spec: Spec, existing: set<Obj>)
    requires spec.infrastructure.Some?
  {
    var infra := spec.infrastructure.value;
    UsesExternalPostgres(spec) && infra.postgresql.connection.Some? ==>
      forall x | x in InfrastructureTier.UserSecretObjects(infra) :: Exists(spec, existing, x)
  }

  /** Admitted specs that can become Ready in a cluster that holds `existing`. */
  ghost predicate Deployable(spec: Spec, existing: set<Obj>) {
    && spec.infrastructure.Some?
    && InfrastructureDeployable(spec, existing)
    && (HasCore(spec) ==> CoreDeployable(spec, existing))
    && (spec.rest.Some? ==> RestEnabled(spec) && RestDeployable(spec, existing))
  }

  // --------------------------------------------------------- basic facts

  /** Core and REST work in the same namespace. */
  lemma OneNamespace(name: string, spec: Spec)
    requires Admitted(name, spec) && spec.infrastructure.Some?
    ensures CoreNs(spec) == RestTier.TierNamespace(spec) == spec.core.namespace != ""
  {
    SettledNamespaces(name, spec);
  }

  lemma TLSIsOn(name: string, spec: Spec)
    requires Admitted(name, spec)
    ensures spec.tls.Some? && (IsSpiffeMode(spec) || IsCertManagerMode(spec))
    ensures IsCertManagerMode(spec) ==> spec.tls.value.certManager.Some?
  {
    assert spec.tls.value == DefaultedTLS(spec.tls);
  }

  lemma PXEFollowsProfile(name: string, spec: Spec)
    requires Admitted(name, spec)
    ensures spec.core.pxe.enabled <==> HasCore(spec)
  {
    assert spec.core.pxe.enabled == DefaultedCore(spec.profile, spec.core, spec.infrastructure).pxe.enabled;
  }
}
