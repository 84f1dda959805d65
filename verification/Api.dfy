/**
 The CarbideDeployment API: the desired state a user writes, the status the
 operator writes back. Modes and profiles are strings in the source; each
 becomes an enumeration with a constructor for the empty string and one for any
 value outside the schema's list.
 */
module Api {

  datatype Option<+T> = None | Some(value: T)

  // ---------------------------------------------------------------- spec

  datatype Profile = Management | Site | ManagementWithSite | OtherProfile

  datatype Mode = ModeUnset | Managed | External | OtherMode

  datatype AuthMode = AuthUnset | AuthManaged | AuthExternal | AuthDisabled | OtherAuth

  datatype TLSMode = TLSUnset | Spiffe | CertManager | OtherTLS

  datatype SecretRef = SecretRef(name: string, passwordKey: string)

  datatype NetworkConfig = NetworkConfig(iface: string, ip: string, adminCIDR: string, domain: string)

  datatype PGConnection = PGConnection(host: string, port: int, userSecrets: map<string, SecretRef>)

  datatype PostgreSQLConfig = PostgreSQLConfig(
    mode: Mode, databases: seq<string>, version: string, replicas: int, connection: Option<PGConnection>)

  datatype InfrastructureConfig = InfrastructureConfig(
    storageClass: string, postgresql: PostgreSQLConfig, namespace: string)

  datatype APIConfig = APIConfig(port: int, replicas: int)

  datatype PXEConfig = PXEConfig(enabled: bool, hasStorage: bool, tftpPort: int, httpPort: int)

  datatype DNSConfig = DNSConfig(enabled: bool, port: int)

  datatype VaultConfig = VaultConfig(
    mode: Mode, version: string, address: string, tokenSecretRef: Option<SecretRef>, kvMountPath: string)

  /** RLA and PSM have the same shape. */
  datatype ServiceConfig = ServiceConfig(enabled: bool, port: int, replicas: int)

  datatype CoreConfig = CoreConfig(
    namespace: string, api: APIConfig, dhcpEnabled: bool, pxe: PXEConfig, dns: DNSConfig,
    vault: Option<VaultConfig>, rla: Option<ServiceConfig>, psm: Option<ServiceConfig>)

  datatype TemporalConfig = TemporalConfig(
    mode: Mode, version: string, chartVersion: string, namespace: string, replicas: int, endpoint: string)

  datatype AuthProvider = AuthProvider(issuerURL: string, jwksURL: string, clientSecretRef: Option<SecretRef>)

  datatype KeycloakConfig = KeycloakConfig(mode: AuthMode, realm: string, providers: seq<AuthProvider>)

  datatype RestConfig = RestConfig(
    namespace: string, enabled: bool, temporal: TemporalConfig, keycloak: KeycloakConfig,
    restAPI: APIConfig, siteAgent: Option<bool>)

  datatype SPIFFEConfig = SPIFFEConfig(trustDomain: string, helperImage: string, className: string)

  datatype IssuerRef = IssuerRef(name: string, kind: string, group: string)

  datatype TLSConfig = TLSConfig(mode: TLSMode, spiffe: Option<SPIFFEConfig>, certManager: Option<IssuerRef>)

  datatype Spec = Spec(
    profile: Profile, network: NetworkConfig, infrastructure: Option<InfrastructureConfig>,
    core: CoreConfig, rest: Option<RestConfig>, tls: Option<TLSConfig>)

  predicate Enabled(service: Option<ServiceConfig>) { service.Some? && service.value.enabled }

  predicate RestEnabled(spec: Spec) { spec.rest.Some? && spec.rest.value.enabled }

  predicate SiteAgentEnabled(spec: Spec) { spec.rest.Some? && spec.rest.value.siteAgent == Some(true) }

  predicate SiteProfile(p: Profile) { p == Site || p == ManagementWithSite }

  predicate ManagementProfile(p: Profile) { p == Management || p == ManagementWithSite }

  predicate IsSpiffeMode(spec: Spec) { spec.tls.Some? && spec.tls.value.mode == Spiffe }

  predicate IsCertManagerMode(spec: Spec) { spec.tls.Some? && spec.tls.value.mode == CertManager }

  const DEFAULT_NAMESPACE := "nvidia-carbide"
  const OPERATORS_NAMESPACE := "carbide-operators"
  const TEMPORAL_NAMESPACE := "temporal"

  const HELPER_IMAGE := "ghcr.io/nvidia/spiffe-helper:latest"

  function OrElse(s: string, fallback: string): string { if s == "" then fallback else s }

  // -------------------------------------------------------------- status

  datatype Component =
    | PostgreSQL
    | Migration | API | DHCP | PXE | DNS | Vault | RLA | PSM
    | Temporal | Keycloak | TemporalSetup | RestAPI | CloudWorker | SiteWorker | SiteManager | SiteAgent

  datatype ComponentStatus = ComponentStatus(name: Component, ready: bool)

  datatype TierStatus = TierStatus(ready: bool, components: seq<ComponentStatus>)

  datatype Tier = Infrastructure | Core | Rest

  datatype Phase = NoPhase | Pending | Provisioning | Ready | Failed | Updating

  datatype ConditionType =
    | ReadyCondition | InfrastructureReady | CoreReady | RestReady
    | TLSReady | SPIFFEAvailable | CertManagerAvailable | VaultReady | RLAReady | PSMReady

  datatype ConditionStatus = True | False | Unknown

  datatype Condition = Condition(ctype: ConditionType, status: ConditionStatus, observedGeneration: int)

  datatype Status = Status(
    phase: Phase, infrastructure: Option<TierStatus>, core: Option<TierStatus>, rest: Option<TierStatus>,
    observedGeneration: int, conditions: seq<Condition>)

  const FRESH_STATUS := Status(NoPhase, None, None, None, 0, [])

  predicate TierUp(t: Option<TierStatus>) { t.Some? && t.value.ready }
}
