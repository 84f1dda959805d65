/** The admission webhook: defaulting, validation, and chains of updates. */
module Admission {
  import opened Api

  // -------------------------------------------------------------- defaulting

  function DefaultNamespace(profile: Profile, name: string): string {
    match profile
    case Management => "nvidia-carbide-mgmt"
    case Site => "carbide-site-" + name
    case ManagementWithSite => DEFAULT_NAMESPACE
    case OtherProfile => ""
  }

  function DefaultDatabases(profile: Profile): seq<string> {
    match profile
    case Management => ["forge", "temporal", "temporal_visibility", "keycloak"]
    case Site => ["carbide", "forge", "rla", "psm"]
    case ManagementWithSite => ["carbide", "forge", "rla", "psm", "temporal", "temporal_visibility", "keycloak"]
    case OtherProfile => []
  }

  const DOMAIN := "carbide.local"
  const SPIRE_CLASS := "zero-trust-workload-identity-manager-spire"

  function OrNumber(n: int, fallback: int): int { if n == 0 then fallback else n }

  function OrManaged(m: Mode): Mode { if m == ModeUnset then Managed else m }

  function DefaultedInfrastructure(profile: Profile, name: string, i: InfrastructureConfig): InfrastructureConfig {
    var pg := i.postgresql;
    InfrastructureConfig(
      i.storageClass,
      PostgreSQLConfig(OrManaged(pg.mode), if pg.databases == [] then DefaultDatabases(profile) else pg.databases,
                       pg.version, OrNumber(pg.replicas, 1), pg.connection),
      OrElse(i.namespace, DefaultNamespace(profile, name)))
  }

  function Inherited(namespace: string, infrastructure: Option<InfrastructureConfig>): string {
    if infrastructure.Some? then OrElse(namespace, infrastructure.value.namespace) else namespace
  }

  function DefaultedService(site: bool, s: Option<ServiceConfig>): Option<ServiceConfig> {
    if s.Some? then Some(s.value.(port := OrNumber(s.value.port, 50051), replicas := OrNumber(s.value.replicas, 1)))
    else if site then Some(ServiceConfig(true, 50051, 1)) else None
  }

  function DefaultedVault(site: bool, v: Option<VaultConfig>): Option<VaultConfig> {
    if v.Some? then
      Some(v.value.(mode := OrManaged(v.value.mode), version := OrElse(v.value.version, "1.15.6"),
                    kvMountPath := OrElse(v.value.kvMountPath, "secrets")))
    else if site then Some(VaultConfig(Managed, "1.15.6", "", None, "secrets")) else None
  }

  function ProfileFlag(profile: Profile, user: bool): bool {
    match profile case Management => false case OtherProfile => user case _ => true
  }

  function DefaultedCore(profile: Profile, core: CoreConfig, infrastructure: Option<InfrastructureConfig>): CoreConfig {
    CoreConfig(
      Inherited(core.namespace, infrastructure),
      APIConfig(OrNumber(core.api.port, 1079), OrNumber(core.api.replicas, 1)),
      ProfileFlag(profile, core.dhcpEnabled),
      PXEConfig(ProfileFlag(profile, core.pxe.enabled), core.pxe.hasStorage, OrNumber(core.pxe.tftpPort, 69),
          OrNumber(core.pxe.httpPort, 8080)),
      DNSConfig(ProfileFlag(profile, core.dns.enabled), OrNumber(core.dns.port, 53)),
      DefaultedVault(SiteProfile(profile), core.vault),
      DefaultedService(SiteProfile(profile), core.rla),
      DefaultedService(SiteProfile(profile), core.psm))
  }

  function RestFlag(profile: Profile, user: bool): bool {
    match profile case Site => false case OtherProfile => user case _ => true
  }

  function DefaultedTemporal(t: TemporalConfig): TemporalConfig {
    t.(mode := OrManaged(t.mode), version := OrElse(t.version, "1.22.0"),
        chartVersion := OrElse(t.chartVersion, "0.73.1"),
       namespace := OrElse(t.namespace, TEMPORAL_NAMESPACE), replicas := OrNumber(t.replicas, 1))
  }

  function DefaultedRest(profile: Profile, r: RestConfig, infrastructure: Option<InfrastructureConfig>): RestConfig {
    RestConfig(
      Inherited(r.namespace, infrastructure),
      RestFlag(profile, r.enabled),
      DefaultedTemporal(r.temporal),
      r.keycloak.(mode := if r.keycloak.mode == AuthUnset then AuthManaged else r.keycloak.mode,
                  realm := OrElse(r.keycloak.realm, "carbide")),
      APIConfig(OrNumber(r.restAPI.port, 8080), OrNumber(r.restAPI.replicas, 1)),
      r.siteAgent)
  }

  function DefaultedSpiffe(s: SPIFFEConfig): SPIFFEConfig {
    SPIFFEConfig(OrElse(s.trustDomain, DOMAIN), OrElse(s.helperImage, HELPER_IMAGE), OrElse(s.className, SPIRE_CLASS))
  }

  function DefaultedTLS(t: Option<TLSConfig>): TLSConfig {
    if t.None? then TLSConfig(Spiffe, Some(SPIFFEConfig(DOMAIN, HELPER_IMAGE, SPIRE_CLASS)), None)
    else
      var mode := if t.value.mode == TLSUnset then Spiffe else t.value.mode;
      var spiffe := if t.value.spiffe.Some? then Some(DefaultedSpiffe(t.value.spiffe.value))
                    else if mode == Spiffe then Some(DefaultedSpiffe(SPIFFEConfig("", "", ""))) else None;
      TLSConfig(mode, spiffe, t.value.certManager)
  }

  /** The defaulted spec, field by field. */
  function Defaulted(name: string, s: Spec): Spec {
    var infrastructure :=
      if s.infrastructure.Some? then Some(DefaultedInfrastructure(s.profile, name, s.infrastructure.value)) else None;
    Spec(s.profile,
         s.network.(domain := OrElse(s.network.domain, DOMAIN)),
         infrastructure,
         DefaultedCore(s.profile, s.core, infrastructure),
         if s.rest.Some? then Some(DefaultedRest(s.profile, s.rest.value, infrastructure)) else None,
         Some(DefaultedTLS(s.tls)))
  }

  // -------------------------------------------------------------- validation

  predicate ValidNetwork(s: Spec) {
    SiteProfile(s.profile) ==> s.network.iface != "" && s.network.adminCIDR != "" && s.network.ip != ""
  }

  predicate ValidTLS(s: Spec) {
    IsCertManagerMode(s) ==>
      s.tls.value.certManager.Some? && s.tls.value.certManager.value.name != ""
          && s.tls.value.certManager.value.kind != ""
  }

  predicate ValidPostgres(s: Spec) {
    s.infrastructure.Some? && s.infrastructure.value.postgresql.mode == External ==>
      s.infrastructure.value.postgresql.connection.Some?
          && s.infrastructure.value.postgresql.connection.value.host != ""
  }

  predicate ValidVault(s: Spec) {
    s.core.vault.Some? && s.core.vault.value.mode == External ==>
      s.core.vault.value.address != "" && s.core.vault.value.tokenSecretRef.Some?
  }

  predicate ValidProvider(p: AuthProvider) { p.issuerURL != "" && p.jwksURL != "" }

  predicate ValidRest(s: Spec) {
    && (ManagementProfile(s.profile) ==> s.rest.Some?)
    && (s.rest.Some? ==>
          && (s.rest.value.temporal.mode == External ==> s.rest.value.temporal.endpoint != "")
          && (s.rest.value.keycloak.mode == AuthExternal ==>
                && s.rest.value.keycloak.providers != []
                && forall i | 0 <= i < |s.rest.value.keycloak.providers| ::
                   ValidProvider(s.rest.value.keycloak.providers[i])))
  }

  predicate Valid(s: Spec) { ValidNetwork(s) && ValidTLS(s) && ValidPostgres(s) && ValidVault(s) && ValidRest(s) }

  predicate ValidUpdate(old_: Spec, new_: Spec) {
    && old_.profile == new_.profile
    && (old_.infrastructure.Some? && new_.infrastructure.Some? ==>
          var was, now := old_.infrastructure.value.namespace, new_.infrastructure.value.namespace;
          was == "" || now == "" || was == now)
    && Valid(new_)
  }

  /** The CRD schema restricts every mode and the profile to its list. */
  predicate InSchema(s: Spec) {
    && s.profile != OtherProfile
    && (s.infrastructure.Some? ==> s.infrastructure.value.postgresql.mode != OtherMode)
    && (s.core.vault.Some? ==> s.core.vault.value.mode != OtherMode)
    && (s.rest.Some? ==> s.rest.value.temporal.mode != OtherMode && s.rest.value.keycloak.mode != OtherAuth)
    && (s.tls.Some? ==> s.tls.value.mode != OtherTLS)
  }

  /** What the store can hold: a defaulted, validated spec within the schema. */
  predicate Admitted(name: string, s: Spec) { s == Defaulted(name, s) && Valid(s) && InSchema(s) }

  // --------------------------------------------------- the webhook as written

  class Webhook {
    const name: string
    var spec: Spec

    constructor (n: string, s: Spec)
      ensures name == n && spec == s
    {
      name, spec := n, s;
    }

    method DefaultNamespaces()
      modifies this
      ensures spec == old(spec).(
                infrastructure := if old(spec).infrastructure.None? then None
                                  else Some(old(spec).infrastructure.value.(
                                    namespace := OrElse(old(spec).infrastructure.value.namespace,
                                        DefaultNamespace(old(spec).profile, name)))),
                core := old(spec).core.(namespace := Inherited(old(spec).core.namespace, spec.infrastructure)),
                rest := if old(spec).rest.None? then None
                        else Some(old(spec).rest.value.(namespace := Inherited(old(spec).rest.value.namespace,
                            spec.infrastructure))))
    {
      if spec.infrastructure.Some? && spec.infrastructure.value.namespace == "" {
        var ns := "";
        match spec.profile {
          case Management => ns := "nvidia-carbide-mgmt";
          case Site => ns := "carbide-site-" + name;
          case ManagementWithSite => ns := "nvidia-carbide";
          case OtherProfile =>
        }
        spec := spec.(infrastructure := Some(spec.infrastructure.value.(namespace := ns)));
      }
      if spec.core.namespace == "" && spec.infrastructure.Some? {
        spec := spec.(core := spec.core.(namespace := spec.infrastructure.value.namespace));
      }
      if spec.rest.Some? && spec.rest.value.namespace == "" && spec.infrastructure.Some? {
        spec := spec.(rest := Some(spec.rest.value.(namespace := spec.infrastructure.value.namespace)));
      }
    }

    method DefaultFlags()
      modifies this
      ensures spec == old(spec).(
                core := old(spec).core.(
                  dhcpEnabled := ProfileFlag(old(spec).profile, old(spec).core.dhcpEnabled),
                  pxe := old(spec).core.pxe.(enabled := ProfileFlag(old(spec).profile, old(spec).core.pxe.enabled)),
                  dns := old(spec).core.dns.(enabled := ProfileFlag(old(spec).profile, old(spec).core.dns.enabled))),
                rest := if old(spec).rest.None? then None
                        else Some(old(spec).rest.value.(enabled := RestFlag(old(spec).profile,
                            old(spec).rest.value.enabled))))
    {
      match spec.profile {
        case Management =>
          SetSiteServices(false);
          if spec.rest.Some? { spec := spec.(rest := Some(spec.rest.value.(enabled := true))); }
        case Site =>
          SetSiteServices(true);
          if spec.rest.Some? { spec := spec.(rest := Some(spec.rest.value.(enabled := false))); }
        case ManagementWithSite =>
          SetSiteServices(true);
          if spec.rest.Some? { spec := spec.(rest := Some(spec.rest.value.(enabled := true))); }
        case OtherProfile =>
      }
    }

    method SetSiteServices(on: bool)
      modifies this
      ensures spec == old(spec).(core := old(spec).core.(dhcpEnabled := on, pxe := old(spec).core.pxe.(enabled := on),
                                                         dns := old(spec).core.dns.(enabled := on)))
    {
      spec := spec.(core := spec.core.(dhcpEnabled := on));
      spec := spec.(core := spec.core.(pxe := spec.core.pxe.(enabled := on)));
      spec := spec.(core := spec.core.(dns := spec.core.dns.(enabled := on)));
    }

    method DefaultPostgres()
      modifies this
      ensures spec == old(spec).(
                infrastructure := if old(spec).infrastructure.None? then None
                                  else var i := old(spec).infrastructure.value;
                                       Some(DefaultedInfrastructure(old(spec).profile, name,
                                           i).(namespace := i.namespace)))
    {
      if spec.infrastructure.Some? {
        var i := spec.infrastructure.value;
        var pg := i.postgresql;
        if |pg.databases| == 0 {
          match spec.profile {
            case Management => pg := pg.(databases := ["forge", "temporal", "temporal_visibility", "keycloak"]);
            case Site => pg := pg.(databases := ["carbide", "forge", "rla", "psm"]);
            case ManagementWithSite =>
              pg := pg.(databases := ["carbide", "forge", "rla", "psm", "temporal", "temporal_visibility", "keycloak"]);
            case OtherProfile =>
          }
        }
        if pg.mode == ModeUnset { pg := pg.(mode := Managed); }
        if pg.replicas == 0 { pg := pg.(replicas := 1); }
        spec := spec.(infrastructure := Some(i.(postgresql := pg)));
      }
    }

    method DefaultNumbers()
      modifies this
      ensures spec == old(spec).(
                network := old(spec).network.(domain := OrElse(old(spec).network.domain, DOMAIN)),
                core := old(spec).core.(
                  api := APIConfig(OrNumber(old(spec).core.api.port, 1079), OrNumber(old(spec).core.api.replicas, 1)),
                  pxe := old(spec).core.pxe.(tftpPort := OrNumber(old(spec).core.pxe.tftpPort, 69),
                      httpPort := OrNumber(old(spec).core.pxe.httpPort, 8080)),
                  dns := old(spec).core.dns.(port := OrNumber(old(spec).core.dns.port, 53))))
    {
      if spec.network.domain == "" { spec := spec.(network := spec.network.(domain := DOMAIN)); }
      var api, pxe, dns := spec.core.api, spec.core.pxe, spec.core.dns;
      if api.port == 0 { api := api.(port := 1079); }
      if api.replicas == 0 { api := api.(replicas := 1); }
      if pxe.tftpPort == 0 { pxe := pxe.(tftpPort := 69); }
      if pxe.httpPort == 0 { pxe := pxe.(httpPort := 8080); }
      if dns.port == 0 { dns := dns.(port := 53); }
      spec := spec.(core := spec.core.(api := api, pxe := pxe, dns := dns));
    }

    static method DefaultTemporal(given: TemporalConfig) returns (t: TemporalConfig)
      ensures t == DefaultedTemporal(given)
    {
      t := given;
      if t.mode == ModeUnset { t := t.(mode := Managed); }
      if t.version == "" { t := t.(version := "1.22.0"); }
      if t.chartVersion == "" { t := t.(chartVersion := "0.73.1"); }
      if t.namespace == "" { t := t.(namespace := "temporal"); }
      if t.replicas == 0 { t := t.(replicas := 1); }
    }

    method DefaultRest()
      modifies this
      ensures spec == old(spec).(
                rest := if old(spec).rest.None? then None
                        else var r := old(spec).rest.value;
                             Some(DefaultedRest(old(spec).profile, r, None).(namespace := r.namespace,
                                 enabled := r.enabled)))
    {
      if spec.rest.Some? {
        var r := spec.rest.value;
        if r.restAPI.port == 0 { r := r.(restAPI := r.restAPI.(port := 8080)); }
        if r.restAPI.replicas == 0 { r := r.(restAPI := r.restAPI.(replicas := 1)); }
        if r.keycloak.mode == AuthUnset { r := r.(keycloak := r.keycloak.(mode := AuthManaged)); }
        if r.keycloak.realm == "" { r := r.(keycloak := r.keycloak.(realm := "carbide")); }
        var temporal := DefaultTemporal(r.temporal);
        spec := spec.(rest := Some(r.(temporal := temporal)));
      }
    }

    method DefaultTLS()
      modifies this
      ensures spec == old(spec).(tls := Some(DefaultedTLS(old(spec).tls)))
    {
      if spec.tls.None? {
        spec := spec.(tls := Some(TLSConfig(Spiffe, Some(SPIFFEConfig(DOMAIN, HELPER_IMAGE, SPIRE_CLASS)), None)));
      } else {
        var t := spec.tls.value;
        if t.mode == TLSUnset { t := t.(mode := Spiffe); }
        if t.mode == Spiffe && t.spiffe.None? { t := t.(spiffe := Some(SPIFFEConfig("", "", ""))); }
        if t.spiffe.Some? {
          var s := t.spiffe.value;
          if s.trustDomain == "" { s := s.(trustDomain := DOMAIN); }
          if s.helperImage == "" { s := s.(helperImage := HELPER_IMAGE); }
          if s.className == "" { s := s.(className := SPIRE_CLASS); }
          t := t.(spiffe := Some(s));
        }
        spec := spec.(tls := Some(t));
      }
    }

    method DefaultSiteServices()
      modifies this
      ensures spec == old(spec).(core := old(spec).core.(
                vault := DefaultedVault(SiteProfile(old(spec).profile), old(spec).core.vault),
                rla := DefaultedService(SiteProfile(old(spec).profile), old(spec).core.rla),
                psm := DefaultedService(SiteProfile(old(spec).profile), old(spec).core.psm)))
    {
      var core := spec.core;
      var isSiteProfile := spec.profile == Site || spec.profile == ManagementWithSite;
      if isSiteProfile && core.vault.None? {
        core := core.(vault := Some(VaultConfig(Managed, "1.15.6", "", None, "secrets")));
      }
      if core.vault.Some? {
        var v := core.vault.value;
        if v.mode == ModeUnset { v := v.(mode := Managed); }
        if v.version == "" { v := v.(version := "1.15.6"); }
        if v.kvMountPath == "" { v := v.(kvMountPath := "secrets"); }
        core := core.(vault := Some(v));
      }
      var rla := DefaultOne(isSiteProfile, core.rla);
      var psm := DefaultOne(isSiteProfile, core.psm);
      spec := spec.(core := core.(rla := rla, psm := psm));
    }

    static method DefaultOne(site: bool, given: Option<ServiceConfig>) returns (s: Option<ServiceConfig>)
      ensures s == DefaultedService(site, given)
    {
      s := given;
      if site && s.None? { s := Some(ServiceConfig(true, 50051, 1)); }
      if s.Some? {
        if s.value.port == 0 { s := Some(s.value.(port := 50051)); }
        if s.value.replicas == 0 { s := Some(s.value.(replicas := 1)); }
      }
    }

    /** applyDefaults: the same defaults, one assignment after another. */
    method ApplyDefaults()
      modifies this
      ensures spec == Defaulted(name, old(spec))
    {
      DefaultNamespaces();
      DefaultFlags();
      DefaultPostgres();
      DefaultNumbers();
      DefaultRest();
      DefaultTLS();
      DefaultSiteServices();
    }

    /** validateCarbideDeployment, warnings aside. */
    method Validate() returns (err: bool)
      ensures !err <==> Valid(spec)
    {
      err := true;
      if spec.profile == Site || spec.profile == ManagementWithSite {
        if spec.network.iface == "" { return; }
        if spec.network.adminCIDR == "" { return; }
        if spec.network.ip == "" { return; }
      }
      if spec.profile == Management || spec.profile == ManagementWithSite {
        if spec.rest.None? { return; }
      }
      if spec.tls.Some? && spec.tls.value.mode == CertManager {
        if spec.tls.value.certManager.None? || spec.tls.value.certManager.value.name == "" { return; }
        if spec.tls.value.certManager.value.kind == "" { return; }
      }
      if spec.infrastructure.Some? && spec.infrastructure.value.postgresql.mode == External {
        if spec.infrastructure.value.postgresql.connection.None? { return; }
        if spec.infrastructure.value.postgresql.connection.value.host == "" { return; }
      }
      if spec.core.vault.Some? && spec.core.vault.value.mode == External {
        if spec.core.vault.value.address == "" { return; }
        if spec.core.vault.value.tokenSecretRef.None? { return; }
      }
      if spec.rest.Some? && spec.rest.value.temporal.mode == External {
        if spec.rest.value.temporal.endpoint == "" { return; }
      }
      if spec.rest.Some? && spec.rest.value.keycloak.mode == AuthExternal {
        var providers := spec.rest.value.keycloak.providers;
        if |providers| == 0 { return; }
        for i := 0 to |providers|
          invariant forall j | 0 <= j < i :: ValidProvider(providers[j])
        {
          if providers[i].issuerURL == "" { return; }
          if providers[i].jwksURL == "" { return; }
        }
      }
      err := false;
    }
  }

  // -------------------------------------------------------------- properties

  /** Defaulting twice is defaulting once, for every spec, so the operator's own
      updates pass through the webhook unchanged. */
  lemma DefaultIdempotent(name: string, s: Spec)
    ensures Defaulted(name, Defaulted(name, s)) == Defaulted(name, s)
  {
    var d := Defaulted(name, s);
    if s.infrastructure.Some? {
      assert DefaultedInfrastructure(d.profile, name, d.infrastructure.value) == d.infrastructure.value;
    }
    assert DefaultedCore(d.profile, d.core, d.infrastructure) == d.core;
    if s.rest.Some? {
      assert DefaultedRest(d.profile, d.rest.value, d.infrastructure) == d.rest.value;
    }
    assert DefaultedTLS(d.tls) == d.tls.value;
  }

  predicate KeptText(a: string, b: string) { a != "" ==> a == b }

  predicate KeptNumber(a: int, b: int) { a != 0 ==> a == b }

  predicate KeptMode(a: Mode, b: Mode) { a != ModeUnset ==> a == b }

  predicate KeptInfrastructure(a: Option<InfrastructureConfig>, b: Option<InfrastructureConfig>) {
    && a.Some? == b.Some?
    && (a.Some? ==>
          var x, y := a.value, b.value;
          && x.storageClass == y.storageClass && KeptText(x.namespace, y.namespace)
          && KeptMode(x.postgresql.mode, y.postgresql.mode) && KeptNumber(x.postgresql.replicas, y.postgresql.replicas)
          && (x.postgresql.databases != [] ==> x.postgresql.databases == y.postgresql.databases)
          && x.postgresql.version == y.postgresql.version && x.postgresql.connection == y.postgresql.connection)
  }

  predicate KeptService(a: Option<ServiceConfig>, b: Option<ServiceConfig>) {
    a.Some? ==>
      b.Some? && a.value.enabled == b.value.enabled
      && KeptNumber(a.value.port, b.value.port) && KeptNumber(a.value.replicas, b.value.replicas)
  }

  predicate KeptVault(a: Option<VaultConfig>, b: Option<VaultConfig>) {
    a.Some? ==>
      && b.Some? && KeptMode(a.value.mode, b.value.mode) && KeptText(a.value.version, b.value.version)
      && a.value.address == b.value.address && a.value.tokenSecretRef == b.value.tokenSecretRef
      && KeptText(a.value.kvMountPath, b.value.kvMountPath)
  }

  predicate KeptCore(a: CoreConfig, b: CoreConfig) {
    && KeptText(a.namespace, b.namespace) && KeptNumber(a.api.port, b.api.port)
       && KeptNumber(a.api.replicas, b.api.replicas)
    && a.pxe.hasStorage == b.pxe.hasStorage && KeptNumber(a.pxe.tftpPort, b.pxe.tftpPort)
       && KeptNumber(a.pxe.httpPort, b.pxe.httpPort)
    && KeptNumber(a.dns.port, b.dns.port) && KeptVault(a.vault, b.vault) && KeptService(a.rla, b.rla)
       && KeptService(a.psm, b.psm)
  }

  predicate KeptRest(a: Option<RestConfig>, b: Option<RestConfig>) {
    && a.Some? == b.Some?
    && (a.Some? ==>
          var x, y := a.value, b.value;
          && KeptText(x.namespace, y.namespace) && KeptMode(x.temporal.mode, y.temporal.mode)
          && KeptText(x.temporal.version, y.temporal.version)
             && KeptText(x.temporal.chartVersion, y.temporal.chartVersion)
          && KeptText(x.temporal.namespace, y.temporal.namespace)
             && KeptNumber(x.temporal.replicas, y.temporal.replicas)
          && x.temporal.endpoint == y.temporal.endpoint
          && (x.keycloak.mode != AuthUnset ==> x.keycloak.mode == y.keycloak.mode)
             && KeptText(x.keycloak.realm, y.keycloak.realm)
          && x.keycloak.providers == y.keycloak.providers
          && KeptNumber(x.restAPI.port, y.restAPI.port) && KeptNumber(x.restAPI.replicas, y.restAPI.replicas)
          && x.siteAgent == y.siteAgent)
  }

  predicate KeptTLS(a: Option<TLSConfig>, b: Option<TLSConfig>) {
    a.Some? ==>
      && b.Some? && (a.value.mode != TLSUnset ==> a.value.mode == b.value.mode)
         && a.value.certManager == b.value.certManager
      && (a.value.spiffe.Some? ==>
            var x := a.value.spiffe.value;
            b.value.spiffe.Some? && KeptText(x.trustDomain, b.value.spiffe.value.trustDomain)
            && KeptText(x.helperImage, b.value.spiffe.value.helperImage)
               && KeptText(x.className, b.value.spiffe.value.className))
  }

  /** Defaulting fills in what was left empty and touches nothing else, but for the
      four enabled flags, which end as the profile dictates. */
  lemma DefaultKeepsUserFields(name: string, s: Spec)
    ensures var d := Defaulted(name, s);
            && d.profile == s.profile
            && d.network == s.network.(domain := d.network.domain) && KeptText(s.network.domain, d.network.domain)
            && KeptInfrastructure(s.infrastructure, d.infrastructure)
            && KeptCore(s.core, d.core) && KeptRest(s.rest, d.rest) && KeptTLS(s.tls, d.tls)
    ensures var d := Defaulted(name, s);
            && (SiteProfile(s.profile) ==> d.core.dhcpEnabled && d.core.pxe.enabled && d.core.dns.enabled)
            && (s.profile == Management ==> !d.core.dhcpEnabled && !d.core.pxe.enabled && !d.core.dns.enabled)
            && (s.rest.Some? && ManagementProfile(s.profile) ==> d.rest.value.enabled)
            && (s.rest.Some? && s.profile == Site ==> !d.rest.value.enabled)
  {
  }

  // ------------------------------------- what an empty field and a block become

  predicate FilledText(a: string, b: string, fallback: string) { b == if a == "" then fallback else a }

  predicate FilledNumber(a: int, b: int, fallback: int) { b == if a == 0 then fallback else a }

  /** Network, infrastructure and namespaces: what is left empty gets these values. */
  lemma FillsInfrastructure(name: string, s: Spec)
    ensures var d := Defaulted(name, s);
            && FilledText(s.network.domain, d.network.domain, "carbide.local")
            && d.infrastructure.Some? == s.infrastructure.Some?
            && (s.infrastructure.Some? ==>
                  var i, j := s.infrastructure.value, d.infrastructure.value;
                  && FilledText(i.namespace, j.namespace,
                       match s.profile
                       case Management => "nvidia-carbide-mgmt"
                       case Site => "carbide-site-" + name
                       case ManagementWithSite => "nvidia-carbide"
                       case OtherProfile => "")
                  && (i.postgresql.mode == ModeUnset ==> j.postgresql.mode == Managed)
                  && FilledNumber(i.postgresql.replicas, j.postgresql.replicas, 1)
                  && (i.postgresql.databases == [] ==>
                        j.postgresql.databases ==
                        match s.profile
                        case Management => ["forge", "temporal", "temporal_visibility", "keycloak"]
                        case Site => ["carbide", "forge", "rla", "psm"]
                        case ManagementWithSite =>
                          ["carbide", "forge", "rla", "psm", "temporal", "temporal_visibility", "keycloak"]
                        case OtherProfile => [])
                  && FilledText(s.core.namespace, d.core.namespace, j.namespace)
                  && (s.rest.Some? ==> FilledText(s.rest.value.namespace, d.rest.value.namespace, j.namespace)))
            && (s.infrastructure.None? ==>
                  && d.core.namespace == s.core.namespace
                  && (s.rest.Some? ==> d.rest.value.namespace == s.rest.value.namespace))
  {
  }

  predicate FilledService(a: Option<ServiceConfig>, b: Option<ServiceConfig>, site: bool) {
    if a.None? then b == if site then Some(ServiceConfig(true, 50051, 1)) else None
    else b.Some? && FilledNumber(a.value.port, b.value.port, 50051)
         && FilledNumber(a.value.replicas, b.value.replicas, 1)
  }

  /** Core services: site profiles run them all, with Vault managed and RLA and PSM enabled
      unless the user says otherwise; for other profiles absent blocks stay absent. */
  lemma FillsCore(name: string, s: Spec)
    ensures var c, d := s.core, Defaulted(name, s).core;
            var site := s.profile == Site || s.profile == ManagementWithSite;
            && FilledNumber(c.api.port, d.api.port, 1079) && FilledNumber(c.api.replicas, d.api.replicas, 1)
            && FilledNumber(c.pxe.tftpPort, d.pxe.tftpPort, 69) && FilledNumber(c.pxe.httpPort, d.pxe.httpPort, 8080)
            && FilledNumber(c.dns.port, d.dns.port, 53)
            && FilledService(c.rla, d.rla, site) && FilledService(c.psm, d.psm, site)
            && (c.vault.None? ==>
                  d.vault == if site then Some(VaultConfig(Managed, "1.15.6", "", None, "secrets")) else None)
            && (c.vault.Some? ==>
                  && d.vault.Some? && (c.vault.value.mode == ModeUnset ==> d.vault.value.mode == Managed)
                  && FilledText(c.vault.value.version, d.vault.value.version, "1.15.6")
                  && FilledText(c.vault.value.kvMountPath, d.vault.value.kvMountPath, "secrets"))
            && (site ==> d.dhcpEnabled && d.pxe.enabled && d.dns.enabled)
            && (s.profile == Management ==> !d.dhcpEnabled && !d.pxe.enabled && !d.dns.enabled)
  {
  }

  /** REST and TLS: an absent REST block stays absent; TLS is always there, SPIFFE unless
      the user chose a mode, and SPIFFE always has its settings. */
  lemma FillsRestAndTLS(name: string, s: Spec)
    ensures var d := Defaulted(name, s);
            && d.rest.Some? == s.rest.Some?
            && (s.rest.Some? ==>
                  var r, q := s.rest.value, d.rest.value;
                  && (r.temporal.mode == ModeUnset ==> q.temporal.mode == Managed)
                  && FilledText(r.temporal.version, q.temporal.version, "1.22.0")
                  && FilledText(r.temporal.chartVersion, q.temporal.chartVersion, "0.73.1")
                  && FilledText(r.temporal.namespace, q.temporal.namespace, "temporal")
                  && FilledNumber(r.temporal.replicas, q.temporal.replicas, 1)
                  && (r.keycloak.mode == AuthUnset ==> q.keycloak.mode == AuthManaged)
                  && FilledText(r.keycloak.realm, q.keycloak.realm, "carbide")
                  && FilledNumber(r.restAPI.port, q.restAPI.port, 8080)
                  && FilledNumber(r.restAPI.replicas, q.restAPI.replicas, 1))
            && d.tls.Some?
            && (s.tls.None? || s.tls.value.mode == TLSUnset ==> d.tls.value.mode == Spiffe)
            && (s.tls.None? ==> d.tls.value.certManager.None?)
            && var given := if s.tls.Some? then s.tls.value.spiffe else None;
               && (d.tls.value.spiffe.Some? <==> d.tls.value.mode == Spiffe || given.Some?)
               && (d.tls.value.spiffe.Some? ==>
                     var x := if given.Some? then given.value else SPIFFEConfig("", "", "");
                     var y := d.tls.value.spiffe.value;
                     && FilledText(x.trustDomain, y.trustDomain, "carbide.local")
                     && FilledText(x.helperImage, y.helperImage, "ghcr.io/nvidia/spiffe-helper:latest")
                     && FilledText(x.className, y.className, "zero-trust-workload-identity-manager-spire"))
  {
  }

  // ----------------------------------------------------- what is turned away

  predicate LacksNetwork(s: Spec) {
    (s.profile == Site || s.profile == ManagementWithSite)
    && (s.network.iface == "" || s.network.adminCIDR == "" || s.network.ip == "")
  }

  predicate LacksIssuer(s: Spec) {
    s.tls.Some? && s.tls.value.mode == CertManager
    && (s.tls.value.certManager.None? || s.tls.value.certManager.value.name == ""
        || s.tls.value.certManager.value.kind == "")
  }

  predicate LacksConnection(s: Spec) {
    s.infrastructure.Some? && s.infrastructure.value.postgresql.mode == External
    && (s.infrastructure.value.postgresql.connection.None?
        || s.infrastructure.value.postgresql.connection.value.host == "")
  }

  predicate LacksVaultAccess(s: Spec) {
    s.core.vault.Some? && s.core.vault.value.mode == External
    && (s.core.vault.value.address == "" || s.core.vault.value.tokenSecretRef.None?)
  }

  predicate LacksProvider(s: Spec) {
    s.rest.Some? && s.rest.value.keycloak.mode == AuthExternal
    && (s.rest.value.keycloak.providers == []
        || exists p | p in s.rest.value.keycloak.providers :: p.issuerURL == "" || p.jwksURL == "")
  }

  /** A spec is turned away exactly for one of these; an update also for another profile or
      another namespace where both specs name one. */
  lemma RejectedExactly(s: Spec, was: Spec)
    ensures !Valid(s) <==>
            || LacksNetwork(s) || LacksIssuer(s) || LacksConnection(s) || LacksVaultAccess(s) || LacksProvider(s)
            || ((s.profile == Management || s.profile == ManagementWithSite) && s.rest.None?)
            || (s.rest.Some? && s.rest.value.temporal.mode == External && s.rest.value.temporal.endpoint == "")
    ensures !ValidUpdate(was, s) <==>
            || !Valid(s) || was.profile != s.profile
            || (was.infrastructure.Some? && s.infrastructure.Some?
                && was.infrastructure.value.namespace != s.infrastructure.value.namespace
                && was.infrastructure.value.namespace != "" && s.infrastructure.value.namespace != "")
  {
    if s.rest.Some? {
      var ps := s.rest.value.keycloak.providers;
      assert (forall i | 0 <= i < |ps| :: ValidProvider(ps[i])) <==> forall p | p in ps :: ValidProvider(p);
    }
  }

  /** A history of what users submitted for one object: each submission is
      defaulted, then validated as a creation or as an update of the one before. */
  ghost predicate Chain(name: string, submitted: seq<Spec>) {
    && |submitted| > 0
    && (forall i | 0 <= i < |submitted| :: InSchema(Defaulted(name, submitted[i])))
    && Valid(Defaulted(name, submitted[0]))
    && (forall i, j | 0 <= i < |submitted| && j == i + 1 < |submitted| ::
          ValidUpdate(Defaulted(name, submitted[i]), Defaulted(name, submitted[j])))
  }

  lemma ChainAdmitted(name: string, submitted: seq<Spec>, i: nat)
    requires Chain(name, submitted) && i < |submitted|
    ensures Admitted(name, Defaulted(name, submitted[i]))
  {
    DefaultIdempotent(name, submitted[i]);
    if i > 0 { assert ValidUpdate(Defaulted(name, submitted[i - 1]), Defaulted(name, submitted[i])); }
  }

  lemma NamespaceNonEmpty(name: string, s: Spec)
    requires Admitted(name, s) && s.infrastructure.Some?
    ensures s.infrastructure.value.namespace != ""
  {
    var ns := DefaultNamespace(s.profile, name);
    assert ns != "" by {
      match s.profile
      case Management =>
      case Site => assert |"carbide-site-"| > 0;
      case ManagementWithSite =>
      case OtherProfile =>
    }
  }

  /** In an admitted spec a REST block is on exactly when the profile is not Site. */
  lemma RestFollowsProfile(name: string, s: Spec)
    requires Admitted(name, s) && s.rest.Some?
    ensures RestEnabled(s) <==> s.profile != Site
  {
    assert s.rest.value.enabled == DefaultedRest(s.profile, s.rest.value, s.infrastructure).enabled;
  }

  /** Along any chain the profile never changes. */
  lemma {:induction false} ChainProfileConstant(name: string, submitted: seq<Spec>, i: nat, j: nat)
    requires Chain(name, submitted) && i <= j < |submitted|
    ensures Defaulted(name, submitted[i]).profile == Defaulted(name, submitted[j]).profile
  {
    if i < j {
      ChainProfileConstant(name, submitted, i, j - 1);
      assert ValidUpdate(Defaulted(name, submitted[j - 1]), Defaulted(name, submitted[j]));
    }
  }

  /** Over a stretch in which `infrastructure` is never removed its namespace is
      non-empty and constant. */
  lemma {:induction false} ChainNamespaceConstant(name: string, submitted: seq<Spec>, i: nat, j: nat)
    requires Chain(name, submitted) && i <= j < |submitted|
    requires forall k | i <= k <= j :: Defaulted(name, submitted[k]).infrastructure.Some?
    ensures Defaulted(name, submitted[i]).infrastructure.value.namespace
            == Defaulted(name, submitted[j]).infrastructure.value.namespace != ""
  {
    ChainAdmitted(name, submitted, j);
    NamespaceNonEmpty(name, Defaulted(name, submitted[j]));
    if i < j {
      ChainNamespaceConstant(name, submitted, i, j - 1);
      assert ValidUpdate(Defaulted(name, submitted[j - 1]), Defaulted(name, submitted[j]));
    }
  }

  /** Once the namespaces of the tiers are settled, another (or no) defaulted
      infrastructure leaves the rest of the spec a fixed point. */
  lemma OtherInfrastructure(name: string, s: Spec, infrastructure: Option<InfrastructureConfig>)
    requires s == Defaulted(name, s) && s.core.namespace != "" && (s.rest.Some? ==> s.rest.value.namespace != "")
    requires infrastructure.Some?
             ==> DefaultedInfrastructure(s.profile, name, infrastructure.value) == infrastructure.value
    ensures var t := s.(infrastructure := infrastructure); t == Defaulted(name, t)
  {
    assert DefaultedCore(s.profile, s.core, s.infrastructure) == s.core;
    assert s.rest.Some? ==> DefaultedRest(s.profile, s.rest.value, s.infrastructure) == s.rest.value;
  }

  lemma SettledNamespaces(name: string, s: Spec)
    requires Admitted(name, s) && s.infrastructure.Some?
    ensures s.core.namespace != "" && (s.rest.Some? ==> s.rest.value.namespace != "")
  {
    NamespaceNonEmpty(name, s);
    assert s.core.namespace == DefaultedCore(s.profile, s.core, s.infrastructure).namespace;
    assert s.rest.Some?
        ==> s.rest.value.namespace == DefaultedRest(s.profile, s.rest.value, s.infrastructure).namespace;
  }

  /** Removing `infrastructure` and putting it back gets around the immutability
      check: any admitted namespace can be replaced by any other in two updates. */
  lemma NamespaceBypass(name: string, s: Spec, namespace: string)
    requires Admitted(name, s) && s.infrastructure.Some? && namespace != ""
             && namespace != s.infrastructure.value.namespace
    ensures var moved := s.(infrastructure := Some(s.infrastructure.value.(namespace := namespace)));
            var removed := s.(infrastructure := None);
            && Chain(name, [s, removed, moved]) && !ValidUpdate(s, moved)
  {
    var moved := s.(infrastructure := Some(s.infrastructure.value.(namespace := namespace)));
    var removed := s.(infrastructure := None);
    SettledNamespaces(name, s);
    NamespaceNonEmpty(name, s);
    OtherInfrastructure(name, s, None);
    OtherInfrastructure(name, s, moved.infrastructure);
    assert ValidUpdate(s, removed) && ValidUpdate(removed, moved);
  }
}
