/** The pods of the core tier: accounts, secret and ConfigMap references, volumes
    and mounts, after TLS injection. */
module CorePods {
  import opened Api
  import opened Pods
  import opened Credentials

  const API_NAME := "carbide-api"
  const DHCP_NAME := "carbide-dhcp"
  const DNS_NAME := "carbide-dns"
  const PXE_NAME := "carbide-pxe"
  const RLA_NAME := "carbide-rla"
  const PSM_NAME := "carbide-psm"
  const VAULT_INSTALLER := "vault-helm-installer"
  const PXE_CERTIFICATE := "carbide-pxe-certificate"

  /** An application container; its image and arguments are not modelled. */
  function App(name: string, secrets: seq<string>, configs: seq<string>, mounts: seq<Mount>): Container {
    Container(name, "", [], secrets, configs, mounts)
  }

  function ConfigVolume(name: string, config: string): Volume { Volume(name, FromConfigMap(config)) }

  function APIPlain(spec: Spec): Pod {
    var database := ResolveUserSecret(spec, "carbide");
    Pod(API_NAME,
        [App("db-migrations", [database], [], [])],
        [App("carbide-api", [database] + VaultSecrets(spec), [],
             [Mount("config", "/etc/carbide", true), Mount("casbin-policy", "/opt/carbide/casbin-policy.csv", true)])],
        [ConfigVolume("config", "carbide-api-config"), ConfigVolume("casbin-policy", "casbin-policy")])
  }

  function DHCPPlain(): Pod { Pod(DHCP_NAME, [], [App("dhcp", [], [], [])], []) }

  function DNSPlain(): Pod {
    Pod(DNS_NAME, [], [App("dns", [], [], [Mount("dns-config", "/etc/carbide/carbide-dns-config.toml", true)])],
        [ConfigVolume("dns-config", "carbide-dns-config")])
  }

  /** The PXE pod mounts a volume `spiffe` in every mode, but has one only in
      cert-manager mode. */
  function PXEPlain(tls: Option<TLSConfig>): Pod {
    Pod(PXE_NAME, [],
        [App("carbide-pxe", [], [], [Mount("spiffe", "/var/run/secrets/spiffe.io", true)])],
        if IsCertManager(tls) then [Volume("spiffe", FromSecret(PXE_CERTIFICATE, false))] else [])
  }

  function DatabaseVolumes(secret: string): seq<Volume> { [Volume("db-certs", FromSecret(secret, true))] }

  const DATABASE_MOUNTS: seq<Mount> := [Mount("db-certs", "/var/run/secrets/db", true)]

  function RLAPlain(spec: Spec): Pod {
    var database := ResolveUserSecret(spec, "rla");
    Pod(RLA_NAME, [], [App("carbide-rla", [database], [], DATABASE_MOUNTS)], DatabaseVolumes(database))
  }

  function PSMPlain(spec: Spec): Pod {
    var database := ResolveUserSecret(spec, "psm");
    Pod(PSM_NAME, [], [App("carbide-psm", [database] + VaultSecrets(spec), [], DATABASE_MOUNTS)],
        DatabaseVolumes(database))
  }

  function APIPod(spec: Spec): Pod { Injected(spec.tls, APIPlain(spec)) }
  function DHCPPod(spec: Spec): Pod { Injected(spec.tls, DHCPPlain()) }
  function DNSPod(spec: Spec): Pod { Injected(spec.tls, DNSPlain()) }
  function PXEPod(spec: Spec): Pod { Injected(spec.tls, PXEPlain(spec.tls)) }
  function RLAPod(spec: Spec): Pod { Injected(spec.tls, RLAPlain(spec)) }
  function PSMPod(spec: Spec): Pod { Injected(spec.tls, PSMPlain(spec)) }

  /** The pods of the two Vault jobs; TLS is not injected into jobs. */
  function VaultHelmPod(): Pod {
    Pod(VAULT_INSTALLER, [], [App("helm", [], [], [Mount("values", "/values", true)])],
        [ConfigVolume("values", "vault-helm-values")])
  }

  function VaultInitPod(): Pod { Pod(VAULT_INSTALLER, [], [App("vault-init", [], [], [])], []) }

  // ------------------------------------------------------------- acceptance

  lemma PlainResolves(p: Pod)
    requires forall i | 0 <= i < |p.initContainers| :: p.initContainers[i].mounts == []
    requires |p.containers| == 1 && |p.containers[0].mounts| == |p.volumes|
    requires forall i | 0 <= i < |p.volumes| :: p.containers[0].mounts[i].volume == p.volumes[i].name
    ensures Resolves(p)
  {
    forall i | 0 <= i < |p.volumes| ensures p.containers[0].mounts[i].volume in Names(p.volumes) {
      assert p.volumes[i] in p.volumes;
    }
  }

  /** Every core pod but PXE's is acceptable in every mode. */
  lemma CorePodsAccepted(spec: Spec)
    ensures Accepted(APIPod(spec)) && Accepted(DHCPPod(spec)) && Accepted(DNSPod(spec))
    ensures Accepted(RLAPod(spec)) && Accepted(PSMPod(spec))
    ensures Accepted(VaultHelmPod()) && Accepted(VaultInitPod())
  {
    PlainResolves(APIPlain(spec));
    PlainResolves(DHCPPlain());
    PlainResolves(DNSPlain());
    PlainResolves(RLAPlain(spec));
    PlainResolves(PSMPlain(spec));
    PlainResolves(VaultHelmPod());
    PlainResolves(VaultInitPod());
    assert |"config"| == 6 && |"casbin-policy"| == 13 && |"dns-config"| == 10 && |"db-certs"| == 8;
    assert |"spiffe-workload-api"| == 19 && |"tls-certs"| == 9 && |"spiffe-helper-config"| == 20;
    InjectionKeepsAccepted(spec.tls, APIPlain(spec));
    InjectionKeepsAccepted(spec.tls, DHCPPlain());
    InjectionKeepsAccepted(spec.tls, DNSPlain());
    InjectionKeepsAccepted(spec.tls, RLAPlain(spec));
    InjectionKeepsAccepted(spec.tls, PSMPlain(spec));
  }

  /** The PXE pod is acceptable exactly in cert-manager mode: in every other its
      mount `spiffe` names no volume. */
  lemma PXEAcceptedExactly(spec: Spec)
    ensures Accepted(PXEPod(spec)) <==> IsCertManager(spec.tls)
  {
    var p := PXEPlain(spec.tls);
    InjectionKeepsResolving(spec.tls, p);
    InjectionKeepsDistinct(spec.tls, p);
    InjectedNames(spec.tls, p.account);
    assert |"spiffe"| == 6 && |"spiffe-workload-api"| == 19 && |"tls-certs"| == 9 && |"spiffe-helper-config"| == 20;
    assert p.containers[0].mounts[0].volume == "spiffe";
    if IsCertManager(spec.tls) {
      assert p.volumes[0] in p.volumes;
    } else {
      assert !MountsWithin(p.containers[0], Names(p.volumes) + Names(InjectedVolumes(spec.tls, p.account)));
    }
  }
}
