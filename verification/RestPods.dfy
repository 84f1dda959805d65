/** The pods of the REST tier, likewise. */
module RestPods {
  import opened Api
  import opened Pods
  import opened CorePods

  const REST_API_NAME := "carbide-rest-api"
  const CLOUD_WORKER_NAME := "carbide-rest-cloud-worker"
  const SITE_WORKER_NAME := "carbide-rest-site-worker"
  const SITE_MANAGER_NAME := "carbide-rest-site-manager"
  const SITE_AGENT_NAME := "carbide-rest-site-agent"
  const TEMPORAL_INSTALLER := "temporal-helm-installer"
  const REST_SECRET := "carbide-rest-api-secret"
  const ENCRYPTION_KEY := "temporal-encryption-key"
  const WORKER_DATABASE_SECRET := "carbide-postgres-pguser-forge"

  function RestAPIPlain(): Pod {
    Pod(REST_API_NAME,
        [App("db-migrations", [REST_SECRET], [], [])],
        [App("rest-api", [REST_SECRET], [], [Mount("config", "/app/config.yaml", true)])],
        [ConfigVolume("config", "carbide-rest-api-config")])
  }

  function WorkerPlain(name: string): Pod {
    Pod(name, [],
        [App(name, [WORKER_DATABASE_SECRET], [],
             [Mount("config", "/app/config.yaml", true),
              Mount(ENCRYPTION_KEY, "/var/secrets/temporal-encryption", true)])],
        [ConfigVolume("config", "carbide-rest-workflow-config"),
            Volume(ENCRYPTION_KEY, FromSecret(ENCRYPTION_KEY, false))])
  }

  function SiteManagerPlain(): Pod { Pod(SITE_MANAGER_NAME, [], [App("site-manager", [], [], [])], []) }

  function SiteAgentPlain(): Pod {
    Pod(SITE_AGENT_NAME, [], [App("agent", [], ["carbide-rest-site-agent-config"], [])], [])
  }

  function RestAPIPod(spec: Spec): Pod { Injected(spec.tls, RestAPIPlain()) }
  function WorkerPod(spec: Spec, name: string): Pod { Injected(spec.tls, WorkerPlain(name)) }
  function SiteManagerPod(spec: Spec): Pod { Injected(spec.tls, SiteManagerPlain()) }
  function SiteAgentPod(spec: Spec): Pod { Injected(spec.tls, SiteAgentPlain()) }

  function TemporalHelmPod(): Pod {
    Pod(TEMPORAL_INSTALLER, [], [App("helm", [], [], [Mount("values", "/values", true)])],
        [ConfigVolume("values", "temporal-helm-values")])
  }

  /** The setup job runs under the default account. */
  function TemporalSetupPod(): Pod { Pod("", [], [App("namespace-init", [], [], [])], []) }

  /** Every REST pod is acceptable in every mode. */
  lemma RestPodsAccepted(spec: Spec, worker: string)
    ensures Accepted(RestAPIPod(spec)) && Accepted(WorkerPod(spec, worker)) && Accepted(SiteManagerPod(spec))
    ensures Accepted(SiteAgentPod(spec)) && Accepted(TemporalHelmPod()) && Accepted(TemporalSetupPod())
  {
    PlainResolves(RestAPIPlain());
    PlainResolves(WorkerPlain(worker));
    PlainResolves(SiteManagerPlain());
    PlainResolves(SiteAgentPlain());
    PlainResolves(TemporalHelmPod());
    PlainResolves(TemporalSetupPod());
    assert |"config"| == 6 && |ENCRYPTION_KEY| == 23;
    assert |"spiffe-workload-api"| == 19 && |"tls-certs"| == 9 && |"spiffe-helper-config"| == 20;
    InjectionKeepsAccepted(spec.tls, RestAPIPlain());
    InjectionKeepsAccepted(spec.tls, WorkerPlain(worker));
    InjectionKeepsAccepted(spec.tls, SiteManagerPlain());
    InjectionKeepsAccepted(spec.tls, SiteAgentPlain());
  }
}
