/** What exists in the cluster, what comes about from it, and which calls it can
    therefore answer. */
module Supply {
  import opened Api
  import opened Gates
  import opened Pods
  import opened Credentials
  import opened CorePods
  import opened RestPods
  import PostgresUsers
  import InfrastructureTier
  import CoreTier

  /** The pod template of a workload. */
  function Template(spec: Spec, w: Workload): Pod {
    match w
    case APIServer => APIPod(spec)
    case DHCPServer => DHCPPod(spec)
    case PXEServer => PXEPod(spec)
    case DNSServer => DNSPod(spec)
    case RLAServer => RLAPod(spec)
    case PSMServer => PSMPod(spec)
    case VaultHelm => VaultHelmPod()
    case VaultInit => VaultInitPod()
    case TemporalHelm => TemporalHelmPod()
    case TemporalInit => TemporalSetupPod()
    case RestServer => RestAPIPod(spec)
    case CloudRunner => WorkerPod(spec, CLOUD_WORKER_NAME)
    case SiteRunner => WorkerPod(spec, SITE_WORKER_NAME)
    case Manager => SiteManagerPod(spec)
    case Agent => SiteAgentPod(spec)
  }

  /** The users the managed cluster is asked to make. */
  function DatabaseUsers(spec: Spec): set<string> {
    if spec.infrastructure.Some? then PostgresUsers.Users(spec.infrastructure.value.postgresql.databases) else {}
  }

  /** The database operator makes a secret per user beside the managed cluster,
      cert-manager the secret that a Certificate asks for, and the init job of Vault
      the secret with its root token. */
  ghost predicate Makes(spec: Spec, maker: Obj, x: Obj) {
    && x.kind == SecretObject && x.namespace == maker.namespace
    && match maker.kind
       case PostgresCluster =>
         && spec.infrastructure.Some? && !UsesExternalPostgres(spec)
         && maker == InfrastructureTier.ClusterObject(spec.infrastructure.value)
         && exists user :: user in DatabaseUsers(spec) && x.name == ManagedSecretName(user)
       case Certificate => exists base :: maker.name == base + "-cert" && x.name == base + "-tls"
       case Job => maker.name == CoreTier.VAULT_INIT && x.name == VAULT_UNSEAL_SECRET
       case _ => false
  }

  /** `x` is there, or comes about from what is. */
  ghost predicate Exists(spec: Spec, existing: set<Obj>, x: Obj) {
    x in existing || exists maker :: maker in existing && Makes(spec, maker, x)
  }

  lemma ExistsMonotone(spec: Spec, a: set<Obj>, b: set<Obj>, x: Obj)
    requires a <= b && Exists(spec, a, x)
    ensures Exists(spec, b, x)
  {
  }

  function Config(namespace: string, name: string): Obj { Obj(ConfigMap, namespace, name) }

  function Account(namespace: string, name: string): Obj { Obj(ServiceAccount, namespace, name) }

  ghost predicate ContainerReady(spec: Spec, existing: set<Obj>, ns: string, c: Container) {
    && (forall i | 0 <= i < |c.secrets| :: Exists(spec, existing, Secret(ns, c.secrets[i])))
    && (forall i | 0 <= i < |c.configs| :: Exists(spec, existing, Config(ns, c.configs[i])))
  }

  ghost predicate VolumeReady(spec: Spec, existing: set<Obj>, ns: string, v: Volume) {
    match v.source
    case FromSecret(name, optional) => optional || Exists(spec, existing, Secret(ns, name))
    case FromConfigMap(name) => Exists(spec, existing, Config(ns, name))
    case _ => true
  }

  /** Every object that the pod cannot start without: its account, and the secrets
      and ConfigMaps that its environment and its volumes refer to. */
  ghost predicate PodReady(spec: Spec, existing: set<Obj>, ns: string, p: Pod) {
    && (p.account != "" ==> Exists(spec, existing, Account(ns, p.account)))
    && (forall i | 0 <= i < |p.initContainers| :: ContainerReady(spec, existing, ns, p.initContainers[i]))
    && (forall i | 0 <= i < |p.containers| :: ContainerReady(spec, existing, ns, p.containers[i]))
    && (forall i | 0 <= i < |p.volumes| :: VolumeReady(spec, existing, ns, p.volumes[i]))
  }

  /** A namespaced object is written into a namespace that exists. */
  ghost predicate Placed(spec: Spec, existing: set<Obj>, x: Obj) {
    x.namespace == "" || Exists(spec, existing, Obj(Namespace, "", x.namespace))
  }

  /** The cluster has what a positive answer takes. */
  ghost predicate Supplied(spec: Spec, existing: set<Obj>, c: Call) {
    match c
    case Write(obj) => Placed(spec, existing, obj)
    case Apply(obj, pod) => Placed(spec, existing, obj) && Accepted(Template(spec, pod))
    case Await(obj, pod) => Exists(spec, existing, obj) && PodReady(spec, existing, obj.namespace, Template(spec, pod))
    case Probe(_, needs) => forall x | x in needs :: Exists(spec, existing, x)
    case SecretRead(namespace, name) => Exists(spec, existing, Secret(namespace, name))
    case Reach(ExternalPostgres(_, secrets)) => forall x | x in secrets :: Exists(spec, existing, x)
    case Reach(_) => true
  }

  lemma SuppliedMonotone(spec: Spec, a: set<Obj>, b: set<Obj>, c: Call)
    requires a <= b && Supplied(spec, a, c)
    ensures Supplied(spec, b, c)
  {
  }

  /** What a call leaves behind when it succeeds. */
  function Written(c: Call): Option<Obj> {
    match c case Write(obj) => Some(obj) case Apply(obj, _) => Some(obj) case _ => None
  }

  /** What the calls of a log brought about: the writes that were accepted. */
  function Landed(o: Oracle, log: seq<Call>): set<Obj> {
    if log == [] then {}
    else
      var before, c := log[..|log| - 1], log[|log| - 1];
      Landed(o, before) + (if Written(c).Some? && o(before, c) == Yes then {Written(c).value} else {})
  }

  lemma LandedStep(o: Oracle, log: seq<Call>, c: Call)
    ensures Landed(o, log + [c])
            == Landed(o, log) + (if Written(c).Some? && o(log, c) == Yes then {Written(c).value} else {})
  {
    assert (log + [c])[..|log|] == log;
  }

  /** A cluster that answers Yes wherever what existed before the pass suffices. All
      other answers are left open. */
  ghost predicate Fair(spec: Spec, o: Oracle, existing: set<Obj>) {
    forall log, c :: Supplied(spec, existing, c) ==> o(log, c) == Yes
  }

  /** A cluster that answers Yes only where what existed before the tier, and what the
      tier itself has brought about so far, suffices. */
  ghost predicate Honest(spec: Spec, o: Oracle, existing: set<Obj>) {
    forall log, c :: o(log, c) == Yes ==> Supplied(spec, existing + Landed(o, log), c)
  }

  // ------------------------------------------------------- what injection adds

  /** After TLS injection a pod needs what it needed before, and the helper's
      configuration or the secret of its account's certificate. */
  lemma InjectedReady(spec: Spec, existing: set<Obj>, ns: string, p: Pod)
    requires p.account != ""
    ensures PodReady(spec, existing, ns, Injected(spec.tls, p)) <==>
            && PodReady(spec, existing, ns, p)
            && (IsSpiffe(spec.tls) ==> Exists(spec, existing, Config(ns, "spiffe-helper-config")))
            && (IsCertManager(spec.tls) ==> Exists(spec, existing, Secret(ns, p.account + "-tls")))
  {
    var q, added := Injected(spec.tls, p), InjectedVolumes(spec.tls, p.account);
    VolumesReady(spec, existing, ns, p.volumes, added);
    if IsSpiffe(spec.tls) {
      var n := |p.containers|;
      assert forall i | 0 <= i < n ::
          ContainerReady(spec, existing, ns, q.containers[i]) <==> ContainerReady(spec, existing, ns, p.containers[i]);
      assert ContainerReady(spec, existing, ns, q.containers[n])
          && ContainerReady(spec, existing, ns, q.initContainers[0]);
      assert forall i | 0 <= i < |p.initContainers| :: q.initContainers[i + 1] == p.initContainers[i];
      assert VolumeReady(spec, existing, ns, added[0]) && VolumeReady(spec, existing, ns, added[1]);
      assert VolumeReady(spec, existing, ns, added[2]) <==> Exists(spec, existing, Config(ns, "spiffe-helper-config"));
    } else if IsCertManager(spec.tls) {
      assert forall i | 0 <= i < |p.containers| ::
          ContainerReady(spec, existing, ns, q.containers[i]) <==> ContainerReady(spec, existing, ns, p.containers[i]);
      assert VolumeReady(spec, existing, ns, added[0]) <==> Exists(spec, existing, Secret(ns, p.account + "-tls"));
    }
  }

  lemma VolumesReady(spec: Spec, existing: set<Obj>, ns: string, a: seq<Volume>, b: seq<Volume>)
    ensures (forall i | 0 <= i < |a + b| :: VolumeReady(spec, existing, ns, (a + b)[i])) <==>
            (forall i | 0 <= i < |a| :: VolumeReady(spec, existing, ns, a[i]))
            && (forall i | 0 <= i < |b| :: VolumeReady(spec, existing, ns, b[i]))
  {
    assert forall i | 0 <= i < |a| :: (a + b)[i] == a[i];
    assert forall i | 0 <= i < |b| :: (a + b)[|a| + i] == b[i];
  }
}
