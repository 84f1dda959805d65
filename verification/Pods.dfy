/** TLS injection into pod specs, in place. */
module Pods {
  import opened Api

  datatype Mount = Mount(volume: string, path: string, readOnly: bool)

  /** `secrets` and `configs` are the secrets and ConfigMaps that the environment of
      the container refers to; none of these references is optional. */
  datatype Container = Container(
    name: string, image: string, args: seq<string>, secrets: seq<string>, configs: seq<string>, mounts: seq<Mount>)

  datatype VolumeSource =
    | FromSecret(name: string, optional: bool) | FromConfigMap(name: string) | CSI(driver: string) | EmptyDir
    | OtherSource

  datatype Volume = Volume(name: string, source: VolumeSource)

  datatype Pod = Pod(account: string, initContainers: seq<Container>, containers: seq<Container>, volumes: seq<Volume>)

  const CERT_DIR := "/var/run/secrets/tls"
  const HELPER := "spiffe-helper"
  const CERT_MOUNT := Mount("tls-certs", CERT_DIR, true)

  // --------------------------------------------------------- what is injected

  const HELPER_MOUNTS: seq<Mount> := [
    Mount("spiffe-workload-api", "/var/run/secrets/spiffe.io", true),
    Mount("tls-certs", CERT_DIR, false),
    Mount("spiffe-helper-config", "/etc/spiffe-helper", true)]

  function Fetcher(image: string): Container {
    Container("spiffe-helper-init", image, ["-config", "/etc/spiffe-helper/helper-init.conf"], [], [], HELPER_MOUNTS)
  }

  function Sidecar(image: string): Container {
    Container(HELPER, image, ["-config", "/etc/spiffe-helper/helper.conf"], [], [], HELPER_MOUNTS)
  }

  const SPIFFE_VOLUMES: seq<Volume> := [
    Volume("spiffe-workload-api", CSI("csi.spiffe.io")),
    Volume("tls-certs", EmptyDir),
    Volume("spiffe-helper-config", FromConfigMap("spiffe-helper-config"))]

  function HelperImage(tls: TLSConfig): string {
    if tls.spiffe.Some? then OrElse(tls.spiffe.value.helperImage, HELPER_IMAGE) else HELPER_IMAGE
  }

  function CertificateVolume(account: string): Volume {
    Volume("tls-certs", FromSecret(OrElse(account, "default") + "-tls", false))
  }

  function Certified(c: Container): Container { c.(mounts := c.mounts + [CERT_MOUNT]) }

  /** The volumes a mode brings along. */
  function InjectedVolumes(tls: Option<TLSConfig>, account: string): seq<Volume> {
    if tls.None? then []
    else
      match tls.value.mode
      case Spiffe => SPIFFE_VOLUMES
      case CertManager => [CertificateVolume(account)]
      case _ => []
  }

  /** The containers of the application, each with its certificates. */
  function AllCertified(cs: seq<Container>): seq<Container> {
    seq(|cs|, i requires 0 <= i < |cs| => if cs[i].name == HELPER then cs[i] else Certified(cs[i]))
  }

  function AllCertifiedPlain(cs: seq<Container>): seq<Container> {
    seq(|cs|, i requires 0 <= i < |cs| => Certified(cs[i]))
  }

  function Injected(tls: Option<TLSConfig>, p: Pod): Pod {
    if tls.None? then p
    else
      var volumes := p.volumes + InjectedVolumes(tls, p.account);
      match tls.value.mode
      case Spiffe =>
        var image := HelperImage(tls.value);
        Pod(p.account, [Fetcher(image)] + p.initContainers, AllCertified(p.containers) + [Sidecar(image)], volumes)
      case CertManager => Pod(p.account, p.initContainers, AllCertifiedPlain(p.containers), volumes)
      case _ => p
  }

  // ---------------------------------------------------------------- as written

  class PodSpec {
    const account: string
    var initContainers: seq<Container>
    var containers: seq<Container>
    var volumes: seq<Volume>

    ghost function Contents(): Pod
      reads this
    {
      Pod(account, initContainers, containers, volumes)
    }

    constructor (p: Pod)
      ensures Contents() == p
    {
      account, initContainers, containers, volumes := p.account, p.initContainers, p.containers, p.volumes;
    }

    method InjectSpiffe(tls: Option<TLSConfig>)
      modifies this
      ensures Contents() == if IsSpiffe(tls) then Injected(tls, old(Contents())) else old(Contents())
    {
      if tls.None? || tls.value.mode != Spiffe { return; }
      var image := HELPER_IMAGE;
      if tls.value.spiffe.Some? && tls.value.spiffe.value.helperImage != "" {
        image := tls.value.spiffe.value.helperImage;
      }
      initContainers := [Fetcher(image)] + initContainers;
      containers := containers + [Sidecar(image)];
      ghost var all := containers;
      for i := 0 to |containers|
        invariant |containers| == |all| && volumes == old(volumes)
        invariant initContainers == [Fetcher(image)] + old(initContainers)
        invariant forall j | 0 <= j < i :: containers[j] == AllCertified(all)[j]
        invariant forall j | i <= j < |all| :: containers[j] == all[j]
      {
        if containers[i].name == "spiffe-helper" { continue; }
        containers := containers[i := containers[i].(mounts := containers[i].mounts + [CERT_MOUNT])];
      }
      volumes := volumes + SPIFFE_VOLUMES;
      assert containers == AllCertified(all) == AllCertified(old(containers)) + [Sidecar(image)];
    }

    method InjectCertManager(tls: Option<TLSConfig>)
      modifies this
      ensures Contents() == if IsCertManager(tls) then Injected(tls, old(Contents())) else old(Contents())
    {
      if tls.None? || tls.value.mode != CertManager { return; }
      var saName := account;
      if saName == "" { saName := "default"; }
      volumes := volumes + [Volume("tls-certs", FromSecret(saName + "-tls", false))];
      for i := 0 to |containers|
        invariant |containers| == |old(containers)| && initContainers == old(initContainers)
        invariant volumes == old(volumes) + [CertificateVolume(account)]
        invariant forall j | 0 <= j < i :: containers[j] == Certified(old(containers)[j])
        invariant forall j | i <= j < |containers| :: containers[j] == old(containers)[j]
      {
        containers := containers[i := containers[i].(mounts := containers[i].mounts + [CERT_MOUNT])];
      }
      assert containers == AllCertifiedPlain(old(containers));
    }

    method InjectTLS(tls: Option<TLSConfig>)
      modifies this
      ensures Contents() == Injected(tls, old(Contents()))
    {
      if tls.None? { return; }
      match tls.value.mode {
        case Spiffe => InjectSpiffe(tls);
        case CertManager => InjectCertManager(tls);
        case _ =>
      }
    }
  }

  predicate IsSpiffe(tls: Option<TLSConfig>) { tls.Some? && tls.value.mode == Spiffe }

  predicate IsCertManager(tls: Option<TLSConfig>) { tls.Some? && tls.value.mode == CertManager }

  // ---------------------------------------------------------------- properties

  function Names(vs: seq<Volume>): set<string> { set v | v in vs :: v.name }

  predicate MountsWithin(c: Container, names: set<string>) {
    forall i | 0 <= i < |c.mounts| :: c.mounts[i].volume in names
  }

  /** Every mount names one of these volumes. */
  predicate AllWithin(p: Pod, names: set<string>) {
    && (forall i | 0 <= i < |p.initContainers| :: MountsWithin(p.initContainers[i], names))
    && (forall i | 0 <= i < |p.containers| :: MountsWithin(p.containers[i], names))
  }

  predicate Resolves(p: Pod) { AllWithin(p, Names(p.volumes)) }

  predicate DistinctVolumes(vs: seq<Volume>) { forall i, j | 0 <= i < j < |vs| :: vs[i].name != vs[j].name }

  lemma NamesConcat(a: seq<Volume>, b: seq<Volume>)
    ensures Names(a + b) == Names(a) + Names(b)
  {
    forall n | n in Names(a) + Names(b) ensures n in Names(a + b) {
      if n in Names(a) {
        var v :| v in a && v.name == n;
        assert v in a + b;
      } else {
        var v :| v in b && v.name == n;
        assert v in a + b;
      }
    }
  }

  lemma InjectedNames(tls: Option<TLSConfig>, account: string)
    ensures Names(InjectedVolumes(tls, account))
            == if IsSpiffe(tls) then {"spiffe-workload-api", "tls-certs", "spiffe-helper-config"}
               else if IsCertManager(tls) then {"tls-certs"} else {}
  {
    var vs := InjectedVolumes(tls, account);
    if IsSpiffe(tls) {
      assert vs[0] in vs && vs[1] in vs && vs[2] in vs;
    } else if IsCertManager(tls) {
      assert vs[0] in vs;
    }
  }

  /** Volume names stay distinct exactly when they were, and none of them is a name
      that the mode brings along. */
  lemma InjectionKeepsDistinct(tls: Option<TLSConfig>, p: Pod)
    ensures DistinctVolumes(Injected(tls, p).volumes) <==>
            DistinctVolumes(p.volumes) && Names(p.volumes) !! Names(InjectedVolumes(tls, p.account))
  {
    var added, all := InjectedVolumes(tls, p.account), Injected(tls, p).volumes;
    assert all == p.volumes + added;
    assert |"spiffe-workload-api"| == 19 && |"tls-certs"| == 9 && |"spiffe-helper-config"| == 20;
    if DistinctVolumes(all) {
      forall i, j | 0 <= i < j < |p.volumes| ensures p.volumes[i].name != p.volumes[j].name {
        assert all[i].name != all[j].name;
      }
      forall v, w | v in p.volumes && w in added ensures v.name != w.name {
        var i :| 0 <= i < |p.volumes| && p.volumes[i] == v;
        var j :| 0 <= j < |added| && added[j] == w;
        assert all[i] == v && all[|p.volumes| + j] == w;
      }
    }
    if DistinctVolumes(p.volumes) && Names(p.volumes) !! Names(added) {
      forall i, j | 0 <= i < j < |all| ensures all[i].name != all[j].name {
        if i < |p.volumes| <= j {
          assert all[i].name in Names(p.volumes) && all[j] in added && all[j].name in Names(added);
        }
      }
    }
  }

  /** Every mount resolves afterwards exactly when the pod's own mounts name its own
      volumes or injected ones; so a pod that resolved still does. */
  lemma InjectionKeepsResolving(tls: Option<TLSConfig>, p: Pod)
    ensures Resolves(Injected(tls, p)) <==> AllWithin(p, Names(p.volumes) + Names(InjectedVolumes(tls, p.account)))
    ensures Resolves(p) ==> Resolves(Injected(tls, p))
  {
    var q, added := Injected(tls, p), InjectedVolumes(tls, p.account);
    var names := Names(q.volumes);
    assert q.volumes == p.volumes + added;
    NamesConcat(p.volumes, added);
    InjectedNames(tls, p.account);
    if tls.Some? {
      if tls.value.mode == Spiffe {
        SpiffeWithin(p, q, names);
      } else if tls.value.mode == CertManager {
        forall i | 0 <= i < |p.containers|
          ensures MountsWithin(q.containers[i], names) <==> MountsWithin(p.containers[i], names)
        {
          CertifiedWithin(p.containers[i], names);
        }
      }
    }
  }

  lemma CertifiedWithin(c: Container, names: set<string>)
    requires "tls-certs" in names
    ensures MountsWithin(Certified(c), names) <==> MountsWithin(c, names)
  {
    assert forall i | 0 <= i < |c.mounts| :: Certified(c).mounts[i] == c.mounts[i];
  }

  lemma SpiffeWithin(p: Pod, q: Pod, names: set<string>)
    requires exists image :: q.initContainers == [Fetcher(image)] + p.initContainers
                             && q.containers == AllCertified(p.containers) + [Sidecar(image)]
    requires {"spiffe-workload-api", "tls-certs", "spiffe-helper-config"} <= names
    ensures AllWithin(q, names) <==> AllWithin(p, names)
  {
    var n := |p.containers|;
    forall i | 0 <= i < n ensures MountsWithin(q.containers[i], names) <==> MountsWithin(p.containers[i], names) {
      CertifiedWithin(p.containers[i], names);
    }
    forall i | 0 <= i < |p.initContainers| ensures q.initContainers[i + 1] == p.initContainers[i] {}
    assert MountsWithin(q.containers[n], names) && MountsWithin(q.initContainers[0], names);
  }

  /** One mount at the certificate directory, read-only, of the injected volume. */
  predicate OneCertMount(c: Container) {
    exists m | 0 <= m < |c.mounts| ::
      c.mounts[m] == CERT_MOUNT && forall k | 0 <= k < |c.mounts| && k != m :: c.mounts[k].path != CERT_DIR
  }

  /** What injection adds. With SPIFFE: a fetcher in front, a sidecar behind, both of the
      configured image or the default one, and three volumes. With cert-manager: one
      volume from the secret of the account's certificate. Every container of the
      application gets the certificates read-only. Otherwise nothing. */
  lemma InjectionAdds(tls: Option<TLSConfig>, p: Pod)
    ensures var q := Injected(tls, p);
            var configured := if tls.Some? && tls.value.spiffe.Some? then tls.value.spiffe.value.helperImage else "";
            var image := if configured == "" then "ghcr.io/nvidia/spiffe-helper:latest" else configured;
            var shared := [Mount("spiffe-workload-api", "/var/run/secrets/spiffe.io", true),
                           Mount("tls-certs", "/var/run/secrets/tls", false),
                           Mount("spiffe-helper-config", "/etc/spiffe-helper", true)];
            var fetcher := Container("spiffe-helper-init", image,
                               ["-config", "/etc/spiffe-helper/helper-init.conf"], [], [], shared);
            var sidecar := Container("spiffe-helper", image,
                               ["-config", "/etc/spiffe-helper/helper.conf"], [], [], shared);
            && q.account == p.account
            && (IsSpiffe(tls) ==>
                  && q.initContainers == [fetcher] + p.initContainers
                  && |q.containers| == |p.containers| + 1 && q.containers[|p.containers|] == sidecar
                  && q.volumes == p.volumes + [Volume("spiffe-workload-api", CSI("csi.spiffe.io")),
                         Volume("tls-certs", EmptyDir),
                         Volume("spiffe-helper-config", FromConfigMap("spiffe-helper-config"))])
            && (IsCertManager(tls) ==>
                  && q.initContainers == p.initContainers && |q.containers| == |p.containers|
                  && var account := if p.account == "" then "default" else p.account;
                     q.volumes == p.volumes + [Volume("tls-certs", FromSecret(account + "-tls", false))])
            && (IsSpiffe(tls) || IsCertManager(tls) ==>
                  forall i | 0 <= i < |p.containers| && !(IsSpiffe(tls) && p.containers[i].name == "spiffe-helper") ::
                    q.containers[i] == p.containers[i].(
                      mounts := p.containers[i].mounts + [Mount("tls-certs", "/var/run/secrets/tls", true)]))
            && (!IsSpiffe(tls) && !IsCertManager(tls) ==> q == p)
  {
  }

  /** What injection does to the containers: the application's keep their places and
      everything but one more read-only mount at the certificate directory (withheld
      only from one that calls itself the helper), and the SPIFFE fetcher goes before
      the init containers, whose order stands. */
  lemma InjectionKeepsContainers(tls: Option<TLSConfig>, p: Pod)
    requires IsSpiffe(tls) || IsCertManager(tls)
    ensures var q := Injected(tls, p);
            && q.account == p.account
            && |q.containers| == |p.containers| + (if IsSpiffe(tls) then 1 else 0)
            && (forall i | 0 <= i < |p.containers| ::
                  q.containers[i] == p.containers[i].(mounts := q.containers[i].mounts)
                  && q.containers[i].mounts
                     == p.containers[i].mounts + (if IsSpiffe(tls) && p.containers[i].name == HELPER then []
                                                  else [Mount("tls-certs", CERT_DIR, true)])
                  && ((IsSpiffe(tls) ==> p.containers[i].name != HELPER)
                      && (forall m | m in p.containers[i].mounts :: m.path != CERT_DIR)
                      ==> OneCertMount(q.containers[i])))
            && (IsSpiffe(tls) ==>
                  q.initContainers != [] && q.initContainers[0].name == "spiffe-helper-init"
                      && q.initContainers[1..] == p.initContainers)
            && (IsCertManager(tls) ==> q.initContainers == p.initContainers)
  {
    var q := Injected(tls, p);
    forall i | 0 <= i < |p.containers| && (IsSpiffe(tls) ==> p.containers[i].name != HELPER)
               && (forall m | m in p.containers[i].mounts :: m.path != CERT_DIR)
      ensures OneCertMount(q.containers[i])
    {
      var n := |p.containers[i].mounts|;
      assert q.containers[i].mounts[n] == CERT_MOUNT;
      forall k | 0 <= k < n ensures q.containers[i].mounts[k].path != CERT_DIR {
        assert q.containers[i].mounts[k] == p.containers[i].mounts[k];
        assert p.containers[i].mounts[k] in p.containers[i].mounts;
      }
    }
  }

  /** The API server accepts a pod template only when its mounts resolve and its
      volume names are distinct. */
  predicate Accepted(p: Pod) { Resolves(p) && DistinctVolumes(p.volumes) }

  /** Injection keeps a pod acceptable that brings none of the injected names along. */
  lemma InjectionKeepsAccepted(tls: Option<TLSConfig>, p: Pod)
    requires Accepted(p)
    requires forall v | v in p.volumes :: v.name !in {"spiffe-workload-api", "tls-certs", "spiffe-helper-config"}
    ensures Accepted(Injected(tls, p))
  {
    InjectionKeepsResolving(tls, p);
    InjectedNames(tls, p.account);
    InjectionKeepsDistinct(tls, p);
  }
}
