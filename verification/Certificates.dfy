/** Certificates and the workloads that mount them, in cert-manager mode. */
module Certificates {
  import opened Api
  import opened Gates
  import opened Pods
  import opened Supply
  import opened CorePods
  import opened Guards
  import CoreTier

  predicate FromSlot(slots: seq<Slot>, c: Call) {
    exists s, j | 0 <= s < |slots| && slots[s].Some? && 0 <= j < |slots[s].value.plan| ::
        Issues(slots[s].value.plan[j], c)
  }

  /** A network only appends calls of its gates. */
  lemma {:induction false} NetLog(o: Oracle, n: Net, slots: seq<Slot>, k: nat)
    requires k <= |slots|
    ensures var m := NetAfter(o, n, slots, k);
            n.log <= m.log && forall i | |n.log| <= i < |m.log| :: FromSlot(slots, m.log[i])
  {
    if k > 0 {
      NetLog(o, n, slots, k - 1);
      var m, m' := NetAfter(o, n, slots, k - 1), NetAfter(o, n, slots, k);
      if slots[k - 1].Some? {
        var plan := slots[k - 1].value.plan;
        PlanLog(o, m.log, plan, |plan|);
        forall i | |n.log| <= i < |m'.log| ensures FromSlot(slots, m'.log[i]) {
          if i < |m.log| {
            assert m'.log[i] == m.log[i];
          } else {
            var j :| 0 <= j < |plan| && Issues(plan[j], m'.log[i]);
          }
        }
      }
    }
  }

  /** A Deployment or DaemonSet is written; jobs get no TLS. */
  predicate IsWorkload(c: Call) { c.Apply? && (c.obj.kind == Deployment || c.obj.kind == DaemonSet) }

  /** Before position `i` the certificate was requested, then its secret was seen. */
  ghost predicate CertificateSeen(o: Oracle, log: seq<Call>, i: nat, ns: string, name: string)
    requires i <= |log|
  {
    exists j, k | 0 <= j < k < i ::
      && log[j] == Write(CoreTier.CertificateObject(ns, name))
      && log[k] == CoreTier.CertificateSecret(ns, name) && o(log[..k], log[k]) == Yes
  }

  lemma PreludeHasNoWorkload(spec: Spec, i: nat)
    requires i < |CoreTier.Prelude(spec)|
    ensures var a := CoreTier.Prelude(spec)[i]; !Blocked(a) ==> !IsWorkload(a.call)
  {
    if spec.profile != Management {
      var ns := CoreTier.TierNamespace(spec);
      assert forall j | 0 <= j < |CoreTier.TLSPlan(spec, ns)| ::
          var a := CoreTier.TLSPlan(spec, ns)[j]; !Blocked(a) ==> !IsWorkload(a.call);
      assert forall j | 0 <= j < |CoreTier.ConfigPlan(spec, ns)| ::
          var a := CoreTier.ConfigPlan(spec, ns)[j]; !Blocked(a) ==> !IsWorkload(a.call);
    }
  }

  lemma PreludeLogHasNoWorkload(o: Oracle, spec: Spec, i: nat)
    requires i < |RunPlan(o, [], CoreTier.Prelude(spec)).log|
    ensures !IsWorkload(RunPlan(o, [], CoreTier.Prelude(spec)).log[i])
  {
    var plan := CoreTier.Prelude(spec);
    PlanLog(o, [], plan, |plan|);
    var j :| 0 <= j < |plan| && Issues(plan[j], RunPlan(o, [], plan).log[i]);
    PreludeHasNoWorkload(spec, j);
  }

  /** The workloads of a plan run in `ns` under an account of their own name, which is
      one of `names`. */
  predicate Accounted(spec: Spec, plan: seq<Action>, ns: string, names: seq<string>) {
    forall i | 0 <= i < |plan| && !Blocked(plan[i]) && IsWorkload(plan[i].call) ::
      && plan[i].call.obj.namespace == ns && plan[i].call.obj.name in names
      && Template(spec, plan[i].call.pod).account == plan[i].call.obj.name
  }

  ghost predicate AccountedSlots(spec: Spec, slots: seq<Slot>, ns: string, names: seq<string>) {
    forall i | 0 <= i < |slots| :: slots[i].Some? ==> Accounted(spec, slots[i].value.plan, ns, names)
  }

  lemma PlansAccounted(spec: Spec, ns: string, names: seq<string>)
    requires API_NAME in names && DHCP_NAME in names && DNS_NAME in names && PXE_NAME in names
    ensures Accounted(spec, [], ns, names)
            && Accounted(spec, CoreTier.ServicePlan(ns, API_NAME, APIServer), ns, names)
            && Accounted(spec, CoreTier.PXEPlan(spec, ns), ns, names)
    ensures Accounted(spec, CoreTier.DaemonPlan(ns, DHCP_NAME, DHCPServer), ns, names)
    ensures Accounted(spec, CoreTier.DaemonPlan(ns, DNS_NAME, DNSServer), ns, names)
  {
  }

  lemma BackendPlansAccounted(spec: Spec, ns: string, names: seq<string>)
    ensures spec.core.vault.Some? ==> Accounted(spec, CoreTier.VaultPlan(spec.core.vault.value, ns), ns, names)
    ensures RLA_NAME in names ==> Accounted(spec, CoreTier.ServicePlan(ns, RLA_NAME, RLAServer), ns, names)
    ensures PSM_NAME in names ==> Accounted(spec, CoreTier.ServicePlan(ns, PSM_NAME, PSMServer), ns, names)
  {
  }

  /** Core workloads run under a service account of their own name. */
  lemma CoreAccounted(spec: Spec)
    ensures AccountedSlots(spec, CoreTier.Slots(spec), CoreTier.TierNamespace(spec), CoreTier.AccountNames(spec))
  {
    AccountsListed(spec);
    PlansAccounted(spec, CoreTier.TierNamespace(spec), CoreTier.AccountNames(spec));
    BackendPlansAccounted(spec, CoreTier.TierNamespace(spec), CoreTier.AccountNames(spec));
  }

  lemma WorkloadNames(spec: Spec, c: Call)
    requires FromSlot(CoreTier.Slots(spec), c) && IsWorkload(c)
    ensures c.obj.namespace == CoreTier.TierNamespace(spec) && c.obj.name in CoreTier.AccountNames(spec)
    ensures Template(spec, c.pod).account == c.obj.name
  {
    CoreAccounted(spec);
  }

  /** Where the certificate of `names[t]` is written and awaited in the prelude. */
  lemma CertificateActions(spec: Spec, t: nat)
    requires spec.profile != Management && IsCertManagerMode(spec) && spec.tls.value.certManager.Some?
    requires t < |CoreTier.AccountNames(spec)|
    ensures var plan, names, ns := CoreTier.Prelude(spec), CoreTier.AccountNames(spec), CoreTier.TierNamespace(spec);
            var m := |names|;
            && 1 + 3 * m <= |plan|
            && plan[1 + m + t] == Must(Write(CoreTier.CertificateObject(ns, names[t])))
            && plan[1 + 2 * m + t] == Poll(CoreTier.CertificateSecret(ns, names[t]))
  {
    var names, ns := CoreTier.AccountNames(spec), CoreTier.TierNamespace(spec);
    var m := |names|;
    var start := [Must(Write(Obj(Namespace, "", ns)))] + CoreTier.AccountsPlan(names, ns);
    var tls := CoreTier.CertificatesPlan(names, ns) + CoreTier.CertificateWaits(names, ns);
    assert CoreTier.Prelude(spec) == start + tls + CoreTier.ConfigPlan(spec, ns);
    assert |start| == 1 + m && tls[t] == Must(Write(CoreTier.CertificateObject(ns, names[t])));
    assert tls[m + t] == Poll(CoreTier.CertificateSecret(ns, names[t]));
  }

  /** A prelude that came to its end saw every certificate. */
  lemma PreludeSeesCertificates(o: Oracle, spec: Spec, t: nat)
    requires spec.profile != Management && IsCertManagerMode(spec) && spec.tls.value.certManager.Some?
    requires t < |CoreTier.AccountNames(spec)| && RunPlan(o, [], CoreTier.Prelude(spec)).answer == Yes
    ensures var log := RunPlan(o, [], CoreTier.Prelude(spec)).log;
            CertificateSeen(o, log, |log|, CoreTier.TierNamespace(spec), CoreTier.AccountNames(spec)[t])
  {
    var plan, m := CoreTier.Prelude(spec), |CoreTier.AccountNames(spec)|;
    var log := RunPlan(o, [], plan).log;
    CertificateActions(spec, t);
    var j, k := 1 + m + t, 1 + 2 * m + t;
    PlanDone(o, [], plan, |plan|, j);
    PlanDone(o, [], plan, |plan|, k);
    var before := PlanAfter(o, [], plan, k).log;
    assert log[j] == plan[j].call && log[k] == plan[k].call && log[..k] == before;
  }

  lemma SeenStays(o: Oracle, a: seq<Call>, b: seq<Call>, i: nat, ns: string, name: string)
    requires a <= b && |a| <= i <= |b| && CertificateSeen(o, a, |a|, ns, name)
    ensures CertificateSeen(o, b, i, ns, name)
  {
    var j, k :| 0 <= j < k < |a| && a[j] == Write(CoreTier.CertificateObject(ns, name))
                && a[k] == CoreTier.CertificateSecret(ns, name) && o(a[..k], a[k]) == Yes;
    assert b[j] == a[j] && b[k] == a[k] && b[..k] == a[..k];
  }

  /** The pod of a core workload has the certificate secret of its account mounted. */
  predicate MountsCertificate(p: Pod) {
    Volume("tls-certs", FromSecret(p.account + "-tls", false)) in p.volumes
  }

  lemma WorkloadMounts(spec: Spec, w: Workload)
    requires IsCertManagerMode(spec) && w in {APIServer, DHCPServer, PXEServer, DNSServer, RLAServer, PSMServer}
    ensures MountsCertificate(Template(spec, w))
  {
    var p := Template(spec, w);
    assert p.volumes[|p.volumes| - 1] == CertificateVolume(p.account);
  }

  lemma SeenInPrelude(o: Oracle, spec: Spec, log: seq<Call>, i: nat, account: string)
    requires spec.profile != Management && IsCertManagerMode(spec) && spec.tls.value.certManager.Some?
    requires account in CoreTier.AccountNames(spec)
    requires var p := RunPlan(o, [], CoreTier.Prelude(spec)); p.answer == Yes && p.log <= log && |p.log| <= i < |log|
    ensures CertificateSeen(o, log, i, CoreTier.TierNamespace(spec), account)
  {
    var names := CoreTier.AccountNames(spec);
    var t :| 0 <= t < |names| && names[t] == account;
    PreludeSeesCertificates(o, spec, t);
    SeenStays(o, RunPlan(o, [], CoreTier.Prelude(spec)).log, log, i, CoreTier.TierNamespace(spec), account);
  }

  /** In cert-manager mode no core workload is written in a pass before the secret
      that its injected volume names, `<service account>-tls`, was requested by a
      Certificate and seen to exist, earlier in the same pass. */
  lemma CertificatesBeforeWorkloads(o: Oracle, spec: Spec, i: nat)
    requires IsCertManagerMode(spec) && spec.tls.value.certManager.Some?
    requires i < |CoreTier.Run(o, spec).log| && IsWorkload(CoreTier.Run(o, spec).log[i])
    ensures var log := CoreTier.Run(o, spec).log;
            && CertificateSeen(o, log, i, log[i].obj.namespace, Template(spec, log[i].pod).account)
            && MountsCertificate(Template(spec, log[i].pod))
  {
    var p, log := RunPlan(o, [], CoreTier.Prelude(spec)), CoreTier.Run(o, spec).log;
    if p.answer == Yes && spec.profile != Management {
      NetLog(o, START.(log := p.log), CoreTier.Slots(spec), |CoreTier.Slots(spec)|);
      if i < |p.log| {
        PreludeLogHasNoWorkload(o, spec, i);
      } else {
        WorkloadNames(spec, log[i]);
        WorkloadMounts(spec, log[i].pod);
        SeenInPrelude(o, spec, log, i, log[i].obj.name);
      }
    } else {
      PreludeLogHasNoWorkload(o, spec, i);
    }
  }
}
