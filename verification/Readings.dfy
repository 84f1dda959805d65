/** What the conditions of deployability come to for managed PostgreSQL and Vault, and
    the deadlocks behind them. */
module Readings {
  import opened Api
  import opened Gates
  import opened Pods
  import opened Admission
  import opened Controller
  import opened Credentials
  import opened Supply
  import opened Progress
  import opened CorePods
  import opened RestPods
  import opened Agreements
  import opened Deployability
  import opened Guards
  import opened Rounds
  import opened Barriers
  import opened Stuck
  import opened Exactness
  import InfrastructureTier
  import CoreTier
  import RestTier

  // ------------------------------------------------------ database secrets

  predicate ServiceUser(user: string) { user == "carbide" || user == "rla" || user == "psm" || user == "forge" }

  /** No certificate, no job and no other user's secret passes for it. */
  lemma NameOfUser(user: string, other: string)
    requires ManagedSecretName(user) == ManagedSecretName(other)
    ensures user == other
  {
    var n := |InfrastructureTier.POSTGRES_CLUSTER + "-pguser-"|;
    assert ManagedSecretName(user)[n..] == user && ManagedSecretName(other)[n..] == other;
  }

  lemma NotACertificateSecret(user: string, base: string)
    requires ServiceUser(user)
    ensures ManagedSecretName(user) != base + "-tls"
  {
    var name := ManagedSecretName(user);
    assert name[|name| - 1] == user[|user| - 1] && (base + "-tls")[|base| + 3] == 's';
  }

  /** In managed mode the secret of a service's user exists in a namespace exactly if
      it was put there, or that is the infrastructure namespace and the user is among
      those built. */
  lemma ManagedSecretMeans(name: string, spec: Spec, start: set<Obj>, stage: set<Obj>, ns: string, user: string)
    requires Admitted(name, spec) && spec.infrastructure.Some? && !UsesExternalPostgres(spec) && ServiceUser(user)
    requires start + ManagedCluster(spec) <= stage <= AfterRestSecrets(spec, start)
    ensures Exists(spec, stage, Secret(ns, ManagedSecretName(user))) <==>
            Secret(ns, ManagedSecretName(user)) in start
            || (ns == spec.infrastructure.value.namespace && user in DatabaseUsers(spec))
  {
    var r, cluster := Secret(ns, ManagedSecretName(user)), InfrastructureTier.ClusterObject(spec.infrastructure.value);
    NamespaceNonEmpty(name, spec);
    assert cluster.namespace == spec.infrastructure.value.namespace;
    assert ManagedSecretName(user)[8] == 'p' && "carbide-api-secret"[8] == 'a' && REST_SECRET[8] == 'r';
    if ns == spec.infrastructure.value.namespace && user in DatabaseUsers(spec) {
      assert cluster in stage && Makes(spec, cluster, r);
    }
    if Exists(spec, stage, r) && r !in stage {
      var maker :| maker in stage && Makes(spec, maker, r);
      ManagedMaker(spec, maker, r, user);
    }
  }

  /** What makes such a secret is the cluster, for that very user. */
  lemma ManagedMaker(spec: Spec, maker: Obj, r: Obj, user: string)
    requires ServiceUser(user) && r.name == ManagedSecretName(user) && Makes(spec, maker, r)
    ensures spec.infrastructure.Some? && maker == InfrastructureTier.ClusterObject(spec.infrastructure.value)
    ensures user in DatabaseUsers(spec)
  {
    assert ManagedSecretName(user)[0] == 'c' && VAULT_UNSEAL_SECRET[0] == 'v';
    forall base: string ensures base + "-tls" != r.name { NotACertificateSecret(user, base); }
    if maker.kind == PostgresCluster {
      var other :| other in DatabaseUsers(spec) && r.name == ManagedSecretName(other);
      NameOfUser(user, other);
    }
  }

  // ------------------------------------------------------------ Vault's token

  /** The API finds the token of a managed Vault exactly if it was put there, or the
      init job was: the operator itself writes that job only behind the API. */
  lemma VaultTokenMeans(spec: Spec, start: set<Obj>)
    requires VaultManaged(spec)
    ensures VaultSecretsThere(spec, BeforeAPI(spec, start)) <==>
            Secret(CoreNs(spec), VAULT_UNSEAL_SECRET) in start || Obj(Job, CoreNs(spec), CoreTier.VAULT_INIT) in start
  {
    var r, init, stage := Secret(CoreNs(spec), VAULT_UNSEAL_SECRET), Obj(Job, CoreNs(spec), CoreTier.VAULT_INIT),
        BeforeAPI(spec, start);
    assert VaultSecrets(spec) == [VAULT_UNSEAL_SECRET];
    assert VaultSecretsThere(spec, stage) <==> Exists(spec, stage, r) by {
      assert VaultSecrets(spec)[0] == VAULT_UNSEAL_SECRET;
    }
    assert VAULT_UNSEAL_SECRET[0] == 'v' && "carbide-api-secret"[0] == 'c';
    if init in start { assert Makes(spec, init, r) && init in stage; }
    if Exists(spec, stage, r) && r !in stage {
      var maker :| maker in stage && Makes(spec, maker, r);
      TokenMaker(spec, maker, r);
    }
  }

  lemma NotTheToken(user: string, base: string)
    ensures ManagedSecretName(user) != VAULT_UNSEAL_SECRET && base + "-tls" != VAULT_UNSEAL_SECRET
  {
    assert ManagedSecretName(user)[0] == 'c' && VAULT_UNSEAL_SECRET[0] == 'v';
    assert (base + "-tls")[|base + "-tls"| - 1] == 's' && VAULT_UNSEAL_SECRET[|VAULT_UNSEAL_SECRET| - 1] == 't';
  }

  lemma TokenMaker(spec: Spec, maker: Obj, r: Obj)
    requires r.name == VAULT_UNSEAL_SECRET && Makes(spec, maker, r)
    ensures maker == Obj(Job, r.namespace, CoreTier.VAULT_INIT)
  {
    forall user | user in DatabaseUsers(spec) ensures r.name != ManagedSecretName(user) { NotTheToken(user, ""); }
    forall base: string ensures base + "-tls" != r.name { NotTheToken("", base); }
  }

  lemma VaultBeyondAPI(name: string, spec: Spec, start: set<Obj>)
    requires Admitted(name, spec) && spec.infrastructure.Some? && VaultManaged(spec)
    requires Secret(CoreNs(spec), VAULT_UNSEAL_SECRET) !in start
    requires Obj(Job, CoreNs(spec), CoreTier.VAULT_INIT) !in start
    ensures Obj(Job, CoreNs(spec), CoreTier.VAULT_INIT) !in Bound(spec, start, AtAPI(2))
    ensures Secret(CoreNs(spec), VAULT_UNSEAL_SECRET) !in Bound(spec, start, AtAPI(2))
  {
    var init, token := Obj(Job, CoreNs(spec), CoreTier.VAULT_INIT), Secret(CoreNs(spec), VAULT_UNSEAL_SECRET);
    APIStage(name, spec, start);
    assert SecretMaker(init) && SecretMaker(token);
    assert VAULT_UNSEAL_SECRET[0] == 'v' && "carbide-api-secret"[0] == 'c';
  }

  /** Without token and job the API is an obstacle, and neither can exist before it. */
  lemma VaultObstacle(name: string, spec: Spec, start: set<Obj>)
    requires Admitted(name, spec) && spec.infrastructure.Some? && VaultManaged(spec)
    requires Secret(CoreNs(spec), VAULT_UNSEAL_SECRET) !in start
    requires Obj(Job, CoreNs(spec), CoreTier.VAULT_INIT) !in start
    ensures Hits(spec, start, AtAPI(2))
    ensures Obj(Job, CoreNs(spec), CoreTier.VAULT_INIT) !in Bound(spec, start, AtAPI(2))
    ensures Secret(CoreNs(spec), VAULT_UNSEAL_SECRET) !in Bound(spec, start, AtAPI(2))
  {
    VaultTokenMeans(spec, start);
    APIObstacle(name, spec, start);
    VaultBeyondAPI(name, spec, start);
  }

  /** The deadlock of managed Vault: the API waits for the token, the token for the init
      job, and the job for the API. Unless token or job was there from the start, no
      honest run ever writes the job, brings the token about, or stores `Ready`. */
  lemma VaultDeadlock(d: Stored, worlds: nat -> World, inputs: nat -> Inputs, n: nat)
    requires worlds(0).cluster.obj == Some(d) && Healthy(d) && Unready(d) && HonestRun(d.spec, worlds, inputs)
    requires d.spec.infrastructure.Some? && VaultManaged(d.spec)
    requires var ns, start := CoreNs(d.spec), worlds(0).existing;
             Secret(ns, VAULT_UNSEAL_SECRET) !in start && Obj(Job, ns, CoreTier.VAULT_INIT) !in start
    ensures !IsReady(worlds(n))
    ensures Obj(Job, CoreNs(d.spec), CoreTier.VAULT_INIT) !in worlds(n).existing
    ensures Secret(CoreNs(d.spec), VAULT_UNSEAL_SECRET) !in worlds(n).existing
  {
    var start := worlds(0).existing;
    VaultObstacle(d.name, d.spec, start);
    BoundHas(d.spec, start, AtAPI(2));
    WaitsForEver(d.spec, start, AtAPI(2), worlds, inputs, n);
  }

  /** One secret of a user of an external PostgreSQL that is not there, whether or not any
      tier ever resolves that user, stops everything: no honest run brings about anything
      but the infrastructure namespace, or stores `Ready`. */
  lemma UserSecretMissing(d: Stored, user: string, worlds: nat -> World, inputs: nat -> Inputs, n: nat)
    requires worlds(0).cluster.obj == Some(d) && Healthy(d) && Unready(d) && HonestRun(d.spec, worlds, inputs)
    requires UsesExternalPostgres(d.spec) && user in UserSecrets(d.spec)
    requires var ns := d.spec.infrastructure.value.namespace;
             !Exists(d.spec, worlds(0).existing, Secret(ns, UserSecrets(d.spec)[user].name))
    ensures !IsReady(worlds(n))
    ensures worlds(n).existing <= worlds(0).existing + {Home(d.spec.infrastructure.value.namespace)}
  {
    var start, infra := worlds(0).existing, d.spec.infrastructure.value;
    NamespaceNonEmpty(d.name, d.spec);
    assert Secret(infra.namespace, UserSecrets(d.spec)[user].name) in InfrastructureTier.UserSecretObjects(infra);
    PostgresObstacle(d.name, d.spec, start);
    BoundHas(d.spec, start, AtPostgres(0));
    WaitsForEver(d.spec, start, AtPostgres(0), worlds, inputs, n);
  }

  // -------------------------------------------------- families of specs

  /** With SPIFFE, the default mode, no deployment with core services is deployable in
      any cluster: the API server refuses its PXE workload. */
  lemma SpiffeSitesAreNotDeployable(name: string, spec: Spec, existing: set<Obj>)
    requires Admitted(name, spec) && HasCore(spec) && IsSpiffeMode(spec)
    ensures !Accepted(PXEPod(spec)) && !Deployable(spec, existing)
  {
    PXEFollowsProfile(name, spec);
    PXEAcceptedExactly(spec);
  }

  /** A management deployment whose REST namespace is not that of the infrastructure
      tier needs that namespace to be there: the operator never creates it. */
  lemma RestNamespaceIsNotCreated(name: string, spec: Spec, existing: set<Obj>)
    requires Admitted(name, spec) && spec.profile == Management && spec.infrastructure.Some?
    requires spec.core.namespace != spec.infrastructure.value.namespace
    ensures Home(CoreNs(spec)) !in Objects(spec)
    ensures Home(CoreNs(spec)) !in existing ==> !Deployable(spec, existing)
  {
    OneNamespace(name, spec);
    NamespaceNonEmpty(name, spec);
    NoCoreNoObjects(spec);
    if Home(CoreNs(spec)) in RestObjects(spec) { RestWritesNoNamespace(spec, Home(CoreNs(spec))); }
    if Home(CoreNs(spec)) in InfrastructureObjects(spec) { NamespacesWritten(spec, Home(CoreNs(spec))); }
  }

  predicate NoNamespace(plan: seq<Action>) {
    forall i | 0 <= i < |plan| :: Puts(plan[i]).Some? ==> Puts(plan[i]).value.kind != Namespace
  }

  lemma RestPreludeNoNamespace(spec: Spec)
    ensures NoNamespace(RestTier.Prelude(spec))
  {
    var ns := RestTier.TierNamespace(spec);
    assert NoNamespace(RestTier.TLSPlan(spec, ns));
    assert NoNamespace(RestTier.SecretsPlan(spec, ns));
  }

  lemma {:induction false} ProvidersNoNamespace(providers: seq<AuthProvider>, ns: string, k: nat)
    requires k <= |providers|
    ensures NoNamespace(RestTier.ProvidersPlan(providers, ns, k))
  {
    if k > 0 { ProvidersNoNamespace(providers, ns, k - 1); }
  }

  lemma RestPlansNoNamespace(spec: Spec, ns: string)
    requires spec.rest.Some?
    ensures NoNamespace(RestTier.TemporalPlan(spec, spec.rest.value.temporal, ns))
            && NoNamespace(RestTier.TemporalSetupPlan(ns))
    ensures NoNamespace(RestTier.KeycloakPlan(spec.rest.value.keycloak, ns)) && NoNamespace(RestTier.RestAPIPlan(ns))
    ensures NoNamespace(RestTier.SiteManagerPlan(ns)) && NoNamespace(RestTier.SiteAgentPlan(ns))
  {
    var providers := spec.rest.value.keycloak.providers;
    ProvidersNoNamespace(providers, ns, |providers|);
  }

  ghost predicate NoNamespaceSlots(slots: seq<Slot>) {
    forall i | 0 <= i < |slots| :: slots[i].Some? ==> NoNamespace(slots[i].value.plan)
  }

  lemma {:induction false} SlotsNoNamespace(slots: seq<Slot>, k: nat, x: Obj)
    requires k <= |slots| && NoNamespaceSlots(slots) && x in SlotObjects(slots, k)
    ensures x.kind != Namespace
  {
    if slots[k - 1].Some? && x in Planned(slots[k - 1].value.plan) {
      PlannedOnly(slots[k - 1].value.plan, |slots[k - 1].value.plan|, x);
    } else {
      SlotsNoNamespace(slots, k - 1, x);
    }
  }

  /** The REST tier, unlike the other two, creates no namespace. */
  lemma RestWritesNoNamespace(spec: Spec, x: Obj)
    requires x in RestObjects(spec)
    ensures x.kind != Namespace
  {
    var prelude, slots := RestTier.Prelude(spec), RestTier.Slots(spec);
    if x in Planned(prelude) {
      RestPreludeNoNamespace(spec);
      PlannedOnly(prelude, |prelude|, x);
    } else {
      if RestEnabled(spec) { RestPlansNoNamespace(spec, RestTier.TierNamespace(spec)); }
      SlotsNoNamespace(slots, |slots|, x);
    }
  }

  // ------------------------------------------------ deployable specs there are

  /** The secret of `user` is where core runs: put there, or made there. */
  predicate ManagedSecretAt(spec: Spec, start: set<Obj>, ns: string, user: string)
    requires spec.infrastructure.Some?
  {
    Secret(ns, ManagedSecretName(user)) in start
    || (ns == spec.infrastructure.value.namespace && user in DatabaseUsers(spec))
  }

  /** The core tier with managed PostgreSQL and managed Vault, as every site profile
      has them by default: exactly what must be provided from outside. */
  lemma ManagedCoreMeans(name: string, spec: Spec, start: set<Obj>)
    requires Admitted(name, spec) && spec.infrastructure.Some? && !UsesExternalPostgres(spec) && VaultManaged(spec)
    ensures var ns, infra := CoreNs(spec), spec.infrastructure.value.namespace;
            CoreDeployable(spec, start) <==>
              && IsCertManagerMode(spec) && Secret(ns, PXE_CERTIFICATE) in start
              && (Secret(ns, VAULT_UNSEAL_SECRET) in start || Obj(Job, ns, CoreTier.VAULT_INIT) in start)
              && ManagedSecretAt(spec, start, infra, "carbide") && ManagedSecretAt(spec, start, ns, "carbide")
              && (Enabled(spec.core.rla) ==> ManagedSecretAt(spec, start, ns, "rla"))
              && (Enabled(spec.core.psm) ==> ManagedSecretAt(spec, start, ns, "psm"))
  {
    var ns, infra := CoreNs(spec), spec.infrastructure.value.namespace;
    PXEFollowsProfile(name, spec);
    NamespaceNonEmpty(name, spec);
    VaultTokenMeans(spec, start);
    ManagedSecretMeans(name, spec, start, BeforeConfig(spec, start), infra, "carbide");
    ManagedSecretMeans(name, spec, start, BeforeAPI(spec, start), ns, "carbide");
    ManagedSecretMeans(name, spec, start, AfterVault(spec, start), ns, "rla");
    ManagedSecretMeans(name, spec, start, AfterVault(spec, start), ns, "psm");
  }

  /** A site with managed PostgreSQL and Vault, the defaulted database list, core in the
      infrastructure namespace and no REST block is deployable exactly in cert-manager
      mode with two secrets provided: PXE's certificate and Vault's token. */
  lemma DefaultSiteMeans(name: string, spec: Spec, start: set<Obj>)
    requires Admitted(name, spec) && spec.profile == Site && spec.rest.None?
    requires spec.infrastructure.Some? && !UsesExternalPostgres(spec) && VaultManaged(spec)
    requires spec.infrastructure.value.postgresql.databases == DefaultDatabases(Site)
    requires spec.core.namespace == spec.infrastructure.value.namespace
    ensures var ns := spec.core.namespace;
            Deployable(spec, start) <==>
              && IsCertManagerMode(spec) && Secret(ns, PXE_CERTIFICATE) in start
              && (Secret(ns, VAULT_UNSEAL_SECRET) in start || Obj(Job, ns, CoreTier.VAULT_INIT) in start)
  {
    OneNamespace(name, spec);
    DefaultListCovers(name, spec);
    assert "carbide" in UsersResolved(spec);
    assert Enabled(spec.core.rla) ==> "rla" in UsersResolved(spec);
    assert Enabled(spec.core.psm) ==> "psm" in UsersResolved(spec);
    ManagedCoreMeans(name, spec, start);
  }

  /** A management deployment with managed PostgreSQL, the defaulted database list,
      REST in the infrastructure namespace, external Temporal, authentication off and
      no site agent is deployable exactly if the workers' encryption key is provided. */
  lemma PlainManagementMeans(name: string, spec: Spec, start: set<Obj>)
    requires Admitted(name, spec) && spec.profile == Management
    requires spec.infrastructure.Some? && !UsesExternalPostgres(spec)
    requires spec.infrastructure.value.postgresql.databases == DefaultDatabases(Management)
    requires spec.core.namespace == spec.infrastructure.value.namespace
    requires spec.rest.value.temporal.mode == External && spec.rest.value.keycloak.mode == AuthDisabled
    requires !SiteAgentEnabled(spec)
    ensures Deployable(spec, start) <==> Secret(spec.core.namespace, ENCRYPTION_KEY) in start
  {
    OneNamespace(name, spec);
    RestFollowsProfile(name, spec);
    NamespaceNonEmpty(name, spec);
    DefaultListCovers(name, spec);
    assert "forge" in UsersResolved(spec);
    assert WORKER_DATABASE_SECRET == ManagedSecretName("forge");
    var ns := spec.core.namespace;
    ManagedSecretMeans(name, spec, start, BeforeRestSecrets(spec, start), ns, "forge");
    ManagedSecretMeans(name, spec, start, AfterRestSecrets(spec, start), ns, "forge");
  }
}
