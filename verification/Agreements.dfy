/** What the tiers may assume of an admitted spec: where its credentials are, and
    which branches it never leads into. */
module Agreements {
  import opened Api
  import opened Gates
  import opened Admission
  import opened Credentials
  import opened Supply
  import opened RestPods
  import PostgresUsers
  import InfrastructureTier
  import CoreTier
  import RestTier

  // ------------------------------------------------------ database credentials

  predicate TemporalManaged(spec: Spec) {
    spec.rest.Some? && spec.rest.value.temporal.mode != External && spec.rest.value.temporal.mode != OtherMode
  }

  /** The database users whose secrets the enabled tiers refer to. */
  function UsersResolved(spec: Spec): set<string> {
    (if spec.profile == Management then {}
     else {"carbide"})
    + (if spec.profile != Management && Enabled(spec.core.rla) then {"rla"} else {})
    + (if spec.profile != Management && Enabled(spec.core.psm) then {"psm"} else {})
    + (if RestEnabled(spec) then {"forge"} + (if TemporalManaged(spec) then {"temporal"} else {}) else {})
  }

  lemma ListedUser(databases: seq<string>, db: string)
    requires db in databases
    ensures PostgresUsers.Owner(db) in PostgresUsers.Users(databases)
  {
  }

  /** Credential coverage: with the defaulted database list every user that an
      enabled tier resolves is among the users built. */
  lemma DefaultListCovers(name: string, spec: Spec)
    requires Admitted(name, spec) && spec.infrastructure.Some?
    requires spec.infrastructure.value.postgresql.databases == DefaultDatabases(spec.profile)
    ensures UsersResolved(spec) <= DatabaseUsers(spec)
  {
    var dbs := DefaultDatabases(spec.profile);
    forall u | u in UsersResolved(spec) ensures u in PostgresUsers.Users(dbs) {
      assert u in dbs by {
        if spec.profile == Management {
          assert dbs[0] == "forge" && dbs[1] == "temporal";
        } else if spec.profile == Site {
          assert !RestEnabled(spec) by { if spec.rest.Some? { RestFollowsProfile(name, spec); } }
          assert dbs[0] == "carbide" && dbs[2] == "rla" && dbs[3] == "psm";
        } else {
          assert dbs[0] == "carbide" && dbs[1] == "forge" && dbs[2] == "rla" && dbs[3] == "psm" && dbs[4] == "temporal";
        }
      }
      ListedUser(dbs, u);
      assert PostgresUsers.Owner(u) == u;
    }
  }

  /** Agreement: where a tier looks up a password, the pods of that user are handed
      a secret of the same name; it is the same secret exactly when core runs in the
      infrastructure namespace, where the password was read. */
  lemma PasswordSecretAgreement(name: string, spec: Spec, user: string)
    requires Admitted(name, spec) && PasswordLookup(spec.infrastructure, user).At?
    ensures var read := PasswordLookup(spec.infrastructure, user);
            && read.name == ResolveUserSecret(spec, user)
            && read.namespace == spec.infrastructure.value.namespace
            && (read.namespace == CoreTier.TierNamespace(spec)
               <==> spec.core.namespace == spec.infrastructure.value.namespace)
  {
    NamespaceNonEmpty(name, spec);
    SettledNamespaces(name, spec);
  }

  /** The workers' hard-coded secret is the one whose password was read exactly in
      managed mode, or when the user's secret happens to bear the managed name. */
  lemma WorkerSecretAgreement(spec: Spec)
    requires PasswordLookup(spec.infrastructure, "forge").At?
    ensures PasswordLookup(spec.infrastructure, "forge").name == WORKER_DATABASE_SECRET <==>
            !UsesExternalPostgres(spec) || UserSecrets(spec)["forge"].name == WORKER_DATABASE_SECRET
  {
    assert ManagedSecretName("forge") == WORKER_DATABASE_SECRET;
  }

  /** The tiers agree on the namespace of PostgreSQL, their different fallbacks
      notwithstanding, exactly when it is set; and admission sets it. */
  lemma PostgresNamespaceAgreed(name: string, spec: Spec)
    requires spec.infrastructure.Some?
    ensures var infra := spec.infrastructure.value;
            && (InfrastructureTier.TierNamespace(infra) == OrElse(infra.namespace, DEFAULT_NAMESPACE)
               <==> infra.namespace != "")
            && (Admitted(name, spec) ==> infra.namespace != "")
  {
    assert OPERATORS_NAMESPACE[0] != DEFAULT_NAMESPACE[0];
    if Admitted(name, spec) { NamespaceNonEmpty(name, spec); }
  }

  // --------------------------------------------------- branches never reached

  /** Every action the spec alone decides is decided for an allowed reason. */
  predicate Clean(plan: seq<Action>, allowed: set<Reason>) {
    forall i | 0 <= i < |plan| :: Blocked(plan[i]) ==> plan[i].why in allowed
  }

  predicate CleanSlots(slots: seq<Slot>, allowed: set<Reason>) {
    forall i | 0 <= i < |slots| :: slots[i].Some? ==> Clean(slots[i].value.plan, allowed)
  }

  /** What an admitted spec may still lack. */
  ghost predicate Lacks(spec: Spec, allowed: set<Reason>) {
    && (spec.infrastructure.None? ==> NoInfrastructure in allowed)
    && (UsesExternalPostgres(spec) && spec.profile != Management && "carbide" !in UserSecrets(spec)
       ==> MissingUserSecret in allowed)
    && (UsesExternalPostgres(spec) && RestEnabled(spec) && "forge" !in UserSecrets(spec)
       ==> MissingUserSecret in allowed)
  }

  lemma InfrastructureClean(name: string, spec: Spec)
    requires Admitted(name, spec) && spec.infrastructure.Some?
    ensures var infra := spec.infrastructure.value;
            Clean(InfrastructureTier.Prelude(infra), {}) && CleanSlots(InfrastructureTier.Slots(infra), {})
  {
  }

  lemma CorePreludeClean(name: string, spec: Spec, allowed: set<Reason>)
    requires Admitted(name, spec) && Lacks(spec, allowed)
    ensures Clean(CoreTier.Prelude(spec), allowed)
  {
    if spec.profile != Management {
      var ns := CoreTier.TierNamespace(spec);
      assert Clean(CoreTier.TLSPlan(spec, ns), allowed);
      assert Clean(CoreTier.ConfigPlan(spec, ns), allowed);
    }
  }

  lemma CoreSlotsClean(name: string, spec: Spec, allowed: set<Reason>)
    requires Admitted(name, spec)
    ensures CleanSlots(CoreTier.Slots(spec), allowed)
  {
    if spec.profile != Management {
      var ns := CoreTier.TierNamespace(spec);
      if spec.core.vault.Some? { assert Clean(CoreTier.VaultPlan(spec.core.vault.value, ns), allowed); }
    }
  }

  lemma {:induction false} ProvidersClean(providers: seq<AuthProvider>, ns: string, k: nat, allowed: set<Reason>)
    requires k <= |providers|
    ensures Clean(RestTier.ProvidersPlan(providers, ns, k), allowed)
  {
    if k > 0 { ProvidersClean(providers, ns, k - 1, allowed); }
  }

  lemma RestPreludeClean(name: string, spec: Spec, allowed: set<Reason>)
    requires Admitted(name, spec) && Lacks(spec, allowed)
    ensures Clean(RestTier.Prelude(spec), allowed)
  {
    if RestEnabled(spec) {
      var ns := RestTier.TierNamespace(spec);
      assert Clean(RestTier.TLSPlan(spec, ns), allowed);
      assert Clean(RestTier.SecretsPlan(spec, ns), allowed);
    }
  }

  lemma TemporalClean(name: string, spec: Spec, ns: string, allowed: set<Reason>)
    requires Admitted(name, spec) && Lacks(spec, allowed) && RestEnabled(spec)
    ensures Clean(RestTier.TemporalPlan(spec, spec.rest.value.temporal, ns), allowed)
  {
  }

  lemma KeycloakClean(name: string, spec: Spec, ns: string, allowed: set<Reason>)
    requires Admitted(name, spec) && RestEnabled(spec)
    ensures Clean(RestTier.KeycloakPlan(spec.rest.value.keycloak, ns), allowed)
  {
    var providers := spec.rest.value.keycloak.providers;
    ProvidersClean(providers, ns, |providers|, allowed);
  }

  lemma RestSlotsClean(name: string, spec: Spec, allowed: set<Reason>)
    requires Admitted(name, spec) && Lacks(spec, allowed)
    ensures CleanSlots(RestTier.Slots(spec), allowed)
  {
    if RestEnabled(spec) {
      var ns := RestTier.TierNamespace(spec);
      TemporalClean(name, spec, ns, allowed);
      KeycloakClean(name, spec, ns, allowed);
    }
  }

  /** No admitted spec leads any tier into a nil dereference or an unknown-mode,
      missing-connection, missing-endpoint, missing-address or missing-provider
      branch; what remains is a missing infrastructure block or user secret. */
  lemma AdmittedSpecsAreClean(name: string, spec: Spec)
    requires Admitted(name, spec)
    ensures var allowed := {NoInfrastructure, MissingUserSecret};
            && (spec.infrastructure.Some? ==>
                  Clean(InfrastructureTier.Prelude(spec.infrastructure.value), {})
                  && CleanSlots(InfrastructureTier.Slots(spec.infrastructure.value), {}))
            && Clean(CoreTier.Prelude(spec), allowed) && CleanSlots(CoreTier.Slots(spec), allowed)
            && Clean(RestTier.Prelude(spec), allowed) && CleanSlots(RestTier.Slots(spec), allowed)
  {
    var allowed := {NoInfrastructure, MissingUserSecret};
    if spec.infrastructure.Some? { InfrastructureClean(name, spec); }
    CorePreludeClean(name, spec, allowed);
    CoreSlotsClean(name, spec, allowed);
    RestPreludeClean(name, spec, allowed);
    RestSlotsClean(name, spec, allowed);
  }
}
