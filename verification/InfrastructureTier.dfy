/** The infrastructure tier: one PostgreSQL, managed or external. */
module InfrastructureTier {
  import opened Api
  import opened Gates
  import opened Clients

  const POSTGRES_CLUSTER := "carbide-postgres"

  /** The namespace this tier works in; the other tiers fall back elsewhere. */
  function TierNamespace(infra: InfrastructureConfig): string { OrElse(infra.namespace, OPERATORS_NAMESPACE) }

  function ClusterObject(infra: InfrastructureConfig): Obj {
    Obj(PostgresCluster, TierNamespace(infra), POSTGRES_CLUSTER)
  }

  function Prelude(infra: InfrastructureConfig): seq<Action> {
    [Must(Write(Obj(Namespace, "", TierNamespace(infra))))]
    + (if infra.storageClass != "" then [Must(Reach(StorageClassNamed(infra.storageClass)))] else [])
    + (if infra.postgresql.mode != External
       then [Must(Write(Obj(ConfigMap, TierNamespace(infra), "carbide-postgres-init")))] else [])
  }

  /** The secrets of all users of an external PostgreSQL, resolved by a tier or not. */
  function UserSecretObjects(infra: InfrastructureConfig): set<Obj>
    requires infra.postgresql.connection.Some?
  {
    var secrets := infra.postgresql.connection.value.userSecrets;
    set user | user in secrets :: Obj(SecretObject, TierNamespace(infra), secrets[user].name)
  }

  function ExternalCheck(infra: InfrastructureConfig): Target
    requires infra.postgresql.connection.Some?
  {
    ExternalPostgres(infra.postgresql.connection.value.host, UserSecretObjects(infra))
  }

  function PostgresPlan(infra: InfrastructureConfig): seq<Action> {
    match infra.postgresql.mode
    case ModeUnset | Managed =>
      var cluster := ClusterObject(infra);
      [Must(Reach(PostgresOperator)), Must(Write(cluster)), Poll(Probe(cluster, {cluster}))]
    case External =>
      if infra.postgresql.connection.None? then [Abort(MissingConnection)]
      else [Must(Reach(ExternalCheck(infra)))]
    case OtherMode => [Abort(UnknownMode)]
  }

  function Slots(infra: InfrastructureConfig): seq<Slot> {
    [Some(Gate(PostgreSQL, true, true, {}, PostgresPlan(infra)))]
  }

  function Run(o: Oracle, infra: InfrastructureConfig): TierRun {
    RunTier(o, Prelude(infra), Slots(infra))
  }

  method ReconcilePostgreSQL(c: Client, infra: InfrastructureConfig) returns (ready: bool, err: bool)
    modifies c
    ensures Follows(c.oracle, old(c.log), PostgresPlan(infra), c.log, ready, err)
  {
    PlanUnroll(c.oracle, c.log, PostgresPlan(infra));
    var mode := if infra.postgresql.mode == ModeUnset then Managed else infra.postgresql.mode;
    match mode {
      case Managed =>
        var cluster := ClusterObject(infra);
        err := c.Validate(PostgresOperator);
        if err { return false, true; }
        err := c.CreateOrUpdate(cluster);
        if err { return false, true; }
        ready, err := c.IsReady(cluster, {cluster});
      case External =>
        if infra.postgresql.connection.None? { return false, true; }
        err := c.Validate(ExternalCheck(infra));
        ready := !err;
      case _ =>
        return false, true;
    }
  }

  method ReconcilePrelude(c: Client, infra: InfrastructureConfig) returns (err: bool)
    modifies c
    ensures Follows(c.oracle, old(c.log), Prelude(infra), c.log, !err, err)
  {
    PlanUnroll(c.oracle, c.log, Prelude(infra));
    err := c.CreateOrUpdate(Obj(Namespace, "", TierNamespace(infra)));
    if err { return; }
    if infra.storageClass != "" {
      err := c.Validate(StorageClassNamed(infra.storageClass));
      if err { return; }
    }
    if infra.postgresql.mode != External {
      err := c.CreateOrUpdate(Obj(ConfigMap, TierNamespace(infra), "carbide-postgres-init"));
    }
  }

  method Reconcile(c: Client, infra: InfrastructureConfig) returns (status: TierStatus, err: bool)
    requires c.log == []
    modifies c
    ensures TierRun(status, err, c.log) == Run(c.oracle, infra)
  {
    status := TierStatus(false, []);
    err := ReconcilePrelude(c, infra);
    if err { return; }
    ghost var n := START.(log := c.log);
    var ready;
    ready, err := ReconcilePostgreSQL(c, infra);
    status := status.(components := status.components + [ComponentStatus(PostgreSQL, ready)]);
    assert NetAfter(c.oracle, n, Slots(infra), 1)
        == RunSlot(c.oracle, NetAfter(c.oracle, n, Slots(infra), 0), Slots(infra)[0]);
    if err { return; }
    status := status.(ready := ready);
  }
}
