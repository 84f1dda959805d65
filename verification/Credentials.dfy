/** Which secret holds the password of a database user, in each reader's eyes. */
module Credentials {
  import opened Api
  import opened Gates
  import InfrastructureTier

  /** GetPostgreSQLConnectionSecret. */
  function ManagedSecretName(user: string): string { InfrastructureTier.POSTGRES_CLUSTER + "-pguser-" + user }

  predicate UsesExternalPostgres(spec: Spec) {
    spec.infrastructure.Some? && spec.infrastructure.value.postgresql.mode == External
  }

  function UserSecrets(spec: Spec): map<string, SecretRef> {
    if spec.infrastructure.Some? && spec.infrastructure.value.postgresql.connection.Some?
    then spec.infrastructure.value.postgresql.connection.value.userSecrets else map[]
  }

  /** ResolveUserSecret: the name put into a pod's secret references. */
  function ResolveUserSecret(spec: Spec, user: string): string {
    if UsesExternalPostgres(spec) && user in UserSecrets(spec) then UserSecrets(spec)[user].name
    else ManagedSecretName(user)
  }

  datatype Lookup = At(namespace: string, name: string) | Missing(why: Reason)

  /** Where getPostgreSQLPassword ("carbide") and getForgePassword ("forge") look,
      or why they cannot. */
  function PasswordLookup(infrastructure: Option<InfrastructureConfig>, user: string): Lookup {
    if infrastructure.None? then Missing(NoInfrastructure)
    else
      var infra := infrastructure.value;
      if infra.postgresql.mode == External then
        if infra.postgresql.connection.None? then Missing(MissingConnection)
        else
          var secrets := infra.postgresql.connection.value.userSecrets;
          if user in secrets then At(infra.namespace, secrets[user].name)
          else Missing(MissingUserSecret)
      else
        At(OrElse(infra.namespace, DEFAULT_NAMESPACE), ManagedSecretName(user))
  }

  function Secret(namespace: string, name: string): Obj { Obj(SecretObject, namespace, name) }

  const VAULT_UNSEAL_SECRET := "vault-unseal-secret"

  /** The secrets from which the API and PSM pods take Vault's token. */
  function VaultSecrets(spec: Spec): seq<string> {
    if spec.core.vault.None? then []
    else
      var vault := spec.core.vault.value;
      match vault.mode
      case External =>
        if vault.address != "" && vault.tokenSecretRef.Some? then [vault.tokenSecretRef.value.name] else []
      case Managed => [VAULT_UNSEAL_SECRET]
      case _ => []
  }
}
