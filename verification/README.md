# Verified model of the CarbideDeployment operator

The operator drives one `CarbideDeployment` object through an ordered, gated
rollout: TLS backend check, then the infrastructure, core and REST tiers, over
repeated reconcile passes and a store that others write to as well. This project
models that rollout in Dafny and proves what holds of it.

`dafny verify dfyconfig.toml` checks everything.

## How the model is built

- `Api` holds the spec and status types. Modes, profiles and phases are
  enumerations with a constructor for the empty string and one for any value
  outside the schema.
- `Gates` is a reference semantics for a tier that knows nothing of readiness
  flags or early returns: a prelude plan, then slots, each empty (component not
  expected) or holding a gate (component, prerequisites, plan). The reconcilers in
  `InfrastructureTier`, `CoreTier` and `RestTier` are written step by step as in
  the source, with its flags, loops and returns, and are proved to do exactly what
  the plans and gates prescribe. The cluster is an oracle that may answer every
  call differently depending on the whole history of calls of that pass, so all
  interference with a tier is covered. An upsert is one such call; what happens
  inside it is the subject of `Upsert`.
- `Controller` holds one reconcile pass, as a method over a store object and as the
  function it is proved equal to, with the steps of others (creation, edits through
  admission, deletion, removal of the finalizer) landing while it runs. Failed
  reads and lost writes are inputs. `Runs` interleaves passes and other steps into
  whole runs; `Safety` states what every state of every run satisfies.
- `Passes` says case by case what one pass leaves of the object. `Logs` derives, from
  what the cluster was asked and answered, what stands behind a ready component, what
  came before each call and which answers make a tier fail; `Evidence`, `Failures` and
  `Inventory` spell that out for the three tiers, without reference to their plans.
- A run is orderly when nobody but the operator removes the operator's finalizer
  during a pass. `Safety.OverObservedExactly` says exactly what goes wrong without.
- `CorePods` and `RestPods` hold the pods that the operator deploys: account,
  secrets and ConfigMaps that their containers and volumes refer to, mounts, all
  after the TLS injection of `Pods`. `Supply` says which calls a cluster can answer,
  given what exists in it: a namespaced object can be written once its namespace
  exists, a workload only if its pod template is acceptable, and a workload is
  rolled out only once its account, secrets and ConfigMaps exist. Secrets come about
  from the managed PostgreSQL cluster (one per user, in its namespace), from
  Certificates, and from Vault's init job.
- In a fair round nothing fails and the cluster answers Yes wherever what existed
  before the pass suffices; a fair run has fair rounds again and again, any failures
  in between, and others may add objects after each round. An honest cluster answers
  Yes only where what exists suffices, counting what the pass has brought about so
  far; nobody else adds anything there. `Deployability.Deployable` is an explicit
  condition on a spec and on what exists at the start. `Exactness.DeployableExactly`
  proves that it is the dividing line: a deployment that has not been ready yet
  becomes `Ready` in every fair run if and only if its spec is deployable in that
  cluster. Beyond objects, a fair cluster has the detected TLS backend, the
  operators, storage classes and external endpoints that the operator checks for,
  and the programs in its pods do what they are started for.
- `Guards` proves that the plans of a deployable spec wait for nothing but what is
  there or was written before; `Stuck` finds, for each condition that fails, the
  action that is never got past; `Barriers` proves that it never is. `Readings` spells
  the conditions out for managed PostgreSQL and Vault.

## Where code and documentation disagree

The model follows the code.

- `Updating` is a documented phase (README.md:262) that is never stored, since the
  phases assigned at internal/controller/carbidedeployment_controller.go:131, 170,
  188 and 205 are overwritten before the write: `Safety.PhaseIsSummary`.
- A REST block that is present but disabled keeps a deployment from ever being
  `Ready`: `Safety.ReadyHasNoIdleRest`, `Safety.QuiescentMeansReady`.
- REST may be reconciled behind a core status left from an earlier pass:
  `Safety.StaleCoreLetsRestIn`. It never counts towards `Ready`:
  `Rounds.ReadyMeansReadyNow`.
- VaultReady, RLAReady and PSMReady are documented conditions (README.md:303-308,
  docs/deployment-guide.md:358-360) that are set to Unknown at the start and never
  again: `Safety.ServiceConditionsNeverTrue`, `Passes.ComputedConditions`.
- Managed Vault, which every site profile has by default, is a deadlock: the API's
  pods wait for a token that only Vault's init job brings about, and that job is
  written only once the API is ready. `Readings.VaultDeadlock`,
  `Readings.VaultTokenMeans`.
- The PXE pod mounts a volume that exists only in cert-manager mode, so in SPIFFE
  mode, the default, the API server refuses it and no deployment with core services
  ever becomes `Ready`: `CorePods.PXEAcceptedExactly`,
  `Readings.SpiffeSitesAreNotDeployable`. In cert-manager mode it needs a secret that
  nothing brings about: `Readings.ManagedCoreMeans`.
- The REST tier creates no namespace: `Readings.RestNamespaceIsNotCreated`.
- Managed Keycloak is created as `keycloak` and polled as `carbide-keycloak`; the
  service account of the site agent, the one of the Temporal Helm job and, in
  cert-manager mode, the certificate of the site agent are never created:
  `Stuck.OrphansAreNeverCreated`. The workers' encryption key is never created
  either: `Readings.PlainManagementMeans`.
- The infrastructure namespace is meant to be immutable but can be changed in two
  updates: `Admission.NamespaceBypass`.
- The workers name the managed secret also with external PostgreSQL:
  `Agreements.WorkerSecretAgreement`. The API pod's secret is the one whose
  password was read only if core runs in the infrastructure namespace:
  `Agreements.PasswordSecretAgreement`, `Readings.ManagedSecretMeans`.

## Model

| member | source | states |
|---|---|---|
| Safety.RolloutOrder | internal/controller/carbidedeployment_controller.go:102-211 | In every orderly run, no tier step happens in a pass whose fetched object lacks the finalizer, is being deleted, is uninitialised, or whose TLS backend the cluster did not affirm in that pass; core steps only after infrastructure reported ready in the same pass (if configured); REST steps only if enabled and after a core step over the same object, in this or an earlier pass, that reported ready without error |
| Safety.PhaseIsSummary | internal/controller/carbidedeployment_controller.go:129-233 | In every reachable stored state past initialisation, phase and Ready condition are one fixed function of the spec at the observed generation, the TLSReady condition and the three tier statuses; `Updating` is never stored and `Failed` exactly when the pass that wrote the status was not told that the configured backend is there; TLSReady and the condition of the configured mode are True in exactly the other case |
| Safety.StatusBookkeeping | internal/conditions/helpers.go:27-77 | In every reachable stored state condition types are unique, each tier condition is True exactly when that tier's status is present and ready, Ready is True exactly in phase Ready, and the observed generation lies between 0 and the object's generation, 0 exactly before the first full pass |
| Safety.ServiceConditionsNeverTrue | internal/conditions/helpers.go:216-228 | In no reachable stored state is VaultReady, RLAReady or PSMReady True |
| Safety.ObservedGenerationGrows | internal/controller/carbidedeployment_controller.go:135 | Over the life of one object, across any passes, edits and lost writes, the observed generation never decreases |
| Safety.ReadyHasNoIdleRest | internal/conditions/helpers.go:159-168 | Whatever is stored as Ready was computed for a spec whose REST block is absent or enabled; for a site profile, absent |
| Safety.QuiescentMeansReady | internal/controller/carbidedeployment_controller.go:159-246 | For a pass from any reachable state that writes its status: the stored phase is Ready if and only if the pass returns no error, asks for no requeue, and the REST block is absent or enabled |
| Safety.StaleCoreLetsRestIn | internal/controller/carbidedeployment_controller.go:179-199 | Whenever a core status is stored as ready, infrastructure is not ready in this pass and REST is enabled, the pass reconciles infrastructure and REST and skips core |
| Runs.RunsKeepInv | internal/controller/carbidedeployment_controller.go:87-246 | The invariant behind the above holds in every state of every orderly run: history of admitted specs of one profile, status untouched, initialised or final for the spec and verdict of the pass that wrote it, stored core readiness witnessed by an earlier step |
| Runs.ComputedFacts | internal/controller/carbidedeployment_controller.go:129-215 | Whatever transient phases a pass assigns and whatever the tiers answer, the status it computes is final for the fetched spec and generation, keeps the books, and has TLSReady True exactly if the backend was detected |
| Runs.ComputedSteps | internal/controller/carbidedeployment_controller.go:159-211 | Exactly which tiers a pass reconciles, in which order, and which core status the REST gate looks at |
| Runs.EveryStepsRun | internal/controller/carbidedeployment_controller.go:87-246 | Every sequence of passes and steps of others is the step sequence of some run, so the claims about runs leave no behaviour out |
| Controller.Reconcile | internal/controller/carbidedeployment_controller.go:87-246 | The pass written as in the source leaves the store, the result and the tier steps that the pass function prescribes, for all interleaved steps of others and all failures |
| Controller.Compute | internal/controller/carbidedeployment_controller.go:129-215 | Steps 5 to 8 compute the prescribed status, requeue flag, error and tier steps |
| Controller.CheckTLSPrerequisites | internal/controller/carbidedeployment_controller.go:250-294 | Available exactly if a known mode is configured and its backend detected; sets the two conditions accordingly and nothing else |
| Passes.NothingFetched | internal/controller/carbidedeployment_controller.go:92-100 | A pass that fetched nothing leaves everything as it is, and is an error exactly if the read failed |
| Passes.DeletionPass | internal/controller/carbidedeployment_controller.go:354-378 | Over an object being deleted: without the finalizer nothing; with it the object goes if the write goes through and nobody touched the object since the fetch, and otherwise an error and nothing changed |
| Passes.DeletionCompletes | internal/controller/carbidedeployment_controller.go:354-378 | From every reachable state, an undisturbed pass that goes through removes an object that is being deleted |
| Passes.FinalizerPassExactly | internal/controller/carbidedeployment_controller.go:107-115 | Over a live object without the finalizer: it is put on and a requeue asked for, exactly if the write goes through and nobody touched the object; otherwise an error and nothing changed |
| Passes.OperatorOnlyFinalizesDeleted | internal/controller/carbidedeployment_controller.go:102-233 | In every orderly run, whatever others do meanwhile, the operator takes its finalizer only off an object being deleted, and never changes name, spec, generation or deletion mark |
| Passes.InitializationPass | internal/controller/carbidedeployment_controller.go:117-128 | The first pass over a finalized object always asks for another and is never an error; it writes the initial status, phase Pending with exactly the conditions the spec calls for, each Unknown at that generation, exactly if the write goes through and nobody was faster |
| Passes.WorkPassExactly | internal/controller/carbidedeployment_controller.go:129-246 | A working pass writes its status exactly if re-fetch and write go through; then it is an error exactly if a tier failed, and asks for more exactly if the backend was not affirmed or some tier it reconciled failed or is not ready; a lost write is an error, or a requeue after a failed TLS check, and changes nothing |
| Passes.ComputedConditions | internal/conditions/helpers.go:38-77 | After a pass, Ready, TLSReady, the condition of the TLS mode and that of each tier it reconciled are True or False as it found, at the fetched generation; all other conditions are as before |
| Passes.InitializedExactly | internal/conditions/helpers.go:191-231 | Which conditions a new deployment starts with, each Unknown at its generation, and no others |
| Conditions.FindAfterSet | internal/conditions/helpers.go:27-35 | After a condition is set it is found with its new value and every other type is found as before |
| Conditions.SetKeepsUnique | internal/conditions/helpers.go:27-35 | Setting a condition never duplicates a type |
| Conditions.Deployment.SetReadyCondition | internal/conditions/helpers.go:146-177 | Sets phase and Ready condition to the summary of spec, TLS verdict and tier statuses and changes nothing else |
| Conditions.Deployment.InitializeConditions | internal/conditions/helpers.go:191-231 | Sets exactly the conditions the spec calls for to Unknown and the phase to Pending |
| Runs.InitializedFacts | internal/conditions/helpers.go:191-231 | An initialised status has unique condition types, no condition True, and differs from a fresh one in phase and conditions only |
| Gates.TierExact | internal/controller/core_reconciler.go:153-307 | For any row of gates and any answers: the tier is ready if and only if every expected component is listed and every listed one is ready; entries are in order, once each, after their ready prerequisites; an error never comes with ready |
| Logs.TierLogged | internal/controller/core_reconciler.go:73-307 | For any row of gates and any answers: each ready entry has the whole plan of its component in the log, every call answered Yes; a ready tier has all plans there; no call of a gate is made before the prelude and everything the gate needs was done |
| Logs.TierTells | internal/controller/core_reconciler.go:85-299 | Without an error, every call was answered Yes or by an answer that its plan waits on; with an error, a plan cannot go on or the last call was answered in a way that makes an action fail |
| Evidence.CoreEntriesAreEarned | internal/controller/core_reconciler.go:370-628 | Each core component reported ready has its own workload applied and then seen rolled out in that pass, with its service; PXE also its claim first; managed Vault the Helm job completed, then the init job applied and completed; external Vault its token read |
| Evidence.CoreWorkloadsWait | internal/controller/core_reconciler.go:177-296 | Whenever a core workload other than the API's is applied, the API had been applied and seen rolled out earlier in that pass; whenever RLA or PSM is, a configured Vault had been brought up |
| Evidence.CoreHasReadItsPassword | internal/controller/core_reconciler.go:714-770 | The core tier is not ready, nor any component reported, unless the password of carbide was read in that pass from the secret named in the spec, or from the database operator's in managed mode |
| Evidence.RestEntriesAreEarned | internal/controller/rest_reconciler.go:292-640 | The same for REST components: Temporal's Helm job then its frontend, or its endpoint; Keycloak's operator, instance, realm and polled instance, or every provider's secret; workloads applied, then rolled out |
| Evidence.RestWorkloadsWait | internal/controller/rest_reconciler.go:161-280 | Whenever a REST workload is applied, everything it waits for, the unreported Temporal namespaces included, had been brought up earlier in that pass |
| Evidence.RestHasReadItsPassword | internal/controller/rest_reconciler.go:702-751 | The same for REST and the password of forge |
| Evidence.PostgresIsEarned | internal/controller/infrastructure_reconciler.go:56-192 | PostgreSQL reported ready takes the operator found, the cluster written and then seen ready, or the outside check passed with the secrets of all users, and a named storage class found |
| Failures.CoreSwallowsNothing | internal/controller/core_reconciler.go:85-299 | Unless the core tier fails, each of its calls was answered Yes, or No to a question about a rollout, a claim or a certificate |
| Failures.CoreFailsForACause | internal/controller/core_reconciler.go:85-299 | If it fails for an admitted spec whose password entries are there, its last call was not answered Yes |
| Failures.CoreFailureIsListed | internal/controller/core_reconciler.go:160-299 | A core tier that fails after its prelude lists the component that failed, last and not ready |
| Failures.RestSwallowsOnlyThePassword | internal/controller/rest_reconciler.go:80-288 | Unless the REST tier fails, each call was answered Yes, or No to a question about a rollout or an object, or was the read of the forge password |
| Failures.RestFailsForACause | internal/controller/rest_reconciler.go:80-288 | If it fails for such a spec, its last call was not answered Yes |
| Failures.RestFailureIsListed | internal/controller/rest_reconciler.go:161-280 | A REST tier that fails after its prelude lists the component that failed, last and not ready, unless that is a worker or the Temporal namespaces, which are then missing from the list |
| Failures.PasswordIsWaitedFor | internal/controller/rest_reconciler.go:141-159 | While the forge password cannot be read, the REST tier reports no component, is not ready, and never fails for it |
| Failures.InfrastructureTells | internal/controller/infrastructure_reconciler.go:43-192 | The infrastructure tier waits for nothing but its cluster, and fails only over a call that was not answered Yes |
| Inventory.CoreReadyMeansCreated | internal/controller/core_reconciler.go:73-307 | When the core tier is ready, exactly the listed objects were accepted in that pass: namespace, accounts, identities or certificates, configuration, secret, and each expected service's workload, service, claim and jobs |
| Inventory.CoreCreatesExactly | internal/controller/core_reconciler.go:73-307 | The core tier calls for exactly these objects, for every admitted spec |
| Inventory.RestReadyMeansCreated | internal/controller/rest_reconciler.go:63-288 | When the REST tier is ready, exactly the listed objects were accepted in that pass |
| Inventory.RestCreatesExactly | internal/controller/rest_reconciler.go:63-288 | The REST tier calls for exactly these objects, for every admitted spec |
| Inventory.InfrastructureReadyMeansCreated | internal/controller/infrastructure_reconciler.go:43-192 | The infrastructure tier calls for its namespace and, unless PostgreSQL is external, the init ConfigMap and the cluster; all were accepted in a pass that finds it ready |
| CoreTier.CoreStatusExact | internal/controller/core_reconciler.go:153-307 | For profiles other than management the core status is ready if and only if Migration, API and every enabled or configured one of DHCP, PXE, DNS, Vault, RLA, PSM are listed and all listed ones ready; each at most once, network services and Vault behind API, RLA and PSM behind API and a configured Vault; an error never comes with ready |
| RestTier.RestStatusExact | internal/controller/rest_reconciler.go:141-288 | With REST enabled the status is ready if and only if Temporal, Keycloak, RestAPI, both workers, SiteManager (management profiles) and SiteAgent (if enabled) are all listed and ready; no default-true flag hides a skipped step; RestAPI, SiteManager and SiteAgent only behind their ready prerequisites; an error never comes with ready |
| CoreTier.Reconcile | internal/controller/core_reconciler.go:47-307 | The core reconciler, flags and early returns as in the source, returns the status, error and calls that its gate network prescribes |
| CoreTier.ReconcilePrelude | internal/controller/core_reconciler.go:73-158 | Namespace, service accounts, TLS resources and configuration are requested in the prescribed order, stopping at the first failure or wait |
| CoreTier.ReconcileVault | internal/controller/core_reconciler.go:486-577 | Follows the Vault plan in managed, external and unknown mode, error branches included |
| CoreTier.ReconcilePXE | internal/controller/core_reconciler.go:420-459 | Follows the PXE plan: volume claim bound first, if storage is configured, then the workload |
| RestTier.Reconcile | internal/controller/rest_reconciler.go:50-288 | The REST reconciler returns the status, error and calls that its gate network prescribes |
| RestTier.CreateSecrets | internal/controller/rest_reconciler.go:141-159 | A missing forge password is a reason to wait and never an error, unlike the core tier's missing password |
| RestTier.ReconcileTemporal | internal/controller/rest_reconciler.go:292-378 | Follows the Temporal plan in managed, external and unknown mode |
| RestTier.ReconcileKeycloak | internal/controller/rest_reconciler.go:381-467 | Follows the Keycloak plan in managed, external, disabled and unknown mode |
| RestTier.CheckProviders | internal/controller/rest_reconciler.go:443-467 | Looks up the client secret of each provider that names one, in order, failing at the first that is missing |
| InfrastructureTier.Reconcile | internal/controller/infrastructure_reconciler.go:43-111 | The infrastructure reconciler returns the status, error and calls that its plan prescribes |
| InfrastructureTier.ReconcilePostgreSQL | internal/controller/infrastructure_reconciler.go:114-192 | Follows the PostgreSQL plan in managed, external and unknown mode |
| Admission.DefaultIdempotent | api/v1alpha1/carbidedeployment_webhook.go:54-293 | Defaulting twice is defaulting once, for every spec |
| Admission.DefaultKeepsUserFields | api/v1alpha1/carbidedeployment_webhook.go:54-293 | Defaulting changes no field the user set but the DHCP, PXE, DNS and REST flags, which end as the profile dictates |
| Admission.FillsInfrastructure | api/v1alpha1/carbidedeployment_webhook.go:54-293 | The literal values of the domain, namespaces, database list, mode and replicas where left empty, per profile |
| Admission.FillsCore | api/v1alpha1/carbidedeployment_webhook.go:54-293 | The literal ports and replicas where left empty; for site profiles absent Vault, RLA and PSM blocks become managed or enabled ones with literal values, for others they stay absent |
| Admission.FillsRestAndTLS | api/v1alpha1/carbidedeployment_webhook.go:54-293 | An absent REST block stays absent; literal Temporal, Keycloak and API values where left empty; TLS is always there, SPIFFE unless a mode is chosen, with literal SPIFFE settings |
| Admission.RejectedExactly | api/v1alpha1/carbidedeployment_webhook.go:308-447 | A spec is turned away if and only if it has one of the listed defects, an update also for another profile or another namespace where both name one |
| Admission.ChainAdmitted | api/v1alpha1/carbidedeployment_webhook.go:308-331 | Every spec along a chain of updates is admitted: defaulted, valid and within the schema |
| Admission.ChainProfileConstant | api/v1alpha1/carbidedeployment_webhook.go:315-320 | Along every chain of updates the profile is constant |
| Admission.ChainNamespaceConstant | api/v1alpha1/carbidedeployment_webhook.go:321-330 | Over any stretch without removal of `infrastructure` its namespace is constant and not empty |
| Admission.NamespaceBypass | api/v1alpha1/carbidedeployment_webhook.go:321-330 | From any admitted spec any other namespace is reached in two admitted updates, though not in one |
| Admission.RestFollowsProfile | api/v1alpha1/carbidedeployment_webhook.go:77-106 | In an admitted spec a REST block is enabled exactly when the profile is not Site |
| Admission.Webhook.ApplyDefaults | api/v1alpha1/carbidedeployment_webhook.go:54-293 | The sequence of in-place assignments yields the field-by-field defaulted spec |
| Admission.Webhook.Validate | api/v1alpha1/carbidedeployment_webhook.go:339-447 | Returns no error if and only if the spec meets every requirement, each provider's included |
| PostgresUsers.BuildPostgreSQLUsers | internal/resources/infrastructure/postgresql.go:234-281 | Whatever the iteration order of the maps: one grant per owner of a requested database, each with the owner's databases, deduplicated |
| PostgresUsers.FindOwner | internal/resources/infrastructure/postgresql.go:243-262 | The search finds the same owner in whatever order the users are tried |
| PostgresUsers.FallbackNeverCollides | internal/resources/infrastructure/postgresql.go:258-261 | A database outside the mapping gets a user of its own name, which is no mapped user's name |
| PostgresUsers.GrantsPartition | internal/resources/infrastructure/postgresql.go:234-281 | Each requested database is granted to exactly one user; nothing else is granted, nothing twice, and each grant is in order of first request |
| PostgresUsers.GrantsByName | internal/resources/infrastructure/postgresql.go:234-281 | Each requested database goes to the user of its own name, temporal_visibility to temporal, an empty request means carbide and forge; nobody gets anything else or nothing |
| PostgresUsers.GrantsIndependentOfOrder | internal/resources/infrastructure/postgresql.go:244-279 | Two iteration orders give the same grants up to their listing |
| Upsert.UpsertExact | internal/controller/core_reconciler.go:773-798 | Under any interference, with or without retry: success means exactly one write of this call landed, it stored the desired content, and an update came right after the read whose version it used; failure means none landed; at most one (with retry two) reads and updates are issued |
| Upsert.RetryRefinesOnce | internal/controller/infrastructure_reconciler.go:247-264 | On every schedule on which the plain form succeeds the retrying one succeeds with the same server state |
| Upsert.SuccessExactly | internal/controller/core_reconciler.go:773-798 | On every server and schedule, faults, removals and creations by others included: the plain form succeeds if and only if read and write go through and, finding an object, nobody writes in between, or, finding none, nobody leaves one there in between; the retrying form if and only if that holds, or a conflict is followed by a read that finds the object and an update that is left alone |
| Upsert.AbsentIsCreated | internal/controller/core_reconciler.go:781-783 | Where no object is found, either form creates it if and only if nobody else leaves one there first; then it holds the desired content, and otherwise the other's |
| Upsert.NeverOverwrites | internal/controller/infrastructure_reconciler.go:247-264 | Under any interference and any faults neither form creates over an existing object or updates a missing one, and the object ends up as the last write of anybody left it |
| Upsert.OneForeignUpdateIsHarmless | internal/controller/rest_reconciler.go:787-812 | One foreign update during the call never fails the retrying form |
| Upsert.Client.CreateOrUpdate | internal/controller/core_reconciler.go:773-798 | The upsert as written for core and REST is the retrying form |
| Upsert.Client.CreateOrUpdateOnce | internal/controller/infrastructure_reconciler.go:247-264 | The upsert as written for infrastructure is the plain form |
| Pods.PodSpec.InjectSpiffe | internal/resources/tls/spiffe.go:250-284 | The in-place injection yields the prescribed pod in SPIFFE mode and leaves it alone in any other |
| Pods.PodSpec.InjectCertManager | internal/resources/tls/certmanager.go:107-140 | The in-place injection yields the prescribed pod in cert-manager mode and leaves it alone in any other |
| Pods.PodSpec.InjectTLS | internal/resources/tls/tls.go:68-79 | Dispatches on the mode and leaves the pod alone without TLS or in an unknown mode |
| Pods.InjectionAdds | internal/resources/tls/spiffe.go:160-284 | What injection adds, literally: fetcher and sidecar with image, arguments and mounts, and three volumes with SPIFFE; the account's certificate volume with cert-manager; a read-only certificate mount in every container; nothing otherwise |
| Pods.InjectionKeepsDistinct | internal/resources/tls/spiffe.go:218-248 | Volume names are distinct afterwards if and only if they were and none is a name the mode brings along |
| Pods.InjectionKeepsResolving | internal/resources/tls/spiffe.go:250-284 | All mounts resolve afterwards if and only if the pod's own mounts name its own or injected volumes; a pod that resolved still does |
| Pods.InjectionKeepsContainers | internal/resources/tls/spiffe.go:250-284 | Each original container keeps its place and everything but one more read-only mount at the certificate directory, the only one there; init containers keep their order behind the SPIFFE fetcher |
| Safety.OverObservedExactly | internal/controller/carbidedeployment_controller.go:222-233 | From any reachable state, with any steps of others in the middle: a pass leaves an observed generation beyond the object's own if and only if it writes its status and those steps have replaced the fetched object by one of a lower generation, which they cannot without stripping the finalizer |
| Safety.RecreatedTooFarObserved | internal/controller/carbidedeployment_controller.go:222-233 | Deleting, stripping and recreating an edited object during a pass is such a case |
| Exactness.DeployableExactly | internal/controller/carbidedeployment_controller.go:107-246 | A deployment that has not been ready yet becomes Ready in every fair run if and only if its spec is deployable in the cluster it is in |
| Exactness.UndeployableNeverReady | internal/controller/core_reconciler.go:153-307 | In an honest cluster no pass, failing or not, of any number of rounds stores Ready for a deployment whose spec is not deployable there |
| Exactness.ExactRunExists | internal/controller/carbidedeployment_controller.go:107-246 | From every state of the cluster there is a run that is fair and honest at once, so neither claim is about nothing |
| Convergence.Converges | internal/controller/carbidedeployment_controller.go:107-246 | From any healthy state of a spec deployable there, whatever fails in other rounds and whatever others add, the stored phase is Ready after every fair round that at least as many fair rounds precede as the measure counts |
| Convergence.AnyRound | internal/controller/carbidedeployment_controller.go:87-246 | No round, whatever fails in it, ever increases the measure or leaves the object unhealthy |
| Convergence.NextFairRound | internal/controller/carbidedeployment_controller.go:107-246 | A run that is fair again and again has a fair round behind any number of fair rounds |
| Convergence.RoundCloser | internal/controller/carbidedeployment_controller.go:107-246 | Each fair round ends Ready with nothing left to create or strictly decreases the measure (finalizer, initialisation, objects that do not exist yet), and keeps the object healthy |
| Convergence.PassProgress | internal/controller/core_reconciler.go:153-299 | A fair pass over a spec deployable from the start finds every tier ready and has brought about all objects of the spec, or it brings about an object that did not exist; it never brings about any other object |
| Convergence.BoundFixedBySpec | internal/controller/carbidedeployment_controller.go:107-246 | The measure never exceeds two more than the number of objects the spec calls for |
| Rounds.ReadyMeansReadyNow | internal/conditions/helpers.go:146-177 | A pass computes Ready if and only if it detected the backend and every configured tier, reconciled in this very pass, reported ready |
| Rounds.ReachableIsHealthy | internal/controller/carbidedeployment_controller.go:87-246 | Every orderly run leaves an object from which convergence starts, unless it is being deleted |
| Progress.PlanProgress | internal/controller/core_reconciler.go:85-158 | In a fair cluster a plan whose every call is answerable with what is given and what the plan wrote before comes to its end, or something of that is new |
| Progress.TierProgress | internal/controller/rest_reconciler.go:141-280 | The same for whole tiers: ready, or something is new |
| Progress.TierLanded | internal/controller/core_reconciler.go:85-299 | A tier brings about only the objects of its plans, and all of them when it is ready; refused writes do not count |
| Progress.PreludeBarrier | internal/controller/core_reconciler.go:85-158 | In an honest cluster a prelude action that cannot succeed on what precedes it keeps its tier from ready and from writing anything beyond it |
| Progress.GateBarrier | internal/controller/core_reconciler.go:177-296 | The same for a gate that all later gates need, as all core gates need the API |
| Guards.CoreIsGuarded | internal/controller/core_reconciler.go:73-296 | Every call of the core tier of a deployable spec, pods' references and namespaces included, is answerable with what exists, what infrastructure wrote and what the tier wrote before |
| Guards.RestIsGuarded | internal/controller/rest_reconciler.go:63-280 | The same for the REST tier, after the other two |
| Barriers.WaitsForEver | internal/controller/carbidedeployment_controller.go:107-246 | In an honest run, whatever passes fail, an obstacle holds the deployment up for ever: nothing beyond its bound ever exists, Ready is never stored, and behind an obstacle in or before core the core tier is never ready |
| Stuck.FindObstacle | internal/controller/core_reconciler.go:153-307 | Every admitted spec that is not deployable in a cluster has an obstacle there, whichever condition fails |
| Stuck.PostgresObstacle | internal/utils/external.go:51-61 | A secret that one of the users of an external PostgreSQL lacks is an obstacle in front of everything but the infrastructure namespace |
| Stuck.CoreObstacle | internal/controller/core_reconciler.go:311-628 | Each failing condition of the core tier (PXE pod or certificate, password, the API's database or Vault secret, RLA's or PSM's database secret) is an obstacle in core |
| Stuck.RestObstacle | internal/controller/rest_reconciler.go:141-640 | Each failing condition of the REST tier (namespace, password, Temporal, Keycloak, workers, site agent) is an obstacle in REST |
| Stuck.OrphansAreNeverCreated | internal/resources/rest/keycloak.go:34 | For no spec does the operator create the Keycloak instance it polls, the site agent's certificate or service account, or the Temporal Helm job's service account |
| Readings.UserSecretMissing | internal/utils/external.go:51-61 | With external PostgreSQL, one missing user secret, of a user that a tier resolves or of any other, keeps every honest run from bringing about anything but the infrastructure namespace and from storing Ready |
| Readings.VaultDeadlock | internal/resources/core/api.go:292-298 | With managed Vault, and neither its token secret nor its init job there from the start, no honest run ever writes the job, has the token, or stores Ready |
| Readings.VaultTokenMeans | internal/controller/core_reconciler.go:247-262 | When the API starts, managed Vault's token exists if and only if the secret or the init job was there from the start |
| Readings.ManagedSecretMeans | internal/resources/infrastructure/postgresql.go:162-179 | In managed mode a service user's secret exists in a namespace if and only if it was put there, or that is the infrastructure namespace and the user is among those built |
| Readings.ManagedCoreMeans | internal/controller/core_reconciler.go:153-307 | The core tier with managed PostgreSQL and Vault is deployable if and only if the mode is cert-manager and PXE's certificate, Vault's token and each database secret are where they are needed |
| Readings.DefaultSiteMeans | api/v1alpha1/carbidedeployment_webhook.go:88-124 | A site with managed PostgreSQL and Vault, the defaulted database list, one namespace and no REST block is deployable if and only if the mode is cert-manager and PXE's certificate and Vault's token are provided |
| Readings.PlainManagementMeans | internal/resources/rest/workers.go:146-171 | A management deployment with managed PostgreSQL, the defaulted list, one namespace, external Temporal, no authentication and no site agent is deployable if and only if the workers' encryption key is provided |
| Readings.SpiffeSitesAreNotDeployable | internal/resources/core/pxe.go:70-126 | With SPIFFE no deployment with core services is deployable in any cluster: its PXE pod template is not acceptable |
| Readings.RestNamespaceIsNotCreated | internal/controller/rest_reconciler.go:63-79 | A management deployment whose REST namespace is not the infrastructure namespace is not deployable unless that namespace is there; no tier writes it |
| CorePods.PXEAcceptedExactly | internal/resources/core/pxe.go:70-126 | The PXE pod template is acceptable (mounts resolve, volume names distinct) if and only if the mode is cert-manager |
| CorePods.CorePodsAccepted | internal/resources/core/api.go:222-380 | The other core pod templates are acceptable in every mode |
| RestPods.RestPodsAccepted | internal/resources/rest/workers.go:128-196 | All REST pod templates are acceptable in every mode |
| Supply.InjectedReady | internal/resources/tls/certmanager.go:112-125 | After injection a pod can start if and only if it could before and the SPIFFE helper's ConfigMap, or its account's certificate secret, exists |
| Agreements.AdmittedSpecsAreClean | api/v1alpha1/carbidedeployment_webhook.go:339-447 | No admitted spec leads any tier into a nil dereference or an unknown-mode, missing-connection, missing-endpoint, missing-address or missing-provider branch |
| Agreements.PostgresNamespaceAgreed | internal/controller/infrastructure_reconciler.go:53-56 | The tiers' different fallbacks name the same PostgreSQL namespace if and only if it is set, and admission sets it |
| Agreements.DefaultListCovers | internal/resources/infrastructure/postgresql.go:234-281 | With the defaulted database list, every database user whose secret an enabled tier resolves is among the users built |
| Agreements.PasswordSecretAgreement | internal/controller/core_reconciler.go:714-770 | Where a password is looked up, it is under the secret name handed to the pods, in the infrastructure namespace; that is the pods' own namespace if and only if core runs there |
| Agreements.WorkerSecretAgreement | internal/resources/rest/workers.go:161-171 | The workers' hard-coded secret name is the one whose password was read exactly in managed mode, or if the user's secret bears that name |
| Certificates.CertificatesBeforeWorkloads | internal/controller/core_reconciler.go:128-151 | In cert-manager mode every core workload is written only after the secret that its injected volume names was requested by a Certificate and then seen to exist, earlier in the same pass, for every combination of services; and its pod does mount that secret |

## Left out

- Readiness predicates (internal/utils/readiness.go): scans over one fetched object with easy contracts; in the model they are answers of the cluster.
- The bodies of DetectSPIRE and DetectCertManager and the connection attempts of internal/utils/external.go: network calls, modelled as answers. The check of an external PostgreSQL is one such answer, which takes the secrets of all its users to exist; the order in which it reads them is not modelled.
- Warnings of the webhook, events, messages and timestamps.
- Ports, images, resources, versions and the contents of ConfigMaps and secrets; of pods only accounts, references to secrets and ConfigMaps, volumes and mounts (images and arguments only of the SPIFFE helpers).
- API-server validation of immutable fields, schema defaults of the CRD, and Job deletion after its time to live, which can undo readiness.
- Writes that land although the client sees an error (a timeout after the write): an error of a request means that it did not land.
- The migration gate's waiting branch: reconcileMigration always reports completion.
- A panic: the nil dereference of a cert-manager spec without issuer is an error of the tier; admission excludes it.
- The keys inside secrets. The managed lookup of the core tier fails on an empty password (internal/controller/core_reconciler.go:764-767), which here is the answer that the secret is missing; the other three lookups return an empty password as success, as here.
- Exactness.DeployableExactly: takes it that the programs in the pods start and the jobs complete once the objects they refer to exist; what they need beyond that (nodes, images, databases, RLA's Temporal) is not modelled. The pods of the Temporal release are taken to need the secret that its Helm values name.
- Convergence.Converges: does not model edits during the rounds, nor that existing objects disappear; ReachableIsHealthy lets the count start afresh after any edit.
- Whether a namespace that is defaulted from the deployment's name is a legal one: a name with dots is legal for the deployment and not for a namespace.
- Owner references from the namespaced deployment to objects in other namespaces, which the garbage collector may take for orphans.
- Volume binding modes: a claim that only binds once a pod mounts it would wait for ever in front of the PXE workload; here a claim is bound once it exists.
- A Vault that is initialised already when its init job runs, in which case the job completes without making the token's secret.
- Certificates.CertificatesBeforeWorkloads: core tier only; the REST tier requests certificates but does not wait for their secrets.
- ensureNamespace reads before it creates and never updates; in the model both outcomes are one write of the namespace.
- Several deployments at once, leader election and watches: passes over one object are serial.
