# Verified model of the forge operators

A Dafny model of the hard parts of a family of Kubernetes operators that run an
OpenStack control plane: small concurrent protocols over a versioned object
store, an admission webhook that guards a whole cluster, and a few encoders and
indexes. `dafny verify dfyconfig.toml` checks everything.

| files | what they model |
|---|---|
| `Kube.dfy` | the API server: named objects with a uid and a resourceVersion, create, optimistic update, preconditioned delete |
| `AppCredential.dfy`, `CredentialLaws.dfy`, `CredentialProtocol.dfy`, `CredentialConvergence.dfy`, `CredentialProgress.dfy`, `CredentialLiveness.dfy`, `CredentialRace.dfy` | the admin application credential: the writers of its source Secret, the operator pass, ESO's push to OpenBao and ESO's read-back |
| `Rotation.dfy`, `CommitLaws.dfy`, `RotationProtocol.dfy`, `RotationConvergence.dfy`, `RotationProgress.dfy` | split-compute-write key rotation between a CronJob and the operator |
| `Jobs.dfy`, `JobLaws.dfy`, `JobProtocol.dfy`, `JobPass.dfy`, `JobProgress.dfy`, `JobRecords.dfy`, `JobPromotion.dfy` | the Job re-run machine, replacement of stale Jobs, terminal metrics, and release promotion behind db-sync and schema-check |
| `ControlPlane.dfy`, `Webhook.dfy`, `AccountKeys.dfy`, `Immutability.dfy`, `DefaultLaws.dfy`, `Admission.dfy`, `AdmissionLaws.dfy`, `SecretIndex.dfy` | defaulting, validation and immutability of a ControlPlane, admission as a state machine over the cluster, and the Secret-name index |
| `Sorting.dfy`, `Text.dfy`, `HashInput.dfy`, `Ini.dfy`, `Quoting.dfy`, `PySettings.dfy`, `Prune.dfy` | content-addressed configuration: printers with their readers, the hash input, the retaining collector |
| `Conditions.dfy`, `Parallel.dfy`, `Probe.dfy` | status conditions, the concurrent reconcile group, and the cached readiness probe |

## How the protocols are modelled

Every method the program runs in place is a method here, and its contract says
that it computes a function of the old state. What that function does is stated
once more without it, on the fields and with the literal reasons and defaults:
in the `Laws` modules for the credential pass and its writers, the rotation
commit, the Jobs, defaulting and admission, and in lemmas on fields, outcomes
and shapes beside the rest.

The state machines take the same functions apart call by call: between any two
API calls of a pass, any other agent may step, and a pass may crash. A lemma per
protocol ties the two: the calls, taken in a row, are the sequential function
again. For the credential it is `SoloPassIsPass`, with no call failing; for
rotation `FinishIsCommitStaged`; for Jobs `SoloPassIsSyncPass`, which covers the
whole pass and the failures of its calls, but for the status condition and the
instance prefix of the Job names. Main results speak about every run of a
machine or every sequence of requests.

- **Credential.** Any number of writers (a read, a mutation, one optimistic
  write), any number of operator passes, one push and one read-back at a time.
  A push publishes a new synced version when it completes; pushes and read-backs
  may also happen spontaneously and may fail. SHA-256 is taken as injective, so a
  hash is the content it hashes. A `clouds.yaml` is a password document, an
  application-credential document, or anything else. Passes of the machine skip
  the gates on K-ORC and on the store, which only allows more passes. Getting
  and updating one annotation, retried on conflict, is one atomic step.
- **Convergence.** The measure adds up what is still owed: one for an
  unassembled document, thirteen for an unstamped push, four for each step of a
  push, three for each synced version the trigger does not name, one for each
  step of a read-back. `NotRecurred` is the assumption that a replaced content
  has not come back.
- **Rotation.** The CronJob merges data and sets its completion stamp in one
  patch. Stamps count whole seconds and may repeat; a patch that changes the
  Secret brings a pair of data and stamp the Secret has not held before. Passes
  read the target before the staging Secret, as the keystone reconcilers do, and
  any number of them may overlap. RFC 3339 parsing (section 5.6) and the payload
  check are parameters.
- **Jobs.** A template is told apart by its key. A Job may carry a finalizer, so
  that its deletion lags; the Job controller adds conditions until a terminal
  one; specs may be edited and Jobs deleted by hand at any time. One pass runs at
  a time, as the work queue guarantees. Job uids are numbers and never empty.
- **Admission.** A request is defaulted, validated against the stored objects
  and stored in one atomic step. Rules the model leaves out appear as the list of
  errors they report.
- **Encoders.** A character stands for a byte in the hash input. Which characters
  Go prints verbatim is a parameter of the quoting. An INI key ends one space
  before the first equals sign of its line.
- **Parallel group.** A schedule is the order in which the members complete,
  together with the set of members that saw the cancellation.

The code and its comments agree wherever the model follows them, but for one
detail. The duplicate checks on service accounts join user and domain, and
project and domain, with a NUL, and a NUL inside a name can make different pairs
join alike; then the webhook refuses a list that meets the documented rule.
`AccountKeys.TwoUsersRefused` and `AccountKeys.TwoProjectsRefused` are such
lists, and `AccountKeys.AcceptedExactly` says, for every list, exactly when it is
accepted. Where no domain holds a NUL the webhook enforces the rule itself
(`AccountKeys.NulFreeDomainsSuffice`).

## Model

| member | source | states |
|---|---|---|
| `CredentialLiveness.Converges` | operators/c5c3/internal/controller/reconcile_admincredential.go:192-291 | From every reachable world with open gates, no pass under way and content that has not recurred, operator passes and due pushes and read-backs alone, with no timed refresh, lead to a settled world whose materialised Secret is the assembled credential and whose pass reports Ready |
| `CredentialLiveness.EveryRunConverges` | operators/c5c3/internal/controller/reconcile_admincredential.go:192-291 | Every undisturbed interleaving changes something at most as often as the starting measure says, and wherever neither ESO nor a pass has anything left to do the credential is mirrored |
| `CredentialLiveness.ReachableFlows` | operators/c5c3/internal/controller/reconcile_admincredential.go:192-291 | Every reachable world with open gates, no pass under way and new content is a starting point of the two results above |
| `CredentialProgress.NoWedge` | operators/c5c3/internal/controller/reconcile_admincredential.go:249-271 | In every reachable world where a pass changes nothing and ESO owes neither a push nor a read-back, the materialised Secret carries the reported id and the Secret's current value |
| `CredentialProgress.FinitelyManyEffects` | operators/c5c3/internal/controller/reconcile_admincredential.go:227-271 | Steps that change anything visible plus the measure left never exceed the measure at the start of the run |
| `CredentialProgress.SteadyStep` | operators/c5c3/internal/controller/reconcile_admincredential.go:227-271 | Each single step of pass, push or read-back keeps the steady state and pays for its effect out of the measure |
| `CredentialProgress.UnsettledHasStep` | operators/c5c3/internal/controller/reconcile_admincredential.go:192-291 | In a world that is not settled, ESO has a due step or the next pass changes something |
| `CredentialProgress.SoloPassIsPass` | operators/c5c3/internal/controller/reconcile_admincredential.go:41-325 | The call-by-call steps of an undisturbed pass compose to the sequential pass, and its report step finds Ready exactly when the sequential pass does |
| `CredentialRace.HashOnlyTriggerWedges` | operators/c5c3/internal/controller/reconcile_admincredential.go:254-265 | With a trigger keyed on the content hash alone there is a reachable, fully settled world whose materialised Secret is still the bootstrap password document |
| `CredentialRace.FoldedTriggerDoesNotWedge` | operators/c5c3/internal/controller/reconcile_admincredential.go:254-266 | With the synced version folded into the trigger no reachable settled world is of that kind |
| `CredentialConvergence.RunFlow` | operators/c5c3/internal/controller/reconcile_admincredential.go:192-271 | Along every run: hashes in flight come from contents the Secret had, a push that saw the newest hash pushed the newest content, and a read-back of the freshest trigger read it |
| `CredentialConvergence.PushDoneFlow` | operators/c5c3/internal/controller/reconcile_admincredential.go:262-264 | A completed push publishes a synced version that no trigger in flight can name yet, which keeps the flow invariant |
| `CredentialConvergence.PullReadFlow` | operators/c5c3/internal/controller/reconcile_admincredential.go:254-265 | Reading OpenBao for a fresh trigger keeps the flow invariant: what is read is the newest content |
| `CredentialProtocol.DocumentMatchesValue` | operators/c5c3/internal/controller/korc_secrets.go:176-287 | Under every interleaving of the writers and passes the source document is absent, password-based, or an application credential built from the value stored beside it |
| `CredentialProtocol.ValueChangesOnlyByRegenerate` | operators/c5c3/internal/controller/korc_secrets.go:176-287 | A stored non-empty value changes only when the Secret is lost or a regenerate that read this very version writes, and the old value is then retired |
| `CredentialProtocol.ReadyValueIsNotRetired` | operators/c5c3/internal/controller/reconcile_admincredential.go:288-325 | No pass reports Ready on a value that had been replaced before the pass began |
| `CredentialProtocol.RunSource` | operators/c5c3/internal/controller/korc_secrets.go:73-95 | Every run keeps the source invariant: snapshots are old versions, generated values are unused, passes work on values that were current when read |
| `AppCredential.Client.EnsureOwnedSecret` | operators/c5c3/internal/controller/korc_secrets.go:73-95 | Read, mutate, and write only if the mutation changed something: the new state is the specified create-or-update |
| `AppCredential.Client.ForceRepushPushSecret` | operators/c5c3/internal/controller/reconcile_admincredential.go:470-496 | Stamps the content hash on an existing PushSecret and nothing else |
| `AppCredential.Client.ForceSyncExternalSecret` | operators/c5c3/internal/controller/reconcile_admincredential.go:407-436 | Stamps the trigger on an existing ExternalSecret and nothing else |
| `AppCredential.Client.ReconcileAdminCredential` | operators/c5c3/internal/controller/reconcile_admincredential.go:41-325 | The whole sub-reconciler, gate by gate and with a failure of any call, equals the pass the theorems are about |
| `AppCredential.ReadyMeansMirrored` | operators/c5c3/internal/controller/reconcile_admincredential.go:272-325 | Ready is reported only when every gate is open, the push has synced and the materialised id and secret are the reported id and current value; without a failing call, always then |
| `AppCredential.StuckMeansTimedOut` | operators/c5c3/internal/controller/reconcile_admincredential.go:288-315 | A pass escalates to CloudsYamlSyncStuck exactly when all gates are open, the push has synced, another credential is materialised and the minted one is older than fifteen minutes |
| `AppCredential.PassKeepsValue` | operators/c5c3/internal/controller/reconcile_admincredential.go:178-190 | Whatever fails, a pass never touches the value, the CA bundle or the materialised Secret |
| `AppCredential.PassIdempotent` | operators/c5c3/internal/controller/reconcile_admincredential.go:178-271 | Repeating a pass writes nothing and ends the same way |
| `CredentialLaws.DocumentStays` | operators/c5c3/internal/controller/korc_secrets.go:256-287 | Over every step of writers and passes a document stays, unless the Secret is lost, a pass assembles the credential from the live value, or a regenerate that read this very version drops it; no seed replaces one |
| `CredentialLaws.BundleStays` | operators/c5c3/internal/controller/korc_secrets.go:109-115 | The CA bundle changes only by the loss of the Secret or an ensure that read this very version, and then to the bundle that was given |
| `CredentialLaws.SeedFillsOnlyEmpty` | operators/c5c3/internal/controller/korc_secrets.go:256-268 | A seed leaves a Secret with a document entirely alone and gives one without the password document it was called with |
| `CredentialLaws.EnsureValueProjectsBundle` | operators/c5c3/internal/controller/korc_secrets.go:176-192 | The value is generated once and kept, the bundle is exactly the one given, the document stays |
| `CredentialLaws.RegenerateDropsDocument` | operators/c5c3/internal/controller/korc_secrets.go:274-287 | The value is the fresh one, the document is gone, the bundle stays |
| `CredentialLaws.StaleWriterLoses` | operators/c5c3/internal/controller/korc_secrets.go:79-94 | A writer whose snapshot is not of the live version changes nothing |
| `CredentialLaws.ReportsFirstObstacle` | operators/c5c3/internal/controller/reconcile_admincredential.go:41-325 | A pass reports the reason of the first of nine obstacles in the source's order, and readiness if there is none |
| `CredentialLaws.PassWrites` | operators/c5c3/internal/controller/reconcile_admincredential.go:178-271 | Behind a closed gate nothing is written; otherwise document, push hash and, once the push has synced, trigger are exactly those of the live value and bundle, and nothing else changes |
| `CredentialLaws.FailingCallEndsPass` | operators/c5c3/internal/controller/reconcile_admincredential.go:72-291 | A failing call is reported with its own reason exactly when the pass makes it, and does not matter otherwise |
| `CredentialLaws.FailingCallWrites` | operators/c5c3/internal/controller/reconcile_admincredential.go:72-291 | When a call fails, what came before it has been written and nothing after it |
| `RotationProtocol.TargetIsInitialOrStaged` | internal/common/rotation/rotation.go:141-226 | In every run the target's payload is its initial one or one committable (data, stamp) pair the staging Secret held earlier: never a mixture, never a rejected one |
| `RotationProtocol.NothingLost` | internal/common/rotation/rotation.go:168-225 | No step but the CronJob's own patch takes a committable payload off the staging Secret unless the target already holds that payload |
| `RotationProtocol.AppliedAtMostOnce` | internal/common/rotation/rotation.go:186-225 | Each staged payload is reported as applied at most once, with any crashes and failed deletes |
| `RotationProtocol.RunInv` | internal/common/rotation/rotation.go:81-226 | The history invariant holds after every step of ensure, commit, patch, relabel and crash by any number of passes |
| `RotationProtocol.StepExtends` | internal/common/rotation/rotation.go:141-226 | A step adds to the record only what the staging Secret then holds, and touches the target only by a commit |
| `RotationConvergence.OnePassDelivers` | internal/common/rotation/rotation.go:141-226 | From any reachable world one undisturbed pass puts a waiting committable payload on the target and leaves no staging Secret |
| `RotationProgress.DeliveredForGood` | internal/common/rotation/rotation.go:141-226 | Over any run: once a pass that reads the staging Secret after a valid completion ends without an error, with any other passes overlapping, failing or crashing, the target holds that payload in every later world without another completion, and staging is quiet unless it was relabelled under that pass |
| `RotationProgress.PassLowers` | internal/common/rotation/rotation.go:141-226 | An interleaved pass that ends without an error takes a waiting payload to the target, and a committed one out of staging unless that is relabelled meanwhile |
| `RotationProgress.NeverFarther` | internal/common/rotation/rotation.go:141-226 | While the CronJob is silent a payload never goes back from cleaned up to committed, or from committed to waiting |
| `RotationProgress.RankStep` | internal/common/rotation/rotation.go:186-225 | No single step of a pass, stale or new, failing or not, and no relabelling takes the last payload farther from the target |
| `RotationProgress.RunSnaps` | internal/common/rotation/rotation.go:200-216 | Along every run a snapshot a pass holds is the live staging Secret or an older version of it, so the delete's preconditions tell them apart |
| `RotationConvergence.OnePassSettles` | internal/common/rotation/rotation.go:141-226 | From any reachable world with a valid payload waiting, an undisturbed pass exists, and it leaves the payload on the target and nothing waiting |
| `RotationConvergence.RunLasting` | internal/common/rotation/rotation.go:186-225 | Along every run, once nothing completed is waiting the last completed payload, if valid, is on the target |
| `RotationConvergence.FinishIsCommitStaged` | internal/common/rotation/rotation.go:141-226 | The two commit calls of the machine compose to the sequential CommitStaged |
| `Rotation.Client.CommitStaged` | internal/common/rotation/rotation.go:141-226 | The in-place commit on possibly stale snapshots equals the specified run: store, applied flag and error |
| `Rotation.Client.EnsureStagingSecret` | internal/common/rotation/rotation.go:81-96 | The in-place create-or-update equals its specification, a foreign owner included |
| `CommitLaws.RejectedPayload` | internal/common/rotation/rotation.go:166-184 | A rejected payload never reaches the target; data and stamp are wiped off staging, labels, owner and other annotations kept, exactly when the flavour asks for it and the write does not fail |
| `CommitLaws.ValidPayload` | internal/common/rotation/rotation.go:186-225 | A valid payload ends up on the target, data and stamp and nothing else, and staging goes; with the outcome of a failing update or delete, and applied exactly when this run wrote the target |
| `CommitLaws.UnfinishedIsLeftAlone` | internal/common/rotation/rotation.go:141-164 | Without a stamp that parses nothing happens |
| `CommitLaws.StaleStagingIsSpared` | internal/common/rotation/rotation.go:200-216 | A staging Secret changed since the read is neither cleared nor deleted, without an error |
| `CommitLaws.StaleTargetConflicts` | internal/common/rotation/rotation.go:186-198 | A target changed since the read makes the update an error that changes nothing |
| `CommitLaws.EnsureRestores` | internal/common/rotation/rotation.go:81-96 | Creates the staging Secret empty, or restores labels and owner and touches neither data nor annotations; another owner's is refused |
| `JobProtocol.DeletesOnlyStaleJobs` | internal/common/job/job.go:183-189 | Whatever happened since the read, an operator delete hits a terminal Job with a key the pass does not want, or nothing |
| `JobProtocol.CreationsBounded` | internal/common/job/job.go:101-189 | Jobs created under one name number at most one plus the key changes plus the Jobs deleted from outside |
| `JobPass.SoloPassIsSyncPass` | internal/common/database/flow.go:227-310 | An undisturbed pass of the machine, from its begin over db-sync, record, schema-check and record to the promotion, leaves the Jobs, annotations, records and release of the sequential pass and returns its result, whichever calls and patches fail |
| `JobPass.CallsArePhase` | internal/common/database/flow.go:230-262 | The calls of one phase leave what the phase leaves, go on exactly when it goes on, and otherwise return its result |
| `JobPass.CallsAreRun` | internal/common/job/job.go:101-149 | The machine's Get, Delete and Create compose to the sequential runner, observed Job and error included, with any one call failing |
| `JobProtocol.RunNames` | internal/common/job/job.go:101-189 | The per-name invariant behind both holds along every run with crashes, lagging deletions and edits |
| `JobRecords.RecordedAtMostOnce` | internal/common/job/terminal.go:55-155 | Over any run with patch failures and crashes no Job uid is recorded twice for one phase suffix |
| `JobRecords.RecordsFollowThePatch` | internal/common/job/terminal.go:108-149 | A record is written only once its annotation has been persisted; at most one per step |
| `JobRecords.AnnotationKeyInjective` | internal/common/job/terminal.go:32-34 | No two phase suffixes share an annotation key |
| `JobPromotion.PromotionStandsOnSucceededJobs` | internal/common/database/flow.go:227-310 | Whenever a pass is about to promote, whether or not that changes the release, it has found, in the cluster, a succeeded db-sync Job and any schema-check Job created from exactly that pass's templates |
| `JobPromotion.InstalledOnlyByPromotion` | internal/common/database/flow.go:295-297 | Over every run the installed release changes only by such a promotion, and to that pass's tag |
| `JobPromotion.CheckRanAfterSync` | internal/common/database/flow.go:261-288 | If no db-sync template returns after another, no schema-check template outlives its db-sync template, and nobody else deletes the db-sync Job, then whenever a pass is about to promote, its db-sync Job completed before its schema-check Job was created |
| `JobPromotion.RunFresh` | internal/common/database/flow.go:227-310 | The ordering invariant of the two Jobs along every such run, edits that leave templates alone included |
| `Jobs.Client.RunJobWithRerunKey` | internal/common/job/job.go:101-149 | The runner's branches, failed before complete, equal the specified run |
| `Jobs.Client.RecreateStaleJob` | internal/common/job/job.go:183-189 | Background delete by name, then create; a missing Job is an error |
| `Jobs.Client.CreateJobWithRerunKey` | internal/common/job/job.go:154-171 | Create; an occupied name is left to the next pass |
| `Jobs.IsJobComplete` | internal/common/job/job.go:203-210 | True exactly when some Complete condition is True |
| `Jobs.IsJobFailed` | internal/common/job/job.go:215-222 | True exactly when some Failed condition is True |
| `Jobs.DoneMeansSucceeded` | internal/common/job/job.go:101-149 | Done exactly when the live Job is complete, not failed and carries the wanted key; then nothing is written |
| `JobProgress.StaleJobIsReplaced` | internal/common/job/job.go:101-189 | Over any run whose spec stays and where nobody else deletes the Job: a pass of the newest spec, any steps of others, the finalised deletion and a second pass leave a live Job of the wanted key in place of a stale finished one |
| `JobProgress.NeverFarther` | internal/common/job/job.go:101-189 | Over any run without an edit, with any failures and crashes, a name never gets farther from its wanted Job than two for each Job deleted from outside |
| `JobProgress.WantedStays` | internal/common/job/job.go:118-145 | A live Job of the wanted key stays that very Job, and the operator is never about to delete it, for as long as the spec stays and nobody else deletes it |
| `JobProgress.PhaseLowers` | internal/common/job/job.go:101-189 | A phase without a failing call, interleaved with any other agents, takes an absent name to its wanted Job and a stale finished Job out of the way |
| `JobProgress.RankCluster` | internal/common/job/job.go:173-189 | A finalised deletion and a finished stale Job each bring the name one nearer |
| `Jobs.RecordJobTerminalState` | internal/common/job/terminal.go:55-155 | First True terminal condition, dedupe by annotation, patch before record, duration clamped at zero |
| `Jobs.TerminalOfTerminal` | internal/common/job/terminal.go:75-105 | A terminal record exists exactly for a terminal Job |
| `Jobs.Database.ReconcileSyncJobs` | internal/common/database/flow.go:227-310 | The in-place flow over Jobs, owner, conditions and release marker equals the specified pass |
| `Jobs.SettledMeansSynced` | internal/common/database/flow.go:227-310 | Whatever fails, a pass settles, reports True and promotes exactly when it could read the Jobs it needs and both have succeeded under its own keys, and then it writes no Job |
| `Jobs.CheckWaitsForSync` | internal/common/database/flow.go:227-262 | As long as no db-sync Job has succeeded under the pass's key the schema-check Job and the marker stay, and the condition speaks of db-sync |
| `Jobs.TerminalIsRecorded` | internal/common/job/terminal.go:55-155 | An observed terminal Job is annotated unless the patch fails; the record tells success from failure and its duration is not negative |
| `JobLaws.RunDecides` | internal/common/job/job.go:101-149 | Absent is created, running is waited for, failed under the wanted key is an error, complete is done, and a finished Job of another key is replaced at once or marked for deletion under a finalizer |
| `JobLaws.RunFails` | internal/common/job/job.go:101-189 | A failing Get, Delete or Create is the run's error exactly when the run makes the call, with the Jobs it leaves |
| `JobLaws.RecordsFirstTerminal` | internal/common/job/terminal.go:73-155 | The first terminal condition is recorded once per uid with its outcome and the time from creation to it, or zero if that is negative |
| `JobLaws.RecordsNothingElse` | internal/common/job/terminal.go:64-101 | Nothing observed or nothing terminal records nothing |
| `JobLaws.SyncPhaseReports` | internal/common/database/flow.go:230-259 | Until db-sync is done the flow does what its run does; the reason is DBSyncFailed with an error and DBSyncInProgress with a requeue |
| `JobLaws.CheckPhaseReports` | internal/common/database/flow.go:261-290 | Once db-sync has succeeded and until a configured check has, the flow does what the check's run does; the reason is SchemaDriftDetected with an error and SchemaCheckInProgress with a requeue |
| `JobLaws.SettledReports` | internal/common/database/flow.go:292-309 | With both succeeded the flow settles, reports DatabaseSynced, promotes a tag that is there and tracked, and writes no Job |
| `Admission.NamespacesBelongToOne` | operators/c5c3/api/v1alpha1/controlplane_webhook.go:1198-1248 | After any sequence of creates, updates and deletes the namespaces occupied by two ControlPlanes are disjoint |
| `Admission.DeliveriesDoNotMeet` | operators/c5c3/api/v1alpha1/controlplane_webhook.go:601-614 | Hence no two ControlPlanes deliver service-account Secrets into one namespace |
| `Admission.FrozenForLife` | operators/c5c3/api/v1alpha1/controlplane_webhook.go:1611-1682 | As long as it lives a ControlPlane keeps the frozen projection it was created with |
| `Admission.ClaimsAreDisjointness` | operators/c5c3/api/v1alpha1/controlplane_webhook.go:1198-1248 | For a well-formed object the uniqueness and claim checks together ask for exactly one thing: disjoint occupied namespaces |
| `Admission.ReachableInv` | operators/c5c3/api/v1alpha1/controlplane_webhook.go:886-915 | Every reachable cluster holds only valid objects, pairwise apart |
| `Admission.ValidateNamespaceClaims` | operators/c5c3/api/v1alpha1/controlplane_webhook.go:1198-1248 | No error exactly when every other object's occupied namespaces leave the claims and the own namespace free |
| `Admission.ValidateUniqueInNamespace` | operators/c5c3/api/v1alpha1/controlplane_webhook.go:1990-2012 | No error exactly when no stored object lives in the namespace |
| `Admission.Server.ValidateCreate` | operators/c5c3/api/v1alpha1/controlplane_webhook.go:886-895 | No error exactly when the create is admitted in the machine's sense |
| `Admission.Server.ValidateUpdate` | operators/c5c3/api/v1alpha1/controlplane_webhook.go:910-915 | No error exactly when the update is admitted in the machine's sense |
| `Admission.Server.CreateObject` | operators/c5c3/api/v1alpha1/controlplane_webhook.go:886-895 | Default, validate and store in one step: the next cluster of the machine |
| `Admission.Server.UpdateObject` | operators/c5c3/api/v1alpha1/controlplane_webhook.go:910-915 | Default, compare and store in one step: the next cluster of the machine |
| `Admission.Server.DeleteObject` | operators/c5c3/api/v1alpha1/controlplane_webhook.go:917-924 | A delete is always admitted and removes the object |
| `AdmissionLaws.CreateStores` | operators/c5c3/api/v1alpha1/controlplane_webhook.go:886-895 | After any requests a create is admitted exactly when the defaulted spec is in order and occupies no taken namespace; then the object is stored under a uid newer than all others and nothing else changes, and otherwise nothing changes at all |
| `AdmissionLaws.BothStored` | operators/c5c3/api/v1alpha1/controlplane_webhook.go:1198-1248 | Two ControlPlanes in order that keep apart from each other and from what is stored are both stored, and all others stay |
| `AdmissionLaws.UpdateStores` | operators/c5c3/api/v1alpha1/controlplane_webhook.go:910-915 | An admitted update replaces the spec under the old uid and nothing else; a refused one changes nothing |
| `AdmissionLaws.DeleteRemoves` | operators/c5c3/api/v1alpha1/controlplane_webhook.go:917-924 | Exactly the named object goes |
| `AdmissionLaws.PlainPlaneStored` | operators/c5c3/api/v1alpha1/controlplane_webhook.go:933-1092 | A ControlPlane that names nothing of its own is stored wherever its namespace is free |
| `AdmissionLaws.ExternalPlaneStored` | operators/c5c3/api/v1alpha1/controlplane_webhook.go:1405-1555 | So is an External one that names nothing but its Keystone |
| `AdmissionLaws.StoredInOrder` | operators/c5c3/api/v1alpha1/controlplane_webhook.go:933-1092 | Every stored object keeps, field by field, the promises on mode, dedicated services, placements and accounts |
| `AdmissionLaws.ModeFields` | operators/c5c3/api/v1alpha1/controlplane_webhook.go:1405-1555 | The mode and infrastructure rules, field by field |
| `AdmissionLaws.DedicatedFields` | operators/c5c3/api/v1alpha1/controlplane_webhook.go:1327-1386 | The dedicated rules, field by field, with every pair of instances that must not share a cluster |
| `AdmissionLaws.PlacementFields` | operators/c5c3/api/v1alpha1/controlplane_webhook.go:1138-1177 | The placement rules, field by field |
| `AdmissionLaws.AccountsRule` | operators/c5c3/api/v1alpha1/controlplane_webhook.go:512-641 | With no NUL in a domain: at most 32 accounts, each in order field by field, and distinct in name, in user and domain, and in managed project |
| `AdmissionLaws.OccupiedFields` | operators/c5c3/api/v1alpha1/controlplane_types.go:1362-1376 | The own namespace and those of the two placement blocks, and no other, are occupied |
| `AdmissionLaws.FrozenFields` | operators/c5c3/api/v1alpha1/controlplane_webhook.go:1611-1943 | Two specs count as frozen alike exactly when the listed fields agree pair by pair, an unset storage size being 100Gi |
| `AdmissionLaws.AccountFields` | operators/c5c3/api/v1alpha1/controlplane_webhook.go:1895-1931 | Accounts count as kept exactly when every pair of one name agrees in user, domain, project and delivery |
| `Immutability.ValidateImmutable` | operators/c5c3/api/v1alpha1/controlplane_webhook.go:1611-1682 | No error exactly when the frozen projections agree and the service accounts kept their identities |
| `Immutability.ValidateDatabaseImmutable` | operators/c5c3/api/v1alpha1/controlplane_webhook.go:1710-1738 | No error exactly when mode, cluster name, database, replicas and effective size agree |
| `Immutability.ValidateCacheImmutable` | operators/c5c3/api/v1alpha1/controlplane_webhook.go:1745-1756 | No error exactly when mode and cluster name agree |
| `Immutability.ValidateDedicatedImmutable` | operators/c5c3/api/v1alpha1/controlplane_webhook.go:1783-1832 | No error exactly when presence and leaves of every dedicated class agree |
| `Immutability.FreezeNamespace` | operators/c5c3/api/v1alpha1/controlplane_webhook.go:1860-1887 | No error exactly when presence, name and lifecycle agree |
| `Immutability.ValidateServiceAccountsImmutable` | operators/c5c3/api/v1alpha1/controlplane_webhook.go:1895-1931 | No error exactly when every entry kept under its name has its user, domain, project and delivery |
| `Immutability.ByNameFinds` | operators/c5c3/api/v1alpha1/controlplane_webhook.go:1897-1900 | Where names are unique the index by name finds every entry |
| `Immutability.FrozenOccupies` | operators/c5c3/api/v1alpha1/controlplane_webhook.go:1860-1887 | Equal projections occupy the same namespaces, so updates need no claim check |
| `Webhook.ValidateServiceAccounts` | operators/c5c3/api/v1alpha1/controlplane_webhook.go:512-641 | No error exactly for at most 32 entries that are fine on their own and pairwise distinct in name, identity key and managed project key |
| `Webhook.ValidateServiceAccount` | operators/c5c3/api/v1alpha1/controlplane_webhook.go:550-633 | No error exactly for a well-formed entry delivering to an occupied namespace under an identity that is not the admin's |
| `AccountKeys.AcceptedExactly` | operators/c5c3/api/v1alpha1/controlplane_webhook.go:616-640 | The accounts are accepted exactly when every entry is fine, the list is not too long, no two entries are one account, one user of one domain or two owners of one project, and no two joined keys collide |
| `AccountKeys.NulFreeDomainsSuffice` | operators/c5c3/api/v1alpha1/controlplane_webhook.go:616-640 | Where the domains hold no NUL the duplicate checks are exactly the intended rule, whatever users and projects are called |
| `AccountKeys.IdentityKeysEqual` | operators/c5c3/api/v1alpha1/controlplane_webhook.go:616-622 | Two entries share an identity key exactly when user and domain agree, or one user continues the other after a NUL and the domains make up for it |
| `AccountKeys.ProjectKeysEqual` | operators/c5c3/api/v1alpha1/controlplane_webhook.go:634-638 | The same for the key of a managed project |
| `AccountKeys.KeyAmbiguous` | operators/c5c3/api/v1alpha1/controlplane_webhook.go:618-618 | A key stands for a second pair exactly when one of its parts holds a NUL |
| `AccountKeys.TwoUsersRefused` | operators/c5c3/api/v1alpha1/controlplane_webhook.go:618-622 | A ControlPlane which, defaulted, meets every modelled rule of the spec as it is meant, with two different users of two different domains, and is refused |
| `AccountKeys.TwoProjectsRefused` | operators/c5c3/api/v1alpha1/controlplane_webhook.go:634-638 | The same with two different projects of two different domains |
| `AccountKeys.CollidingRefused` | operators/c5c3/api/v1alpha1/controlplane_webhook.go:616-640 | Every pair of well-formed accounts of different domains with colliding keys makes such a ControlPlane |
| `Webhook.AdmittedIdentities` | operators/c5c3/api/v1alpha1/controlplane_webhook.go:616-633 | Admitted accounts are different users and none is the admin |
| `Webhook.ValidateServiceNamespaces` | operators/c5c3/api/v1alpha1/controlplane_webhook.go:1138-1177 | No error exactly when assignments name other namespaces properly and co-located services agree on the lifecycle |
| `Webhook.ValidateDedicatedBackingServices` | operators/c5c3/api/v1alpha1/controlplane_webhook.go:1327-1386 | No error exactly when each block declares a well-formed class and no two instances resolve to one cluster |
| `Webhook.DefaultedOptInIsAdmitted` | operators/c5c3/api/v1alpha1/controlplane_webhook.go:1305-1386 | An opt-in that names nothing passes the dedicated rules once defaulted |
| `Webhook.ValidateKeystoneMode` | operators/c5c3/api/v1alpha1/controlplane_webhook.go:1405-1555 | No error exactly when the modelled rows of the External-mode matrix hold |
| `Webhook.Validate` | operators/c5c3/api/v1alpha1/controlplane_webhook.go:933-1092 | No error exactly when the modelled rules hold and the others report none |
| `ControlPlanes.Admitted.Default` | operators/c5c3/api/v1alpha1/controlplane_webhook.go:727-874 | Defaulting in place equals the specified defaulted object |
| `ControlPlanes.DefaultIdempotent` | operators/c5c3/api/v1alpha1/controlplane_webhook.go:723-727 | Defaulting twice is defaulting once |
| `ControlPlanes.DefaultKeepsDatabaseMode` | operators/c5c3/api/v1alpha1/controlplane_webhook.go:680-704 | A defaulted database names exactly one of cluster and host unless both were given; brownfield is never coerced |
| `ControlPlanes.DefaultKeepsPlacement` | operators/c5c3/api/v1alpha1/controlplane_webhook.go:742-753 | Defaulting neither changes the mode nor claims a namespace |
| `ControlPlanes.InventedNamesDistinct` | operators/c5c3/api/v1alpha1/controlplane_webhook.go:66-79 | Cluster names invented for dedicated instances clash with no other invented name |
| `DefaultLaws.AdminFields` | operators/c5c3/api/v1alpha1/controlplane_webhook.go:727-731 | Region and admin credential: a set field stays, an unset one gets its documented value |
| `DefaultLaws.AccountFields` | operators/c5c3/api/v1alpha1/controlplane_webhook.go:864-870 | An account's user is named after the account unless set; the rest of the list stays |
| `DefaultLaws.InfrastructureFields` | operators/c5c3/api/v1alpha1/controlplane_webhook.go:690-724 | External mode invents nothing; any other has both classes filled, and a brownfield endpoint is never given a cluster |
| `DefaultLaws.KeystoneFields` | operators/c5c3/api/v1alpha1/controlplane_webhook.go:736-818 | Mode, placement, External block and dedicated services of keystone, each filled in its own mode only |
| `DefaultLaws.HorizonFields` | operators/c5c3/api/v1alpha1/controlplane_webhook.go:811-818 | Placement and dedicated cache of horizon |
| `ControlPlanes.DedicatedServiceNamespaces` | operators/c5c3/api/v1alpha1/controlplane_types.go:1362-1376 | The placed namespaces outside the own one, each once, keystone's first |
| `SecretIndex.SecretToControlPlanes` | operators/c5c3/internal/controller/controlplane_controller.go:458-496 | The index plus the namespace filter enqueues exactly the ControlPlanes a scan of all of them would, and unreadable indexed ones besides |
| `SecretIndex.ReadsWake` | operators/c5c3/internal/controller/reconcile_adminpassword.go:113-134 | Every Secret whose admin password or CA bundle a pass reads wakes its ControlPlane |
| `SecretIndex.ReadsFields` | operators/c5c3/internal/controller/reconcile_adminpassword.go:54-134 | Which Secrets a pass reads, by name and namespace, for an external Keystone, a managed database and a brownfield one |
| `SecretIndex.WakesByName` | operators/c5c3/internal/controller/controlplane_controller.go:422-496 | A Secret event wakes a ControlPlane exactly when it reads a Secret of that name somewhere and occupies the event's namespace |
| `SecretIndex.AtMostOneWakes` | operators/c5c3/internal/controller/controlplane_controller.go:465-473 | In a cluster built by admission a Secret wakes at most one ControlPlane |
| `SecretIndex.IndexNames` | operators/c5c3/internal/controller/controlplane_controller.go:422-437 | Indexed names: each read name once, never the empty one |
| `SecretIndex.SecretNames` | operators/c5c3/internal/controller/controlplane_controller.go:422-437 | The extractor's appends yield exactly the indexed names |
| `SecretIndex.SecretToOwners` | internal/common/watch/mappers.go:82-149 | The index-only, all-namespaces shape returns exactly the index hits |
| `SecretIndex.ControlPlaneNamespaces` | operators/c5c3/internal/controller/controlplane_controller.go:540-546 | Exactly the occupied namespaces, each once |
| `HashInput.InputInjective` | internal/common/config/config.go:157-172 | Two maps with any keys and values have equal hash inputs exactly when they are equal |
| `HashInput.DecodesEncode` | internal/common/config/config.go:157-172 | The length-prefixed entries decode back to the sorted pairs |
| `HashInput.InputOfOne` | internal/common/config/config.go:157-170 | An entry is len:key=len:value on a line of its own |
| `HashInput.InputOfTwo` | internal/common/config/config.go:161-170 | Entries follow in ascending order of their keys |
| `HashInput.Feed` | internal/common/config/config.go:161-170 | The feeding loop, over keys in any iteration order, yields the specified input |
| `Ini.ParseRendered` | internal/common/config/config.go:55-86 | Reading the rendered file gives back every section with exactly the keys that have values, values in order, for names and values on one line and keys without an equals sign or a leading bracket |
| `Ini.ParseRenderedSingle` | internal/common/config/config.go:35-37 | A single-valued file comes back value for value |
| `Ini.SectionOfOne` | internal/common/config/config.go:55-86 | A header in brackets and one line key = value for each value in order |
| `Ini.SectionOfTwo` | internal/common/config/config.go:73-84 | Keys follow in ascending order |
| `Ini.FileOfTwo` | internal/common/config/config.go:60-72 | Sections follow in ascending order with an empty line between two of them; no sections are no text |
| `Ini.RenderINIMulti` | internal/common/config/config.go:55-86 | The writer loops yield the specified text for any map iteration order |
| `Ini.RenderINI` | internal/common/config/config.go:35-37 | The single-valued form is the multi form of the lifted sections |
| `Ini.LiftSections` | internal/common/config/config.go:93-106 | Every value becomes a one-element list, for any iteration order |
| `Prune.Namespace.PruneImmutableObjects` | internal/common/config/config.go:367-416 | A run deletes exactly the stale objects, or, if delete number n fails, exactly the first n of them |
| `Prune.StaleIsTheOldest` | internal/common/config/config.go:367-410 | Kept and stale together are exactly the objects with the prefix, another name than the current one and this controller; every kept one has a later creation time than every stale one, or the same time and a later name; max(retain, 0) are kept if anything is stale |
| `Prune.StaleIsOrderIndependent` | internal/common/config/config.go:393-401 | What goes does not depend on the order of the listing |
| `Prune.InterruptedThenRepeated` | internal/common/config/config.go:403-413 | A run cut short at any delete and then repeated ends where an undisturbed run ends |
| `Prune.PruneIdempotent` | internal/common/config/config.go:403-413 | A second run has nothing left to delete |
| `PySettings.LiteralReadsBack` | internal/common/pysettings/pysettings.go:98-142 | A reader of the emitted literals recovers every JSON tree, number text verbatim |
| `PySettings.LiteralInjective` | internal/common/pysettings/pysettings.go:98-142 | Two well-formed trees print alike exactly when they are equal |
| `PySettings.LiteralShapes` | internal/common/pysettings/pysettings.go:98-142 | None, True and False, numbers as they stand, quoted strings, and lists joined by a comma and a space between brackets |
| `PySettings.ObjectShapes` | internal/common/pysettings/pysettings.go:122-138 | Objects as quoted keys, a colon and a space, and values between braces |
| `PySettings.ModuleShapes` | internal/common/pysettings/pysettings.go:47-77 | Preamble, an empty line where settings follow, and lines name = literal |
| `PySettings.IdentifierIsOneWord` | internal/common/pysettings/pysettings.go:39-39 | The name pattern by code points; a name holds no newline, space, equals sign, parenthesis or semicolon |
| `PySettings.OneLinePerSetting` | internal/common/pysettings/pysettings.go:47-77 | After the preamble, line i assigns the i-th setting by name on one line and reads back as it |
| `PySettings.Render` | internal/common/pysettings/pysettings.go:47-77 | An error exactly for an invalid name or an undecodable value; otherwise the specified module |
| `PySettings.ValueToPythonLiteral` | internal/common/pysettings/pysettings.go:98-142 | The recursion over slices and sorted keys yields the specified literal |
| `PySettings.LiteralOnOneLine` | internal/common/pysettings/pysettings.go:111-115 | No literal contains a newline |
| `Quoting.ReadsEscaped` | internal/common/pysettings/pysettings.go:111-115 | A quoted string reads back, whatever characters print verbatim |
| `Quoting.EscapeTable` | internal/common/pysettings/pysettings.go:111-115 | Backslash and quote are escaped, the seven control letters stand for their characters, and printable characters stand for themselves |
| `Quoting.HexEscapes` | internal/common/pysettings/pysettings.go:111-115 | Two, four or eight hexadecimal digits for everything else |
| `Sorting.SortingAnyOrder` | internal/common/config/config.go:65-65 | Sorting the keys of a map forgets the order they were collected in |
| `Sorting.KeysAscend` | internal/common/config/config.go:65-65 | Of two sorted keys the earlier one has the smaller character where they first differ, or ends there |
| `Parallel.Primary.RunParallelGroup` | internal/common/reconcile/parallel.go:48-100 | For every completion order: conditions merged in step order from every member, the smallest positive requeue without failures, the first error to occur otherwise |
| `Parallel.ScheduleIndependent` | internal/common/reconcile/parallel.go:48-100 | Without a failure every schedule ends in the result of running the members one by one on their own copies |
| `Parallel.MergeAllReads` | internal/common/reconcile/parallel.go:82-91 | Each member's own condition is merged, whether or not a peer failed |
| `Parallel.MemberConditionMerged` | internal/common/reconcile/parallel.go:33-91 | After the group a member's condition is what its copy says, with a transition time that moves only with the status, and as it was if the copy says nothing |
| `Parallel.MergeAllSkips` | internal/common/reconcile/parallel.go:29-39 | Conditions of other types stay untouched |
| `Parallel.MergeAllOrder` | internal/common/reconcile/parallel.go:82-91 | Conditions keep their places and new ones follow in step order |
| `Parallel.MergeCondition` | internal/common/reconcile/parallel.go:33-39 | One condition copied if the copy has it |
| `Parallel.ShortestRequeue` | internal/common/reconcile/pipeline.go:64-75 | The smallest positive requeue, or zero if none is positive |
| `Parallel.ShortestUnique` | internal/common/reconcile/pipeline.go:64-75 | The winner depends only on the set of requeues |
| `Conditions.SetStatusCondition` | internal/common/conditions/conditions.go:15-17 | The upsert in place equals its specification |
| `Conditions.SetThenGet` | internal/common/conditions/conditions.go:15-22 | A reader finds the upserted condition under its type and every other one unchanged; the transition time moves only with the status |
| `Conditions.TransitionFollowsStatus` | internal/common/conditions/conditions.go:15-22 | The reader finds what was set; the transition time stays as long as the status does |
| `Conditions.UpsertKeepsOrder` | internal/common/conditions/conditions.go:15-17 | Order and all other entries stay, and at most one entry is appended |
| `Probe.TrueMeansRecentSuccess` | internal/common/healthcheck/flow.go:83-180 | A pass leaves True only after its own 2xx, or if the last GET of the same key, UID and endpoint was a 2xx younger than the TTL |
| `Probe.CacheIsLastSuccess` | internal/common/healthcheck/flow.go:140-168 | Over all runs a cached entry is the last GET of its key, and that succeeded |
| `Probe.CachedPassIsSuccessfulProbe` | internal/common/healthcheck/flow.go:99-117 | A pass served from the cache writes what a successful probe would write |
| `Probe.ProbeOutcome` | internal/common/healthcheck/flow.go:112-180 | A 2xx is cached, reported and settles; any other status and any transport error is reported, evicted and requeued; a cancelled or unbuildable GET leaves no trace |
| `Probe.PassWithoutProbe` | internal/common/healthcheck/flow.go:83-117 | Without an endpoint the pass reports so and requeues; served from the cache it reports ready and settles |
| `Probe.CancelledChangesNothing` | internal/common/healthcheck/flow.go:129-138 | A run ends with the conditions, the cache and the GETs it would end with had its cancelled and unbuildable passes never happened |
| `Probe.FailureForcesProbe` | internal/common/healthcheck/flow.go:139-142 | In every run, if the last GET of a resource failed, its next pass with an endpoint probes |
| `Probe.Reconciler.ReconcileProbe` | internal/common/healthcheck/flow.go:83-180 | The flow in place equals the specified pass |

## Left out

- CredentialLiveness.Converges: assumes one operator pass at a time, no failing push or read-back and content that does not recur; with failures the pipeline retries, and recurring content is outside the design's freshness assumption.
- CredentialProtocol.ReadyValueIsNotRetired: says nothing about the credential id after a regenerate, because K-ORC's minting is not part of this model.
- RotationConvergence.OnePassDelivers: asks that no other controller owns the staging Secret, which the ensure step would report as an error.
- RotationProtocol.NothingLost: a patch that brings back an earlier pair of data and stamp is not modelled; each CronJob run generates new key material, and RotationProtocol.AppliedAtMostOnce and RotationProtocol.TargetIsInitialOrStaged rest on the same machine.
- RotationProtocol.AppliedAtMostOnce: counts applications per pair of data and stamp, for pairs that do not come back.
- RotationProtocol.TargetIsInitialOrStaged: proved over the same runs, so without a pair that comes back.
- JobProgress.StaleJobIsReplaced: the two passes are assumed to run their calls without a failure; that a failed pass is repeated is the work queue's part.
- JobPass.SoloPassIsSyncPass: the machine carries no status condition and writes Job names without the instance prefix; it keeps the release marker and records, as the keystone and glance callers do.
- JobPromotion.CheckRanAfterSync: says nothing where a db-sync template returns after another or a schema-check template is kept under another db-sync template; then an old completed check of the same template is accepted, as it is after the db-sync Job was deleted by hand.
- RotationProgress.DeliveredForGood: a relabelling under the pass may leave the committed payload on the staging Secret until a later pass, since the delete is preconditioned on the version read.
- Jobs.RecordJobTerminalState: Job uids are never empty, so the branch for an empty uid is not modelled, and the deferral event is not either.
- Jobs.Database.ReconcileSyncJobs: the terminal callback, where there is one, records through the owner's annotation; events are not modelled.
- Webhook.Validate: the release pattern, gateways, images, policies, the store reference, the Horizon endpoint, the external catalog and the release comparison on update enter as the errors they report; an error carries a path and a kind, not an index or a text.
- Webhook.ValidateKeystoneMode: only the rows over modelled fields; URL, replica, image and gateway rows belong to the rules left out.
- Admission.Server.CreateObject: two creates racing inside the API server are not modelled; admission is one step.
- Ini.ParseRendered: names, keys and values with a newline, and keys with an equals sign or a leading bracket, have no inverse and are excluded.
- PySettings.Render: JSON decoding is a parameter, so a raw value is a tree or undecodable, and which of several errors is returned is not modelled.
- Prune.Namespace.PruneImmutableObjects: deletions by others between the list call and the deletes are not modelled.
- Parallel.Primary.RunParallelGroup: the order of steps inside two members is not modelled, since each works on its own copy; instrumentation is left out.
- Probe.Reconciler.ReconcileProbe: the transport, its timeout and the error classification enter as the response.
- K-ORC, Keystone and OpenBao beyond the rules above, Server-Side Apply, informer caches and watch plumbing.
- Requeue intervals of the credential pass, events, metrics vocabulary and log messages.
- SHA-256 truncation to eight hex digits: names are not claimed to be unique.
- Release monotonicity: the downgrade check is skipped for releases that do not parse, so only a restricted claim holds.
- Builders, bootstrap, Helm schema, TLS, gateway and network-policy code: no property beyond one reading.
