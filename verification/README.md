# Reinhardt Cloud in Dafny

A model of the protocols at the core of Reinhardt Cloud, with proofs of what they keep:

* the operator's Redis credentials: a Secret at a predictable name, its provenance in the
  Project status, and the Deployments and migration Jobs that are stamped with it;
* the path from a build trigger through build Job, status and migration gate to the rollout;
* the gRPC server's agent registry: registrations, routing, heartbeats and eviction;
* the teardown of previews, the phase gauges and the retry delays of the operator;
* the allowed ingress hosts, and two parts of the command line tool: the replacement of two
  project files as a unit, and the choice of an API version.

`dafny verify dfyconfig.toml` checks everything.

## How it is written

A protocol is a state machine: a `World`, a `Step` for every atomic action of the program and of
everybody else, `Enabled`, `Next`, and the runs they allow. Crashes, failed calls, calls that take
effect although their answer is lost, stale snapshots and foreign writers are steps or choices
inside them. Results about `IsRun` hold for every interleaving. Beside each machine is the code in
its own form, as methods over a class whose fields they update; their contracts show that every
execution is a run of the machine, so that what holds of runs holds of the code.

| Files | Content |
|---|---|
| `text` | the string operations of the Rust library that several models use |
| `redis_digest` | the bytes fed to the digest, their decoder, and the hashing loop |
| `redis_provenance`, `redis_safety`, `redis_metadata`, `redis_convergence`, `redis_reconcile` | the Secret and its provenance: machine, safety, metadata, convergence, code |
| `redis_consumers`, `migration` | the stamped Deployments and migration Jobs |
| `project`, `conditions` | builds, annotations, names, Jobs; the condition list and its writers |
| `apply_protocol`, `apply_safety`, `apply_status`, `apply_shipping`, `apply_triggers`, `apply_accept`, `apply_branches`, `apply_reconcile` | one reconcile as a list of writes: machine, gates, status, order of the writes, triggers, acceptance, the other branches, code |
| `registry_protocol`, `registry_safety`, `registry_health`, `agent_registry` | the registry: machine, ownership and commands, heartbeats, code |
| `preview_teardown`, `preview_guardrails`, `preview_cleanup` | teardown of previews: machine, guardrails, code |
| `phase_gauge` | the gauges of Projects by phase |
| `error_class`, `backoff` | classes of errors and requeue delays |
| `ingress_host`, `crd_version`, `project_files` | host matching, API versions, paired file replacement |

## Where the code keeps less than it promises

Each of these is a proved statement, with the condition under which the promise does hold.

* A reconcile of a Project that needs no Redis writes the provenance of its snapshot back to the
  status. If snapshots never go back, this does no harm (`ForwardRunsRecover`). From a snapshot that is
  older than one used before it can overwrite the current UID (`StaleStatusWriteStrands`), and then
  reconciles of the stored Project reject the operator's own Secret until somebody removes it
  (`StaleStatusWriteStrandsForGood`). `StatusWriteKeepsRecoverable` gives the exact condition.
* A derived trigger can be lost through the snapshot that a later reconcile starts from, and through
  edits. Which snapshots and which edits lose it is stated exactly (`SnapshotLosesTriggerExactlyWhen`,
  `EditKeepsTriggerExactlyWhen`, `UnheldTriggerCanBeLost`): among them are snapshots with an older
  trigger, disabling previews (`DisablingPreviewsLosesTrigger`), and a trigger that is set while an
  earlier one is being accepted (`LateTriggerIsWiped`).
* Absent optional fields of a build are left out of the merge patch, so fields of the previous build
  stay (`StaleFieldsSurviveNextTrigger`; `MergeStoresWrittenBuild` gives the exact condition).
* Builds share a Job exactly if their tags agree once sanitized, but an image only if the tags
  themselves agree (`JobsAndImagesAreSharedExactlyByTag`). The code does not compare the destination of the
  Job it finds, so after the trigger `v1` the trigger `V1` puts an image into the spec that nothing built
  (`LetterCaseRollsOutUnbuiltImage`). An image in the spec was built by its Job exactly if it is that Job's
  destination (`ImagesWereBuilt`); where only the operator creates Jobs, a mismatch means that the Job
  was created, under the same name, for another image (`OwnJobsBuildTheirTargets`, `UnsharedImagesWereBuilt`).
* Two revisions share a migration exactly if image and version agree, as long as the images hold no
  semicolon (`RevisionsAgreeExactly`); with one they can be joined differently (`SemicolonJoinsRevisions`).
* A deletion of a migration Job by somebody else makes the next one repeat its stamp exactly if the Job
  carries the newest stamp and no newer credentials have been seen (`ForeignDeletionRepeatsStamp`,
  `RerunsBoundedByRegenerations`).
* A command addressed to a cluster that is accepted after its lookup enters a channel of that cluster if
  and only if the selected entry was not displaced in between: replaced or registered again for another
  cluster or for none, and neither removed nor bound to the cluster again since
  (`ClusterSendStaysExactlyUnlessDisplaced`). `RoutedCommandCanReachAnotherCluster` is a run in which it was.
* A registration that enters the map 90 s or more after it read the clock gets a lively agent evicted
  (`StalledRegistrationEvicts`). With a clock that does not go back nothing else does
  (`LivelyAgentsAreKept`); a visit evicts exactly when
  the last accepted refresh of the entry is 90 s old (`VisitEvictsExactlyWhenStale`).
* Overlapping gauge updates for one Project can take a gauge below zero for a moment
  (`OverlapGoesNegative`); without overlap none ever is (`SerialGaugesAreCounts`).
* A Kubernetes error of the finalizer itself is always Transient, also with status 404 or 409
  (`FinalizerFailureLosesStatus`).
* Version ranks order versions only below major 1000 and minor 1000 (`RankIsOrderExactlyBelow1000`),
  and `v0alpha0` ties with unknown formats (`UnknownRanksLowestExceptV0Alpha0`).
* The pair of project files is all or nothing exactly unless a cleanup or the rollback itself fails; if
  moving the previous Dockerfile back fails, dropping the backup deletes it (`Undo`), and if removing
  the backup after a success fails, it stays (`WriteProjectFiles`). If looking at an existing backup
  candidate fails, the move overwrites it, and that file alone is lost.
* The PATCH that rolls a Redis consumer has no UID precondition. A Deployment that it stamps is
  controlled by the Project if and only if it was not replaced by, or changed into, an uncontrolled one
  between its read and its PATCH (`StampedIsControlledExactlyUnlessStrayed`); `ReplacedDeploymentIsStamped`
  is a run in which it was.

## Model

| member | source | states |
|---|---|---|
| `RedisDigest.BigEndianReads` | crates/reinhardt-cloud-operator/src/reconciler.rs:1924-1941 | reading the bytes of a length gives the length back |
| `RedisDigest.BigEndianByte` | crates/reinhardt-cloud-operator/src/reconciler.rs:1924-1941 | the first of the length bytes is the most significant one |
| `RedisDigest.ShortEntryBytes` | crates/reinhardt-cloud-operator/src/reconciler.rs:1924-1941 | the bytes of an entry: key before value, each after its length in eight bytes |
| `RedisDigest.TakeChunkInvertsFrame` | crates/reinhardt-cloud-operator/src/reconciler.rs:1924-1941 | a length-prefixed chunk is split off unambiguously, whatever follows it |
| `RedisDigest.DecodeInvertsEncode` | crates/reinhardt-cloud-operator/src/reconciler.rs:1924-1941 | a decoder recovers every map from the bytes fed to the digest |
| `RedisDigest.ItemsDetermineEntries` | crates/reinhardt-cloud-operator/src/reconciler.rs:1924-1941 | a map has one iteration order, so equal maps encode equally |
| `RedisDigest.DigestIdentifiesData` | crates/reinhardt-cloud-operator/src/reconciler.rs:1924-1941 | digests are equal exactly for equal maps |
| `RedisDigest.RedisCredentialsDigest` | crates/reinhardt-cloud-operator/src/reconciler.rs:1924-1941 | the loop over the hasher computes that digest |
| `RedisSafety.TrustedIsGenuine` | crates/reinhardt-cloud-operator/src/reconciler.rs:2033-2049 | an immutable Secret that a snapshot vouches for, by UID or by digest, holds operator-generated data |
| `RedisSafety.RunsKeepInv` | crates/reinhardt-cloud-operator/src/reconciler.rs:1796-1912 | the protocol's invariant over every run with crashes, stale snapshots and tenant writes |
| `RedisSafety.EveryRecordIsGenuine` | crates/reinhardt-cloud-operator/src/reconciler.rs:1796-1912 | every UID ever recorded, accepted or stamped names a Secret that was immutable while it held operator-generated data; every digest is of such data |
| `RedisSafety.AcceptedSecretHoldsOperatorData` | crates/reinhardt-cloud-operator/src/reconciler.rs:1796-1881 | while an accepted Secret exists it holds operator-generated data, whatever happened since |
| `RedisSafety.ProvenanceNeverReturns` | crates/reinhardt-cloud-operator/src/reconciler.rs:1796-1912 | accepted UIDs move to newer Secrets only |
| `RedisSafety.OperatorKeepsExistingData` | crates/reinhardt-cloud-operator/src/reconciler.rs:1796-1912 | no step of the operator replaces an existing Secret or changes its data |
| `RedisMetadata.IntactExactlyWhenGuarded` | crates/reinhardt-cloud-operator/src/reconciler.rs:1951-1980 | nothing is patched exactly if the Project's UID is no owner and both operator labels have their values |
| `RedisMetadata.RepairGuards` | crates/reinhardt-cloud-operator/src/reconciler.rs:1951-2006 | the patch removes exactly the Project's own references, restores the two labels, keeps every other owner and label, and changes nothing exactly if nothing is missing |
| `RedisMetadata.OrderStays` | crates/reinhardt-cloud-operator/src/reconciler.rs:1961-1973 | the owners that stay keep their order |
| `RedisMetadata.OperatorRepairsWhatItRead` | crates/reinhardt-cloud-operator/src/reconciler.rs:1951-2006 | in every run a step of the operator changes an existing Secret only from broken to repaired metadata, and only the very version that the reconcile read and trusted |
| `RedisConvergence.FinishTakesSteps` | crates/reinhardt-cloud-operator/src/reconciler.rs:1796-1881 | the uninterrupted reconcile is made of protocol steps |
| `RedisConvergence.ConvergesExactlyWhenRecoverable` | crates/reinhardt-cloud-operator/src/reconciler.rs:1796-1881 | from a fresh snapshot an uninterrupted reconcile records the live UID with no pending digest, and leaves the Secret with the operator's labels and without the Project's owner reference, exactly from the recoverable states; it keeps an existing Secret, and otherwise reports an error and keeps the status |
| `RedisConvergence.ReconcileIsStable` | crates/reinhardt-cloud-operator/src/reconciler.rs:1806-1880 | a second reconcile returns the same UID and changes nothing |
| `RedisConvergence.ProvenanceWritesSetOneField` | crates/reinhardt-cloud-operator/src/reconciler.rs:1891-1912 | a provenance write never leaves both fields set |
| `RedisConvergence.StatusWriteStores` | crates/reinhardt-cloud-operator/src/reconciler.rs:3505-3660 | the final status write records the accepted UID, or without Redis writes back the snapshot's fields and keeps those it lacks |
| `RedisConvergence.StatusWriteKeepsRecoverable` | crates/reinhardt-cloud-operator/src/reconciler.rs:3505-3660 | the final status write keeps the Secret recoverable if and only if its snapshot does not contradict the live Secret |
| `RedisConvergence.FreshStatusWriteIsHarmless` | crates/reinhardt-cloud-operator/src/reconciler.rs:3505-3660 | a write from the current status meets that condition |
| `RedisConvergence.ForwardRunsRecover` | crates/reinhardt-cloud-operator/src/reconciler.rs:1796-1912 | after any run of crashes, stale reconciles, deletions, edits and status writes, with snapshots that never go back and no planted Secret, one uninterrupted reconcile converges |
| `RedisConvergence.BenignRunsRecover` | crates/reinhardt-cloud-operator/src/reconciler.rs:1796-1912 | the same with snapshots that do go back, unless a status write from such a one contradicts the live Secret |
| `RedisConvergence.StaleStatusWriteStrands` | crates/reinhardt-cloud-operator/src/reconciler.rs:3505-3660 | a run in which such a write, from a version of the Project without Redis, leaves a state that is not recoverable |
| `RedisConvergence.StrandedStaysStranded` | crates/reinhardt-cloud-operator/src/reconciler.rs:1796-1881 | no step in which the Secret is left alone and snapshots are fresh leads out of that state |
| `RedisConvergence.StaleStatusWriteStrandsForGood` | crates/reinhardt-cloud-operator/src/reconciler.rs:3505-3660 | so after that write every continuation of such steps stays unrecoverable |
| `RedisReconcile.EnforceMetadata` | crates/reinhardt-cloud-operator/src/reconciler.rs:1951-2006 | repaired metadata are left alone; a success on broken ones has repaired the very Secret that was read, and nothing else of it |
| `RedisReconcile.GenerateCredentials` | crates/reinhardt-cloud-operator/src/reconciler.rs:1849-1880 | digest, create, UID: the creation path as protocol steps |
| `RedisReconcile.ReconcileRedisCredentialsSecret` | crates/reinhardt-cloud-operator/src/reconciler.rs:1796-1881 | every execution is a run of the protocol, and a returned UID is genuine |
| `RedisConsumers.OperatorChangesOnlyStamps` | crates/reinhardt-cloud-operator/src/reconciler.rs:2071-2115 | in every run the roll creates and removes nothing and changes only stamps |
| `RedisConsumers.PatchFollowsRead` | crates/reinhardt-cloud-operator/src/reconciler.rs:2071-2115 | every PATCH follows a read of a controlled consumer with another stamp |
| `RedisConsumers.StampedIsControlledExactlyUnlessStrayed` | crates/reinhardt-cloud-operator/src/reconciler.rs:2071-2115 | a stamped Deployment is controlled if and only if it was not replaced by or changed into an uncontrolled one since its read |
| `RedisConsumers.ReplacedDeploymentIsStamped` | crates/reinhardt-cloud-operator/src/reconciler.rs:2100-2112 | a run that stamps an uncontrolled replacement |
| `RedisConsumers.RollTouchesOnlyStamps` | crates/reinhardt-cloud-operator/src/reconciler.rs:2071-2115 | the Deployments of the application, its worker and its cache that the Project controls, and no others, end up with the current UID, and nothing else changes |
| `RedisConsumers.RollIsIdempotent` | crates/reinhardt-cloud-operator/src/reconciler.rs:2071-2115 | rolling twice is rolling once |
| `RedisConsumers.RollRedisCredentialConsumers` | crates/reinhardt-cloud-operator/src/reconciler.rs:2071-2115 | every execution is a run of the roll; alone it computes the roll, and a failure leaves a roll of the first consumers |
| `Migration.RerunDeletesOnlyFailures` | crates/reinhardt-cloud-operator/src/reconciler.rs:1368-1438 | no running or succeeded Job is ever deleted by the rerun rule |
| `Migration.NewCredentialsRerunFailure` | crates/reinhardt-cloud-operator/src/reconciler.rs:1387-1438 | a failed Job stamped with another UID is gone after one uninterrupted gate, and replaced by one with the current UID after the next |
| `Migration.GateKeepsOtherJobs` | crates/reinhardt-cloud-operator/src/reconciler.rs:1379-1414 | every other Job stays: succeeded, in progress, or failed without a stamp, with the current one, or without credentials to compare |
| `Migration.RerunIsOfJobRead` | crates/reinhardt-cloud-operator/src/reconciler.rs:1387-1407 | in every run the rule deletes only the very Job that was read as failed with a stamp other than the given provenance |
| `Migration.RerunsBoundedByRegenerations` | crates/reinhardt-cloud-operator/src/reconciler.rs:1368-1438 | unless somebody deletes a Job with the newest stamp, the Jobs created for one revision carry pairwise distinct stamps, the unstamped one last, and are at most as many as the credential generations |
| `Migration.RedisProvenanceIsOrderly` | crates/reinhardt-cloud-operator/src/reconciler.rs:702-714 | what the gates of a revision receive is in the order that bound assumes, in every run of the credentials protocol |
| `Migration.RerunsBoundedInOperator` | crates/reinhardt-cloud-operator/src/reconciler.rs:1368-1438 | so the bound holds for every run of both protocols together, without that assumption |
| `Migration.ForeignDeletionRepeatsStamp` | crates/reinhardt-cloud-operator/src/reconciler.rs:1368-1438 | from every run, such a deletion can be continued to a repeated stamp |
| `Migration.StampIsOnJobAfterCreation` | crates/reinhardt-cloud-operator/src/reconciler.rs:1368-1438 | and there are runs with one |
| `Migration.ReconcileMigrationJob` | crates/reinhardt-cloud-operator/src/reconciler.rs:1368-1438 | the gate opens exactly on a Job read with a success or complete, and reports a failure exactly for a failed one whose stamp is absent, current or not comparable; for a failed one with another stamp a success deleted that Job and reports Running; without a Job a success created one with the provenance; nothing else is created or deleted |
| `Project.TriggerBecomesBuildOrIsIgnored` | crates/reinhardt-cloud-operator/src/source_build.rs:70-122 | which triggers become builds, which are ignored, and which builds are previews, in terms of the annotations and the source |
| `Project.DerivedBuildNames` | crates/reinhardt-cloud-operator/src/source_build.rs:66-122 | tag, image, Job, preview and branch of the build that a trigger derives, from the annotations, the source and the first eight characters of the trigger |
| `Project.JobTagIsLabel` | crates/reinhardt-cloud-operator/src/resources/source.rs:84-106 | the Job name ends in a label of lower-case letters, digits and inner hyphens, which is the tag itself if that is one already |
| `Project.JobsAndImagesAreSharedExactlyByTag` | crates/reinhardt-cloud-operator/src/source_build.rs:86-97 | builds share a Job exactly if their sanitized tags agree, an image exactly if their tags agree, and a tag exactly if the triggers agree in eight characters |
| `Project.LetterCaseSharesJob` | crates/reinhardt-cloud-operator/src/resources/source.rs:84-106 | tags that differ in letter case share a Job name, for every Project |
| `Project.SuccessWins` | crates/reinhardt-cloud-operator/src/source_build.rs:124-163 | a Job counts as succeeded exactly if it reports a success, and as failed exactly if it does not and lists a true Failed condition or exceeds its limit, for the reason of the first such condition or as exhausted |
| `Project.FailedConditionIsListed` | crates/reinhardt-cloud-operator/src/source_build.rs:133-137 | the search finds a true Failed condition exactly if there is one |
| `Project.TransitionTimeMovesExactly` | crates/reinhardt-cloud-operator/src/source_build.rs:284-307 | a transition sets phase and reason, and a new time exactly unless the status has this Job for this trigger in this phase |
| `Project.RepeatedTransitionIsStable` | crates/reinhardt-cloud-operator/src/source_build.rs:284-307 | recording the same transition again keeps its time |
| `Project.MergeStoresWrittenBuild` | crates/reinhardt-cloud-types/src/crd/status.rs:65-97 | the merge patch stores the written build if and only if it fills every field the previous one filled |
| `Project.StaleFieldsSurviveNextTrigger` | crates/reinhardt-cloud-operator/src/source_build.rs:93-121 | two triggers in a row after which branch and PR number are stale |
| `Conditions.ConditionList.Upsert` | crates/reinhardt-cloud-operator/src/source_build.rs:182-191 | the in-place update of the list |
| `Conditions.UpsertSetsOneType` | crates/reinhardt-cloud-operator/src/reconciler.rs:3753-3762 | an upsert sets one type, keeps all others, and keeps types unique |
| `Conditions.KeptTimeIsListed` | crates/reinhardt-cloud-operator/src/source_build.rs:193-203 | the time is kept exactly if the type is listed with the same status, and then it is that of the first one listed |
| `Conditions.BuildWriteIsConsistent` | crates/reinhardt-cloud-operator/src/source_build.rs:214-282 | after a build write Progressing is true exactly for an active build, Degraded exactly for a failed one, and other types are as before |
| `Conditions.RepeatedBuildWriteIsStable` | crates/reinhardt-cloud-operator/src/source_build.rs:193-282 | announcing the same build again changes nothing |
| `Conditions.BuildWriteReports` | crates/reinhardt-cloud-operator/src/source_build.rs:214-282 | status, reason and time of the announced condition and of its companion; all others stay |
| `Conditions.StatusWriteConditions` | crates/reinhardt-cloud-operator/src/reconciler.rs:3505-3630 | the final status write keeps Progressing, and sets Ready, MigrationReady and Degraded by readiness and gate |
| `Conditions.StatusWriteReports` | crates/reinhardt-cloud-operator/src/reconciler.rs:3505-3630 | status, reason and time of each condition that the final write sets; child conditions are stored, all others stay |
| `Conditions.RepeatedStatusWriteIsStable` | crates/reinhardt-cloud-operator/src/reconciler.rs:3505-3660 | reporting the same state again leaves the list as it is, at whatever time |
| `Conditions.PreviewDeletedIsConsistent` | crates/reinhardt-cloud-operator/src/source_build.rs:409-449 | cancelling a preview build leaves neither Progressing nor Degraded true |
| `Conditions.PreviewDeletedReports` | crates/reinhardt-cloud-operator/src/source_build.rs:409-449 | both become false for the reason PreviewDeleted; all others stay |
| `Conditions.TenantErrorIsConsistent` | crates/reinhardt-cloud-operator/src/reconciler.rs:2888-2905 | the one condition that a tenancy error leaves contradicts no build |
| `ApplyProtocol.DeletionCancelsOwnPreviewOnly` | crates/reinhardt-cloud-operator/src/source_build.rs:392-407 | deleting a PR's preview cancels exactly the preview build of that PR |
| `ApplyProtocol.RevisionsAgreeExactly` | crates/reinhardt-cloud-operator/src/resources/migration.rs:34-43 | images without a semicolon share a migration exactly if image and trimmed version agree |
| `ApplyProtocol.SemicolonJoinsRevisions` | crates/reinhardt-cloud-operator/src/resources/migration.rs:34-43 | with a semicolon two different pairs share one |
| `ApplySafety.RunsAreSafe` | crates/reinhardt-cloud-operator/src/reconciler.rs:429-927 | the gates' invariant over every run, from whatever snapshots |
| `ApplySafety.RolloutsWereGated` | crates/reinhardt-cloud-operator/src/reconciler.rs:596-752 | the Deployment is applied only for a snapshot with valid tenancy, no derivable and no unfinished or failed build, and with its revision's migration complete if it has a database |
| `ApplySafety.ImagesWereBuilt` | crates/reinhardt-cloud-operator/src/source_build.rs:568-619 | an image is only put into the spec on a Job of its name that succeeded, so that Job's destination was built; the image itself exactly if it is that destination |
| `ApplySafety.OwnJobsBuildTheirTargets` | crates/reinhardt-cloud-operator/src/source_build.rs:531-538 | if only the operator creates build Jobs, the Job behind every image was created, under that name, for its destination |
| `ApplySafety.UnsharedImagesWereBuilt` | crates/reinhardt-cloud-operator/src/source_build.rs:531-619 | then every image was built for which no other image was created under the Job's name |
| `ApplySafety.ContinueExactlyWhenSettled` | crates/reinhardt-cloud-operator/src/source_build.rs:540-619 | a reconcile goes past the build gate exactly when the build is settled |
| `ApplySafety.CreatedOnceWhileKept` | crates/reinhardt-cloud-operator/src/source_build.rs:540-619 | a build Job is created at most once, and not while it exists, as long as nobody deletes the Job of that name |
| `ApplyStatus.CachedRunsKeep` | crates/reinhardt-cloud-operator/src/source_build.rs:540-619 | the status invariant over every run from current and past snapshots |
| `ApplyStatus.ConditionsStayConsistent` | crates/reinhardt-cloud-operator/src/source_build.rs:250-282 | at most one condition per type, Progressing true only for an active build, and never Progressing and Degraded, over all runs |
| `ApplyStatus.ImagesMatchTheirJobs` | crates/reinhardt-cloud-operator/src/source_build.rs:93-121 | the destination of the Job behind an image was built, the image carries the tag its Job was named after, and it was built by that Job exactly if the destination has this very tag |
| `ApplyShipping.SucceededBuildsWereShipped` | crates/reinhardt-cloud-operator/src/reconciler.rs:604-613 | over every run from current and past snapshots, between any two writes: a stored build that is marked as succeeded had its image put into the spec, or its preview applied, under its Job name, trigger and image |
| `ApplyShipping.RecordedJobsExisted` | crates/reinhardt-cloud-operator/src/source_build.rs:568-611 | the Job of every build that the status ever names was there before |
| `ApplyShipping.RunningWasRolledOut` | crates/reinhardt-cloud-operator/src/reconciler.rs:702-752 | in every run the phase is Running only after a Deployment was applied |
| `ApplyShipping.RequestOutlivesPreview` | crates/reinhardt-cloud-operator/src/reconciler.rs:2676-2735 | in every run the deletion request disappears only after the preview was deleted, and the record of its build only after its Job was asked to go |
| `ApplyBranches.TenantErrorIsReported` | crates/reinhardt-cloud-operator/src/reconciler.rs:429-500 | an invalid tenancy leaves the phase Failed and the one condition Degraded, and does nothing else |
| `ApplyBranches.IgnoredTriggerIsCleared` | crates/reinhardt-cloud-operator/src/source_build.rs:545-550 | an ignored request is cleared, with exactly its four annotations |
| `ApplyBranches.FailureBlocks` | crates/reinhardt-cloud-operator/src/source_build.rs:551-561 | a failed build blocks the reconcile, which writes nothing |
| `ApplyBranches.PreviewIsDeleted` | crates/reinhardt-cloud-operator/src/reconciler.rs:2676-2735 | the requested preview is deleted, exactly its build and Job are cancelled, and the four annotations go |
| `ApplyBranches.MissingJobFailsBuild` | crates/reinhardt-cloud-operator/src/source_build.rs:577-597 | a followed build without its Job has failed |
| `ApplyBranches.UnfinishedJobIsRecorded` | crates/reinhardt-cloud-operator/src/source_build.rs:315-373 | a running or failed Job is recorded with its reason, and ships nothing |
| `ApplyBranches.SucceededJobShipsImage` | crates/reinhardt-cloud-operator/src/reconciler.rs:604-608 | a succeeded production build becomes the image of the spec and is marked; nothing else changes |
| `ApplyBranches.SucceededJobShipsPreview` | crates/reinhardt-cloud-operator/src/reconciler.rs:609-613 | a succeeded preview build is applied as its preview and is marked; the spec stays |
| `ApplyBranches.SettledProjectIsRolledOut` | crates/reinhardt-cloud-operator/src/reconciler.rs:702-927 | behind an open gate the Deployment is applied and the phase is Running exactly if ready; behind a closed one only the status changes |
| `ApplyBranches.RolloutIsReported` | crates/reinhardt-cloud-operator/src/reconciler.rs:702-927 | Ready, MigrationReady and Degraded agree with that, and child conditions are stored |
| `ApplyTriggers.HeldTriggerIsNotLost` | crates/reinhardt-cloud-operator/src/source_build.rs:540-619 | a held trigger stays an annotation or is named by the stored build, whatever the operator and the Jobs do |
| `ApplyTriggers.UnheldTriggerCanBeLost` | crates/reinhardt-cloud-operator/src/source_build.rs:540-619 | a trigger that is not held is lost in some continuation, so the condition is exact |
| `ApplyTriggers.SnapshotLosesTriggerExactlyWhen` | crates/reinhardt-cloud-operator/src/source_build.rs:540-619 | a reconcile from a snapshot can lose the trigger if and only if the snapshot asks for a deletion that does, is an ignored request, or derives, follows or keeps another build |
| `ApplyTriggers.PinnedSnapshotIsSafe` | crates/reinhardt-cloud-operator/src/source_build.rs:540-619 | no snapshot, however stale, that asks for this build or for none can lose it |
| `ApplyTriggers.EditKeepsTriggerExactlyWhen` | crates/reinhardt-cloud-operator/src/source_build.rs:514-529 | an edit keeps the trigger if and only if the request stays, or the status names the Job and the pending writes do without the request |
| `ApplyTriggers.DerivedTriggersAreNeverLost` | crates/reinhardt-cloud-operator/src/source_build.rs:540-619 | over every run with a stop possible after any call and without such snapshots and edits, a derived trigger is never lost |
| `ApplyTriggers.DisablingPreviewsLosesTrigger` | crates/reinhardt-cloud-operator/src/source_build.rs:540-560 | disabling previews is such an edit: the next reconcile clears the request |
| `ApplyTriggers.LateTriggerIsWiped` | crates/reinhardt-cloud-operator/src/source_build.rs:514-529 | a run in which a trigger that is set during acceptance of an earlier one is cleared with it |
| `ApplyAccept.UninterruptedReconcileAccepts` | crates/reinhardt-cloud-operator/src/source_build.rs:540-635 | an uninterrupted reconcile, from any snapshot with a buildable trigger, clears the request, names its Job in the status, creates it unless it exists, sets phase and build by the Job's state, and ships the build if the Job had succeeded |
| `ApplyAccept.LetterCaseRollsOutUnbuiltImage` | crates/reinhardt-cloud-operator/src/source_build.rs:568-611 | a run in which the Job of another tag lets an image into the spec that nothing built |
| `ApplyTriggers.StaleSnapshotLosesTrigger` | crates/reinhardt-cloud-operator/src/source_build.rs:514-619 | from every snapshot that can lose the trigger there is a continuation that does |
| `ApplyReconcile.FollowJob` | crates/reinhardt-cloud-operator/src/source_build.rs:315-373 | the writes that follow from the Job's state |
| `ApplyReconcile.AcceptBuild` | crates/reinhardt-cloud-operator/src/source_build.rs:568-611 | Job, then status, then annotations |
| `ApplyReconcile.FollowBuild` | crates/reinhardt-cloud-operator/src/source_build.rs:560-619 | a new or active build from the lookup of its Job on |
| `ApplyReconcile.ReconcileSourceBuild` | crates/reinhardt-cloud-operator/src/source_build.rs:540-619 | it reports no build exactly when the snapshot's build is settled |
| `ApplyReconcile.ReconcilePreviewDelete` | crates/reinhardt-cloud-operator/src/reconciler.rs:2676-2735 | the writes of a preview deletion in order |
| `ApplyReconcile.ApplyRollout` | crates/reinhardt-cloud-operator/src/reconciler.rs:596-617 | the writes of the rollout, image or preview before the mark; a success has done both |
| `ApplyReconcile.RollOutBehindGate` | crates/reinhardt-cloud-operator/src/reconciler.rs:702-927 | a success has applied the Deployment exactly behind an open gate, and then written the final status |
| `ApplyReconcile.Apply` | crates/reinhardt-cloud-operator/src/reconciler.rs:429-927 | every execution is a run of the protocol from the given snapshot, a success has performed all writes of its branch, and every Deployment it applied was allowed |
| `RegistrySafety.RunsKeepOwned` | crates/reinhardt-cloud-grpc/src/registry.rs:110-250 | the ownership invariant over every interleaving |
| `RegistrySafety.GenerationsAreDistinct` | crates/reinhardt-cloud-grpc/src/registry.rs:110-201 | live generations are pairwise distinct until the counter wraps |
| `RegistrySafety.CleanupRemovesOwnEntryOnly` | crates/reinhardt-cloud-grpc/src/registry.rs:241-250 | a registration's cleanup removes the entry exactly while it owns it |
| `RegistrySafety.RegistrationOwnsEntryOrLosesSender` | crates/reinhardt-cloud-grpc/src/registry.rs:110-201 | a registration owns its entry, is on its way, or its receiver ends |
| `RegistrySafety.ClusterIsKept` | crates/reinhardt-cloud-grpc/src/registry.rs:150-201 | an entry's cluster changes only through removal or an unbound registration |
| `RegistrySafety.ForeignExactlyWhenDisplaced` | crates/reinhardt-cloud-grpc/src/registry.rs:150-201 | an entry belongs to another cluster or to none if and only if it was displaced, and neither removed nor bound to the cluster again since |
| `RegistrySafety.ClusterSendStaysExactlyUnlessDisplaced` | crates/reinhardt-cloud-grpc/src/registry.rs:203-217 | an accepted cluster send enters a channel bound to that cluster if and only if the entry was not displaced since the lookup |
| `RegistrySafety.ClusterSendStaysInCluster` | crates/reinhardt-cloud-grpc/src/registry.rs:203-217 | in particular it does if the entry was neither removed nor registered unbound |
| `RegistrySafety.RoutedCommandCanReachAnotherCluster` | crates/reinhardt-cloud-grpc/src/registry.rs:203-217 | a run in which it reaches another cluster |
| `RegistrySafety.CommandsAreConserved` | crates/reinhardt-cloud-grpc/src/registry.rs:292-302 | what a channel accepted is what was received, queued and discarded, in order |
| `RegistrySafety.NoCommandIsLost` | crates/reinhardt-cloud-grpc/src/registry.rs:292-302 | summed over all channels, accepted commands equal received plus queued plus discarded |
| `RegistryHealth.VisitEvictsExactlyTheUnhealthy` | crates/reinhardt-cloud-grpc/src/registry.rs:310-359 | eviction agrees with health at the same reading, and starts at 90 s |
| `RegistryHealth.RecordedTimesWereRead` | crates/reinhardt-cloud-grpc/src/registry.rs:253-289 | every recorded time is a clock reading of the past |
| `RegistryHealth.HeartbeatIsLastRefresh` | crates/reinhardt-cloud-grpc/src/registry.rs:253-289 | the heartbeat of an entry is the time of its last accepted refresh: heartbeat, health report or registration |
| `RegistryHealth.VisitEvictsExactlyWhenStale` | crates/reinhardt-cloud-grpc/src/registry.rs:340-359 | a visit evicts if and only if that time is 90 s old |
| `RegistryHealth.LivelyAgentsAreKept` | crates/reinhardt-cloud-grpc/src/registry.rs:340-359 | an agent refreshed less than 90 s ago is not evicted, in any interleaving in which no registration with a reading 90 s old is accepted since |
| `RegistryHealth.StalledRegistrationEvicts` | crates/reinhardt-cloud-grpc/src/registry.rs:150-201 | a run in which such a registration gets a lively agent evicted |
| `AgentRegistry.Registry.Fetch` | crates/reinhardt-cloud-grpc/src/registry.rs:110-128 | generation, channel and clock reading before the map is locked |
| `AgentRegistry.Registry.InsertBound` | crates/reinhardt-cloud-grpc/src/registry.rs:165-201 | refusal exactly for an entry of another or no cluster |
| `AgentRegistry.Registry.Register` | crates/reinhardt-cloud-grpc/src/registry.rs:110-148 | the new entry, and the end of the predecessor's channel |
| `AgentRegistry.Registry.RegisterWithCluster` | crates/reinhardt-cloud-grpc/src/registry.rs:150-201 | the same for a bound registration, and its refusal |
| `AgentRegistry.Registry.UnregisterIf` | crates/reinhardt-cloud-grpc/src/registry.rs:241-250 | removes exactly an entry of that generation |
| `AgentRegistry.Registry.UpdateHealthForCluster` | crates/reinhardt-cloud-grpc/src/registry.rs:274-289 | updates exactly an entry of that cluster, and names the error otherwise |
| `AgentRegistry.Registry.SendCommand` | crates/reinhardt-cloud-grpc/src/registry.rs:292-302 | one command enters one channel, or none; a full channel makes the call wait and changes nothing |
| `AgentRegistry.Registry.EvictStaleAgents` | crates/reinhardt-cloud-grpc/src/registry.rs:340-359 | removes and reports, once each, exactly the entries that have expired at their own reading |
| `AgentRegistry.Registry.IsHealthy` | crates/reinhardt-cloud-grpc/src/registry.rs:310-319 | health at one clock reading |
| `PreviewTeardown.ItemsWereListed` | crates/reinhardt-cloud-operator/src/reconciler.rs:3325-3372 | a pass works on the items of its own list response |
| `PreviewTeardown.NamespaceWasOwned` | crates/reinhardt-cloud-operator/src/reconciler.rs:3185-3248 | the namespace delete is for the very namespace that was looked up as owned in the pass |
| `PreviewTeardown.OnlyVerifiedPreviewsAreDeleted` | crates/reinhardt-cloud-operator/src/reconciler.rs:3254-3372 | the operator deletes only the UID it listed and verified in the same pass, whatever replaced it |
| `PreviewTeardown.GuardrailsOutliveVerifiedPreviews` | crates/reinhardt-cloud-operator/src/reconciler.rs:3384-3477 | guardrails go only in a pass that listed no verified preview, and only the object looked up as owned |
| `PreviewTeardown.FinalizerWaitsForPreviews` | crates/reinhardt-cloud-operator/src/reconciler.rs:1063-1097 | the finalizer goes only in a pass that listed no verified preview, deleted its owned namespace, or has no previews in its spec |
| `PreviewTeardown.LaterPreviewsAppearedSince` | crates/reinhardt-cloud-operator/src/reconciler.rs:1063-1097 | a verified preview at the release was put or relabeled by others after the list |
| `PreviewTeardown.CalmPassMarksEverything` | crates/reinhardt-cloud-operator/src/reconciler.rs:3325-3372 | a pass without failures leaves every verified preview deleted or marked |
| `PreviewTeardown.NextListSeesNone` | crates/reinhardt-cloud-operator/src/reconciler.rs:3325-3372 | when the marked ones are gone, the next list, of whatever pass, sees none |
| `PreviewTeardown.EmptyListLeadsToRelease` | crates/reinhardt-cloud-operator/src/reconciler.rs:1063-1097 | from such a list a pass without failures releases the finalizer within a bounded number of calls |
| `PreviewTeardown.OwnedNamespaceIsDeleted` | crates/reinhardt-cloud-operator/src/reconciler.rs:3185-3248 | a managed namespace that is owned is deleted and the release follows; otherwise the previews are listed |
| `PreviewTeardown.CountVerifiedCounts` | crates/reinhardt-cloud-operator/src/reconciler.rs:3325-3372 | the remaining number is that of the verified items |
| `PreviewGuardrails.NoGuardrailIsForgotten` | crates/reinhardt-cloud-operator/src/reconciler.rs:3384-3477 | from a list without verified previews on, a pass without failures releases with no owned guardrail of any kind left, except one that was put or relabeled after its lookup |
| `PreviewGuardrails.UntouchedGuardrailsAreGone` | crates/reinhardt-cloud-operator/src/reconciler.rs:3384-3477 | if nobody does that, none is left |
| `PreviewGuardrails.EveryGuardrailIsLookedUp` | crates/reinhardt-cloud-operator/src/reconciler.rs:3384-3426 | also in a pass with conflicts, what is done with was looked up in the pass |
| `PreviewCleanup.DeleteOwnedPreviewNamespace` | crates/reinhardt-cloud-operator/src/reconciler.rs:3185-3248 | true exactly for an accepted delete |
| `PreviewCleanup.DeleteRetainedPreviewProjects` | crates/reinhardt-cloud-operator/src/reconciler.rs:3325-3372 | the loop visits every item and counts the verified ones, marked, gone or replaced |
| `PreviewCleanup.DeletePreviewGuardrailIfOwned` | crates/reinhardt-cloud-operator/src/reconciler.rs:3428-3477 | one guardrail; absent, foreign and replaced ones are passed over |
| `PreviewCleanup.DeleteRetainedPreviewGuardrails` | crates/reinhardt-cloud-operator/src/reconciler.rs:3384-3426 | a success has looked up every kind of guardrail in this pass |
| `PreviewCleanup.CleanupPreviews` | crates/reinhardt-cloud-operator/src/reconciler.rs:1063-1097 | every execution is a run of the teardown; a success released the finalizer, remaining previews are reported and keep it |
| `PhaseGauge.GaugesBalance` | crates/reinhardt-cloud-operator/src/reconciler.rs:3686-3740 | gauge plus pending increments minus pending decrements is the number of Projects in the phase, in every interleaving |
| `PhaseGauge.QuietGaugesAreExact` | crates/reinhardt-cloud-operator/src/reconciler.rs:3686-3740 | with nothing pending each gauge is the exact count |
| `PhaseGauge.SerialGaugesAreCounts` | crates/reinhardt-cloud-operator/src/reconciler.rs:3686-3740 | without overlapping calls for one Project a gauge is always a count, so never negative |
| `PhaseGauge.OverlapGoesNegative` | crates/reinhardt-cloud-operator/src/reconciler.rs:3686-3740 | a run with overlap in which a gauge is negative |
| `PhaseGauge.Metrics.UpdateManagedAppsGauge` | crates/reinhardt-cloud-operator/src/reconciler.rs:3686-3701 | the call as steps of that machine, finished when it returns |
| `PhaseGauge.Metrics.DropManagedAppsGauge` | crates/reinhardt-cloud-operator/src/reconciler.rs:3733-3740 | likewise for a removal |
| `ErrorClass.WrappingKeepsClass` | crates/reinhardt-cloud-operator/src/error.rs:217-256 | any depth of wrapping leaves the class of the error inside |
| `ErrorClass.EveryCauseHasCore` | crates/reinhardt-cloud-operator/src/error.rs:246-256 | every chain is such an error in layers |
| `ErrorClass.ClassOfEveryPlainError` | crates/reinhardt-cloud-operator/src/error.rs:217-268 | which errors have which class |
| `ErrorClass.FinalizerFailureLosesStatus` | crates/reinhardt-cloud-operator/src/error.rs:246-268 | a Kubernetes error inside the finalizer's own failure keeps its class exactly unless its status is 404 or 409 |
| `ErrorClass.BackoffClass` | crates/reinhardt-cloud-operator/src/error.rs:217-244 | the match computes the class |
| `ErrorClass.NestedBackoffClass` | crates/reinhardt-cloud-operator/src/error.rs:246-256 | the walk along the chain ends and computes the class |
| `Backoff.ComputeBackoffIsBoundedDoubling` | crates/reinhardt-cloud-operator/src/reconciler.rs:187-206 | for all u64 bases and u32 attempts the delay is the unbounded product, up to 600 s |
| `Backoff.StreakIsLongest` | crates/reinhardt-cloud-operator/src/reconciler.rs:3774-3820 | a streak is the longest run of retryable failures at the end of a Project's history |
| `Backoff.Controller.Succeed` | crates/reinhardt-cloud-operator/src/reconciler.rs:259-272 | a success resets the counter |
| `Backoff.Controller.ErrorPolicy` | crates/reinhardt-cloud-operator/src/reconciler.rs:3774-3820 | the delay after the k-th consecutive retryable failure is the base of its class doubled k - 1 times, up to 600 s; other classes reset |
| `IngressHost.SplitLosesNothing` | crates/reinhardt-cloud-operator/src/reconciler.rs:1662-1680 | joining the labels gives the name back, and labels hold no separator |
| `IngressHost.SplitInvertsJoin` | crates/reinhardt-cloud-operator/src/reconciler.rs:1662-1680 | labels are the only such split |
| `IngressHost.HostMatchesExactlyBySuffixLabels` | crates/reinhardt-cloud-operator/src/reconciler.rs:1676-1680 | matching strings is matching trailing labels, for all strings |
| `IngressHost.WildcardIsFirstLabel` | crates/reinhardt-cloud-operator/src/reconciler.rs:1672-1674 | a wildcard host is one whose first of several labels is a star |
| `IngressHost.HostAllowedExactlyByLabels` | crates/reinhardt-cloud-operator/src/reconciler.rs:1636-1680 | a host is allowed exactly when it is no wildcard and some entry's labels end its own |
| `IngressHost.DotsAllowNothing` | crates/reinhardt-cloud-operator/src/reconciler.rs:1662-1680 | an entry of dots allows no named host |
| `IngressHost.DecisionIgnoresCase` | crates/reinhardt-cloud-operator/src/reconciler.rs:1636-1680 | the letter case of host and variable decides nothing |
| `IngressHost.RefusalNamesReason` | crates/reinhardt-cloud-operator/src/reconciler.rs:1636-1660 | a refusal is for a wildcard, for an empty configuration, or for the suffixes, in this order |
| `CrdVersion.ParseInvertsDecimal` | crates/reinhardt-cloud-cli/src/crd_version.rs:134-165 | printed numbers parse back |
| `CrdVersion.ParseInvertsName` | crates/reinhardt-cloud-cli/src/crd_version.rs:134-165 | every printed version parses to its tier, major and minor |
| `CrdVersion.RankOrdersSmallVersions` | crates/reinhardt-cloud-cli/src/crd_version.rs:121-165 | below 1000 nothing overflows and ranks order by tier, major, minor |
| `CrdVersion.RankIsOrderExactlyBelow1000` | crates/reinhardt-cloud-cli/src/crd_version.rs:121-165 | these bounds are exact |
| `CrdVersion.UnknownRanksLowestExceptV0Alpha0` | crates/reinhardt-cloud-cli/src/crd_version.rs:121-165 | an unknown format ranks below every small version but one |
| `CrdVersion.StringOrderIsTotal` | crates/reinhardt-cloud-cli/src/crd_version.rs:112-118 | the tie-breaker is a total order |
| `CrdVersion.FirstStorageIsFirst` | crates/reinhardt-cloud-cli/src/crd_version.rs:102-110 | the search finds the first served storage version, if there is one |
| `CrdVersion.PickBestDominates` | crates/reinhardt-cloud-cli/src/crd_version.rs:89-119 | without one the choice is a served version that dominates all served ones |
| `CrdVersion.PickBestIsNewest` | crates/reinhardt-cloud-cli/src/crd_version.rs:89-119 | among small versions none is more stable or newer |
| `CrdVersion.PickBestIgnoresOrder` | crates/reinhardt-cloud-cli/src/crd_version.rs:89-119 | the order of the list does not matter |
| `CrdVersion.PickBestPrefersStorage` | crates/reinhardt-cloud-cli/src/crd_version.rs:89-119 | the served storage version wins |
| `ProjectFiles.StageFile` | crates/reinhardt-cloud-cli/src/dockerfile_generator.rs:185-204 | the contents with the target's mode in a new file, or nothing |
| `ProjectFiles.MoveToUnusedPath` | crates/reinhardt-cloud-cli/src/dockerfile_generator.rs:176-181 | an existing destination is refused, unless looking at it fails |
| `ProjectFiles.MakeBackup` | crates/reinhardt-cloud-cli/src/dockerfile_generator.rs:136-148 | the previous Dockerfile under a new name, or nothing changed |
| `ProjectFiles.ReplacePair` | crates/reinhardt-cloud-cli/src/dockerfile_generator.rs:149-157 | Dockerfile, then config, and what a failure leaves |
| `ProjectFiles.RollBack` | crates/reinhardt-cloud-cli/src/dockerfile_generator.rs:158-164 | the previous Dockerfile back, or the new one removed |
| `ProjectFiles.Undo` | crates/reinhardt-cloud-cli/src/dockerfile_generator.rs:158-166 | rollback and dropped backup restore exactly what was there, unless one of them fails |
| `ProjectFiles.WriteProjectFiles` | crates/reinhardt-cloud-cli/src/dockerfile_generator.rs:105-166 | both files are new or everything is as before, with no temporary file left, if and only if no cleanup or rollback failed; only if looking at an existing backup candidate failed can that one file be lost |

## Left out

Assumptions of the models:

- SHA-256 is a symbolic digest without collisions, its hexadecimal form is not modelled, and generated passwords never repeat and cannot be guessed before their Secret exists.
- Kubernetes calls are atomic, UIDs are numbered in order of creation, every object has a UID and a resourceVersion, and the API server keeps the data of an immutable Secret.
- Nobody with administrator rights adopts or labels a Secret, and a Project is not deleted and created again in the credentials protocol.
- Names derived by FNV hashing do not collide; a migration Job is identified by its revision.
- Temporary file names drawn at random are unused and are not the target of a link; no other process works on the two files meanwhile. File modes are those of Unix.
- Gauge values are integers; the code keeps them as floating point numbers, which are exact below 2^53.
- Host names are compared after ASCII lowercasing, as in the code; the environment variable is a parameter.

Deliberately weaker contracts:

- RegistrySafety.GenerationsAreDistinct: holds for the first 2^64 registrations, after which the 64-bit counter wraps around.
- RegistrySafety.CleanupRemovesOwnEntryOnly: likewise until the counter wraps.
- ApplyTriggers.DerivedTriggersAreNeverLost: excludes exactly the snapshots and edits that can lose a trigger, as the lemmas beside it show.
- Migration.RerunsBoundedByRegenerations: excludes exactly the foreign deletions after which a stamp can repeat.
- RedisConvergence.ForwardRunsRecover: excludes a Secret planted by a tenant, which blocks the operator until it is removed, and snapshots that go back, which a watch does not deliver.
- AgentRegistry.Registry.SendCommand: a call that waits for room reports so; that it holds its entry of the map meanwhile is not modelled.
- PreviewTeardown.NextListSeesNone: that the controller starts further passes and that the previews' own finalizers end is assumed, not proved.

Parts of the repository that are not modelled:

- Resource builders, naming helpers and inference, beyond the names of build Jobs, tags and previews.
- Messages, generations and the health payload; times are integers. A tenancy error has the reason of a mismatch.
- Provisioning of databases, caches, mail, storage, tenants and preview namespaces, and the rest of `cleanup`.
- Retention and deletion of the Redis Secret when a Project is deleted, the mail and database credentials, and the Git credentials.
- Availability of an ingress host among other Ingresses.
- Dockerfile contents, Pages configuration and signal collection of the command line tool.
- gRPC transport, JWT checks, the dashboard, the web client and telemetry.
