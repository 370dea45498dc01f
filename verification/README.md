# The PostgreSQL operator's reconcilers, modelled and verified in Dafny

The operator turns PostgresCluster, PostgresBackup, PostgresRestore and PostgresUser objects into
Kubernetes objects and database roles. Its claims are claims about whole runs: of programs that
talk to an API server which may refuse a request, apply it and lose the reply, or never hear of
it because the process has died, while the rest of the cluster moves on between any two calls.
This project models the reconcilers as such programs and proves what every run of them keeps.

## How a run is modelled

`ApiServer.dfy` has one server for all controllers. A `Session` holds every world so far, the
current one, and a script: for each request the moves the outside makes before it and its fate
(`Served`, `Refused`, or `Lost`: the change lands and the caller sees an error). Where the script
ends the process has crashed, and no later request of the pass reaches the server. A run is a
sequence of passes, each with its own script, so a statement about every world of a run's trace
is about every state between any two API calls, crashes included. Resource versions,
conflicts on stale ones, the split of spec and status, and the overwriting of the object in
memory by the server's answer are in `ApiTypes.dfy` and in each controller's `Serve`.

Each reconciler appears twice. The `*Model.dfy` files give it as functions on sessions, and the
lemmas are about these. The `*Controller.dfy` files give it in the form of the Go code: objects
whose fields the methods update, loops that count, append and call the server; every method is
proved equal to the function of the Model. Generated deep copies are methods on heap cells.

What an object, a job, a status or a role must contain is stated apart from the functions that
compute it, in terms of the spec's own fields, names and texts: `JobContents`, `ClusterConvergence`,
`ClusterContents`, `ClusterHealth`, `RestoreReports`, `UserDatabases`, `UserInstances`, `SelectorLaws`,
`BackupTypes`. The functions of the Models and the methods equal to them are proved to meet these
statements.

| file | content |
|---|---|
| `RestoreModel`, `RestoreJobs`, `RestoreController` | the restore fan-out |
| `RestoreSafety`, `RestoreTheorems`, `RestoreProgress` | its invariants, theorems on runs, fixpoint and progress |
| `RestoreReports`, `RestoreOrigins` | what its status says of the jobs, deletion and errors, and what every job in every run was built from |
| `RestoreScripts`, `RestoreSteady`, `RestoreSlots`, `RestoreExact`, `RestoreReuse` | passes played out turn by turn, which runs keep their targets, and exactly when reused slots do harm |
| `ClusterModel`, `ClusterController`, `PostgresConf` | the cluster renderer and its `postgresql.conf` |
| `ClusterRequests`, `ClusterConvergence`, `ClusterDeletion`, `ClusterLeftovers`, `ClusterReport`, `ClusterPrimary` | parts of a pass as request sequences, convergence, deletion and what it leaves, the summary status, the recorded primary |
| `ClusterContents`, `ClusterHealth` | the defaults and passwords a pass leaves, the status it persists and when that is Running |
| `UserModel`, `UserController` | passwords, rotation and the fan-out over databases |
| `UserRequests`, `UserHistory`, `UserPass`, `UserRotation`, `UserLosses` | parts of a pass as request sequences, what runs and single passes keep, rotation over runs, which writes go unrecorded |
| `UserDatabases`, `UserInstances`, `UserSecrets`, `UserOutcomes` | what the databases hold, from the password drawn to the roles, and exactly what a pass records |
| `BackupText`, `BackupTypes`, `BackupJobs`, `BackupController`, `BackupAgreement` | backup jobs and what they share with restores |
| `JobContents` | what is in the jobs of restores and backups: servers, databases, volumes, flags |
| `Selectors`, `SelectorLaws`, `SelectorAgreement`, `Naming` | instance selectors, what they pick, and derived names |
| `DeepCopy` | the copy tree of a cluster spec |

## Where the code falls short of what one would expect

These are results of the model, each with a lemma; the code is modelled as it is.

- Restore slots are reused by position when the targets change but not their number:
  `ReusedSlotHidesTarget`, `ReusedSlotOrphansJob` and, concretely, `ExchangeGoesWrong`. The
  theorems on runs of the restore controller therefore speak of kept runs, in which a pass that
  resolves its targets finds in each open slot the instance recorded there; `SteadyRunsAreKept`
  names such runs. They are about the recorded instances. For the targets a pass finds, `SlotsExact`
  says exactly which mismatches do harm and which do not. The two conditions are different ones:
  a pass that does its targets no harm may still complete a slot whose own job has not completed
  (`MisledLosesInv`, `SoundMayLoseInv`).
- Deleting a cluster leaves the metrics Service and the objects of instances that have left the
  spec, and nothing else of the operator's: `DeletionLeavesTheRest`, and as runs `LeftBehind`,
  `DepartedInstanceStays`, `MetricsServiceStays`, `LeftoversExist`.
- "All instances are ready" compares sums modulo 2^32: `RunningComparesTotals`, `OneMasksAnother`,
  `MaskingSession`.
- The rotation interval counts from a time that has lost its fraction of a second:
  `DueFromTheSecond`.
- A user pass without targets reports Ready and keeps the entries it found: `SuccessConfigures`.
  Deleting a user leaves its role wherever no entry is recorded ready: `DeletionDropsReady`.
- A password is recorded as changed exactly if the pass hears the reply to its write of the secret
  and lands its status: `RecordedIffAcknowledged`. A write that is not recorded is repeated by the
  next undisturbed pass, interval or not: `UnrecordedIsRepeated`, `LostReplyBreaksSpacing`,
  `HourlyRepeated`.
- A generated secret that is there without data stops every pass that should rotate its password, and no
  status says so: `BareSecretPanics`.
- Dump and restore work on different databases in some configurations: `DumpedIsRestored` has the
  exact condition.
- An instance called `metrics` shares its Service with monitoring, which writes it last:
  `MetricsName`, `Converges`.
- The repository's README promises automatic failover, promotion and split-brain protection; no
  code does any of it. The code is followed: the "primary" is whichever instance the spec gives
  that role, and `currentPrimary` is a report (`PrimaryEarned`).

## Model

| member | source | states |
|---|---|---|
| RestoreController.RestoreReconciler.Reconcile | controllers/postgresrestore_controller.go:37-100 | a pass, from reading the restore to its outcome, does to the API server exactly what the Model's pass does, for every script of refusals, lost replies, crashes and outside moves |
| RestoreController.RestoreReconciler.ReconcileRestore | controllers/postgresrestore_controller.go:125-190 | resolving targets, recording slots, visiting each and aggregating: the same server, the same restore in memory, the same error as the Model |
| RestoreController.RestoreReconciler.FillEntries | controllers/postgresrestore_controller.go:138-146 | the slice is rebuilt with one Pending entry per target, in order, under the target's job name |
| RestoreController.RestoreReconciler.InitEntries | controllers/postgresrestore_controller.go:138-150 | the slots are persisted before any job exists, and only if their number is wrong |
| RestoreController.RestoreReconciler.Visit | controllers/postgresrestore_controller.go:152-187 | one turn of the loop: Completed is skipped, a missing job is created, the job's state moves the entry |
| RestoreController.RestoreReconciler.UpdateJobStatus | controllers/postgresrestore_controller.go:380-419 | completion time wins over failures, failures over activity, an idle job leaves the entry alone |
| RestoreController.RestoreReconciler.UpdateRestoreStatus | controllers/postgresrestore_controller.go:421-458 | the counting loop, the time and the status write are the Model's, of which ReportSums says what they persist |
| RestoreReports.ReportSums | controllers/postgresrestore_controller.go:421-458 | once the update is accepted, the persisted phase is Failed iff some persisted entry is, Completed iff all are, Running iff none is Failed, not all are Completed and some is Running, and Pending otherwise; the completion time is the moment the restore became Completed |
| RestoreReports.QuietPassReports | controllers/postgresrestore_controller.go:125-190 | an undisturbed pass whose targets resolve persists Failed because some job cannot be built, or entries that follow what their jobs report, each field of each, summed up in that way |
| RestoreReports.FailedJobReported | controllers/postgresrestore_controller.go:403-442 | so if the job of some slot that is not Completed reports a failure and no completion time, whatever the other slots do, such a pass persists Failed |
| RestoreReports.ErrorsAreReported | controllers/postgresrestore_controller.go:37-114 | no error is swallowed: a pass that does not fail has been served every request it made and has heard every reply |
| RestoreReports.OutcomeSays | controllers/postgresrestore_controller.go:37-100 | a pass to be repeated later has persisted a phase that sums up its entries; one that settles leaves the restore gone, Completed or released |
| RestoreController.RestoreReconciler.HandleError | controllers/postgresrestore_controller.go:102-114 | a failure is written with whatever entries are in memory |
| RestoreController.RestoreReconciler.HandleDeletion | controllers/postgresrestore_controller.go:502-526 | every recorded job is deleted, in order, before the finalizer goes |
| RestoreReports.DeletionSettles | controllers/postgresrestore_controller.go:502-526 | an undisturbed pass over a deleted restore removes exactly the jobs its status names, missing ones included without an error, and lets the restore go |
| RestoreJobs.BuildRestoreCommand | internal/postgres/restore.go:11-61 | the command grown piece by piece is the Model's, in which JobRestoresInstance finds each flag exactly if its option is set |
| RestoreJobs.CreateRestoreJob | controllers/postgresrestore_controller.go:253-378 | the job built with growing env, mounts and volumes, or the error, is the Model's, of which JobRestoresInstance and JobBuiltIff say what it restores and when it is built |
| JobContents.JobRestoresInstance | controllers/postgresrestore_controller.go:253-378 | every job built restores its own instance: a dump through the one POSTGRES_HOST, which is the instance's Service in the cluster's namespace, into the database its own settings name or else the cluster's, with each flag exactly if its option is set; a base backup onto the one data claim, of the instance's own storage if it has some and else the cluster's; the backup mounted from its claim or downloaded |
| JobContents.JobBuiltIff | controllers/postgresrestore_controller.go:270-309 | a job is built if and only if the backup is of a known kind and can be read, and a base backup has a volume to go to |
| JobContents.JobsApart | controllers/postgresrestore_controller.go:325-328 | jobs for instances of different names write to different servers |
| RestoreOrigins.JobsHaveOrigin | controllers/postgresrestore_controller.go:125-187 | in every world of every run, kept or not: each job of the operator restores, in that sense, an instance of the target cluster from the backup referred to, with restore, cluster and backup as some earlier worlds had them |
| RestoreOrigins.SlotsJobsRestoreThem | controllers/postgresrestore_controller.go:152-187 | in every world of a kept run the instance it restores is the one recorded in every slot that names the job, and some slot does |
| RestoreSafety.ReconcileSafe | controllers/postgresrestore_controller.go:37-190 | whatever fails and wherever it stops, a pass that finds in each open slot the target recorded there keeps, in every world on the way, write-ahead coverage, the job ledger, witnessed completion, and slots that never leave Completed |
| RestoreTheorems.CompletionSound | controllers/postgresrestore_controller.go:62-65 | in every world of every kept run, a persisted Completed means each recorded instance's own job was seen with a completion time, one the operator created unless someone else put a job of that name there, and the status never changes again |
| RestoreTheorems.CompletedTargets | controllers/postgresrestore_controller.go:421-458 | over every run whose passes find their targets as recorded, in all slots: the recorded instances of a Completed restore are exactly the targets, in order, some pass of the run resolved, and each one's job has completed |
| RestoreTheorems.JobsCovered | controllers/postgresrestore_controller.go:138-182 | in every world, mid-pass crashes included, each job of the operator is named in the persisted status; once the restore is gone none is left |
| RestoreTheorems.JobsConserved | controllers/postgresrestore_controller.go:152-187 | per job name, creations equal removals plus one if present; without outside removal the operator creates at most one |
| RestoreTheorems.CompletedNotRestarted | controllers/postgresrestore_controller.go:155-182 | a job is created only for a slot not persisted as Completed; with no instance listed twice, never for a Completed instance |
| RestoreTheorems.ProgressKept | controllers/postgresrestore_controller.go:152-187 | between any two worlds of a run the number of persisted Completed instances does not decrease |
| RestoreProgress.SecondPassChangesNothing | controllers/postgresrestore_controller.go:95-114 | after one undisturbed pass from any aligned state, a second one at any later time leaves jobs, their history, entries, phase and completion time alone, also when the first stopped at a job it cannot build |
| RestoreProgress.DoneJobsComplete | controllers/postgresrestore_controller.go:421-458 | once every slot's job has completed, one undisturbed pass persists Completed, whatever failures were recorded before |
| RestoreSteady.SteadyRunsAreKept | controllers/postgresrestore_controller.go:133-150 | every run from a fresh restore finds its targets as recorded, and is kept, in which nobody edits its selector or target reference or the names and roles of its cluster's instances, whatever else is edited, fails or goes away |
| RestoreSteady.KeptRunCompletes | controllers/postgresrestore_controller.go:37-100 | from every fresh restore whose jobs can be built, such a run reaches Completed for exactly its targets |
| RestoreExact.SlotsExact | controllers/postgresrestore_controller.go:138-187 | the exact condition: in every world that keeps the invariant, as those of kept runs do, and for whatever targets the pass then finds, all scripts of the pass keep jobs recorded and completion true if and only if no job is forgotten when the slots are sized anew, no open slot is worked on for a target that no slot records, and no unfinished target is left without a slot that waits for it |
| RestoreExact.KeptIsSound | controllers/postgresrestore_controller.go:138-150 | with recorded targets, or none recorded yet, the condition holds |
| RestoreExact.SettledMismatchIsSound | controllers/postgresrestore_controller.go:152-157 | so it does for targets in other slots, as long as each is in its own or listed by a Completed one |
| RestoreExact.UnlistedBreaks | controllers/postgresrestore_controller.go:138-157 | it fails for any number of slots if a target that has not finished, or whose job can be built for an open slot, is listed by none |
| RestoreExact.MisplacedBreaks | controllers/postgresrestore_controller.go:153-186 | and if an open slot is worked on for another target while its own has not finished |
| RestoreExact.MisledLosesInv | controllers/postgresrestore_controller.go:153-186 | with no instance recorded twice, whatever the other slots say: if an open slot is worked on for another target while its own job has not finished, some script makes it Completed without that job |
| RestoreReuse.SoundMayLoseInv | controllers/postgresrestore_controller.go:153-186 | also where the exact condition holds: a concrete world in which no script harms the targets and one loses the invariant of the kept runs |
| RestoreReuse.ReusedSlotHidesTarget | controllers/postgresrestore_controller.go:138-157 | from every fresh restore of two instances or more, when an edit of its cluster exchanges one target for a new one, some run ends Completed although the new target never had a job |
| RestoreReuse.ReusedSlotOrphansJob | controllers/postgresrestore_controller.go:153-175 | from every fresh restore, after such an edit some run creates a job that no persisted entry names |
| RestoreReuse.ExchangeGoesWrong | controllers/postgresrestore_controller.go:138-187 | a concrete restore of the instances a and d, a exchanged for b, with both runs |
| Selectors.GetTargetInstances | controllers/postgresrestore_controller.go:192-251 | the loops resolve nil, name, role and label selectors as specified: names in the selector's order with an error for an unknown one, an error for a role without instances, none for labels without |
| SelectorLaws.RestorePicks | controllers/postgresrestore_controller.go:192-251 | stated without the resolver: for each name the first instance that bears it, or an error iff some name is borne by none; else exactly the instances of the role, in order, or an error if there are none; else exactly those whose name and role fit the label selector; else all |
| Selectors.TargetsAlike | controllers/postgresrestore_controller.go:192-251 | resolution reads names and roles only: instances alike in these resolve alike, or both fail |
| Selectors.FindByName | controllers/postgresbackup_controller.go:146-153 | the first instance of that name, or none if there is none |
| Selectors.GetTargetNames | controllers/postgresuser_controller.go:145-194 | the user controller's resolver over the status: names unchecked, an error where role or labels match nothing |
| SelectorLaws.UserPicks | controllers/postgresuser_controller.go:145-194 | the same of the status: names as they are, exactly the entries whose role or labels fit, in order, an error if there are none |
| SelectorAgreement.GatherProjects | controllers/postgrescluster_controller.go:606-642 | whatever its reads return, the status lists the spec's instances in order with role and labels |
| SelectorAgreement.ResolversAgree | controllers/postgresuser_controller.go:145-194 | on that status both resolvers give the same names in the same order, or both fail, if and only if all names given exist and a used label selector matches something |
| SelectorAgreement.PersistedResolversAgree | controllers/postgrescluster_controller.go:606-667 | the same of the status that is persisted, once updateStatus has succeeded |
| SelectorAgreement.OtherLabelsDisagree | controllers/postgresrestore_controller.go:225-246 | a label only the status carries makes the resolvers disagree |
| ClusterController.ClusterReconciler.Reconcile | controllers/postgrescluster_controller.go:42-97 | a pass does to the API server exactly what the Model's pass does, for every script and every choice of map orders, passwords and parseable quantities |
| ClusterController.ClusterReconciler.CreateOrUpdate | internal/k8s/resources.go:15-29 | read, then create, or update at the version read |
| ClusterConvergence.IntentIdempotent | controllers/postgrescluster_controller.go:69-124 | defaulting a spec and giving it its default instance a second time changes nothing, so a spec written back asks for what it asked before |
| ClusterController.ClusterReconciler.ReconcileCluster | controllers/postgrescluster_controller.go:126-151 | the writes issued are the plan's, in order, up to the first error |
| ClusterController.ClusterReconciler.ReconcileSecret | controllers/postgrescluster_controller.go:193-233 | the secret written has the two fixed entries and each distinct user's last drawn password, whatever the order of the map |
| ClusterController.ClusterReconciler.ReconcileInstances | controllers/postgrescluster_controller.go:136-140 | Service and StatefulSet of each instance in list order, stopping at the first error; what they contain is in Converges |
| ClusterController.ClusterReconciler.GatherInstances | controllers/postgrescluster_controller.go:606-642 | statuses, int32 total and primary gathered from what the reads returned |
| ClusterController.ClusterReconciler.ExpectedReplicas | controllers/postgrescluster_controller.go:644-651 | the int32 sum of the desired replicas, nil counting one |
| ClusterController.ClusterReconciler.UpdateStatus | controllers/postgrescluster_controller.go:606-667 | the status sent and its outcome, by two loops over the instances, are the Model's, of which ReportSays says what they persist |
| ClusterHealth.ReportSays | controllers/postgrescluster_controller.go:606-667 | whatever happens meanwhile, a report that is accepted is persisted: name, role, labels, ready replicas and leader of each instance as read, the int32 sum, the version, and Running, Degraded or Pending as the totals compare modulo 2^32 |
| ClusterController.ClusterReconciler.HandleDeletion | controllers/postgrescluster_controller.go:673-727 | each instance's objects, then ConfigMap and Secret, then the finalizer |
| ClusterConvergence.Converges | controllers/postgrescluster_controller.go:42-151 | from any store, after any number of passes failing anywhere, one pass that reaches its end leaves every other object untouched and every managed object as the first spec asks, field by field: each StatefulSet's replicas, cpu, memory, size, access modes, storage class, database and init script are the last such instance's own where given and else the cluster's, nil replicas are one, a replica under HA has the primary host; Services select the instance's pods; the metrics Service likewise |
| ClusterConvergence.PassConverges | controllers/postgrescluster_controller.go:42-151 | the same for a single pass, wherever it stops |
| ClusterContents.IntentMeans | controllers/postgrescluster_controller.go:69-124 | the spec a pass renders: each default where nothing is given, everything else as it was, and one primary with the cluster's own settings where no instance is listed |
| ClusterContents.PassCredentials | controllers/postgrescluster_controller.go:193-233 | a pass that reaches its end leaves the passwords it has drawn: the first for the superuser, the second for replication, and for each user that of its last access entry |
| ClusterHealth.ReadyIsReported | controllers/postgrescluster_controller.go:606-667 | over distinct instance names, once the objects are as the spec asks: if every StatefulSet has as many ready replicas as it is told to have, the next undisturbed pass persists Running; where no instance has replicas to spare and their sum is below 2^32, it does so if and only if |
| ClusterHealth.CalmPassReports | controllers/postgrescluster_controller.go:606-667 | from any store, an undisturbed pass persists for every instance the replicas that were ready when it began, none for a new one, with the sums, the primary and the phase these give |
| ClusterConvergence.ApplyWritesConverges | internal/k8s/resources.go:15-29 | a sequence of upserts leaves the last body of each key and no other object changed |
| ClusterConvergence.PlanRenders | controllers/postgrescluster_controller.go:126-298 | last writer wins: the last instance of each name, except that the metrics Service wins over an instance called metrics |
| ClusterConvergence.SecretDataKeys | controllers/postgrescluster_controller.go:193-233 | the Secret's keys are the two fixed ones and one per distinct access user |
| ClusterConvergence.CalmPassCompletes | controllers/postgrescluster_controller.go:42-97 | from any store an undisturbed pass over a cluster that lists instances does reach its end if passwords can be drawn and all quantities parse |
| ClusterConvergence.TwoCalmPassesComplete | controllers/postgrescluster_controller.go:69-84 | over a cluster without instances two undisturbed passes do: the first gives it its default instance |
| ClusterConvergence.PlanOk | controllers/postgrescluster_controller.go:126-151 | and only then can a pass get through its writes |
| ClusterConvergence.ConfigMapMeaning | controllers/postgrescluster_controller.go:171-191 | after convergence the settings in force are the ones the spec means, whichever orders the maps were ranged in |
| PostgresConf.GeneratePostgresConfig | controllers/postgrescluster_controller.go:171-191 | the text grown by appending is the rendering for the orders in which the maps were ranged |
| PostgresConf.ConfigMeansIntended | controllers/postgrescluster_controller.go:171-191 | read back with the last entry winning, the file means the HA settings overridden by each instance's map in list order, for every order, where for each name the last instance that sets it has one value for it |
| PostgresConf.IndependentIffDecided | controllers/postgrescluster_controller.go:171-191 | that condition is exact, for every HA setting and every list of instances: the meaning is the same for all orders if and only if it holds for every name |
| ClusterDeletion.WritesCoveredByDeletes | controllers/postgrescluster_controller.go:673-727 | over every run in which no instance name leaves the spec, in every world: each object the operator wrote is one its deletion removes, the metrics Service apart, and none but that is left once the cluster is gone |
| ClusterDeletion.PlannedAreDeleted | controllers/postgrescluster_controller.go:126-151 | the keys a pass may write are among those deleted and the metrics Service |
| ClusterDeletion.DeletionLeavesTheRest | controllers/postgrescluster_controller.go:673-727 | what is not on the list of deleted keys outlives the cluster; once deletion has settled, the operator's objects left are exactly those it had that are not on the list; the metrics Service is on it only for an instance called metrics |
| ClusterLeftovers.LeftBehind | controllers/postgrescluster_controller.go:673-727 | from every fresh realizable cluster: one undisturbed pass, then an edit to any spec and deletion; of the objects the first spec asks for exactly those not on the list of the second are left, and the cluster is gone |
| ClusterLeftovers.DepartedInstanceStays | controllers/postgrescluster_controller.go:673-727 | so the StatefulSet and Service of an instance that has left the spec stay, owned |
| ClusterLeftovers.MetricsServiceStays | controllers/postgrescluster_controller.go:142-150 | and so does the metrics Service, edit or not |
| ClusterLeftovers.LeftoversExist | controllers/postgrescluster_controller.go:673-727 | a concrete monitored cluster with both |
| ClusterReport.PhaseIsSound | controllers/postgrescluster_controller.go:652-663 | with no instance above its desired replicas and a sum that fits: Running iff all are ready, Pending iff some are wanted and none is ready, Degraded otherwise |
| ClusterReport.RunningComparesTotals | controllers/postgrescluster_controller.go:652-656 | for all readings, Running iff the totals agree modulo 2^32 |
| ClusterReport.OneMasksAnother | controllers/postgrescluster_controller.go:652-656 | one instance too many and one without replicas: the phase is Running |
| ClusterReport.MaskingSession | controllers/postgrescluster_controller.go:610-656 | wherever both StatefulSets exist, a session in which the pass reads just that and reports Running |
| ClusterReport.GatheredPrimary | controllers/postgrescluster_controller.go:610-642 | the primary a pass records is determined by the list and the readings alone |
| ClusterReport.LastLeaderIsLast | controllers/postgrescluster_controller.go:634-637 | it is the first pod of the last ready primary in list order, or what was recorded before if there is none |
| ClusterPrimary.PrimaryEarned | controllers/postgrescluster_controller.go:606-667 | over every run, in every world, the persisted primary is the initial one or the first pod of an instance listed as primary that had a ready replica before |
| Naming.ResourceNameInjective | controllers/postgrescluster_controller.go:669-671 | within a cluster, distinct instances have distinct resource names |
| Naming.ResourceNameSplits | controllers/postgrescluster_controller.go:669-671 | across clusters too, where instance names contain no hyphen |
| Naming.RestoreJobNameInjective | controllers/postgresrestore_controller.go:144 | within a restore, distinct instances have distinct jobs |
| Naming.RestoreJobNameSplits | controllers/postgresrestore_controller.go:334 | across restores too, where instance names contain no hyphen |
| Naming.HyphensCollide | controllers/postgrescluster_controller.go:669-671 | with a hyphen, two parents share a name |
| Naming.BackupJobNames | internal/postgres/backup.go:48-51 | at most 63 characters, and no two backups of up to 59 characters share a job name |
| Naming.LongBackupsCollide | internal/postgres/backup.go:48-51 | backups that agree on 63 characters share one |
| Naming.JobNameSharedFrom59 | internal/postgres/backup.go:48-51 | some other backup, of any length, has a backup's job name if and only if the name has more than 58 characters |
| ClusterConvergence.MetricsName | controllers/postgrescluster_controller.go:574 | an instance's Service is the metrics Service exactly if the instance is called metrics |
| UserController.UserReconciler.Reconcile | controllers/postgresuser_controller.go:34-116 | a pass does to API server and databases exactly what the Model's pass does |
| UserController.UserReconciler.ReconcilePasswordSecret | controllers/postgresuser_controller.go:247-332 | the secret is checked, left alone or rewritten as in the Model; the change time is set in memory only after a write that was acknowledged; a secret without data panics; StatusTells and RotationReachesDatabases say which secret and entry it is |
| UserController.UserReconciler.ShouldRotatePassword | controllers/postgresuser_controller.go:334-345 | when a rotation is due, with saturating differences and a wrapping product |
| UserController.UserReconciler.ReconcileUserOnInstances | controllers/postgresuser_controller.go:196-245 | one entry per target, errors do not stop the loop |
| UserController.UserReconciler.ConfigureInstance | controllers/postgresuser_controller.go:211-241 | connection, role and limit, in order, up to the first error |
| UserController.UserReconciler.UpdateStatus | controllers/postgresuser_controller.go:413-424 | a new status without entries or change time keeps the old ones |
| UserController.UserReconciler.HandleDeletion | controllers/postgresuser_controller.go:375-411 | roles are dropped as far as possible, the finalizer goes regardless |
| UserRotation.RotationSpaced | controllers/postgresuser_controller.go:247-345 | over every run whose secret-writing passes hear the reply to that write and land their status, unless the user is gone by then, whatever else is lost or fails: in whole seconds successive writes are at least the interval apart while rotation stays enabled, and there is at most one while it stays disabled |
| UserRotation.RunSpaced | controllers/postgresuser_controller.go:247-345 | the same from any state of a run, and for any passes after which the change time persisted is that of their write |
| UserRotation.AcknowledgedRecord | controllers/postgresuser_controller.go:93-107 | a pass that hears the reply to its CreateSecret or UpdateSecret and lands its status write records the moment of that write |
| UserLosses.RecordedIffAcknowledged | controllers/postgresuser_controller.go:291-330 | the exact condition, with rotation off or an hour or more apart: the change time persisted after a pass that wrote the secret is not before the second of its write if and only if the pass heard the reply to the write and landed its status |
| UserLosses.RecordingIffAcknowledged | controllers/postgresuser_controller.go:291-330 | so a run records all its writes if and only if all its passes that write do that, unless the user is gone by then |
| UserLosses.UnrecordedIsRepeated | controllers/postgresuser_controller.go:309-345 | after any pass whose write was not recorded, while the user still generates its password and its interval is not raised, the next undisturbed pass writes again at once |
| UserLosses.LostReplyBreaksSpacing | controllers/postgresuser_controller.go:309-345 | for every user whose password is due, created or rotated, with any targets: a lost reply, or the death of the process before the status, makes two passes write the secret twice at the same moment, whatever the policy |
| UserLosses.HourlyRepeated | controllers/postgresuser_controller.go:309-345 | a concrete user with an hourly rotation to which both happen |
| UserLosses.BareSecretPanics | controllers/postgresuser_controller.go:314-322 | where a password is due and the generated secret is there without data, an undisturbed pass ends in the panic on the nil map: nothing is written, no status either |
| UserPass.PassWrites | controllers/postgresuser_controller.go:34-116 | a pass writes the secret at most once, and only when the persisted change time and the policy allow it |
| UserRotation.ChangeTimeMovesForward | controllers/postgresuser_controller.go:413-424 | over every run, in every world and whatever fails, the persisted change time never decreases and is never unset |
| UserRotation.RetriesKeepSecret | controllers/postgresuser_controller.go:91-115 | until rotation is next due, any number of failing passes leave the secret as it is |
| UserHistory.IntervalExact | controllers/postgresuser_controller.go:343 | interval times hour is exact in int64 iff the interval is at most 2562047 hours in size, so within the 2048 of the resource definition |
| UserRotation.DueFromTheSecond | controllers/postgresuser_controller.go:334-345 | a rotation is due exactly from the second of the write plus the interval on; the gap to the write can fall short by less than a second |
| UserInstances.SuccessConfigures | controllers/postgresuser_controller.go:91-115 | a pass that succeeds records exactly one Ready entry per target in order, and every target's database then holds the limit and the user's password: the entry named by the secretRef, "password" if it names none, of the secret it names in the user's namespace, or without a secretRef the entry "password" of the user's own; with no target it keeps the entries it found |
| UserInstances.StatusTells | controllers/postgresuser_controller.go:34-116 | whatever fails, a status that lands agrees with the databases: Ready has every target configured with that password, Failed keeps the entries or tells, in order, the targets configured from those that are not |
| UserSecrets.RotationReachesDatabases | controllers/postgresuser_controller.go:290-330 | a pass that has replaced the generated secret and succeeds leaves the password drawn under "password" in it, every other entry and secret as it was, and every target's role with that password |
| UserOutcomes.PassRecordsExactly | controllers/postgresuser_controller.go:196-245 | undisturbed and with no rotation due: an entry is recorded ready if and only if the credentials and the database are there and neither name nor password is empty, and the user is Ready if and only if it has a password and all targets are |
| UserInstances.FanoutReports | controllers/postgresuser_controller.go:206-244 | whatever fails, every target is reported once in order, and each one reported ready holds the password at the end of the loop |
| UserInstances.DeletionDropsReady | controllers/postgresuser_controller.go:375-411 | undisturbed deletion, for every database: a role survives exactly if it was there and not on an instance recorded ready of a user recorded Ready whose cluster and credentials can be read; the user is removed either way |
| BackupJobs.CreateBackupJob | internal/postgres/backup.go:38-196 | the job, grown by appends and map assignments, or the error, is the Model's, of which BackupReadsInstance says which server and database it reads |
| JobContents.BackupReadsInstance | internal/postgres/backup.go:38-196 | every job built, dump or base backup, has as host the Service of the instance chosen in the cluster's namespace, or the recorded primary where none is, or the Service of "primary" where none is recorded; its database, flags, settings, environment, labels and claim are spelled out |
| JobContents.BackupBuiltIff | internal/postgres/backup.go:38-47 | it is built if and only if a claim is configured and the kind is known |
| JobContents.BackupMeetsRestore | internal/postgres/backup.go:55-61 | the word after "-h" is the POSTGRES_HOST of every logical restore into the same instance |
| JobContents.ReportedIsRead | controllers/postgresbackup_controller.go:171-189 | the instance whose server is on the command line is the one the status reports; without one the report says "primary" |
| BackupController.GetTargetInstance | controllers/postgresbackup_controller.go:126-144 | no instance for a cluster without any, "primary" where none is named, else the first name that is known |
| SelectorLaws.BackupPicks | controllers/postgresbackup_controller.go:126-153 | a backup takes the first instance that bears the first of the names that is borne at all, the name being "primary" where none is given; none for a cluster without instances |
| BackupController.BackupObject.UpdateBackupStatus | controllers/postgresbackup_controller.go:171-204 | the status after a look at the job, field by field |
| JobContents.StatusReadsJob | controllers/postgresbackup_controller.go:171-204 | phase, start and completion time follow the job's report, kept where it has nothing new; database, source and settings are the target's own or the cluster's |
| BackupAgreement.NormalizeIdempotent | internal/postgres/backup.go:27-36 | a normalized type stays as it is; case and surrounding space do not matter |
| BackupTypes.NormalizeMeans | internal/postgres/backup.go:27-36 | the normal form is what stands between the surrounding space, in small letters, with "physical" for nothing and for "full" |
| BackupAgreement.BuildersAgree | internal/postgres/backup.go:63-112 | for every type the backup builder accepts it iff the restore builder does, and dumps meet pg_restore, base backups a copy |
| BackupAgreement.DefaultsKeepKind | controllers/postgresbackup_controller.go:88-101 | defaulting never changes the kind and is idempotent |
| BackupAgreement.DumpedIsReported | controllers/postgresbackup_controller.go:171-189 | the database named on pg_dump's command line is the one the status reports, for every input |
| BackupAgreement.DumpedIsRestored | internal/postgres/restore.go:21-26 | the database dumped is the one restored iff a named override settles it, or no override and a named cluster database, or the cluster's is "postgres" |
| BackupAgreement.CommandsAgree | internal/postgres/restore.go:21-45 | the same, of the two command lines |
| BackupAgreement.FirstKnownIsFirst | controllers/postgresbackup_controller.go:135-141 | the instance taken is the first known one in the order of the names |
| BackupAgreement.BackupTakesFirstTarget | controllers/postgresbackup_controller.go:126-144 | with the same list of known names a backup takes the restore's first target |
| BackupAgreement.JobsReadAlike | controllers/postgresbackup_controller.go:185-204 | backup and restore read the same state off a job unless it is idle |
| DeepCopy.DeepCopyCluster | api/v1/zz_generated.deepcopy.go:462-486 | the copy is value-equal, nil and empty apart, all its cells are new, and the source means what it meant, whatever it shares with itself |
| DeepCopy.CopyInstance | api/v1/zz_generated.deepcopy.go:519-548 | the same for an instance with its pointers and map |
| DeepCopy.CopyDatabase | api/v1/zz_generated.deepcopy.go:133-149 | the same for a database with its map and accesses |
| DeepCopy.CopyAccess | api/v1/zz_generated.deepcopy.go:85-99 | the same for an access with its privileges and schemas |
| DeepCopy.CopyWithDefault | controllers/postgrescluster_controller.go:69-79 | the default instance, which points into its own spec, is copied like any other |

## Left out

- Messages, log texts, and start and update times that no code reads back; times of the restore and its jobs are kept.
- Conditions: each status write of the restore controller stamps them with the time, so that in fact even a pass that finds nothing new raises the resource version.
- RestoreProgress.SecondPassChangesNothing: says nothing of the resource version, for that reason.
- Owner references, garbage collection through them, and stale informer caches: a read sees what the server holds.
- Admission rules of the API server, such as immutable fields of Jobs and StatefulSets; immutable updates would be refusals.
- Removal of a finalizer by anyone but the operator, and an object of the same name created again after it is gone.
- Namespaces of the objects a cluster or restore creates: each has its own, as the code uses no other.
- Probes, security contexts, ports and volumes of the pod template that depend on nothing; S3 and shell text beyond what selects it.
- resource.ParseQuantity is a set of accepted texts; GeneratePassword an oracle that may fail; syntax rules for label keys and values are not checked.
- SQL: setting a role's password, its limit, and dropping it are single requests to a map of roles; a failing GRANT after the password has been set is a lost reply; which privileges are granted is not modelled.
- Letters outside ASCII whose lower-case form is outside ASCII: they decide no dispatch.
- Lines of postgresql.conf that PostgreSQL treats specially, include directives and quoting; names with blanks or line breaks are excluded from the theorems on its meaning.
- The backup controller's own passes: its builder, target, defaults and status are modelled, its calls of the API server are those of the others.
- Copies of types outside the cluster spec's tree: they repeat the patterns modelled.
- ListBackups, DeleteBackup, CreateBackupPVC, retention, encryption, schedules and time limits, wiring, RBAC and manifests, except the bound on the rotation interval.
