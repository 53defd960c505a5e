# A verified model of the PeerDB operator

The PeerDB operator reconciles a `PeerDBCluster` and its worker and snapshot pools. Its hardest part is the
upgrade protocol: a persisted machine of ten phases, driven one `Reconcile` at a time against a shared API server,
while Jobs fail, Deployments roll out, users edit the spec, an autoscaler scales, status writes are lost and the
operator crashes. This project models that protocol, the two pool controllers beside it and the smaller algorithms
they use, and proves what holds over every run.

## How it is built

- `Model.dfy` holds the objects and everything the outside world may do to them. `ClusterMachine.dfy` is the cluster
  controller as a state machine. One transition is **one API call** with the local computation up to the next call,
  so outside events, failing calls and crashes fit between any two calls. `Exec(s, acts)` is the state after any
  sequence of acts, and theorems about runs are for all `acts`.
- `Reconciler.dfy` is the same controller in the form of the source: a class with the working status as fields, API
  calls, error returns and loops. Each method is proved to make exactly the machine's transitions. `PoolReconciler.dfy`
  does this for the pool controllers against the machine of `Pools.dfy`.
- `Reconcile.dfy` proves what holds at every program point of a reconcile. `PhaseGraph.dfy`, `Guarantees.dfy`,
  `Outcome.dfy`, `Writes.dfy`, `Jobs.dfy`, `Components.dfy`, `Progress.dfy`, `Completion.dfy` and `Pools.dfy` build the
  theorems over runs on it.
  `Witness.dfy` constructs the runs behind the findings below, each from a fresh cluster.
- `ConfigHash.dfy`, `Versions.dfy`, `MaintenanceWindow.dfy`, `LiveObject.dfy`, `JobNames.dfy` and `JobConditions.dfy` are
  the smaller algorithms.

## What the proofs found

- **The rollout order of docs/runbooks/safe-upgrade.md:70-80 is not the order of `Reconcile`.** A reconcile that
  advances the phase returns a zero `RequeueAfter` and falls through into standard reconciliation. Every unfenced
  reconcile that reaches its end without conflict has all three Deployments at the version it read (`FallThrough`),
  also the one that has only just entered StartMaintenance (`FreshRunWritesBeforeMaintenance`). The promised order
  holds of the driver alone: it works on a component only after the phases before it were persisted (`DriverOrder`), and
  while the upgrade is held in a phase, only that phase's objects are written (`WriteSets`).
- **A swallowed conflict can leave a component behind.** A rolled-out phase is left on an old template exactly when the
  driver's update met a conflict (`LeavingAComponent`), and that happens (`FreshRunLeavesOldTemplate`).
- **Blocked needs a race.** A failed init job is deleted before the failure check looks at it, so an upgrade is blocked
  only by a job that fails between the blocking reconcile's own two looks at it (`BlockedNeedsARace`, `FreshRunBlocks`).
  The dependency gate in Waiting cannot block it at all.
- **A second record may open after the last version edit**, but only if a reconcile that had read an older version was
  in flight then (`FewRecordsOpen`, `FreshRunOpensTwoRecords`).
- **An advance without requeue is not lost**: it has changed the persisted record, and that write wakes the controller
  (`ClusterReconciler.Reconcile`).
- The pool controllers hash a different text while they cannot read the catalog secret (`ControllersAgree`).
- A pool reconcile that began before autoscaling was switched on can overwrite the autoscaler's replicas once
  (`StaleReadOverwrites`); any other cannot (`AutoscalerWins`).
- Versions that differ only in `.` against `-` share their Jobs (`SanitizeConfuses`, `SanitizeCollision`).
- Config values with a newline can imitate another entry in the hashed text (`TextCollision`).
- The comment in api/v1alpha1/version_skew.go speaks of the tag after the last colon; the code takes what follows the
  first colon, and so does the model.

## Assumptions

- A read returns the current object, so the operator sees its own writes.
- A Job never reports both Complete and Failed. What it reports besides is arbitrary; the loops over its conditions are in
  `JobConditions`, and the methods call them.
- There is one cluster worker, and one pool is never reconciled twice at a time.
- The digest is left out: the config hash is the hashed text. The time zone is a fixed offset in minutes.
- A failing call fails without effect. A call that took effect but whose answer was lost is a crash right after it.
- A conflict on the update of a ServiceAccount, ConfigMap or Service counts as a failing call, as the source returns it.

## Model

| member | source | states |
|---|---|---|
| `Reconciler.ClusterReconciler.Reconcile` | internal/controller/peerdbcluster_controller.go:64-147 | one reconcile is a start and then API calls of the machine until idle, with anything happening in between; a paused cluster costs exactly one call, a status write with Ready false, and nothing else changes; without error and requeue the cluster is paused or persisted as Ready, and an upgrade left unfinished (and not fenced) has a record different from the one read, so the status write itself wakes the controller; whoever is delayed is called again within a minute |
| `Reconciler.ClusterReconciler.Serve` | internal/controller/peerdbcluster_controller.go:1155-1172 | any number of reconciles of the one worker leaves coherent conditions and a trail of records that follows the phase graph |
| `Reconciler.ClusterReconciler.StandardReconciliation` | internal/controller/peerdbcluster_controller.go:122-147 | the machine's standard pass to its end; unless it meets a conflict the working record is persisted, and the result is Done exactly when Ready is persisted as true, else ten seconds |
| `Reconciler.ClusterReconciler.PersistFinal` | internal/controller/peerdbcluster_controller.go:135-147 | the same for the end alone; the error is that of the last call, and a conflict is a requeue, no error |
| `Reconciler.ClusterReconciler.PersistHeld` | internal/controller/peerdbcluster_controller.go:270-279 | a held reconcile keeps its delay, unless a conflict turns it into a requeue; the error is that of the last call |
| `Reconciler.ClusterReconciler.ReconcilePaused` | internal/controller/peerdbcluster_controller.go:150-168 | a paused cluster gets one call, a status write with Ready false; no other object changes |
| `Reconciler.ClusterReconciler.ReconcileDependencies` | internal/controller/peerdbcluster_controller.go:171-218 | an unreadable secret ends the reconcile with an empty hash and CatalogReady and Ready persisted as false; otherwise the hash is the cluster's config text for the secret read and exactly both dependency conditions turn true |
| `Reconciler.ClusterReconciler.ReconcileUpgradeLifecycle` | internal/controller/peerdbcluster_controller.go:222-281 | follows the machine's lifecycle; if it does not end the reconcile, an unfinished upgrade that is not fenced has a record other than the one read |
| `Reconciler.ClusterReconciler.ReconcileInitJobsAndStatus` | internal/controller/peerdbcluster_controller.go:283-312 | fenced: no call is made and init counts as ready; else the init jobs are reconciled; Initialized says which |
| `Reconciler.ClusterReconciler.ReconcileComponentsAndStatus` | internal/controller/peerdbcluster_controller.go:314-383 | fenced: a read-only health loop; else the three components in order; ends in the machine's final step with ComponentsReady set |
| `Reconciler.ClusterReconciler.SetFinalConditions` | internal/controller/peerdbcluster_controller.go:385-444 | Ready, BackupSafe and Reconciling as functions of readiness, fence and record |
| `Reconciler.ClusterReconciler.ReconcileUpgrade` | internal/controller/peerdbcluster_controller.go:454-528 | makes the machine's driver step for the phase; held, the record is as it was, or Waiting or InitJobs became Blocked, with a delay of 10, 30 or 60 seconds by phase; otherwise the same record is in another phase |
| `Reconciler.ClusterReconciler.UpgradePhaseWaiting` | internal/controller/peerdbcluster_controller.go:530-586 | policy, window and dependencies decide between holding, blocking and advancing, as the machine does; the answer is sixty seconds exactly when the policy is automatic and the window closed, any other delay thirty |
| `Reconciler.ClusterReconciler.UpgradePhaseBlocked` | internal/controller/peerdbcluster_controller.go:588-620 | back to Waiting when the dependencies are healthy |
| `Reconciler.ClusterReconciler.UpgradePhaseInitJobs` | internal/controller/peerdbcluster_controller.go:622-684 | advances when all enabled jobs are complete, else looks for failures and holds or blocks |
| `Reconciler.ClusterReconciler.AnyInitJobFailed` | internal/controller/peerdbcluster_controller.go:631-649 | the two failure looks in order; the second is skipped after a hit, and a failing look reads as not failed |
| `Reconciler.ClusterReconciler.UpgradePhaseComponent` | internal/controller/peerdbcluster_controller.go:686-744 | writes the component, reads it back and leaves the phase only when it is rolled out |
| `Reconciler.ClusterReconciler.UpgradePhaseMaintenanceJob` | internal/controller/peerdbcluster_controller.go:748-861 | creates, retries or waits for the job, and advances when it is complete |
| `Reconciler.ClusterReconciler.MaintenanceJobCompleted` | internal/controller/peerdbcluster_controller.go:792-834 | the start job turns MaintenanceMode on and leads to Config; the end job turns it off and completes the record |
| `Reconciler.ClusterReconciler.IsJobFailed` | internal/controller/peerdbcluster_controller.go:863-877 | true exactly on a job read as failed |
| `Reconciler.ClusterReconciler.UpdateStatus` | internal/controller/peerdbcluster_controller.go:879-891 | on success the persisted status is the working one, written or found equal; a conflict or error ends the reconcile |
| `Reconciler.ClusterReconciler.ReconcilePlain` | internal/controller/peerdbcluster_controller.go:893-936 | without error the ServiceAccount, ConfigMap or Service is in the store with the desired content, created, updated or left |
| `Reconciler.ClusterReconciler.ReconcileConfig` | internal/controller/peerdbcluster_controller.go:104-115 | without error the ConfigMap holds the spec's configuration |
| `Reconciler.ClusterReconciler.ReconcileInitJobs` | internal/controller/peerdbcluster_controller.go:938-960 | visits the enabled jobs in order and reports readiness |
| `Reconciler.ClusterReconciler.ReconcileJob` | internal/controller/peerdbcluster_controller.go:962-999 | create when absent, delete when failed, ready only when complete |
| `Reconciler.ClusterReconciler.ReconcileDeploymentAndService` | internal/controller/peerdbcluster_controller.go:1001-1012 | Deployment, then Service, which without error has the spec's content, then the machine's next component or rollout check |
| `Reconciler.ClusterReconciler.ReconcileDeployment` | internal/controller/peerdbcluster_controller.go:1014-1075 | merges into the live object, writes only a real change under the version read, and goes on after a conflict |
| `Reconciler.ClusterReconciler.UpdateDeployment` | internal/controller/peerdbcluster_controller.go:1065-1073 | the version-checked update: on success the stored spec is the merged one with the desired labels, on conflict nothing is written |
| `Reconciler.ClusterReconciler.WriteStatusAt` | internal/controller/peerdbcluster_controller.go:890-890 | the version-checked status write |
| `ReconcileFacts.StepFacts` | internal/controller/peerdbcluster_controller.go:454-861 | every API call of every reconcile keeps the facts of its program point: how record, conditions, history and writes relate to the cluster as read |
| `ReconcileFacts.StatusWrites` | internal/controller/peerdbcluster_controller.go:879-891 | only a status write changes the cluster, and it writes the working status |
| `ReconcileFacts.ApplyInv` | internal/controller/peerdbcluster_controller.go:64-147 | every act keeps the invariant, and the persisted status changes only by a version-checked write of a reconcile that had read the status it replaces |
| `ReconcileFacts.ExecInv` | internal/controller/peerdbcluster_controller.go:64-147 | the invariant holds after every run |
| `Outcome.PausedIsLeftAlone` | internal/controller/peerdbcluster_controller.go:84-86 | over every run, a reconcile that read spec.paused makes one call, which changes no object and of the cluster only the status: Ready false, the record kept |
| `Outcome.Readiness` | internal/controller/peerdbcluster_controller.go:288-381 | at the end of every reconcile components count as ready exactly when its own look at each found the Deployment with all pods ready, and init exactly when its own look at each init job that is not switched off found it succeeded; fenced, init counts as ready unseen |
| `Outcome.PersistedStatus` | internal/controller/peerdbcluster_controller.go:385-451 | every status ever persisted replaces the one read, carries the generation read, and all its conditions are told from those read and from what the reconcile's own calls found: paused, without the secret, held in each phase, or at the end |
| `Outcome.FailureCheck` | internal/controller/peerdbcluster_controller.go:631-669 | a reconcile held in InitJobs persists Blocked exactly when one of its own looks came through and found a job of the version failed; otherwise it has looked at every init job that is not switched off |
| `Writes.NewRecords` | internal/controller/peerdbcluster_controller.go:230-264 | with no record the version in force counts as complete; a record opens from a completed one towards the version read, stamped with a moment of that reconcile; otherwise only the phase changes |
| `Writes.StatusOverWhatWasRead` | internal/controller/peerdbcluster_controller.go:879-891 | over every run, updateStatus writes only over the cluster object it had just read |
| `Writes.DeploymentOverWhatWasRead` | internal/controller/peerdbcluster_controller.go:1065-1073 | over every run, a call changes an existing Deployment only when it is in every field the one the reconcile read, and then only labels and managed fields |
| `Writes.ErrorsEnd` | internal/controller/peerdbcluster_controller.go:998-999 | a failing call, a create that meets an existing object and an update or read-back that meets none end the reconcile and change nothing |
| `PhaseGraph.FactsGiveEdge` | internal/controller/peerdbcluster_controller.go:222-281 | what a reconcile persists is at most one edge of the phase graph away from what it read |
| `PhaseGraph.ApplyEdge` | internal/controller/peerdbcluster_controller.go:454-528 | no act moves the persisted record by more than one edge |
| `PhaseGraph.RunsFollowTheGraph` | internal/controller/peerdbcluster_controller.go:454-620 | over every run, with crashes and lost writes, the persisted records follow the graph; the only way back is InitJobs, Blocked, Waiting |
| `PhaseGraph.PhaseBefore` | internal/controller/peerdbcluster_controller.go:467-525 | a rollout phase is entered only from the phase before it within the same record |
| `PhaseGraph.CompleteComesLast` | internal/controller/peerdbcluster_controller.go:467-525 | Complete comes only after Config, InitJobs, FlowAPI, PeerDBServer and UI, in that order |
| `PhaseGraph.UpgradeOrder` | internal/controller/peerdbcluster_controller.go:454-528 | the same for the records any run persists |
| `PhaseGraph.RecordIsFixed` | internal/controller/peerdbcluster_controller.go:242-264 | from, to and start of a record never change until the next opens |
| `PhaseGraph.RecordsChain` | internal/controller/peerdbcluster_controller.go:245-252 | a record starts from the version the previous one went to, and goes elsewhere |
| `PhaseGraph.BudgetDecreases` | internal/controller/peerdbcluster_controller.go:230-264 | with the version fixed, opening a record spends the budget |
| `PhaseGraph.FewRecordsOpen` | internal/controller/peerdbcluster_controller.go:230-264 | after the last version edit at most one more record opens, two only if a reconcile that read another version was in flight, none if the record already goes there |
| `PhaseGraph.QuietMeansUpToDate` | internal/controller/peerdbcluster_controller.go:242-264 | a reconcile that leaves a completed record alone found it at spec.version |
| `Guarantees.ConditionsCohere` | internal/controller/peerdbcluster_controller.go:411-436 | in every persisted status UpgradeInProgress is True exactly while a record is unfinished, and BackupSafe is never True in an unfinished phase other than Waiting |
| `Guarantees.StepLogs` | internal/controller/peerdbcluster_controller.go:893-1103 | every Deployment, Job, Service, ConfigMap or ServiceAccount that a call creates, changes or deletes in the store is in the reconcile's log, and the log only grows |
| `Guarantees.ChangesAreLogged` | internal/controller/peerdbcluster_controller.go:64-147 | what a reconcile in flight changed by any of its calls is in its log ever after |
| `Guarantees.GateGuards` | internal/controller/peerdbcluster_controller.go:530-586 | when a reconcile that read Waiting, or Complete with a changed version, changes a Deployment, Service or Job in the store or persists a later phase, then policy and window were open at a named moment since it began |
| `Guarantees.LaterPhasesIgnoreTheGate` | internal/controller/peerdbcluster_controller.go:467-525 | in every other phase the driver does the same whatever policy, window and clock |
| `Guarantees.MaintenanceBracket` | internal/controller/peerdbcluster_controller.go:748-861 | with maintenance configured throughout, MaintenanceMode is True from Config to EndMaintenance and in Blocked, and not True outside an upgrade |
| `Guarantees.MaintainedStep` | internal/controller/peerdbcluster_controller.go:792-834 | with maintenance configured, Config is entered from StartMaintenance and Complete from EndMaintenance, each by a reconcile that read its job complete |
| `Guarantees.MaintenanceJobsRan` | internal/controller/peerdbcluster_controller.go:507-525 | with maintenance configured throughout, a record completes only after a reconcile read the start job complete and a later one the end job |
| `Guarantees.NoMaintenanceNoJobs` | internal/controller/peerdbcluster_controller.go:575-585 | while maintenance is never configured, no maintenance job is created and no maintenance phase entered |
| `Guarantees.WriteSets` | internal/controller/peerdbcluster_controller.go:266-280 | whatever a reconcile that ends up held in a phase changed in the store by any call is the ServiceAccount, the ConfigMap or one of that phase's objects; for a fenced one only those two |
| `Guarantees.DriverWritesInPhase` | internal/controller/peerdbcluster_controller.go:491-518 | while the driver works on a component, the persisted phase is that component's and no fence was read |
| `Guarantees.DriverOrder` | docs/runbooks/safe-upgrade.md:70-80 | while the driver works on a component, the record in progress has persisted Config, InitJobs and the phase of every earlier component, in that order |
| `Guarantees.MaintainedDriverOrder` | docs/runbooks/safe-upgrade.md:70-80 | with maintenance configured throughout, a reconcile had moreover read the start job complete before Config |
| `Jobs.SuccessIsFinal` | internal/controller/peerdbcluster_controller.go:962-999 | a job that succeeded is never deleted or replaced by the operator, over every run |
| `Jobs.InitJobsStayDone` | internal/controller/peerdbcluster_controller.go:622-684 | after any beginning of a run, from the moment version and init section have their last value (and no rollout is under way with jobs undone): in FlowAPI and every later phase each init job is complete unless section and switch are present and say false |
| `Jobs.CreatedJobs` | internal/controller/peerdbcluster_controller.go:938-960 | over every run, a job that appears by a call is of the version read, and an init job not switched off or the maintenance job of the phase |
| `Jobs.FailureInFlight` | internal/controller/peerdbcluster_controller.go:631-649 | a job the driver has visited is failed, or Blocked about to be persisted, only if in this very reconcile the job failed after it was visited |
| `Jobs.BlockedNeedsARace` | internal/controller/peerdbcluster_controller.go:622-669 | whenever an upgrade is found blocked, the reconcile that persisted it had read it unblocked, and an enabled init job failed while it was in flight, between its two looks at that job |
| `Jobs.CalmRunsNeverBlock` | internal/controller/peerdbcluster_controller.go:622-669 | hence a run in which no job fails while a reconcile is in flight never blocks |
| `Components.RolloutMoves` | internal/controller/peerdbcluster_controller.go:701-743 | the read-back moves the record, to the next component, EndMaintenance or Complete, exactly when the Deployment exists, its last change was observed, and as many pods as the spec wants (one by default) are updated and as many available |
| `Components.LeavingAComponent` | internal/controller/peerdbcluster_controller.go:686-744 | the same over every run, with the counters and the wanted replicas spelled out; if nobody else edited the Deployment since the reconcile began, its managed fields are then the built ones exactly when the driver's update met no conflict |
| `Components.ChangedMeansNotRolledOut` | internal/controller/peerdbcluster_controller.go:1106-1110 | a Deployment the driver just changed never looks rolled out before the Deployment controller reports on it |
| `Components.FallThrough` | internal/controller/peerdbcluster_controller.go:117-131 | an unfenced reconcile at its end has moved to the successor phase, and a Deployment nobody else edited since it began is up to date exactly when its standard update met no conflict |
| `Components.CurrentShows` | internal/controller/peerdbcluster_controller.go:1034-1063 | an up-to-date Deployment shows, component by component and in literal terms, the replicas, labels, service account, config hash and first container the spec asks for |
| `Components.BuiltShows` | internal/resources/flow_api.go:15-75 | so does a Deployment just created, in one container |
| `Components.PlainShows` | internal/resources/configmap.go:20-35 | which content each ConfigMap, Service and ServiceAccount gets |
| `Components.BuiltIsCurrent` | internal/controller/peerdbcluster_controller.go:1021-1024 | a Deployment just created needs no update |
| `Progress.PotentialBound` | internal/controller/peerdbcluster_controller.go:454-861 | every completed reconcile of an upgrade that reaches its end, or is held without an unfinished job or rollout, is paid for by a potential that only job failures refill |
| `Progress.BoundedProgress` | internal/controller/peerdbcluster_controller.go:454-999 | with version fixed, gates open and F job failures, at most 31 + 7F reconciles of an upgrade complete without being held by an unfinished job or rollout, in every interleaving with crashes and lost writes |
| `Progress.CompleteIsReached` | internal/controller/peerdbcluster_controller.go:454-999 | a run with more such reconciles than that has found the record Complete at spec.version |
| `Completion.StepProceeds` | internal/controller/peerdbcluster_controller.go:64-147 | every successful call of an undisturbed reconcile that finds nothing unfinished lowers a rank, so it comes to its end, with its status persisted |
| `Completion.CanComplete` | internal/controller/peerdbcluster_controller.go:454-861 | from every idle state with the invariant, not paused or fenced, with a readable secret and an open gate, whatever jobs, Deployments, conditions and record are there, a helpful world (calls and jobs succeed, rollouts finish) completes the upgrade |
| `Completion.NoDeadEnds` | internal/controller/peerdbcluster_controller.go:454-861 | hence after every run from a fresh cluster the upgrade to spec.version can still be completed, with or without maintenance and init jobs |
| `Progress.StepWork` | internal/controller/peerdbcluster_controller.go:962-999 | creating or deleting a job is paid for by the rank of the jobs |
| `Progress.PersistedRank` | internal/controller/peerdbcluster_controller.go:467-620 | a persisted record never gains rank except by entering Blocked, and a finished pass over an upgrade lowers it |
| `Pools.PoolStepKeeps` | internal/controller/peerdbworkerpool_controller.go:149-168 | no call of any pool reconcile changes the replicas of a worker whose reconcile in flight read autoscaling enabled |
| `Pools.AutoscalerWins` | internal/controller/peerdbworkerpool_controller.go:127-168 | after any beginning of a run, from a moment at which autoscaling is enabled for the pool and its reconcile in flight, and while it stays enabled, the existing Deployment has in every interleaving the replicas the autoscaler wrote last, or those of that moment |
| `Pools.EndsFitting` | internal/controller/peerdbworkerpool_controller.go:127-168 | a successful call that ends a pool's reconcile, not fenced and not rejected, leaves a workload with the image, hash, template and replicas spelled out from pool, version and configuration read |
| `Pools.StaleReadOverwrites` | internal/controller/peerdbworkerpool_controller.go:151-168 | the condition on the reconcile in flight is needed: one that read the pool before autoscaling was switched on overwrites the autoscaler's value |
| `Pools.FenceHolds` | internal/controller/peerdbworkerpool_controller.go:97-168 | from a state where every reconcile in flight has seen the fence: no controller changes or deletes an existing workload, the cluster controller creates none, the record is frozen |
| `Pools.FenceSafety` | internal/controller/peerdbsnapshotpool_controller.go:98-147 | the same over every run from a fresh cluster, once no reconcile is left that read the cluster before the fence |
| `Pools.ClusterPart` | internal/controller/peerdbcluster_controller.go:64-147 | the cluster controller's part of a run with the pool controllers is a run of its own machine, so its theorems carry over |
| `PoolReconcilers.PoolReconciler.ReconcileWorker` | internal/controller/peerdbworkerpool_controller.go:60-168 | one reconcile is a start and then calls of the pool machine until it ends; without error it leaves an existing Deployment which, unless a fence was read, has the pinned or default image of the version read, the hash of the configuration and secret read, the pool's template and, unless autoscaling is on, its replicas (two by default) |
| `PoolReconcilers.PoolReconciler.ServeWorker` | internal/controller/peerdbworkerpool_controller.go:149-168 | however often the pool is reconciled, from any moment of the history at which autoscaling is enabled and while it stays enabled, the autoscaler's last replicas stand |
| `PoolReconcilers.PoolReconciler.ReconcileSnapshot` | internal/controller/peerdbsnapshotpool_controller.go:61-147 | the same for the snapshot pool with its Service and StatefulSet (one replica by default) |
| `PoolReconcilers.PoolReconciler.ReconcileService` | internal/controller/peerdbsnapshotpool_controller.go:196-210 | the Service is created or updated whatever is there |
| `PoolReconcilers.PoolReconciler.ComputePoolConfigHash` | internal/controller/peerdbsnapshotpool_controller.go:225-233 | the hash is the pool's config text for the secret as the call read it; without one exactly when the call failed or there is none |
| `PoolReconcilers.PoolReconciler.UpdateStatefulSet` | internal/controller/peerdbsnapshotpool_controller.go:235-249 | no call when template and replicas are as desired; otherwise one checked update that stores both and nothing else, or an error that stores nothing |
| `PoolReconcilers.PoolReconciler.UpdateWork` | internal/controller/peerdbworkerpool_controller.go:163-167 | the version-checked update: it stores the object exactly over the version read; a conflict or error changes no workload |
| `Witness.RaceBlocks` | internal/controller/peerdbcluster_controller.go:622-664 | from every state of a simple shape, an init job that fails between the two looks blocks the upgrade |
| `Witness.FreshRunBlocks` | internal/controller/peerdbcluster_controller.go:649-669 | such a run from a fresh cluster |
| `Witness.WritesBeforeMaintenance` | internal/controller/peerdbcluster_controller.go:117-131 | one reconcile opens the record, enters StartMaintenance and writes all three Deployments before a start job exists |
| `Witness.FreshRunWritesBeforeMaintenance` | docs/runbooks/safe-upgrade.md:70-80 | such a run from a fresh cluster, with the images of the new version |
| `Witness.ConflictLeavesOldTemplate` | internal/controller/peerdbcluster_controller.go:1065-1073 | from every state of a simple shape, a conflict on the update lets the upgrade leave FlowAPI on the old template |
| `Witness.FreshRunLeavesOldTemplate` | internal/controller/peerdbcluster_controller.go:1065-1073 | such a run from a fresh cluster, whose secret is rotated in FlowAPI |
| `Witness.CalmReconcile` | internal/controller/peerdbcluster_controller.go:467-525 | from every state with nothing else to do, one undisturbed reconcile persists the successor phase of the same record |
| `Witness.TwoRecordsAfterTheLastEdit` | internal/controller/peerdbcluster_controller.go:242-264 | a reconcile in flight opens a record to the version it had read after the version was edited, and later a second record opens to the edited version: the bound of two is reached |
| `Witness.FreshRunOpensTwoRecords` | internal/controller/peerdbcluster_controller.go:242-264 | such a run from a fresh cluster |
| `LiveObject.MergeIsManagedFrom` | internal/controller/peerdbcluster_controller.go:1034-1063 | the merge is the one spec with managed fields from desired and every other field, annotation and container from live |
| `LiveObject.MergeIdempotent` | internal/controller/peerdbcluster_controller.go:1034-1074 | a second reconcile with the same desired object issues no write |
| `LiveObject.MergeAbsorbs` | internal/controller/peerdbcluster_controller.go:1043-1063 | a later merge absorbs an earlier one exactly when it carries a hash and a container wherever the earlier changed them |
| `LiveObject.LiveDeployment.SetManagedFields` | internal/controller/peerdbcluster_controller.go:1037-1063 | the field assignments on the live object compute the merge |
| `JobConditions.Outcome` | internal/controller/peerdbcluster_controller.go:979-998 | running exactly without a true Complete or Failed; with at most one of them the answer is that one in any order |
| `JobConditions.AnyFailed` | internal/controller/peerdbcluster_controller.go:871-876 | true exactly with a true Failed condition |
| `JobNames.NamesIdentifyJobs` | internal/resources/maintenance_jobs.go:26-26 | for one cluster a name determines family and sanitised version, for all four families |
| `JobNames.InfixesDiffer` | internal/resources/init_jobs.go:16-16 | no two families can build one name, whatever the versions |
| `JobNames.SanitizeConfuses` | internal/resources/hash.go:42-44 | two versions collide exactly when they differ only in '.' against '-' |
| `JobNames.SanitizeInjective` | internal/resources/hash.go:42-44 | versions without '-' never collide |
| `JobNames.SanitizeCollision` | internal/resources/hash.go:42-44 | two versions that share every job name |
| `ConfigHash.ComputeConfigText` | internal/resources/hash.go:14-38 | collecting, sorting and writing in loops gives the specified text, whatever the map iteration order |
| `ConfigHash.CollectKeys` | internal/resources/hash.go:18-21 | lists each key once, in any order |
| `ConfigHash.SortStrings` | internal/resources/hash.go:22-22 | the same keys in sorted order |
| `ConfigHash.WriteSection` | internal/resources/hash.go:17-25 | appends the section's lines |
| `ConfigHash.SortedListingUnique` | internal/resources/hash.go:17-25 | a set has one sorted listing, so iteration order cannot show |
| `ConfigHash.ParseUndoesText` | internal/resources/hash.go:14-35 | a parser recovers both maps exactly when keys have no '=' or newline and values no newline |
| `ConfigHash.TextInjective` | internal/resources/hash.go:14-35 | on such maps equal texts mean equal maps |
| `ConfigHash.TextCollision` | internal/resources/hash.go:23-25 | with a newline in a value two different maps give one text |
| `ConfigHash.ControllersAgree` | internal/controller/peerdbworkerpool_controller.go:113-119 | pool and cluster controller build the same text exactly when the pool controller could read the secret and read the same version of it |
| `Versions.FindIsPreferred` | api/v1alpha1/version_skew.go:26-26 | the matcher finds the leftmost, greedy match of the expression among all matches, or there is none |
| `Versions.CanonicalVersion` | api/v1alpha1/version_skew.go:30-36 | "v" M "." m suffix parses to M.m |
| `Versions.DigitFreePrefix` | api/v1alpha1/version_skew.go:26-36 | a prefix without digits never changes what is found |
| `Versions.ImageOfDigitFreeName` | api/v1alpha1/version_skew.go:40-58 | an image with a digit-free tag prefix parses as its version does |
| `Versions.DefaultImageRoundTrip` | internal/resources/flow_worker.go:27-27 | for every version string the default worker and snapshot images parse to what the version parses to, success or failure |
| `Versions.DefaultImageSkew` | api/v1alpha1/peerdbworkerpool_webhook.go:161-178 | a default worker or snapshot image never skews against its version, and against another exactly when both parse and differ |
| `Versions.PinnedImageSkew` | api/v1alpha1/peerdbworkerpool_webhook.go:161-178 | a pinned image of any name and digit-free tag prefix skews exactly when both versions parse and differ, and the error names both |
| `Versions.UnversionedImage` | api/v1alpha1/version_skew.go:43-51 | an image without a tag, or pinned to a digest, has no version and never skews |
| `Versions.DigestReference` | api/v1alpha1/version_skew.go:41-57 | neither has an image spelled name@sha256:hex |
| `MaintenanceWindow.ParseUndoesFormat` | internal/controller/peerdbcluster_controller.go:1141-1147 | parsing undoes formatting, with or without the hour's leading zero |
| `MaintenanceWindow.ParseAcceptsOnlyTimes` | internal/controller/peerdbcluster_controller.go:1141-1147 | exactly the formatted times parse |
| `MaintenanceWindow.WindowIsAnArc` | internal/controller/peerdbcluster_controller.go:1133-1137 | the two comparisons decide membership in the arc of length (end - start) mod 1440 |
| `MaintenanceWindow.InWindowIsAnArc` | internal/controller/peerdbcluster_controller.go:1113-1138 | the same on an unbounded clock with an offset |
| `MaintenanceWindow.WindowsPartitionTheDay` | internal/controller/peerdbcluster_controller.go:1133-1137 | a window and its exchange partition the day; equal ends never open |
| `MaintenanceWindow.PollingLandsInside` | internal/controller/peerdbcluster_controller.go:545-553 | polling with gaps no longer than the window, any number of polls a minute, lands inside it within a day plus its length |
| `MaintenanceWindow.MinutePollingLandsInside` | internal/controller/peerdbcluster_controller.go:545-553 | looking at least every sixty seconds, as the controller asks for, lands inside every window that is not empty |
| `MaintenanceWindow.UnparsableIsOpen` | internal/controller/peerdbcluster_controller.go:1124-1131 | a window that does not parse never holds an upgrade back |

## Left out

- Condition messages, reasons, timestamps and observed generations, endpoints, events, metrics and logs: no property of their own.
- Deletion of the PeerDBCluster and of pools, owner references and garbage collection.
- Pool status and its requeue intervals; the pool controllers' version-skew event (its decision is `Versions.DefaultImageSkew`).
- SHA-256 and the cut to 16 characters: two texts with one hash are not considered.
- Env, ports, resources and Service content are opaque text; server-side defaulting and label-only drift are left out.
- Webhook defaulting and required-field validation, CRDs, Helm and kustomize files, leader election and rate limits.
- Time-zone lookup and daylight saving: a fixed offset.
- Reconciler.ClusterReconciler.Reconcile: a crash inside the method is an act of the machine only, since a method cannot stop half way.
- Components.LeavingAComponent: assumes that nobody else edits or removes that component's Deployment while the reconcile is in flight, since an edit between update and read-back would be read back too.
- Components.FallThrough: the same assumption.
- Jobs.InitJobsStayDone: assumes that only the operator deletes Jobs, and that the reconcile in flight when version and init section get their last value had read them.
- Progress.BoundedProgress: counts completed reconciles, not time, and assumes that only the operator deletes Jobs; that Jobs, rollouts and calls end at all is the environment's part.
- Progress.CompleteIsReached: the same assumptions.
