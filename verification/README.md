# Cluster API provider KubeVirt: eviction, machine lifecycle and the pieces around them

A Dafny model of the controllers of cluster-api-provider-kubevirt (CAPK) and proofs of what they promise over
whole histories of reconciles. `dafny verify dfyconfig.toml` checks everything.

## What is modelled

- **The eviction protocol** (`Eviction`, `EvictionMachine`, `EvictionPass`, `EvictionRuns`, `EvictionProgress`,
  `EvictionScripts`).
  When KubeVirt evicts a VMI, repeated passes choose between live migration, cordon plus drain, a timed forced
  delete, and the uncordon after the VMI's return. All memory between passes sits in three annotations of the
  KubevirtMachine. `Eviction` gives one pass as functions on values; the class `EvictionMachine.Machine` has the
  source's methods, changing annotations, VMI, Node and clock call by call, and each is proved equal to its
  function. `EvictionScripts` shows that a pass is the execution of a script of calls, read off the world it starts
  in, up to the first call that fails. A history (`EvictionRuns.Run`) interleaves passes with arbitrary changes of the VMI, the Node, the
  clock and other people's annotations.
- **The machine lifecycle** (`Lifecycle`, `LifecycleReconciler`, `LifecycleRuns`, `LifecycleProjections`,
  `LifecycleResults`, `LifecycleProgress`): finalizer, VM create and delete, SSH key fetch, secret-reference defaulting, Ready,
  Provisioned, provider ID, with the eviction pass in the middle. A reconcile runs an eviction pass only if it
  reaches the drain call (`LifecycleProjections.Drains`). `LifecycleProjections.RunProjects` shows that every history
  of the controller is a history of the eviction protocol whose passes are those reconciles, and that whatever they
  have in common its passes have in common; results about runs carry over with their hypotheses.
- **Two rewritings**: the capk user in a cloud-init tree (`CloudInit`), and the VM built from the machine's template
  with its data volumes renamed (`DataVolumes` on values; `VmBuilder` on the heap, where the template's maps, slices
  and pointers are objects the builder could write through).
- **The SSH key pair** of a cluster (`SshKeys`), written once by the cluster controller, whose steps are events of the
  machine controller's histories, and fetched by every machine.
- **Patch paths** (`PatchPaths`): the escaped keys of the `remove` patches.

Every API call ends in one of three ways (`Common.Outcome`): done, refused, or lost, that is, it took effect but the
caller sees an error. An oracle chooses, and also chooses how long the call takes, so the clock moves inside a pass.
The `Audit` part of a world is what the API servers have seen; the protocol never reads it.

## Assumptions

- Passes for one KubevirtMachine are serial and start from a fresh read; between passes anything may change, inside
  a pass only the clock and what the pass itself changes.
- After a successful patch the annotations in memory are the stored ones. The patch may also replace the rest of the
  object in memory by the stored one, or not: both are covered.
- The deferred patch of an object is atomic: it is stored as a whole or not at all. It is taken to leave the
  annotations alone; the source also sends the annotations that differ in memory from the object read at the start,
  which matters only if the last annotation patch of the same pass took effect and reported an error.
- The clock never goes back. A timestamp is printed without its fraction of a second (section 5.6 of RFC 3339) and
  read back as the instant it names; any other text is malformed.
- Merge patches follow section 2 of RFC 7396, `remove` follows section 4.2 of RFC 6902, key escapes follow sections 3
  and 4 of RFC 6901.
- The workload cluster helper of the controller is there; a VM template may be left out, as its CRD allows.
- Only CAPK writes its three annotations, its SSH secret and the modelled fields of its objects.

## Findings

- The comment at `pkg/kubevirt/machine.go:469-471` promises the fallback of a failed migration a timeout window.
  Every pass restarts that window before looking at it, so the timeout never fires: a migratable VMI is deleted only
  after a finished drain or when its Node is missing (`MigratableVmiIsNeverForced`), and for every n some history
  outlasts 2n windows without a delete (`FallbackHasNoTimeBound`).
- The full eviction cycle restores the Node exactly if it was not already cordoned; a cordon that was there before
  is undone (`EvictionCycleRestores`).
- The deadline binds the drain pass, not the controller: a reconcile that finds the VMI not ready or without an
  address returns before the drain call, so an overdue eviction waits as long as that lasts
  (`EvictionWaitsForItsVmi`, and exactly then: `OverdueVmiIsDeletedIff`).
- If the deferred patch of the VM-creating reconcile is lost and the machine is deleted before the next one, the VM
  can be orphaned; `AnOrphanIsPossibleIff` gives the exact condition.
- A reconcile dereferences nil in three places: a provider ID that is missing because `updateNodeProviderID` is also
  reached by passes that wait for bootstrap data, the key secret after a failed last read, and the instance template
  of a VM template without one. `ReconcileCrashesIff` gives the exact condition, `NoReconcileCrashes` the histories
  that exclude the first, and three lemmas reach each crash from a new machine.
- `NodeUpdated` is never reset: a Node that replaces one that got the provider ID never gets it.
  `AReplacedNodeStaysBare` gives such a history, `NodeIsServedIff` the exact condition.
- A cordon can outlive its eviction: if the marker's write is refused and the eviction withdrawn, nothing undoes the
  cordon (`AnUnmarkedCordonIsLeftBehind`). A refused marker and a cordon whose reply is lost are the only causes
  (`CordonsAreConserved`, `QuietPassRestoresTheNode`).
- `addCapkUserToCloudInitConfig` overrides only the first user called capk, and duplicates the `users` key exactly
  if its value is not a list (`UsersKeyIsDuplicatedIff`).
- `FetchPersistedKeysFromSecret` ignores the error of its second read (`FetchCrashesIff`); a secret that holds a
  private key without a public one is never completed (`HalfASecretStaysHalf`).

## Model

| member | source | states |
|---|---|---|
| `EvictionMachine.Machine.constructor` | pkg/kubevirt/machine.go:62-97 | a pass starts from the stored annotations and the VMI as read |
| `EvictionMachine.Machine.CleanupAnnotations` | pkg/kubevirt/machine.go:526-539 | in place, equal to `CleanupMigrationAnnotations`: no call when neither key is present, otherwise one merge patch |
| `EvictionMachine.Machine.SetVmiDeletionGraceTime` | pkg/kubevirt/machine.go:739-750 | in place, equal to `SetGraceTime`: deadline 600 s ahead, cut to whole seconds |
| `EvictionMachine.Machine.DrainGracePeriodExceeded` | pkg/kubevirt/machine.go:720-737 | in place, equal to `GracePeriodExceeded`, including the rewrite of a malformed deadline |
| `EvictionMachine.Machine.CreateVmiMigration` | pkg/kubevirt/machine.go:660-677 | in place, equal to `CreateMigration`: a migration exists unless the create was refused |
| `EvictionMachine.Machine.TryMigrateVmi` | pkg/kubevirt/machine.go:618-687 | in place, equal to `TryMigrate`: migrated, waiting, fallback or error |
| `EvictionMachine.Machine.DrainGuestNode` | pkg/kubevirt/machine.go:757-823 | in place, equal to `DrainNode`: cordon, marker, drain, in that order, each failure with its own result |
| `EvictionMachine.Machine.UncordonIfNeeded` | pkg/kubevirt/machine.go:564-605 | in place, equal to `UncordonNodeIfNeeded` |
| `EvictionMachine.Machine.DeleteInstance` | pkg/kubevirt/machine.go:493-499 | in place, equal to `DeleteVmi` |
| `EvictionMachine.Machine.DrainThenDelete` | pkg/kubevirt/machine.go:477-506 | in place, equal to `DrainAndDelete` |
| `EvictionMachine.Machine.DrainIfNeeded` | pkg/kubevirt/machine.go:434-507 | the whole pass in place, equal to `DrainNodeIfNeeded` |
| `EvictionPass.CleanupLeg` | pkg/kubevirt/machine.go:523-539 | a successful cleanup leaves neither migration marker nor deadline; the cordon marker stays |
| `EvictionPass.GraceLeg` | pkg/kubevirt/machine.go:720-737 | a valid deadline is compared and kept; otherwise a success leaves a valid one and is never "exceeded" |
| `EvictionPass.SubmitLeg` | pkg/kubevirt/machine.go:660-686 | create plus marker keep the migration account balanced under every outcome of both calls |
| `EvictionPass.MigrateLeg` | pkg/kubevirt/machine.go:618-687 | migrated exactly when the VMI left the evacuated host; guest and VMI untouched |
| `EvictionPass.CordonLeg` | pkg/kubevirt/machine.go:804-822 | success means the pods were drained off a cordoned Node whose marker is stored |
| `EvictionPass.DrainLeg` | pkg/kubevirt/machine.go:757-823 | a pass goes on only after a drain or without a Node; a nil workload cluster, and nothing else, crashes it |
| `EvictionPass.UncordonLeg` | pkg/kubevirt/machine.go:579-604 | the marker goes only with the Node schedulable or gone; the `remove` finds its target |
| `EvictionPass.DeleteLegKeeps` | pkg/kubevirt/machine.go:493-506 | exactly one delete call; the `remove` of the deadline finds its target |
| `EvictionPass.DrainAndDeleteLeg` | pkg/kubevirt/machine.go:477-506 | at most one delete, and a justified one; never a zero result |
| `EvictionPass.EvictLeg` | pkg/kubevirt/machine.go:453-506 | a zero result only for a VMI off the evacuated host, with nothing touched |
| `EvictionPass.PassKeeps` | pkg/kubevirt/machine.go:434-507 | from every world: cordon marker written only after a cordon in that pass, removed and Node uncordoned only with the VMI back, deletes justified, foreign annotations, migration account and remove targets kept |
| `EvictionPass.ContinuingPassIsGentle` | pkg/kubevirt/machine.go:434-507 | a pass that lets the reconcile go on issued no delete, cordon or migration |
| `EvictionPass.QuietPassLeavesNothing` | pkg/kubevirt/machine.go:435-451 | quiescence: a zero result with the VMI back leaves none of the three annotations, and a marked Node is schedulable or gone, whatever failed before |
| `EvictionPass.OverduePassDeletes` | pkg/kubevirt/machine.go:477-499 | past the deadline a non-migratable VMI goes straight to the delete call |
| `EvictionPass.TimelyPassDrainsFirst` | pkg/kubevirt/machine.go:477-491 | up to the deadline, and without one, a non-migratable VMI with a Node is deleted only after a drain |
| `EvictionPass.PendingPassKeepsDeadline` | pkg/kubevirt/machine.go:477-503 | a pass over a non-migratable VMI never moves a valid deadline, and drops it only with the VMI being deleted, so not after a refused delete call |
| `EvictionPass.RunningMigrationIsLeftAlone` | pkg/kubevirt/machine.go:634-648 | before its deadline a running migration is not disturbed; the deadline is set by then |
| `EvictionPass.QueuedPassSetsNoDeadline` | pkg/kubevirt/machine.go:652-686 | a queued migration sets no deadline and touches nothing unless the create fails |
| `EvictionRuns.EveryDeleteIsJustified` | pkg/kubevirt/machine.go:434-507 | over every history each VMI delete had an evicted VMI and a drain, a missing Node or a passed deadline; a forced one concerns a non-migratable VMI and comes more than 599 s after its deadline was computed |
| `EvictionRuns.DeadlinesAreWholeSeconds` | pkg/kubevirt/machine.go:739-750 | over every history a stored deadline is the last whole second within 600 s of the clock reading it was computed from |
| `EvictionRuns.RunKeepsAccounts` | pkg/kubevirt/machine.go:509-562 | over every history each JSON Patch `remove` finds its target, and no migration escapes the account |
| `EvictionRuns.MigrationsAreConserved` | pkg/kubevirt/machine.go:652-696 | migrations created = stored marker + markers dropped + creates that could not be marked |
| `EvictionRuns.OneMigrationPerMarker` | pkg/kubevirt/machine.go:652-696 | between two points without a dropped marker or an unmarked create at most one migration is created, none if the marker was stored |
| `EvictionRuns.ForeignAnnotationsAreUntouched` | pkg/kubevirt/machine.go:509-562 | over every history all other annotations are exactly what their owners made them |
| `EvictionRuns.MarkerHoldsUntilReturn` | pkg/kubevirt/machine.go:440-448 | until a pass sees the VMI back: no uncordon call, and a stored marker stays |
| `EvictionRuns.CordonOutlivesTheDelete` | pkg/kubevirt/machine.go:440-448 | from the VMI delete to the VMI's return the Node is not uncordoned, and after a drain the marker is stored throughout |
| `EvictionRuns.CordonsAreConserved` | pkg/kubevirt/machine.go:804-813 | over every history in which nobody else cordons, a cordoned Node has its marker stored, or some cordon took effect whose marker could not be |
| `EvictionRuns.QuietPassRestoresTheNode` | pkg/kubevirt/machine.go:435-451 | so without such a cordon a zero result with the VMI back leaves the Node schedulable or gone |
| `EvictionRuns.UnmarkedCordonStays` | pkg/kubevirt/machine.go:564-567 | a cordon without a marker is undone by no pass until the next eviction |
| `EvictionRuns.AnUnmarkedCordonIsLeftBehind` | pkg/kubevirt/machine.go:804-813 | from a fresh start one refused marker write and a withdrawn eviction leave the Node cordoned |
| `EvictionRuns.DeadlineNeverMoves` | pkg/kubevirt/machine.go:720-750 | under continuous eviction of a non-migratable VMI the first valid deadline stays, however many drains fail and delete calls are refused |
| `EvictionRuns.OverdueVmiIsDeleted` | pkg/kubevirt/machine.go:477-499 | every pass after that whole second, refused deletes before it or not, calls delete and leaves the guest alone; every pass up to it deletes only after a drain, if there is a Node |
| `EvictionRuns.RunningMigrationHasItsWindow` | pkg/kubevirt/machine.go:634-648 | for 599 s no pass creates another migration, cordons, uncordons, deletes or moves the deadline |
| `EvictionRuns.QueueTimeIsNotCharged` | pkg/kubevirt/machine.go:613-617 | however long the migration queue takes, no deadline is set and nothing is deleted |
| `EvictionRuns.MigratableVmiIsNeverForced` | pkg/kubevirt/machine.go:469-499 | over every history a migratable VMI is deleted only in a pass whose drain finished or whose Node is missing |
| `EvictionProgress.HealthyPassFollowsThePlan` | pkg/kubevirt/machine.go:434-507 | a pass in which nothing fails but, maybe, the create of a migration, from any annotations: it goes on, waits, submits, drains and deletes, or deletes at once, as `PlanFor` says, with the whole effect of each |
| `EvictionScripts.PassFollowsItsScript` | pkg/kubevirt/machine.go:434-823 | from every world and for every pattern of failing, lost and slow calls the whole pass, world and result, is the execution of a script of calls read off that world: the calls in order, up to the first that fails, which decides the result |
| `EvictionProgress.HealthyPassSettles` | pkg/kubevirt/machine.go:435-451 | with the VMI back, from any annotations: none of the three left, and a marked Node uncordoned |
| `EvictionProgress.EvictionCycleRestores` | pkg/kubevirt/machine.go:434-605 | round trip, whatever passes and changes lie between the delete and the VMI's return: the others' annotations are as they made them, none of the controller's is left, and a Node nobody else changed is as it was if and only if it was not cordoned before |
| `EvictionProgress.FallbackHasNoTimeBound` | pkg/kubevirt/machine.go:469-491 | for every n a history of n rounds, two windows each, without a delete |
| `EvictionScripts.EveryCallEndsInOneOfThreeWays` | pkg/kubevirt/machine.go:492-750 | each call of a script takes its time and, unless refused, its effect; only a done call succeeds, and only then are the annotations in memory the stored ones |
| `PatchPaths.UnescapeInvertsEscape` | api/v1alpha1/kubevirtcluster_types.go:38-46 | every key comes back from its escaped form |
| `PatchPaths.GraceTokenNamesItsKey` | api/v1alpha1/kubevirtcluster_types.go:39-40 | the hand-escaped deadline key names the deadline annotation |
| `PatchPaths.CordonTokenNamesItsKey` | api/v1alpha1/kubevirtcluster_types.go:45-46 | the hand-escaped cordon key names the cordon annotation |
| `PatchPaths.OwnKeysAreDistinct` | api/v1alpha1/kubevirtcluster_types.go:38-54 | the three keys differ |
| `Annotations.PatchChangesItsKeys` | pkg/kubevirt/machine.go:509-562 | a put writes one key; the others remove exactly the keys they name |
| `Lifecycle.Resolve` | pkg/infracluster/infracluster.go:45-98 | no reference means the management cluster; a reference resolves if and only if its secret exists in the machine's or the controller's namespace, and then to what the kubeconfig says |
| `Lifecycle.VmPlace` | controllers/kubevirtmachine_controller.go:252-260 | the template's namespace wins, otherwise the client's, in the cluster the reference stands for |
| `LifecycleReconciler.Reconciler.PrepareInfra` | controllers/kubevirtmachine_controller.go:204-285 | in place, equal to `Prepare`: each missing prerequisite with its own result |
| `LifecycleReconciler.Reconciler.FetchKeys` | controllers/kubevirtmachine_controller.go:228-239 | in place, through the key class, equal to `FetchNodeKeys`: three reads, the last one unchecked |
| `LifecycleReconciler.Reconciler.LaunchVm` | controllers/kubevirtmachine_controller.go:295-348 | in place, equal to `Launch`: create, readiness and address, including the dereference of a missing instance template |
| `LifecycleReconciler.Reconciler.DrainVm` | controllers/kubevirtmachine_controller.go:350-356 | in place, equal to `Drain`, through the eviction class |
| `LifecycleReconciler.Reconciler.CheckBootstrapped` | controllers/kubevirtmachine_controller.go:358-386 | in place, equal to `CheckBootstrap` |
| `LifecycleReconciler.Reconciler.ReportStatus` | controllers/kubevirtmachine_controller.go:388-439 | in place, equal to `Report` |
| `LifecycleReconciler.Reconciler.FinishPass` | controllers/kubevirtmachine_controller.go:358-463 | in place, equal to `Finish` |
| `LifecycleReconciler.Reconciler.ReconcileNormally` | controllers/kubevirtmachine_controller.go:202-463 | in place, equal to `ReconcileNormal` |
| `LifecycleReconciler.Reconciler.UpdateNode` | controllers/kubevirtmachine_controller.go:474-519 | in place, equal to `UpdateNodeProviderId`, including the dereference |
| `LifecycleReconciler.Reconciler.PatchMachine` | pkg/context/machine_context.go:61-84 | in place, equal to `PatchBack` |
| `LifecycleReconciler.Reconciler.ReconcileDeletion` | controllers/kubevirtmachine_controller.go:521-581 | in place, equal to `ReconcileDelete` |
| `LifecycleReconciler.Reconciler.ReconcileMachine` | controllers/kubevirtmachine_controller.go:76-200 | the whole reconcile in place, equal to `Reconcile` |
| `LifecycleRuns.ProvisionLeg` | controllers/kubevirtmachine_controller.go:204-348 | before the drain only Ready, the defaulted reference and one created VM change; zero exactly without bootstrap data; crashes exactly on lost keys and a missing instance template |
| `LifecycleRuns.FinishLeg` | controllers/kubevirtmachine_controller.go:358-463 | after the drain the latches hold, and a zero result has a provider ID |
| `LifecycleRuns.LiveLeg` | controllers/kubevirtmachine_controller.go:172-200 | what a live reconcile may change, when it crashes, and when Ready may turn true |
| `LifecycleRuns.ReconcileCrashesIff` | controllers/kubevirtmachine_controller.go:172-348 | exactly the reconciles that dereference a missing provider ID, an unread key secret or a missing instance template |
| `LifecycleRuns.NoReconcileCrashes` | controllers/kubevirtmachine_controller.go:474-519 | no history with lasting bootstrap data and a Node only after its VM dereferences a missing provider ID; it crashes exactly on the other two |
| `LifecycleRuns.AnEarlyNodeCrashesTheReconcile` | controllers/kubevirtmachine_controller.go:191-217 | the second reconcile of a new machine whose Node is there before its bootstrap data dereferences the provider ID |
| `LifecycleRuns.AFailedReadCrashesTheReconcile` | controllers/kubevirtmachine_controller.go:230-239 | a plausible history in which one failed read of the key secret crashes the reconcile |
| `LifecycleRuns.AMissingTemplateCrashesTheReconcile` | pkg/kubevirt/utils.go:121-132 | a plausible history in which the create of a VM without instance template crashes |
| `LifecycleRuns.ReadyOnlyAfterAGentlePass` | controllers/kubevirtmachine_controller.go:350-439 | Ready turns true only in a pass without delete, cordon or migration create, with the VMI not evicted or off the host |
| `LifecycleRuns.StatusNeverReverts` | controllers/kubevirtmachine_controller.go:358-519 | over every history provider ID, Provisioned, bootstrap success and NodeUpdated never revert, and Ready implies Provisioned, which implies a provider ID and a bootstrap condition |
| `LifecycleRuns.ProviderIdsTellMachinesApart` | pkg/kubevirt/machine.go:403-412 | provider IDs are equal exactly for machines of one name |
| `LifecycleRuns.NodeUpdatedTellsTheTruth` | controllers/kubevirtmachine_controller.go:474-519 | over every history in which a Node that has the provider ID keeps it, NodeUpdated implies that the Node carries the machine's provider ID, whatever patches were lost |
| `LifecycleRuns.UpdatedNodeKeepsItsId` | controllers/kubevirtmachine_controller.go:474-478 | with NodeUpdated set, no history changes the provider ID of a Node that others leave alone |
| `LifecycleRuns.NoVmIsOrphaned` | controllers/kubevirtmachine_controller.go:243-309 | if creating reconciles are recorded, a VM always has its machine, the finalizer, and a stored reference that leads the delete path to it |
| `LifecycleRuns.SafeRefsNeedNoPatch` | controllers/kubevirtmachine_controller.go:521-565 | the same whatever patches are lost, if defaulting the reference does not move the VM |
| `LifecycleRuns.TheLostPatchOrphans` | controllers/kubevirtmachine_controller.go:243-309 | otherwise a concrete history orphans the VM |
| `LifecycleRuns.AnOrphanIsPossibleIff` | controllers/kubevirtmachine_controller.go:521-565 | an orphan is possible if and only if the machine relies on the cluster's reference and that one moves the VM |
| `LifecycleProjections.ReconcileDrainsIff` | controllers/kubevirtmachine_controller.go:204-356 | a reconcile makes one eviction pass if and only if the prerequisites and the VM are there and the VMI is ready and has an address |
| `LifecycleProjections.ReadyIff` | controllers/kubevirtmachine_controller.go:295-439 | when Ready is stored, exactly, on every path of an equipped reconcile |
| `LifecycleProjections.BootstrapIff` | controllers/kubevirtmachine_controller.go:358-416 | the stored bootstrap condition and known address, exactly: True after a success or if nobody can tell and nobody has said anything, False after a failed check, otherwise kept |
| `LifecycleProjections.ReportedAddressKeepsReady` | controllers/kubevirtmachine_controller.go:333-348 | after a reported internal address Ready survives an empty one |
| `LifecycleResults.LiveReconcileReturns` | controllers/kubevirtmachine_controller.go:172-519 | what a reconcile of a live machine returns: the first of its gates that is closed decides, and an unacknowledged deferred patch turns a requeue into an error |
| `LifecycleResults.LiveReconcileLeaves` | controllers/kubevirtmachine_controller.go:172-519 | what it leaves behind: every field of the machine and of the clusters, from the state before |
| `LifecycleResults.DeletionReturns` | controllers/kubevirtmachine_controller.go:521-581 | what the reconcile of a deleted machine returns |
| `LifecycleResults.DeletionLeaves` | controllers/kubevirtmachine_controller.go:521-581 | the VM goes with a delete that takes effect, the finalizer once the VM is known to be gone, nothing else |
| `LifecycleResults.IdleReconcile` | controllers/kubevirtmachine_controller.go:80-143 | without machine, owner or cluster nothing changes |
| `LifecycleProjections.RunProjects` | controllers/kubevirtmachine_controller.go:350-356 | every history of the controller is a history of the eviction protocol, and what its draining reconciles have in common its passes have in common |
| `LifecycleProjections.EveryControllerDeleteIsJustified` | controllers/kubevirtmachine_controller.go:350-356 | so every VMI delete of the controller is justified and patient |
| `LifecycleProjections.OverdueVmiIsDeletedIff` | controllers/kubevirtmachine_controller.go:311-356 | over every history the deadline does not move; past it a reconcile calls delete if and only if it reaches the drain call, and otherwise leaves the VMI alone |
| `LifecycleProjections.EvictionWaitsForItsVmi` | controllers/kubevirtmachine_controller.go:311-348 | while the VMI is not ready or has no address no history calls delete, cordon, uncordon or migration, and an overdue deadline stays overdue |
| `LifecycleProjections.CordonOutlivesTheControllersDelete` | controllers/kubevirtmachine_controller.go:350-356 | from the controller's VMI delete to the VMI's return no uncordon call, and after a drain the marker is stored throughout |
| `LifecycleProjections.ControllersQueueTimeIsNotCharged` | controllers/kubevirtmachine_controller.go:350-356 | however long the migration queue takes, the controller sets no deadline and deletes nothing |
| `LifecycleProjections.KeysProject` | controllers/kubevirtcluster_controller.go:230-250 | on the SSH keys a history is a run of the key protocol; machine reconciles do not change them |
| `LifecycleProjections.EveryReconcileFetchesThePair` | controllers/kubevirtmachine_controller.go:228-239 | all reconciles of a history fetch the same matched pair |
| `LifecycleProgress.SmoothReconcileCreates` | controllers/kubevirtmachine_controller.go:172-309 | after a reconcile of a claimed machine its VM exists where its reference leads |
| `LifecycleProgress.SmoothReconcileServes` | controllers/kubevirtmachine_controller.go:350-519 | with the VM up one reconcile brings the machine into service; its Node has the provider ID if and only if NodeUpdated was not set or the Node had the ID the machine has or gets |
| `LifecycleProgress.EveryMachineRecovers` | controllers/kubevirtmachine_controller.go:76-519 | from every state of a live machine, three reconciles whose calls succeed bring it into service, and exactly when its Node has the provider ID then |
| `LifecycleProgress.NodeIsServedIff` | controllers/kubevirtmachine_controller.go:474-519 | some history that leaves the Node alone gives it the provider ID if and only if NodeUpdated is not set or the Node has it already |
| `LifecycleProgress.AReplacedNodeStaysBare` | controllers/kubevirtmachine_controller.go:474-519 | a history from a new machine after which a replaced Node never gets the provider ID |
| `LifecycleProgress.DeletionAfterAnyHistory` | controllers/kubevirtmachine_controller.go:521-581 | after every history whose creates were recorded a deletion leaves no VM, and no machine unless the finalizer waits for a reference that leads nowhere |
| `LifecycleProgress.WholeLife` | controllers/kubevirtmachine_controller.go:76-581 | from a new machine to Ready, Provisioned and a Node with the provider ID, and from there to no VM and no machine |
| `CloudInit.UserData.AddCapkUser` | controllers/kubevirtmachine_controller.go:731-803 | in place, nested loops, equal to `Insert`; modified exactly for a cloud-config |
| `CloudInit.FindUsers` | controllers/kubevirtmachine_controller.go:765-771 | the first list under the key users |
| `CloudInit.FindCapk` | controllers/kubevirtmachine_controller.go:785-796 | the first user whose first name field is capk |
| `CloudInit.CapkUserIsSet` | controllers/kubevirtmachine_controller.go:778-799 | the first user called capk is the generated one; all others keep content and place |
| `CloudInit.CapkMayLogIn` | controllers/kubevirtmachine_controller.go:806-823 | after the insertion the first user called capk in the first list of users authorizes exactly the key, with the sudo rule and groups |
| `CloudInit.RecognizedIff` | controllers/kubevirtmachine_controller.go:745-763 | which documents are changed: one non-empty mapping whose first comment has a line that starts with the mark |
| `CloudInit.DocumentIsKept` | controllers/kubevirtmachine_controller.go:731-803 | the document around the sections stays, and so does every other document |
| `CloudInit.InsertTellsKeysApart` | controllers/kubevirtmachine_controller.go:731-803 | two insertions are equal exactly for equal keys |
| `CloudInit.SectionsAreKept` | controllers/kubevirtmachine_controller.go:765-799 | all other sections keep content and place |
| `CloudInit.LastKeyWins` | controllers/kubevirtmachine_controller.go:726-803 | inserting k1 then k2 equals inserting k2 |
| `CloudInit.UsersKeyIsDuplicatedIff` | controllers/kubevirtmachine_controller.go:766-782 | the key users is duplicated if and only if its value was not a list |
| `VmBuilder.PrefixDataVolumeTemplates` | pkg/kubevirt/utils.go:39-68 | in place, writing templates in their slice and names through pointers, equal to `Rename` |
| `VmBuilder.MapCopy` | pkg/kubevirt/utils.go:111-118 | a new map object with equal entries |
| `VmBuilder.CopyVolumes` | pkg/kubevirt/utils.go:142 | a deep copy: equal values, new and pairwise different objects |
| `VmBuilder.BuildLabels` | pkg/kubevirt/utils.go:129-140 | a new map with the given labels, overridden by the controller's four |
| `VmBuilder.NewVirtualMachine` | pkg/kubevirt/utils.go:71-168 | a VM equal to `Built` that consists of new objects only; nothing that was there before is modified |
| `VmBuilder.Create` | pkg/kubevirt/machine.go:180-213 | the VM as sent: `Sent`, made of new objects |
| `VmBuilder.CreateAgain` | pkg/kubevirt/machine.go:180-213 | a retry sends an equal VM that shares no object with the first; the template's objects and contents are unchanged |
| `DataVolumes.SentTemplatesArePrefixed` | pkg/kubevirt/utils.go:105-106 | in the VM that is sent every data volume template is named after the machine and keeps its spec |
| `DataVolumes.MachinesShareNoDataVolume` | pkg/kubevirt/utils.go:35-51 | the VMs of machines with distinct names of equal length have no data volume in common |
| `DataVolumes.SentVolumes` | pkg/kubevirt/utils.go:53-65 | the given volumes with their references to templates prefixed and all else kept; the cloud-init volume, with the machine's secret, and disk last |
| `DataVolumes.SentReferencesArePreserved` | pkg/kubevirt/utils.go:53-65 | in the VM that is sent each reference leads to the templates it named |
| `DataVolumes.SentLabels` | pkg/kubevirt/utils.go:84-103 | the given labels overridden by the controller's six; the annotations as given |
| `DataVolumes.RenamingTwiceDiffersIff` | pkg/kubevirt/utils.go:39-68 | a second prefix shows unless there are no templates, so a build in place could not be retried |
| `DataVolumes.ReferencesArePreserved` | pkg/kubevirt/utils.go:35-68 | each reference keeps exactly its templates, also with repeated names; others keep their text |
| `DataVolumes.ForeignReferenceIsCapturedIff` | pkg/kubevirt/utils.go:53-65 | an outside reference is captured if and only if it is some prefixed template name |
| `DataVolumes.NamesClashIff` | pkg/kubevirt/utils.go:105-106 | data volumes of two machines can clash, with non-empty names, if and only if one name with its separator starts the other |
| `DataVolumes.EqualLengthNamesNeverClash` | pkg/kubevirt/utils.go:35-51 | distinct machine names of equal length never clash |
| `DataVolumes.PrefixIsInjective` | pkg/kubevirt/utils.go:45-51 | within one machine distinct names stay distinct |
| `SshKeys.ClusterNodeSshKeys.GenerateNewKeys` | pkg/ssh/cluster_node_ssh_keys.go:52-60 | both keys from one generation, or none changed |
| `SshKeys.ClusterNodeSshKeys.PersistKeysToSecret` | pkg/ssh/cluster_node_ssh_keys.go:63-107 | a private key that is there is never replaced |
| `SshKeys.ClusterNodeSshKeys.IsPersistedToSecret` | pkg/ssh/cluster_node_ssh_keys.go:110-131 | the named secret can be read and holds both keys |
| `SshKeys.ClusterNodeSshKeys.FetchPersistedKeysFromSecret` | pkg/ssh/cluster_node_ssh_keys.go:136-154 | in place, equal to `FetchKeys` |
| `SshKeys.ClusterNodeSshKeys.GenerateAndPersist` | controllers/kubevirtcluster_controller.go:230-250 | in place, equal to `ReconcileKeys`: the name is recorded only after a successful persist; success exactly if the keys were or are now persisted |
| `SshKeys.ThePairIsWriteOnce` | pkg/ssh/cluster_node_ssh_keys.go:75-101 | over every history the stored pair comes from one generation and never changes |
| `SshKeys.EveryFetchReturnsThePair` | pkg/ssh/cluster_node_ssh_keys.go:136-154 | any two fetches, however far apart, return the same matched pair |
| `SshKeys.FetchIff` | pkg/ssh/cluster_node_ssh_keys.go:110-154 | what a fetch returns, exactly |
| `SshKeys.ReconcileKeysLeaves` | controllers/kubevirtcluster_controller.go:230-250 | what a reconcile of the keys leaves behind, exactly |
| `SshKeys.FetchCrashesIff` | pkg/ssh/cluster_node_ssh_keys.go:137-151 | exactly when the second read fails after the first succeeded |
| `SshKeys.HalfASecretStaysHalf` | pkg/ssh/cluster_node_ssh_keys.go:86-90 | a private key without a public one is never completed, so no fetch succeeds |
| `SshKeys.HealthyReconcilePersistsIff` | controllers/kubevirtcluster_controller.go:230-250 | a reconcile whose calls succeed makes the pair available if and only if the secret was not half filled |

## Left out

- `EvictionMachine.Machine.constructor`: failed reads, the VM and its data volumes; a failed read is the failing `helper` of a reconcile, and no drain pass starts then.
- `LifecycleReconciler.Reconciler.PatchMachine`: a deadline that the deferred patch writes again after a lost `remove`, or drops after a lost write, in the same pass. The marker keys are not concerned.
- `LifecycleProjections.RunProjects`: the same write of the deadline is not a step of the projected run.
- `NewMachine`'s data volume list, `IsTerminal`, `GetVMNotReadyReason`, `Addresses`: read-only case tables; the reconcile takes the outcome of the terminal check as an arbitrary choice.
- Status conditions other than BootstrapExecSucceeded, failure reason and message: set before the drain call, whose patch may replace them.
- Interference inside a pass: the VMI and the Node change only between passes.
- Contents of the bootstrap secret and its deletion: only the success of those calls is modelled; a failed read counts as absent in the source.
- `CloudInit.LastKeyWins`, `CloudInit.SectionsAreKept`: mappings are taken to pair every key with a value, as the YAML library guarantees; parsing and printing of the text are not modelled.
- `CloudInit.UserData.AddCapkUser`: the tree is one field whose nodes are values, so aliasing between YAML nodes is not captured.
- `VmBuilder.NewVirtualMachine`: of the VM only labels, annotations, data volume templates, volumes and disk names. A volume and the source it points to are one object; the volume and disk slices themselves, which nobody writes to, are values.
- Key cryptography: key material is known by its generation; SSH dialing and the bootstrap check are an arbitrary choice.
- Kubernetes clients and the drain library: outcomes only.
- A time bound on the deletion of migratable VMIs: the source has none, see `EvictionProgress.FallbackHasNoTimeBound`.
- Load balancer, KubevirtCluster deletion, machine templates, webhooks, annotation filter, owner lookup, clusterkubevirtadm: a few branches each, nothing that spans operations.
