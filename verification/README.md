# Verification of the SiteConfig operator's control logic

The operator installs and reinstalls clusters from ClusterInstance resources. Its difficult part is a set of
state machines that are entered anew on every reconcile and keep all their state in the API server: the
wave-ordered deletion of what was rendered, the reinstall request with its six tasks, backup and restore of
Secrets and ConfigMaps, the reimport of the reinstalled cluster, and the gate in front of applying manifests.
A webhook decides which spec changes may reach them. This project models that logic in Dafny and proves what
holds over whole runs, with API calls that fail and status patches that are lost.

Run `dafny verify dfyconfig.toml`.

## How it is built

Code that the repository writes as steps on mutable state is written here as classes and methods with loops
(`*Handlers.dfy`, and the classes in `SyncWaves.dfy`, `Conditions.dfy` and `Reimport.dfy`), each proved to leave
exactly what a specification function says. The theorems are about those functions.

| files | what they hold |
|---|---|
| `Kube`, `Text`, `Manifests`, `Ownership` | identities, objects, the store and its record of calls; text operations; tracked entries; the owned-by label |
| `SyncWaves` | waves, the map that groups and orders them, the three flattenings |
| `Deletion`, `DeletionHandlers`, `DeletionOutcomes`, `DeletionSafety`, `DeletionProgress`, `ManagedCluster` | wave-ordered deletion: specification, code, outcomes and timeouts in numbers, safety over runs, progress, the spared ManagedCluster |
| `Preservation`, `PreservationHandlers`, `PreservationLaws`, `PreservationLabels`, `PreservationOutcomes` | backup, restore, cleanup: specification, code, round trip, what the labels ask for, when each of them fails |
| `Conditions`, `Reimport`, `ReimportBranches` | status conditions and the grace clock; the reimport machine, and its branches one by one |
| `Reinstall`, `ReinstallHandlers`, `ReinstallSafety`, `ReinstallProgress`, `ReinstallLaws`, `ReinstallDemands`, `ReinstallAnswers`, `ReinstallPass`, `ReinstallCompletion`, `ReinstallRoundTrip` | the reinstall machine: step function, code, reachable statuses, termination, what completion means, what the mode demands, what each stage answers, a pass with everything it touches, completion on the store the passes work on, the round trip of preserved data through a whole reinstall |
| `Json`, `Paths`, `Nodes`, `NodeIdentity`, `Admission`, `AdmissionLevels`, `Protocol` | documents and their differences, patterns of paths, how nodes are matched, what is admitted when, node analysis, the webhook, users and controller interleaved |
| `Controller`, `ControllerHandlers`, `ControllerSteps` | the reconcile gate and the writers of the tracked list, and its steps one by one |

The store maps identities to objects with owner label, labels, annotations, data, finalizers and deletion time.
Calls that matter are recorded in a ghost trace. Clocks are integers that never go back from one pass to the
next. A pass starts from the stored status; each of its patches may be lost on its own.

Assumptions that the theorems state as preconditions: tracked identities are distinct at the start (every
writer is proved to keep them so), node keys are distinct within a list, listings are truthful, and in the
instance's own namespace no resource other than a backup has a backup's name or form: what other instances keep
there or elsewhere, backups of the same generation included, is free to be and to change.

## Where the code differs from what one might expect

- `docs/reinstallation/README.md:178` says that a deletion that times out stops the reinstallation and pauses the
  instance. Any failure of the deletion does so; but only a timeout is tried again. Another failure leaves the
  condition at `Failed`, and the next pass after the pause is lifted skips the deletion: the request is then
  completed with manifests still there (`ReinstallLaws.FailedDeletionStillCompletes`; `ReinstallLaws.FinalizesIff`
  is the exact condition, `internal/controller/reinstall/reinstall.go:336-339`).
- The patch that finalizes and the patch that reports completion are two. If the second is lost, the request is
  never reported as completed, and the reimport never starts (`ReinstallLaws.ReportedIff`,
  `ReinstallLaws.LostReportIsFinal`).
- `docs/reinstallation/preservation.md:94-99` describes a restore as putting back the preserved resources. A backup
  left by an earlier generation in the namespace is listed by every later restore and refused, so the restore
  fails: in mode All every one of them does it, in mode ClusterIdentity the internal ones and those taken in
  that mode (`PreservationLaws.StaleBackupBlocksRestore`, `PreservationLaws.StaleAcceptableIff`;
  `PreservationLaws.RestoreFailsIff` is the exact condition for two listings of which no Secret is itself the
  original of a listed backup; for one that is, `PreservationLaws.OriginalIsListed`). A backup of another instance
  in the same namespace keeps the cleanup, and with it the finalizing, from succeeding
  (`PreservationLaws.CleanupFailsIff`).
- Backup names are unique for one generation (`PreservationLaws.BackupNamesDiffer`). Two generations can give two
  resources the same backup exactly when one of them ends in a hyphen and the other
  (`PreservationLaws.BackupsSharedIff`).
- A generation that has failed is admitted again, for example with another preservation mode, whenever a new one
  would be (`Protocol.FailedIsAdmitted`). But the operator takes it for processed and does nothing until another
  generation has been taken up in between (`Protocol.RetriedIff`, `Protocol.RetryNeedsAnother`,
  `internal/controller/reinstall/reinstall.go:197-220`).
- Every status patch answers with the latest version of the object, which replaces the one in memory. What is
  rendered and applied is the version that the patch of the validation brings; what is recorded as observed is the
  one fetched again at the end. A spec written in between is recorded though it was never applied, and it is left
  alone until the spec is written again (`Controller.SettledIsAppliedIff` is the exact condition over runs,
  `Controller.SettledIsLeftAlone`, `internal/controller/clusterinstance_controller.go:347-356`).
- The object that stands for the spared ManagedCluster is built without a namespace, so an entry that has one is
  not spared (`ManagedCluster.SparedIffNoNamespace`).
- Once the node analysis permits a change, every path below `/nodes` is allowed: the later distinction between
  added, removed and replaced nodes never decides anything (`Admission.ValidatePostProvisioningChanges`). The
  explicit checks of host name, BMC address and boot MAC are implied by the check of the differences
  (`Nodes.AuthorizedIff`).
- An object that is applied again on another wave keeps its tracked wave, so later deletions use the old one
  (`Controller.ExecuteEntry`).
- The spec is compared with the address of the recorded one, which is never equal, so the annotation is rewritten every time
  (`ControllerHandlers.Reconciler.UpdateObservedStatus`, `internal/controller/clusterinstance_controller.go:331`).

## Model

| member | source | states |
|---|---|---|
| `Manifests.FindManifest` | api/v1alpha1/clusterinstance_utils.go:100-108 | the scan returns the first entry with the identity, and reports found exactly when some entry has it |
| `SyncWaves.RebuildRoundTrip` | internal/controller/deletion/deletion.go:215-234 | an object rebuilt from a tracked entry reads back as the same identity and the same wave, for every 64-bit wave, negative ones included |
| `SyncWaves.Unannotated` | internal/controller/clusterinstance/rendered_object.go:109-121 | an object without the wave annotation is on wave 0 |
| `Text.AtoiReadsFormatInt` | internal/controller/clusterinstance/rendered_object.go:108-120 | parsing the printed form of any 64-bit integer gives the integer back |
| `Text.BeforeIff` | internal/controller/clusterinstance/rendered_object.go:174-183 | the order of kinds is the lexicographic one: a proper prefix comes first, otherwise the smaller character where the two first differ |
| `Text.ContainsIff` | api/v1alpha1/clusterinstance_validation.go:589-593 | containment means that the text is something, the part and something again |
| `SyncWaves.SyncWaveMap.Add` | internal/controller/clusterinstance/rendered_object.go:185-207 | the object joins exactly the group of its wave; an object whose wave is no integer is refused and changes nothing |
| `SyncWaves.SyncWaveMap.AddObjects` | internal/controller/clusterinstance/rendered_object.go:209-218 | every object is offered to the map, and no failure is reported exactly when all waves are integers |
| `SyncWaves.SyncWaveMap.GetObjectsForSyncWave` | internal/controller/clusterinstance/rendered_object.go:174-183 | the group of a wave is a permutation of the objects added with it, sorted by kind |
| `SyncWaves.SyncWaveMap.Groups` | internal/controller/clusterinstance/rendered_object.go:162-183 | the groups come in strictly ascending or descending waves and cover every object with an integer wave |
| `SyncWaves.FlattenIsSortedPermutation` | internal/controller/clusterinstance/rendered_object.go:245-267 | flattening loses and repeats nothing, and orders by (wave, kind) whichever way equal kinds fall |
| `SyncWaves.RenderedObjectCollection.AddObjects` | internal/controller/clusterinstance/rendered_object.go:220-243 | objects go to the map of their action, in order |
| `SyncWaves.RenderedObjectCollection.GetRenderObjects` | internal/controller/clusterinstance/rendered_object.go:245-251 | the render list is a permutation of the render objects, sorted by ascending wave and then kind |
| `SyncWaves.RenderedObjectCollection.GetPruneObjects` | internal/controller/clusterinstance/rendered_object.go:253-259 | the prune list is a permutation of the prune objects, sorted by descending wave and then ascending kind |
| `SyncWaves.RenderedObjectCollection.GetSuppressObjects` | internal/controller/clusterinstance/rendered_object.go:261-267 | the suppress list is a permutation of the suppressed objects, sorted by ascending wave and then kind |
| `Ownership.ParseIff` | internal/controller/clusterinstance/ownership.go:52-65 | the owned-by label parses to a namespace and name exactly when it was generated from them and neither holds an underscore |
| `Ownership.OwnersDiffer` | internal/controller/clusterinstance/ownership.go:39-54 | two instances with underscore-free names have the same label only if they are the same instance |
| `DeletionHandlers.DeletionHandler.DeleteObject` | internal/controller/deletion/deletion.go:173-211 | absence, foreign owner, first Delete, timeout and waiting are told apart as the specification says, and only an owned, unmarked object is sent a Delete |
| `DeletionOutcomes.OutcomeIff` | internal/controller/deletion/deletion.go:173-266 | each of the five outcomes of an attempt and exactly when it has it: in particular a timeout if and only if the object can be read, is owned, was marked, and more than the timeout has gone by since |
| `DeletionOutcomes.AttemptLeaves` | internal/controller/deletion/deletion.go:173-260 | a Delete is sent exactly to an owned object that is not marked; if it gets through, an object with finalizers is marked with the current time and any other is gone, and nothing else changes |
| `DeletionHandlers.DeletionHandler.DeleteObjects` | internal/controller/deletion/deletion.go:73-171 | the nested loops leave the store, the tracked list, the answer and the errors, that of a lost list patch included, that the wave-by-wave specification gives for the order actually taken, which is a descending plan of the objects |
| `DeletionHandlers.DeletionHandler.DeleteRenderedObjects` | internal/controller/deletion/deletion.go:48-65 | an empty list is completed at once; otherwise the objects are rebuilt from the list and deleted, and the new state is that of the specification |
| `DeletionOutcomes.InTimeNeverTimesOut` | internal/controller/deletion/deletion.go:113-170 | as long as no mark on an object to delete is older than the timeout, no call reports one, whatever fails |
| `DeletionOutcomes.TimeoutNamesOne` | internal/controller/deletion/deletion.go:143-152 | a call that times out has come to one late object: its entry alone is newly marked as timed out, the timeout is the last error, and the deletion is not complete |
| `DeletionOutcomes.CallTimesOutIff` | internal/controller/deletion/deletion.go:113-170 | without failing calls, a call times out if and only if an object of the highest wave with anything to delete is late |
| `DeletionOutcomes.EntriesTell` | internal/controller/deletion/deletion.go:113-170 | after a call, whatever fails in it, each entry left is as it was or says what was found: a deletion waited for, one that timed out, or one that failed |
| `DeletionOutcomes.TopWaveWaits` | internal/controller/deletion/deletion.go:156-166 | an undisturbed call marks exactly the entries of live objects on the highest live wave as waiting |
| `DeletionOutcomes.ReportedIff` | internal/controller/deletion/deletion.go:98-111 | the call answers with an error exactly if it met one or its changed list could not be stored |
| `DeletionHandlers.FilterOutDeleted` | internal/controller/deletion/deletion.go:268-279 | exactly the entries marked for removal are dropped, the others keep their order |
| `DeletionSafety.CallSafe` | internal/controller/deletion/deletion.go:86-171 | one call keeps order, identities and waves of the list; what it drops is what it found absent or foreign; if it reports completion every target was seen so |
| `DeletionSafety.RunIsWaveSafe` | internal/controller/deletion/deletion.go:113-166 | over any run of calls and of arbitrary changes by others, a Delete goes only to an owned, tracked, not excluded object whose higher waves have all been found absent or foreign |
| `DeletionSafety.RepeatedDeletionIsWaveSafe` | internal/controller/deletion/deletion.go:48-65 | the same for repeated DeleteRenderedObjects, each call rebuilding its objects from the list the last one left |
| `DeletionProgress.CallKeepsDistinct` | internal/controller/deletion/deletion.go:99-111 | a call keeps the tracked identities distinct |
| `DeletionProgress.CallTakesTopWave` | internal/controller/deletion/deletion.go:113-170 | a fault-free call with no deletion overdue, once the deletions are finished, has taken away exactly the highest live wave and those of which only marked objects were left; it completes if there is no live wave |
| `DeletionProgress.CompletesAtCall` | internal/controller/deletion/deletion.go:113-170 | the i-th repeated call, counting from 0, reports completion if and only if i reaches the number of calls needed: none without a live wave, otherwise one more than there are waves below the highest that hold an unmarked object; deletions may be pending at the start |
| `DeletionProgress.CompletesAtCallKPlusOne` | internal/controller/deletion/deletion.go:113-170 | with K live waves and an eager environment, repeated calls report completion from the (K+1)-th on at the latest, and never before if nothing to delete was marked at the start |
| `DeletionProgress.ProgressIsKept` | internal/controller/deletion/deletion.go:134-166 | under any environment that only finishes deletions, the tracked identities and those not yet asked to go never increase |
| `DeletionProgress.StuckMeansWaiting` | internal/controller/deletion/deletion.go:113-170 | a fault-free call that does not complete has requested a deletion or is waiting for one that it names |
| `ManagedCluster.GetManagedClusterManifest` | internal/controller/reinstall/helper.go:44-52 | the scan returns the first rendered ManagedCluster entry |
| `ManagedCluster.FirstClusterIff` | internal/controller/reinstall/helper.go:44-52 | the entry found is the first of kind ManagedCluster with status rendered, and none is found exactly if there is none |
| `ManagedCluster.SparedIffNoNamespace` | internal/controller/reinstall/helper.go:54-75 | the excluded object has the entry's identity exactly when the entry has no namespace |
| `ManagedCluster.CallSparesCluster` | internal/controller/deletion/deletion.go:121-124 | a call leaves the spared entry in the list with its status, and it stays the first rendered ManagedCluster |
| `ManagedCluster.OnlyClusterLeft` | internal/controller/reinstall/reinstall.go:316-369 | when the deletion of a reinstall completes, the list is exactly the spared entry |
| `ManagedCluster.ClusterSurvivesReinstall` | internal/controller/reinstall/reinstall.go:316-369 | through any number of deletion passes and changes by others, the spared entry keeps its status and is never sent a Delete |
| `PreservationHandlers.PreservationHandler.List` | internal/controller/preservation/helper.go:622-673 | the listing has each ConfigMap and Secret of the namespace that matches the mode's selector, once |
| `PreservationHandlers.PreservationHandler.BackupResource` | internal/controller/preservation/helper.go:240-319 | the backup Secret is created from the resource, or an existing one is only relabelled |
| `PreservationHandlers.PreservationHandler.CreateOrRelabel` | internal/controller/preservation/helper.go:321-372 | create-or-update reads the existing Secret before the mutation, so an existing payload stays |
| `PreservationHandlers.PreservationHandler.Backup` | internal/controller/preservation/preservation.go:35-77 | both modes in turn, stopping at the first whose listing fails or that reports errors, as the specification says for the listings obtained |
| `PreservationHandlers.PreservationHandler.RestoreResource` | internal/controller/preservation/helper.go:374-568 | validation, skipping, and overwriting of data, labels and annotations as the specification says |
| `PreservationHandlers.PreservationHandler.Restore` | internal/controller/preservation/preservation.go:81-123 | both modes in turn, stopping at the first whose listing fails or that reports errors |
| `PreservationHandlers.PreservationHandler.Cleanup` | internal/controller/preservation/preservation.go:127-215 | every resource preserved in either way is asked to go, without waiting; a failed listing changes nothing |
| `PreservationLaws.BackupNamesDiffer` | internal/controller/preservation/helper.go:157-160 | for one generation, different resources have different backup names |
| `PreservationLaws.BackupsSharedIff` | internal/controller/preservation/helper.go:157-160 | two generations can give two resources the same backup if and only if one of them ends in a hyphen and the other |
| `PreservationLaws.BackupTakes` | internal/controller/preservation/preservation.go:35-77 | a backup without errors holds a snapshot of everything selected, taken now or earlier, as a backup of this owner and generation, whatever other instances keep |
| `PreservationLaws.RestorePutsBack` | internal/controller/preservation/preservation.go:81-123 | a restore without errors leaves every held resource with the snapshot's data, labels and annotations |
| `PreservationLaws.RoundTrip` | internal/controller/preservation/helper.go:277-372 | first backup, any further passes and any edits or deletions by others, backups of other instances included, then a successful restore: the original has the data, labels and annotations of the first backup, and comes back whole if it was gone |
| `PreservationLaws.RestoreFailsIff` | internal/controller/preservation/preservation.go:81-123 | without API faults, and with no listed Secret itself the original of a listed backup, a restore fails if and only if some Secret of either listing is refused, as it was before the restore began |
| `PreservationLaws.OriginalIsListed` | internal/controller/preservation/helper.go:374-568 | a listed Secret that an earlier one on the list restores is judged by what the restore has made of it |
| `PreservationLaws.StaleBackupBlocksRestore` | internal/controller/preservation/helper.go:418-455 | a backup of another generation that the restore's mode does not pass over makes every restore fail, in modes All and ClusterIdentity, with either label, whatever else fails |
| `PreservationLaws.StaleAcceptableIff` | internal/controller/preservation/helper.go:390-452 | a backup of another generation is let pass if and only if the mode is ClusterIdentity, the backup not internal and marked with another mode |
| `PreservationLaws.CleanupFailsIff` | internal/controller/preservation/preservation.go:168-214 | without API faults a cleanup fails exactly when a listed resource carries another owner's label |
| `PreservationLabels.BackupTakesAsked` | internal/controller/preservation/helper.go:117-138 | in mode All every resource with the preserve label, in mode ClusterIdentity every one with the value cluster-identity, and in both every one with the operator's own label is held after a backup without errors |
| `PreservationLabels.BackupWritesAskedOnly` | internal/controller/preservation/helper.go:178-238 | whatever fails, a backup changes nothing but backups of resources that ask for one |
| `PreservationLabels.NoBackupUnasked` | internal/controller/preservation/helper.go:117-138 | a resource whose labels do not ask for it gets no backup |
| `PreservationLabels.AskedComesBack` | internal/controller/preservation/preservation.go:35-123 | label by label, everything that asks for a backup comes back with the data, labels and annotations of the first one |
| `PreservationLabels.NewBackup` | internal/controller/preservation/helper.go:240-372 | what a new backup carries: owner, kind, generation, mode, and the mark of identity data exactly if the resource has it |
| `PreservationLabels.OldBackup` | internal/controller/preservation/helper.go:321-372 | what a pass changes in a backup that is there: its notes, and nothing else |
| `PreservationLabels.RestoreWritesTakenOnly` | internal/controller/preservation/helper.go:374-568 | whatever a restore changes is the original of a Secret with the instance's label, the generation's note and the mark of a backup, taken in mode ClusterIdentity if that is the restore's; for listings of Secrets |
| `PreservationLabels.CleanupTakesBackups` | internal/controller/preservation/preservation.go:127-215 | a cleanup without failing calls asks exactly the resources marked as backups that carry the instance's label to go, and is complete if there was none |
| `PreservationLabels.CleanupDoneIff` | internal/controller/preservation/preservation.go:168-214 | the answer completed means that nothing on the list has to be waited for |
| `PreservationOutcomes.BackupFailsIff` | internal/controller/preservation/helper.go:178-319 | for any failing calls, a backup fails if and only if a listing fails or something that asks for a backup cannot be read or saved |
| `PreservationOutcomes.BackupStops` | internal/controller/preservation/preservation.go:52-76 | the second mode is begun only if the first reported nothing |
| `PreservationOutcomes.VerdictIff` | internal/controller/preservation/helper.go:374-455 | when a fetched Secret is refused, when it is passed over and when it is restored, by its labels and annotations |
| `PreservationOutcomes.RestoreFailsIffAny` | internal/controller/preservation/preservation.go:81-123 | for any failing calls, and with no listed Secret itself the original of a listed backup, a restore fails if and only if a listing fails or something listed is neither restored nor passed over |
| `PreservationOutcomes.RestoreStops` | internal/controller/preservation/preservation.go:98-122 | the second mode is begun only if the first reported nothing |
| `PreservationOutcomes.RestoredLooks` | internal/controller/preservation/helper.go:457-568 | a live original gets the copy's data, labels and annotations and keeps the rest of itself, a missing one comes back as the copy, and the time is noted |
| `PreservationOutcomes.CleanupFailsIffAny` | internal/controller/preservation/preservation.go:127-215 | for any failing calls, a cleanup fails if and only if a listing fails or something listed cannot be read, belongs to someone else or cannot be deleted |
| `PreservationOutcomes.NoneDoesNothing` | internal/controller/preservation/preservation.go:35-93 | mode None backs up and restores nothing and never fails |
| `Conditions.ConditionList.FindStatusCondition` | internal/controller/conditions/conditions.go:84-91 | the scan finds the first entry of a type |
| `Conditions.ConditionList.MetaSetStatusCondition` | internal/controller/reinstall/helper.go:88-94 | the entry is overwritten in place or appended, and the answer tells whether the list changed |
| `Conditions.ConditionList.SetStatusCondition` | internal/controller/conditions/conditions.go:17-41 | the list is rewritten as the specification of the wrapper says |
| `Conditions.FindSet` | internal/controller/conditions/conditions.go:17-41 | a write changes what is found for its own type only, and the transition time moves only when the status flips |
| `Conditions.SetKeepsOthers` | internal/controller/conditions/conditions.go:17-41 | one entry per type is kept, and the other entries keep their relative order |
| `Conditions.FlippedIsLast` | internal/controller/conditions/conditions.go:26-30 | an entry whose status flips ends up last |
| `Conditions.MetaSetSame` | internal/controller/reinstall/reinstall.go:258-264 | a write leaves the list as it is exactly when status, reason and message are already there |
| `Conditions.GraceNeverReopens` | internal/controller/clusterdeployment_reconciler.go:154-212 | while Provisioned stays True, no sequence of writes restarts the grace clock: a period that is over stays over |
| `Conditions.DeploymentDecides` | internal/controller/clusterdeployment_reconciler.go:154-212 | Provisioned becomes True when the ClusterDeployment is installed, False when the installation stopped and failed or is going on, and is untouched otherwise; so are all other conditions |
| `Manifests.StatusUpdated` | api/v1alpha1/clusterinstance_utils.go:74-80 | the time of an entry moves exactly when its status or message changes |
| `Reimport.Handler.EnsureClusterIsReimported` | internal/controller/reinstall/reimport.go:107-303 | each branch returns, writes and applies as the decision function says, the condition is written only if its patch gets through, and a lost patch is an error |
| `ReimportBranches.BecomesReimportedIff` | internal/controller/reinstall/reimport.go:121-205 | a pass makes ClusterReimported True if and only if it is saved, there is something to decide, and the cluster is found available, imported and joined |
| `ReimportBranches.WithCluster` | internal/controller/reinstall/reimport.go:194-303 | answer, delay, error and condition in each branch with a cluster: healthy, in its 5 minutes of grace, importing, attempted before, attempted now with and without success |
| `ReimportBranches.WithoutCluster` | internal/controller/reinstall/reimport.go:178-192 | answer, error and condition when the cluster is not there, not rendered or not readable |
| `ReimportBranches.FailsIff` | internal/controller/reinstall/reimport.go:143-153 | a pass fails for its own error or because a change of the condition was lost |
| `Reimport.AppliedOncePerOpening` | internal/controller/reinstall/reimport.go:121-303 | two applications, the first recorded, are separated by a new request or by a saved pass that stored another reason over the one of the attempt |
| `Reimport.ReopensIff` | internal/controller/reinstall/reimport.go:121-303 | over a recorded attempt, a saved pass overwrites the reason if and only if it finds the cluster gone, unreadable, importing, or back in its grace period |
| `Reimport.ReimportedIsSticky` | internal/controller/reinstall/reimport.go:121-303 | once True, ClusterReimported stays True until a new request rebuilds the conditions |
| `ReinstallHandlers.ReinstallHandler.PatchStatus` | internal/controller/conditions/conditions.go:53-68 | a patch stores the fields that differ from its base and refreshes the copy in memory; a lost one changes neither |
| `ReinstallHandlers.ReinstallHandler.InitializeReinstallStatus` | internal/controller/reinstall/helper.go:167-244 | the status is reset for the generation, and a patch is sent, and can fail, only if that changes anything |
| `ReinstallHandlers.ReinstallHandler.EnsureValidReinstallRequest` | internal/controller/reinstall/reinstall.go:234-267 | condition, answer and stored status after the task, with its patch stored or lost |
| `ReinstallHandlers.ReinstallHandler.EnsureStartTimeIsSet` | internal/controller/reinstall/reinstall.go:270-287 | a missing start time is set and another pass asked for; one that is there is kept |
| `ReinstallHandlers.ApplyPreservedLabel` | internal/controller/reinstall/reinstall.go:451-494 | the instance's secrets that exist are labelled, up to the first error |
| `ReinstallPass.SecretsAreLabelled` | internal/controller/reinstall/reinstall.go:451-494 | afterwards every secret of the instance that exists carries the operator's label and nothing else has changed; the task fails exactly if some secret cannot be labelled |
| `ReinstallHandlers.ReinstallHandler.EnsureDataIsPreserved` | internal/controller/reinstall/reinstall.go:497-563 | both conditions follow the backup's outcome, and another pass is asked for exactly when one of them changed |
| `ReinstallHandlers.ReinstallHandler.EnsureRenderedManifestsAreDeleted` | internal/controller/reinstall/reinstall.go:290-370 | announcing, deleting, waiting, timing out, failing and skipping, with the condition stored or lost |
| `ReinstallHandlers.ReinstallHandler.EnsurePreservedDataIsRestored` | internal/controller/reinstall/reinstall.go:566-615 | the condition follows the restore's outcome |
| `ReinstallHandlers.ReinstallHandler.FinalizeReinstallRequest` | internal/controller/reinstall/reinstall.go:372-440 | generation, end time and history record go in one patch, after the cleanup and the diff |
| `ReinstallHandlers.ReinstallHandler.RunTasks` | internal/controller/reinstall/reinstall.go:147-181 | the loop stops at the first task that asks for another pass or fails |
| `ReinstallHandlers.ReinstallHandler.Close` | internal/controller/reinstall/reinstall.go:122-145 | the deferred block: end time on failure, the overall condition, its patch and the pause |
| `ReinstallHandlers.ReinstallHandler.ProcessRequest` | internal/controller/reinstall/reinstall.go:61-195 | a pass leaves stored, and answers, what the state machine's step function says |
| `ReinstallAnswers.IdleIff` | internal/controller/reinstall/reinstall.go:197-220 | a pass does nothing if and only if the request is finalized or has ended with a known outcome |
| `ReinstallAnswers.NewRequestAnswer` | internal/controller/reinstall/helper.go:167-244 | a new request starts with seven fresh conditions and no times, history and observed generation kept; a lost patch is an error that stores nothing |
| `ReinstallAnswers.StartAnswer` | internal/controller/reinstall/reinstall.go:89-121 | then the start time is set and the request in progress |
| `ReinstallAnswers.StopAnswer` | internal/controller/reinstall/reinstall.go:122-181 | a pass that stops at a task says so: in progress and repeated, failed and ended, or, for the deletion, failed and paused |
| `ReinstallAnswers.ClosingLost` | internal/controller/reinstall/reinstall.go:122-145 | if the last patch of such a pass is lost, what its task stored stays, the pass is an error unless there was nothing to say, and nothing is paused |
| `ReinstallAnswers.FinalAnswer` | internal/controller/reinstall/reinstall.go:372-440 | a pass that comes to finalizing either records the generation with its times and completes the request, or leaves it open with an error |
| `ReinstallAnswers.DeletionLeaves` | internal/controller/reinstall/reinstall.go:290-370 | condition, error and repetition of the deleting task for every recorded reason and every answer of the deletion |
| `ReinstallAnswers.BackupSays` | internal/controller/reinstall/helper.go:265-314 | the two conditions of a backup in every mode and for every outcome |
| `ReinstallAnswers.RestoreSays` | internal/controller/reinstall/helper.go:316-354 | the condition of a restore in every mode and for every outcome |
| `ReinstallAnswers.MergeLaws` | internal/controller/conditions/conditions.go:53-68 | a patch stores exactly the fields that differ from its base |
| `ReinstallSafety.TaskEnds` | internal/controller/reinstall/reinstall.go:159-181 | a task that lets the pass go on, or that ends the request, has changed nothing |
| `ReinstallSafety.FinalizedIsSound` | internal/controller/reinstall/reinstall.go:391-433 | finalizing records the generation once, with a start time not after its end time |
| `ReinstallSafety.PassIsSound` | internal/controller/reinstall/reinstall.go:61-195 | every pass, whatever fails, keeps the status sound and only extends the history |
| `ReinstallSafety.EveryStatusIsSound` | internal/controller/reinstall/reinstall.go:122-145 | in every reachable status history generations are distinct, an observed generation is recorded, a completed request is closed, and an ended request still in progress has failed; the history only grows at its end |
| `ReinstallProgress.PassDropsRank` | internal/controller/reinstall/reinstall.go:147-181 | every pass that is not told to wait for deletions brings the request nearer to its end |
| `ReinstallProgress.ReinstallEnds` | internal/controller/reinstall/reinstall.go:61-195 | from any reachable status, 8 passes plus one per wait of the deletion complete the request or end it as failed |
| `ReinstallLaws.FinalizesIff` | internal/controller/reinstall/reinstall.go:147-187 | a pass comes to finalizing exactly when every task has its outcome on record, the deletion being either finished or failed |
| `ReinstallDemands.NoDeletionWithoutBackup` | internal/controller/reinstall/helper.go:265-314 | while the backup fails, cannot be counted, or lacks the identity data that mode ClusterIdentity demands, no pass calls the deletion, restores anything or finalizes |
| `ReinstallDemands.NotFinalizedWithoutRestore` | internal/controller/reinstall/helper.go:316-354 | while the restore fails, cannot be counted, or brings nothing back in mode ClusterIdentity, no pass finalizes |
| `ReinstallDemands.LackingEndsAsFailed` | internal/controller/reinstall/reinstall.go:497-615 | such a request ends as failed, within 8 passes and one for each time the deletion has to wait |
| `ReinstallDemands.FinalizedOnRecord` | internal/controller/reinstall/reinstall.go:147-187 | a request is finalized only with conditions that tell the truth: data backed up and restored exactly if there was any, identity detected exactly if identity data was counted |
| `ReinstallLaws.DeletionIsNotResumed` | internal/controller/reinstall/reinstall.go:336-339 | once the deletion is finished or failed, no later pass for the request deletes again |
| `ReinstallLaws.FailureClosesDeletion` | internal/controller/reinstall/reinstall.go:345-357 | a failed deletion pauses the instance, marks the deletion failed and leaves the request open |
| `ReinstallLaws.FailedDeletionStillCompletes` | internal/controller/reinstall/reinstall.go:336-339 | after a failed deletion the following passes complete the request without deleting anything more, so completion does not imply deletion |
| `ReinstallLaws.DeletedMeansFinished` | internal/controller/reinstall/reinstall.go:365-369 | the deletion is reported as completed only if some pass called it and saw it finish |
| `ReinstallLaws.ReportedIff` | internal/controller/reinstall/reinstall.go:186-194 | a finalized request is reported as completed exactly when the second patch gets through |
| `ReinstallLaws.LostReportIsFinal` | internal/controller/reinstall/reinstall.go:197-206 | if that patch is lost, no later pass for the request reports it and the reimport never acts |
| `ReinstallPass.BackupHoldsAll` | internal/controller/reinstall/reinstall.go:544-555 | after a backup without errors every selected resource is held in a backup of this owner and generation |
| `ReinstallPass.DeletesOnlyAfterBackup` | internal/controller/reinstall/reinstall.go:147-181 | in a pass that calls anything about the tracked manifests, reinstalls are enabled and everything selected is held in a backup before the first call |
| `ReinstallPass.AnswerIff` | internal/controller/reinstall/reinstall.go:336-369 | what the deletion's result comes to for the task: a timeout first, then any error or a lost list, then whether it is done |
| `ReinstallCompletion.WavesGoDown` | internal/controller/reinstall/reinstall.go:290-370 | as long as the deletion is not over, a pass without failing calls and the removals after it never add a wave with something to delete, and take one away if the pass waits |
| `ReinstallCompletion.ReinstallEnds` | internal/controller/reinstall/reinstall.go:61-195 | without failing calls and overdue deletions, and if before each next pass the tracked objects that are marked are gone and none was made again, 8 + K whole passes end the request, completed or failed, K being the number of waves of the tracked list that hold something to delete, marked or not |
| `ReinstallCompletion.ReinstallCompletes` | internal/controller/reinstall/reinstall.go:61-195 | such a request is completed if the preservation finds what its mode demands |
| `ReinstallRoundTrip.DeletionTouches` | internal/controller/reinstall/reinstall.go:290-370 | the deletion of a pass changes nothing but tracked objects, and never their contents |
| `ReinstallRoundTrip.PassKeeps` | internal/controller/reinstall/reinstall.go:147-181 | a pass that does not finalize keeps every held backup, wherever it stops and whatever fails in it |
| `ReinstallRoundTrip.FinalizedMeansRestored` | internal/controller/reinstall/reinstall.go:147-187 | what the first successful backup selected is in the store, with its data, labels and annotations of that time, when the request first comes to be finalized, over any number of passes before that one and changes by others in between |
| `ReinstallRoundTrip.ReinstallKeepsPreserved` | internal/controller/reinstall/reinstall.go:372-390 | the same of the store that the finalizing pass leaves after its cleanup, for originals that do not carry a preserved-data label themselves |
| `Json.Compare` | vendor/github.com/wI2L/jsondiff/differ.go:107-151 | the operations are exactly those that the definition of a difference gives, and there are none if and only if the documents are equal |
| `Json.CompareObjects` | vendor/github.com/wI2L/jsondiff/differ.go:231-272 | key by key: what one side lacks is added or removed whole, what both have is compared |
| `Json.CompareArrays` | vendor/github.com/wI2L/jsondiff/differ.go:276-329 | index by index, with surplus elements removed at the end or appended |
| `Json.Reported` | vendor/github.com/wI2L/jsondiff/differ.go:107-151 | two documents that differ have an operation |
| `Json.ReportedWithin` | vendor/github.com/wI2L/jsondiff/differ.go:107-151 | an operation is at the path at which the values were compared, or below it |
| `Json.ArrayReports` | vendor/github.com/wI2L/jsondiff/differ.go:276-329 | arrays of one length are compared index by index only, a longer one is appended to, a shorter one cut |
| `Json.EscapeEach` | vendor/github.com/wI2L/jsondiff/pointer.go:83-94 | a slash and a tilde of a key are escaped, every other character is kept |
| `Paths.PathMatchesPattern` | api/v1alpha1/clusterinstance_validation.go:701-721 | a pattern matches when each of its segments equals the path's or is a star |
| `Paths.PathMatchesAnyPattern` | api/v1alpha1/clusterinstance_validation.go:724-731 | some pattern of the list matches |
| `Paths.MatchesBelow` | api/v1alpha1/clusterinstance_validation.go:701-721 | what matches a path matches everything below it |
| `Paths.AllowedOffNodes` | api/v1alpha1/clusterinstance_validation.go:118-158 | off the nodes only the cluster-level patterns count |
| `Paths.TopAllowed` | api/v1alpha1/clusterinstance_validation.go:136-158 | at a top-level field and anywhere below it, the cluster-level patterns allow a path exactly when they name the field |
| `Nodes.IsPermissibleNodeChange` | api/v1alpha1/clusterinstance_validation.go:581-596 | a path is permitted when it contains the name of a permissible field |
| `Nodes.GetUnauthorizedChanges` | api/v1alpha1/clusterinstance_validation.go:516-563 | nothing is reported exactly when the pair is authorized |
| `Nodes.AuthorizedIff` | api/v1alpha1/clusterinstance_validation.go:516-536 | the explicit checks of identifiers add nothing: a pair is authorized exactly when it differs on permitted paths only |
| `Nodes.AreSameNodeSets` | api/v1alpha1/clusterinstance_validation.go:436-484 | true exactly when both lists have keys, equal lengths and equal maps by key |
| `Nodes.SameIff` | api/v1alpha1/clusterinstance_validation.go:436-484 | with distinct keys, equal maps mean that each list is a permutation of the other |
| `Nodes.IsPureNodeReplacement` | api/v1alpha1/clusterinstance_validation.go:487-513 | the first new node without a key or with an old key decides |
| `Nodes.PureIff` | api/v1alpha1/clusterinstance_validation.go:487-513 | pure replacement means that every new node has a key and none of the old ones |
| `Nodes.AnalyzeNodeAdditionsAndRemovals` | api/v1alpha1/clusterinstance_validation.go:316-362 | the added and the removed nodes are those whose keys the other list lacks, and an unkeyed node is an error |
| `Nodes.CheckNodeModifications` | api/v1alpha1/clusterinstance_validation.go:365-397 | unauthorized exactly when a node has no key or a matched pair is not authorized |
| `Nodes.AnalyzeNodeChanges` | api/v1alpha1/clusterinstance_validation.go:240-313 | the operation and the verdict of every branch, key collisions included |
| `Nodes.AnalysisIff` | api/v1alpha1/clusterinstance_validation.go:240-313 | with distinct keys the verdict is the match check alone, and the label is the one that the sets of nodes and keys call for |
| `NodeIdentity.MatchedIff` | api/v1alpha1/clusterinstance_validation.go:400-433 | two nodes are matched if and only if the first of host name, BMC address and boot MAC address that either has is equal in both |
| `NodeIdentity.AcceptedIff` | api/v1alpha1/clusterinstance_validation.go:204-224 | with nodes told apart by these fields, an update is accepted if and only if matched nodes differ on permitted paths only and no other field changes but those named |
| `NodeIdentity.UnidentifiedIsRefused` | api/v1alpha1/clusterinstance_validation.go:240-313 | a node without any of the three is never accepted |
| `NodeIdentity.KeptHostIsFixed` | api/v1alpha1/clusterinstance_validation.go:516-536 | without a reinstall, a node that keeps its host name keeps its BMC address and its boot MAC address |
| `NodeIdentity.FreeIsPermitted` | api/v1alpha1/clusterinstance_validation.go:118-134 | a difference at or below one of the named node fields is permitted, the reinstall fields only with a reinstall |
| `NodeIdentity.PermittedHasFree` | api/v1alpha1/clusterinstance_validation.go:581-596 | a permitted path has one of these names in it |
| `NodeIdentity.NamedFields` | api/v1alpha1/clusterinstance_validation.go:136-158 | the top-level fields of a spec that may change |
| `Nodes.Labels` | api/v1alpha1/clusterinstance_validation.go:286-307 | the scale-out, scale-in and mixed labels say how the two key sets compare, and there is no other case |
| `Nodes.NodesConserved` | api/v1alpha1/clusterinstance_validation.go:316-362 | with distinct keys, |new| = |old| + |added| - |removed| |
| `Nodes.OrderDoesNotMatter` | api/v1alpha1/clusterinstance_validation.go:240-313 | label and verdict do not depend on the order of either list |
| `Admission.ValidateChangesWithJSONDiff` | api/v1alpha1/clusterinstance_validation.go:599-697 | accepted exactly when every difference between the two specs, nodes included, is allowed by one of the branches |
| `Admission.ValidatePostProvisioningChanges` | api/v1alpha1/clusterinstance_validation.go:204-224 | accepted exactly when the node analysis does not object and no top-level field changes but those named for this kind of update, the architecture being free to appear or vanish |
| `Admission.FieldsDecide` | api/v1alpha1/clusterinstance_validation.go:599-697 | once the analysis permits the nodes, all differences pass if and only if each changed top-level field is a named one, or the architecture on one side only |
| `Admission.PostProvisioningIff` | api/v1alpha1/clusterinstance_validation.go:204-224 | with distinct keys: every node has an identifier, every node that keeps its key differs on permitted paths only, and no other top-level field changes but those named |
| `Admission.NodeOrderDoesNotMatter` | api/v1alpha1/clusterinstance_validation.go:204-224 | permuting either node list never changes the verdict |
| `Admission.ValidateReinstallRequest` | api/v1alpha1/clusterinstance_validation.go:891-935 | a request is valid exactly when provisioning is completed, the name well formed, nothing active, and the generation new |
| `Admission.ValidateUpdate` | api/v1alpha1/clusterinstance_webhook.go:85-167 | the webhook's verdict, level by level |
| `AdmissionLevels.CompletedIff` | api/v1alpha1/clusterinstance_webhook.go:107-163 | on a completed installation: no change while a reinstall is active, otherwise the permitted ones, and with a reinstall requested also a request that may be made |
| `AdmissionLevels.UnfinishedIsFrozen` | api/v1alpha1/clusterinstance_validation.go:781-808 | an installation that is neither held nor completed admits no change |
| `AdmissionLevels.HeldIsUnrestricted` | api/v1alpha1/clusterinstance_validation.go:781-786 | while the installation is held and not completed every valid spec is admitted |
| `AdmissionLevels.HoldIsNotTurnedOn` | api/v1alpha1/clusterinstance_webhook.go:98-105 | no update turns the hold on |
| `AdmissionLevels.NewRequestAdmittedIff` | api/v1alpha1/clusterinstance_validation.go:891-935 | an update of a provisioned instance that changes nothing but the request is admitted if and only if the request may be made, or is no change |
| `Admission.BaseOnlyKeepsRequest` | api/v1alpha1/clusterinstance_validation.go:628-636 | an update at the base level leaves the reinstall request as it is |
| `Admission.ActiveReinstallFreezesSpec` | api/v1alpha1/clusterinstance_webhook.go:107-157 | while a reinstall is active, the installation not held and the instance not being deleted, no admitted update changes the spec |
| `Admission.NewGenerationIsFresh` | api/v1alpha1/clusterinstance_validation.go:891-935 | a changed request is admitted only with a well-formed generation that is neither observed nor in the history, after provisioning and with nothing active |
| `Protocol.EachGenerationFinishesOnce` | api/v1alpha1/clusterinstance_validation.go:922-932 | in any interleaving of admitted updates, passes, reimports and provisioning changes, no generation finishes twice and the history records exactly the finished ones, in order, start not after end |
| `Protocol.RetriedIff` | internal/controller/reinstall/reinstall.go:197-231 | after a failure a pass does nothing if and only if the stored generation in progress is still the requested one; otherwise it starts over |
| `Protocol.RetryNeedsAnother` | internal/controller/reinstall/reinstall.go:197-231 | in any interleaving, a pass that does anything for a failed generation comes after one that took up another generation |
| `ControllerHandlers.ExecuteRenderedManifests` | internal/controller/clusterinstance_controller.go:695-731 | every object is sent and its entry updated or appended; ok means that none failed |
| `ControllerHandlers.Reconciler.PruneManifests` | internal/controller/clusterinstance_controller.go:827-864 | pruning completes, waits, fails or pauses as the deletion answers |
| `ControllerHandlers.Reconciler.UpdateSuppressedManifestsStatus` | internal/controller/clusterinstance_controller.go:866-902 | suppressed objects are marked, and a patch is sent only if that changes the list |
| `ControllerHandlers.Reconciler.ValidateRenderedManifests` | internal/controller/clusterinstance_controller.go:733-779 | the dry-run of the whole list and its record |
| `ControllerHandlers.Reconciler.ApplyRenderedManifests` | internal/controller/clusterinstance_controller.go:781-825 | the real requests for the whole list and their record |
| `ControllerHandlers.Reconciler.HandleRenderTemplates` | internal/controller/clusterinstance_controller.go:904-940 | the four steps in order, each only after the one before it went through |
| `ControllerHandlers.Reconciler.UpdateObservedStatus` | internal/controller/clusterinstance_controller.go:317-364 | unless the version in memory counts as observed, the spec annotation is rewritten, the object is fetched again, and the generation found then is recorded |
| `ControllerHandlers.Reconciler.Reconcile` | internal/controller/clusterinstance_controller.go:153-315 | the stored state after a pass, gate by gate, with the version in memory replaced after the reimport, the validation and the render steps, a finalizer or a reinstall that changes the store and the list on its way included |
| `Controller.ExecuteEntry` | internal/controller/clusterinstance_controller.go:707-727 | after sending a list each of its objects is tracked with the status its request earned, on the wave it had; all other entries are unchanged |
| `Controller.ExecuteEnters` | internal/controller/clusterinstance/rendered_object.go:126-138 | an identity not tracked before is tracked on the wave of its first object's annotation, 0 without one; a tracked one keeps its wave |
| `Controller.SuppressEnters` | internal/controller/clusterinstance_controller.go:873-888 | so is a suppressed one, with that status and no message |
| `Controller.AppliedTargets` | internal/controller/clusterinstance_controller.go:703-729 | what is applied to an empty list is deleted on the waves of the annotations, and nothing else is |
| `ControllerSteps.PruneLeaves` | internal/controller/clusterinstance_controller.go:827-864 | store, list, pause and continuation after pruning, for every result of the deletion |
| `ControllerSteps.SuppressLeaves` | internal/controller/clusterinstance_controller.go:866-902 | after suppressing each object is tracked as suppressed and no other entry has changed, or the patch was lost and nothing has |
| `ControllerSteps.DryRunLeaves` | internal/controller/clusterinstance_controller.go:733-779 | list, calls and continuation after the dry-run |
| `ControllerSteps.ApplyLeaves` | internal/controller/clusterinstance_controller.go:781-825 | list, calls, applied version and continuation after the real requests |
| `ControllerSteps.RestoredIsObserved` | internal/controller/clusterinstance_controller.go:225-250 | an instance restored by Velero is not rendered: its generation counts as observed and then the restore as handled, and if the second patch is lost both are done again |
| `Controller.ExecuteKeepsDistinct` | internal/controller/clusterinstance_controller.go:703-729 | the dry-run and apply writers keep the tracked identities distinct |
| `Controller.SuppressKeepsDistinct` | internal/controller/clusterinstance_controller.go:873-888 | the suppress writer keeps the tracked identities distinct |
| `Controller.AppliesOnlyAfterDryRun` | internal/controller/clusterinstance_controller.go:904-940 | a pass sends real requests only after pruning was complete and every object of the same list passed its dry-run; a paused instance sends nothing |
| `Controller.ObservedOnlyAfterSuccess` | internal/controller/clusterinstance_controller.go:225-312 | the observed generation changes only in the Velero branch or when every object rendered from one version was applied, and then each of them is tracked as rendered and the generation is the one found by the re-fetch |
| `Controller.SettledIsAppliedIff` | internal/controller/clusterinstance_controller.go:153-364 | whenever a run has settled an instance, some pass settled it: for Velero, or by recording; and then the version that counts as observed is the one applied if and only if no spec was written between that pass's validation and its re-fetch, and its spec is the one on record if and only if none was written that differs after the last status patch |
| `Controller.RunKeepsDistinct` | internal/controller/clusterinstance_controller.go:153-315 | over any run of passes, spec writes and other changes the tracked identities stay distinct |
| `Controller.SettledMeansApplied` | internal/controller/clusterinstance_controller.go:153-315 | if no spec write falls between the validation of a pass and its re-fetch, every settled instance has its own version applied in full and its own spec on record, over any run |
| `Controller.SettledIsLeftAlone` | internal/controller/clusterinstance_controller.go:263-267 | until the spec is written again no request is sent for a settled instance, whether what was recorded was applied or not |
| `Controller.ReinstallIsDetour` | internal/controller/clusterinstance_controller.go:275-300 | what a whole reinstall pass does to the store and the list is one of the detours of the reconcile model, which ends the pass exactly when the reinstall asks for another one or fails, and pauses the instance when it does |

## Left out

- Admission.ValidateUpdate: the checks of the new spec alone (template references, JSON fields, control-plane counts) are one flag; they do not depend on the old spec.
- Json.Compare: the order of the operations is left open, their values are not modelled, and a JSON literal is its token, so two spellings of one number differ.
- Reimport.Handler.EnsureClusterIsReimported: reading the spoke cluster's kubeconfig and applying its import manifests is one success or failure.
- ReinstallHandlers.ReinstallHandler.ProcessRequest: what backup, deletion, restore, cleanup and the spec diff answer are inputs here; `ReinstallPass` computes all but the counts and the diff from the store.
- ReinstallCompletion.ReinstallEnds: other changes between two passes are free, but restore and cleanup are to meet nothing they refuse.
- ReinstallRoundTrip.FinalizedMeansRestored: nothing is said after a first pass that came to finalizing and failed in it: its cleanup may have removed backups, and the next pass backs up what it then finds.
- PreservationLaws.RestoreFailsIff: where a listed Secret is itself the original of a listed backup, the outcome depends on the order of the listing.
- Controller.SettledIsAppliedIff: the lists that are rendered are inputs, said to come from the version in memory; templates may change as well, and objects removed later by a deletion still count as applied.
- ReinstallProgress.ReinstallEnds: a deletion that fails or times out pauses the instance until someone intervenes, so the bound is for deletions that finish or ask to wait, and for a cleanup and a spec diff that succeed.
- ReinstallPass.DeletesOnlyAfterBackup: the whole pass is composed from the specification functions; its parts have their code in the handler modules, the composition has none.
- ControllerHandlers.Reconciler.Reconcile: what the finalizer, the reinstall and the Velero handling do before the gate is any change of the store and any deletion of tracked objects; the backup labels of install templates, validation and rendering each appear as a flag that says whether they end the pass.
- PreservationHandlers.PreservationHandler.List: the order of a listing is left open, and an unknown preservation mode is not modelled because the API admits only three.
- PreservationHandlers.PreservationHandler.BackupResource: YAML encoding is taken to round-trip; UIDs, owner references, resource versions and timestamps, which are dropped before encoding, are not modelled.
- DeletionHandlers.DeletionHandler.DeleteObject: an object whose finalizers are gone disappears at once when it is deleted; propagation to dependents is not modelled.
- ControllerHandlers.ExecuteRenderedManifests: a rendered object whose wave is no integer never reaches it, because the collection refuses it; the model gives such an object wave 0.
- Label and annotation keys with a meaning to the operator are an enumeration; condition messages and error texts are short stand-ins that differ where the originals do.
- Counting preserved and restored resources: the counts are inputs, because a resource labelled in both ways is not counted by the original.
- Removing the pause, and clearing the paused status when the annotation is gone: plain field updates.
- Stale reads: a pass is taken to start from the latest stored status.
- Server-side field ownership, retries with backoff, events, logging, metrics and the wiring of controllers.
- Template rendering: the rendered objects, with action, wave, kind and identity, are inputs.
