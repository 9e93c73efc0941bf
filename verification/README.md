# TiFlow operator: a verified model of the reconcile protocol

The operator keeps a TiFlow cluster (masters and executors, one StatefulSet each) in line with a
`TiflowCluster` object. Every reconcile reads the persisted status, lets two member managers create,
scale or upgrade, verifies the outcome with tiflow-master, derives phases from a list of sync entries and
persists the status again, on success and on error alike. This project models that protocol and the
algorithms inside it in Dafny, and proves what they keep over whole runs. Every answer of the API server,
of tiflow-master and of the StatefulSet controller is an arbitrary input.

The master's and the executor's Go files are twins; one model with a `Member` parameter covers both, with
every difference between them spelled out where it occurs. Objects that the Go code updates in place are
classes (`Clusters.Cluster`, `ConfigMaps.ConfigMap`, `LastApplied.StatefulSet`); each method is proved equal
to a specification function on the old state, and the theorems are about those functions.

| module | what it models |
|---|---|
| `Api`, `Clusters` | specification, status, and the object that one reconcile mutates |
| `SyncEntries`, `Conditions`, `Search` | the two find-or-create lists, and the search they share |
| `Names`, `NameParsing`, `LeaderNames` | printed names, the regular expression that reads them, the leader tests |
| `Members`, `RegisteredNames` | the split of reported members, and the counting check |
| `PhaseSync`, `PhaseProperties` | completion of sync entries and derivation of phases |
| `Verification` | condition Sync and Apply |
| `Scaling`, `Upgrading`, `Managers` | scalers, gracefulUpgrade, the member managers |
| `Reconciling` | one reconcile, and runs of reconciles |
| `RunningSoundness`, `RunningScope` | what "Running" means over runs, and where it is wrong |
| `Gate`, `FailedUpgrades` | the gate that only Apply opens, and the upgrade error behind it |
| `Convergence`, `Trap` | settled clusters, and the early return that keeps some of them from Running |
| `RolloutWrites`, `UpgradeProgress`, `UpgradeCompletes`, `UpgradeRuns` | rollouts through full reconciles: who writes the partition, an undisturbed upgrade from the new template to Running, three runs from a new status |
| `Rollout` | gracefulUpgrade interleaved with the StatefulSet controller, pod by pod |
| `Pruning`, `PruneOrder`, `PruneRace` | the volume claim pruner |
| `LastApplied`, `ConfigMaps` | what keeps a settled cluster from being rewritten |

## Where the code falls short of what it says

Each of these is a theorem about the code as it is, with the exact condition where there is one.

- "Running" is sound for every member over every run except for a local master of a heterogeneous cluster:
  that master is declared checked without being looked at, and three reconciles lead to Running beside an
  unfinished scale-out (`RunningScope.RunningIsSoundExactly`).
- The early return of SyncPhase keeps a phase when nothing is pending. A settled, checked member whose
  entries are all completed but whose phase is not Running never becomes Running. A run from a new status
  ends there exactly if its first full reconcile reached Apply and no entry of the member was recorded
  since; two reconciles that find both sets in place are enough (`Trap.TrapIsEnteredExactly`,
  `Trap.TrapIsReached`, `Trap.TrapLasts`, `Convergence.ReachesRunning`).
- An upgrade error is recorded as Failed, and the version check then needs equal revisions. With the
  other member in order, and this one in order once its revisions are equal, a run from there reaches Apply
  exactly if some reconcile finds them equal, however far its pods are updated until then; and until then no
  reconcile touches the set. One pod that cannot be read leads there, three reconciles from a new status
  (`FailedUpgrades.TraceLastsExactly`, `FailedUpgrades.FailedUpgradeIsStuck`,
  `UpgradeRuns.FailedUpgradeIsReached`).
- In the middle of a rollout the manager writes through gracefulUpgrade only while the phase is Upgrading.
  One failed read of the set while the gate is open turns the phase to Unknown; from then on every write
  puts the partition back to the replica count, and none lowers it again. The order of the rollout survives
  that exactly if no released pod was updated yet; after any round it does not, and four reconciles from a
  new status put the partition above an updated pod (`RolloutWrites.PartitionIsReset`,
  `RolloutWrites.WritesInRollout`, `Rollout.ResetKeepsOrderExactly`, `Rollout.ResetAfterRounds`,
  `UpgradeRuns.PartitionResetIsReached`, `UpgradeRuns.OrderIsBroken`).
- The scaler compares the recorded leader with a bare pod name, which no advertised address is. The upgrader
  looks for the executor's peer service in it, which is there exactly if the leader's host name ends in it,
  and that takes a cluster domain ending in `-tiflow-executor-peer` (`LeaderNames.LeaderTestsFireExactly`,
  `Scaling.AdvertisedLeaderIsNotKept`).
- The count of registered members can be met by names that no pod prints: the parser trims the member type
  only if it is there, and reads leading zeros. A check that passes is truthful exactly if no reported name
  that counts lacks the type or has a leading zero (`RegisteredNames.AcceptsExactly`,
  `RegisteredNames.CountCheck`, `RegisteredNames.PaddedNameFools`, `RegisteredNames.TypelessNameFools`).
- The pruner's comment promises claims named by template, set and ordinal; the code compares a prefix
  without its closing dash, so claims of another set pass exactly if that set's name, with the ordinal,
  begins with this one's. They are listed at all exactly if both clusters go by one instance name. This is
  about sets that the operator adopted as orphans: the ones it builds have no volumeClaimTemplates
  (pkg/manager/member/executor_manager.go:372-386; getNewExecutorPVCTemp is never called), and without
  templates nothing is pruned. Cluster `a` with an adopted set that has a template `data`, beside a cluster
  `a-tiflow-executor-b` with the same instance label, takes every claim of the latter
  (`PruneOrder.ForeignClaimsPassExactly`, `PruneOrder.OtherClustersClaims`,
  `PruneOrder.NothingWithoutTemplates`, `PruneOrder.ForeignClaimIsTaken`). The comment promises deletion
  from lowest to highest; the order by name gives that exactly when all ordinals are printed equally wide
  (`PruneOrder.LowestFirstExactly`).
- `UpdateStatefulSet` is idempotent exactly for sets that use none of the operator's own annotation keys,
  on the set or on the pod template, and have a controller (`LastApplied.SecondUpdateWritesNothing`).
- A config map that exists keeps its data, since `createOrUpdateObject` puts the fetched data over the
  desired one. So a changed configuration never arrives in place (`ConfigMaps.InPlaceKeepsFirstData`). Under
  rolling updates the name's suffix encodes the hexadecimal sum once more and keeps seven characters: at
  most 8192 suffixes exist (`ConfigMaps.SuffixesRunOut`). Three configurations that share one are enough for
  the name in use to alternate for ever without naming a map with the desired configuration
  (`ConfigMaps.ClashIsReached`, `ConfigMaps.ClashNeverSettles`).

## Model

| member | source | states |
|---|---|---|
| `SyncEntries.SetStatus` | pkg/status/status.go:48-92 | setting an entry changes that entry alone, and sync names stay unique |
| `SyncEntries.SetStatusPending` | pkg/status/status.go:16-58 | what is unfinished changes by exactly the entry that is set |
| `SyncEntries.ListRefinesMap` | pkg/status/status.go:9-108 | over every sequence of calls the list is the map of last-set values in first-set order; master and executor never interfere |
| `Conditions.Set` | pkg/condition/condition.go:43-75 | other conditions stay; a condition's transition time moves only with its value; types stay unique |
| `Names.PodNameInjective` | pkg/manager/member/util.go:118-128 | different ordinals print different pod names |
| `Names.RegisteredNameInjective` | pkg/condition/util.go:46-58 | different ordinals register under different names |
| `NameParsing.SubmatchesAreLeftmostGreedy` | pkg/condition/util.go:15-19 | the groups found are those of the leftmost match with the longest first and last group, and none are found only if no match exists |
| `NameParsing.NameRoundTrip` | pkg/condition/util.go:46-58 | printing and parsing returns cluster, ordinal and namespace exactly if the ordinal fits int32 and the namespace has no newline and no dash-digits-dot |
| `NameParsing.DotFreeHasNoHit` | pkg/condition/util.go:16 | a dot-free namespace meets that condition |
| `Members.UpdateMembersInfo` | pkg/condition/tiflow_cluster_executor_condition.go:203-229 | every reported name lands in exactly one of the two maps, in the members exactly if it parses to this cluster, namespace and an ordinal in range |
| `RegisteredNames.AcceptsExactly` | pkg/condition/util.go:46-58 | a name without newline counts for the set exactly if it is cluster-type-digits.namespace, or cluster-digits.namespace for a cluster not ending in the type, with digits that name an ordinal in range |
| `RegisteredNames.CountCheck` | pkg/condition/tiflow_cluster_executor_condition.go:107-114 | if no reported name that counts lacks the type or has a leading zero, members never exceed the desired count and reach it exactly when every ordinal has registered; otherwise a count that fits hides a missing pod |
| `RegisteredNames.CountOfCanonicalNames` | pkg/condition/tiflow_cluster_executor_condition.go:203-229 | reports of names that pods print, of any cluster, namespace and ordinal, make the check exact |
| `RegisteredNames.PaddedNameFools` | pkg/condition/util.go:52-57 | for every set the name with ordinal 00 meets the check of one pod that never registered |
| `RegisteredNames.TypelessNameFools` | pkg/condition/util.go:57 | so does the name without the type, for every cluster whose name does not end in it |
| `LeaderNames.LeaderTestsFireExactly` | pkg/manager/member/util.go:122-124 | under the address of the masters' start script the scaler's test never recognises a leader, the upgrader's exactly if the host name ends in the service it looks for, which takes a domain with that ending |
| `Clusters.Cluster.MarkSync` | pkg/status/status.go:16-92 | the in-place find-or-create does what the list specification says |
| `Clusters.Cluster.SetConditionStatus` | pkg/condition/condition.go:51-75 | likewise for conditions |
| `PhaseSync.PhaseFor` | pkg/status/tiflow_master_status.go:69-91 | the phase is Running exactly if every entry is Completed; Upgrading only while the upgrade is Ongoing |
| `PhaseSync.SyncCreatePhase` | pkg/status/tiflow_master_status.go:110-123 | completes a pending create exactly when ready replicas are as desired |
| `PhaseSync.SyncScalePhase` | pkg/status/tiflow_master_status.go:125-147 | completes the pending scale-out, else the pending scale-in, exactly when current replicas are as desired |
| `PhaseSync.SyncUpgradePhase` | pkg/status/tiflow_master_status.go:150-208 | completes, fails, unsettles or leaves a pending upgrade as the set and the pods in list order say |
| `PhaseSync.SyncPhaseFromCluster` | pkg/status/tiflow_executor_status.go:94-108 | create before scale before upgrade, at most one change |
| `PhaseSync.SyncMemberPhase` | pkg/status/tiflow_master_status.go:52-92 | the phase after a call, with the early return that keeps the old one |
| `PhaseSync.SyncTiflowClusterPhase` | pkg/status/tiflow_cluster_status.go:46-66 | first-reconcile initialisation; then both members, and the cluster phase from theirs |
| `PhaseProperties.JudgePodsMeaning` | pkg/status/tiflow_master_status.go:193-205 | all pods current exactly if each is; otherwise the first odd one decides |
| `PhaseProperties.FirstOddPodDecides` | pkg/status/tiflow_master_status.go:193-207 | a missing label fails the upgrade, a stale revision leaves it, whichever comes first |
| `PhaseProperties.UpgradeCompletion` | pkg/status/tiflow_master_status.go:150-208 | a pending upgrade becomes Completed exactly in a call that saw equal revisions and every listed pod at the snapshot's revision |
| `PhaseProperties.FromClusterChangesOneEntry` | pkg/status/tiflow_executor_status.go:94-108 | a step changes one pending entry and nothing else |
| `PhaseProperties.SettledCall` | pkg/status/tiflow_executor_status.go:52-147 | on a settled cluster a call completes exactly one pending entry and shows Running exactly with the last |
| `PhaseProperties.SettledCalls` | pkg/status/tiflow_executor_status.go:52-147 | n pending entries take exactly n calls |
| `PhaseProperties.NothingPendingKeepsPhase` | pkg/status/tiflow_master_status.go:64-67 | with nothing pending no number of calls changes the phase |
| `Verification.VerifyMember` | pkg/condition/tiflow_cluster_master_condition.go:34-62 | the order of checks, what each writes, and what a skipped member is declared to be |
| `Verification.VerifyScale` | pkg/condition/tiflow_cluster_executor_condition.go:73-90 | replicas before readiness; during a rollout updated pods count too |
| `Verification.VerifyByMaster` | pkg/condition/tiflow_cluster_master_condition.go:83-90 | what tiflow-master is asked: the leader is recorded before members are asked for |
| `Verification.VerifyReport` | pkg/condition/tiflow_cluster_executor_condition.go:101-116 | both member maps are replaced, and the count decides; only the executor's check turns False |
| `Verification.Sync` | pkg/condition/tiflow_cluster_condition.go:30-53 | master, executor, then Apply; the first failure ends it |
| `Verification.VerifyKeeps` | pkg/condition/tiflow_cluster_master_condition.go:34-108 | verification never touches a phase, a sync entry or a SyncChecked condition |
| `Verification.VerifyPassesExactly` | pkg/condition/tiflow_cluster_executor_condition.go:33-117 | a member passes exactly if its set can be read, its snapshot stands the three checks, and a leader and as many members as desired are reported |
| `Verification.VerifySucceeds` | pkg/condition/tiflow_cluster_executor_condition.go:33-117 | a member that passes has all checks True, a snapshot that meets the specification, and conditions whose time moved only with their value |
| `Verification.SyncSucceeds` | pkg/condition/tiflow_cluster_condition.go:30-53 | after success in a non-heterogeneous cluster with both members every check of both is True at once, types are unique, True conditions kept their time |
| `Verification.ApplyMakesTrue` | pkg/condition/tiflow_cluster_condition.go:44-53 | Apply changes conditions only, and only to True |
| `Scaling.RunScaleOut` | pkg/manager/member/executor_scaler.go:51-112 | accepted targets are actual+1, actual+2, ... without overshoot; on an error the completed steps stand and the entry is Failed |
| `Scaling.RunScaleIn` | pkg/manager/member/master_scaler.go:101-152 | the same downwards, with the leader test before each step |
| `Scaling.RunScale` | pkg/manager/member/master_scaler.go:35-46 | direction by comparison, nothing when equal |
| `Scaling.ScaleInKeepsLeader` | pkg/manager/member/master_scaler.go:128-175 | a recorded leader above pod 0 is never removed; the count ends at leader+1 exactly if no earlier update is refused |
| `Scaling.AdvertisedLeaderIsNotKept` | pkg/manager/member/master_scaler.go:154-175 | with an advertised address on record the walk depends on the API server alone |
| `Upgrading.RunGracefulUpgrade` | pkg/manager/member/executor_upgrader.go:38-116 | every early exit and the partition that results, master and executor |
| `Upgrading.RunScan` | pkg/manager/member/master_upgrader.go:78-107 | the downward walk over ordinals |
| `Upgrading.ScanMeaning` | pkg/manager/member/executor_upgrader.go:80-116 | ordinal i is released exactly if it is on another revision and unguarded and every higher pod is updated, ready and (executor) registered |
| `Managers.RunSync` | pkg/manager/member/master_manager.go:226-323 | create, wait, force or adjust, and the status each leaves |
| `Managers.RunAdjust` | pkg/manager/member/executor_manager.go:226-248 | scale before upgrade before write |
| `Managers.SyncIsGuarded` | pkg/manager/member/master_manager.go:226-323 | whatever is answered, a manager that acts leaves its check condition False, and acts only if it was not |
| `Managers.ScaleIsGuarded` | pkg/manager/member/executor_scaler.go:36-169 | scaling keeps the phase, closes the gate, and touches one member |
| `Managers.UpgradeIsGuarded` | pkg/manager/member/master_upgrader.go:39-110 | upgrading closes the gate, marks its entry Ongoing and moves the phase only to Upgrading |
| `Managers.UpgradeOnlyAtFullScale` | pkg/manager/member/master_manager.go:291-322 | scaling takes precedence: an upgrade is looked at only at the replica count asked for, and a scaling error leaves the upgrade entry alone |
| `Reconciling.RunControl` | pkg/controller/tiflowcluster/tiflow_cluster_control.go:43-98 | master manager, executor manager, condition Sync; the first error ends it |
| `Reconciling.FirstErrorEndsPass` | pkg/controller/tiflowcluster/tiflow_cluster_control.go:43-98 | after a master error nothing of the executor is touched; Apply is reached exactly if both managers and both checks succeed |
| `Reconciling.Reconcile` | controllers/tiflowcluster_controller.go:79-131 | which status is persisted, on success, error, crash and lost update |
| `RunningSoundness.PhaseIsSound` | pkg/status/tiflow_master_status.go:52-92 | from a coupled status the derivation never shows Running beside unfinished work |
| `RunningSoundness.ControlLeavesCoupled` | pkg/controller/tiflowcluster/tiflow_cluster_control.go:43-98 | managers and condition Sync together hand over a coupled status |
| `RunningSoundness.RunningIsSound` | pkg/status/tiflow_master_status.go:52-92 | in every reachable persisted status a Running member has every entry Completed, and ClusterRunning means both are Running |
| `RunningScope.RunningIsSoundExactly` | pkg/condition/tiflow_cluster_master_condition.go:34-43 | that holds for a member exactly if it is not the local master of a heterogeneous cluster |
| `RunningScope.WitnessIsUnsound` | pkg/condition/tiflow_cluster_master_condition.go:34-43 | the three reconciles that break it otherwise |
| `Gate.StepGate` | pkg/manager/member/master_manager.go:276-289 | acting closes the gate for the next reconcile; it stays closed without Apply |
| `Gate.ApplyBetweenActions` | pkg/manager/member/master_manager.go:276-320 | between two reconciles that act on the same member some condition Sync reached Apply |
| `Gate.ApplyMeansObserved` | pkg/condition/tiflow_cluster_condition.go:30-53 | such an Apply saw both members with the desired replicas ready and registered |
| `FailedUpgrades.UpgradeErrorEntersTrace` | pkg/manager/member/master_manager.go:313-320 | a stored reconcile with an upgrade error leaves a Failed entry behind a False condition, and a phase that is not Running |
| `FailedUpgrades.FailedUpgradeIsStuck` | pkg/manager/member/master_manager.go:276-320 | from there no run mid-rollout touches the set, reaches Apply or shows Running |
| `FailedUpgrades.TraceIsLeftExactly` | pkg/condition/tiflow_cluster_master_condition.go:208-219 | from any snapshot, mid-rollout ones with updated or unready pods included, a reconcile leaves the trace exactly if the member's revisions are equal; only then its replicas and members need to be in order |
| `FailedUpgrades.TraceLastsExactly` | pkg/condition/tiflow_cluster_master_condition.go:208-219 | over whole runs: some reconcile reaches Apply exactly if some reconcile finds the revisions equal |
| `UpgradeRuns.FailedUpgradeIsReached` | pkg/manager/member/master_upgrader.go:78-88 | three reconciles from a new status that end there: a new template, and a pod that cannot be read |
| `Convergence.SettledReconcile` | controllers/tiflowcluster_controller.go:79-131 | a reconcile of a settled cluster completes one pending entry of each member, even where the recorded snapshot is an old one with nothing left to release |
| `Convergence.SettledRun` | controllers/tiflowcluster_controller.go:79-131 | after k such reconciles n pending entries are n-k, with Running exactly from the n-th on, whatever snapshot the first one found recorded |
| `Convergence.ReachesRunning` | pkg/status/tiflow_cluster_status.go:46-66 | the cluster ends Running exactly if no member starts with nothing pending in another phase |
| `Trap.TrapIsEnteredExactly` | pkg/status/tiflow_master_status.go:64-67 | a run from a new status ends checked, with nothing pending and not Running, exactly if its first full reconcile reached Apply and no entry was recorded |
| `Trap.TrapIsReached` | pkg/status/tiflow_master_status.go:64-67 | two reconciles that find both sets in place end there, and no settled reconciles after them show Running |
| `Trap.TrapLasts` | pkg/status/tiflow_master_status.go:64-67 | settled reconciles never lead out |
| `RolloutWrites.PartitionIsReset` | pkg/manager/member/master_manager.go:313-322 | between revisions a write is gracefulUpgrade's exactly in phase Upgrading; in any other phase, and only then, a lower partition is put back to the replica count |
| `RolloutWrites.ReconcileInRollout` | pkg/manager/member/master_manager.go:276-322 | after a rollout reconcile the upgrade is on its way, or ended in an error, or lost track of, exactly if the open gate met an unreadable set |
| `RolloutWrites.WritesInRollout` | pkg/manager/member/master_manager.go:276-322 | over runs a write is gracefulUpgrade's exactly as long as no reconcile lost track; every later one resets the partition |
| `UpgradeRuns.PartitionResetIsReached` | pkg/status/tiflow_master_status.go:162-168 | four reconciles from a new status that lower the partition to 0 and then, with the pod read as updated, put it back to 1 |
| `UpgradeProgress.TemplateReconcile` | pkg/manager/member/executor_manager.go:240-248 | the reconcile that brings a new template writes it with the partition at the replica count, puts the upgrade on record, and reaches Apply |
| `UpgradeProgress.RoundReconcile` | pkg/manager/member/executor_manager.go:226-248 | an undisturbed rollout reconcile writes the partition one lower, passes both checks, reaches Apply and stays Upgrading |
| `UpgradeProgress.UpgradeWalks` | pkg/manager/member/executor_upgrader.go:80-116 | reading each time the partition that was written last, R reconciles write R-1, ..., 0 through the gate |
| `UpgradeCompletes.FinalReconcile` | pkg/status/tiflow_master_status.go:150-208 | the reconcile that finds the rollout finished, with a recorded snapshot that still shows two revisions, completes the upgrade and shows Running |
| `UpgradeCompletes.UpgradeCompletes` | pkg/manager/member/master_upgrader.go:39-128 | an undisturbed upgrade from the new template to Running: the partition goes R, R-1, ..., 0, every reconcile reaches Apply, nothing stays pending |
| `UpgradeRuns.UpgradeIsCompleted` | pkg/manager/member/master_upgrader.go:39-128 | a concrete run from a new status that meets all premises of that |
| `Rollout.OneStep` | pkg/manager/member/master_upgrader.go:77-128 | but for resets, a write lowers the partition by at most one, after this scan saw every higher pod updated, ready and fit |
| `Rollout.RolloutInOrder` | pkg/manager/member/executor_upgrader.go:78-116 | over every interleaving in which no plain write of the manager raises the partition: pods below it not updated, at most one released pod stale, releases R-1, R-2, ... each once |
| `Rollout.ResetKeepsOrderExactly` | pkg/manager/member/master_manager.go:463-472 | a plain write that raises the partition keeps that order exactly if no released pod was updated |
| `Rollout.ResetAfterRounds` | pkg/manager/member/master_manager.go:463-472 | after any number of error-free rounds it breaks the order: exactly the top n pods are updated, below a partition at the replica count |
| `UpgradeRuns.OrderIsBroken` | pkg/manager/member/master_manager.go:463-472 | a concrete setting in which that happens with one pod |
| `Rollout.WritesWhatTheCodeWrites` | pkg/manager/member/executor_upgrader.go:38-116 | at every moment the pending write is what gracefulUpgrade computes from the pods as read |
| `Rollout.ScanIsRun` | pkg/manager/member/executor_upgrader.go:80-116 | conversely every scan of the code is a run of the protocol with the same end |
| `Rollout.RolloutStarts` | pkg/manager/member/master_manager.go:463-472 | a new template is written with the partition at the replica count, where the rollout protocol begins |
| `Rollout.RolloutFinishes` | pkg/manager/member/executor_upgrader.go:80-116 | from old pods only, n error-free rounds of the protocol leave exactly the top n pods updated, the partition at R-n and R-1, ..., R-n released; R rounds finish |
| `Pruning.KeepSet` | pkg/manager/member/prune/persistent_volume_pruner.go:151-161 | the keep map holds exactly the claims of ordinals below the replica count |
| `Pruning.Compact` | pkg/manager/member/prune/persistent_volume_pruner.go:175-202 | the in-place loop leaves exactly the deletable claims, in list order |
| `Pruning.SortFront` | pkg/manager/member/prune/persistent_volume_pruner.go:208-210 | the kept part ends up sorted, the rest of the array untouched |
| `Pruning.FindDeletable` | pkg/manager/member/prune/persistent_volume_pruner.go:142-214 | a name-sorted rearrangement of exactly the deletable claims, each as often as listed |
| `PruneOrder.OwnClaims` | pkg/manager/member/prune/persistent_volume_pruner.go:142-199 | of the set's own claims exactly those from the replica count on are deletable |
| `PruneOrder.ClaimsDeletableExactly` | pkg/manager/member/prune/persistent_volume_pruner.go:142-199 | which claims named by any template, set and ordinal are deletable under a list of templates |
| `PruneOrder.ForeignClaimsPassExactly` | pkg/manager/member/prune/persistent_volume_pruner.go:183-195 | a claim of another set passes exactly if that set's name with the ordinal begins with this set's, and it is not in use |
| `PruneOrder.OtherClustersClaims` | pkg/manager/member/prune/persistent_volume_pruner.go:163-173 | another cluster's claims are listed and pass exactly if, besides, both clusters go by one instance name, which takes the instance label |
| `PruneOrder.NothingWithoutTemplates` | pkg/manager/member/executor_manager.go:372-386 | a set without claim templates, as every set that the operator builds, has nothing to prune |
| `PruneOrder.ForeignClaimIsTaken` | pkg/manager/member/prune/persistent_volume_pruner.go:183-195 | two clusters for which every claim of the other, in use or not, is listed and passes |
| `PruneOrder.LowestFirstExactly` | pkg/manager/member/prune/persistent_volume_pruner.go:204-210 | name order is ordinal order exactly if lowest and highest are printed equally wide |
| `PruneRace.OnlyListedClaimsGo` | pkg/manager/member/prune/persistent_volume_pruner.go:215-249 | deleted objects are a prefix of the list with listed UID and version; nothing else is changed; success means all |
| `PruneRace.NoDeletionAfterCancel` | pkg/manager/member/prune/persistent_volume_pruner.go:220-228 | after a cancel at most the deletion already past its check takes effect |
| `PruneRace.ClaimsInUseAreSafe` | pkg/manager/member/prune/persistent_volume_pruner.go:142-249 | from listing to deletion no claim in use is touched |
| `LastApplied.StatefulSet.SetLastApplied` | pkg/manager/utils/statefulset.go:40-50 | the set records its own specification, or nothing on an encoding error |
| `LastApplied.Merge` | pkg/manager/utils/statefulset.go:68-94 | what of the new and what of the existing set is sent, with shared maps and counter |
| `LastApplied.UpdateStatefulSet` | pkg/manager/utils/statefulset.go:53-104 | what is written, and what the call does to its two arguments |
| `LastApplied.SecondUpdateWritesNothing` | pkg/manager/utils/statefulset.go:53-138 | the second call writes nothing exactly under the stated condition; the template always compares equal |
| `LastApplied.OnlyTheseChangesAreWritten` | pkg/manager/utils/statefulset.go:113-138 | a later set is written exactly if annotations, replicas, strategy or template differ |
| `LastApplied.CreatedIsSettled` | pkg/manager/member/master_manager.go:261-275 | a created set is settled from the start, under the same condition |
| `LastApplied.UpdateKeeps` | pkg/manager/utils/statefulset.go:76-94 | timestamp, recorded template configuration and controller are carried over |
| `LastApplied.SpentObjectIsWrittenAgain` | pkg/manager/utils/statefulset.go:74-94 | the object passed in shares the sent annotations and would be written again |
| `ConfigMaps.ConfigMap.AddDigestSuffix` | pkg/manager/utils/configmap.go:18-26 | the name gets seven characters of the sum's second hexadecimal encoding |
| `ConfigMaps.SuffixShows` | pkg/manager/utils/configmap.go:23-34 | two suffixes agree exactly if the sums share three digits and the kind of the fourth |
| `ConfigMaps.SuffixesRunOut` | pkg/manager/utils/configmap.go:18-35 | among any 8193 configurations two share a suffix |
| `ConfigMaps.UpdateConfigMap` | pkg/manager/utils/configmap.go:47-91 | logical equality of the two maps, an error for undecodable text, and the rewritten data |
| `ConfigMaps.ConfirmNameByData` | pkg/manager/utils/configmap.go:143-150 | the name is corrected in both directions |
| `ConfigMaps.UpdateConfigMapIfNeed` | pkg/manager/utils/configmap.go:94-137 | the in-use name stays exactly if the configuration is logically the same, even under digest collisions |
| `ConfigMaps.StepMeaning` | pkg/manager/member/master_manager.go:118-140 | when a reconcile changes the name, and when the map arrived at holds the desired configuration |
| `ConfigMaps.NameFollowsConfig` | pkg/manager/member/master_manager.go:118-140 | over a run the name changes at exactly the reconciles that adopt a really different configuration |
| `ConfigMaps.ClashNeverSettles` | pkg/manager/member/util.go:130-164 | with clashing digests every reconcile switches names and none arrives |
| `ConfigMaps.ClashIsReached` | pkg/manager/utils/configmap.go:143-150 | three configurations with one suffix lead there from a single map |
| `ConfigMaps.InPlaceKeepsFirstData` | pkg/manager/member/util.go:130-164 | in place, whatever is asked for, the map in use keeps its first data |

## Left out

- Calls to the API server, to tiflow-master and TLS: each is an answer, arbitrary unless a lemma says otherwise.
- createOrUpdateObject: only the effect it has on the data of an existing config map (module `ConfigMaps`).
- Builders of pods, volumes, services and containers, start scripts, component defaults: field copying.
- Messages, logging and time stamps, except the transition time of conditions; one clock reading serves a whole reconcile.
- The executor's `NodeSelector` and `Volumes`, images, labels of members, and the master's `ServerAddress`: written but never read by the protocol.
- Overflow of int32 in desired replicas plus failure members: replica counts are unbounded naturals. Ordinals in names are bounded as in the code.
- Negative replica counts or partitions, which API validation rejects.
- Stale reads of the cluster object: every reconcile starts from the status persisted last. One that starts from an older status loses its update to a conflict, but it still acts on the sets, so `Gate.ApplyBetweenActions` and the rollout theorems assume that no reconcile reads an old one. No other writer of the status is modelled.
- Force upgrade beyond its gate: it sets the partition to 0 on purpose and is excluded from the rollout theorems.
- WaitUntilRunning and WaitUntilHealthy: they return at once, and nothing is assumed of them.
- Failover, the Standalone controller, deletion of clusters.
- Graceful deletion of volume claims: a deletion that takes effect removes the object at once.
- sort.Slice itself: `Pruning.SortFront` stands for it.
- SHA-256, TOML and JSON: any sum of 64 hexadecimal digits; any decoder and any equality of documents (an equivalence, which excludes NaN, only where a run is followed); any codec that returns what it encoded.
- Rollout.RolloutInOrder: the template and the replica count are fixed for the run, a scan starts from a snapshot with the current update revision, and no plain write raises the partition; when one does is `RolloutWrites.WritesInRollout`.
- UpgradeCompletes.UpgradeCompletes: for undisturbed upgrades, in which every read and write succeeds, released pods come back fit, no pod is held back for the sake of the leader, and the other member stays in order.
- Rollout.RolloutFinishes: claimed for error-free rounds only; what an upgrade error leads to is `FailedUpgrades.TraceLastsExactly`.
- ConfigMaps.NameFollowsConfig: runs in which the arrived-at name never clashes; `ConfigMaps.StepMeaning` is exact for each step and `ConfigMaps.ClashNeverSettles` shows the other case.
- RegisteredNames.CountCheck: for cluster names and namespaces without newline and without dash-digits-dot in the namespace, which Kubernetes names cannot have, reported names without newline, and at most 2147483647 replicas.
