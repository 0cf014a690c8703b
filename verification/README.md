# Hostpath provisioner operator: a verified model

This project models the operator of the hostpath provisioner in Dafny: the reconcile engine that turns a
`HostPathProvisioner` custom resource into daemon sets, storage pool claims and deployments, service
accounts and ownerless objects; the teardown that unmounts every pool before the finalizer goes; the status
and version machine of the custom resource; the drift repair by three-way JSON merge; the names, mounts and
admission rules they depend on; and the host mounter that the pool deployments and cleanup jobs run.

`dafny verify dfyconfig.toml` checks everything.

## How it is built

`Cluster` is the API server and the world around it: a class whose maps hold the stored objects. Every
request of the operator consumes one event of a schedule. An event says what the environment does just
before (nodes leave and appear, jobs complete, daemon set pods become ready or not) and whether the request
is served, refused, or carried out although the caller sees an error. Nothing is assumed about the
schedule; "calm" means it is empty, so nothing fails and nothing else happens. Methods follow the source
branch by branch; their contracts are predicates on the stored values before and after that hold on every
outcome, so they compose over requests, over runs and over what happens between runs. Whole-run theorems
are lemmas about sequences of such states.

| module | models |
|---|---|
| StoragePools, Convergence, PoolStatuses | claims and deployments for every pool and node, convergence over runs, pool status |
| Cleanup, Teardown | unmount jobs, cleaning on deletion, safety until the finalizer goes |
| DaemonSets, ServiceAccounts, Objects, ObjectProofs, Holdings, Settling | everything else that is managed; healing, rest, nothing left behind |
| Json, Drift, DriftProofs | the merge-patch library, the merge helpers, and what repair achieves |
| Conditions, Versions, VersionProofs, Lifecycle, Lifetimes, Controller | the custom resource and the reconcile runs |
| Names, Admission, PodWiring, Mounter | names and hashes, the webhook, the CSI pod, the host mounter |

## Where the code does not do what one might expect

- Labels and annotations, the last-applied annotation among them, are merged into the found object before the
  three-way merge reads that annotation. The original is therefore the new desired object, and fields dropped
  from the desired object are never deleted (`DroppedFieldSurvives`, against `DroppedFieldWouldGo`).
- The PrometheusRule is its own desired object: it is never repaired, and once its annotation is gone every
  reconcile fails (`RuleNeverRepaired`).
- `<pool>-<node>` is not injective. It is on all nodes if and only if no pool name is a dash extension of
  another (`DistinctIffNoConfusion`). Two pairs that contend for one deployment leave no state of rest (`RestIffAgree`), and
  every completed run writes (`ContendersNeverRest`).
- The pool of a deleted deployment is found by name prefix: the right one if and only if no earlier pool name is
  a prefix of the pair (`PrefixFindsPool`); for a hashed name, whatever pool name happens to be a prefix of the hash.
- A cleanup job name starts with a dash when pool and node names take exactly 53 characters together with the
  dash between them (`JobNameStartsWithDash`). The API server refuses such a name, and a refused job is only logged, so the
  finalizer goes without an unmount (`FinalizerWithoutUnmount`). `SafeTeardown` has this as its third case.
- A completed cleanup job left over from before the deletion satisfies the gate as well. `ReleasedAtOnce` says exactly
  when one run lets go of the resource although nothing was unmounted; `CleanStartUnmounts` says what to check beforehand.
- A deployment made for a pool that is no longer in the spec keeps the finalizer forever (`LeftBehind`).
- A teardown looks up by name what it deletes, not by owner. A deployment that the custom resource does not control goes
  if it has the name of a pool's deployment on a live node that holds a managed one (`ForeignGoes` is the exact condition).
- During reconciliation an unused deployment is deleted before its node is looked up and its job created. Once the
  deletion took effect later runs find nothing to do. So for a deployment whose name leads to a pool, with its node still
  there, the unmount is lost for good in exactly these cases (`Loses`, `LostUnmount`): a completed job of that name is left
  over; or there is no job of that name, and the answer to the deletion is lost, the node lookup fails, the creation of the
  job is refused, or the job name starts with a dash. In the last two cases, and with a job left over, the run itself can
  succeed. Without refused requests and jobs left over, 53 characters are the one exception (`JobUnlessDashed`).
- Quiescence: a run on a settled state writes nothing provided each pool lists at most one claim. The client's
  cache lists objects in no particular order, so with two claims the order of the reported claim statuses, and with it the
  custom resource, can change from run to run (`ToldIffOneClaimEach` is the exact condition).
- It also takes that every claim is bound (`QuietIffBound`). With ready daemon sets and an unbound claim every run
  marks healthy and then failed, so transition times move and the custom resource is written each time, forever (`NeverAtRest`).
- A recreated CSI daemon set has a new uid. Until its pods run, no node counts as used (`StillHoused`), and the run that
  recreates it deletes all pool deployments. A completed run does so exactly when no node ran a live CSI pod at its start
  (`PoolsEmptyIffUnused`).
- A pool name with empty, dot or misplaced parent elements between slashes is admitted, but the pool list names
  another directory than its mount (`CreateCsiPod` has the exact condition, `DoubledSlashIsNotNeat` an input).
- The unmount loop takes "nothing changed" for done: it leaves exactly `Leftover`, and nothing if and only if no two
  neighbours in the stack share a source (`EverythingUnmounted`). It also takes away what was mounted there before (`OldStackBack`).
- A pod mount that is hidden behind another device is bound again in every iteration (`ShadowedMountsPileUp`).
- The repeat request of `reconcileUpdate` (controller.go:639-641) is dropped by its caller (controller.go:451-453).

## Model

| member | source | states |
|---|---|---|
| StoragePools.ReconcileStoragePools | pkg/controller/hostpathprovisioner/storagepool.go:67-125 | one run, cut off at any request: creates and changes only what wanted pairs ask for, deletes only managed deployments nobody wants, keeps every claim and class; on success every wanted pair is in place, no unwanted deployment is left, and each deleted one whose node stayed has the cleanup job of the pool its name leads to, or was refused it, which without refused requests happens to dashed names only; of the deployments a failed run deleted at most one was neither given its job nor refused it; jobs are made for deployments that are gone and for nothing else; a completed run writes nothing if and only if it starts at rest |
| StoragePools.JobUnlessDashed | pkg/controller/hostpathprovisioner/storagepool.go:111-123 | after a completed run in which no request was refused, a deleted deployment whose node stayed and whose name leads to a pool has its job, if there never was one of that name, if and only if pool and node do not take 53 characters with the dash |
| StoragePools.CreatePhase | pkg/controller/hostpathprovisioner/storagepool.go:67-110 | the run up to the deletions: new claims come from the templates of wanted pairs, deployments never lose their owner, and the working map is left with exactly the managed deployments no pair names |
| StoragePools.CreateAll | pkg/controller/hostpathprovisioner/storagepool.go:77-110 | the creating loops over pools and nodes consume the working map by exactly the wanted names, whatever the order of nodes |
| StoragePools.ReconcilePool | pkg/controller/hostpathprovisioner/storagepool.go:78-108 | one pool on all nodes, as a stage of the creating phase: progress on every outcome, everything of the pool in place when it is through, no write if it was up to date; nothing for a shared pool without nodes |
| StoragePools.ReconcileSharedPool | pkg/controller/hostpathprovisioner/storagepool.go:81-97 | the shared claim comes before every deployment that mounts it, and the storage class last |
| StoragePools.StageThen | pkg/controller/hostpathprovisioner/storagepool.go:77-110 | stages of the creating phase add up, with their writes and their requests |
| StoragePools.ReconcileNodes | pkg/controller/hostpathprovisioner/storagepool.go:87-106 | the loop over nodes as a stage: the deployments of all nodes are placed and taken out of the working map, earlier ones stay in place |
| StoragePools.ReconcilePair | pkg/controller/hostpathprovisioner/storagepool.go:99-106 | a stage for one pool on one node: its own claim exists before its deployment is created, on every outcome |
| StoragePools.ReconcileDeploymentByNode | pkg/controller/hostpathprovisioner/storagepool.go:264-311 | the deployment is created or refreshed or untouched, refreshed keeps foreign labels, owner and the deprecated field; a deployment created here stays out of the working map, a found one leaves it |
| StoragePools.ReconcileClaim | pkg/controller/hostpathprovisioner/storagepool.go:216-262 | a missing claim is created from the template, an existing one is never touched |
| StoragePools.ReconcileBackendStorageClass | pkg/controller/hostpathprovisioner/storagepool.go:192-214 | a missing class is created, an existing one is never touched |
| StoragePools.GetNodesByDaemonSet | pkg/controller/hostpathprovisioner/storagepool.go:346-400 | exactly the nodes that run a pod with the app label that is not going away and that the present CSI daemon set controls; in a calm cluster it fails exactly when such a node is gone |
| StoragePools.DeleteUnused | pkg/controller/hostpathprovisioner/storagepool.go:111-123 | on success all given deployments are gone, and each that belonged to a pool by its name has a job, lost its node, or was refused the job; on failure at most one that is gone is none of these |
| StoragePools.DeleteUnusedDeployment | pkg/controller/hostpathprovisioner/storagepool.go:113-122 | the deployment stays if and only if its deletion is refused; once gone, with its node still there, a job that had not completed before is there if and only if the events do not lose it; the run fails then if and only if the answer to the deletion is lost or the node lookup fails |
| StoragePools.LostUnmount | pkg/controller/hostpathprovisioner/storagepool.go:67-125 | two runs from any state at rest but for one unwanted deployment, with the creating requests served in peace: unless its deletion is refused it is gone, later runs find nothing to do, and a job that had not completed before is there if and only if the events do not lose it, provided the node stays |
| StoragePools.RunConverges | pkg/controller/hostpathprovisioner/storagepool.go:67-125 | creating, then deleting what the creating loops left over, ends exactly at the wanted deployments |
| StoragePools.RunLosesNothing | pkg/controller/hostpathprovisioner/storagepool.go:73-123 | stopping between any two requests never loses a wanted deployment nor keeps a claim from its deployment |
| StoragePools.ProgressTransitive | pkg/controller/hostpathprovisioner/storagepool.go:77-110 | the guarantees of the creating phase add up over any sequence of its requests |
| Convergence.ExactConvergence | pkg/controller/hostpathprovisioner/storagepool.go:67-125 | when nobody else holds a wanted name, the managed deployments are exactly the wanted names, each pinned to its node, under the operator's account, with its pool's label, path, mode and claim, which is the pool's if the template says ReadWriteMany and the pair's otherwise |
| Convergence.SpecIsMet | pkg/controller/hostpathprovisioner/storagepool.go:67-125 | after a completed run each pool with a claim template has its deployment on each node in use, a shared one its storage class, and nothing else is managed |
| Convergence.OnlyWantedIsMade | pkg/controller/hostpathprovisioner/storagepool.go:192-262 | a run, cut off or not, makes claims for wanted pairs only, unbound, with the template and label of their pool, and classes for wanted shared pools only, under the name the pool asks for or the default |
| Convergence.RefreshKeeps | pkg/controller/hostpathprovisioner/storagepool.go:264-317 | an update of a found deployment keeps its owner, its ready pods, the deprecated account field and the labels that are not the operator's |
| Convergence.ForeignIsSpared | pkg/controller/hostpathprovisioner/storagepool.go:318-344 | a run, cut off or not, never deletes a deployment that the custom resource does not control or that lacks the app label, and changes it only under a wanted name |
| Convergence.OffNeverGrows | pkg/controller/hostpathprovisioner/storagepool.go:73-123 | a run that is cut off anywhere never enlarges the difference between owned and wanted |
| Convergence.DifferenceShrinks | pkg/controller/hostpathprovisioner/storagepool.go:67-125 | over any number of runs and what happens in between, the difference only shrinks, and it is empty from the first completed run on |
| Convergence.ConvergedRests | pkg/controller/hostpathprovisioner/storagepool.go:264-311 | a completed run leaves nothing for the next one to write |
| Convergence.RestIffAgree | pkg/controller/hostpathprovisioner/storagepool.go:264-311 | a state of rest exists if and only if wanted pairs with the same deployment name ask for the same deployment |
| Convergence.ContendersNeverRest | pkg/controller/hostpathprovisioner/storagepool.go:264-311 | otherwise no completed run is without a write, whatever happens in between: there are at least as many writes as runs |
| Convergence.NoConfusionAgrees | pkg/controller/hostpathprovisioner/storagepool.go:476 | pool names none of which is a dash extension of another agree, on any nodes whose names fit |
| Convergence.PrefixFindsPool | pkg/controller/hostpathprovisioner/storagepool.go:127-134 | a deleted deployment is unmounted for its own pool if and only if no earlier pool name is a prefix of its pair's name |
| Convergence.ClaimsComeFirstAndStay | pkg/controller/hostpathprovisioner/storagepool.go:77-108 | in every reachable state each deployment of the custom resource mounts a claim that exists; no claim is ever deleted or rewritten, also when templates change |
| Cleanup.CreateCleanupJobForNode | pkg/controller/hostpathprovisioner/storagepool.go:781-877 | the job is created on that pool and node, exists already, or is refused, which is only logged and happens only to a name that starts with a dash or by a refused request |
| Cleanup.CreateCleanupJobForDeployment | pkg/controller/hostpathprovisioner/storagepool.go:173-190 | no node is returned only when the node is gone; otherwise the job for that pool and node is taken care of |
| Cleanup.CurrentStoragePoolDeployments | pkg/controller/hostpathprovisioner/storagepool.go:318-344 | lists a deployment if and only if the custom resource controls it and it is labelled as the app |
| Cleanup.HasCleanUpFinished | pkg/controller/hostpathprovisioner/storagepool.go:730-742 | true exactly when every job there is completed |
| Cleanup.RemoveCleanUpJobs | pkg/controller/hostpathprovisioner/storagepool.go:744-760 | on success no job is left; no job is created or changed on the way |
| Cleanup.ReconcileCleanup | pkg/controller/hostpathprovisioner/controller.go:471-489 | jobs go only once all completed and the expected number of deployments is left; otherwise they stay and the run asks to be repeated |
| Cleanup.CoveredStays | pkg/controller/hostpathprovisioner/storagepool.go:781-877 | once a job was taken care of, it stays so: jobs disappear only after completing |
| Teardown.CleanDeployment | pkg/controller/hostpathprovisioner/storagepool.go:144-167 | one managed deployment against one pool: whatever is deleted had its unmount job taken care of first, or its node was gone; in a calm cluster it is exactly the pool's deployment on that node, or the one at hand if the node is gone |
| Teardown.CleanPool | pkg/controller/hostpathprovisioner/storagepool.go:138-168 | after a pool is cleaned, no managed deployment is left that the pool names on the deployment's own node; in a calm cluster exactly what the managed deployments lead to is gone |
| Teardown.CleanDeployments | pkg/controller/hostpathprovisioner/storagepool.go:136-171 | a whole cleaning, cut off anywhere, is a step of the teardown; when it succeeds no pool with a template names what is left; in a calm cluster exactly AfterCleaning is left, on live nodes |
| Teardown.ForeignIsSpared | pkg/controller/hostpathprovisioner/storagepool.go:136-171 | no step of a teardown touches a deployment that the custom resource does not control or that lacks the app label, unless it has the name of a pool's deployment on some node |
| Teardown.ForeignGoes | pkg/controller/hostpathprovisioner/storagepool.go:136-171 | and a calm cleaning deletes such a deployment if and only if, at some pool's turn, a managed deployment is left on a live node on which the pool's deployment has that name |
| Teardown.TornTransitive | pkg/controller/hostpathprovisioner/storagepool.go:136-190 | steps of a teardown, and time passing, compose: an excuse once given stays valid |
| Teardown.SafeTeardown | pkg/controller/hostpathprovisioner/controller.go:370-410 | over all runs until the finalizer can go, whatever fails: every deployment there was at the start lost its node, or a pool of its name was unmounted by a completed job, or that job was refused |
| Teardown.EveryPairUnmounted | pkg/controller/hostpathprovisioner/controller.go:370-410 | when the deployment and job names of the pools on these nodes are distinct, hashed or not, the finalizer goes only after each pool was unmounted, wherever the node never left, by a job that the teardown made for that very pool and node, unless a job of that name had been made before or was refused |
| Teardown.CleanStartUnmounts | pkg/controller/hostpathprovisioner/controller.go:370-410 | with no job from before, no request refused and no pair of 53 characters, all checkable beforehand, every pool is unmounted wherever the node never left |
| Teardown.NoConfusionApart | pkg/controller/hostpathprovisioner/storagepool.go:788 | names are distinct for pool names that are no dash extensions of each other, on nodes that make pairs of at most 53 characters |
| Teardown.LeftBehind | pkg/controller/hostpathprovisioner/storagepool.go:136-171 | a managed deployment on a node that stays, whose name no pool of the spec gives rise to on these nodes, keeps the finalizer forever |
| Teardown.WhatIsLeft | pkg/controller/hostpathprovisioner/storagepool.go:136-171 | a run without failures leaves exactly the deployments on live nodes that were made for no pool of the spec, and so none if and only if each was made for a pool or lost its node |
| Controller.FinalizerWithoutUnmount | pkg/controller/hostpathprovisioner/controller.go:370-410 | one call of Reconcile: when each pair has a completed job left over or takes 53 characters, all deployments go, and so does the finalizer, with no job made and none completed, and no node lost |
| Controller.ReleasedAtOnce | pkg/controller/hostpathprovisioner/controller.go:370-410 | from a converged start one call of Reconcile in a calm cluster takes the finalizer away if and only if every job there is completed and each pair has a job left over or takes 53 characters |
| Controller.TeardownInTwoRuns | pkg/controller/hostpathprovisioner/controller.go:370-410 | two calls of Reconcile in a calm cluster, with the jobs completing in between: when every managed deployment was made for a pool of the spec, all of them go and then the finalizer does |
| Controller.Release | pkg/controller/hostpathprovisioner/controller.go:377-410 | with nothing left to clean up, everything without an owner goes before the finalizer does |
| Controller.ReconcileDeletion | pkg/controller/hostpathprovisioner/controller.go:370-410 | a deletion run is a step of the teardown and of removing ownerless objects; without an error its pools are cleaned, and unless it asks to be repeated the finalizer goes; the finalizer goes only when no managed deployment, no job and no doomed object is left; a calm run has no error, leaves exactly AfterCleaning, and asks to be repeated only for a managed deployment or an unfinished job |
| Lifecycle.RemoveFinalizer | pkg/controller/hostpathprovisioner/controller.go:731-745 | every occurrence of the finalizer goes and no other |
| PoolStatuses.ReconcileStoragePoolStatus | pkg/controller/hostpathprovisioner/storagepool.go:676-728 | success replaces the statuses by one per pool in name order, all reported claims bound; an error leaves the old statuses untouched; in a calm cluster it succeeds exactly when all claims are bound |
| PoolStatuses.StatusOfPool | pkg/controller/hostpathprovisioner/storagepool.go:685-714 | the number of deployments the custom resource controls with the pool's label, how many of those have exactly one ready pod, and every claim with the label, all bound; in a calm cluster it fails exactly when one is not |
| PoolStatuses.CountReady | pkg/controller/hostpathprovisioner/storagepool.go:692-697 | the counting loop counts each ready deployment once |
| PoolStatuses.GetClaimStatuses | pkg/controller/hostpathprovisioner/storagepool.go:646-674 | every labelled claim once, with its phase, in some order |
| PoolStatuses.CheckBound | pkg/controller/hostpathprovisioner/storagepool.go:703-707 | fails exactly when a claim is not bound, and names the first such |
| PoolStatuses.Sort | pkg/controller/hostpathprovisioner/storagepool.go:723-725 | a sorted permutation |
| PoolStatuses.PermutedReports | pkg/controller/hostpathprovisioner/storagepool.go:676-728 | sorting keeps the correspondence between pools and statuses |
| PoolStatuses.CountedOnce | pkg/controller/hostpathprovisioner/storagepool.go:616-644 | deployments and claims are counted for at most one admitted pool, and ready ones never exceed all |
| Settling.ReportAddsUp | pkg/controller/hostpathprovisioner/storagepool.go:676-728 | the stored numbers add up to the number of distinct deployments that carry a reported pool's label, none of them counted twice |
| PoolStatuses.ConvergedCounts | pkg/controller/hostpathprovisioner/storagepool.go:616-714 | after a completed run a pool with a template counts exactly one deployment for each node in use |
| Settling.ListedOneWay | pkg/controller/hostpathprovisioner/storagepool.go:646-674 | a pool's claims can be listed in one way only if and only if there is at most one: lists come in no order |
| Settling.ReportsUnique | pkg/controller/hostpathprovisioner/storagepool.go:676-728 | with distinct names and at most one claim each, all reports of the same state are equal |
| Settling.AnotherReport | pkg/controller/hostpathprovisioner/storagepool.go:676-728 | with two claims in one pool every report of the same state can be replaced by a different one |
| DaemonSets.ReconcileDaemonSets | pkg/controller/hostpathprovisioner/daemonset.go:77-106 | success leaves both daemon sets as the spec wants them and no duplicate; fails in a calm cluster exactly when a wanted daemon set has a junk selector, and then one such is gone; the CSI daemon set keeps its uid or gets a fresh one; up to date means no write; cut off anywhere, it leaves every other daemon set alone |
| DaemonSets.UpToDateMeans | pkg/controller/hostpathprovisioner/daemonset.go:172-228 | up to date, written out: account, selector, labels, placement and snapshots of both daemon sets, the pools of the CSI one in order with name, path, provider and sharing, the legacy one in legacy mode only, and nothing an earlier version named after the custom resource |
| DaemonSets.UpdateKeeps | pkg/controller/hostpathprovisioner/daemonset.go:246-260 | an update keeps owners, uid, scheduler, selector and the labels that are not the operator's |
| DaemonSets.ReconcileDaemonSetForSa | pkg/controller/hostpathprovisioner/daemonset.go:108-170 | created, updated keeping owners, uid, scheduler and foreign labels, or deleted with an error for its selector |
| DaemonSets.ReconcileLegacyDaemonSet | pkg/controller/hostpathprovisioner/daemonset.go:90-101 | on success the legacy daemon set exists if and only if the spec is legacy |
| DaemonSets.ReconcileCsiDaemonSet | pkg/controller/hostpathprovisioner/daemonset.go:102-105 | only the CSI daemon set changes, and its junk selector is the one reason to fail in a calm cluster |
| DaemonSets.DeleteDuplicates | pkg/controller/hostpathprovisioner/daemonset.go:80-88 | removes exactly what an earlier version named after the custom resource |
| DaemonSets.DeleteDaemonSet | pkg/controller/hostpathprovisioner/daemonset.go:230-244 | a missing daemon set counts as deleted |
| DaemonSets.RenewedIsCurrent | pkg/controller/hostpathprovisioner/daemonset.go:144-165 | what an update writes needs no further update |
| DaemonSets.StillHoused | pkg/controller/hostpathprovisioner/storagepool.go:381-386 | nodes in use stay the same while the daemon set keeps its uid, and there are none right after it was recreated |
| Holdings.PoolsEmptyIffUnused | pkg/controller/hostpathprovisioner/storagepool.go:111-125 | when nobody else holds a wanted name, a completed run removes all pool deployments if and only if no node ran a live pod of the CSI daemon set when it began, as in every run that recreates the daemon set |
| ServiceAccounts.ReconcileServiceAccounts | pkg/controller/hostpathprovisioner/serviceaccount.go:39-122 | accounts of earlier versions go, wanted ones are created or repaired; of daemon sets and deployments only what runs under a wanted account that was missing goes |
| ServiceAccounts.ReconcileAccount | pkg/controller/hostpathprovisioner/serviceaccount.go:62-120 | workloads are touched only when the account was created anew, and then exactly those that run under it go |
| ServiceAccounts.DeleteDaemonSetsWithSa | pkg/controller/hostpathprovisioner/serviceaccount.go:137-153 | only daemon sets under the account go; in a calm cluster exactly those with available pods |
| ServiceAccounts.DeleteDeploymentsWithSa | pkg/controller/hostpathprovisioner/serviceaccount.go:155-169 | exactly the deployments with ready pods under the account go, whoever owns them |
| ServiceAccounts.DeleteRunningPodsWithSa | pkg/controller/hostpathprovisioner/serviceaccount.go:124-135 | nothing appears or changes, workloads under the account go |
| ServiceAccounts.DeleteDuplicates | pkg/controller/hostpathprovisioner/serviceaccount.go:42-51 | removes exactly the accounts an earlier version named after the custom resource, or some of them when cut off |
| Objects.ReconcileObject | pkg/controller/hostpathprovisioner/rbac.go:53-100 | creates or repairs one object; the result is the aim or the object is untouched; in shape means no write; fails in a calm cluster exactly when the merge does; desired and found may be one object |
| ObjectProofs.AimMeans | pkg/controller/hostpathprovisioner/rbac.go:53-100 | the aim: what is missing is created with its annotation; the rule is left as found; everything else but the driver is the found object with the annotated desired one laid over it |
| ObjectProofs.DriverAimMeans | pkg/controller/hostpathprovisioner/csidriver.go:63-116 | the aim for a driver, field by field of its spec: the four immutable fields as found, the operator's other values and lists as desired, the rest as found |
| Objects.ReconcileResource | pkg/controller/hostpathprovisioner/rbac.go:53-100 | a pass over one wanted key, finished or not |
| Objects.ReconcileLegacy | pkg/controller/hostpathprovisioner/rbac.go:41-49 | wanted in legacy mode, deleted otherwise |
| Objects.ReconcileClusterRole | pkg/controller/hostpathprovisioner/rbac.go:138-152 | touches the two cluster roles only and on success both are as their goals ask |
| Objects.ReconcileClusterRoleBinding | pkg/controller/hostpathprovisioner/rbac.go:36-51 | touches the two bindings only and on success both are as their goals ask |
| Objects.ReconcileConstraints | pkg/controller/hostpathprovisioner/scc.go:38-54 | nothing where the group is not served, otherwise both constraints as their goals ask |
| Objects.ReconcilePrometheusInfra | pkg/controller/hostpathprovisioner/prometheus.go:54-75 | nothing where the group is not served, otherwise all five objects as their goals ask |
| Objects.ReconcileOwnerless | pkg/controller/hostpathprovisioner/controller.go:590-624 | a pass over all ownerless objects: each is as before or as its goal asks; fails in a calm cluster exactly when some wanted object cannot be merged |
| Settling.GoalMeans | pkg/controller/hostpathprovisioner/controller.go:590-624 | which objects by kind and name are wanted, unwanted or left alone, by legacy mode and the API groups served; these are all that a run goes through |
| Objects.PhaseThen | pkg/controller/hostpathprovisioner/controller.go:590-624 | passes over disjoint objects compose |
| Objects.PhaseApart | pkg/controller/hostpathprovisioner/controller.go:590-624 | a pass does not disturb what others are responsible for |
| Objects.DeleteOwnerless | pkg/controller/hostpathprovisioner/controller.go:377-401 | removes nothing but the doomed objects, and all of them on success |
| Settling.DoomedMeans | pkg/controller/hostpathprovisioner/controller.go:377-401 | which objects by kind and name a deletion removes, by the API groups served |
| Objects.DeleteAllRbac | pkg/controller/hostpathprovisioner/controller.go:520-544 | four kinds for each of the three names, in order, cut off anywhere |
| Objects.DeletePrometheusResources | pkg/controller/hostpathprovisioner/prometheus.go:129-185 | all five monitoring objects where the group is served |
| Objects.DeleteConstraints | pkg/controller/hostpathprovisioner/controller.go:378-389 | both constraints where the group is served |
| ObjectProofs.AimInShape | pkg/controller/hostpathprovisioner/rbac.go:71-95 | whatever is found, and whether the desired object holds nulls or not, one repair makes it an object that needs none and that the API server vouches for |
| ObjectProofs.NullsAreBuilt | pkg/controller/hostpathprovisioner/scc.go:125-206 | objects with null fields, as security context constraints are encoded, are among those the repair theorems cover |
| ObjectProofs.CompletedRests | pkg/controller/hostpathprovisioner/rbac.go:53-100 | on stored objects no merge fails, and a completed pass leaves nothing for the next one to write |
| ObjectProofs.RuleNeverRepaired | pkg/controller/hostpathprovisioner/prometheus.go:62 | the rule that is its own desired object is never repaired, whatever is wanted, and fails forever without the annotation |
| ObjectProofs.DriverStays | pkg/controller/hostpathprovisioner/csidriver.go:63-92 | a repaired driver is again one that can be repaired |
| Settling.NothingLeftBehind | pkg/controller/hostpathprovisioner/controller.go:377-410 | over any specs, failed runs and failed deletions, once a deletion finishes no ownerless object the operator created is left but claims and storage classes |
| Settling.WantedIsDeleted | pkg/controller/hostpathprovisioner/controller.go:520-544 | whatever any spec makes the operator create without an owner, the deletion covers |
| Json.ThreeWayMeans | vendor/k8s.io/apimachinery/pkg/util/jsonmergepatch/patch.go:31-88 | the three-way patch never conflicts on null-free desired objects, and applying it means, key by key: desired wins, what only the original had goes, the rest of current stays |
| Json.ThreeWayOfBare | vendor/k8s.io/apimachinery/pkg/util/jsonmergepatch/patch.go:31-88 | against an original that says the same but for annotations added since, a desired object with nulls merges like the one without them: nothing is deleted, and there is no conflict |
| Json.NeverConflicts | vendor/k8s.io/apimachinery/pkg/util/jsonmergepatch/patch.go:62-68 | additions and deletions of a three-way patch never contradict each other |
| Json.PatchedAt | vendor/gopkg.in/evanphx/json-patch.v4/merge.go:29-51 | what the combined patch does at each key |
| Json.ChangesAt | vendor/gopkg.in/evanphx/json-patch.v4/merge.go:335-389 | what the additions and changes contain at each key |
| Json.DeletionsAt | vendor/k8s.io/apimachinery/pkg/util/jsonmergepatch/patch.go:109-150 | what the deletions contain at each key |
| Json.PruneNullFree | vendor/gopkg.in/evanphx/json-patch.v4/merge.go:53-99 | pruning nulls leaves a null-free value alone |
| DriftProofs.RepairIsOverlay | pkg/controller/hostpathprovisioner/rbac.go:71-95 | repair as it is called lays the desired object without its nulls over the found one, for every found object and whatever was applied before |
| DriftProofs.RepairAgain | pkg/controller/hostpathprovisioner/rbac.go:71-95 | repairing a second time changes nothing, for desired objects with nulls too |
| DriftProofs.OverlayWins | pkg/controller/hostpathprovisioner/util.go:63-107 | every desired leaf and array wins |
| DriftProofs.OverlaySpares | pkg/controller/hostpathprovisioner/util.go:63-107 | every place desired says nothing about survives |
| DriftProofs.RepairMeans | pkg/controller/hostpathprovisioner/util.go:43-107 | a repair never fails and means the three-way merge with the found object before labels were written into it |
| DriftProofs.RepairIdempotent | pkg/controller/hostpathprovisioner/rbac.go:71-95 | repairing twice is repairing once, so the second run writes nothing |
| DriftProofs.RepairSection | pkg/controller/hostpathprovisioner/util.go:43-61 | labels and annotations after a repair, whether the found object had any or not: the operator's restored, everybody else's kept |
| DriftProofs.DriverRepair | pkg/controller/hostpathprovisioner/csidriver.go:63-116 | the four immutable fields always keep the found values, and a second repair writes nothing |
| DriftProofs.DroppedFieldSurvives | pkg/controller/hostpathprovisioner/rbac.go:75-78 | a field the operator no longer mentions survives repair, whatever other annotations there are, because the annotation is overwritten before it is read |
| DriftProofs.DroppedFieldWouldGo | pkg/controller/hostpathprovisioner/util.go:67-99 | with the annotation as it was found, that field would go |
| DriftProofs.MeaningIdempotent | pkg/controller/hostpathprovisioner/util.go:63-107 | merging the result once more changes nothing |
| DriftProofs.MeaningIsOverlay | pkg/controller/hostpathprovisioner/util.go:63-107 | without anything to delete, a merge is an overlay |
| Drift.MergeLabelsAndAnnotations | pkg/controller/hostpathprovisioner/util.go:43-61 | the found object gets all labels and annotations of desired over its own; nothing happens when both are one object |
| DriftProofs.WrittenFirst | pkg/controller/hostpathprovisioner/util.go:43-61 | written out: every label and annotation of desired over what was there, and nothing else |
| Drift.SetLastAppliedConfiguration | pkg/controller/hostpathprovisioner/util.go:122-135 | the object carries its own earlier encoding, which is not part of that encoding |
| Drift.Merge | pkg/controller/hostpathprovisioner/util.go:63-107 | the outcome of the merge and the creation time stamped on desired |
| DriftProofs.StampedMeans | pkg/controller/hostpathprovisioner/util.go:75-76 | the creation time is the found one, or none if there is none; nothing else of desired changes |
| Drift.CopyImmutableFields | pkg/controller/hostpathprovisioner/csidriver.go:109-116 | desired takes over the four fields, also when the found object lacks them |
| Names.ShorteningIsTight | pkg/controller/hostpathprovisioner/util.go:137-161 | no slice out of range, never over the limit, exact when the base is cut, unchanged when it fits |
| Names.PoolNamesInjective | pkg/controller/hostpathprovisioner/daemonset.go:420-425 | labels and mount names are injective on admitted pool names |
| Names.PairNamesCollide | pkg/controller/hostpathprovisioner/storagepool.go:476 | two pairs have the same text if and only if one pool name is a dash extension of the other and the nodes make up for it |
| Names.DistinctIffNoConfusion | pkg/controller/hostpathprovisioner/storagepool.go:476 | deployment names are distinct for all nodes if and only if no pool name is a dash extension of another |
| Names.DeploymentNamesDistinct | pkg/controller/hostpathprovisioner/storagepool.go:476 | no other pair, hashed or not, has the name of a pair that fits |
| Names.JobNameShape | pkg/controller/hostpathprovisioner/storagepool.go:788 | the text of the pair up to 53 characters, behind a prefix that depends on the length alone; beyond that a hash |
| Names.ClaimNameShape | pkg/controller/hostpathprovisioner/storagepool.go:608-614 | a claim name is the text of the pair, or of the shared pool, up to the limit, and a hash beyond |
| Names.HashVectors | pkg/controller/hostpathprovisioner/util.go:163-170 | the published 32-bit FNV-1a values of two texts |
| Names.HashIsHex | pkg/controller/hostpathprovisioner/util.go:163-170 | the eight digits in a name are that number in hexadecimal, with leading zeros |
| Names.JobsDistinct | pkg/controller/hostpathprovisioner/storagepool.go:788 | the same for cleanup jobs: a pair of at most 53 characters shares its job name with no other pair, hashed or not |
| Names.JobNameStartsWithDash | pkg/controller/hostpathprovisioner/storagepool.go:788 | a cleanup job name starts with a dash if and only if pool and node take 53 characters with the dash between them |
| Names.DeploymentNameShape | pkg/controller/hostpathprovisioner/util.go:137-161 | a deployment name is the pair's text, or nothing but a hash of it, depending on its length alone |
| PodWiring.CreateCsiPod | pkg/controller/hostpathprovisioner/daemonset.go:478-815 | from every admitted spec: volume names distinct and every mount names a volume; after four fixed volumes one for each pool, in order, at the pool's path, seen by the driver and the registrar and by no other container; every container mounts the socket, and there is one more with snapshots; entry i of the pool list with that pool's name, provider and sharing; its mount path followed by /csi if and only if the mount name is a neat path; with a path config the one at its path |
| PodWiring.BuildPathArg | pkg/controller/hostpathprovisioner/daemonset.go:427-445 | the slice is rewritten in place, element by element, and nothing else of it changes |
| PodWiring.AppendPoolMounts | pkg/controller/hostpathprovisioner/daemonset.go:808-812 | only the two containers that see the pools get their mounts |
| PodWiring.GetStoragePoolPaths | pkg/controller/hostpathprovisioner/daemonset.go:400-418 | one element for each pool of the spec with its name, path, snapshot provider and sharing, or the one of the legacy path |
| PodWiring.BuildVolumes | pkg/controller/hostpathprovisioner/daemonset.go:447-462 | volume i belongs to element i |
| PodWiring.BuildVolumeMounts | pkg/controller/hostpathprovisioner/daemonset.go:464-476 | mount i belongs to element i |
| PodWiring.PoolVolumesDiffer | pkg/controller/hostpathprovisioner/daemonset.go:420-462 | volumes of different pools have different names |
| PodWiring.MountsFindVolumes | pkg/controller/hostpathprovisioner/daemonset.go:804-812 | every mount of every container finds its volume |
| PodWiring.CleanKeepsNeat | pkg/controller/hostpathprovisioner/daemonset.go:435-437 | cleaning a path leaves it alone if and only if it has no empty or dot element and parent elements only at the start of a relative path |
| PodWiring.SlashFreeIsNeat | pkg/controller/hostpathprovisioner/daemonset.go:435-437 | an admitted pool name without a slash always makes a neat mount name |
| PodWiring.DoubledSlashIsNotNeat | pkg/apis/hostpathprovisioner/v1beta1/hostpathprovisioner_webhook.go:59-102 | a pool name with two slashes in a row is admitted, and its entry in the pool list is not where it is mounted |
| Admission.Validate | pkg/apis/hostpathprovisioner/v1beta1/hostpathprovisioner_webhook.go:59-86 | admits a spec if and only if exactly one way is set, within bounds and without repetition; a reported duplicate is the first offending pool and its first earlier twin |
| Admission.ValidatePool | pkg/apis/hostpathprovisioner/v1beta1/hostpathprovisioner_webhook.go:88-102 | accepts exactly names of 1 to 50 and paths of 1 to 255 characters, and says which of the four limits is the first one broken |
| Mounter.BindMountPathOnHost | cmd/mounter/main.go:260-316 | binds the first kubelet pod mount of the whole device unless the device is mounted at the target already; gives up exactly when there is neither, written out over the mount table |
| Mounter.MountLoop | cmd/mounter/main.go:152-170 | as many iterations as one likes |
| Mounter.AtMostOneMount | cmd/mounter/main.go:260-316 | any number of iterations, whichever fail, adds at most one mount: the bind of that first pod mount |
| Mounter.ShadowedMountsPileUp | cmd/mounter/main.go:260-316 | when the pod mount is hidden behind another device, every iteration adds one more mount |
| Mounter.MountIfNotMounted | cmd/mounter/main.go:318-378 | what one iteration for a block volume mounts: the device, or what is visible at the directory; and exactly when it gives up |
| Mounter.BlockPathMeans | cmd/mounter/main.go:318-362 | which path is mounted: the device if the host has it, else the one place where the source is mounted, or the one global place if there are several |
| Mounter.FilterGlobalMounts | cmd/mounter/main.go:436-447 | keeps the global mounts in their order |
| Mounter.GlobalMountsExact | cmd/mounter/main.go:436-447 | a target is kept if and only if it is listed and its path names a global mount |
| Mounter.BlockMountSettles | cmd/mounter/main.go:318-378 | the next iteration has nothing to do if and only if what was mounted shows the source of the volume |
| Mounter.AtMostOneBlockMount | cmd/mounter/main.go:221-257 | then any number of iterations adds at most one mount |
| Mounter.UnmountPath | cmd/mounter/main.go:173-198 | done exactly when the source seen at the path did not change |
| Mounter.UnmountLoop | cmd/mounter/main.go:143-151 | always ends, touches no other mount, and leaves exactly the bottom part of the stack that nothing visible happens above |
| Mounter.EverythingUnmounted | cmd/mounter/main.go:188-197 | nothing is left if and only if no two neighbours in the stack have the same source |
| Mounter.OldStackBack | cmd/mounter/main.go:173-198 | unmounting gives an older stack at the target back if and only if there was none or its top shows the source that was mounted over it |
| Mounter.MountThenUnmount | cmd/mounter/main.go:143-170 | mounting and then unmounting, with any failing commands and any older mounts at the target: nothing elsewhere changes and the bottom part of the stack that Leftover names is left; on a free target without failing umounts the table is what it was |
| Conditions.MarkSetsPhase | pkg/controller/hostpathprovisioner/cr.go:39-153 | marking a phase sets the three statuses, keeps one entry for each kind and drops no kind |
| Conditions.AfterSet | vendor/github.com/openshift/custom-resource-status/conditions/v1/conditions.go:11-31 | setting one condition leaves the status of every other kind |
| Conditions.HeartbeatOnly | pkg/controller/hostpathprovisioner/cr.go:44-58 | marking the phase that is shown already moves heartbeats only |
| Conditions.MaskIsExact | pkg/controller/hostpathprovisioner/controller.go:491-498 | with the mask nothing is left different if and only if nothing but heartbeats differs |
| Conditions.MarkShows | pkg/controller/hostpathprovisioner/cr.go:39-153 | after a phase is marked its statuses, and the reason and message on the one condition that carries them, are what is listed |
| Conditions.PhaseLooks | pkg/controller/hostpathprovisioner/cr.go:39-153 | the status of each of the three conditions in each phase, and which of them carries the reason and message |
| Conditions.FailingAgainShows | pkg/controller/hostpathprovisioner/cr.go:39-153 | marked healthy and then failed, a resource counts as not available since this moment, so it differs by more than heartbeats from any that did not |
| Lifecycle.SetStatusCondition | vendor/github.com/openshift/custom-resource-status/conditions/v1/conditions.go:11-31 | the transition time moves only with the status, the heartbeat always |
| Lifecycle.Mark | pkg/controller/hostpathprovisioner/cr.go:39-153 | the statuses of the phase, one entry for each kind, no kind dropped |
| Lifecycle.AddFinalizer | pkg/controller/hostpathprovisioner/controller.go:684-700 | writes only when the finalizer is missing |
| Lifecycle.Begin | pkg/controller/hostpathprovisioner/controller.go:413-449 | a downgrade stores nothing but possibly the finalizer; a deployment or an upgrade is announced, with its reason and message, and stored before anything is reconciled; a settled resource is not written |
| Lifecycle.Update | pkg/controller/hostpathprovisioner/controller.go:430-434 | a successful update stores the instance under its next revision; a deleted resource goes with its last finalizer |
| Lifecycle.Finish | pkg/controller/hostpathprovisioner/controller.go:459-467 | writes exactly once if something but heartbeats changed since the run began, and not at all otherwise |
| Lifecycle.KindsAreComparable | pkg/controller/hostpathprovisioner/controller.go:491-498 | the looked-up condition is never missing, because no kind is ever dropped |
| Lifecycle.MaskKeepsStatuses | pkg/controller/hostpathprovisioner/controller.go:491-498 | masking changes no status |
| Controller.ReconcileUpdate | pkg/controller/hostpathprovisioner/controller.go:572-644 | a whole update, cut off anywhere; a completed one achieved what the spec wants; healthy is marked exactly when the daemon sets were ready; in a calm cluster a failure removes an obstacle, and a success leaves no jobs that all completed beside one deployment for each scheduled CSI pod; at rest nothing happens |
| Controller.ReportHealth | pkg/controller/hostpathprovisioner/controller.go:625-644 | fails in a calm cluster exactly when a wanted daemon set is missing; otherwise jobs go exactly when all completed and there is one deployment for each scheduled CSI pod |
| Controller.UpdateThrough | pkg/controller/hostpathprovisioner/controller.go:572-644 | in a calm cluster the last step fails only after an account was created anew |
| Controller.CheckReady | pkg/controller/hostpathprovisioner/controller.go:625-635 | ready means at least one pod and no fewer than scheduled, for every wanted daemon set |
| Controller.ReadyMeans | pkg/controller/hostpathprovisioner/controller.go:625-635 | ready, written out: each wanted daemon set has at least one ready pod and no fewer than are scheduled |
| Controller.CheckDegraded | pkg/controller/hostpathprovisioner/controller.go:646-674 | failed is marked exactly when something was deployed and is not ready now |
| Controller.ReconcileStatus | pkg/controller/hostpathprovisioner/controller.go:504-518 | the observed version moves only to the operator's and only when ready and reported; statuses, reasons and messages follow from how far the check came |
| Controller.TryUpdate | pkg/controller/hostpathprovisioner/controller.go:451-457 | a failed update shows as failed and healing with the reason for it, whatever was marked before; in a calm cluster, from a state with CSI pods on existing nodes and objects that merge, a failed update removed an obstacle and a completed one all of them |
| Controller.Work | pkg/controller/hostpathprovisioner/controller.go:451-457 | statuses, version and pool statuses in memory, by the course the run took; in a calm cluster with ready daemon sets the conditions are those of healthy, or of healthy and then failed when a claim is not bound |
| Controller.Save | pkg/controller/hostpathprovisioner/controller.go:459-467 | what was decided in memory is what is stored, whether the last write was needed or not |
| Controller.WorkAndStore | pkg/controller/hostpathprovisioner/controller.go:451-468 | from the announcement to the last write; in a calm cluster updates heal; a quiescent run writes nothing, a restless one exactly the resource; a run that got to the end leaves a resource that lists what is there, and a healthy one a settled one |
| Controller.ReconcileActive | pkg/controller/hostpathprovisioner/controller.go:413-469 | all of it for a live resource: what may be stored, the statuses and the answer by the course taken, healing of every update in a calm cluster, and no write at all when quiescent |
| Controller.Reconcile | pkg/controller/hostpathprovisioner/controller.go:320-469 | any run. Live: ends lawful; a downgrade, or a run cut off before the update, touches nothing that is managed; else everything managed goes through a tidy step, cut off anywhere; what was achieved, stored and answered follows from how far it came; in a calm cluster each failed update removes an obstacle. Deleted: a step of the teardown; without an error the pools are cleaned and, unless a managed deployment or an unfinished job is left, the operator lets go. No resource or several: no change. Quiescent: no write. All in place but an unbound claim: one write, of the resource |
| Settling.OtherObjectsStay | pkg/controller/hostpathprovisioner/controller.go:590-624 | a run, finished or cut off anywhere, leaves every object that is not the operator's by kind and name as it is, but for service accounts of earlier versions that the custom resource owns |
| Settling.OtherDaemonSetsStay | pkg/controller/hostpathprovisioner/daemonset.go:77-106 | it makes no daemon set but the two, changes no other, and deletes only those that an earlier version named after the owning custom resource or that run under an account it had to create |
| Settling.OtherDeploymentsStay | pkg/controller/hostpathprovisioner/storagepool.go:67-125 | it makes no deployment but those of the spec's pools, changes no other, and deletes only managed ones or ones with ready pods under an account it had to create |
| Settling.TwoGoOneUnmounted | pkg/controller/hostpathprovisioner/storagepool.go:111-123 | with the accounts in place, of any two deployments that go in one run, finished or cut off anywhere, one belongs to no pool by its name, lost its node, has its job, or was refused it |
| Settling.ObjectsComeLast | pkg/controller/hostpathprovisioner/controller.go:572-624 | with the accounts in place, a run, finished or cut off anywhere, touches an account or an ownerless object only once daemon sets and pools are as the spec wants them |
| Controller.EndIsLawful | pkg/controller/hostpathprovisioner/controller.go:413-469 | what is in memory at the end keeps the conditions in one of the five phases and the version from going back |
| Controller.QuiescentMeans | pkg/controller/hostpathprovisioner/controller.go:459-467 | marking healthy again on a settled resource only moves heartbeats |
| Lifetimes.AlwaysLive | pkg/controller/hostpathprovisioner/cr.go:39-153 | over every run the stored conditions are empty before a deployment or hold one entry for each kind in one of the five phases |
| Lifetimes.VersionsMoveForward | pkg/controller/hostpathprovisioner/controller.go:413-425 | for versions that parse, no later observed version comes before an earlier one in precedence, and none becomes empty again |
| Lifetimes.EndStates | pkg/controller/hostpathprovisioner/controller.go:504-518 | what a run in a calm cluster leaves stored: TFF with the operator's version if ready, FTF if never deployed, FFT if deployed but not ready, FTT on an update or pool status error; the version moves in the first case only |
| Lifetimes.ToldIffOneClaimEach | pkg/controller/hostpathprovisioner/controller.go:459-467 | a resource that lists what is there leaves the next run nothing to report differently if and only if no pool has more than one claim |
| Lifetimes.QuietIffBound | pkg/controller/hostpathprovisioner/controller.go:459-467 | with everything else at rest, a run for a settled resource leaves it as it was but for heartbeats if and only if every claim is bound |
| Lifetimes.RestlessAgain | pkg/controller/hostpathprovisioner/controller.go:504-518 | after a run with an unbound claim, a run at any other time finds a resource that it rewrites again |
| Lifetimes.NeverAtRest | pkg/controller/hostpathprovisioner/controller.go:320-469 | over any number of such runs each one writes the resource once and fails |
| Lifetimes.HealthyRunSettles | pkg/controller/hostpathprovisioner/controller.go:413-469 | after one completed, healthy run, with pools that agree, no job left and at most one claim each, the next run finds everything quiescent |
| Lifetimes.RunTwice | pkg/controller/hostpathprovisioner/controller.go:413-469 | two runs in a calm cluster: when the first was healthy and left such a state, the second writes nothing |
| Settling.HealsWithinFour | pkg/controller/hostpathprovisioner/controller.go:572-644 | in a calm cluster, from any stored state whose CSI pods sit on existing nodes, at most three updates fail, so the fourth completes |
| Lifetimes.RunsHealWithinFour | pkg/controller/hostpathprovisioner/controller.go:413-469 | over whole runs in a calm cluster, with pods starting and stopping in between, from any such state: from the fourth run on every update completes, and daemon sets and pools are as the spec wants them |
| Lifetimes.RunOften | pkg/controller/hostpathprovisioner/controller.go:320-469 | any number of calls of Reconcile in a calm cluster, from any such state, an empty cluster included: all are saved, from the fourth on every update completes, and then the spec is met |
| Settling.CompletedIsAtRest | pkg/controller/hostpathprovisioner/controller.go:572-624 | a completed run, on pools that agree, leaves nothing missing, drifted, unwanted or left over |
| Settling.WellFormedStays | pkg/controller/hostpathprovisioner/rbac.go:71-95 | runs keep objects such that they can be repaired |
| Holdings.ReconcileManaged | pkg/controller/hostpathprovisioner/controller.go:572-624 | daemon sets, pools, accounts and objects in order: success means everything is current, unless an account was created anew |
| Holdings.ManagedThrough | pkg/controller/hostpathprovisioner/controller.go:572-624 | what the two halves guarantee adds up to what the whole does |
| Versions.PrecedenceIsTotalPreorder | vendor/github.com/blang/semver/semver.go:113-162 | precedence is total and transitive, and equal exactly for versions that differ in build metadata alone |
| Versions.ComparePreOrder | vendor/github.com/blang/semver/semver.go:113-162 | pre-release lists are totally ordered |
| VersionProofs.CompareMeans | vendor/github.com/blang/semver/semver.go:113-162 | a version compares lower if and only if it comes before the other by section 11 of SemVer 2.0.0, written out: major, minor and patch as numbers, a pre-release before its release, identifiers one by one, numeric ones by value and before others, others in byte order, a proper prefix first |
| VersionProofs.DecisionMeans | pkg/controller/hostpathprovisioner/controller.go:546-570 | a run is refused as a downgrade if and only if both versions parse and the operator's comes before the observed one; an upgrade is announced if and only if they differ and, if both parse, it comes after |
| VersionProofs.ParseExact | vendor/github.com/blang/semver/semver.go:227-314 | a text parses to a version if and only if it is that version's text, with or without a v in front: numbers below 2^64 without leading zeros, identifiers of letters, digits and hyphens |

## Left out

- Environment within a run: only nodes, job completion, daemon set readiness and request outcomes change between
  two requests. Pods, deployment readiness, claim phases and the spec change between runs only.
- Other actors: nobody else creates, deletes or rewrites pool deployments during a teardown; anybody may add claims,
  and change or delete ownerless objects.
- Reads are consistent with the API server: no cache staleness, and update conflicts are refused requests.
- Object contents: pod templates are functions of the inputs they depend on (image names, pull policy, probes and resources
  are not among them); roles, bindings and the like are JSON trees from an uninterpreted function of key and spec.
- Annotations of daemon sets and pool deployments, which are merged the way labels are.
- Controller references are part of the built service account, so its last-applied annotation mentions them; in the
  source it does not.
- Namespaces: one, as the operator watches one; names of objects stand for themselves.
- JSON text: the last-applied annotation holds a tree. Desired objects may hold nulls as unset fields, but not inside
  arrays; the CSI driver, the PrometheusRule and the metadata strings hold none.
- Jobs with the operator's label only; a foreign job with a cleanup job's name is not modelled.
- Lifetimes.RunsHealWithinFour: an update that only asks to be repeated counts as completed, as its caller takes it.
- Lifetimes.EndStates: covers calm clusters; the statuses after any other run that went through are in `Recorded`.
- Mounter.MountLoop: sleeping, exec output, chroot and the parsing of findmnt, lsblk and mountinfo are operations on a mount table.
- Making a filesystem on an empty block device, and the device lookup before it.
- Manager start, watches, events, logging, metrics gauges, TLS and crypto policy, Prometheus alerts, generators and scripts.
