# A verified model of the OpenEBS operator

The operator keeps a set of storage engines (LVM, ZFS, hostpath, rawfile, Mayastor) deployed as one
`OpenEBS` resource asks. This project models three things and proves what they are for:

* the reconcile loop of `internal/controller` against a versioned object store that other clients write to,
* the CRD breaking-change checker of `hack/crd-breaking-check`,
* the etcd start-up script that the Mayastor StatefulSet carries.

## How the reconcile loop is modelled

`Objects` and `Components` hold the data: kinds, names, labels, owner references, immutable fields, the
`OpenEBS` resource, one `Component` for each object the operator builds, the order in which each engine
applies them, the names a spec accounts for, the teardown list. A pod template is an opaque value that
depends on the spec.

`Api` is the API server: a map from (kind, namespace, name) to objects with resource versions, immutable
fields, defaulting, finalizers, and the error replies NotFound, Conflict, Invalid, NoMatch, AlreadyExists,
BadRequest and transient faults. Each request of the operator takes one *turn* of a script. In a turn any
number of other writes come first (users editing or deleting the resource, controllers writing statuses,
other clients writing or deleting any object, other owners coming and going, garbage collection by owner),
then the request is refused, or served, or served with its answer lost, or the operator crashes and nothing
it asks arrives until the next reconcile. A claim for all scripts is a claim for all interleavings and all
faults. A run is a series of reconciles, each with its own script; a claim about the first n of any series, for
every n, is a claim about every run. Collection spares an object while any of
its owners lives, be it the `OpenEBS` resource or one of the other owners of the state.

`Strategies` and `Reconcile` give every operation as a function of the world. `Deployer` is the code in its
own form, as classes whose methods write to the server and change their arguments in place; every method
is proved to do exactly what its function says, so that the theorems hold of the methods.

Where a theorem relies on the others, it asks something of what they do in the run at hand (`Traces.Heeded`,
`Runs.RunHeeds`), never of what they might do elsewhere. The theorems cover every moment of a reconcile, not
only its end: `Traces` and `Effects` show what each single request does, `Passes` that a reconcile consists of
such requests only. There a component of a spec has become a *task* (a key, the object desired under it, the way
to bring it about), and a reconcile an *agenda* (the tasks of the enabled engines, the names accounted for, the
backup schedule, the teardown list); `Plans` and `Agreement` prove what is true of the agenda of every instance,
and most proofs need to know no more. `PassTraces` makes of this what is true of the trace of a reconcile, and
`Retries` what is true of a retry. On these rest `Safety`, `Gate`, `Runs`, `PhaseReport`, `Livelock`, `Closure`,
`Teardown`, `Termination`, and `Calm` with `Convergence`. `Drift`, `Inventory` and `Retirement` say in
the fields of the objects themselves, and without the functions that decide, what the operator takes as its own
and as different, what a store holds in the end, and what goes when an engine is switched off.

## What the proofs found

* A class named like a workload of an engine that is switched off keeps that workload from being swept while
  its service account is swept: expected names are kept without their kinds. `Closure.ClashIff` says exactly
  when, `Closure.ClashBreaksClosure` that it then happens, and `Closure.ClashExample` is such a spec: hostpath
  alone, with its class called `openebs-lvm-node`.
* Two storage classes of one name never settle (`Convergence.SharedClassNeverConforms`). Where names differ, an
  empty cluster without Velero is always workable (`Convergence.EmptyClusterIsReady`), so that
  `Convergence.Converges` applies from there.
* Velero without the namespace its schedule goes to stops Mayastor for good: the apply of the schedule fails
  with NotFound and the status never gets beyond Degraded (`Convergence.UnplaceableNeverRuns`), unless the
  namespace is one the operator itself makes (`Convergence.UnplaceableIff`).
* The teardown list leaves the etcd and the API service to collection by owner (`Teardown.TeardownCovers`), and
  every class whose chosen name is not the default of some engine; a class the user named like another
  engine's default does go (`Teardown.OwnNamesAreLeft`).
* An apply that loses a conflict and then the object itself cannot make it again in the same reconcile
  (`Retries.LostObjectIsNotRemade`); the next one can.
* The cluster roles of LVM and ZFS carry no managed-by label, so that they alone outlive the sweep when their engine
  is switched off (`Retirement.RetiredIsGone`, `Retirement.SwitchedOffIsGone`).
* When the backup namespace is edited, the schedule in the old namespace is never touched again
  (`Teardown.MovedScheduleIsForgotten`); only collection by owner removes it.
* Of the published phases, Failed and Installing cannot occur, so the ten-second requeue of a normal
  reconcile is never used (`PhaseReport.PhaseOfDeployment`, `PhaseReport.StatusPublished`).
* The etcd set must name its volume mode itself: left to the server, every set would look drifted
  (`Drift.ModeMustBeWritten`).
* The CRD checker says nothing when enums are dropped altogether (`SchemaCheck.EnumsMayGo`), and then a new object
  that holds anything at such a place may not go back; `SchemaCheck.RollsBackIff` says exactly when all do.
* A version dropped in one release may return with any schema in the next (`SchemaCheck.DroppedVersionEscapes`);
  `SchemaCheck.ReleasesComposeIff` says exactly when the checks of two releases stand for the check across them.
* Deleting the claim of pod 0 by hand is the one way to a second etcd cluster
  (`EtcdBootstrap.RefoundingNeedsLoss`, `EtcdBootstrap.LosingVolumeZeroSplits`).

## Model

| member | source | states |
|---|---|---|
| Deployer.NormalizeClaims | internal/controller/deployer.go:705-714 | comparing templates ignores type header, status, and all metadata but the name; what is left to compare is in `Drift.ClaimsEqualMeans` |
| Deployer.VolumeClaimTemplatesEqual | internal/controller/deployer.go:704-716 | equal exactly when as many, and pairwise semantically equal after normalising |
| Deployer.StsImmutableDriftFields | internal/controller/deployer.go:687-702 | reports the drifted immutable fields, in the fixed order |
| Deployer.Deployer.AttemptApply | internal/controller/deployer.go:586-601 | one attempt of a plain apply: what it does to the store, to its argument, and the error |
| Deployer.Deployer.AttemptStatefulSet | internal/controller/deployer.go:610-637 | one attempt of a StatefulSet apply, which takes over the stored templates or deletes a drifted set it owns |
| Deployer.Deployer.AttemptService | internal/controller/deployer.go:646-673 | one attempt of a Service apply, which recreates an owned service with another address |
| Deployer.Deployer.RetryOnConflict | internal/controller/deployer.go:586-601 | at most five attempts, each on the argument as the last one left it, until one does not conflict |
| Deployer.Deployer.Apply | internal/controller/deployer.go:579-674 | owner reference first, then the retried attempt, for each of the three strategies |
| Deployer.Deployer.ApplyStorageClass | internal/controller/deployer.go:559-574 | a refused update is answered by read, delete and create without a version |
| Deployer.Deployer.ApplyUnstructured | internal/controller/volume_snapshot.go:25-41 | create or update once, no retry |
| Deployer.Deployer.EnsureNamespace | internal/controller/deployer.go:513-532 | creates the namespace or adds the three pod-security labels, writing nothing if they are there |
| Deployer.Deployer.EtcdHealthCheck | internal/controller/deployer.go:485-511 | probes only a set that exists and has ready replicas |
| Deployer.Deployer.DeleteIgnoringAbsence | internal/controller/deployer.go:448-450 | an absent object and an unregistered kind are not errors |
| Deployer.Deployer.ReconcileEtcdVeleroSchedule | internal/controller/deployer.go:462-483 | applies or removes the schedule, tolerating a missing Velero |
| Deployer.Deployer.ApplyCrds | internal/controller/engine_crds.go:29-41 | applies the definitions in order and stops at the first error |
| Deployer.Deployer.ApplyRbac | internal/controller/deployer.go:534-545 | account, role, binding, stopping at the first error |
| Deployer.Deployer.DeployLvm | internal/controller/deployer.go:83-130 | runs the LVM plan in order up to the first failing step and reports Running or Failed |
| Deployer.Deployer.DeployHostpath | internal/controller/deployer.go:132-164 | likewise for hostpath |
| Deployer.Deployer.DeployZfs | internal/controller/deployer.go:166-218 | likewise for ZFS |
| Deployer.Deployer.DeployRawfile | internal/controller/deployer.go:220-249 | likewise for rawfile |
| Deployer.Deployer.DeployMayastor | internal/controller/deployer.go:251-367 | likewise for Mayastor, whose control plane comes only after etcd |
| Deployer.Deployer.DeleteOrphans | internal/controller/deployer.go:744-754 | one list and the deletion of its unexpected items, in list order, up to the first failure |
| Deployer.Deployer.CleanupOrphans | internal/controller/deployer.go:740-897 | the eleven scans in order, then the unwanted schedule |
| Deployer.Deployer.Cleanup | internal/controller/deployer.go:369-454 | deletes the teardown list in order, up to the first error other than absence |
| Components.ExpectedResources | internal/controller/deployer.go:899-969 | the names collected engine by engine are exactly those of the enabled engines and their chosen classes |
| Deployer.DerivePhase | internal/controller/openebs_controller.go:168-194 | the phase as a property of the set of reports, independent of the loop |
| Deployer.BuildConditions | internal/controller/openebs_controller.go:196-246 | which of the four conditions hold in each phase |
| Deployer.Reconciler.DeployEngines | internal/controller/openebs_controller.go:110-161 | attempts every enabled engine in order and collects the reports |
| Deployer.Reconciler.ReconcileNormal | internal/controller/openebs_controller.go:70-108 | deploy, sweep, re-read, publish; and the verdict |
| Deployer.Reconciler.ReconcileDelete | internal/controller/openebs_controller.go:248-264 | tear down, then drop the finalizer from the instance as read |
| Deployer.Reconciler.ReconcileRequest | internal/controller/openebs_controller.go:44-68 | the dispatch on absence, deletion and finalizer |
| Effects.ClaimsEqualEquivalence | internal/controller/deployer.go:704-716 | normalised template equality is an equivalence relation |
| Drift.ClaimsEqualMeans | internal/controller/deployer.go:704-716 | templates are equal exactly when they are as many and none differs in name, bytes, class or volume mode |
| Drift.DriftFieldsAre | internal/controller/deployer.go:687-702 | each of the four fields is reported exactly when it differs in the sets themselves |
| Drift.OwnedMeans | internal/controller/deployer.go:676-681 | what counts as the operator's: the first controller reference is the instance's, or the managed-by label has the operator's value |
| Effects.DriftUnchanged | internal/controller/deployer.go:634-635 | replacing a set's templates by equal ones changes no drift verdict about any stored set |
| Effects.RetryKeepsVerdict | internal/controller/deployer.go:610-637 | through all attempts of a retry, whatever the server answers, the mutated argument judges every stored set as the original did |
| Effects.KeepsFixed | internal/controller/deployer.go:619-636 | without drift, the update sent keeps every immutable field as stored |
| Effects.StepVia | internal/controller/deployer.go:83-367 | under any interference, a deployment step changes only its own object, for a stated reason each time; its success is a granted write of the desired object, and its error is that of its last request |
| Passes.ReconcileReaches | internal/controller/openebs_controller.go:44-68 | every request of a reconcile deploys a wanted component, sweeps an unexpected listed object, tears down a listed one, or marks the instance |
| Passes.PutVia | internal/controller/openebs_controller.go:60-65 | writing the finalizer goes through only on the very version read, and changes nothing else |
| Safety.UpdatesReplaceWhatWasRead | internal/controller/deployer.go:596-600 | every update that succeeds replaces exactly the object read by the request just before and touches no other object; that its immutable fields stay is the server's doing, and what keeps the server from refusing is in `Effects.KeepsFixed` and `Safety.SetUpdatesAreNeverInvalid` |
| Retries.ConflictsWriteNothing | internal/controller/deployer.go:586-674 | an apply all of whose attempts conflict has left the store to the others |
| Retries.GivesUpAfterFive | internal/controller/deployer.go:586-674 | an apply ends in a conflict exactly when five updates of it were answered with one |
| Retries.LostObjectIsNotRemade | internal/controller/deployer.go:586-601 | an apply that conflicts, and on its next attempt finds the object gone, ends in an error: its creation still carries the version of the lost object |
| Safety.CreatesFollowAbsence | internal/controller/deployer.go:586-594 | every creation asked for follows a read that found nothing, or a deletion to make the object again; no other failure of a read leads to one |
| Safety.ClassesFallOnRefusal | internal/controller/deployer.go:559-574 | a storage class is deleted to be made again only after its update was refused for immutable fields |
| Safety.SetUpdatesAreNeverInvalid | internal/controller/deployer.go:619-636 | no update of the etcd set is ever refused for immutable fields, whoever writes in between |
| Safety.OrphansWereLabelled | internal/controller/deployer.go:740-885 | an object swept as orphan carried the operator's label when listed, in a scanned place, under an unaccounted name |
| Safety.ForeignUntouched | internal/controller/deployer.go:619-668 | no request of a normal reconcile changes the etcd set or service while its first controller reference is not the instance's, it lacks the label, and its set fields or address differ, whatever others write to it, as long as they do not make it so meanwhile |
| Gate.HealthIsAsked | internal/controller/deployer.go:485-511 | the check probes exactly when it reads the set with ready replicas, passes at once when it reads it absent or without any, and otherwise only on an answered probe |
| Gate.SickEtcdIsLeftAlone | internal/controller/deployer.go:274-284 | under all interleavings and faults, no creation, update or drift deletion of the etcd set goes through unless the reconcile has found it absent or without ready replicas, or had its probe answered, and has read it again since |
| Gate.ProbesFollowReadiness | internal/controller/deployer.go:494-501 | etcd is probed only right after its set was read with ready replicas |
| Gate.SickEtcdStops | internal/controller/deployer.go:274-277 | a failed check is the end of the deployment of Mayastor |
| Runs.RunKeeps | internal/controller/openebs_controller.go:44-68 | what no other writer and no listed request breaks holds between all reconciles of a run, crashes included |
| Runs.RunKeepsAlways | internal/controller/openebs_controller.go:44-68 | and at every moment within them |
| Runs.WritesAreOwned | internal/controller/deployer.go:734-738 | every creation and update, recreations included, stores exactly the controller reference of the instance being reconciled |
| Runs.OwnershipOverRuns | internal/controller/deployer.go:559-674 | over whole runs everything of the operator's but the namespaces carries exactly one owner reference, the controller reference of an `OpenEBS` instance of that run; and such an identity is never that of another living owner |
| Runs.OnlyNamespacesRemain | internal/controller/deployer.go:734-738 | so once the instance is gone, collection by owner leaves nothing of the operator's but namespaces, whatever other owners live |
| Runs.RequestKeepsIntent | internal/controller/openebs_controller.go:60-101 | no request of the operator changes the spec, the identity, or the deletion mark |
| Runs.IntentWithinPass | internal/controller/openebs_controller.go:60-101 | at every moment of a reconcile the stored spec is the one the user wrote last |
| Runs.UserIntentIsKept | internal/controller/openebs_controller.go:258-261 | and over whole runs of edits, deletions, finalizer and status writes |
| PhaseReport.PhaseIgnoresOrder | internal/controller/openebs_controller.go:168-194 | the phase depends only on the multiset of engine reports |
| PhaseReport.EveryEngineAttempted | internal/controller/openebs_controller.go:110-161 | exactly the enabled engines are attempted and reported, once each and in order, whatever became of the others, and each report is true: Running when every object was delivered, Failed when a step ended in an error after all before it had delivered |
| PhaseReport.ReportsAreTrue | internal/controller/deployer.go:83-367 | Running means that every object of the engine was delivered by a granted write in this deployment; Failed, that all before some step were, and that the failure of that step is the last thing that happened |
| PhaseReport.PhaseOfDeployment | internal/controller/openebs_controller.go:168-194 | Pending iff nothing enabled, Degraded iff some engine failed, Running iff all succeeded; never Failed or Installing |
| PhaseReport.StatusPublished | internal/controller/openebs_controller.go:86-107 | a reconcile without error ends with this phase and these reports stored, and the thirty-second requeue |
| PhaseReport.StatusIsAttempted | internal/controller/openebs_controller.go:70-108 | whatever became of engines and sweep, a normal reconcile ends with the answer to its status write, or to the read before it |
| PhaseReport.ConditionsByPhase | internal/controller/openebs_controller.go:196-246 | which conditions hold in each of the five phases, each type once |
| PhaseReport.ConditionsTell | internal/controller/openebs_controller.go:196-246 | what the stored conditions tell of the engines: available iff any is enabled, degraded iff some failed, progressing iff none is enabled, never failed |
| Drift.DriftIffStorageDiffers | internal/controller/component.go:910-962 | the stored set of one spec drifts from another spec iff effective size or class differ, and then only in its templates |
| Drift.ModeMustBeWritten | internal/controller/component.go:939-942 | a builder without volume mode would see drift in the set it just made |
| Livelock.DeletionsWithinPass | internal/controller/deployer.go:619-632 | a reconcile deletes the set for drift only while it drifts, so at most once |
| Livelock.NoLivelock | internal/controller/deployer.go:619-632 | over any run without foreign writers of the set, drift deletions number at most the changes of effective storage plus one |
| Plans.EnabledWantsAll | internal/controller/deployer.go:83-367 | an enabled engine deploys every one of its components |
| Agreement.DeployedIsExpected | internal/controller/deployer.go:899-969 | for every spec, whatever is deployed in a scanned place has an expected name |
| Safety.DeployedIsNeverSwept | internal/controller/deployer.go:740-897 | no sweep takes away an object the same reconcile wrote, even when engines fail halfway |
| Safety.SweepSparesTheRest | internal/controller/deployer.go:740-897 | a sweep changes nothing but the unwanted schedule of the spec and objects it had listed with the operator's label under an unaccounted name |
| Agreement.CompletedSweepIsComplete | internal/controller/deployer.go:740-897 | after a completed sweep every managed object of the scanned places is accounted for, unless somebody else made it meanwhile, and no unwanted schedule is left |
| Agreement.SweepStopsAtFailure | internal/controller/deployer.go:740-897 | the error of a sweep is that of its last request: nothing follows a failure |
| Closure.WorkloadNeeds | internal/controller/component.go:113-114 | a workload needs the namespace and the service account of its engine, and the ZFS node its config map, and no more |
| Closure.PlansOrdered | internal/controller/deployer.go:83-367 | every plan brings namespace, service account and config map before the workloads that need them |
| Closure.ClashIff | internal/controller/deployer.go:899-969 | an expected workload name has an expected account name, exactly when no class names clash |
| Closure.AlwaysClosed | internal/controller/deployer.go:83-453 | at every moment of every run, aborts and crashes included, every operator workload has its namespace, account and config map, as long as nobody else takes those away or makes such a workload |
| Closure.ClashBreaksClosure | internal/controller/deployer.go:770-781 | whenever names clash, a completed sweep takes the account from under the spared workload, whatever others do but to these two |
| Teardown.NoWriteBeforeFinalizer | internal/controller/openebs_controller.go:56-67 | at every write of an object the instance is stored and holds the finalizer, whatever others do short of taking it away |
| Teardown.TeardownClears | internal/controller/deployer.go:447-453 | when a teardown completes, nothing it listed is there: what was deleted first has stayed away, unless somebody else made it meanwhile |
| Teardown.NothingLeftAtRelease | internal/controller/openebs_controller.go:253-261 | the request that drops the finalizer finds nothing left of the teardown list of the stored spec, unless somebody else made it while the instance was being deleted |
| Teardown.GoneMeansTornDown | internal/controller/deployer.go:369-453 | over all runs, whenever the instance is gone, every object on the fixed teardown list is absent; others may write and delete all they like but make listed objects only while the instance is held and not being deleted |
| Teardown.NothingComesBack | internal/controller/openebs_controller.go:248-264 | over all reconciles from the moment the instance is being deleted, failed ones and crashes included, an object that is absent stays absent at every moment, unless somebody else makes it or a new instance |
| Teardown.TeardownCovers | internal/controller/deployer.go:369-447 | with the default class names, exactly the components other than namespaces, access control, and the etcd and API services are torn down |
| Teardown.OwnNamesAreLeft | internal/controller/deployer.go:380-447 | a class is on the teardown list exactly when its chosen name is one of the default class names of its kind |
| Teardown.MovedScheduleIsForgotten | internal/controller/deployer.go:887-894 | no request for a spec with another backup namespace touches the old schedule |
| Termination.SilentIsDone | internal/controller/openebs_controller.go:44-68 | a reconcile asks for no other exactly when it found the instance absent or had its write without the finalizer granted; every other end of a deletion is an error, after ten seconds if a deletion failed |
| Termination.QuietDelete | internal/controller/deployer.go:448-450 | no deletion of a teardown can fail but by a fault: definitions gone before their instances do not block it |
| Termination.QuietPassReleases | internal/controller/openebs_controller.go:248-264 | an undisturbed reconcile of an instance being deleted takes the finalizer away, whatever is stored |
| Termination.TeardownTerminates | internal/controller/openebs_controller.go:248-264 | unless every reconcile met a failed request, a crash, or a change of the instance by someone else, the finalizer goes: one reconcile more than there are disturbed ones is enough, and each on the way is asked for by the verdict of the one before |
| Calm.StepSettles | internal/controller/deployer.go:559-674 | undisturbed, a step brings its object into the desired form, changes nothing else, and changes only a version if it was there already |
| Calm.DriftedIsDeleted | internal/controller/deployer.go:619-632 | a drifted set of the operator's is deleted and the deployment stops |
| Calm.MismatchIsSettled | internal/controller/deployer.go:610-674 | undisturbed, a set or service that differs is deleted (and a service made again) exactly when the instance controls it or it carries the label, and else left as it is with an error |
| Calm.ClassSettles | internal/controller/deployer.go:559-574 | a storage class reaches its desired form even from other immutable fields |
| Calm.PlainRefused | internal/controller/deployer.go:586-601 | a plain apply over other immutable fields is refused and changes nothing |
| Convergence.CalmCleanup | internal/controller/deployer.go:740-897 | undisturbed, a sweep completes, takes only what it may, and leaves nothing to take |
| Convergence.DeploySettles | internal/controller/openebs_controller.go:110-161 | undisturbed, all engines run and everything they deploy conforms, unless the etcd set drifted, and then it is gone |
| Convergence.Converges | internal/controller/openebs_controller.go:70-161 | from any workable store, after two or more reconciles every object of every enabled engine has its desired form, nothing is left to sweep, and the status says Running |
| Convergence.ConvergedStays | internal/controller/openebs_controller.go:70-161 | from the second on, a reconcile is the identity up to versions |
| Convergence.SharedClassNeverConforms | internal/controller/deployer.go:116-123 | two classes of one name have no common desired form |
| Convergence.MismatchStays | internal/controller/deployer.go:586-601 | an object of a kind without fallback that differs in immutable fields is never repaired |
| Convergence.UnplaceableIff | internal/controller/deployer.go:462-483 | a store fails the condition on the backup schedule exactly when Mayastor is enabled with a schedule, Velero is there, the namespace is missing, and no engine makes it |
| Convergence.UnplaceableFails | internal/controller/deployer.go:462-483 | then every undisturbed attempt at the schedule ends in NotFound and changes nothing |
| Convergence.UnplaceableNeverRuns | internal/controller/openebs_controller.go:70-161 | and after any number of undisturbed reconciles the status says Degraded, never Running |
| Inventory.AllAreThere | internal/controller/deployer.go:83-367 | at rest every component of an enabled engine is stored under its key with the controller reference of the instance, its labels and its content |
| Inventory.PodsFollowTheSpec | internal/controller/deployer.go:83-367 | at rest every workload has the pods of the spec as it stands |
| Inventory.SelectsItsOwn | internal/controller/component.go:93-110 | at rest every workload selects by exactly the labels it carries |
| Inventory.SelectorsApart | internal/controller/deployer.go:726-732 | no workload selects the pods of another |
| Inventory.LvmClassIsStored | internal/controller/deployer.go:116-123 | at rest the LVM class is stored under the name the user chose, else the default, with the configured volume group |
| Inventory.ZfsClassIsStored | internal/controller/deployer.go:204-211 | likewise for ZFS and its pool |
| Inventory.HostpathClassIsStored | internal/controller/deployer.go:150-157 | likewise for hostpath and its base path |
| Inventory.RawfileClassIsStored | internal/controller/deployer.go:238-242 | the rawfile class under its fixed name, with the configured base path |
| Inventory.MayastorClassIsStored | internal/controller/deployer.go:344-351 | the Mayastor class under the chosen name, else the default |
| Inventory.SnapshotClassIsStored | internal/controller/deployer.go:353-360 | the snapshot class under the chosen name, else the default |
| Inventory.SetIsAsAsked | internal/controller/component.go:910-962 | at rest the etcd set has one template, for the size and class the user chose, else the default ones |
| Inventory.ScheduleIsAsAsked | internal/controller/deployer.go:462-483 | at rest the schedule is stored in the chosen namespace when Mayastor is enabled with one and Velero is there, and is absent otherwise |
| Inventory.DriversAttach | internal/controller/component.go:292-299 | at rest every CSI driver is stored as one whose volumes are attached |
| Inventory.ServicesGetAddresses | internal/controller/component.go:1027-1043 | of the services only that of etcd is made headless, the others get an address |
| Inventory.SpacesAreOpen | internal/controller/deployer.go:513-532 | at rest the namespace of every enabled engine carries the three pod-security labels |
| Inventory.PrivilegedIsLeft | internal/controller/deployer.go:513-532 | a namespace read with the three labels is not written |
| Inventory.BindingsAreBound | internal/controller/component.go:76-82 | every binding names a cluster role that its own plan brings about before it |
| Retirement.UnexpectedIsTaken | internal/controller/deployer.go:740-885 | an undisturbed reconcile takes away, of the objects in scanned places under unaccounted names, exactly those with the label |
| Retirement.RetiredIsGone | internal/controller/deployer.go:740-885 | from rest, after an edit and an undisturbed reconcile: of the components under names no longer accounted for, the cluster roles of LVM and ZFS are left, and nothing else |
| Retirement.SwitchedOffIsGone | internal/controller/deployer.go:899-969 | in particular after an engine is switched off, for all it had but its classes, unless a class is called like it |
| EtcdBootstrap.OneClusterEver | internal/controller/component.go:869-902 | whatever any two volumes hold at any two moments is data of one cluster |
| EtcdBootstrap.SplitIffFoundedTwice | internal/controller/component.go:869-902 | a run, claims lost or not, ever holds data of two clusters exactly if state "new" was served twice |
| EtcdBootstrap.RefoundingNeedsLoss | internal/controller/component.go:873-882 | between two foundings the claim of pod 0 was deleted |
| EtcdBootstrap.NewOnlyOnEmpty | internal/controller/component.go:873-882 | only pod 0 on an empty volume starts a new cluster, and never once any volume held data |
| EtcdBootstrap.LosingVolumeZeroSplits | internal/controller/component.go:873-882 | after any run in which volume 0 holds data, deleting its claim while pod 0 is down leads to a second cluster |
| EtcdBootstrap.RecreateRestarts | internal/controller/deployer.go:626-631 | over any run of deletions, recreations and steps of other pods, a pod whose claim is not deleted serves no cluster but the one its volume holds, and joins or founds none |
| EtcdBootstrap.PodComesUp | internal/controller/component.go:869-902 | left alone, a pod with data comes to serve the cluster of its data, and pod 0 on an empty volume a new one |
| EtcdBootstrap.PodJoins | internal/controller/component.go:884-896 | any other pod on an empty volume comes to serve the cluster of a serving pod, and its volume to hold it |
| SchemaCheck.ToSet | hack/crd-breaking-check/main.go:136-150 | the elements of the list |
| SchemaCheck.ContainsEnum | hack/crd-breaking-check/main.go:152-159 | whether a text is among the members |
| SchemaCheck.CompareRequired | hack/crd-breaking-check/main.go:89-100 | a report for each field newly required or no longer required, in any order of visiting |
| SchemaCheck.CompareEnums | hack/crd-breaking-check/main.go:101-113 | a report for each value added or removed, none when the new enum is empty |
| SchemaCheck.CompareSchemas | hack/crd-breaking-check/main.go:82-134 | exactly the expected findings with their paths; none iff the schemas are compatible |
| SchemaCheck.FindVersion | hack/crd-breaking-check/main.go:73-80 | the first version of that name |
| SchemaCheck.CheckCrd | hack/crd-breaking-check/main.go:30-58 | the findings of exactly the versions both CRDs have with a schema |
| SchemaCheck.FindingsAre | hack/crd-breaking-check/main.go:82-134 | a finding is reported exactly for each change of a node both schemas have, or of a property gone from one, under the full dotted path of the node |
| SchemaCheck.VersionFindingsAre | hack/crd-breaking-check/main.go:30-49 | for a version those between it and the first old version of its name, if both have schemas |
| SchemaCheck.EmptyIffCompatible | hack/crd-breaking-check/main.go:82-134 | no findings iff types, required sets and enums agree, no property is gone, and all children are compatible |
| SchemaCheck.CompatibleReflexive | hack/crd-breaking-check/main.go:82-134 | a schema is compatible with itself |
| SchemaCheck.CompatibleTransitive | hack/crd-breaking-check/main.go:82-134 | compatibility composes |
| SchemaCheck.OldValuesStayValid | hack/crd-breaking-check/main.go:82-134 | a value valid under the old schema with declared properties only is valid under the new one |
| SchemaCheck.NewValuesRollBack | hack/crd-breaking-check/main.go:82-134 | a value valid under the new schema, pruned, is valid under the old one, if no enum was dropped |
| SchemaCheck.PruneDeclares | hack/crd-breaking-check/main.go:115-131 | pruning leaves declared properties only and does nothing to a value that has no others |
| SchemaCheck.DroppedEnumGoesUnreported | hack/crd-breaking-check/main.go:101-113 | if some new object holds anything at a path, however deep, where a passed change dropped a string enum, then some new object, pruned, is not valid under the old schema |
| SchemaCheck.EnumsMayGo | hack/crd-breaking-check/main.go:101-113 | dropping all enums of any schema passes the check |
| SchemaCheck.RollsBackIff | hack/crd-breaking-check/main.go:82-134 | across a passed change of schemas that enumerate strings only, every new object goes back exactly when no new object holds anything where an enum was dropped |
| SchemaCheck.ReleasesCompose | hack/crd-breaking-check/main.go:32-49 | checks made release by release compose when no version is dropped in between |
| SchemaCheck.DroppedVersionEscapes | hack/crd-breaking-check/main.go:32-36 | any version with a schema that a release drops may come back with any incompatible schema, and neither check sees it |
| SchemaCheck.ReleasesComposeIff | hack/crd-breaking-check/main.go:32-49 | after a passed check, every next release that passes against the second passes against the first exactly when the second keeps, with a schema, each version the first has with a schema |

## Left out

- Pod templates, images, arguments, probes, RBAC rules and resource quantities other than the etcd storage size: constants carried through, one opaque value for each component and spec.
- Quantities that do not parse: the builder panics on them; the model's quantities always parse.
- HTTP probing, YAML decoding, logging, flags, start-up, metrics, leader election, retry back-off: the health probe is an answer of the environment, the rest is not modelled.
- Cached reads: every read returns the stored object. A stale cache would show as a conflict or as one reconcile more.
- Several `OpenEBS` resources: the expected names look at one, so two remove each other's objects; the model has one.
- Asynchronous deletion and graceful termination: deletion is immediate, a namespace takes its contents along, a definition its instances; collection by owner is one step of the environment.
- Updates that change nothing still hand out a new version, which only makes conflicts more frequent than on a real server.
- Managed fields, annotations and generations; the annotation handling of `apply` for CRDs, which acts on an object that is not sent.
- Condition timestamps and message texts, other than the order of drifted field names.
- Defaults the server fills into anything but claim templates, cluster addresses and statuses.
- `api/v1alpha1`, the CRD and deployment manifests, and the end-to-end and unit tests.
- Schema keywords the checker ignores (items, additionalProperties, pattern, bounds), and the texts of its messages.
- The join loop of the etcd script may spin for ever; that it ends, and what `member add` does inside etcd, depend on etcd and are not part of this model.
- Closure.AlwaysClosed: says nothing of runs in which somebody else takes away what workloads need (by deletion or collection), makes or labels an object in the place of an operator workload, or writes a spec with clashing names.
- Convergence.Converges: assumes that the backup namespace exists, or is the operator's own, when a schedule is configured and Velero is installed (`Convergence.UnplaceableNeverRuns` shows the need), and that objects of kinds without a fallback agree with the desired immutable fields; without the latter `Convergence.MismatchStays` applies.
- Livelock.NoLivelock: counts changes from one reconcile that enables Mayastor to the next; an edit undone before a reconcile sees it costs nothing.
- Teardown.GoneMeansTornDown: speaks of the fixed list; the schedule of the spec stored at release is covered by `Teardown.NothingLeftAtRelease`, an older one is not, as `Teardown.MovedScheduleIsForgotten` shows.
- Safety.ForeignUntouched: an object that somebody makes foreign between the read and the deletion of one attempt is deleted, since deletions carry no version.
- Termination.TeardownTerminates: a change of the instance by someone else counts as a disturbance, since it makes the release conflict.
- Runs.OwnershipOverRuns: objects under keys where others add objects or rewrite owners are exempt; `Runs.WritesAreOwned` covers each write to them.
