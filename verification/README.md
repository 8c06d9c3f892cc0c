# Verification of the CSI driver for Windows storage servers

The driver lets Kubernetes use a Windows server as storage. Its controller creates VHDX disks there
and offers them over iSCSI, NFS or SMB; two built-in reconcilers, the provisioner and the attacher,
turn claims and attachments into controller calls; its node part logs in, mounts and cleans up.
Every change on the Windows host is a PowerShell script that tests and then changes state, and every
such script, API call or system call may fail before or after it has taken effect and be repeated.

This project models that behaviour and proves what the driver is for: that interrupted work
converges, that access never outlives an attachment, that storage is never deleted while attached,
that handles give back what they were made from, and that a node connects to exactly what was
created.

| Files | What they hold |
|---|---|
| `Results`, `Strings`, `Naming` | result types, Go's string functions on bytes, names of volumes, targets and disks |
| `WindowsStorage`, `ControllerServer` | disks, targets and mappings; the backend methods and the iSCSI RPCs as runs of commands that may stop anywhere |
| `Convergence` | any history of interrupted creations and deletions of one iSCSI volume |
| `Lifecycle`, `LifecycleInvariants`, `LifecycleSteps`, `LifecycleCommands`, `LifecycleWorkers`, `LifecycleAttacher`, `LifecycleSafety` | both reconcilers, the API server, the informer caches and the host as one state machine; its invariant, kept step by step; the safety theorems over all runs |
| `LifecycleCalls`, `LifecycleProgress`, `Courses` | what each call changes; why no call is refused for good, and how far the host is when a worker has got so far |
| `Causes`, `Hazards` | what it takes for a volume to be deleted; runs in which a worker goes wrong by a copy of a PersistentVolume that is no longer true |
| `Reconcilers` | the reconcile loops as programs whose every call is a step of that machine, and what they reach once failures stop |
| `Plans`, `Quiescence`, `Rest` | why only so many writes are made while the rest of the cluster is quiet, under any interleaving |
| `Fairness`, `Departures`, `Settling`, `Resyncs` | fair schedules, why each of them ends with nothing left to do and every volume that may go gone, and that there are such schedules |
| `Finalizers`, `Initiators` | the list helpers and list-editing scripts behind the protocol's sets |
| `Escapes`, `Urls`, `VolumeHandle`, `HandleRoundTrip`, `LegacyHandle` | percent-encoding, Go's URL parser, both handle codecs, and exactly which handles round-trip |
| `Devices` | the tree rebuilt from `lsblk`, the multipath choice and check |
| `NodeServer` | staging, unstaging, recovery and reboots of one staging path |
| `FileShares`, `ShareConvergence` | VHDX-backed NFS and SMB volumes under interrupted calls |
| `Endpoints` | portals, contexts and mount sources, from StorageClass parameters to the node's login |

`dafny verify dfyconfig.toml` checks everything.

## What is assumed of the environment

The protocol's assumptions stand as predicates in `Lifecycle.dfy`:

* `PVMayBecome`, `VAMayBecome`: a PersistentVolume that is Released or deleting stays so, a deletion
  timestamp is never cleared, and nobody else touches the driver's finalizers, an attachment's status
  or a volume's handle. The reclaim policy may change at any time and in any direction.
* `MayAttach`: Kubernetes creates no VolumeAttachment for a volume that is Released or deleting, and
  at most one per volume and node. Node names stand for distinct, fixed node IDs.
* `SeesPV`, `SeesVA`: informers move forward object by object, any number of versions at a time. A
  reconcile of a PersistentVolume may work from any copy its informer has delivered (`SeenPV`); one of
  a VolumeAttachment reads that cache first and the other one later.
* `ListIsRecent`: when a PersistentVolume is reconciled for deletion, the VolumeAttachment cache is no
  older than the copy of it.
* `StartsCreation`: names come from claims (`ClaimIsWellNamed`) and a volume has one VHDX directory.
  The claim cache may lag, so a claim may be provisioned again after its volume was deleted, any number
  of times. An error answer to the creation of a PersistentVolume means that it was not created.
* There is one active controller; each worker is one goroutine; a worker may die and start over at
  any point (`ProvisionerFails`, `AttacherFails`, and the `lost` answers of `Provision` and
  `AttachCall`).

When a name is used again, a copy of an earlier PersistentVolume says nothing about the present one. A
volume has strayed when a worker acted on it by such a copy; that is not assumed away, and
`StraysExactly` says which steps do it. As long as no name is provisioned again none does
(`ProvisionedOnceNeverStrays`).

For liveness only it is assumed that the environment does nothing and no claim is provisioned (`Quiet`),
that no volume has strayed and none is about to (`Clean`: the PersistentVolume informer has left earlier
objects of the same names behind; `Calm`: deletions start from copies of the present object), that calls
fail only when refused (`Sound`), every version reaches its informer, busy workers get on, and the resync
puts every listed object into its queue over and over (`FairAt`). `Clean` and `Calm` hold by themselves
as long as no name is provisioned again.

On the node a connector file is written whole, not at all, or torn by a cut-off write, and a torn one
cannot be read; sessions end only by the driver's calls and reboots.

The effects of cmdlets are those written in `WindowsStorage.Apply` and `FileShares.Apply`.

## What turned out false, and exactly when

* A path segment of a URI handle is unescaped twice when it is read. A handle comes back exactly when
  its segments are trimmed, non-empty, without `/`, and either without `%` or malformed as escapes, and
  its host is one that a URL gives back (`RoundTripExactly`, `HostSurvivesExactly`); a share named
  `a%41` is lost (`EncodedPercentIsLost`), and so is an IPv6 portal with a zone.
* Target names are injective over StorageClasses for claim names, but not for arbitrary volume names
  (`TargetNamesCollideExactly`).
* A creation cannot be repeated after a deletion that stopped between unregistering a disk and removing
  its file (`CreateConverges`, last clause). The rollback of a failed PersistentVolume creation is such
  a deletion that nobody retries (`InterruptedRollbackBlocksName`).
* A volume whose policy is not Delete does not always keep its backend: if an administrator sets Retain
  on a Released volume while the provisioner's cache still shows Delete, its storage goes
  (`RetainedVolumeIsLost`). A volume is intact exactly until its deletion takes its first effect
  (`LiveVolumesAreIntact`). Storage goes only if some version of the PersistentVolume was flagged and of
  policy Delete at once (`NeverDoomedIsIntact`), and can go as soon as such a version has been delivered
  and no attachment is listed (`DeliveredCopyDooms`): that is what to look at before setting Retain.
* A volume that is neither Released nor deleting can lose its backend when it was provisioned a second
  time, from a flagged copy of the first PersistentVolume (`RecreatedVolumeIsLost`), even while it is
  attached (`AttachedVolumeIsLost`). A deletion by a copy of the present PersistentVolume never runs
  under an attachment, however often the name was used (`NeverDeletedUnderAttachment`).
* A node may keep its access when its attachment is gone: to a volume provisioned a second time, when the
  attacher's cache still shows the removal of the first PersistentVolume (`AccessOutlivesAttachment`), and
  to what is left of a volume that is kept, when its PersistentVolume goes first (`KeptVolumeKeepsAccess`).
  It does not as long as the volume has not strayed and either is there or was always of policy Delete
  (`AccessNeverOutlivesAttachment`, `StraysExactly`).
* A share whose deletion stopped before the share was removed answers FailedPrecondition until it is
  deleted again (`CreateRefusedExactly`, `InterruptedDeleteBlocks`).
* A creation that finds its share never writes the capacity metadata and quota nor admits NFS clients.
  A share has them exactly when the creation that made it was not cut off (`FurnishedExactly`,
  `AttemptFurnishes`), creating again never repairs it (`NeverFurnished`), and the caller is told that
  all is well (`CutOffShareStaysBare`).
* A mounted staging path can lose its device in NodeStageVolume, in two cases and no others: the rescan
  timed out and the logout that follows took effect, or everything up to writing the connector worked,
  that did not, and the rollback took effect (`NodeStageVolume`, `LostExactly`, `StageAgain`). A connector
  write that was cut off leaves a file that refuses NodeUnstageVolume until the path is staged again.
* The node refuses a volume whose target portal was accepted for the StorageClass exactly when that
  has a stray bracket (`AddressValidExactly`, `NodeConnectsToCreated`).
* A row of `lsblk` keeps all its children exactly when its kernel name does not occur again further
  down (`DirectChildrenExactly`). The copy of a row in its parent has them all exactly when, besides,
  all rows that name it stand before it (`GrandchildrenExactly`), so a tree printed from the top loses
  every grandchild (`GrandchildrenAreLost`). A line of five or six columns is an index out of range.
* The multipath check treats a LUN of -1 as no LUN seen yet (`AcceptedExactly`,
  `SentinelHidesDifference`).
* `connectTarget` uses the portal it is given exactly when that has one colon (`SamePortalExactly`).
* A size limit below the minimum size is exceeded (`RequiredBytesWithin`).

## Model

| member | source | states |
|---|---|---|
| Naming.TargetOwnerOfTarget | pkg/iscsi/controllerserver.go:734-740 | every target name a StorageClass can produce, with iqnPrefix or without, leads back to its volume |
| Naming.ClaimsDoNotCollide | pkg/iscsi/internal_kubernetes.go:718-720 | volumes of different claims never share a target name or a VHDX path, whatever prefixes and directories their classes name |
| Naming.TargetNamesCollideExactly | pkg/iscsi/controllerserver.go:337-346 | for other callers' volume names two targets coincide if and only if one unprefixed volume is itself called prefix:volume |
| Lifecycle.ClaimIsWellNamed | pkg/iscsi/internal_kubernetes.go:386-417 | the request made of any claim, StorageClass prefix and directory names target and disk after its volume, as the protocol asks |
| WindowsStorage.WinRMBackend.RunScript | pkg/iscsi/backend_winrm.go:284-317 | a script run over a failing link leaves the effect of some prefix of its commands, a successful one the effect of all; without link failures it fails only where a command throws |
| WindowsStorage.WinRMBackend.EnsureTarget | pkg/iscsi/backend_winrm.go:284-317 | the target exists afterwards and the IQN returned is the one it carries; it fails only for an empty name or an empty resulting IQN |
| WindowsStorage.WinRMBackend.CreateVirtualDisk | pkg/iscsi/backend_winrm.go:347-367 | the disk is registered afterwards and the size returned is its own |
| WindowsStorage.WinRMBackend.MapDiskToTarget | pkg/iscsi/backend_winrm.go:369-388 | adds one mapping and answers LUN 0 |
| WindowsStorage.WinRMBackend.GetVolumeByName | pkg/iscsi/backend_winrm.go:487-521 | the answer is true of the host, any mapped target may be named, and a file the iSCSI service does not know is an error |
| WindowsStorage.WinRMBackend.UnmapDiskFromTarget | pkg/iscsi/backend_winrm.go:390-411 | removes this disk's mapping to this target, nothing when either is missing |
| WindowsStorage.WinRMBackend.DeleteVirtualDisk | pkg/iscsi/backend_winrm.go:413-434 | unregisters and then removes the file, each step possibly the last |
| WindowsStorage.WinRMBackend.LookupTargetNameByIQN | pkg/iscsi/backend_winrm.go:436-457 | a name returned is that of a target with this IQN; an empty answer means that no target has it |
| WindowsStorage.WinRMBackend.DeleteTarget | pkg/iscsi/backend_winrm.go:459-485 | removes a target without mappings, refuses one with any, and does nothing for an empty name |
| WindowsStorage.WinRMBackend.AllowInitiator | pkg/iscsi/backend_winrm.go:523-536 | adds one initiator to an existing target and fails without one |
| WindowsStorage.WinRMBackend.DenyInitiator | pkg/iscsi/backend_winrm.go:538-550 | removes one initiator, and succeeds when the target is gone |
| WindowsStorage.EnsureTargetWorks | pkg/iscsi/backend_winrm.go:284-317 | the script never throws and changes nothing but the target's presence and IQN |
| ControllerServer.Controller.CreateVolume | pkg/iscsi/controllerserver.go:1082-1174 | a failed call leaves a prefix of the commands its probe calls for, a successful one all of them and the reply they determine; over a sound link it fails exactly where the host refuses |
| ControllerServer.Controller.EnsureAndMap | pkg/iscsi/controllerserver.go:1082-1150 | target and IQN first, then the mapping unless the disk has one; the reply names the IQN the target really has |
| ControllerServer.Controller.DeleteVolume | pkg/iscsi/controllerserver.go:1538-1560 | unmap, unregister, remove, drop target, stopping anywhere; the target is the handle's or one with the handle's IQN, and without either none has that IQN |
| ControllerServer.Controller.ControllerPublishVolume | pkg/iscsi/controllerserver.go:1586-1608 | admits the node to the handle's target and answers the handle's portal, IQN and LUN; over a sound link it succeeds if and only if the node is an IQN, the handle has one, and the target exists |
| ControllerServer.Controller.ControllerUnpublishVolume | pkg/iscsi/controllerserver.go:1611-1639 | takes exactly this node off the handle's target; always succeeds over a sound link, and leaves the host alone for a blank target |
| Convergence.FreshCreation | pkg/iscsi/controllerserver.go:1082-1174 | what an uninterrupted creation on a host without the volume leaves and answers |
| Convergence.HistoryStaysPlaced | pkg/iscsi/controllerserver.go:1082-1174 | after any attempts cut off after any command the host is its old self plus a known stage of this one volume |
| Convergence.CreateConverges | pkg/iscsi/controllerserver.go:1082-1174 | a completed attempt after any history returns the handle, capacity and context of a fresh one and leaves the same host; it completes if and only if no unregistered file is in the way |
| Convergence.DeleteUndoesCreate | pkg/iscsi/controllerserver.go:1538-1560 | a deletion after any history goes through, never meets leftover mappings, and restores the host as it was without the volume |
| Convergence.OthersUntouched | pkg/iscsi/controllerserver.go:1538-1560 | throughout any history every other disk and target, with mappings and initiators, is unchanged |
| Convergence.InterruptedRollbackBlocksName | pkg/iscsi/internal_kubernetes.go:422-431 | a rollback cut off between its file operations leaves a name that creation refuses |
| LifecycleInvariants.InitFits | pkg/iscsi/internal_kubernetes.go:310-326 | an empty cluster and host satisfy the invariant |
| LifecycleSteps.AttachKeeps | pkg/iscsi/internal_kubernetes.go:994-1011 | a new attachment of a live volume keeps the invariant, in particular it is older than every flag |
| LifecycleSteps.StrayKeeps | pkg/iscsi/internal_kubernetes.go:443-472 | a worker that acts by a copy of an earlier PersistentVolume breaks nothing that is promised of volumes that have not strayed |
| LifecycleWorkers.ListedIsTrue | pkg/iscsi/internal_kubernetes.go:994-1011 | an empty listing from a cache no older than the flagged copy means that no attachment exists now |
| LifecycleWorkers.StartDeleteKeeps | pkg/iscsi/internal_kubernetes.go:443-472 | starting the deletion of a volume from any copy seen of it keeps the invariant |
| LifecycleWorkers.StartCreateKeeps | pkg/iscsi/internal_kubernetes.go:386-417 | starting a creation keeps the invariant, also of a volume that was provisioned and deleted before, any number of times |
| LifecycleWorkers.DeleteCallKeeps | pkg/iscsi/internal_kubernetes.go:438-488 | every single call of a deletion keeps the invariant, whatever the attacher does in between and whichever PersistentVolume its copy is of |
| LifecycleWorkers.CreateCallKeeps | pkg/iscsi/internal_kubernetes.go:386-417 | every single call of a creation keeps the invariant |
| LifecycleWorkers.PublishKeeps | pkg/iscsi/internal_kubernetes.go:418-436 | publishing a volume, with the finalizer exactly for policy Delete, keeps the invariant |
| LifecycleWorkers.RollbackCallKeeps | pkg/iscsi/internal_kubernetes.go:422-434 | every call of a rollback keeps the invariant |
| LifecycleWorkers.DropFinalizerKeeps | pkg/iscsi/internal_kubernetes.go:476-480 | letting go of a volume based on an old copy is refused, and otherwise its target is gone |
| LifecycleAttacher.StartAttachKeeps | pkg/iscsi/internal_kubernetes.go:508-525 | taking up any cached attachment keeps the invariant |
| LifecycleAttacher.LookKeeps | pkg/iscsi/internal_kubernetes.go:527-577 | whatever the PersistentVolume cache shows when it is read, later than the attachment was and possibly of an earlier PersistentVolume, the work chosen keeps the invariant |
| LifecycleAttacher.MarkKeeps | pkg/iscsi/internal_kubernetes.go:578-587 | the finalizer goes on before the node is admitted |
| LifecycleAttacher.AllowKeeps | pkg/iscsi/internal_kubernetes.go:594-610 | the node is admitted only under the finalizer of an existing attachment |
| LifecycleAttacher.DenyKeeps | pkg/iscsi/internal_kubernetes.go:552-566 | denying is based on a copy known to be deleting and shuts the node out |
| LifecycleAttacher.UnmarkKeeps | pkg/iscsi/internal_kubernetes.go:537-571 | the finalizer comes off only when the node has no access, also on the shortcut for a volume that is gone |
| LifecycleAttacher.GoneVolumeAdmitsNobody | pkg/iscsi/internal_kubernetes.go:536-543 | when the cache says that the volume is gone, no target of it admits anybody, unless its policy was not Delete |
| LifecycleSafety.StepKeeps | pkg/iscsi/internal_kubernetes.go:310-326 | every step of either worker, the environment, the informers or a failure keeps the invariant, with policies edited at any time and claims provisioned again |
| LifecycleSafety.RunKeeps | pkg/iscsi/internal_kubernetes.go:490-506 | every world of every run satisfies the invariant |
| LifecycleSafety.StraysExactly | pkg/iscsi/internal_kubernetes.go:527-571 | a volume strays if and only if the attacher takes up work by a PersistentVolume cache of an earlier object, a deletion by a copy of an earlier object has an effect, or it is published again after it was once to be kept or while the attacher works on it |
| LifecycleSafety.AccessNeverOutlivesAttachment | pkg/iscsi/internal_kubernetes.go:527-619 | in every world of every run, however often a name was used, each initiator has a VolumeAttachment of that volume that still carries the finalizer, unless the volume has strayed or its PersistentVolume went while its policy was once other than Delete |
| LifecycleSafety.NeverDeletedUnderAttachment | pkg/iscsi/internal_kubernetes.go:438-488 | while a deletion runs by a copy of the present PersistentVolume no attachment of the volume exists, however often the name was used and whoever strayed, and nobody is admitted whom an attachment admitted; the next command of any deletion touches no other volume |
| LifecycleSafety.LiveVolumesAreIntact | pkg/iscsi/internal_kubernetes.go:443-456 | a volume that has not strayed has its disk, target, IQN and mapping if and only if its deletion has not taken effect, and it has not while the volume is unflagged or attached; one that has strayed has them until a deletion takes effect on it |
| LifecycleSafety.DeletionHasCause | pkg/iscsi/internal_kubernetes.go:438-472 | a deletion takes its first effect only from a copy that showed the volume flagged and its policy Delete |
| LifecycleSafety.AgainUntilDeleted | pkg/iscsi/internal_kubernetes.go:386-417 | of a volume that has strayed only a call of a deletion ends that it is intact |
| Causes.NeverDoomedIsIntact | pkg/iscsi/internal_kubernetes.go:443-456 | a volume of which no version was ever flagged and of policy Delete at once is intact, whoever has strayed |
| Causes.DeliveredCopyDooms | pkg/iscsi/internal_kubernetes.go:443-472 | once such a version has been delivered and no attachment is listed there is a continuation in which the volume of that name is taken apart, whatever has become of the PersistentVolume |
| Hazards.RetainedVolumeIsLost | pkg/iscsi/internal_kubernetes.go:438-475 | a run in which a volume set to Retain is taken apart from a copy that still shows Delete |
| Hazards.RecreatedVolumeIsLost | pkg/iscsi/internal_kubernetes.go:386-417 | a run in which a volume provisioned again, neither Released nor deleting, is taken apart from a copy of its first PersistentVolume |
| Hazards.AttachedVolumeIsLost | pkg/iscsi/internal_kubernetes.go:458-472 | a run in which the deletion of an earlier PersistentVolume takes a volume apart that has been attached meanwhile |
| Hazards.AccessOutlivesAttachment | pkg/iscsi/internal_kubernetes.go:536-543 | a run in which the shortcut for a volume that is gone leaves a node admitted to the live volume of the same name |
| Hazards.KeptVolumeKeepsAccess | pkg/iscsi/internal_kubernetes.go:536-543 | a run in which nobody strays and a node stays admitted to a kept volume whose PersistentVolume went first |
| LifecycleSafety.OneDiskPerTarget | pkg/iscsi/backend_winrm.go:369-388 | in every world targets and mapped disks pair up one to one, so LUN 0 is right |
| LifecycleSafety.AttachedCanConnect | pkg/iscsi/internal_kubernetes.go:552-618 | an Attached, undeleted VolumeAttachment carries the finalizer, its volume is intact and its node is admitted, unless the volume has strayed |
| Courses.NothingLeftBehind | pkg/iscsi/internal_kubernetes.go:470-488 | a volume whose policy was never other than Delete and which the driver has let go, or whose PersistentVolume is gone, has left neither disk nor target |
| LifecycleProgress.StepStaysTidy | pkg/iscsi/internal_kubernetes.go:438-488 | every step keeps what progress needs: volumes at home, removals logged, objects latest |
| LifecycleProgress.RunStaysTidy | pkg/iscsi/internal_kubernetes.go:438-488 | every world of every run has it |
| Courses.DeletionAdvances | pkg/iscsi/controllerserver.go:1538-1560 | from the state its phase implies each call of DeleteVolume goes through, and the last leaves neither disk nor target |
| Courses.RunStaysOnCourse | pkg/iscsi/internal_kubernetes.go:470-488 | in every world of every run a deletion under way has done on the host what its phase implies, the finalizer is dropped only when the backend is gone, and nothing is left of volumes let go |
| Reconcilers.DeletionNotRefused | pkg/iscsi/controllerserver.go:1538-1560 | in every reachable world the next call of a deletion by a copy of the present PersistentVolume goes through, unless the volume has strayed; after the last one neither disk nor target is left |
| Reconcilers.AllowNotRefused | pkg/iscsi/backend_winrm.go:523-536 | whenever the attacher is about to admit a node, the target exists |
| Reconcilers.CreationNotRefused | pkg/iscsi/controllerserver.go:1082-1174 | the next call of a creation goes through unless it is the one that names the target and the target would have no IQN |
| Reconcilers.DeletionRunsTheScript | pkg/iscsi/controllerserver.go:1538-1560 | the phases of the protocol's deletion are the commands of DeleteVolume |
| Reconcilers.CreationRunsTheScript | pkg/iscsi/controllerserver.go:1082-1174 | the phases of the protocol's creation are the commands of CreateVolume |
| Reconcilers.Cluster.ReconcileVolumeAttachment | pkg/iscsi/internal_kubernetes.go:527-619 | a reconcile on true caches succeeds and leaves nothing owed: a deleting attachment loses the finalizer, another becomes Attached; other attachments are untouched |
| Reconcilers.Cluster.MarkAndPublish | pkg/iscsi/internal_kubernetes.go:578-619 | finalizer, refetch, publish, status, in this order, on the fresh copy |
| Reconcilers.Cluster.VolumeAttachmentExists | pkg/iscsi/internal_kubernetes.go:994-1011 | true if and only if the lister shows an attachment of this volume |
| Reconcilers.Cluster.DeleteBackend | pkg/iscsi/internal_kubernetes.go:472-475 | by a copy of the present PersistentVolume of a volume that has not strayed DeleteVolume goes through from whatever earlier attempts left, is the script's run, and leaves neither disk nor target |
| Reconcilers.Cluster.ReconcilePersistentVolumeDeletion | pkg/iscsi/internal_kubernetes.go:438-488 | nothing for an unflagged volume or one with listed attachments; on true caches the backend of a flagged one is gone and the object let go |
| Reconcilers.Cluster.ReleaseKept | pkg/iscsi/internal_kubernetes.go:449-455 | a volume that is to be kept loses the finalizer only, the host is unchanged |
| Reconcilers.Cluster.CreateBackend | pkg/iscsi/internal_kubernetes.go:407-417 | the calls of CreateVolume are the script its probe calls for; over a sound link they succeed if and only if the target will have an IQN |
| Reconcilers.Cluster.RollBack | pkg/iscsi/internal_kubernetes.go:422-434 | an uninterrupted rollback leaves nothing of the volume |
| Reconcilers.Cluster.ReconcilePersistentVolumeClaim | pkg/iscsi/internal_kubernetes.go:362-436 | success leaves a published, intact, unflagged volume with the finalizer its policy asks for, failure no object; other volumes' objects are unchanged; where nothing of the volume stands in the way it succeeds if and only if the API server takes the object |
| Reconcilers.Cluster.SettleAttachments | pkg/iscsi/internal_kubernetes.go:490-506 | the attacher's loop by itself: with its informers shown what they need, repeated reconciles terminate and nothing is owed to any attachment |
| Reconcilers.Cluster.SettleVolumes | pkg/iscsi/internal_kubernetes.go:310-326 | the provisioner's loop by itself: every flagged Delete-policy volume without attachments is finished |
| Reconcilers.Cluster.Settle | pkg/iscsi/internal_kubernetes.go:310-326 | one schedule to the end: every flagged Delete-policy volume held at most by deleting attachments of the driver ends with its backend gone and released |
| Plans.RunKeepsPlans | pkg/iscsi/internal_kubernetes.go:527-619 | in every world of every run a worker's copy is of the incarnation it is to change, and a deleting incarnation stays so in all its later versions |
| Quiescence.QuietStepSpends | pkg/iscsi/internal_kubernetes.go:310-326 | where no volume has strayed, no step of the workers and informers, failing or not, adds a token, and every one that writes to the API server or the host takes one away |
| Rest.TokensAreAll | pkg/iscsi/internal_kubernetes.go:310-326 | the tokens of a world are finitely many |
| Rest.ProvisionedOnceNeverStrays | pkg/iscsi/internal_kubernetes.go:386-417 | in every run in which no creation starts for a name that had a PersistentVolume no volume strays, and what liveness assumes of copies holds of every quiet step |
| Rest.FinitelyManyWrites | pkg/iscsi/internal_kubernetes.go:490-506 | in a quiet stretch of any run, whatever the interleaving and the failures, the writes made are no more than the tokens there were at its start, if no volume had strayed by then |
| Fairness.TokensSettle | pkg/iscsi/internal_kubernetes.go:490-506 | every quiet behaviour comes to a moment from which on no token is spent |
| Fairness.BecomesStill | pkg/iscsi/internal_kubernetes.go:139-182 | every fair behaviour comes to a moment from which on nothing is written and the informers show all objects as they are |
| Settling.AttacherOwesNothing | pkg/iscsi/internal_kubernetes.go:527-619 | from then on no attachment is owed anything, since its next reconcile would write |
| Settling.ProvisionerOwesNoDeletion | pkg/iscsi/internal_kubernetes.go:438-488 | from then on no doomed volume without attachments is unfinished, since its next reconcile would write |
| Departures.CalmStepLeavesGoing | pkg/iscsi/internal_kubernetes.go:310-326 | a doomed volume held at most by deleting attachments of the driver stays so, or is gone with its backend, whatever workers and informers do |
| Settling.FairSchedulesSettle | pkg/iscsi/internal_kubernetes.go:310-326 | under every fair schedule, from any reachable world where no volume has strayed, the cluster ends where nothing is written any more: deleting attachments have lost the finalizer, the others are Attached, doomed volumes without attachments have their backend gone and are released, deleting volumes that are kept are released, and every doomed volume that at the start was held at most by deleting attachments of the driver has its backend gone, with its object or without |
| Resyncs.FairBehaviourExists | pkg/iscsi/internal_kubernetes.go:139-182 | from every world where nothing is left to do there is a fair behaviour, in which the attacher looks at one listed attachment after another |
| Resyncs.ProvisionAndAttach | pkg/iscsi/internal_kubernetes.go:490-506 | such a world is reached by provisioning a volume and attaching it |
| Finalizers.HasString | pkg/iscsi/internal_kubernetes.go:1013-1020 | true if and only if the value is in the list |
| Finalizers.RemoveString | pkg/iscsi/internal_kubernetes.go:1022-1030 | the list without that value, in order |
| Finalizers.UniqueStrings | pkg/iscsi/internal_kubernetes.go:1032-1046 | the first occurrence of every value that is not blank, in order |
| Finalizers.RemovalIsSetRemoval | pkg/iscsi/internal_kubernetes.go:976-992 | the update takes one finalizer off the set, keeps all others, and leaves no duplicates |
| Finalizers.AdditionIsSetAddition | pkg/iscsi/internal_kubernetes.go:985-992 | appending puts the finalizer in the set once |
| Initiators.AllowAddsToSet | pkg/iscsi/backend_winrm.go:523-536 | the list edit is an insertion into the set of case-folded names |
| Initiators.DenyTakesFromSet | pkg/iscsi/backend_winrm.go:538-550 | the list edit is a removal from that set |
| Initiators.OthersKeepMembership | pkg/iscsi/backend_winrm.go:523-550 | publishing or unpublishing one node changes another's membership if and only if their names differ in case only |
| Escapes.EscapeRoundTrip | pkg/iscsi/volumeid.go:476-491 | percent-encoding loses no byte, in paths and in queries |
| Escapes.SeparatorsAreEscaped | pkg/iscsi/volumeid.go:476-491 | escaped text holds no separator and only printable bytes |
| Escapes.SecondUnescapeHarmless | pkg/iscsi/volumeid.go:497-509 | unescaping once more changes a text if and only if it holds '%' and is well formed |
| Urls.ParseOfParts | pkg/iscsi/volumeid.go:119-122 | a URI put together from separated parts parses into the same parts |
| Urls.QueryRoundTrip | pkg/iscsi/volumeid.go:125-139 | the query gives back every pair in order, whatever the values hold |
| VolumeHandle.PathSegmentsOf | pkg/iscsi/volumeid.go:497-509 | the loop over trimmed, split pieces computes the non-empty pieces of the whole path, unescaped where possible |
| VolumeHandle.BuildURI | pkg/iscsi/volumeid.go:476-491 | the loop prints the trimmed, escaped, non-blank segments and the sorted query |
| VolumeHandle.EncodeVolumeID | pkg/iscsi/volumeid.go:45-101 | fills the query step by step to the map the handle is defined by, for each protocol |
| VolumeHandle.DecodeVolumeID | pkg/iscsi/volumeid.go:103-187 | reads scheme, query and path step by step and validates; the same result as the definition the round trip is proved of |
| VolumeHandle.FindLUN | pkg/iscsi/volumeid.go:147-157 | the number after the first "lun" segment that has a follower |
| HandleRoundTrip.FirstSegmentExactly | pkg/iscsi/volumeid.go:143-147 | the first path segment comes back if and only if it survives a second unescaping and has no slash or outer space |
| HandleRoundTrip.PathExactly | pkg/iscsi/volumeid.go:159-167 | an NFS export path comes back if and only if it is absolute and each of its pieces survives |
| HandleRoundTrip.PortalReadsBack | pkg/iscsi/volumeid.go:511-519 | an iSCSI portal comes back if and only if it is trimmed, has a port, and is a host that a URL gives back |
| HandleRoundTrip.HostSurvivesExactly | pkg/iscsi/volumeid.go:119-122 | url.Parse gives a host back if and only if it is a name or IPv4 address with at most a port, or an IPv6 address in brackets without zone, with at most a port |
| HandleRoundTrip.IscsiPartsReadBack | pkg/iscsi/volumeid.go:469-474 | the LUN is found exactly when it was printed behind a name that survives |
| HandleRoundTrip.RoundTripExactly | pkg/iscsi/volumeid.go:45-187 | decoding an encoded handle gives back every exported field if and only if the fields are well formed, for all protocols, all bytes, and hosts with or without brackets |
| HandleRoundTrip.EncodedPercentIsLost | pkg/iscsi/volumeid.go:497-509 | a share named a%41 does not come back |
| LegacyHandle.Base64RoundTrip | pkg/iscsi/controllerserver.go:118-129 | base64url decoding undoes encoding for all bytes |
| LegacyHandle.FormsNeverCollide | pkg/iscsi/volumeid.go:200-228 | no text is both a URI handle and base64url |
| LegacyHandle.LegacyRoundTrip | pkg/iscsi/controllerserver.go:706-732 | the common decoder gives back the record of an older handle, and the volume made of it |
| LegacyHandle.LegacyHandlesDiffer | pkg/iscsi/controllerserver.go:118-121 | different records have different handles |
| LegacyHandle.UriThroughEither | pkg/iscsi/controllerserver.go:706-732 | a well-formed URI handle comes back through the common decoder; the record's LUN agrees if and only if it fits 32 bits |
| Devices.Lsblk | pkg/iscsilib/iscsi.go:531-578 | the pointer map and by-value copies yield the tree defined by the rows; bad lines are an error or an index out of range |
| Devices.AttachRow | pkg/iscsilib/iscsi.go:554-568 | one attachment changes the parent only, by the child's value at that moment |
| Devices.RootsInOrder | pkg/iscsilib/iscsi.go:570-576 | the result is exactly the root rows in order |
| Devices.DirectChildrenExactly | pkg/iscsilib/iscsi.go:554-567 | a device has exactly its direct children in row order if and only if its kernel name does not occur again or nothing names it |
| Devices.GrandchildrenExactly | pkg/iscsilib/iscsi.go:554-567 | the copy of a row in its parent has all its children if and only if there are none, or its kernel name does not occur again and all rows naming it stand before it |
| Devices.ChildrenAreCopies | pkg/iscsilib/iscsi.go:554-567 | a device's children are the rows attached to it, each as it was at that moment |
| Devices.GrandchildrenAreLost | pkg/iscsilib/iscsi.go:554-567 | when parents are printed first, attached copies never have children |
| Devices.GetMultipathDevice | pkg/iscsilib/iscsi.go:215-241 | succeeds if and only if every device has one child, all of one name, the last of type mpath |
| Devices.GetMountTargetDevice | pkg/iscsilib/iscsi.go:458-474 | succeeds if and only if there is one device or several that share a multipath device |
| Devices.IsMultipathConsistent | pkg/iscsilib/iscsi.go:700-743 | succeeds if and only if sizes are equal, WWIDs are the target's name, addresses parse, LUNs agree with the reference and controllers are distinct |
| Devices.AcceptedExactly | pkg/iscsilib/iscsi.go:703-722 | all LUNs are equal if and only if they are accepted and the sentinel hid nothing |
| Devices.SentinelHidesDifference | pkg/iscsilib/iscsi.go:703-722 | after a LUN of -1 any different LUN is accepted |
| NodeServer.StagingNode.NodeStageVolume | pkg/iscsi/nodeserver.go:661-745 | success means connected, connector persisted and, for filesystems, mounted; a mount is without its device afterwards if and only if it was before or the call cut it off, in one of two ways named by the luck of its calls |
| NodeServer.StagingNode.NodeUnstageVolume | pkg/iscsi/nodeserver.go:747-816 | success leaves no mount, directory, file, session or device of the volume; any failure keeps the order and the connector; when all calls work it fails if and only if the connector file is torn |
| NodeServer.StagingNode.NodePublishVolume | pkg/iscsi/nodeserver.go:913-936 | success on an existing path leaves it mounted; a lost staging mount is restored only from a connector file that is there and whose device is; a mount never loses its device here |
| NodeServer.StagingNode.GetCleanupConnector | pkg/iscsi/nodeserver.go:316-345 | the first connector file there is, also when its device is missing; the inner file only where no mount hides it |
| NodeServer.StagingNode.PersistOrRollBack | pkg/iscsi/nodeserver.go:702-714 | the file is written, or is as before or torn and the connection is given up; a mount on it loses its device if and only if the removal or the logout took effect |
| NodeServer.StagingNode.Connect | pkg/iscsilib/iscsi.go:315-371 | rescan, logout if that timed out, discovery and login unless sessions can be listed and show one, wait for the device; succeeds if and only if these do, and cuts a mount off exactly when the logout took effect |
| NodeServer.StageAgain | pkg/iscsi/nodeserver.go:702-714 | the run in which staging a mounted volume again takes its device and session away while it stays mounted |
| NodeServer.LostExactly | pkg/iscsi/nodeserver.go:661-745 | in every ordered trace a mounted path is without its device if and only if that was cut off by a rollback or a rescan that timed out, while mounted, and the path has stayed mounted since |
| NodeServer.StagingNode.Serve | pkg/iscsi/nodeserver.go:661-951 | over any calls, reboots and restored sessions, any of their sub-calls failing, a mounted path has a connector file, the order of teardown holds, and its device is missing if and only if the trace tells of such a loss |
| NodeServer.FilesGoLast | pkg/iscsi/nodeserver.go:795-806 | a connector file is removed only after device removal and logout of that connector succeeded, with nothing mounted since |
| FileShares.ShareController.CreateVolume | pkg/iscsi/controllerserver.go:1234-1310 | the same for NFS and SMB, grants to clients included: the probes decide the commands, a failed call leaves a prefix of them, a successful one the reply they determine |
| FileShares.ShareController.DeleteVolume | pkg/iscsi/controllerserver.go:1502-1537 | unmount, delete disk, delete share, stopping anywhere |
| ShareConvergence.TryCreate | pkg/iscsi/controllerserver.go:1234-1310 | every call of CreateVolume, however it ends, is one attempt of the histories below, and its reply is the one its probe determines |
| ShareConvergence.TryDelete | pkg/iscsi/controllerserver.go:1502-1537 | so is every call of DeleteVolume; one that succeeds has made all seven commands |
| ShareConvergence.CreationStep | pkg/iscsi/backend_fileshare.go:124-151 | every mount and share command goes through in its place and keeps the volume in order |
| ShareConvergence.DeletionRuns | pkg/iscsi/backend_fileshare.go:152-176 | no command of a deletion is refused, wherever earlier attempts stopped |
| ShareConvergence.NeverShareWithoutDisk | pkg/iscsi/controllerserver.go:1282-1288 | with no deletion interrupted an existing share has its disk, mounted at its path: FailedPrecondition is unreachable |
| ShareConvergence.CreateConverges | pkg/iscsi/controllerserver.go:1377-1460 | after any interrupted creations a further one goes through, leaves the share with its disk mounted behind it, and answers the same handle and capacity as a fresh one |
| ShareConvergence.RepliesAgree | pkg/iscsi/controllerserver.go:1280-1310 | after any history, interrupted deletions included, a creation that is not refused answers as the first one would have |
| ShareConvergence.FurnishedExactly | pkg/iscsi/controllerserver.go:1280-1294 | a completed creation leaves the clients admitted and capacity and quota written if and only if it found no share or one that had them |
| ShareConvergence.AttemptFurnishes | pkg/iscsi/backend_fileshare.go:221-287 | an attempt on a share leaves that as it is; one without a share furnishes it if and only if it ran to its end |
| ShareConvergence.NeverFurnished | pkg/iscsi/controllerserver.go:1280-1294 | once a share stands without them no number of further creations furnishes it |
| ShareConvergence.CutOffShareStaysBare | pkg/iscsi/controllerserver.go:1280-1294 | a creation cut off after New-NfsShare or New-SmbShare and then completed is answered as fresh, with no client admitted and no capacity written |
| ShareConvergence.CreateRefusedExactly | pkg/iscsi/controllerserver.go:1282-1288 | after any history creation is refused if and only if the disk is broken or the share has none |
| ShareConvergence.DeleteLeavesNothing | pkg/iscsi/controllerserver.go:1502-1537 | deletion after any history leaves no share, disk, mount or directory |
| ShareConvergence.InterruptedDeleteBlocks | pkg/iscsi/controllerserver.go:1502-1537 | a deletion cut off after the disk leaves a share without one |
| ShareConvergence.OthersUntouched | pkg/iscsi/backend_fileshare.go:124-176 | no attempt for one volume, however it ends, touches another |
| Endpoints.RequiredBytesWithin | pkg/iscsi/controllerserver.go:158-187 | the size is at least the minimum and what is required; the limit is kept if and only if it is not below the minimum |
| Endpoints.AddressHasOneColon | pkg/iscsi/controllerserver.go:761-770 | a name or IPv4 address becomes an address with one colon |
| Endpoints.SamePortalExactly | pkg/iscsilib/iscsi.go:315-325 | connectTarget's portal is the one given if and only if that has one colon |
| Endpoints.NodeUsesPortal | pkg/iscsilib/iscsi.go:315-371 | for such volumes session check, login and device name use the address the volume was created with |
| Endpoints.AddressValidExactly | pkg/iscsi/controllerserver.go:254-277 | of an accepted target portal and port an address is made that is accepted again if and only if the portal has no stray bracket |
| Endpoints.FallbackDeviceAgrees | pkg/iscsi/nodeserver.go:866-872 | the fallback device name is the one the login waited for if and only if the portal has one colon |
| Endpoints.FirstContextValueForKeys | pkg/iscsi/nodeserver.go:518-527 | the first context with any of the keys decides, and in it the first key |
| Endpoints.FirstInContextExactly | pkg/iscsi/nodeserver.go:518-527 | in a context the first key that has a value decides, if and only if all keys before it are blank or missing |
| Endpoints.FirstValueExactly | pkg/iscsi/nodeserver.go:518-527 | the first context in which any key has a value decides, if and only if all contexts before it are silent |
| Endpoints.IscsiConnectionFromContexts | pkg/iscsi/nodeserver.go:213-246 | portal, IQN and LUN by that precedence, the context decoded from the volume ID last, or an error when one is missing or invalid |
| Endpoints.FirstContextDecides | pkg/iscsi/nodeserver.go:213-246 | a context that names a connection decides, whatever comes after it |
| Endpoints.CreatedIsMapped | pkg/iscsi/controllerserver.go:1082-1174 | the target in the reply maps the disk when the commands are through, whatever was found |
| Endpoints.HandleNamesConnection | pkg/iscsi/controllerserver.go:1573-1608 | the publish context made from an issued handle names the portal, IQN and LUN the handle was made with |
| Endpoints.NodeConnectsToCreated | pkg/iscsi/controllerserver.go:1602-1608 | from publish context or volume context, made of an accepted portal and port, the node gets the address, the IQN of the target that maps the disk, and LUN 0; it refuses if and only if the portal has a stray bracket |
| Endpoints.HandleAloneConnects | pkg/iscsi/nodeserver.go:529-535 | without any context a well-formed handle is enough: portal, IQN and LUN are its own |
| Endpoints.ShareIDWellFormedExactly | pkg/iscsi/controllerserver.go:536-559 | the handle made of a created share comes back if and only if the share's name survives and the server may stand in a URL |
| Endpoints.UnreservedNameSurvives | pkg/iscsi/internal_kubernetes.go:718-720 | share names of letters, digits, `-`, `_`, `.` and `~`, such as those made for claims, survive |
| Endpoints.NodeMountsCreatedShare | pkg/iscsi/nodeserver.go:586-602 | the node mounts server and share of the created volume, whatever other contexts say: from the volume context, from the publish context made of the decoded handle, and from the handle alone |

## Left out

- Snapshots, restore from a snapshot, volume expansion, GetCapacity and node statistics: no part of the model.
- CHAP: a creation that finds an existing volume does not apply the settings again, so convergence is stated without them.
- Directory-backed NFS and SMB shares: one backend call each; only the VHDX-backed chains are modelled.
- Protocols other than iSCSI in the reconcilers: attaching them is a no-op and their deletion is covered by the histories of shares.
- WinRM transport, PowerShell quoting and the cmdlets: each script is a sequence of test-and-change commands. A command whose reply was lost may have taken effect, but not later than the next command.
- Case folding: names, paths and IQNs of the host stand for their folded form; only `Initiators` compares spellings.
- The IQN Windows gives an unnamed target is a function of its name.
- The size of a new disk is the size asked for.
- The host starts without volumes of the driver in the protocol; other histories are covered by `Convergence`.
- Handles without a target name: DeleteVolume models them, the theorems on deletion are about handles CreateVolume issues.
- csiNodeIDForVolumeAttachment: node names are taken to resolve; an attachment whose CSINode entry is missing is retried and changes nothing.
- HandleRoundTrip.RoundTripExactly: hosts that hold `/`, `?`, `#`, `@` or control characters are outside its scope. net/url is modelled as of Go 1.26, which allows one colon in a host.
- LegacyHandle.LegacyRoundTrip: encoding/json is taken as a codec that loses nothing, which holds for valid UTF-8.
- NodeServer: one staging path with one volume; block publishing, NodeUnpublishVolume and mount options are not modelled, and the system's answer whether a path is mounted is taken as true.
- NodeServer.StagingNode.Connect: interfaces other than TCP and retries while waiting are not modelled.
- LifecycleSafety.AccessNeverOutlivesAttachment: promises nothing of a volume that has strayed until the end of the run, since what a worker did by an old copy is not undone.
- Settling.FairSchedulesSettle: starts where no volume has strayed, and claims are not reconciled during the quiet time. A claim whose PersistentVolume the API server keeps refusing is provisioned and rolled back for ever, so that no bound on its writes holds; a creation under way when the quiet time begins is finished or fails.
- Option normalisation, Windows path validation, logging, leader election and registration: no run-level property.
