/**
 * The built-in provisioner and attacher as a protocol over Kubernetes objects and the Windows host.
 *
 * Each reconciler is one worker. A `World` step is one API call, one backend command, one informer
 * delivery, or a move of the rest of the cluster; any call may fail before or after it has taken
 * effect, and a worker that fails (or whose process dies) starts over from its queue.
 *
 * What is assumed of the environment stands in `PVMayBecome`, `VAMayBecome`, `StartsCreation` and
 * `ListIsRecent`.
 */
module Lifecycle {
  import opened Results
  import opened Naming
  import opened WindowsStorage
  import opened ControllerServer

  // ---------- Kubernetes objects ----------

  /** persistentVolumeReclaimPolicy: Delete, or anything else. */
  datatype Policy = Delete | Keep

  datatype Finalizer = Driver | Foreign(name: string)

  datatype PV = PV(rv: nat, policy: Policy, handle: Handle, released: bool, deleting: bool, finalizers: set<Finalizer>)

  /** A VolumeAttachment is named after its PersistentVolume and node; `node` is the node's ID. */
  datatype Key = Key(pv: string, node: string)

  /** `born` is the revision that created this incarnation of the object. */
  datatype VA = VA(rv: nat, born: nat, deleting: bool, attached: bool, finalizers: set<Finalizer>)

  /** Every write to the API server makes a version; None is the object's removal. */
  datatype PVVersion = PVVersion(name: string, rv: nat, pv: Option<PV>)

  datatype VAVersion = VAVersion(key: Key, rv: nat, va: Option<VA>)

  predicate Flagged(pv: PV) {
    pv.deleting || pv.released
  }

  // ---------- The two workers ----------

  datatype CreatePhase = MakeDisk | MakeTarget | NameTarget | MapDisk

  datatype DeletePhase = Unmap | Unregister | Unlink | DropTarget

  /** What the provisioner is about to do. */
  datatype Provisioner =
    | Resting
    | Creating(req: Request, found: Found, policy: Policy, make: CreatePhase)
    | Publishing(handle: Handle, policy: Policy)
    | RollingBack(handle: Handle, phase: DeletePhase)
    | Deleting(name: string, pv: PV, phase: DeletePhase)
    | DroppingFinalizer(name: string, pv: PV)
    | DeletingPV(name: string)

  /** What the attacher is about to do; `va` is the copy of the object it works from. */
  datatype Attacher =
    | Idle
    | Looking(key: Key, va: VA)
    | Marking(key: Key, va: VA, handle: Handle)
    | Refetching(key: Key, handle: Handle)
    | Allowing(key: Key, va: VA, handle: Handle)
    | Reporting(key: Key, va: VA, handle: Handle)
    | Denying(key: Key, va: VA, handle: Handle)
    | Unmarking(key: Key, va: VA)

  /**
   * The following only record the past: `births` (the revision that created the latest
   * PersistentVolume of each name), `published` (the handle put into it), `strayed` (volumes that a
   * worker has handled by a copy of an earlier PersistentVolume, and that `published` no longer vouches
   * for), `again` (the handles of those on which no deletion has had an effect since), `kept` (volumes
   * whose policy was ever other than Delete), `begun` (volumes whose deletion has taken its first effect).
   */
  datatype World = World(
    rev: nat,
    pvs: map<string, PV>, pvLog: set<PVVersion>, pvCache: map<string, PVVersion>,
    vas: map<Key, VA>, vaLog: set<VAVersion>, vaCache: map<Key, VAVersion>,
    births: map<string, nat>, published: map<string, Handle>, strayed: set<string>, again: map<string, Handle>,
    kept: set<string>, begun: set<string>,
    storage: Storage, prov: Provisioner, att: Attacher)

  // ---------- Writes to the API server ----------

  function PutPV(w: World, name: string, pv: PV): World {
    var stored := pv.(rv := w.rev + 1);
    w.(rev := w.rev + 1, pvs := w.pvs[name := stored],
       pvLog := w.pvLog + {PVVersion(name, w.rev + 1, Some(stored))},
       kept := if pv.policy.Keep? then w.kept + {name} else w.kept)
  }

  function RemovePV(w: World, name: string): World {
    w.(rev := w.rev + 1, pvs := w.pvs - {name}, pvLog := w.pvLog + {PVVersion(name, w.rev + 1, None)})
  }

  /** A deleting object without finalizers is removed. */
  function StorePV(w: World, name: string, pv: PV): World {
    if pv.deleting && pv.finalizers == {} then RemovePV(w, name) else PutPV(w, name, pv)
  }

  function PutVA(w: World, key: Key, va: VA): World {
    var stored := va.(rv := w.rev + 1);
    w.(rev := w.rev + 1, vas := w.vas[key := stored],
       vaLog := w.vaLog + {VAVersion(key, w.rev + 1, Some(stored))})
  }

  function RemoveVA(w: World, key: Key): World {
    w.(rev := w.rev + 1, vas := w.vas - {key}, vaLog := w.vaLog + {VAVersion(key, w.rev + 1, None)})
  }

  function StoreVA(w: World, key: Key, va: VA): World {
    if va.deleting && va.finalizers == {} then RemoveVA(w, key) else PutVA(w, key, va)
  }

  // ---------- The rest of the cluster ----------

  /** Flags stay up and nobody touches the driver's finalizer; the policy may change at any time. */
  predicate PVMayBecome(was: PV, now: PV) {
    && now.handle == was.handle
    && (was.released ==> now.released) && (was.deleting ==> now.deleting)
    && (Driver in now.finalizers <==> Driver in was.finalizers)
  }

  predicate VAMayBecome(was: VA, now: VA) {
    && now.born == was.born && now.attached == was.attached
    && (was.deleting ==> now.deleting)
    && (Driver in now.finalizers <==> Driver in was.finalizers)
  }

  /** Kubernetes attaches only volumes that are neither Released nor deleting. */
  predicate MayAttach(w: World, key: Key) {
    key !in w.vas && key.pv in w.pvs && !Flagged(w.pvs[key.pv])
  }

  function NewVA(w: World): VA {
    VA(w.rev + 1, w.rev + 1, false, false, {})
  }

  // ---------- Copies of earlier PersistentVolumes ----------

  /** This revision is of the latest PersistentVolume of the name. */
  predicate OfLatest(births: map<string, nat>, name: string, rv: nat) {
    name in births && births[name] <= rv
  }

  /** The PersistentVolume cache still shows an earlier one. */
  predicate Outdated(w: World, name: string) {
    name in w.births && name in w.pvCache && w.pvCache[name].rv < w.births[name]
  }

  /** A worker acts on this volume by a copy of an earlier PersistentVolume, or by having found none. */
  function Strayed(w: World, name: string): World {
    if name !in w.published then w
    else w.(published := w.published - {name}, strayed := w.strayed + {name},
            again := if name in w.begun then w.again else w.again[name := w.published[name]])
  }

  /** A worker acts on this volume by a copy of this revision. */
  function ActedOn(w: World, name: string, rv: nat): World {
    if OfLatest(w.births, name, rv) then w else Strayed(w, name)
  }

  // ---------- The provisioner ----------

  predicate WellNamed(req: Request) {
    && req.vol != "" && req.path != "" && req.target != "" && req.size > 0
    && TargetOwner(req.target) == req.vol && PathOwner(req.path) == req.vol
  }

  /** A disk of this volume can only be where the request looks for it. */
  predicate OneHome(s: Storage, vol: string, path: string) {
    forall p :: p in s.disks && PathOwner(p) == vol ==> p == path
  }

  /** The request the provisioner makes of a claim names things after it. */
  lemma ClaimIsWellNamed(uid: string, prefix: string, dir: string, iqn: string, size: int, portal: string)
    requires ValidUid(uid) && size > 0
    ensures var vol := VolumeNameForClaim(uid);
            WellNamed(Request(vol, Naming.VhdxPath(dir, vol), TargetFor(prefix, vol), iqn, size, portal))
  {
    var vol := VolumeNameForClaim(uid);
    ClaimNamesAreValid(uid);
    TargetOwnerOfTarget(prefix, vol);
    PathOwnerOfPath(dir, vol);
  }

  /**
   * CreateVolume starts when the live lookup finds no PersistentVolume of that name and
   * GetVolumeByName finds nothing that stands in the way. The claim cache may lag: a claim may still
   * look unbound when its volume has been deleted, and is then provisioned again.
   */
  ghost predicate StartsCreation(w: World, req: Request, found: Found) {
    && w.prov.Resting? && WellNamed(req) && OneHome(w.storage, req.vol, req.path)
    && req.vol !in w.pvs
    && Finds(w.storage, req.path, found) && !Refused(req, found)
  }

  function CreationStarted(w: World, req: Request, found: Found, policy: Policy): World {
    Forgotten(w, req.vol).(prov := Creating(req, found, policy, FirstPhase(found)))
  }

  /** Until it is published the volume is held to no handle. */
  function Forgotten(w: World, vol: string): World {
    w.(published := w.published - {vol}, again := w.again - {vol})
  }

  function FirstPhase(found: Found): CreatePhase {
    if found.Absent? then MakeDisk else MakeTarget
  }

  function CreateCommand(req: Request, found: Found, phase: CreatePhase): Command {
    match phase
    case MakeDisk => NewDisk(req.path, req.size)
    case MakeTarget => NewTarget(TargetChosen(req, found))
    case NameTarget => SetIqn(TargetChosen(req, found), IqnChosen(req, found))
    case MapDisk => AddMapping(TargetChosen(req, found), req.path)
  }

  predicate AlreadyMapped(found: Found) {
    found.Present? && found.mapping.Some?
  }

  function DeleteCommand(h: Handle, phase: DeletePhase): Command {
    match phase
    case Unmap => RemoveMapping(FirstNonEmpty(h.target, h.iqn), h.path)
    case Unregister => UnregisterDisk(h.path)
    case Unlink => RemoveFile(h.path)
    case DropTarget => RemoveTarget(h.target)
  }

  function AfterPhase(phase: DeletePhase): DeletePhase
    requires !phase.DropTarget?
  {
    match phase
    case Unmap => Unregister
    case Unregister => Unlink
    case Unlink => DropTarget
  }

  /** The calls a deletion has yet to make. */
  function PhasesLeft(phase: DeletePhase): nat {
    match phase
    case Unmap => 4
    case Unregister => 3
    case Unlink => 2
    case DropTarget => 1
  }

  /** The calls a creation has yet to make. */
  function CreatePhasesLeft(phase: CreatePhase): nat {
    match phase
    case MakeDisk => 4
    case MakeTarget => 3
    case NameTarget => 2
    case MapDisk => 1
  }

  /** The VolumeAttachment lister shows none for this volume. */
  predicate NoneListed(w: World, name: string) {
    forall k :: k in w.vaCache && k.pv == name ==> w.vaCache[k].va.None?
  }

  /** The VolumeAttachment cache is no older than the PersistentVolume copy of revision `rv`. */
  predicate ListIsRecent(w: World, name: string, rv: nat) {
    forall k :: k in w.vas && k.pv == name && w.vas[k].born <= rv ==>
      k in w.vaCache && w.vas[k].born <= w.vaCache[k].rv
  }

  /** A copy of the PersistentVolume that its informer has delivered, now or before. */
  predicate SeenPV(w: World, name: string, pv: PV) {
    PVVersion(name, pv.rv, Some(pv)) in w.pvLog && name in w.pvCache && pv.rv <= w.pvCache[name].rv
  }

  function CachedPV(w: World, name: string): Option<PV> {
    if name in w.pvCache then w.pvCache[name].pv else None
  }

  /** What follows DeleteVolume in the reconciliation of a PersistentVolume copy. */
  function AfterDeletion(name: string, pv: PV): Provisioner {
    if Driver in pv.finalizers then DroppingFinalizer(name, pv) else AfterDropping(name, pv)
  }

  function AfterDropping(name: string, pv: PV): Provisioner {
    if pv.policy.Delete? && !pv.deleting then DeletingPV(name) else Resting
  }

  /** The handle CreateVolume answers with on this host. */
  function HandleFor(req: Request, found: Found, s: Storage): Handle {
    var t := TargetChosen(req, found);
    Handle(req.vol, req.portal, t, if t in s.targets then s.targets[t].iqn else "", 0, req.path,
           if req.path in s.disks then s.disks[req.path].size else 0)
  }

  /** What follows a command of the creation that has left the host as `s`. */
  function AfterCreating(req: Request, found: Found, policy: Policy, phase: CreatePhase, s: Storage): Provisioner {
    match phase
    case MakeDisk => Creating(req, found, policy, MakeTarget)
    case MakeTarget => Creating(req, found, policy, NameTarget)
    case NameTarget =>
      if AlreadyMapped(found) then Publishing(HandleFor(req, found, s), policy) else Creating(req, found, policy, MapDisk)
    case MapDisk => Publishing(HandleFor(req, found, s), policy)
  }

  function CreateCall(w: World, req: Request, found: Found, policy: Policy, phase: CreatePhase): Option<World> {
    match Apply(w.storage, CreateCommand(req, found, phase))
    case Err => None
    case Ok(s) =>
      if phase.NameTarget? && HandleFor(req, found, s).iqn == "" then None
      else Some(w.(storage := s, prov := AfterCreating(req, found, policy, phase, s)))
  }

  /** The attacher works on this volume by a copy of its PersistentVolume, or by having found none. */
  predicate Holds(att: Attacher, vol: string) {
    !att.Idle? && !att.Looking? && att.key.pv == vol
  }

  /** Nothing is left of an earlier PersistentVolume of this name that could lead a worker astray unseen. */
  predicate Fresh(w: World, vol: string) {
    vol !in w.strayed && (vol in w.births ==> vol !in w.kept && !Holds(w.att, vol))
  }

  function Published(w: World, h: Handle, policy: Policy): World {
    var pv := PV(w.rev + 1, policy, h, false, false, if policy.Delete? then {Driver} else {});
    w.(rev := w.rev + 1, pvs := w.pvs[h.vol := pv], pvLog := w.pvLog + {PVVersion(h.vol, w.rev + 1, Some(pv))},
       kept := if policy.Keep? then w.kept + {h.vol} else w.kept,
       births := w.births[h.vol := w.rev + 1], begun := w.begun - {h.vol}, prov := Resting,
       published := if Fresh(w, h.vol) then w.published[h.vol := h] else w.published,
       strayed := if Fresh(w, h.vol) then w.strayed else w.strayed + {h.vol},
       again := if Fresh(w, h.vol) then w.again else w.again[h.vol := h])
  }

  function RollbackCall(w: World, h: Handle, phase: DeletePhase): Option<World> {
    match Apply(w.storage, DeleteCommand(h, phase))
    case Err => None
    case Ok(s) =>
      Some(w.(storage := s, prov := if phase.DropTarget? then Resting else RollingBack(h, AfterPhase(phase))))
  }

  function DeleteCall(w: World, name: string, pv: PV, phase: DeletePhase): Option<World> {
    match Apply(w.storage, DeleteCommand(pv.handle, phase))
    case Err => None
    case Ok(s) =>
      var w1 := ActedOn(w, name, pv.rv);
      Some(w1.(storage := s, begun := w.begun + {name}, again := w1.again - {name},
               prov := if phase.DropTarget? then AfterDeletion(name, pv) else Deleting(name, pv, AfterPhase(phase))))
  }

  function DropFinalizerCall(w: World, name: string, pv: PV): Option<World> {
    if name in w.pvs && w.pvs[name].rv == pv.rv
    then Some(StorePV(w, name, pv.(finalizers := pv.finalizers - {Driver})).(prov := AfterDropping(name, pv)))
    else None
  }

  function DeletePVCall(w: World, name: string): World {
    if name !in w.pvs || w.pvs[name].deleting then w.(prov := Resting)
    else StorePV(w, name, w.pvs[name].(deleting := true)).(prov := Resting)
  }

  /** The provisioner's current call succeeding; None when it is refused. */
  function ProvisionerCall(w: World): Option<World> {
    match w.prov
    case Resting => None
    case Creating(req, found, policy, phase) => CreateCall(w, req, found, policy, phase)
    case Publishing(h, policy) => Some(if h.vol in w.pvs then w.(prov := Resting) else Published(w, h, policy))
    case RollingBack(h, phase) => RollbackCall(w, h, phase)
    case Deleting(name, pv, phase) => DeleteCall(w, name, pv, phase)
    case DroppingFinalizer(name, pv) => DropFinalizerCall(w, name, pv)
    case DeletingPV(name) => Some(DeletePVCall(w, name))
  }

  // ---------- The attacher ----------

  /** Where the reconciliation of this VolumeAttachment copy goes, by the PersistentVolume cache. */
  function AttachPlan(w: World, key: Key, va: VA): Attacher {
    match CachedPV(w, key.pv)
    case None => if va.deleting && Driver in va.finalizers then Unmarking(key, va) else Idle
    case Some(pv) =>
      if va.deleting then (if Driver in va.finalizers then Denying(key, va, pv.handle) else Idle)
      else if va.attached then Idle
      else if Driver !in va.finalizers then Marking(key, va, pv.handle)
      else Allowing(key, va, pv.handle)
  }

  function Looked(w: World, key: Key, va: VA): World {
    var plan := AttachPlan(w, key, va);
    (if Outdated(w, key.pv) && !plan.Idle? then Strayed(w, key.pv) else w).(att := plan)
  }

  /** An update based on the copy `va`: it goes through only if the object is still at that revision. */
  function UpdateVA(w: World, key: Key, va: VA, now: VA, next: Attacher): Option<World> {
    if key in w.vas && w.vas[key].rv == va.rv then Some(StoreVA(w, key, now).(att := next)) else None
  }

  function ChangeAccess(w: World, c: Command, next: Attacher): Option<World> {
    match Apply(w.storage, c)
    case Err => None
    case Ok(s) => Some(w.(storage := s, att := next))
  }

  /** The attacher's current call succeeding; None when it is refused. */
  function AttacherCall(w: World): Option<World> {
    match w.att
    case Idle => None
    case Looking(key, va) => Some(Looked(w, key, va))
    case Marking(key, va, h) => UpdateVA(w, key, va, va.(finalizers := va.finalizers + {Driver}), Refetching(key, h))
    case Refetching(key, h) => if key in w.vas then Some(w.(att := Allowing(key, w.vas[key], h))) else None
    case Allowing(key, va, h) =>
      ChangeAccess(w, Command.Allow(FirstNonEmpty(h.target, h.iqn), key.node), Reporting(key, va, h))
    case Reporting(key, va, h) => UpdateVA(w, key, va, va.(attached := true), Idle)
    case Denying(key, va, h) =>
      ChangeAccess(w, Command.Deny(FirstNonEmpty(h.target, h.iqn), key.node), Unmarking(key, va))
    case Unmarking(key, va) => UpdateVA(w, key, va, va.(finalizers := va.finalizers - {Driver}), Idle)
  }

  // ---------- Steps and runs ----------

  datatype Action =
    | EditPV(name: string, pv: PV) | PurgePV(name: string)
    | EditVA(key: Key, va: VA) | PurgeVA(key: Key) | Attach(key: Key)
    | SeePV(pvVersion: PVVersion) | SeeVA(vaVersion: VAVersion)
    | StartCreate(req: Request, found: Found, policy: Policy)
    | StartDelete(name: string, copy: PV) | StartDrop(name: string, copy: PV)
    | Provision(lost: bool) | PublishFails | ProvisionerFails
    | StartAttach(key: Key) | AttachCall(lost: bool) | AttacherFails

  predicate EditsPV(w: World, name: string, pv: PV, w': World) {
    name in w.pvs && PVMayBecome(w.pvs[name], pv) && w' == StorePV(w, name, pv)
  }

  predicate PurgesPV(w: World, name: string, w': World) {
    name in w.pvs && w.pvs[name].finalizers == {} && w' == RemovePV(w, name)
  }

  predicate EditsVA(w: World, key: Key, va: VA, w': World) {
    key in w.vas && VAMayBecome(w.vas[key], va) && w' == StoreVA(w, key, va)
  }

  predicate PurgesVA(w: World, key: Key, w': World) {
    key in w.vas && w.vas[key].finalizers == {} && w' == RemoveVA(w, key)
  }

  predicate Attaches(w: World, key: Key, w': World) {
    MayAttach(w, key) && w' == PutVA(w, key, NewVA(w))
  }

  /** An informer delivers some later version of an object. */
  predicate SeesPV(w: World, x: PVVersion, w': World) {
    && x in w.pvLog && (x.name in w.pvCache ==> w.pvCache[x.name].rv <= x.rv)
    && w' == w.(pvCache := w.pvCache[x.name := x])
  }

  predicate SeesVA(w: World, y: VAVersion, w': World) {
    && y in w.vaLog && (y.key in w.vaCache ==> w.vaCache[y.key].rv <= y.rv)
    && w' == w.(vaCache := w.vaCache[y.key := y])
  }

  /** A copy of the PersistentVolume has been read, then the attachments are listed. */
  predicate StartsDeletion(w: World, name: string, pv: PV, w': World) {
    && w.prov.Resting? && SeenPV(w, name, pv) && Flagged(pv) && pv.policy.Delete?
    && NoneListed(w, name) && ListIsRecent(w, name, pv.rv)
    && w' == w.(prov := Deleting(name, pv, Unmap))
  }

  predicate StartsDropping(w: World, name: string, pv: PV, w': World) {
    && w.prov.Resting? && SeenPV(w, name, pv) && pv.deleting && pv.policy.Keep? && Driver in pv.finalizers
    && w' == w.(prov := DroppingFinalizer(name, pv))
  }

  predicate Provisions(w: World, lost: bool, w': World) {
    && ProvisionerCall(w).Some?
    && w' == if lost then ProvisionerCall(w).value.(prov := Resting) else ProvisionerCall(w).value
  }

  /** The PersistentVolume could not be created; the volume is rolled back. */
  predicate FailsToPublish(w: World, w': World) {
    w.prov.Publishing? && w' == w.(prov := RollingBack(w.prov.handle, Unmap))
  }

  predicate StartsAttachment(w: World, key: Key, w': World) {
    && w.att.Idle? && key in w.vaCache && w.vaCache[key].va.Some?
    && w' == w.(att := Looking(key, w.vaCache[key].va.value))
  }

  predicate CallsForAttachment(w: World, lost: bool, w': World) {
    && AttacherCall(w).Some?
    && w' == if lost then AttacherCall(w).value.(att := Idle) else AttacherCall(w).value
  }

  ghost predicate Step(w: World, a: Action, w': World) {
    match a
    case EditPV(name, pv) => EditsPV(w, name, pv, w')
    case PurgePV(name) => PurgesPV(w, name, w')
    case EditVA(key, va) => EditsVA(w, key, va, w')
    case PurgeVA(key) => PurgesVA(w, key, w')
    case Attach(key) => Attaches(w, key, w')
    case SeePV(x) => SeesPV(w, x, w')
    case SeeVA(y) => SeesVA(w, y, w')
    case StartCreate(req, found, policy) =>
      StartsCreation(w, req, found) && w' == CreationStarted(w, req, found, policy)
    case StartDelete(name, pv) => StartsDeletion(w, name, pv, w')
    case StartDrop(name, pv) => StartsDropping(w, name, pv, w')
    case Provision(lost) => Provisions(w, lost, w')
    case PublishFails => FailsToPublish(w, w')
    case ProvisionerFails => w' == w.(prov := Resting)
    case StartAttach(key) => StartsAttachment(w, key, w')
    case AttachCall(lost) => CallsForAttachment(w, lost, w')
    case AttacherFails => w' == w.(att := Idle)
  }

  ghost predicate Next(w: World, w': World) {
    exists a :: Step(w, a, w')
  }

  ghost predicate Init(w: World) {
    && w.pvs == map[] && w.pvLog == {} && w.pvCache == map[]
    && w.vas == map[] && w.vaLog == {} && w.vaCache == map[]
    && w.births == map[] && w.published == map[] && w.strayed == {} && w.again == map[] && w.kept == {} && w.begun == {}
    && w.storage == Storage(map[], map[]) && w.prov.Resting? && w.att.Idle?
  }

  ghost predicate Run(run: seq<World>) {
    && run != [] && Init(run[0])
    && forall i :: 0 <= i < |run| - 1 ==> Next(run[i], run[i + 1])
  }
}
