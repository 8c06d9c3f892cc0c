/**
 * What every reachable world satisfies. Each predicate takes only the components it speaks of, so
 * that a step which leaves those alone keeps it at once.
 */
module LifecycleInvariants {
  import opened Results
  import opened Naming
  import opened WindowsStorage
  import opened ControllerServer
  import opened Lifecycle

  // ---------- PersistentVolumes ----------

  predicate HandlesFit(published: map<string, Handle>) {
    forall v :: v in published ==> HandleFits(v, published[v])
  }

  predicate PastKnown(births: map<string, nat>, rev: nat, past: set<string>) {
    && (forall v :: v in past ==> v in births)
    && (forall v :: v in births ==> births[v] <= rev)
  }

  /** Who is attached or admitted is so to a volume that is not just being provisioned. */
  predicate Held(published: map<string, Handle>, strayed: set<string>, kept: set<string>, vol: string) {
    vol in published || vol in strayed || vol in kept
  }

  predicate HandleFits(vol: string, h: Handle) {
    h.vol == vol && vol != "" && h.target != "" && TargetOwner(h.target) == vol && PathOwner(h.path) == vol
  }

  /** The handle of this volume, and the one it was published with. */
  predicate HandleOf(published: map<string, Handle>, vol: string, h: Handle) {
    HandleFits(vol, h) && (vol in published ==> h == published[vol])
  }

  predicate PVLogSound(pvLog: set<PVVersion>, rev: nat, births: map<string, nat>, published: map<string, Handle>,
          kept: set<string>) {
    forall x :: x in pvLog ==> PVVersionSound(x, rev, births, published, kept)
  }

  predicate PVVersionSound(x: PVVersion, rev: nat, births: map<string, nat>, published: map<string, Handle>, kept: set<string>) {
    && x.rv <= rev && x.name in births
    && (x.pv.Some? ==>
          && x.pv.value.rv == x.rv && HandleFits(x.name, x.pv.value.handle)
          && (births[x.name] <= x.rv ==> HandleOf(published, x.name, x.pv.value.handle))
          && (x.pv.value.policy.Keep? ==> x.name in kept))
  }

  /** A version tells the truth about every later one of the same PersistentVolume: removal and flags last. */
  predicate PVPastBinds(pvLog: set<PVVersion>, pvs: map<string, PV>, births: map<string, nat>) {
    forall x :: x in pvLog && OfLatest(births, x.name, x.rv) ==> PVVersionBinds(x, pvs)
  }

  predicate PVVersionBinds(x: PVVersion, pvs: map<string, PV>) {
    && (x.pv.None? ==> x.name !in pvs)
    && (x.pv.Some? && Flagged(x.pv.value) && x.name in pvs ==> Flagged(pvs[x.name]))
  }

  /** No version of the same PersistentVolume follows the removal. */
  predicate RemovalLasts(pvLog: set<PVVersion>, births: map<string, nat>) {
    forall x, y :: x in pvLog && y in pvLog && x.name == y.name && OfLatest(births, x.name, x.rv) && x.pv.None? && x.rv <= y.rv ==>
      y.pv.None?
  }

  predicate PVsCurrent(pvs: map<string, PV>, pvLog: set<PVVersion>, rev: nat, births: map<string, nat>,
          published: map<string, Handle>, strayed: set<string>, kept: set<string>) {
    forall n :: n in pvs ==>
      && OfLatest(births, n, pvs[n].rv) && HandleOf(published, n, pvs[n].handle) && pvs[n].rv <= rev
      && (n in published || n in strayed)
      && PVVersion(n, pvs[n].rv, Some(pvs[n])) in pvLog
      && (pvs[n].policy.Keep? ==> n in kept)
  }

  predicate PVVersionsDistinct(pvLog: set<PVVersion>) {
    forall x, y :: x in pvLog && y in pvLog && x.rv == y.rv ==> x == y
  }

  predicate PVCacheSound(pvCache: map<string, PVVersion>, pvLog: set<PVVersion>) {
    forall n :: n in pvCache ==> pvCache[n] in pvLog && pvCache[n].name == n
  }

  // ---------- VolumeAttachments ----------

  predicate VALogSound(vaLog: set<VAVersion>, rev: nat) {
    forall y :: y in vaLog ==>
      y.rv <= rev && (y.va.Some? ==> y.va.value.rv == y.rv && y.va.value.born <= y.rv)
  }

  /** Versions since the birth of the current incarnation are of it, and deletion lasts. */
  predicate VAPastBinds(vaLog: set<VAVersion>, vas: map<Key, VA>) {
    forall y :: y in vaLog && y.key in vas ==> VAVersionBinds(y, vas[y.key])
  }

  predicate VAVersionBinds(y: VAVersion, va: VA) {
    && y.rv <= va.rv
    && (va.born <= y.rv ==>
          && y.va.Some? && y.va.value.born == va.born
          && (y.va.value.deleting ==> va.deleting))
  }

  predicate VAsCurrent(vas: map<Key, VA>, vaLog: set<VAVersion>, rev: nat, births: map<string, nat>,
          published: map<string, Handle>, strayed: set<string>, kept: set<string>) {
    forall k :: k in vas ==>
      && vas[k].born <= vas[k].rv <= rev && k.pv in births && Held(published, strayed, kept, k.pv)
      && VAVersion(k, vas[k].rv, Some(vas[k])) in vaLog
  }

  predicate VAVersionsDistinct(vaLog: set<VAVersion>) {
    forall x, y :: x in vaLog && y in vaLog && x.rv == y.rv ==> x == y
  }

  predicate VACacheSound(vaCache: map<Key, VAVersion>, vaLog: set<VAVersion>) {
    forall k :: k in vaCache ==> vaCache[k] in vaLog && vaCache[k].key == k
  }

  /** Every attachment is older than every flag on its volume's latest PersistentVolume. */
  predicate BornBeforeFlags(vas: map<Key, VA>, pvLog: set<PVVersion>, births: map<string, nat>) {
    forall k, x :: (k in vas && x in pvLog && x.name == k.pv && OfLatest(births, x.name, x.rv) && x.pv.Some? && Flagged(x.pv.value)) ==>
      vas[k].born < x.rv
  }

  /** The cache still shows this key at or before revision `rv`, if at all. */
  predicate CacheNotPast(vaCache: map<Key, VAVersion>, key: Key, rv: nat) {
    key in vaCache ==> vaCache[key].rv <= rv
  }

  predicate MarkedLive(y: VAVersion) {
    y.va.Some? && !y.va.value.deleting && Driver in y.va.value.finalizers
  }

  /**
   * While the cache has not moved past a version that carries the driver's finalizer and is not
   * deleting, the object still exists with the finalizer.
   */
  predicate MarkedStaysMarked(vas: map<Key, VA>, vaLog: set<VAVersion>, vaCache: map<Key, VAVersion>) {
    forall y :: (y in vaLog && MarkedLive(y) && CacheNotPast(vaCache, y.key, y.rv)) ==>
      y.key in vas && vas[y.key].born == y.va.value.born && Driver in vas[y.key].finalizers
  }

  /** The finalizer is only ever put on when the volume's PersistentVolume has been seen. */
  predicate MarkedOnlyIfSeen(vaLog: set<VAVersion>, pvCache: map<string, PVVersion>) {
    forall y :: y in vaLog && y.va.Some? && Driver in y.va.value.finalizers ==> y.key.pv in pvCache
  }

  // ---------- The host ----------

  predicate MappingsFit(s: Storage) {
    forall t, p :: t in s.targets && p in s.targets[t].luns ==>
      PathOwner(p) == TargetOwner(t) && IsRegistered(s, p)
  }

  predicate MappedOnce(s: Storage) {
    forall t, u, p :: t in s.targets && u in s.targets && p in s.targets[t].luns && p in s.targets[u].luns ==> t == u
  }

  predicate OneDiskPerVolume(s: Storage) {
    forall p, q :: p in s.disks && q in s.disks && PathOwner(p) == PathOwner(q) ==> p == q
  }

  /** The volume is complete: its disk exists and is mapped to its target, whose IQN is the handle's. */
  predicate Intact(s: Storage, h: Handle) {
    && h.path in s.disks && s.disks[h.path] == Disk(h.size, true)
    && h.target in s.targets && s.targets[h.target].iqn == h.iqn && h.path in s.targets[h.target].luns
  }

  predicate Marked(vas: map<Key, VA>, key: Key) {
    key in vas && Driver in vas[key].finalizers
  }

  /** The informer has shown that the latest PersistentVolume is gone. */
  predicate SeenGone(pvCache: map<string, PVVersion>, births: map<string, nat>, vol: string) {
    vol in pvCache && pvCache[vol].pv.None? && OfLatest(births, vol, pvCache[vol].rv)
  }

  /**
   * Access lists: who may connect is attached, or the PersistentVolume went without its backend,
   * which the driver only lets happen when the policy was once other than Delete.
   */
  predicate AccessJustified(s: Storage, vas: map<Key, VA>, pvCache: map<string, PVVersion>, births: map<string, nat>,
          published: map<string, Handle>, strayed: set<string>, kept: set<string>) {
    forall t, n :: t in s.targets && n in s.targets[t].initiators ==>
      AdmissionJustified(t, n, vas, pvCache, births, published, strayed, kept)
  }

  predicate AdmissionJustified(t: string, n: string, vas: map<Key, VA>, pvCache: map<string, PVVersion>,
          births: map<string, nat>, published: map<string, Handle>, strayed: set<string>, kept: set<string>) {
    var vol := TargetOwner(t);
    && vol in births && Held(published, strayed, kept, vol)
    && (vol in published ==>
          published[vol].target == t && (Marked(vas, Key(vol, n)) || (vol in kept && SeenGone(pvCache, births, vol))))
  }

  /** A volume is intact exactly until its deletion begins. */
  predicate IntactUntilBegun(s: Storage, published: map<string, Handle>, begun: set<string>) {
    forall v :: v in published ==> (Intact(s, published[v]) <==> v !in begun)
  }

  /** A strayed volume is intact until a deletion takes effect on it. */
  predicate AgainIntact(s: Storage, pvs: map<string, PV>, strayed: set<string>, again: map<string, Handle>) {
    forall v :: v in again ==>
      v in strayed && HandleFits(v, again[v]) && Intact(s, again[v]) && (v in pvs ==> pvs[v].handle == again[v])
  }

  /** Deletion begins only with volumes that are flagged or gone and not attached, and they stay so. */
  predicate BegunAreDead(pvs: map<string, PV>, vas: map<Key, VA>, published: map<string, Handle>, begun: set<string>) {
    forall v :: v in begun && v in published ==> Dead(pvs, vas, v)
  }

  predicate Dead(pvs: map<string, PV>, vas: map<Key, VA>, vol: string) {
    (vol in pvs ==> Flagged(pvs[vol])) && NoneAttached(vas, vol)
  }

  /** The driver lets go of a PersistentVolume only when the target is gone. */
  predicate ReleasedGone(s: Storage, pvs: map<string, PV>, published: map<string, Handle>, kept: set<string>) {
    forall v :: v in published && v !in kept && (v !in pvs || Driver !in pvs[v].finalizers) ==>
      published[v].target !in s.targets
  }

  predicate AttachedAdmitted(s: Storage, vas: map<Key, VA>, vaCache: map<Key, VAVersion>, published: map<string,
          Handle>) {
    forall k :: k in vas && vas[k].attached && k.pv in published ==>
      && k in vaCache && vas[k].born <= vaCache[k].rv
      && (!vas[k].deleting ==> Driver in vas[k].finalizers && Admitted(s, published[k.pv].target, k.node))
  }

  predicate Admitted(s: Storage, target: string, node: string) {
    target in s.targets && node in s.targets[target].initiators
  }

  // ---------- The workers ----------

  predicate NoneAttached(vas: map<Key, VA>, name: string) {
    forall k :: k in vas ==> k.pv != name
  }

  /** How far the storage is while CreateVolume runs. */
  predicate CreationFits(s: Storage, req: Request, found: Found, phase: CreatePhase) {
    && WellNamed(req) && OneHome(s, req.vol, req.path) && !Refused(req, found)
    && TargetChosen(req, found) != "" && TargetOwner(TargetChosen(req, found)) == req.vol
    && (phase.MakeDisk? ==> found.Absent? && req.path !in s.disks)
    && (!phase.MakeDisk? ==> IsRegistered(s, req.path))
    && (AlreadyMapped(found) ==> !phase.MapDisk? && MapsTo(s, TargetChosen(req, found), req.path))
    && (!AlreadyMapped(found) ==> !IsMapped(s, req.path))
    && (phase.NameTarget? || phase.MapDisk? ==> TargetChosen(req, found) in s.targets)
    && (phase.MapDisk? ==> s.targets[TargetChosen(req, found)].iqn != "")
  }

  predicate ProvisionerFits(w: World) {
    match w.prov
    case Resting => true
    case Creating(req, found, policy, phase) =>
      req.vol !in w.published && req.vol !in w.again && CreationFits(w.storage, req, found, phase)
    case Publishing(h, policy) => h.vol !in w.published && h.vol !in w.again && HandleFits(h.vol, h) && Intact(w.storage, h)
    case RollingBack(h, phase) => h.vol !in w.published && h.vol !in w.again && HandleFits(h.vol, h)
    case Deleting(name, pv, phase) =>
      && PVVersion(name, pv.rv, Some(pv)) in w.pvLog && Flagged(pv) && pv.policy.Delete?
      && (OfLatest(w.births, name, pv.rv) ==> NoneAttached(w.vas, name))
      && (!phase.Unmap? ==> name in w.begun)
    case DroppingFinalizer(name, pv) =>
      && PVVersion(name, pv.rv, Some(pv)) in w.pvLog && Flagged(pv)
      && (pv.policy.Delete? ==> pv.handle.target !in w.storage.targets)
    case DeletingPV(name) => true
  }

  predicate HandleKnown(w: World, key: Key, h: Handle) {
    key.pv in w.births && HandleOf(w.published, key.pv, h) && key.pv in w.pvCache
  }

  /** The attacher's copy is one it has seen. */
  predicate CopySeen(w: World, key: Key, va: VA) {
    VAVersion(key, va.rv, Some(va)) in w.vaLog && key in w.vaCache && va.rv <= w.vaCache[key].rv
  }

  predicate IncarnationSeen(w: World, key: Key) {
    key in w.vas && key in w.vaCache && w.vas[key].born <= w.vaCache[key].rv
  }

  predicate NoAccess(w: World, key: Key) {
    key.pv in w.published ==>
      || (key.pv in w.kept && SeenGone(w.pvCache, w.births, key.pv))
      || forall t :: t in w.storage.targets && TargetOwner(t) == key.pv ==> key.node !in w.storage.targets[t].initiators
  }

  predicate AdmittedTo(w: World, key: Key, h: Handle) {
    key.pv in w.published ==> Admitted(w.storage, h.target, key.node)
  }

  predicate AttacherFits(w: World) {
    match w.att
    case Idle => true
    case Looking(key, va) =>
      && CopySeen(w, key, va)
      && (if va.deleting then AttachedOnlyIfDeleting(w.vas, key, w.published)
          else Driver in va.finalizers ==> Marked(w.vas, key) && IncarnationSeen(w, key))
    case Marking(key, va, h) => HandleKnown(w, key, h) && CopySeen(w, key, va) && !va.deleting
    case Refetching(key, h) => HandleKnown(w, key, h) && Marked(w.vas, key) && IncarnationSeen(w, key)
    case Allowing(key, va, h) =>
      && HandleKnown(w, key, h) && Marked(w.vas, key) && IncarnationSeen(w, key)
      && VAVersion(key, va.rv, Some(va)) in w.vaLog
    case Reporting(key, va, h) =>
      && HandleKnown(w, key, h) && Marked(w.vas, key) && IncarnationSeen(w, key)
      && VAVersion(key, va.rv, Some(va)) in w.vaLog && AdmittedTo(w, key, h)
    case Denying(key, va, h) =>
      HandleKnown(w, key, h) && CopySeen(w, key, va) && va.deleting && AttachedOnlyIfDeleting(w.vas, key, w.published)
    case Unmarking(key, va) =>
      CopySeen(w, key, va) && va.deleting && AttachedOnlyIfDeleting(w.vas, key, w.published) && NoAccess(w, key)
  }

  predicate AttachedOnlyIfDeleting(vas: map<Key, VA>, key: Key, published: map<string, Handle>) {
    key in vas && vas[key].attached && key.pv in published ==> vas[key].deleting
  }

  // ---------- All of it ----------

  predicate VolumesFit(w: World) {
    && HandlesFit(w.published) && PastKnown(w.births, w.rev, w.published.Keys + w.strayed + w.kept + w.begun)
    && PVLogSound(w.pvLog, w.rev, w.births, w.published, w.kept)
    && PVPastBinds(w.pvLog, w.pvs, w.births) && RemovalLasts(w.pvLog, w.births)
    && PVsCurrent(w.pvs, w.pvLog, w.rev, w.births, w.published, w.strayed, w.kept)
    && PVVersionsDistinct(w.pvLog)
    && PVCacheSound(w.pvCache, w.pvLog)
  }

  predicate AttachmentsFit(w: World) {
    && VALogSound(w.vaLog, w.rev)
    && VAPastBinds(w.vaLog, w.vas)
    && VAsCurrent(w.vas, w.vaLog, w.rev, w.births, w.published, w.strayed, w.kept)
    && VAVersionsDistinct(w.vaLog)
    && VACacheSound(w.vaCache, w.vaLog)
    && BornBeforeFlags(w.vas, w.pvLog, w.births)
    && MarkedStaysMarked(w.vas, w.vaLog, w.vaCache)
    && MarkedOnlyIfSeen(w.vaLog, w.pvCache)
  }

  predicate HostFits(w: World) {
    && MappingsFit(w.storage) && MappedOnce(w.storage) && OneDiskPerVolume(w.storage)
    && AccessJustified(w.storage, w.vas, w.pvCache, w.births, w.published, w.strayed, w.kept)
    && IntactUntilBegun(w.storage, w.published, w.begun)
    && AgainIntact(w.storage, w.pvs, w.strayed, w.again)
    && BegunAreDead(w.pvs, w.vas, w.published, w.begun)
    && ReleasedGone(w.storage, w.pvs, w.published, w.kept)
    && AttachedAdmitted(w.storage, w.vas, w.vaCache, w.published)
  }

  predicate Inv(w: World) {
    VolumesFit(w) && AttachmentsFit(w) && HostFits(w) && ProvisionerFits(w) && AttacherFits(w)
  }

  lemma InitFits(w: World)
    requires Init(w)
    ensures Inv(w)
  {
  }
}
