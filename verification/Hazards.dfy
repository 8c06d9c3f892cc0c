/**
 * Runs in which a worker goes wrong because it works from a copy of a PersistentVolume that is no
 * longer true: storage that somebody counts on is deleted, or access outlives the attachment. The
 * theorems of `LifecycleSafety` hold where no worker has strayed, and `StraysExactly` says when one has.
 */
module Hazards {
  import opened Results
  import opened Naming
  import opened WindowsStorage
  import opened ControllerServer
  import opened Lifecycle
  import opened LifecycleInvariants
  import opened Reconcilers
  import opened LifecycleCalls
  import opened LifecycleProgress
  import LifecycleSafety

  /** A volume is provisioned and released, and the informer shows it so. */
  method Release(start: World, req: Request) returns (c: Cluster)
    requires Init(start) && WellNamed(req) && req.iqn != ""
    ensures fresh(c) && c.Valid() && c.w.prov.Resting? && c.w.att.Idle? && req.vol in c.w.pvs && req.vol in c.w.published
    ensures c.w.vas == map[] && c.w.vaCache == map[] && c.w.kept == {} && c.w.strayed == {}
    ensures CachedPV(c.w, req.vol) == Some(c.w.pvs[req.vol])
    ensures var pv := c.w.pvs[req.vol];
            && pv.released && !pv.deleting && pv.policy.Delete? && pv.finalizers == {Driver}
            && pv.handle.path == req.path && pv.handle.target == req.target && Intact(c.w.storage, pv.handle)
  {
    c := new Cluster(start);
    var ok := c.ReconcilePersistentVolumeClaim(req, Policy.Delete, false);
    var pv := c.w.pvs[req.vol];
    c.Take(EditPV(req.vol, pv.(released := true)), PutPV(c.w, req.vol, pv.(released := true)));
    c.ShowPV(req.vol);
  }

  lemma UnmapReaches(w: World, h: Handle)
    requires w.prov.Deleting? && w.prov.phase.Unmap? && w.prov.pv.handle.target == h.target != "" && w.prov.pv.handle.path == h.path
    ensures ProvisionerCall(w).Some?
    ensures var w' := ProvisionerCall(w).value;
            && !Intact(w'.storage, h) && w'.pvs == w.pvs && w'.vas == w.vas
            && w'.prov == Deleting(w.prov.name, w.prov.pv, Unregister)
            && w'.strayed == ActedOn(w, w.prov.name, w.prov.pv.rv).strayed
  {
  }

  /** The provisioner, started on a copy of the volume, takes its mapping away. */
  method UnmapByCopy(c: Cluster, name: string, copy: PV, h: Handle)
    requires c.Valid() && c.w.prov == Deleting(name, copy, Unmap)
    requires copy.handle.target == h.target != "" && copy.handle.path == h.path
    modifies c
    ensures c.Valid() && !Intact(c.w.storage, h) && c.w.pvs == old(c.w).pvs && c.w.vas == old(c.w).vas
    ensures c.w.prov == Deleting(name, copy, Unregister)
    ensures c.w.strayed == ActedOn(old(c.w), name, copy.rv).strayed
  {
    UnmapReaches(c.w, h);
    var ok := c.CallProvisioner();
  }

  /**
   * An administrator sets Retain on a Released volume; the provisioner, whose cache still shows
   * Delete, takes the volume apart.
   */
  method RetainedVolumeIsLost(start: World, req: Request) returns (c: Cluster)
    requires Init(start) && WellNamed(req) && req.iqn != ""
    ensures fresh(c) && c.Valid() && req.vol in c.w.pvs && req.vol !in c.w.strayed
    ensures c.w.pvs[req.vol].policy.Keep? && !Intact(c.w.storage, c.w.pvs[req.vol].handle)
  {
    c := Release(start, req);
    var copy := c.w.pvs[req.vol];
    CurrentIsLatest(c.run, req.vol);
    c.Take(EditPV(req.vol, copy.(policy := Keep)), PutPV(c.w, req.vol, copy.(policy := Keep)));
    CachedIsSeen(c.run, req.vol);
    c.Take(StartDelete(req.vol, copy), c.w.(prov := Deleting(req.vol, copy, Unmap)));
    UnmapByCopy(c, req.vol, copy, copy.handle);
  }

  /** The volume's only disk is its own, and so it stays while disks only go. */
  lemma OnlyHome(run: seq<World>, vol: string, path: string, later: Storage)
    requires Run(run) && path in run[|run| - 1].storage.disks && PathOwner(path) == vol
    requires later.disks.Keys <= run[|run| - 1].storage.disks.Keys
    ensures OneHome(later, vol, path)
  {
    LifecycleSafety.RunKeeps(run, |run| - 1);
  }

  lemma CopyIsOld(run: seq<World>, name: string)
    requires Run(run) && name in run[|run| - 1].pvCache
    ensures run[|run| - 1].pvCache[name].rv <= run[|run| - 1].rev
  {
    var w := run[|run| - 1];
    LifecycleSafety.RunKeeps(run, |run| - 1);
    assert PVVersionSound(w.pvCache[name], w.rev, w.births, w.published, w.kept);
  }

  /** The volume is deleted, and the informer has not shown it yet. */
  method ReleaseAndDelete(start: World, req: Request) returns (c: Cluster, copy: PV)
    requires Init(start) && WellNamed(req) && req.iqn != ""
    ensures fresh(c) && c.Valid() && c.w.prov.Resting? && c.w.att.Idle? && req.vol !in c.w.pvs
    ensures c.w.vas == map[] && c.w.vaCache == map[] && c.w.kept == {} && CachedPV(c.w, req.vol) == Some(copy)
    ensures Flagged(copy) && copy.policy.Delete? && copy.handle.target == req.target && copy.handle.path == req.path
    ensures copy.rv <= c.w.rev && PVVersion(req.vol, c.w.rev, None) in c.w.pvLog && c.w.pvCache[req.vol].rv <= c.w.rev
    ensures req.path !in c.w.storage.disks && OneHome(c.w.storage, req.vol, req.path)
  {
    c := Release(start, req);
    copy := c.w.pvs[req.vol];
    ghost var before := c.run;
    var ok := c.ReconcilePersistentVolumeDeletion(req.vol);
    OnlyHome(before, req.vol, req.path, c.w.storage);
    CopyIsOld(c.run, req.vol);
    LifecycleSafety.RunKeeps(before, |before| - 1);
    assert copy.rv <= before[|before| - 1].rev;
  }

  /** A claim that still looks unbound is provisioned again after its volume was deleted. */
  method Recreate(start: World, req: Request) returns (c: Cluster, copy: PV)
    requires Init(start) && WellNamed(req) && req.iqn != ""
    ensures fresh(c) && c.Valid() && c.w.prov.Resting? && c.w.att.Idle? && req.vol in c.w.pvs
    ensures c.w.vas == map[] && c.w.vaCache == map[] && c.w.kept == {} && CachedPV(c.w, req.vol) == Some(copy)
    ensures Flagged(copy) && copy.policy.Delete? && copy.handle.target == req.target && copy.handle.path == req.path
    ensures exists x :: x in c.w.pvLog && x.name == req.vol && x.pv.None? && c.w.pvCache[req.vol].rv <= x.rv
    ensures SeenPV(c.w, req.vol, copy)
    ensures var pv := c.w.pvs[req.vol];
            && !Flagged(pv) && pv.policy.Delete? && pv.handle.target == req.target && pv.handle.path == req.path
            && Intact(c.w.storage, pv.handle)
  {
    c, copy := ReleaseAndDelete(start, req);
    ghost var removal := PVVersion(req.vol, c.w.rev, None);
    var ok := c.ReconcilePersistentVolumeClaim(req, Policy.Delete, false);
    assert removal in c.w.pvLog;
    CachedIsSeen(c.run, req.vol);
  }

  /**
   * The provisioner, whose cache still shows the first PersistentVolume of a volume provisioned again,
   * takes the second apart, which is neither Released nor deleting.
   */
  method RecreatedVolumeIsLost(start: World, req: Request) returns (c: Cluster)
    requires Init(start) && WellNamed(req) && req.iqn != ""
    ensures fresh(c) && c.Valid() && req.vol in c.w.pvs
    ensures !Flagged(c.w.pvs[req.vol]) && !Intact(c.w.storage, c.w.pvs[req.vol].handle)
  {
    var copy;
    c, copy := Recreate(start, req);
    c.Take(StartDelete(req.vol, copy), c.w.(prov := Deleting(req.vol, copy, Unmap)));
    UnmapByCopy(c, req.vol, copy, c.w.pvs[req.vol].handle);
  }

  /** No other attachment has a new version. */
  predicate NewsOnlyOf(w: World, w': World, key: Key) {
    forall y :: y in w'.vaLog ==> y in w.vaLog || y.key == key
  }

  /** The driver's finalizer goes on, and the attacher is about to admit the node. */
  method MarkFresh(c: Cluster, key: Key, va: VA, h: Handle)
    requires c.Valid() && c.w.att == Marking(key, va, h) && key in c.w.vas && c.w.vas[key] == va
    requires va.finalizers == {} && !va.deleting
    modifies c
    ensures c.Valid() && key in c.w.vas && c.w.att == Allowing(key, c.w.vas[key], h)
    ensures !c.w.vas[key].deleting && c.w.vas[key].finalizers == {Driver}
    ensures SameVolumes(old(c.w), c.w) && SameHandles(old(c.w), c.w) && c.w.storage == old(c.w).storage
    ensures NewsOnlyOf(old(c.w), c.w, key)
  {
    ghost var before := c.w;
    var ok := c.CallAttacher();
    MarkIs(before, c.w);
    AttachmentUpdateIs(before, c.w);
    ghost var marked := c.w;
    ok := c.CallAttacher();
    RefetchIs(marked, c.w);
  }

  /** The node is admitted, and the attachment reported. */
  method AdmitMarked(c: Cluster, key: Key, h: Handle)
    requires c.Valid() && key in c.w.vas && c.w.att == Allowing(key, c.w.vas[key], h)
    requires !c.w.vas[key].deleting && c.w.vas[key].finalizers == {Driver}
    requires h.target != "" && h.target in c.w.storage.targets
    modifies c
    ensures c.Valid() && c.w.att.Idle? && key in c.w.vas && c.w.vas[key].attached && !c.w.vas[key].deleting
    ensures c.w.vas[key].finalizers == {Driver} && Admitted(c.w.storage, h.target, key.node)
    ensures SameVolumes(old(c.w), c.w) && SameHandles(old(c.w), c.w) && SameDisks(old(c.w).storage, c.w.storage)
    ensures NewsOnlyOf(old(c.w), c.w, key)
  {
    AllowReaches(c.w);
    var ok := c.CallAttacher();
    ghost var allowed := c.w;
    ok := c.CallAttacher();
    ReportIs(allowed, c.w);
    AttachmentUpdateIs(allowed, c.w);
  }

  /** The same disks, mapped to the same targets. */
  predicate SameDisks(s: Storage, s': Storage) {
    s'.disks == s.disks && forall t :: t in s.targets ==> t in s'.targets && s'.targets[t].luns == s.targets[t].luns
  }

  /** A pod comes, and the attacher, whose cache shows some copy of the volume, attaches it. */
  method AttachByCopy(c: Cluster, key: Key, copy: PV)
    requires c.Valid() && c.w.att.Idle? && MayAttach(c.w, key) && key !in c.w.vaCache
    requires CachedPV(c.w, key.pv) == Some(copy) && copy.handle.target != "" && copy.handle.target in c.w.storage.targets
    modifies c
    ensures c.Valid() && c.w.att.Idle? && key in c.w.vas && c.w.vas[key].attached && !c.w.vas[key].deleting
    ensures c.w.vas[key].finalizers == {Driver} && Admitted(c.w.storage, copy.handle.target, key.node)
    ensures SameVolumes(old(c.w), c.w) && SameDisks(old(c.w).storage, c.w.storage)
    ensures !Outdated(old(c.w), key.pv) ==> SameHandles(old(c.w), c.w)
    ensures NewsOnlyOf(old(c.w), c.w, key)
  {
    c.Take(Attach(key), PutVA(c.w, key, NewVA(c.w)));
    c.ShowVA(key);
    var va := c.w.vas[key];
    c.Look(key, va);
    MarkFresh(c, key, va, copy.handle);
    AdmitMarked(c, key, copy.handle);
  }

  lemma AllowReaches(w: World)
    requires w.att.Allowing? && w.att.handle.target != "" && w.att.handle.target in w.storage.targets
    ensures AttacherCall(w).Some?
    ensures var Allowing(key, va, h) := w.att;
            var w' := AttacherCall(w).value;
            && w' == w.(storage := w'.storage, att := Reporting(key, va, h))
            && Admitted(w'.storage, h.target, key.node) && SameDisks(w.storage, w'.storage)
  {
  }

  /**
   * The deletion of the first PersistentVolume of a volume provisioned again proceeds while the
   * second is attached: it lists no attachment before there is one, and takes the attached volume apart.
   */
  method AttachedVolumeIsLost(start: World, req: Request, node: string) returns (c: Cluster)
    requires Init(start) && WellNamed(req) && req.iqn != ""
    ensures fresh(c) && c.Valid() && req.vol in c.w.pvs && c.w.prov.Deleting? && c.w.prov.name == req.vol
    ensures var key := Key(req.vol, node); key in c.w.vas && c.w.vas[key].attached && !c.w.vas[key].deleting
    ensures !Flagged(c.w.pvs[req.vol]) && !Intact(c.w.storage, c.w.pvs[req.vol].handle)
  {
    var copy;
    c, copy := Recreate(start, req);
    c.Take(StartDelete(req.vol, copy), c.w.(prov := Deleting(req.vol, copy, Unmap)));
    AttachByCopy(c, Key(req.vol, node), copy);
    UnmapByCopy(c, req.vol, copy, c.w.pvs[req.vol].handle);
  }

  lemma UnmarkRemoves(w: World)
    requires w.att.Unmarking? && w.att.key in w.vas && w.vas[w.att.key] == w.att.va
    requires w.att.va.deleting && w.att.va.finalizers == {Driver}
    ensures AttacherCall(w).Some?
    ensures var w' := AttacherCall(w).value;
            w'.att.Idle? && w'.vas == w.vas - {w.att.key} && w'.storage == w.storage && w'.pvs == w.pvs && w'.kept == w.kept
  {
    assert w.att.va.finalizers - {Driver} == {};
  }

  /** The pod goes, and the attacher, whose cache shows the volume as gone, leaves the host as it is. */
  method DetachUnseen(c: Cluster, key: Key)
    requires c.Valid() && c.w.att.Idle? && CachedPV(c.w, key.pv).None?
    requires key in c.w.vas && c.w.vas[key].finalizers == {Driver}
    modifies c
    ensures c.Valid() && key !in c.w.vas && c.w.storage == old(c.w).storage
    ensures c.w.pvs == old(c.w).pvs && c.w.kept == old(c.w).kept
    ensures !Outdated(old(c.w), key.pv) ==> c.w.strayed == old(c.w).strayed
  {
    var gone := c.w.vas[key].(deleting := true);
    c.Take(EditVA(key, gone), PutVA(c.w, key, gone));
    c.ShowVA(key);
    c.Look(key, c.w.vas[key]);
    assert c.w.att == Unmarking(key, c.w.vas[key]);
    UnmarkRemoves(c.w);
    var ok := c.CallAttacher();
  }

  /**
   * The node of an attachment that is gone may still connect to a live volume of policy Delete: the
   * attacher's cache shows the removal of the first PersistentVolume, so it takes the finalizer off
   * without shutting the node out of the second.
   */
  method AccessOutlivesAttachment(start: World, req: Request, node: string) returns (c: Cluster)
    requires Init(start) && WellNamed(req) && req.iqn != ""
    ensures fresh(c) && c.Valid() && req.vol in c.w.pvs && !Flagged(c.w.pvs[req.vol]) && req.vol !in c.w.kept
    ensures Key(req.vol, node) !in c.w.vas && Admitted(c.w.storage, c.w.pvs[req.vol].handle.target, node)
  {
    var copy;
    c, copy := Recreate(start, req);
    AttachByCopy(c, Key(req.vol, node), copy);
    var x :| x in c.w.pvLog && x.name == req.vol && x.pv.None? && c.w.pvCache[req.vol].rv <= x.rv;
    c.Take(SeePV(x), c.w.(pvCache := c.w.pvCache[x.name := x]));
    DetachUnseen(c, Key(req.vol, node));
  }

  lemma KeptIsOwn(run: seq<World>, name: string)
    requires Run(run) && name in run[|run| - 1].pvs && name in run[|run| - 1].pvCache
    ensures var w := run[|run| - 1];
            && w.pvCache[name].rv <= w.rev && OfLatest(w.births, name, w.rev) && TargetOwner(w.pvs[name].handle.target) == name
  {
    var w := run[|run| - 1];
    LifecycleSafety.RunKeeps(run, |run| - 1);
    CopyIsOld(run, name);
    assert PVVersionSound(PVVersion(name, w.pvs[name].rv, Some(w.pvs[name])), w.rev, w.births, w.published, w.kept);
  }

  /** A volume that is to be kept is provisioned and attached. */
  method AttachKept(start: World, req: Request, node: string) returns (c: Cluster)
    requires Init(start) && WellNamed(req) && req.iqn != ""
    ensures fresh(c) && c.Valid() && c.w.att.Idle? && c.w.strayed == {}
    ensures req.vol in c.w.pvs && c.w.pvs[req.vol].policy.Keep? && c.w.pvs[req.vol].finalizers == {}
    ensures req.vol in c.w.pvCache && c.w.pvCache[req.vol].rv <= c.w.rev && OfLatest(c.w.births, req.vol, c.w.rev)
    ensures TargetOwner(c.w.pvs[req.vol].handle.target) == req.vol
    ensures var key := Key(req.vol, node);
            && key in c.w.vas && c.w.vas[key].attached && c.w.vas[key].finalizers == {Driver}
            && Admitted(c.w.storage, c.w.pvs[req.vol].handle.target, node)
  {
    c := new Cluster(start);
    var ok := c.ReconcilePersistentVolumeClaim(req, Keep, false);
    c.ShowPV(req.vol);
    ShownIsNotOutdated(c.run, req.vol);
    AttachByCopy(c, Key(req.vol, node), c.w.pvs[req.vol]);
    KeptIsOwn(c.run, req.vol);
  }

  /**
   * Of a volume that is to be kept the same is true without anybody straying: when its PersistentVolume
   * goes first, the node stays admitted to the target that is left.
   */
  method KeptVolumeKeepsAccess(start: World, req: Request, node: string) returns (c: Cluster, target: string)
    requires Init(start) && WellNamed(req) && req.iqn != ""
    ensures fresh(c) && c.Valid() && c.w.strayed == {} && req.vol !in c.w.pvs
    ensures TargetOwner(target) == req.vol && Key(req.vol, node) !in c.w.vas && Admitted(c.w.storage, target, node)
  {
    c := AttachKept(start, req, node);
    var pv := c.w.pvs[req.vol];
    target := pv.handle.target;
    c.Take(EditPV(req.vol, pv.(deleting := true)), RemovePV(c.w, req.vol));
    var x := PVVersion(req.vol, c.w.rev, None);
    c.Take(SeePV(x), c.w.(pvCache := c.w.pvCache[req.vol := x]));
    DetachUnseen(c, Key(req.vol, node));
  }
}
