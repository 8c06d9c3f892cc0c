/** Every step of the protocol keeps the invariants. */
module LifecycleSteps {
  import opened Results
  import opened Naming
  import opened WindowsStorage
  import opened ControllerServer
  import opened Lifecycle
  import opened LifecycleInvariants

  // ---------- Writes of PersistentVolumes ----------

  /** The driver no longer answers for the volume: its target is gone, or it is to be kept. */
  predicate LetGo(w: World, name: string) {
    name in w.published ==> name in w.kept || w.published[name].target !in w.storage.targets
  }

  predicate Succeeds(w: World, name: string, pv: PV) {
    && name in w.pvs
    && PVMayBecome(w.pvs[name], pv.(finalizers := w.pvs[name].finalizers))
    && (Driver in w.pvs[name].finalizers && Driver !in pv.finalizers ==> LetGo(w, name))
  }

  lemma PutPVKeepsLog(w: World, name: string, pv: PV)
    requires VolumesFit(w) && Succeeds(w, name, pv)
    ensures var w' := PutPV(w, name, pv); PVLogSound(w'.pvLog, w'.rev, w'.births, w'.published, w'.kept)
  {
    var w' := PutPV(w, name, pv);
    forall x | x in w'.pvLog ensures PVVersionSound(x, w'.rev, w'.births, w'.published, w'.kept) {
      if x in w.pvLog { assert PVVersionSound(x, w.rev, w.births, w.published, w.kept); }
    }
  }

  lemma PutPVKeepsPast(w: World, name: string, pv: PV)
    requires VolumesFit(w) && Succeeds(w, name, pv)
    ensures var w' := PutPV(w, name, pv);
            PVPastBinds(w'.pvLog, w'.pvs, w'.births) && RemovalLasts(w'.pvLog, w'.births)
  {
    var w' := PutPV(w, name, pv);
    forall x | x in w'.pvLog && OfLatest(w'.births, x.name, x.rv) ensures PVVersionBinds(x, w'.pvs) {
      if x in w.pvLog { assert PVVersionBinds(x, w.pvs); }
    }
  }

  lemma PutPVKeepsCurrent(w: World, name: string, pv: PV)
    requires VolumesFit(w) && Succeeds(w, name, pv)
    ensures var w' := PutPV(w, name, pv);
            PVsCurrent(w'.pvs, w'.pvLog, w'.rev, w'.births, w'.published, w'.strayed, w'.kept) && PVCacheSound(w'.pvCache, w'.pvLog)
  {
  }

  lemma PutPVKeepsDistinct(w: World, name: string, pv: PV)
    requires VolumesFit(w) && Succeeds(w, name, pv)
    ensures PVVersionsDistinct(PutPV(w, name, pv).pvLog)
  {
    forall x | x in w.pvLog ensures x.rv <= w.rev { assert PVVersionSound(x, w.rev, w.births, w.published, w.kept); }
  }

  lemma PutPVKeepsVolumes(w: World, name: string, pv: PV)
    requires VolumesFit(w) && Succeeds(w, name, pv)
    ensures VolumesFit(PutPV(w, name, pv))
  {
    PutPVKeepsLog(w, name, pv);
    PutPVKeepsPast(w, name, pv);
    PutPVKeepsCurrent(w, name, pv);
    PutPVKeepsDistinct(w, name, pv);
  }

  lemma PutPVKeepsAttachments(w: World, name: string, pv: PV)
    requires VolumesFit(w) && AttachmentsFit(w) && Succeeds(w, name, pv)
    ensures AttachmentsFit(PutPV(w, name, pv))
  {
  }

  lemma PutPVKeepsHost(w: World, name: string, pv: PV)
    requires VolumesFit(w) && HostFits(w) && Succeeds(w, name, pv)
    ensures HostFits(PutPV(w, name, pv))
  {
    PutPVKeepsAccess(w, name, pv);
    PutPVKeepsGuarantees(w, name, pv);
  }

  lemma PutPVKeepsAccess(w: World, name: string, pv: PV)
    requires AccessJustified(w.storage, w.vas, w.pvCache, w.births, w.published, w.strayed, w.kept)
    ensures var w' := PutPV(w, name, pv);
            AccessJustified(w'.storage, w'.vas, w'.pvCache, w'.births, w'.published, w'.strayed, w'.kept)
  {
    var w' := PutPV(w, name, pv);
    forall t, n | t in w.storage.targets && n in w.storage.targets[t].initiators
      ensures AdmissionJustified(t, n, w.vas, w.pvCache, w.births, w.published, w.strayed, w'.kept)
    {
      assert AdmissionJustified(t, n, w.vas, w.pvCache, w.births, w.published, w.strayed, w.kept);
    }
  }

  lemma PutPVKeepsGuarantees(w: World, name: string, pv: PV)
    requires VolumesFit(w) && HostFits(w) && Succeeds(w, name, pv)
    ensures var w' := PutPV(w, name, pv);
            && AgainIntact(w'.storage, w'.pvs, w'.strayed, w'.again) && BegunAreDead(w'.pvs, w'.vas, w'.published, w'.begun)
            && ReleasedGone(w'.storage, w'.pvs, w'.published, w'.kept)
  {
  }

  lemma RemovePVKeepsPast(w: World, name: string)
    requires PVPastBinds(w.pvLog, w.pvs, w.births)
    ensures PVPastBinds(RemovePV(w, name).pvLog, RemovePV(w, name).pvs, w.births)
  {
    var w' := RemovePV(w, name);
    forall x | x in w'.pvLog && OfLatest(w'.births, x.name, x.rv) ensures PVVersionBinds(x, w'.pvs) {
      if x in w.pvLog { assert PVVersionBinds(x, w.pvs); }
    }
  }

  lemma RemovePVKeepsVolumes(w: World, name: string)
    requires VolumesFit(w) && name in w.pvs
    ensures VolumesFit(RemovePV(w, name))
  {
    var w' := RemovePV(w, name);
    forall x | x in w.pvLog ensures PVVersionSound(x, w'.rev, w'.births, w'.published, w'.kept) && x.rv <= w.rev {
      assert PVVersionSound(x, w.rev, w.births, w.published, w.kept);
    }
    RemovePVKeepsPast(w, name);
  }

  lemma RemovePVKeepsAttachments(w: World, name: string)
    requires VolumesFit(w) && AttachmentsFit(w) && name in w.pvs
    ensures AttachmentsFit(RemovePV(w, name))
  {
  }

  lemma RemovePVKeepsHost(w: World, name: string)
    requires VolumesFit(w) && HostFits(w) && name in w.pvs && LetGo(w, name)
    ensures HostFits(RemovePV(w, name))
  {
  }

  lemma PutPVKeepsWorkers(w: World, name: string, pv: PV)
    requires ProvisionerFits(w) && AttacherFits(w) && name in w.pvs
    ensures ProvisionerFits(PutPV(w, name, pv)) && AttacherFits(PutPV(w, name, pv))
  {
  }

  lemma RemovePVKeepsWorkers(w: World, name: string)
    requires ProvisionerFits(w) && AttacherFits(w) && name in w.pvs
    ensures ProvisionerFits(RemovePV(w, name)) && AttacherFits(RemovePV(w, name))
  {
  }

  /** Every write to an existing PersistentVolume, with the removal it may bring. */
  lemma StorePVKeeps(w: World, name: string, pv: PV)
    requires Inv(w) && Succeeds(w, name, pv)
    ensures Inv(StorePV(w, name, pv))
  {
    if pv.deleting && pv.finalizers == {} {
      RemovePVKeepsVolumes(w, name);
      RemovePVKeepsAttachments(w, name);
      RemovePVKeepsHost(w, name);
      RemovePVKeepsWorkers(w, name);
    } else {
      PutPVKeepsVolumes(w, name, pv);
      PutPVKeepsAttachments(w, name, pv);
      PutPVKeepsHost(w, name, pv);
      PutPVKeepsWorkers(w, name, pv);
    }
  }

  lemma PurgePVKeeps(w: World, name: string)
    requires Inv(w) && name in w.pvs && w.pvs[name].finalizers == {}
    ensures Inv(RemovePV(w, name))
  {
    RemovePVKeepsVolumes(w, name);
    RemovePVKeepsAttachments(w, name);
    RemovePVKeepsHost(w, name);
    RemovePVKeepsWorkers(w, name);
  }

  // ---------- Writes of VolumeAttachments ----------

  predicate MayUnmark(w: World, key: Key) {
    && key in w.vas && w.vas[key].deleting
    && key in w.vaCache && w.vas[key].rv <= w.vaCache[key].rv
    && NoAccess(w, key)
  }

  predicate VASucceeds(w: World, key: Key, va: VA) {
    && key in w.vas && va.born == w.vas[key].born
    && (w.vas[key].deleting ==> va.deleting)
    && (Driver in va.finalizers && Driver !in w.vas[key].finalizers ==> key.pv in w.pvCache)
    && (Driver in w.vas[key].finalizers && Driver !in va.finalizers ==> MayUnmark(w, key))
    && (va.attached && !w.vas[key].attached ==>
          IncarnationSeen(w, key) && (key.pv in w.published ==> Admitted(w.storage, w.published[key.pv].target, key.node)))
    && (va.attached && !va.deleting && key.pv in w.published ==> Driver in va.finalizers)
  }

  lemma PutVAKeepsLog(w: World, key: Key, va: VA)
    requires AttachmentsFit(w) && VASucceeds(w, key, va)
    ensures var w' := PutVA(w, key, va);
            && VALogSound(w'.vaLog, w'.rev) && VAPastBinds(w'.vaLog, w'.vas)
            && VAsCurrent(w'.vas, w'.vaLog, w'.rev, w'.births, w'.published, w'.strayed, w'.kept)
  {
    var w' := PutVA(w, key, va);
    assert key.pv in w.births && w.vas[key].born <= w.vas[key].rv <= w.rev;
    forall y | y in w'.vaLog && y.key in w'.vas ensures VAVersionBinds(y, w'.vas[y.key]) {
      if y in w.vaLog { assert VAVersionBinds(y, w.vas[y.key]); }
    }
  }

  lemma PutVAKeepsRest(w: World, key: Key, va: VA)
    requires AttachmentsFit(w) && VASucceeds(w, key, va)
    ensures var w' := PutVA(w, key, va);
            && VAVersionsDistinct(w'.vaLog) && VACacheSound(w'.vaCache, w'.vaLog)
            && BornBeforeFlags(w'.vas, w'.pvLog, w'.births) && MarkedOnlyIfSeen(w'.vaLog, w'.pvCache)
  {
    assert VAVersion(key, w.vas[key].rv, Some(w.vas[key])) in w.vaLog;
  }

  lemma PutVAKeepsMarked(w: World, key: Key, va: VA)
    requires AttachmentsFit(w) && VASucceeds(w, key, va)
    ensures var w' := PutVA(w, key, va); MarkedStaysMarked(w'.vas, w'.vaLog, w'.vaCache)
  {
    var w' := PutVA(w, key, va);
    var current := VAVersion(key, w.vas[key].rv, Some(w.vas[key]));
    assert current in w.vaLog;
    forall y | y in w.vaLog && y.key == key && MarkedLive(y)
      ensures Driver in va.finalizers || !CacheNotPast(w.vaCache, key, y.rv)
    {
      assert VAVersionBinds(y, w.vas[key]);
      assert y.rv == current.rv ==> y == current;
    }
    forall y | y in w'.vaLog && MarkedLive(y) && CacheNotPast(w'.vaCache, y.key, y.rv)
      ensures y.key in w'.vas && w'.vas[y.key].born == y.va.value.born && Driver in w'.vas[y.key].finalizers
    {
    }
  }

  lemma PutVAKeepsAttachments(w: World, key: Key, va: VA)
    requires AttachmentsFit(w) && VASucceeds(w, key, va)
    ensures AttachmentsFit(PutVA(w, key, va))
  {
    PutVAKeepsLog(w, key, va);
    PutVAKeepsRest(w, key, va);
    PutVAKeepsMarked(w, key, va);
  }

  lemma PutVAKeepsAccess(w: World, key: Key, va: VA)
    requires HostFits(w) && VASucceeds(w, key, va)
    ensures AccessJustified(w.storage, PutVA(w, key, va).vas, w.pvCache, w.births, w.published, w.strayed, w.kept)
  {
    var w' := PutVA(w, key, va);
    forall t, n | t in w.storage.targets && n in w.storage.targets[t].initiators
      ensures AdmissionJustified(t, n, w'.vas, w.pvCache, w.births, w.published, w.strayed, w.kept)
    {
      assert AdmissionJustified(t, n, w.vas, w.pvCache, w.births, w.published, w.strayed, w.kept);
    }
  }

  lemma PutVAKeepsHost(w: World, key: Key, va: VA)
    requires HostFits(w) && AttachmentsFit(w) && VASucceeds(w, key, va)
    ensures HostFits(PutVA(w, key, va))
  {
    PutVAKeepsAccess(w, key, va);
    PutVAKeepsAttached(w, key, va);
  }

  lemma PutVAKeepsAttached(w: World, key: Key, va: VA)
    requires HostFits(w) && AttachmentsFit(w) && VASucceeds(w, key, va)
    ensures var w' := PutVA(w, key, va);
            && BegunAreDead(w'.pvs, w'.vas, w'.published, w'.begun)
            && AttachedAdmitted(w'.storage, w'.vas, w'.vaCache, w'.published)
  {
  }

  lemma RemoveVAKeepsAttachments(w: World, key: Key)
    requires AttachmentsFit(w) && key in w.vas && (Driver in w.vas[key].finalizers ==> MayUnmark(w, key))
    ensures AttachmentsFit(RemoveVA(w, key))
  {
  }

  lemma RemoveVAKeepsHost(w: World, key: Key)
    requires HostFits(w) && key in w.vas && (Driver in w.vas[key].finalizers ==> MayUnmark(w, key))
    ensures HostFits(RemoveVA(w, key))
  {
  }

  lemma PutVAKeepsWorkers(w: World, key: Key, va: VA)
    requires ProvisionerFits(w) && AttacherFits(w) && key in w.vas && VAMayBecome(w.vas[key], va)
    ensures ProvisionerFits(PutVA(w, key, va)) && AttacherFits(PutVA(w, key, va))
  {
  }

  lemma RemoveVAKeepsWorkers(w: World, key: Key)
    requires ProvisionerFits(w) && AttacherFits(w) && key in w.vas && Driver !in w.vas[key].finalizers
    ensures ProvisionerFits(RemoveVA(w, key)) && AttacherFits(RemoveVA(w, key))
  {
  }

  lemma EditSucceeds(w: World, key: Key, va: VA)
    requires AttachmentsFit(w) && HostFits(w) && key in w.vas && VAMayBecome(w.vas[key], va)
    ensures VASucceeds(w, key, va)
  {
    assert va.attached && !va.deleting && key.pv in w.published ==> Driver in w.vas[key].finalizers;
  }

  lemma EditVAKeeps(w: World, key: Key, va: VA)
    requires Inv(w) && key in w.vas && VAMayBecome(w.vas[key], va)
    ensures Inv(StoreVA(w, key, va))
  {
    if va.deleting && va.finalizers == {} {
      RemoveVAKeepsAttachments(w, key);
      RemoveVAKeepsHost(w, key);
      RemoveVAKeepsWorkers(w, key);
    } else {
      EditSucceeds(w, key, va);
      PutVAKeepsAttachments(w, key, va);
      PutVAKeepsHost(w, key, va);
      PutVAKeepsWorkers(w, key, va);
    }
  }

  lemma PurgeVAKeeps(w: World, key: Key)
    requires Inv(w) && key in w.vas && w.vas[key].finalizers == {}
    ensures Inv(RemoveVA(w, key))
  {
    RemoveVAKeepsAttachments(w, key);
    RemoveVAKeepsHost(w, key);
    RemoveVAKeepsWorkers(w, key);
  }

  lemma AttachKeepsPast(w: World, key: Key)
    requires AttachmentsFit(w) && MayAttach(w, key)
    ensures var w' := PutVA(w, key, NewVA(w)); VAPastBinds(w'.vaLog, w'.vas)
  {
    var w' := PutVA(w, key, NewVA(w));
    forall y | y in w'.vaLog && y.key in w'.vas ensures VAVersionBinds(y, w'.vas[y.key]) {
      if y in w.vaLog && y.key in w.vas { assert VAVersionBinds(y, w.vas[y.key]); }
    }
  }

  lemma AttachKeepsLog(w: World, key: Key)
    requires VolumesFit(w) && AttachmentsFit(w) && MayAttach(w, key)
    ensures var w' := PutVA(w, key, NewVA(w));
            && VALogSound(w'.vaLog, w'.rev) && VAPastBinds(w'.vaLog, w'.vas)
            && VAsCurrent(w'.vas, w'.vaLog, w'.rev, w'.births, w'.published, w'.strayed, w'.kept)
            && VAVersionsDistinct(w'.vaLog) && VACacheSound(w'.vaCache, w'.vaLog)
  {
    AttachKeepsPast(w, key);
  }

  lemma AttachKeepsBirths(w: World, key: Key)
    requires VolumesFit(w) && AttachmentsFit(w) && MayAttach(w, key)
    ensures BornBeforeFlags(PutVA(w, key, NewVA(w)).vas, w.pvLog, w.births)
  {
    forall x | x in w.pvLog && x.name == key.pv && OfLatest(w.births, x.name, x.rv) && x.pv.Some? ensures !Flagged(x.pv.value) {
      assert PVVersionBinds(x, w.pvs);
    }
  }

  lemma AttachKeepsMarked(w: World, key: Key)
    requires AttachmentsFit(w) && MayAttach(w, key)
    ensures var w' := PutVA(w, key, NewVA(w));
            MarkedStaysMarked(w'.vas, w'.vaLog, w'.vaCache) && MarkedOnlyIfSeen(w'.vaLog, w'.pvCache)
  {
  }

  lemma AttachKeepsAccess(w: World, key: Key)
    requires HostFits(w) && MayAttach(w, key) && key.pv in w.births
    ensures AccessJustified(w.storage, PutVA(w, key, NewVA(w)).vas, w.pvCache, w.births, w.published, w.strayed, w.kept)
  {
    var vas := PutVA(w, key, NewVA(w)).vas;
    forall t, n | t in w.storage.targets && n in w.storage.targets[t].initiators
      ensures AdmissionJustified(t, n, vas, w.pvCache, w.births, w.published, w.strayed, w.kept)
    {
      assert AdmissionJustified(t, n, w.vas, w.pvCache, w.births, w.published, w.strayed, w.kept);
    }
  }

  lemma AttachKeepsHost(w: World, key: Key)
    requires VolumesFit(w) && HostFits(w) && MayAttach(w, key)
    ensures HostFits(PutVA(w, key, NewVA(w)))
  {
    assert key.pv in w.births;
    AttachKeepsAccess(w, key);
  }

  lemma AttachKeepsWorkers(w: World, key: Key)
    requires VolumesFit(w) && ProvisionerFits(w) && AttacherFits(w) && MayAttach(w, key)
    ensures ProvisionerFits(PutVA(w, key, NewVA(w))) && AttacherFits(PutVA(w, key, NewVA(w)))
  {
    if w.prov.Deleting? && OfLatest(w.births, w.prov.name, w.prov.pv.rv) {
      assert PVVersionBinds(PVVersion(w.prov.name, w.prov.pv.rv, Some(w.prov.pv)), w.pvs);
    }
  }

  lemma AttachKeeps(w: World, key: Key)
    requires Inv(w) && MayAttach(w, key)
    ensures Inv(PutVA(w, key, NewVA(w)))
  {
    AttachKeepsLog(w, key);
    AttachKeepsBirths(w, key);
    AttachKeepsMarked(w, key);
    AttachKeepsHost(w, key);
    AttachKeepsWorkers(w, key);
  }

  // ---------- Informer deliveries ----------

  /** What has been seen gone stays so. */
  lemma GoneStaysSeen(w: World, x: PVVersion, w': World, vol: string)
    requires VolumesFit(w) && SeesPV(w, x, w') && vol in w.published && SeenGone(w.pvCache, w.births, vol)
    ensures SeenGone(w'.pvCache, w.births, vol)
  {
  }

  lemma SeePVKeepsAccess(w: World, x: PVVersion, w': World)
    requires VolumesFit(w) && HostFits(w) && SeesPV(w, x, w')
    ensures AccessJustified(w.storage, w.vas, w'.pvCache, w.births, w.published, w.strayed, w.kept)
  {
    forall t, n | t in w.storage.targets && n in w.storage.targets[t].initiators
      ensures AdmissionJustified(t, n, w.vas, w'.pvCache, w.births, w.published, w.strayed, w.kept)
    {
      assert AdmissionJustified(t, n, w.vas, w.pvCache, w.births, w.published, w.strayed, w.kept);
      var vol := TargetOwner(t);
      if vol in w.published && SeenGone(w.pvCache, w.births, vol) { GoneStaysSeen(w, x, w', vol); }
    }
  }

  lemma SeePVKeepsAttacher(w: World, x: PVVersion, w': World)
    requires VolumesFit(w) && AttacherFits(w) && SeesPV(w, x, w')
    ensures AttacherFits(w')
  {
    if w.att.Unmarking? && w.att.key.pv in w.published && SeenGone(w.pvCache, w.births, w.att.key.pv) {
      GoneStaysSeen(w, x, w', w.att.key.pv);
    }
  }

  lemma SeePVKeeps(w: World, x: PVVersion, w': World)
    requires Inv(w) && SeesPV(w, x, w')
    ensures Inv(w')
  {
    SeePVKeepsAccess(w, x, w');
    SeePVKeepsAttacher(w, x, w');
    assert VolumesFit(w');
    assert AttachmentsFit(w');
    assert ProvisionerFits(w');
  }

  lemma SeeVAKeepsAttachments(w: World, y: VAVersion, w': World)
    requires AttachmentsFit(w) && SeesVA(w, y, w')
    ensures AttachmentsFit(w')
  {
    assert VACacheSound(w'.vaCache, w'.vaLog);
    forall z | z in w'.vaLog && MarkedLive(z) && CacheNotPast(w'.vaCache, z.key, z.rv)
      ensures z.key in w'.vas && w'.vas[z.key].born == z.va.value.born && Driver in w'.vas[z.key].finalizers
    {
      assert CacheNotPast(w.vaCache, z.key, z.rv);
    }
  }

  lemma SeeVAKeepsHost(w: World, y: VAVersion, w': World)
    requires HostFits(w) && SeesVA(w, y, w')
    ensures HostFits(w')
  {
    assert AttachedAdmitted(w'.storage, w'.vas, w'.vaCache, w'.published);
  }

  lemma SeeVAKeepsWorkers(w: World, y: VAVersion, w': World)
    requires ProvisionerFits(w) && AttacherFits(w) && SeesVA(w, y, w')
    ensures ProvisionerFits(w') && AttacherFits(w')
  {
  }

  lemma SeeVAKeeps(w: World, y: VAVersion, w': World)
    requires Inv(w) && SeesVA(w, y, w')
    ensures Inv(w')
  {
    SeeVAKeepsAttachments(w, y, w');
    SeeVAKeepsHost(w, y, w');
    SeeVAKeepsWorkers(w, y, w');
    assert VolumesFit(w');
  }

  // ---------- Provisioning a volume again, and straying ----------

  /** No longer vouched for, whether it is being provisioned again or a worker has strayed. */
  predicate Dropped(w: World, vol: string, w': World) {
    && w' == w.(published := w.published - {vol}, strayed := w'.strayed, again := w'.again)
    && (w'.strayed == w.strayed || w'.strayed == w.strayed + {vol})
    && (vol !in w'.strayed ==> vol !in w.pvs)
    && (vol !in w'.strayed && vol !in w.kept && vol in w.published ==> Vacated(w, vol))
    && (vol in w'.strayed ==> vol in w.births)
  }

  /** Nobody is attached or admitted. */
  predicate Vacated(w: World, vol: string) {
    NoneAttached(w.vas, vol) && forall t :: t in w.storage.targets && TargetOwner(t) == vol ==> w.storage.targets[t].initiators == {}
  }

  lemma DropKeepsVolumes(w: World, vol: string, w': World)
    requires VolumesFit(w) && Dropped(w, vol, w')
    ensures VolumesFit(w')
  {
    forall x | x in w.pvLog ensures PVVersionSound(x, w.rev, w'.births, w'.published, w.kept) {
      assert PVVersionSound(x, w.rev, w.births, w.published, w.kept);
    }
  }

  lemma DropKeepsAttachments(w: World, vol: string, w': World)
    requires AttachmentsFit(w) && Dropped(w, vol, w')
    ensures AttachmentsFit(w')
  {
  }

  lemma DropKeepsHost(w: World, vol: string, w': World)
    requires HostFits(w) && Dropped(w, vol, w') && AgainIntact(w.storage, w.pvs, w'.strayed, w'.again)
    ensures HostFits(w')
  {
    forall t, n | t in w.storage.targets && n in w.storage.targets[t].initiators
      ensures AdmissionJustified(t, n, w.vas, w.pvCache, w'.births, w'.published, w'.strayed, w.kept)
    {
      assert AdmissionJustified(t, n, w.vas, w.pvCache, w.births, w.published, w.strayed, w.kept);
    }
  }

  lemma DropKeepsAttacher(w: World, vol: string, w': World)
    requires AttacherFits(w) && Dropped(w, vol, w')
    ensures AttacherFits(w')
  {
  }

  /** A volume that is gone and whose policy was never other than Delete is vacated. */
  lemma GoneIsVacated(w: World, vol: string)
    requires HostFits(w) && vol in w.published && vol !in w.kept && vol !in w.pvs
    ensures Vacated(w, vol)
  {
    assert w.published[vol].target !in w.storage.targets && !Intact(w.storage, w.published[vol]);
    forall t, n | t in w.storage.targets && TargetOwner(t) == vol ensures n !in w.storage.targets[t].initiators {
      assert n in w.storage.targets[t].initiators ==>
          AdmissionJustified(t, n, w.vas, w.pvCache, w.births, w.published, w.strayed, w.kept);
    }
  }

  lemma ForgetDrops(w: World, vol: string)
    requires Inv(w) && vol !in w.pvs
    ensures Dropped(w, vol, Forgotten(w, vol))
  {
    if vol in w.published && vol !in w.kept { GoneIsVacated(w, vol); }
  }

  lemma StrayDrops(w: World, name: string)
    requires VolumesFit(w) && HostFits(w) && name in w.published
    ensures Dropped(w, name, Strayed(w, name))
    ensures AgainIntact(w.storage, w.pvs, Strayed(w, name).strayed, Strayed(w, name).again)
  {
    assert HandleFits(name, w.published[name]);
  }

  lemma StrayKeeps(w: World, name: string)
    requires Inv(w)
    ensures Inv(Strayed(w, name))
  {
    if name in w.published {
      var w' := Strayed(w, name);
      StrayDrops(w, name);
      DropKeepsVolumes(w, name, w');
      DropKeepsAttachments(w, name, w');
      DropKeepsHost(w, name, w');
      DropKeepsAttacher(w, name, w');
    }
  }

  // ---------- Commands on the host ----------

  /** The command concerns nothing but this volume's names. */
  predicate Touches(c: Command, vol: string) {
    match c
    case NewTarget(t) => TargetOwner(t) == vol
    case SetIqn(t, _) => TargetOwner(t) == vol
    case NewDisk(p, _) => PathOwner(p) == vol
    case AddMapping(t, p) => TargetOwner(t) == vol && PathOwner(p) == vol
    case RemoveMapping(t, p) => TargetOwner(t) == vol && PathOwner(p) == vol
    case UnregisterDisk(p) => PathOwner(p) == vol
    case RemoveFile(p) => PathOwner(p) == vol
    case RemoveTarget(t) => TargetOwner(t) == vol
    case Allow(t, _) => TargetOwner(t) == vol
    case Deny(t, _) => TargetOwner(t) == vol
  }

  /** Other volumes' disks and targets, mappings and initiators included, are as they were. */
  ghost predicate SameElsewhere(s: Storage, s': Storage, vol: string) {
    && (forall t :: TargetOwner(t) != vol ==>
          (t in s'.targets <==> t in s.targets) && (t in s.targets ==> s'.targets[t] == s.targets[t]))
    && (forall p :: PathOwner(p) != vol ==>
          (p in s'.disks <==> p in s.disks) && (p in s.disks ==> s'.disks[p] == s.disks[p]))
  }

  /** No command on one volume reaches another: their names differ. */
  lemma CommandStaysHome(s: Storage, c: Command, vol: string, s': Storage)
    requires Touches(c, vol) && Apply(s, c) == Ok(s')
    ensures SameElsewhere(s, s', vol)
  {
  }
}
