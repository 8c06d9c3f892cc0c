/** The provisioner's and the attacher's own steps keep the invariants. */
module LifecycleWorkers {
  import opened Results
  import opened Naming
  import opened WindowsStorage
  import opened ControllerServer
  import opened Lifecycle
  import opened LifecycleInvariants
  import opened LifecycleSteps
  import opened LifecycleCommands

  // ---------- Changing one component at a time ----------

  predicate AllButProvisioner(w: World) {
    VolumesFit(w) && AttachmentsFit(w) && HostFits(w) && AttacherFits(w)
  }

  lemma ProvisionerMoves(w: World, prov: Provisioner)
    requires AllButProvisioner(w) && ProvisionerFits(w.(prov := prov))
    ensures Inv(w.(prov := prov))
  {
  }

  /** The calls of CreateVolume and DeleteVolume change the host and the worker's place, and begin a deletion. */
  lemma CallsOnlyCommand(w: World, w': World)
    requires w.prov.Creating? || w.prov.RollingBack? || w.prov.Deleting?
    requires ProvisionerCall(w) == Some(w')
    ensures w.prov.Deleting? ==>
              w' == Judged(w).(storage := w'.storage, prov := w'.prov, begun := w.begun + {w.prov.name},
                               again := Judged(w).again - {w.prov.name})
    ensures !w.prov.Deleting? ==> w' == w.(storage := w'.storage, prov := w'.prov)
  {
  }

  /** The deletion acts by its copy. */
  function Judged(w: World): World
    requires w.prov.Deleting?
  {
    ActedOn(w, w.prov.name, w.prov.pv.rv)
  }

  /** A command of the provisioner on a volume nothing rests on. */
  lemma ProvisionerCommands(w: World, c: Command, vol: string, s: Storage, begun: set<string>)
    requires Inv(w) && Unclaimed(w, vol) && Leaves(w, vol, s, begun) && begun <= w.births.Keys
    requires Careful(w.storage, c) && !c.Allow? && (c.NewTarget? ==> vol !in w.published)
    requires Touches(c, vol) && Apply(w.storage, c) == Ok(s)
    ensures AllButProvisioner(w.(storage := s, begun := begun, again := w.again - {vol}))
  {
    ProvisionerCommandKeepsHost(w, c, vol, s, begun);
    ProvisionerCommandKeepsAttacher(w, c, vol, s, begun);
  }

  // ---------- CreateVolume ----------

  lemma CreationStartFits(s: Storage, req: Request, found: Found)
    requires MappingsFit(s) && WellNamed(req) && OneHome(s, req.vol, req.path)
    requires Finds(s, req.path, found) && !Refused(req, found)
    ensures CreationFits(s, req, found, FirstPhase(found))
  {
    assert TargetOwner("") == "";
    if AlreadyMapped(found) {
      assert MapsTo(s, found.mapping.value.target, req.path);
    } else if found.Absent? {
      assert forall t :: t in s.targets && req.path in s.targets[t].luns ==> IsRegistered(s, req.path);
    }
  }

  lemma ForgetKeeps(w: World, vol: string)
    requires Inv(w) && vol !in w.pvs
    ensures AllButProvisioner(Forgotten(w, vol))
  {
    var w' := Forgotten(w, vol);
    ForgetDrops(w, vol);
    DropKeepsVolumes(w, vol, w');
    DropKeepsAttachments(w, vol, w');
    DropKeepsHost(w, vol, w');
    DropKeepsAttacher(w, vol, w');
  }

  lemma StartCreateKeeps(w: World, req: Request, found: Found, policy: Policy)
    requires Inv(w) && StartsCreation(w, req, found)
    ensures Inv(CreationStarted(w, req, found, policy))
  {
    CreationStartFits(w.storage, req, found);
    ForgetKeeps(w, req.vol);
    ProvisionerMoves(Forgotten(w, req.vol), Creating(req, found, policy, FirstPhase(found)));
  }

  lemma CreateCommandIsOwn(s: Storage, req: Request, found: Found, phase: CreatePhase)
    requires CreationFits(s, req, found, phase)
    ensures var c := CreateCommand(req, found, phase); Touches(c, req.vol) && Careful(s, c) && !c.Allow?
  {
  }

  lemma CreationAdvances(s: Storage, req: Request, found: Found, phase: CreatePhase, s': Storage)
    requires CreationFits(s, req, found, phase) && Apply(s, CreateCommand(req, found, phase)) == Ok(s')
    ensures phase.MakeDisk? ==> CreationFits(s', req, found, MakeTarget)
    ensures phase.MakeTarget? ==> CreationFits(s', req, found, NameTarget)
    ensures phase.NameTarget? && !AlreadyMapped(found) && HandleFor(req, found, s').iqn != "" ==>
              CreationFits(s', req, found, MapDisk)
  {
    var t := TargetChosen(req, found);
    assert forall u :: u in s'.targets && req.path in s'.targets[u].luns && !phase.MapDisk? ==>
        u in s.targets && req.path in s.targets[u].luns;
  }

  lemma CreationEndsIntact(s: Storage, req: Request, found: Found, phase: CreatePhase, s': Storage)
    requires CreationFits(s, req, found, phase) && Apply(s, CreateCommand(req, found, phase)) == Ok(s')
    requires phase.MapDisk? || (phase.NameTarget? && AlreadyMapped(found))
    ensures var h := HandleFor(req, found, s'); HandleFits(req.vol, h) && Intact(s', h)
  {
  }

  lemma CreateCallIs(w: World, w': World)
    requires w.prov.Creating? && ProvisionerCall(w) == Some(w')
    ensures var Creating(req, found, policy, phase) := w.prov;
            && Apply(w.storage, CreateCommand(req, found, phase)) == Ok(w'.storage)
            && w' == w.(storage := w'.storage, prov := AfterCreating(req, found, policy, phase, w'.storage))
            && (phase.NameTarget? ==> HandleFor(req, found, w'.storage).iqn != "")
  {
  }

  /** Where the creation goes fits the host. */
  lemma CreationGoesOn(w: World, s: Storage)
    requires ProvisionerFits(w) && w.prov.Creating?
    requires Apply(w.storage, CreateCommand(w.prov.req, w.prov.found, w.prov.make)) == Ok(s)
    requires w.prov.make.NameTarget? ==> HandleFor(w.prov.req, w.prov.found, s).iqn != ""
    ensures ProvisionerFits(w.(storage := s, prov := AfterCreating(w.prov.req, w.prov.found, w.prov.policy, w.prov.make, s)))
  {
    var Creating(req, found, policy, phase) := w.prov;
    CreationAdvances(w.storage, req, found, phase, s);
    if phase.MapDisk? || (phase.NameTarget? && AlreadyMapped(found)) {
      CreationEndsIntact(w.storage, req, found, phase, s);
    }
  }

  lemma CreateCallCommands(w: World, s: Storage)
    requires Inv(w) && w.prov.Creating?
    requires Apply(w.storage, CreateCommand(w.prov.req, w.prov.found, w.prov.make)) == Ok(s)
    ensures AllButProvisioner(w.(storage := s))
  {
    var Creating(req, found, policy, phase) := w.prov;
    CreateCommandIsOwn(w.storage, req, found, phase);
    ProvisionerCommands(w, CreateCommand(req, found, phase), req.vol, s, w.begun);
    assert w.again - {req.vol} == w.again;
  }

  lemma CreateCallKeeps(w: World, w': World)
    requires Inv(w) && w.prov.Creating? && ProvisionerCall(w) == Some(w')
    ensures Inv(w')
  {
    CreateCallIs(w, w');
    CreateCallCommands(w, w'.storage);
    CreationGoesOn(w, w'.storage);
    ProvisionerMoves(w.(storage := w'.storage), w'.prov);
  }

  // ---------- Publishing the PersistentVolume ----------

  /** What is to be published is complete, and no other PersistentVolume of the name is there. */
  predicate Publishable(w: World, h: Handle) {
    && h.vol !in w.published && h.vol !in w.again && h.vol !in w.pvs
    && HandleFits(h.vol, h) && Intact(w.storage, h)
  }

  lemma PublishKeepsLog(w: World, h: Handle, policy: Policy)
    requires VolumesFit(w) && Publishable(w, h)
    ensures var w' := Published(w, h, policy);
            PVLogSound(w'.pvLog, w'.rev, w'.births, w'.published, w'.kept) && PVVersionsDistinct(w'.pvLog)
  {
    var w' := Published(w, h, policy);
    forall x | x in w.pvLog ensures PVVersionSound(x, w'.rev, w'.births, w'.published, w'.kept) && x.rv <= w.rev {
      assert PVVersionSound(x, w.rev, w.births, w.published, w.kept);
    }
  }

  /** All versions of earlier PersistentVolumes of this name are older. */
  lemma PublishKeepsPast(w: World, h: Handle, policy: Policy)
    requires VolumesFit(w) && Publishable(w, h)
    ensures var w' := Published(w, h, policy);
            PVPastBinds(w'.pvLog, w'.pvs, w'.births) && RemovalLasts(w'.pvLog, w'.births)
  {
    var w' := Published(w, h, policy);
    forall x | x in w.pvLog && OfLatest(w'.births, x.name, x.rv)
      ensures x.name != h.vol && OfLatest(w.births, x.name, x.rv) && PVVersionBinds(x, w'.pvs)
    {
      assert PVVersionSound(x, w.rev, w.births, w.published, w.kept);
      assert PVVersionBinds(x, w.pvs);
    }
  }

  lemma PublishKeepsVolumes(w: World, h: Handle, policy: Policy)
    requires VolumesFit(w) && Publishable(w, h)
    ensures VolumesFit(Published(w, h, policy))
  {
    PublishKeepsLog(w, h, policy);
    PublishKeepsPast(w, h, policy);
    PublishKeepsCurrent(w, h, policy);
  }

  lemma PublishKeepsCurrent(w: World, h: Handle, policy: Policy)
    requires VolumesFit(w) && Publishable(w, h)
    ensures var w' := Published(w, h, policy);
            && HandlesFit(w'.published)
            && PastKnown(w'.births, w'.rev, w'.published.Keys + w'.strayed + w'.kept + w'.begun)
            && PVsCurrent(w'.pvs, w'.pvLog, w'.rev, w'.births, w'.published, w'.strayed, w'.kept)
            && PVCacheSound(w'.pvCache, w'.pvLog)
  {
    PublishKeepsObjects(w, h, policy);
  }

  lemma PublishKeepsObjects(w: World, h: Handle, policy: Policy)
    requires PVsCurrent(w.pvs, w.pvLog, w.rev, w.births, w.published, w.strayed, w.kept) && Publishable(w, h)
    ensures var w' := Published(w, h, policy);
            PVsCurrent(w'.pvs, w'.pvLog, w'.rev, w'.births, w'.published, w'.strayed, w'.kept)
  {
  }

  lemma PublishKeepsAttachments(w: World, h: Handle, policy: Policy)
    requires VolumesFit(w) && AttachmentsFit(w) && Publishable(w, h)
    ensures AttachmentsFit(Published(w, h, policy))
  {
    var w' := Published(w, h, policy);
    forall x | x in w.pvLog ensures x.rv <= w.rev { assert PVVersionSound(x, w.rev, w.births, w.published, w.kept); }
    assert BornBeforeFlags(w'.vas, w'.pvLog, w'.births);
    PublishKeepsVAs(w, h, policy);
  }

  lemma PublishKeepsVAs(w: World, h: Handle, policy: Policy)
    requires VAsCurrent(w.vas, w.vaLog, w.rev, w.births, w.published, w.strayed, w.kept)
    ensures var w' := Published(w, h, policy);
            VAsCurrent(w'.vas, w'.vaLog, w'.rev, w'.births, w'.published, w'.strayed, w'.kept)
  {
  }

  lemma PublishKeepsHost(w: World, h: Handle, policy: Policy)
    requires VolumesFit(w) && AttachmentsFit(w) && HostFits(w) && Publishable(w, h)
    ensures HostFits(Published(w, h, policy))
  {
    PublishKeepsAccess(w, h, policy);
    PublishKeepsGuarantees(w, h, policy);
    PublishKeepsReleased(w, h, policy);
  }

  /** Nobody is attached or admitted to a volume that is vouched for from its publication on. */
  lemma FreshIsVacated(w: World, vol: string)
    requires AttachmentsFit(w) && HostFits(w) && vol !in w.published && Fresh(w, vol)
    ensures NoneAttached(w.vas, vol)
    ensures forall t, n :: t in w.storage.targets && TargetOwner(t) == vol ==> n !in w.storage.targets[t].initiators
  {
    forall k | k in w.vas ensures k.pv != vol { assert Held(w.published, w.strayed, w.kept, k.pv); }
    forall t, n | t in w.storage.targets && TargetOwner(t) == vol ensures n !in w.storage.targets[t].initiators {
      assert n in w.storage.targets[t].initiators ==>
          AdmissionJustified(t, n, w.vas, w.pvCache, w.births, w.published, w.strayed, w.kept);
    }
  }

  lemma PublishKeepsAccess(w: World, h: Handle, policy: Policy)
    requires AttachmentsFit(w) && HostFits(w) && Publishable(w, h)
    ensures var w' := Published(w, h, policy);
            && AccessJustified(w'.storage, w'.vas, w'.pvCache, w'.births, w'.published, w'.strayed, w'.kept)
            && AttachedAdmitted(w'.storage, w'.vas, w'.vaCache, w'.published)
  {
    var w' := Published(w, h, policy);
    if Fresh(w, h.vol) { FreshIsVacated(w, h.vol); }
    forall t, n | t in w.storage.targets && n in w.storage.targets[t].initiators
      ensures AdmissionJustified(t, n, w.vas, w.pvCache, w'.births, w'.published, w'.strayed, w'.kept)
    {
      assert AdmissionJustified(t, n, w.vas, w.pvCache, w.births, w.published, w.strayed, w.kept);
    }
  }

  lemma PublishKeepsGuarantees(w: World, h: Handle, policy: Policy)
    requires HostFits(w) && Publishable(w, h)
    ensures var w' := Published(w, h, policy);
            && IntactUntilBegun(w'.storage, w'.published, w'.begun)
            && AgainIntact(w'.storage, w'.pvs, w'.strayed, w'.again)
            && BegunAreDead(w'.pvs, w'.vas, w'.published, w'.begun)
  {
    PublishKeepsIntact(w, h, policy);
    PublishKeepsDead(w, h, policy);
  }

  lemma PublishKeepsIntact(w: World, h: Handle, policy: Policy)
    requires IntactUntilBegun(w.storage, w.published, w.begun) && AgainIntact(w.storage, w.pvs, w.strayed, w.again)
    requires Publishable(w, h)
    ensures var w' := Published(w, h, policy);
            IntactUntilBegun(w'.storage, w'.published, w'.begun) && AgainIntact(w'.storage, w'.pvs, w'.strayed, w'.again)
  {
  }

  lemma PublishKeepsDead(w: World, h: Handle, policy: Policy)
    requires BegunAreDead(w.pvs, w.vas, w.published, w.begun) && Publishable(w, h)
    ensures var w' := Published(w, h, policy); BegunAreDead(w'.pvs, w'.vas, w'.published, w'.begun)
  {
  }

  lemma PublishKeepsReleased(w: World, h: Handle, policy: Policy)
    requires ReleasedGone(w.storage, w.pvs, w.published, w.kept) && Publishable(w, h)
    ensures var w' := Published(w, h, policy); ReleasedGone(w'.storage, w'.pvs, w'.published, w'.kept)
  {
  }

  lemma PublishKeepsAttacher(w: World, h: Handle, policy: Policy)
    requires AttachmentsFit(w) && HostFits(w) && AttacherFits(w) && Publishable(w, h)
    ensures AttacherFits(Published(w, h, policy))
  {
    if Fresh(w, h.vol) { FreshIsVacated(w, h.vol); }
    PublishKeepsWatching(w, h, policy);
  }

  lemma PublishKeepsWatching(w: World, h: Handle, policy: Policy)
    requires AttacherFits(w) && Publishable(w, h)
    requires Fresh(w, h.vol) ==> NoneAttached(w.vas, h.vol)
    requires Fresh(w, h.vol) ==>
               forall t, n :: t in w.storage.targets && TargetOwner(t) == h.vol ==> n !in w.storage.targets[t].initiators
    ensures AttacherFits(Published(w, h, policy))
  {
  }

  lemma PublishedFits(w: World, h: Handle, policy: Policy)
    requires AllButProvisioner(w) && Publishable(w, h)
    ensures Inv(Published(w, h, policy))
  {
    PublishKeepsVolumes(w, h, policy);
    PublishKeepsAttachments(w, h, policy);
    PublishKeepsHost(w, h, policy);
    PublishKeepsAttacher(w, h, policy);
  }

  lemma PublishKeeps(w: World, w': World)
    requires Inv(w) && w.prov.Publishing? && ProvisionerCall(w) == Some(w')
    ensures Inv(w')
  {
    var Publishing(h, policy) := w.prov;
    if h.vol in w.pvs {
      ProvisionerMayRest(w);
    } else {
      PublishedFits(w, h, policy);
    }
  }

  // ---------- DeleteVolume: the rollback and the reconciliation ----------

  lemma RollbackCallIs(w: World, w': World)
    requires w.prov.RollingBack? && ProvisionerCall(w) == Some(w')
    ensures Apply(w.storage, DeleteCommand(w.prov.handle, w.prov.phase)) == Ok(w'.storage)
    ensures w' == w.(storage := w'.storage, prov := w'.prov)
    ensures w'.prov.Resting? || (w'.prov.RollingBack? && w'.prov.handle == w.prov.handle)
  {
  }

  lemma RollbackCommands(w: World, s: Storage)
    requires Inv(w) && w.prov.RollingBack?
    requires Apply(w.storage, DeleteCommand(w.prov.handle, w.prov.phase)) == Ok(s)
    ensures AllButProvisioner(w.(storage := s))
  {
    var RollingBack(h, phase) := w.prov;
    ProvisionerCommands(w, DeleteCommand(h, phase), h.vol, s, w.begun);
    assert w.again - {h.vol} == w.again;
  }

  lemma RollbackCallKeeps(w: World, w': World)
    requires Inv(w) && w.prov.RollingBack? && ProvisionerCall(w) == Some(w')
    ensures Inv(w')
  {
    RollbackCallIs(w, w');
    RollbackCommands(w, w'.storage);
    ProvisionerMoves(w.(storage := w'.storage), w'.prov);
  }

  /** The handle of a deletion's copy. */
  lemma DeletionFits(w: World)
    requires Inv(w) && w.prov.Deleting?
    ensures w.prov.name in w.births && HandleFits(w.prov.name, w.prov.pv.handle)
  {
    assert PVVersionSound(PVVersion(w.prov.name, w.prov.pv.rv, Some(w.prov.pv)), w.rev, w.births, w.published, w.kept);
  }

  /** While a deletion runs by a copy of the latest PersistentVolume, nothing rests on the volume. */
  lemma DeletionIsUnclaimed(w: World)
    requires Inv(w) && w.prov.Deleting? && OfLatest(w.births, w.prov.name, w.prov.pv.rv)
    ensures NoneAttached(w.vas, w.prov.name) && Unclaimed(w, w.prov.name)
    ensures HandleOf(w.published, w.prov.name, w.prov.pv.handle)
  {
    var x := PVVersion(w.prov.name, w.prov.pv.rv, Some(w.prov.pv));
    assert PVVersionSound(x, w.rev, w.births, w.published, w.kept);
    assert PVVersionBinds(x, w.pvs);
  }

  /** The first command takes the volume apart, and the later ones put nothing together. */
  lemma DeleteCommandTakesApart(w: World, s: Storage)
    requires Inv(w) && w.prov.Deleting? && w.prov.name in w.published && OfLatest(w.births, w.prov.name, w.prov.pv.rv)
    requires Apply(w.storage, DeleteCommand(w.prov.pv.handle, w.prov.phase)) == Ok(s)
    ensures !Intact(s, w.published[w.prov.name])
  {
    DeletionIsUnclaimed(w);
    DeletionFits(w);
    if !w.prov.phase.Unmap? {
      assert !Intact(w.storage, w.published[w.prov.name]);
      TakenApart(w.storage, w.prov.pv.handle, w.prov.phase, s);
    }
  }

  lemma TakenApart(s: Storage, h: Handle, phase: DeletePhase, s': Storage)
    requires !Intact(s, h) && Apply(s, DeleteCommand(h, phase)) == Ok(s')
    ensures !Intact(s', h)
  {
  }

  /** A deletion that acts by an earlier copy does so on a volume that is no longer vouched for. */
  lemma JudgedKeeps(w: World)
    requires Inv(w) && w.prov.Deleting?
    ensures Inv(Judged(w))
  {
    if OfLatest(w.births, w.prov.name, w.prov.pv.rv) {
      assert Judged(w) == w;
    } else {
      StrayKeeps(w, w.prov.name);
      assert Judged(w) == Strayed(w, w.prov.name);
    }
  }

  lemma JudgedIs(w: World)
    requires w.prov.Deleting?
    ensures w.prov.name in Judged(w).published ==> OfLatest(w.births, w.prov.name, w.prov.pv.rv)
    ensures var w1 := Judged(w); w1.prov == w.prov && w1.births == w.births && w1.storage == w.storage && w1.begun == w.begun
  {
  }

  lemma DeleteCallCommands(w: World, s: Storage)
    requires Inv(w) && w.prov.Deleting? && Apply(w.storage, DeleteCommand(w.prov.pv.handle, w.prov.phase)) == Ok(s)
    requires w.prov.name in w.published ==> OfLatest(w.births, w.prov.name, w.prov.pv.rv)
    ensures AllButProvisioner(w.(storage := s, begun := w.begun + {w.prov.name}, again := w.again - {w.prov.name}))
  {
    var Deleting(name, pv, phase) := w.prov;
    DeletionFits(w);
    if name in w.published {
      DeletionIsUnclaimed(w);
      DeleteCommandTakesApart(w, s);
    }
    ProvisionerCommands(w, DeleteCommand(pv.handle, phase), name, s, w.begun + {name});
  }

  lemma DeleteCallMoves(w: World, w': World)
    requires w.prov.Deleting? && ProvisionerCall(w) == Some(w')
    ensures var Deleting(name, pv, phase) := w.prov;
            && Apply(w.storage, DeleteCommand(pv.handle, phase)) == Ok(w'.storage)
            && w'.pvLog == w.pvLog && w'.births == w.births && w'.vas == w.vas && name in w'.begun
            && w'.prov == if phase.DropTarget? then AfterDeletion(name, pv) else Deleting(name, pv, AfterPhase(phase))
  {
  }

  lemma DeleteCallAdvances(w: World, w': World)
    requires VolumesFit(w) && ProvisionerFits(w) && w.prov.Deleting? && ProvisionerCall(w) == Some(w')
    ensures ProvisionerFits(w')
  {
    DeleteCallMoves(w, w');
    assert w.prov.phase.DropTarget? ==> w.prov.pv.handle.target !in w'.storage.targets;
  }

  lemma DeleteCallKeeps(w: World, w': World)
    requires Inv(w) && w.prov.Deleting? && ProvisionerCall(w) == Some(w')
    ensures Inv(w')
  {
    CallsOnlyCommand(w, w');
    JudgedKeeps(w);
    JudgedIs(w);
    DeleteCallAdvances(w, w');
    DeletionKeeps(Judged(w), w');
  }

  lemma DeletionKeeps(w: World, w': World)
    requires Inv(w) && w.prov.Deleting? && (w.prov.name in w.published ==> OfLatest(w.births, w.prov.name, w.prov.pv.rv))
    requires Apply(w.storage, DeleteCommand(w.prov.pv.handle, w.prov.phase)) == Ok(w'.storage)
    requires w' == w.(storage := w'.storage, prov := w'.prov, begun := w.begun + {w.prov.name}, again := w.again - {w.prov.name})
    requires ProvisionerFits(w')
    ensures Inv(w')
  {
    DeleteCallCommands(w, w'.storage);
    ProvisionerMoves(w.(storage := w'.storage, begun := w'.begun, again := w'.again), w'.prov);
  }

  /** The lister shows none and is recent enough, so there is none. */
  lemma ListedIsTrue(w: World, name: string, pv: PV)
    requires VolumesFit(w) && AttachmentsFit(w)
    requires PVVersion(name, pv.rv, Some(pv)) in w.pvLog && Flagged(pv) && OfLatest(w.births, name, pv.rv)
    requires NoneListed(w, name) && ListIsRecent(w, name, pv.rv)
    ensures NoneAttached(w.vas, name)
  {
    var x := PVVersion(name, pv.rv, Some(pv));
    assert forall k :: k in w.vas && k.pv == name ==> w.vas[k].born < x.rv;
    assert forall k :: k in w.vas && k in w.vaCache ==> VAVersionBinds(w.vaCache[k], w.vas[k]);
  }

  lemma StartDeleteKeeps(w: World, name: string, pv: PV, w': World)
    requires Inv(w) && StartsDeletion(w, name, pv, w')
    ensures Inv(w')
  {
    if OfLatest(w.births, name, pv.rv) { ListedIsTrue(w, name, pv); }
  }

  lemma StartDropKeeps(w: World, name: string, pv: PV, w': World)
    requires Inv(w) && StartsDropping(w, name, pv, w')
    ensures Inv(w')
  {
  }

  /** The copy the update is based on is the object, and the driver has let go of it. */
  lemma ReleaseSucceeds(w: World)
    requires VolumesFit(w) && ProvisionerFits(w) && w.prov.DroppingFinalizer?
    requires w.prov.name in w.pvs && w.pvs[w.prov.name].rv == w.prov.pv.rv
    ensures Succeeds(w, w.prov.name, w.prov.pv.(finalizers := w.prov.pv.finalizers - {Driver}))
  {
    var DroppingFinalizer(name, pv) := w.prov;
    var x := PVVersion(name, pv.rv, Some(pv));
    assert PVVersionSound(x, w.rev, w.births, w.published, w.kept);
    assert x == PVVersion(name, w.pvs[name].rv, Some(w.pvs[name]));
  }

  lemma DropFinalizerMoves(w: World, v: World)
    requires Inv(v)
    ensures w.prov.DroppingFinalizer? ==> Inv(v.(prov := AfterDropping(w.prov.name, w.prov.pv)))
  {
    if w.prov.DroppingFinalizer? {
      ProvisionerMoves(v, AfterDropping(w.prov.name, w.prov.pv));
    }
  }

  lemma DropFinalizerKeeps(w: World, w': World)
    requires Inv(w) && w.prov.DroppingFinalizer? && ProvisionerCall(w) == Some(w')
    ensures Inv(w')
  {
    var DroppingFinalizer(name, pv) := w.prov;
    ReleaseSucceeds(w);
    StorePVKeeps(w, name, pv.(finalizers := pv.finalizers - {Driver}));
    DropFinalizerMoves(w, StorePV(w, name, pv.(finalizers := pv.finalizers - {Driver})));
  }

  lemma DeletePVKeeps(w: World, w': World)
    requires Inv(w) && w.prov.DeletingPV? && ProvisionerCall(w) == Some(w')
    ensures Inv(w')
  {
    var name := w.prov.name;
    if name in w.pvs && !w.pvs[name].deleting {
      StorePVKeeps(w, name, w.pvs[name].(deleting := true));
      ProvisionerMayRest(StorePV(w, name, w.pvs[name].(deleting := true)));
    } else {
      ProvisionerMayRest(w);
    }
  }

  lemma ProvisionerCallKeeps(w: World, w': World)
    requires Inv(w) && ProvisionerCall(w) == Some(w')
    ensures Inv(w') && Inv(w'.(prov := Resting))
  {
    match w.prov {
      case Creating(_, _, _, _) => CreateCallKeeps(w, w');
      case Publishing(_, _) => PublishKeeps(w, w');
      case RollingBack(_, _) => RollbackCallKeeps(w, w');
      case Deleting(_, _, _) => DeleteCallKeeps(w, w');
      case DroppingFinalizer(_, _) => DropFinalizerKeeps(w, w');
      case DeletingPV(_) => DeletePVKeeps(w, w');
    }
    ProvisionerMayRest(w');
  }

  lemma ProvisionerMayRest(w: World)
    requires Inv(w)
    ensures Inv(w.(prov := Resting))
  {
  }
}
