/**
 * How far the host is when a worker has got this far: what a deletion under way has done, and that
 * nothing is left of a volume the driver has let go.
 */
module Courses {
  import opened Results
  import opened Naming
  import opened WindowsStorage
  import opened ControllerServer
  import opened Lifecycle
  import opened LifecycleInvariants
  import opened LifecycleSteps
  import opened LifecycleCommands
  import opened LifecycleWorkers
  import opened LifecycleCalls
  import opened LifecycleAttacher
  import opened LifecycleSafety
  import opened LifecycleProgress

  predicate BackendGone(s: Storage, h: Handle) {
    h.target !in s.targets && h.path !in s.disks
  }

  // ---------- The deletion of a volume ----------

  /** How far the host is when the deletion stands at `phase`. */
  predicate OnTrack(s: Storage, h: Handle, phase: DeletePhase) {
    && (!phase.Unmap? ==> !IsMapped(s, h.path))
    && (phase.Unlink? || phase.DropTarget? ==> !IsRegistered(s, h.path))
    && (phase.DropTarget? ==> h.path !in s.disks)
  }

  lemma DeletionAdvances(s: Storage, vol: string, h: Handle, phase: DeletePhase)
    requires MappingsFit(s) && HandleAtHome(s, vol, h) && HandleFits(vol, h) && OnTrack(s, h, phase)
    ensures Apply(s, DeleteCommand(h, phase)).Ok?
    ensures var s' := Apply(s, DeleteCommand(h, phase)).value;
            if phase.DropTarget? then BackendGone(s', h) else OnTrack(s', h, AfterPhase(phase))
  {
    match phase {
      case Unmap =>
        var s' := Apply(s, DeleteCommand(h, phase)).value;
        assert forall t :: t in s'.targets && h.path in s'.targets[t].luns ==> t in s.targets && h.path in s.targets[t].luns;
      case Unregister =>
        assert forall t :: t in s.targets && h.path in s.targets[t].luns ==> IsMapped(s, h.path);
      case Unlink =>
        assert !IsMapped(s, h.path);
      case DropTarget =>
        assert h.target in s.targets ==> forall p :: p in s.targets[h.target].luns ==> PathOwner(p) == vol && p in s.disks;
    }
  }

  // ---------- The course of the provisioner ----------

  predicate CourseFits(w: World) {
    match w.prov
    case Deleting(name, pv, phase) => name in w.published ==> OnTrack(w.storage, pv.handle, phase)
    case DroppingFinalizer(name, pv) =>
      name in w.published && pv.policy.Delete? ==> BackendGone(w.storage, w.published[name])
    case DeletingPV(name) => name in w.published ==> BackendGone(w.storage, w.published[name])
    case _ => true
  }

  /** Nothing is left of a volume the driver has let go. */
  predicate AllGone(s: Storage, pvs: map<string, PV>, published: map<string, Handle>, kept: set<string>) {
    forall v :: v in published && v !in kept && (v !in pvs || Driver !in pvs[v].finalizers) ==>
      BackendGone(s, published[v])
  }

  predicate OnCourse(w: World) {
    CourseFits(w) && AllGone(w.storage, w.pvs, w.published, w.kept)
  }

  // ---------- Commands ----------

  lemma CommandLeavesGone(s: Storage, c: Command, vol: string, s': Storage, v: string, h: Handle)
    requires HandleFits(v, h) && BackendGone(s, h) && Apply(s, c) == Ok(s')
    requires Touches(c, vol) && (c.NewDisk? || c.NewTarget? ==> vol != v)
    ensures BackendGone(s', h)
  {
  }

  lemma AccessLeavesCourse(w: World, s': Storage, target: string)
    requires OnCourse(w) && OnlyAccessDiffers(w.storage, s', target)
    ensures OnCourse(w.(storage := s'))
  {
  }

  /** A command on a volume that is not published, or one of a deletion. */
  lemma CommandLeavesAllGone(w: World, c: Command, vol: string, s': Storage)
    requires HandlesFit(w.published) && AllGone(w.storage, w.pvs, w.published, w.kept) && Apply(w.storage, c) == Ok(s')
    requires Touches(c, vol) && (c.NewDisk? || c.NewTarget? ==> vol !in w.published)
    ensures AllGone(s', w.pvs, w.published, w.kept)
  {
    forall v | v in w.published && v !in w.kept && (v !in w.pvs || Driver !in w.pvs[v].finalizers)
      ensures BackendGone(s', w.published[v])
    {
      assert HandleFits(v, w.published[v]);
      CommandLeavesGone(w.storage, c, vol, s', v, w.published[v]);
    }
  }

  lemma CreationStaysOnCourse(w: World, w': World)
    requires Inv(w) && OnCourse(w) && w.prov.Creating? && ProvisionerCall(w) == Some(w')
    ensures OnCourse(w')
  {
    var Creating(req, found, policy, phase) := w.prov;
    CreateCallIs(w, w');
    CreateCommandIsOwn(w.storage, req, found, phase);
    CommandLeavesAllGone(w, CreateCommand(req, found, phase), req.vol, w'.storage);
  }

  lemma RollbackStaysOnCourse(w: World, w': World)
    requires Inv(w) && OnCourse(w) && w.prov.RollingBack? && ProvisionerCall(w) == Some(w')
    ensures OnCourse(w')
  {
    RollbackCallIs(w, w');
    CommandLeavesAllGone(w, DeleteCommand(w.prov.handle, w.prov.phase), w.prov.handle.vol, w'.storage);
  }

  lemma PublishStaysOnCourse(w: World, w': World)
    requires OnCourse(w) && ProvisionerFits(w) && w.prov.Publishing? && ProvisionerCall(w) == Some(w')
    ensures OnCourse(w')
  {
  }

  lemma DeletionStaysOnCourse(w: World, w': World)
    requires Inv(w) && Tidy(w) && OnCourse(w) && w.prov.Deleting? && ProvisionerCall(w) == Some(w')
    ensures OnCourse(w')
  {
    var Deleting(name, pv, phase) := w.prov;
    DeletionFits(w);
    CallsOnlyCommand(w, w');
    JudgedIs(w);
    CommandLeavesAllGone(w, DeleteCommand(pv.handle, phase), name, w'.storage);
    if OfLatest(w.births, name, pv.rv) {
      DeletionIsUnclaimed(w);
      DeletionGoesOn(w, w');
    }
  }

  lemma DeletionGoesOn(w: World, w': World)
    requires HostFits(w) && AtHome(w.storage, w.published) && CourseFits(w)
    requires w.prov.Deleting? && HandleOf(w.published, w.prov.name, w.prov.pv.handle) && ProvisionerCall(w) == Some(w')
    requires OfLatest(w.births, w.prov.name, w.prov.pv.rv)
    ensures CourseFits(w')
  {
    var Deleting(name, pv, phase) := w.prov;
    if name in w.published {
      assert HandleAtHome(w.storage, name, pv.handle);
      DeletionAdvances(w.storage, name, pv.handle, phase);
    }
  }

  lemma DropStaysOnCourse(w: World, w': World)
    requires Inv(w) && OnCourse(w) && w.prov.DroppingFinalizer? && ProvisionerCall(w) == Some(w')
    ensures OnCourse(w')
  {
    var DroppingFinalizer(name, pv) := w.prov;
    assert PVVersion(name, pv.rv, Some(pv)) == PVVersion(name, w.pvs[name].rv, Some(w.pvs[name]));
    DropLeavesCourse(w, name, pv);
  }

  /** The finalizer goes when the volume has gone, or is to be kept. */
  lemma DropLeavesCourse(w: World, name: string, pv: PV)
    requires AllGone(w.storage, w.pvs, w.published, w.kept) && name in w.pvs && w.pvs[name] == pv
    requires name in w.published ==> name in w.kept || BackendGone(w.storage, w.published[name])
    ensures var w' := StorePV(w, name, pv.(finalizers := pv.finalizers - {Driver}));
            AllGone(w'.storage, w'.pvs, w'.published, w'.kept) && w'.storage == w.storage && w'.published == w.published
  {
  }

  lemma DeletePVStaysOnCourse(w: World, w': World)
    requires OnCourse(w) && w.prov.DeletingPV? && ProvisionerCall(w) == Some(w')
    ensures OnCourse(w')
  {
    var name := w.prov.name;
    if name in w.pvs && !w.pvs[name].deleting { StorePVLeavesCourse(w, name, w.pvs[name].(deleting := true)); }
  }

  lemma ProvisionerStaysOnCourse(w: World, w': World)
    requires Inv(w) && Tidy(w) && OnCourse(w) && ProvisionerCall(w) == Some(w')
    ensures OnCourse(w')
  {
    match w.prov {
      case Creating(_, _, _, _) => CreationStaysOnCourse(w, w');
      case Publishing(_, _) => PublishStaysOnCourse(w, w');
      case RollingBack(_, _) => RollbackStaysOnCourse(w, w');
      case Deleting(_, _, _) => DeletionStaysOnCourse(w, w');
      case DroppingFinalizer(_, _) => DropStaysOnCourse(w, w');
      case DeletingPV(_) => DeletePVStaysOnCourse(w, w');
    }
  }

  lemma AttacherStaysOnCourse(w: World, w': World)
    requires Inv(w) && Tidy(w) && OnCourse(w) && AttacherCall(w) == Some(w')
    ensures OnCourse(w')
  {
    AttacherStaysLogged(w, w');
    if w.att.Marking? || w.att.Reporting? || w.att.Unmarking? {
      AttacherUpdateStaysLogged(w, w');
    } else if w.att.Allowing? || w.att.Denying? {
      AccessStaysOnCourse(w, w');
    } else if w.att.Looking? {
      LookingOnlyStrays(w, w');
    }
  }

  lemma AccessStaysOnCourse(w: World, w': World)
    requires OnCourse(w) && AttacherCall(w) == Some(w') && (w.att.Allowing? || w.att.Denying?)
    ensures OnCourse(w')
  {
    AttacherOnlyCommands(w, w');
    var h, node := w.att.handle, w.att.key.node;
    var t := FirstNonEmpty(h.target, h.iqn);
    AccessCommandDiffers(w.storage, if w.att.Allowing? then Command.Allow(t, node) else Command.Deny(t, node), w'.storage);
    AccessLeavesCourse(w, w'.storage, t);
  }

  // ---------- Every step ----------

  lemma StorePVLeavesCourse(w: World, name: string, pv: PV)
    requires OnCourse(w) && name in w.pvs && (Driver in pv.finalizers <==> Driver in w.pvs[name].finalizers)
    ensures OnCourse(StorePV(w, name, pv)) && StorePV(w, name, pv).prov == w.prov
    ensures Driver !in w.pvs[name].finalizers ==> OnCourse(RemovePV(w, name))
  {
    PutPVLeavesCourse(w, name, pv);
  }

  lemma PutPVLeavesCourse(w: World, name: string, pv: PV)
    requires OnCourse(w) && name in w.pvs && (Driver in pv.finalizers <==> Driver in w.pvs[name].finalizers)
    ensures OnCourse(PutPV(w, name, pv))
  {
  }

  lemma VolumeEditStaysOnCourse(w: World, a: Action, w': World)
    requires OnCourse(w) && Step(w, a, w') && (a.EditPV? || a.PurgePV?)
    ensures OnCourse(w')
  {
    match a {
      case EditPV(name, pv) => StorePVLeavesCourse(w, name, pv);
      case PurgePV(name) => StorePVLeavesCourse(w, name, w.pvs[name]);
    }
  }

  lemma AttachmentStepStaysOnCourse(w: World, a: Action, w': World)
    requires OnCourse(w) && Step(w, a, w') && OfAttachment(a)
    ensures OnCourse(w')
  {
    match a {
      case EditVA(key, va) => StoreVALeavesVolumes(w, key, va);
      case PurgeVA(key) =>
      case Attach(key) =>
      case SeeVA(_) =>
    }
  }

  lemma StepStaysOnCourse(w: World, a: Action, w': World)
    requires Inv(w) && Tidy(w) && OnCourse(w) && Step(w, a, w')
    ensures OnCourse(w')
  {
    if a.Provision? {
      ProvisionerStaysOnCourse(w, ProvisionerCall(w).value);
    } else if a.AttachCall? {
      AttacherStaysOnCourse(w, AttacherCall(w).value);
    } else if a.EditPV? || a.PurgePV? {
      VolumeEditStaysOnCourse(w, a, w');
    } else if OfAttachment(a) {
      AttachmentStepStaysOnCourse(w, a, w');
    }
  }

  lemma {:induction false} RunStaysOnCourse(run: seq<World>, i: nat)
    requires Run(run) && i < |run|
    ensures OnCourse(run[i])
  {
    if i > 0 {
      RunStaysOnCourse(run, i - 1);
      RunStaysTidy(run, i - 1);
      RunKeeps(run, i - 1);
      assert Next(run[i - 1], run[i - 1 + 1]);
      var a :| Step(run[i - 1], a, run[i]);
      StepStaysOnCourse(run[i - 1], a, run[i]);
    }
  }

  // ---------- Theorems ----------

  /**
   * A volume whose policy was never other than Delete and which the driver has let go, or whose
   * PersistentVolume is gone, has left nothing on the host: neither disk nor target.
   */
  lemma NothingLeftBehind(run: seq<World>, i: nat, name: string)
    requires Run(run) && i < |run| && name in run[i].published && name !in run[i].kept
    requires name !in run[i].pvs || Driver !in run[i].pvs[name].finalizers
    ensures BackendGone(run[i].storage, run[i].published[name])
  {
    RunStaysOnCourse(run, i);
  }
}
