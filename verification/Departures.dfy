/**
 * What becomes of volumes that may go: while the cluster is calm they are on their way, and once a
 * PersistentVolume is gone so is its backend.
 */
module Departures {
  import opened Results
  import opened Naming
  import opened WindowsStorage
  import opened ControllerServer
  import opened Lifecycle
  import opened LifecycleInvariants
  import opened LifecycleSteps
  import opened LifecycleWorkers
  import opened LifecycleCalls
  import opened LifecycleAttacher
  import opened LifecycleSafety
  import opened LifecycleProgress
  import opened Courses
  import opened Reconcilers
  import opened Plans
  import opened Quiescence
  import opened Rest

  predicate OnlyDriverHoldsAll(vas: map<Key, VA>, name: string) {
    forall k :: k in vas && k.pv == name ==> OnlyDriverHolds(vas[k])
  }

  predicate Leaving(s: Storage, pvs: map<string, PV>, name: string, h: Handle) {
    if name in pvs then Doomed(pvs[name]) && pvs[name].handle == h else BackendGone(s, h)
  }

  /** The volume with this handle is on its way, or gone with everything that belonged to it. */
  predicate Going(w: World, name: string, h: Handle) {
    && name in w.published && w.published[name] == h
    && Leaving(w.storage, w.pvs, name, h) && OnlyDriverHoldsAll(w.vas, name)
  }

  lemma MayGoIsGoing(w: World, name: string)
    requires VolumesFit(w) && MayGo(w, name)
    ensures Going(w, name, w.pvs[name].handle)
  {
  }

  // ---------- The attacher's calls ----------

  /** No update of the attacher takes hold of an attachment that only it holds. */
  lemma UpdateLeavesGoing(w: World, w': World, key: Key, now: VA, name: string)
    requires OnlyDriverHoldsAll(w.vas, name) && key in w.vas && w'.vas == StoreVA(w, key, now).vas
    requires key.pv == name ==> now.deleting && now.finalizers <= w.vas[key].finalizers
    ensures OnlyDriverHoldsAll(w'.vas, name)
  {
  }

  lemma AttacherUpdateLeavesGoing(w: World, w': World, name: string)
    requires Inv(w) && AttacherCall(w) == Some(w') && (w.att.Marking? || w.att.Reporting? || w.att.Unmarking?)
    requires OnlyDriverHoldsAll(w.vas, name)
    ensures OnlyDriverHoldsAll(w'.vas, name)
  {
    var key, va := w.att.key, w.att.va;
    match w.att {
      case Marking(_, _, _) => MarkIs(w, w');
      case Reporting(_, _, _) => ReportIs(w, w');
      case Unmarking(_, _) => UnmarkIs(w, w');
    }
    CopyIsCurrent(w, key, va);
    var now := if w.att.Marking? then va.(finalizers := va.finalizers + {Driver})
               else if w.att.Reporting? then va.(attached := true)
               else va.(finalizers := va.finalizers - {Driver});
    UpdateLeavesGoing(w, w', key, now, name);
  }

  lemma AttacherLeavesGoing(w: World, w': World, name: string, h: Handle)
    requires Inv(w) && Clean(w) && AttacherCall(w) == Some(w') && Going(w, name, h)
    ensures Going(w', name, h)
  {
    AttacherCallOnlyTouches(w, w');
    if w.att.Marking? || w.att.Reporting? || w.att.Unmarking? {
      AttacherUpdateLeavesGoing(w, w', name);
    } else if w.att.Looking? {
      CleanIsNotOutdated(w, w.att.key.pv);
      LookingOnlyStrays(w, w');
    } else {
      AttacherOnlyCommands(w, w');
    }
  }

  // ---------- The provisioner's calls ----------

  lemma CommandLeavesGoing(w: World, w': World, c: Command, vol: string, name: string, h: Handle)
    requires HandlesFit(w.published) && Going(w, name, h) && Apply(w.storage, c) == Ok(w'.storage)
    requires Touches(c, vol) && (c.NewDisk? || c.NewTarget? ==> vol !in w.published)
    requires w'.published == w.published && w'.pvs == w.pvs && w'.vas == w.vas
    ensures Going(w', name, h)
  {
    assert HandleFits(name, h);
    if BackendGone(w.storage, h) { CommandLeavesGone(w.storage, c, vol, w'.storage, name, h); }
  }

  lemma CreationLeavesGoing(w: World, w': World, name: string, h: Handle)
    requires Inv(w) && w.prov.Creating? && ProvisionerCall(w) == Some(w') && Going(w, name, h)
    ensures Going(w', name, h)
  {
    var Creating(req, found, policy, make) := w.prov;
    CreateCallIs(w, w');
    CreateCommandIsOwn(w.storage, req, found, make);
    CommandLeavesGoing(w, w', CreateCommand(req, found, make), req.vol, name, h);
  }

  lemma RollbackLeavesGoing(w: World, w': World, name: string, h: Handle)
    requires Inv(w) && w.prov.RollingBack? && ProvisionerCall(w) == Some(w') && Going(w, name, h)
    ensures Going(w', name, h)
  {
    RollbackCallIs(w, w');
    CommandLeavesGoing(w, w', DeleteCommand(w.prov.handle, w.prov.phase), w.prov.handle.vol, name, h);
  }

  lemma DeletionLeavesGoing(w: World, w': World, name: string, h: Handle)
    requires Inv(w) && Clean(w) && w.prov.Deleting? && ProvisionerCall(w) == Some(w') && Going(w, name, h)
    ensures Going(w', name, h)
  {
    DeleteIs(w, w');
    DeletionFits(w);
    CommandLeavesGoing(w, w', DeleteCommand(w.prov.pv.handle, w.prov.phase), w.prov.name, name, h);
  }

  lemma PublishLeavesGoing(w: World, w': World, name: string, h: Handle)
    requires ProvisionerFits(w) && w.prov.Publishing? && ProvisionerCall(w) == Some(w') && Going(w, name, h)
    ensures Going(w', name, h)
  {
    PublishIs(w, w');
  }

  /** The object goes only when the backend has gone. */
  lemma StoreLeavesGoing(w: World, now: PV, name: string, h: Handle)
    requires Going(w, name, h) && name in w.pvs && Doomed(now) && now.handle == h
    requires now.deleting && now.finalizers == {} ==> BackendGone(w.storage, h)
    ensures Going(StorePV(w, name, now), name, h)
  {
  }

  lemma StoreOfOtherLeavesGoing(w: World, other: string, now: PV, name: string, h: Handle)
    requires Going(w, name, h) && other != name
    ensures Going(StorePV(w, other, now), name, h)
  {
  }

  lemma DropLeavesGoing(w: World, w': World, name: string, h: Handle)
    requires Inv(w) && OnCourse(w) && w.prov.DroppingFinalizer? && ProvisionerCall(w) == Some(w') && Going(w, name, h)
    ensures Going(w', name, h)
  {
    DropIs(w, w');
    var DroppingFinalizer(other, pv) := w.prov;
    var now := pv.(finalizers := pv.finalizers - {Driver});
    if other == name {
      assert PVVersion(name, pv.rv, Some(pv)) == PVVersion(name, w.pvs[name].rv, Some(w.pvs[name]));
      StoreLeavesGoing(w, now, name, h);
    } else {
      StoreOfOtherLeavesGoing(w, other, now, name, h);
    }
  }

  lemma DeletePVLeavesGoing(w: World, w': World, name: string, h: Handle)
    requires OnCourse(w) && w.prov.DeletingPV? && ProvisionerCall(w) == Some(w') && Going(w, name, h)
    ensures Going(w', name, h)
  {
    DeletePVIs(w, w');
    var other := w.prov.name;
    if other in w.pvs && !w.pvs[other].deleting {
      var now := w.pvs[other].(deleting := true);
      if other == name { StoreLeavesGoing(w, now, name, h); } else { StoreOfOtherLeavesGoing(w, other, now, name, h); }
    }
  }

  lemma ProvisionerLeavesGoing(w: World, w': World, name: string, h: Handle)
    requires Inv(w) && OnCourse(w) && Clean(w) && ProvisionerCall(w) == Some(w') && Going(w, name, h)
    ensures Going(w', name, h)
  {
    match w.prov {
      case Creating(_, _, _, _) => CreationLeavesGoing(w, w', name, h);
      case Publishing(_, _) => PublishLeavesGoing(w, w', name, h);
      case RollingBack(_, _) => RollbackLeavesGoing(w, w', name, h);
      case Deleting(_, _, _) => DeletionLeavesGoing(w, w', name, h);
      case DroppingFinalizer(_, _) => DropLeavesGoing(w, w', name, h);
      case DeletingPV(_) => DeletePVLeavesGoing(w, w', name, h);
    }
  }

  // ---------- Every calm step ----------

  /** A volume that may go stays on its way, whatever the workers and informers do. */
  lemma CalmStepLeavesGoing(w: World, a: Action, w': World, name: string, h: Handle)
    requires Inv(w) && OnCourse(w) && Clean(w) && Calm(w, a) && Step(w, a, w') && Going(w, name, h)
    ensures Going(w', name, h)
  {
    if a.Provision? {
      ProvisionerLeavesGoing(w, ProvisionerCall(w).value, name, h);
    } else if a.AttachCall? {
      AttacherLeavesGoing(w, AttacherCall(w).value, name, h);
    }
  }

  /** Held by no attachment, and finished if it is there still, the volume is gone. */
  lemma GoingEnds(w: World, name: string, h: Handle)
    requires Going(w, name, h) && (NoneAttached(w.vas, name) && name in w.pvs ==> Finished(w, name, h))
    requires forall k :: k in w.vas && w.vas[k].deleting ==> Driver !in w.vas[k].finalizers && w.vas[k].finalizers != {}
    ensures Finished(w, name, h)
  {
    forall k | k in w.vas ensures k.pv != name { assert k.pv == name ==> OnlyDriverHolds(w.vas[k]); }
  }
}
