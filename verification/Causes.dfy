/** What it takes for a volume to be deleted: a copy that shows it flagged and of policy Delete. */
module Causes {
  import opened Results
  import opened Naming
  import opened WindowsStorage
  import opened ControllerServer
  import opened Lifecycle
  import opened LifecycleInvariants
  import opened LifecycleSteps
  import opened LifecycleWorkers
  import opened LifecycleCalls
  import opened LifecycleAttacher
  import opened LifecycleSafety
  import opened LifecycleProgress
  import opened Courses
  import opened Reconcilers

  /** Some version of a PersistentVolume of this name is flagged and of policy Delete. */
  ghost predicate DoomLogged(pvLog: set<PVVersion>, name: string) {
    exists x :: x in pvLog && x.name == name && x.pv.Some? && Doomed(x.pv.value)
  }

  /** Whatever has been deleted, or has lost its backend to a copy of an earlier object, was doomed once. */
  ghost predicate HasCause(w: World, name: string) {
    (name in w.begun || (name in w.pvs && name !in w.published && name !in w.again)) ==> DoomLogged(w.pvLog, name)
  }

  ghost predicate AllHaveCause(w: World) {
    forall v :: HasCause(w, v)
  }

  lemma LogOnlyGrows(w: World, w': World, name: string)
    requires HasCause(w, name) && w.pvLog <= w'.pvLog
    requires name in w'.begun ==> name in w.begun
    requires name in w'.pvs && name !in w'.published && name !in w'.again ==>
               name in w.begun || (name in w.pvs && name !in w.published && name !in w.again)
    ensures HasCause(w', name)
  {
  }

  lemma DeletionHasCauseLogged(w: World, w': World)
    requires Inv(w) && AllHaveCause(w) && w.prov.Deleting? && ProvisionerCall(w) == Some(w')
    ensures AllHaveCause(w')
  {
    CallsOnlyCommand(w, w');
    var Deleting(name, pv, phase) := w.prov;
    forall v ensures HasCause(w', v) {
      if v == name {
        assert PVVersion(name, pv.rv, Some(pv)) in w'.pvLog;
      } else {
        assert HasCause(w, v);
        LogOnlyGrows(w, w', v);
      }
    }
  }

  lemma StorePVHasCause(w: World, name: string, pv: PV)
    requires AllHaveCause(w) && name in w.pvs
    ensures AllHaveCause(StorePV(w, name, pv)) && AllHaveCause(RemovePV(w, name))
  {
    forall v ensures HasCause(StorePV(w, name, pv), v) && HasCause(RemovePV(w, name), v) {
      assert HasCause(w, v);
      LogOnlyGrows(w, StorePV(w, name, pv), v);
      LogOnlyGrows(w, RemovePV(w, name), v);
    }
  }

  lemma PublishHasCause(w: World, w': World)
    requires AllHaveCause(w) && w.prov.Publishing? && ProvisionerCall(w) == Some(w')
    ensures AllHaveCause(w')
  {
    forall v ensures HasCause(w', v) {
      assert HasCause(w, v);
      if v != w.prov.handle.vol { LogOnlyGrows(w, w', v); }
    }
  }

  lemma VolumeUpdateHasCause(w: World, w': World)
    requires AllHaveCause(w) && (w.prov.DroppingFinalizer? || w.prov.DeletingPV?) && ProvisionerCall(w) == Some(w')
    ensures AllHaveCause(w')
  {
    var name := w.prov.name;
    if w.prov.DroppingFinalizer? {
      var now := w.prov.pv.(finalizers := w.prov.pv.finalizers - {Driver});
      StorePVHasCause(w, name, now);
      SameCauses(StorePV(w, name, now), w');
    } else if name in w.pvs && !w.pvs[name].deleting {
      var now := w.pvs[name].(deleting := true);
      StorePVHasCause(w, name, now);
      SameCauses(StorePV(w, name, now), w');
    } else {
      SameCauses(w, w');
    }
  }

  /** What causes speak of is the same in both worlds. */
  predicate SamePast(w: World, w': World) {
    && w'.begun == w.begun && w'.pvs == w.pvs && w'.pvLog == w.pvLog
    && w'.published == w.published && w'.again == w.again
  }

  lemma SameCauses(w: World, w': World)
    requires AllHaveCause(w) && SamePast(w, w')
    ensures AllHaveCause(w')
  {
    forall v ensures HasCause(w', v) { assert HasCause(w, v); }
  }

  lemma ProvisionerHasCause(w: World, w': World)
    requires Inv(w) && AllHaveCause(w) && ProvisionerCall(w) == Some(w')
    ensures AllHaveCause(w')
  {
    if w.prov.Deleting? {
      DeletionHasCauseLogged(w, w');
    } else if w.prov.Publishing? {
      PublishHasCause(w, w');
    } else if w.prov.Creating? || w.prov.RollingBack? {
      CallsOnlyCommand(w, w');
      SameCauses(w, w');
    } else {
      VolumeUpdateHasCause(w, w');
    }
  }

  lemma StrayHasCause(w: World, name: string)
    requires AllHaveCause(w)
    ensures AllHaveCause(Strayed(w, name))
  {
    forall v ensures HasCause(Strayed(w, name), v) {
      assert HasCause(w, v);
      LogOnlyGrows(w, Strayed(w, name), v);
    }
  }

  lemma AttacherHasCause(w: World, w': World)
    requires AllHaveCause(w) && AttacherCall(w) == Some(w')
    ensures AllHaveCause(w')
  {
    AttacherCallOnlyTouches(w, w');
    if w.att.Looking? {
      StrayHasCause(w, w.att.key.pv);
      assert SamePast(w, w') || SamePast(Strayed(w, w.att.key.pv), w');
      if SamePast(w, w') { SameCauses(w, w'); } else { SameCauses(Strayed(w, w.att.key.pv), w'); }
    } else {
      SameCauses(w, w');
    }
  }

  lemma CreationHasCause(w: World, a: Action, w': World)
    requires AllHaveCause(w) && Step(w, a, w') && a.StartCreate?
    ensures AllHaveCause(w')
  {
    forall v ensures HasCause(w', v) {
      assert HasCause(w, v);
      LogOnlyGrows(w, w', v);
    }
  }

  lemma OtherStepHasCause(w: World, a: Action, w': World)
    requires AllHaveCause(w) && Step(w, a, w')
    requires !a.Provision? && !a.AttachCall? && !a.EditPV? && !a.PurgePV? && !a.StartCreate?
    ensures AllHaveCause(w')
  {
    assert SamePast(w, w');
    SameCauses(w, w');
  }

  lemma StepHasCause(w: World, a: Action, w': World)
    requires Inv(w) && AllHaveCause(w) && Step(w, a, w')
    ensures AllHaveCause(w')
  {
    if a.Provision? {
      ProvisionerHasCause(w, ProvisionerCall(w).value);
      if a.lost { SameCauses(ProvisionerCall(w).value, w'); }
    } else if a.AttachCall? {
      AttacherHasCause(w, AttacherCall(w).value);
      if a.lost { SameCauses(AttacherCall(w).value, w'); }
    } else if a.EditPV? {
      StorePVHasCause(w, a.name, a.pv);
    } else if a.PurgePV? {
      StorePVHasCause(w, a.name, w.pvs[a.name]);
    } else if a.StartCreate? {
      CreationHasCause(w, a, w');
    } else {
      OtherStepHasCause(w, a, w');
    }
  }

  lemma {:induction false} RunHasCause(run: seq<World>, i: nat)
    requires Run(run) && i < |run|
    ensures AllHaveCause(run[i])
  {
    if i > 0 {
      RunHasCause(run, i - 1);
      RunKeeps(run, i - 1);
      assert Next(run[i - 1], run[i - 1 + 1]);
      var a :| Step(run[i - 1], a, run[i]);
      StepHasCause(run[i - 1], a, run[i]);
    }
  }

  // ---------- Theorems ----------

  /**
   * A volume of whose name there was never a version both flagged and of policy Delete has its disk,
   * target and mapping, whoever has strayed.
   */
  lemma NeverDoomedIsIntact(run: seq<World>, i: nat, name: string)
    requires Run(run) && i < |run| && name in run[i].pvs && !DoomLogged(run[i].pvLog, name)
    ensures Intact(run[i].storage, run[i].pvs[name].handle)
  {
    RunKeeps(run, i);
    RunHasCause(run, i);
    assert HasCause(run[i], name);
  }

  /** A reconcile may start a deletion by this copy: it has been delivered, and no attachment is listed. */
  predicate MayDoom(w: World, name: string, copy: PV) {
    SeenPV(w, name, copy) && Doomed(copy) && NoneListed(w, name) && ListIsRecent(w, name, copy.rv)
  }

  /**
   * Conversely, once such a copy has been delivered and no attachment is listed, the volume it names
   * can be lost, whatever has become of the PersistentVolume since. Before an administrator sets
   * Retain this is what to look for.
   */
  lemma DeliveredCopyDooms(run: seq<World>, name: string, copy: PV, h: Handle)
    requires Run(run) && MayDoom(run[|run| - 1], name, copy)
    requires copy.handle.target == h.target != "" && copy.handle.path == h.path
    ensures exists w1, w2, w3 :: Run(run + [w1] + [w2] + [w3]) && !Intact(w3.storage, h)
  {
    var w := run[|run| - 1];
    var w1 := w.(prov := Resting);
    RunExtends(run, ProvisionerFails, w1);
    var w2 := w1.(prov := Deleting(name, copy, Unmap));
    RunExtends(run + [w1], StartDelete(name, copy), w2);
    var w3 := ProvisionerCall(w2).value;
    RunExtends(run + [w1] + [w2], Provision(false), w3);
    assert Run(run + [w1] + [w2] + [w3]) && !Intact(w3.storage, h);
  }
}
