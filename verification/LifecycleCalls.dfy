/** What each call of the two workers is, and what it leaves alone. */
module LifecycleCalls {
  import opened Results
  import opened Naming
  import opened WindowsStorage
  import opened ControllerServer
  import opened Lifecycle
  import opened LifecycleWorkers

  // ---------- Writes to the API server ----------

  lemma StorePVOnly(w: World, name: string, pv: PV)
    ensures var w' := StorePV(w, name, pv);
            w' == w.(rev := w.rev + 1, pvs := w'.pvs, pvLog := w'.pvLog, kept := w'.kept)
  {
  }

  lemma StoreVAOnly(w: World, key: Key, va: VA)
    ensures var w' := StoreVA(w, key, va); w' == w.(rev := w.rev + 1, vas := w'.vas, vaLog := w'.vaLog)
  {
  }

  // ---------- The attacher ----------

  lemma MarkIs(w: World, w': World)
    requires w.att.Marking? && AttacherCall(w) == Some(w')
    ensures var Marking(key, va, h) := w.att;
            && key in w.vas && w.vas[key].rv == va.rv
            && w' == StoreVA(w, key, va.(finalizers := va.finalizers + {Driver})).(att := Refetching(key, h))
  {
  }

  lemma RefetchIs(w: World, w': World)
    requires w.att.Refetching? && AttacherCall(w) == Some(w')
    ensures w.att.key in w.vas && w' == w.(att := Allowing(w.att.key, w.vas[w.att.key], w.att.handle))
  {
  }

  lemma AllowIs(w: World, w': World)
    requires w.att.Allowing? && AttacherCall(w) == Some(w')
    ensures var Allowing(key, va, h) := w.att;
            && Apply(w.storage, Command.Allow(FirstNonEmpty(h.target, h.iqn), key.node)) == Ok(w'.storage)
            && w' == w.(storage := w'.storage, att := Reporting(key, va, h))
  {
  }

  lemma ReportIs(w: World, w': World)
    requires w.att.Reporting? && AttacherCall(w) == Some(w')
    ensures var Reporting(key, va, h) := w.att;
            && key in w.vas && w.vas[key].rv == va.rv
            && w' == StoreVA(w, key, va.(attached := true)).(att := Idle)
  {
  }

  lemma DenyIs(w: World, w': World)
    requires w.att.Denying? && AttacherCall(w) == Some(w')
    ensures var Denying(key, va, h) := w.att;
            && Apply(w.storage, Command.Deny(FirstNonEmpty(h.target, h.iqn), key.node)) == Ok(w'.storage)
            && w' == w.(storage := w'.storage, att := Unmarking(key, va))
  {
  }

  lemma UnmarkIs(w: World, w': World)
    requires w.att.Unmarking? && AttacherCall(w) == Some(w')
    ensures var Unmarking(key, va) := w.att;
            && key in w.vas && w.vas[key].rv == va.rv
            && w' == StoreVA(w, key, va.(finalizers := va.finalizers - {Driver})).(att := Idle)
  {
  }

  /** The updates change attachments and nothing else. */
  lemma AttachmentUpdateIs(w: World, w': World)
    requires w.att.Marking? || w.att.Reporting? || w.att.Unmarking?
    requires AttacherCall(w) == Some(w')
    ensures w' == w.(rev := w.rev + 1, vas := w'.vas, vaLog := w'.vaLog, att := w'.att)
  {
    match w.att {
      case Marking(key, va, _) =>
        MarkIs(w, w');
        StoreVAOnly(w, key, va.(finalizers := va.finalizers + {Driver}));
      case Reporting(key, va, _) =>
        ReportIs(w, w');
        StoreVAOnly(w, key, va.(attached := true));
      case Unmarking(key, va) =>
        UnmarkIs(w, w');
        StoreVAOnly(w, key, va.(finalizers := va.finalizers - {Driver}));
    }
  }

  lemma LookIs(w: World, w': World)
    requires w.att.Looking? && AttacherCall(w) == Some(w')
    ensures w' == Looked(w, w.att.key, w.att.va)
  {
  }

  // ---------- The provisioner ----------

  lemma PublishIs(w: World, w': World)
    requires w.prov.Publishing? && ProvisionerCall(w) == Some(w')
    ensures w' == if w.prov.handle.vol in w.pvs then w.(prov := Resting) else Published(w, w.prov.handle, w.prov.policy)
  {
  }

  lemma DeleteIs(w: World, w': World)
    requires w.prov.Deleting? && ProvisionerCall(w) == Some(w')
    ensures var Deleting(name, pv, phase) := w.prov;
            && Apply(w.storage, DeleteCommand(pv.handle, phase)) == Ok(w'.storage)
            && w' == Judged(w).(storage := w'.storage, begun := w.begun + {name}, again := Judged(w).again - {name},
                                prov := if phase.DropTarget? then AfterDeletion(name, pv) else Deleting(name, pv, AfterPhase(phase)))
  {
  }

  lemma DropIs(w: World, w': World)
    requires w.prov.DroppingFinalizer? && ProvisionerCall(w) == Some(w')
    ensures var DroppingFinalizer(name, pv) := w.prov;
            && name in w.pvs && w.pvs[name].rv == pv.rv
            && w' == StorePV(w, name, pv.(finalizers := pv.finalizers - {Driver})).(prov := AfterDropping(name, pv))
  {
  }

  lemma DeletePVIs(w: World, w': World)
    requires w.prov.DeletingPV? && ProvisionerCall(w) == Some(w')
    ensures var name := w.prov.name;
            w' == if name !in w.pvs || w.pvs[name].deleting then w.(prov := Resting)
                  else StorePV(w, name, w.pvs[name].(deleting := true)).(prov := Resting)
  {
  }

  /** The updates change one PersistentVolume and nothing else. */
  lemma VolumeUpdateIs(w: World, w': World)
    requires w.prov.DroppingFinalizer? || w.prov.DeletingPV?
    requires ProvisionerCall(w) == Some(w')
    ensures w' == w.(rev := w'.rev, pvs := w'.pvs, pvLog := w'.pvLog, kept := w'.kept, prov := w'.prov)
    ensures w'.rev == w.rev ==> w' == w.(prov := Resting)
    ensures w'.prov.Resting? || w'.prov.DeletingPV?
  {
    if w.prov.DroppingFinalizer? { DropUpdates(w, w'); } else { DeletePVUpdates(w, w'); }
  }

  lemma DropUpdates(w: World, w': World)
    requires w.prov.DroppingFinalizer? && ProvisionerCall(w) == Some(w')
    ensures w' == w.(rev := w.rev + 1, pvs := w'.pvs, pvLog := w'.pvLog, kept := w'.kept, prov := w'.prov)
    ensures w'.prov.Resting? || w'.prov.DeletingPV?
  {
    DropIs(w, w');
    StorePVOnly(w, w.prov.name, w.prov.pv.(finalizers := w.prov.pv.finalizers - {Driver}));
  }

  lemma DeletePVUpdates(w: World, w': World)
    requires w.prov.DeletingPV? && ProvisionerCall(w) == Some(w')
    ensures || w' == w.(prov := Resting)
            || w' == w.(rev := w.rev + 1, pvs := w'.pvs, pvLog := w'.pvLog, kept := w'.kept, prov := Resting)
  {
    var name := w.prov.name;
    DeletePVIs(w, w');
    if name in w.pvs { StorePVOnly(w, name, w.pvs[name].(deleting := true)); }
  }
}
