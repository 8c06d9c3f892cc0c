/** What holds in every world of every run. */
module LifecycleSafety {
  import opened Results
  import opened Naming
  import opened WindowsStorage
  import opened ControllerServer
  import opened Lifecycle
  import opened LifecycleInvariants
  import opened LifecycleSteps
  import opened LifecycleWorkers
  import opened LifecycleCalls
  import opened LifecycleAttacher

  lemma EditPVStepKeeps(w: World, name: string, pv: PV, w': World)
    requires Inv(w) && EditsPV(w, name, pv, w')
    ensures Inv(w')
  {
    StorePVKeeps(w, name, pv);
  }

  lemma PurgePVStepKeeps(w: World, name: string, w': World)
    requires Inv(w) && PurgesPV(w, name, w')
    ensures Inv(w')
  {
    PurgePVKeeps(w, name);
  }

  lemma EditVAStepKeeps(w: World, key: Key, va: VA, w': World)
    requires Inv(w) && EditsVA(w, key, va, w')
    ensures Inv(w')
  {
    EditVAKeeps(w, key, va);
  }

  lemma PurgeVAStepKeeps(w: World, key: Key, w': World)
    requires Inv(w) && PurgesVA(w, key, w')
    ensures Inv(w')
  {
    PurgeVAKeeps(w, key);
  }

  lemma AttachStepKeeps(w: World, key: Key, w': World)
    requires Inv(w) && Attaches(w, key, w')
    ensures Inv(w')
  {
    AttachKeeps(w, key);
  }

  lemma RollbackStepKeeps(w: World, w': World)
    requires Inv(w) && FailsToPublish(w, w')
    ensures Inv(w')
  {
    ProvisionerMoves(w, w'.prov);
  }

  lemma ProvisionStepKeeps(w: World, lost: bool, w': World)
    requires Inv(w) && Provisions(w, lost, w')
    ensures Inv(w')
  {
    ProvisionerCallKeeps(w, ProvisionerCall(w).value);
  }

  lemma AttachCallStepKeeps(w: World, lost: bool, w': World)
    requires Inv(w) && CallsForAttachment(w, lost, w')
    ensures Inv(w')
  {
    AttacherCallKeeps(w, AttacherCall(w).value);
  }

  predicate OfVolume(a: Action) {
    a.EditPV? || a.PurgePV? || a.SeePV?
  }

  predicate OfAttachment(a: Action) {
    a.EditVA? || a.PurgeVA? || a.SeeVA? || a.Attach?
  }

  predicate OfAttacher(a: Action) {
    a.StartAttach? || a.AttachCall? || a.AttacherFails?
  }

  predicate StartsProvisioner(a: Action) {
    a.StartCreate? || a.StartDelete? || a.StartDrop?
  }

  lemma VolumeStepKeeps(w: World, a: Action, w': World)
    requires Inv(w) && Step(w, a, w') && OfVolume(a)
    ensures Inv(w')
  {
    match a {
      case EditPV(name, pv) => EditPVStepKeeps(w, name, pv, w');
      case PurgePV(name) => PurgePVStepKeeps(w, name, w');
      case SeePV(x) => SeePVKeeps(w, x, w');
    }
  }

  lemma EditVAOrPurgeKeeps(w: World, a: Action, w': World)
    requires Inv(w) && Step(w, a, w') && (a.EditVA? || a.PurgeVA?)
    ensures Inv(w')
  {
    match a {
      case EditVA(key, va) => EditVAStepKeeps(w, key, va, w');
      case PurgeVA(key) => PurgeVAStepKeeps(w, key, w');
    }
  }

  lemma AttachOrSeeKeeps(w: World, a: Action, w': World)
    requires Inv(w) && Step(w, a, w') && (a.Attach? || a.SeeVA?)
    ensures Inv(w')
  {
    match a {
      case Attach(key) => AttachStepKeeps(w, key, w');
      case SeeVA(y) => SeeVAKeeps(w, y, w');
    }
  }

  lemma AttachmentStepKeeps(w: World, a: Action, w': World)
    requires Inv(w) && Step(w, a, w') && OfAttachment(a)
    ensures Inv(w')
  {
    if a.EditVA? || a.PurgeVA? {
      EditVAOrPurgeKeeps(w, a, w');
    } else {
      AttachOrSeeKeeps(w, a, w');
    }
  }

  lemma StartAttachStepKeeps(w: World, a: Action, w': World)
    requires Inv(w) && Step(w, a, w') && a.StartAttach?
    ensures Inv(w')
  {
    StartAttachKeeps(w, a.key, w');
  }

  lemma AttacherGoesOn(w: World, a: Action, w': World)
    requires Inv(w) && Step(w, a, w') && (a.AttachCall? || a.AttacherFails?)
    ensures Inv(w')
  {
    match a {
      case AttachCall(lost) => AttachCallStepKeeps(w, lost, w');
      case AttacherFails => AttacherMayRest(w);
    }
  }

  lemma AttacherStepKeeps(w: World, a: Action, w': World)
    requires Inv(w) && Step(w, a, w') && OfAttacher(a)
    ensures Inv(w')
  {
    if a.StartAttach? {
      StartAttachStepKeeps(w, a, w');
    } else {
      AttacherGoesOn(w, a, w');
    }
  }

  lemma StartCreateStepKeeps(w: World, a: Action, w': World)
    requires Inv(w) && Step(w, a, w') && a.StartCreate?
    ensures Inv(w')
  {
    StartCreateKeeps(w, a.req, a.found, a.policy);
  }

  lemma StartRemovalStepKeeps(w: World, a: Action, w': World)
    requires Inv(w) && Step(w, a, w') && (a.StartDelete? || a.StartDrop?)
    ensures Inv(w')
  {
    match a {
      case StartDelete(name, pv) => StartDeleteKeeps(w, name, pv, w');
      case StartDrop(name, pv) => StartDropKeeps(w, name, pv, w');
    }
  }

  lemma ProvisionerStartKeeps(w: World, a: Action, w': World)
    requires Inv(w) && Step(w, a, w') && StartsProvisioner(a)
    ensures Inv(w')
  {
    if a.StartCreate? {
      StartCreateStepKeeps(w, a, w');
    } else {
      StartRemovalStepKeeps(w, a, w');
    }
  }

  lemma ProvisionerStepKeeps(w: World, a: Action, w': World)
    requires Inv(w) && Step(w, a, w') && (a.Provision? || a.PublishFails? || a.ProvisionerFails?)
    ensures Inv(w')
  {
    match a {
      case Provision(lost) => ProvisionStepKeeps(w, lost, w');
      case PublishFails => RollbackStepKeeps(w, w');
      case ProvisionerFails => ProvisionerMayRest(w);
    }
  }

  lemma StepKeeps(w: World, a: Action, w': World)
    requires Inv(w) && Step(w, a, w')
    ensures Inv(w')
  {
    if OfVolume(a) {
      VolumeStepKeeps(w, a, w');
    } else if OfAttachment(a) {
      AttachmentStepKeeps(w, a, w');
    } else if OfAttacher(a) {
      AttacherStepKeeps(w, a, w');
    } else if StartsProvisioner(a) {
      ProvisionerStartKeeps(w, a, w');
    } else {
      ProvisionerStepKeeps(w, a, w');
    }
  }

  lemma {:induction false} RunKeeps(run: seq<World>, i: nat)
    requires Run(run) && i < |run|
    ensures Inv(run[i])
  {
    if i == 0 {
      InitFits(run[0]);
    } else {
      RunKeeps(run, i - 1);
      assert Next(run[i - 1], run[i - 1 + 1]);
      var a :| Step(run[i - 1], a, run[i]);
      StepKeeps(run[i - 1], a, run[i]);
    }
  }

  // ---------- Straying ----------

  /** The attacher takes up work by a PersistentVolume cache that still shows an earlier object, or its removal. */
  predicate AttacherStrays(w: World, a: Action, vol: string) {
    && a.AttachCall? && w.att.Looking? && w.att.key.pv == vol
    && Outdated(w, vol) && !AttachPlan(w, w.att.key, w.att.va).Idle?
  }

  /** A call of a deletion goes through whose copy is of an earlier PersistentVolume. */
  predicate DeletionStrays(w: World, a: Action, vol: string) {
    && a.Provision? && w.prov.Deleting? && w.prov.name == vol && ProvisionerCall(w).Some?
    && !OfLatest(w.births, vol, w.prov.pv.rv)
  }

  /** A volume is published again that was once to be kept, or that the attacher is just working on. */
  predicate PublicationStrays(w: World, a: Action, vol: string) {
    && a.Provision? && w.prov.Publishing? && w.prov.handle.vol == vol
    && vol !in w.pvs && vol in w.births && (vol in w.kept || Holds(w.att, vol))
  }

  /** When a volume ceases to be vouched for. */
  lemma StraysExactly(w: World, a: Action, w': World, vol: string)
    requires Step(w, a, w') && vol !in w.strayed
    ensures vol in w'.strayed <==>
            || (vol in w.published && (AttacherStrays(w, a, vol) || DeletionStrays(w, a, vol)))
            || PublicationStrays(w, a, vol)
  {
    if a.Provision? {
      ProvisionerStraysExactly(w, vol);
    } else if a.AttachCall? {
      AttacherStraysExactly(w, vol);
    } else {
      OthersStrayNever(w, a, w');
    }
  }

  lemma OthersStrayNever(w: World, a: Action, w': World)
    requires Step(w, a, w') && !a.Provision? && !a.AttachCall?
    ensures w'.strayed == w.strayed
  {
    if a.EditPV? { StorePVOnly(w, a.name, a.pv); }
    if a.EditVA? { StoreVAOnly(w, a.key, a.va); }
  }

  lemma ProvisionerStraysExactly(w: World, vol: string)
    requires ProvisionerCall(w).Some? && vol !in w.strayed
    ensures vol in ProvisionerCall(w).value.strayed <==>
            || (vol in w.published && DeletionStrays(w, Provision(false), vol))
            || PublicationStrays(w, Provision(false), vol)
  {
    ProvisionerStrays(w, ProvisionerCall(w).value);
  }

  lemma ProvisionerStrays(w: World, w': World)
    requires ProvisionerCall(w) == Some(w')
    ensures w.prov.Deleting? ==> w'.strayed == ActedOn(w, w.prov.name, w.prov.pv.rv).strayed
    ensures w.prov.Publishing? ==>
              w'.strayed == if w.prov.handle.vol in w.pvs || Fresh(w, w.prov.handle.vol) then w.strayed
                            else w.strayed + {w.prov.handle.vol}
    ensures !w.prov.Deleting? && !w.prov.Publishing? ==> w'.strayed == w.strayed
  {
    match w.prov {
      case Creating(_, _, _, _) => CreateCallIs(w, w');
      case RollingBack(_, _) => RollbackCallIs(w, w');
      case Deleting(_, _, _) => DeleteIs(w, w');
      case Publishing(_, _) => PublishIs(w, w');
      case _ => VolumeUpdateIs(w, w');
    }
  }

  lemma AttacherStraysExactly(w: World, vol: string)
    requires AttacherCall(w).Some? && vol !in w.strayed
    ensures vol in AttacherCall(w).value.strayed <==> vol in w.published && AttacherStrays(w, AttachCall(false), vol)
  {
    var w' := AttacherCall(w).value;
    match w.att {
      case Looking(_, _) => LookIs(w, w');
      case Refetching(_, _) => RefetchIs(w, w');
      case Allowing(_, _, _) => AllowIs(w, w');
      case Denying(_, _, _) => DenyIs(w, w');
      case _ => AttachmentUpdateIs(w, w');
    }
  }

  // ---------- Theorems over whole runs ----------

  /**
   * Access lists never outlive attachments. Whoever may connect to a target has a
   * VolumeAttachment of that volume which still carries the driver's finalizer; the one exception
   * is a volume whose PersistentVolume has gone without its backend, which the driver lets happen
   * only if the reclaim policy was once other than Delete. It does not matter how often the name was
   * used before, as long as no worker has strayed (`StraysExactly`).
   */
  lemma AccessNeverOutlivesAttachment(run: seq<World>, i: nat, target: string, node: string)
    requires Run(run) && i < |run|
    requires Admitted(run[i].storage, target, node) && TargetOwner(target) !in run[i].strayed
    ensures var w, vol := run[i], TargetOwner(target);
            && (vol in w.published ==> w.published[vol].target == target)
            && (vol in w.pvs || vol !in w.kept ==>
                  && vol in w.published
                  && Key(vol, node) in w.vas && Driver in w.vas[Key(vol, node)].finalizers)
  {
    RunKeeps(run, i);
    var w, vol := run[i], TargetOwner(target);
    assert AdmissionJustified(target, node, w.vas, w.pvCache, w.births, w.published, w.strayed, w.kept);
    assert vol in w.pvCache ==> w.pvCache[vol] in w.pvLog && w.pvCache[vol].name == vol;
    assert SeenGone(w.pvCache, w.births, vol) ==> PVVersionBinds(w.pvCache[vol], w.pvs);
  }

  /**
   * Storage is never deleted under an attachment by a copy of the PersistentVolume there is: in any
   * world where a deletion is under way whose copy was made since the latest creation of the object,
   * no VolumeAttachment of the volume exists, however often the name was used before. Unless a worker
   * has strayed, whoever may still connect was left behind when the PersistentVolume went without its
   * backend. No deletion reaches another volume.
   */
  lemma NeverDeletedUnderAttachment(run: seq<World>, i: nat)
    requires Run(run) && i < |run| && run[i].prov.Deleting?
    ensures var w, name := run[i], run[i].prov.name;
            var current := OfLatest(w.births, name, w.prov.pv.rv);
            && (current ==> forall k :: k in w.vas ==> k.pv != name)
            && (current && name !in w.strayed ==>
                  forall t, n :: TargetOwner(t) == name && Admitted(w.storage, t, n) ==> name !in w.pvs && name in w.kept)
            && (forall w' :: ProvisionerCall(w) == Some(w') ==> SameElsewhere(w.storage, w'.storage, name))
  {
    var w := run[i];
    RunKeeps(run, i);
    DeletionFits(w);
    var Deleting(name, pv, phase) := w.prov;
    if OfLatest(w.births, name, pv.rv) && name !in w.strayed {
      forall t, n | TargetOwner(t) == name && Admitted(w.storage, t, n) ensures name !in w.pvs && name in w.kept {
        AccessNeverOutlivesAttachment(run, i, t, n);
      }
    }
    forall w' | ProvisionerCall(w) == Some(w') ensures SameElsewhere(w.storage, w'.storage, name) {
      CommandStaysHome(w.storage, DeleteCommand(pv.handle, phase), name, w'.storage);
    }
  }

  /**
   * A volume has its disk, target and mapping exactly until its deletion takes its first effect,
   * which it never does while the PersistentVolume is neither Released nor deleting, or while there
   * is any attachment. A volume on which a worker has strayed also has them until a deletion takes
   * effect on it; but that may then happen at any time, from a copy of an earlier PersistentVolume
   * (`Hazards.RecreatedVolumeIsLost`).
   */
  lemma LiveVolumesAreIntact(run: seq<World>, i: nat, name: string)
    requires Run(run) && i < |run| && name in run[i].pvs
    ensures var w := run[i];
            && (name !in w.strayed ==> (Intact(w.storage, w.pvs[name].handle) <==> name !in w.begun))
            && (name !in w.strayed && (!Flagged(w.pvs[name]) || (exists k :: k in w.vas && k.pv == name)) ==> name !in w.begun)
            && (name in w.again ==> Intact(w.storage, w.pvs[name].handle))
  {
    RunKeeps(run, i);
  }

  /** Of a volume on which a worker has strayed only a call of a deletion ends that it is intact. */
  lemma AgainUntilDeleted(run: seq<World>, i: nat, a: Action, name: string)
    requires Run(run) && i + 1 < |run| && Step(run[i], a, run[i + 1])
    requires name in run[i].again && name !in run[i + 1].again && name in run[i].pvs
    ensures a.Provision? && run[i].prov.Deleting? && run[i].prov.name == name
  {
    StepLeavesAgain(run[i], a, run[i + 1], name);
  }

  lemma StepLeavesAgain(w: World, a: Action, w': World, name: string)
    requires Step(w, a, w') && name in w.again && name !in w'.again && name in w.pvs
    ensures a.Provision? && w.prov.Deleting? && w.prov.name == name
  {
    if a.Provision? {
      LeavesAgainByCall(w, name);
    } else if a.AttachCall? {
      AttacherBeginsNothing(w);
    } else {
      OthersKeepAgain(w, a, w', name);
    }
  }

  lemma OthersKeepAgain(w: World, a: Action, w': World, name: string)
    requires Step(w, a, w') && !a.Provision? && !a.AttachCall? && name in w.again && name in w.pvs
    ensures name in w'.again
  {
  }

  lemma LeavesAgainByCall(w: World, name: string)
    requires ProvisionerCall(w).Some? && name in w.again && name !in ProvisionerCall(w).value.again
    ensures w.prov.Deleting? && w.prov.name == name
  {
    if !(w.prov.Deleting? && w.prov.name == name) { ProvisionerCallTouches(w, name); }
  }

  /** Only calls of deletions begin one, or take effect on a volume that is intact still. */
  lemma ProvisionerCallTouches(w: World, name: string)
    requires ProvisionerCall(w).Some? && !(w.prov.Deleting? && w.prov.name == name)
    ensures var w' := ProvisionerCall(w).value;
            (name in w'.begun ==> name in w.begun) && (name in w.again ==> name in w'.again)
  {
    var w' := ProvisionerCall(w).value;
    match w.prov {
      case Creating(_, _, _, _) => CreateCallIs(w, w');
      case RollingBack(_, _) => RollbackCallIs(w, w');
      case Deleting(_, _, _) => DeleteIs(w, w');
      case Publishing(_, _) => PublishIs(w, w');
      case _ => VolumeUpdateIs(w, w');
    }
  }

  /** Nothing but a call of a deletion begins one. */
  lemma StepBegins(w: World, a: Action, w': World, name: string)
    requires Step(w, a, w') && name !in w.begun && name in w'.begun
    ensures a.Provision? && w.prov.Deleting? && w.prov.name == name
  {
    if a.Provision? {
      BegunByCall(w, name);
    } else if a.AttachCall? {
      AttacherBeginsNothing(w);
    }
  }

  /** A deletion takes effect only from a copy that shows the volume flagged and its policy Delete. */
  lemma DeletionHasCause(run: seq<World>, i: nat, a: Action, name: string)
    requires Run(run) && i + 1 < |run| && Step(run[i], a, run[i + 1])
    requires name !in run[i].begun && name in run[i + 1].begun
    ensures var prov := run[i].prov;
            && prov.Deleting? && prov.name == name && Flagged(prov.pv) && prov.pv.policy.Delete?
            && PVVersion(name, prov.pv.rv, Some(prov.pv)) in run[i].pvLog
  {
    RunKeeps(run, i);
    StepBegins(run[i], a, run[i + 1], name);
  }

  lemma BegunByCall(w: World, name: string)
    requires ProvisionerCall(w).Some? && name !in w.begun && name in ProvisionerCall(w).value.begun
    ensures w.prov.Deleting? && w.prov.name == name
  {
    if !(w.prov.Deleting? && w.prov.name == name) { ProvisionerCallTouches(w, name); }
  }

  lemma AttacherBeginsNothing(w: World)
    requires AttacherCall(w).Some?
    ensures AttacherCall(w).value.begun == w.begun && w.again.Keys <= AttacherCall(w).value.again.Keys
  {
    var w' := AttacherCall(w).value;
    match w.att {
      case Looking(_, _) => LookIs(w, w');
      case Refetching(_, _) => RefetchIs(w, w');
      case Allowing(_, _, _) => AllowIs(w, w');
      case Denying(_, _, _) => DenyIs(w, w');
      case _ => AttachmentUpdateIs(w, w');
    }
  }

  /** LUN 0 is right: a target never has more than one disk, a disk never more than one target. */
  lemma OneDiskPerTarget(run: seq<World>, i: nat, t: string, u: string, p: string, q: string)
    requires Run(run) && i < |run|
    requires MapsTo(run[i].storage, t, p) && MapsTo(run[i].storage, u, q)
    ensures t == u <==> p == q
  {
    RunKeeps(run, i);
    var s := run[i].storage;
    assert PathOwner(p) == TargetOwner(t) && IsRegistered(s, p);
    assert PathOwner(q) == TargetOwner(u) && IsRegistered(s, q);
  }

  /** Whatever the API server shows as Attached and not deleting can connect, unless a worker has strayed. */
  lemma AttachedCanConnect(run: seq<World>, i: nat, key: Key)
    requires Run(run) && i < |run| && key in run[i].vas && key.pv !in run[i].strayed
    requires key.pv in run[i].published || key.pv in run[i].pvs || key.pv !in run[i].kept
    requires run[i].vas[key].attached && !run[i].vas[key].deleting
    ensures var w := run[i];
            && Driver in w.vas[key].finalizers && key.pv in w.published
            && Intact(w.storage, w.published[key.pv])
            && Admitted(w.storage, w.published[key.pv].target, key.node)
  {
    RunKeeps(run, i);
  }
}
