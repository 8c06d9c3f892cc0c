/** What the workers' plans rest on, and what each of their calls does. */
module Plans {
  import opened Results
  import opened Naming
  import opened WindowsStorage
  import opened ControllerServer
  import opened Lifecycle
  import opened LifecycleInvariants
  import opened LifecycleSteps
  import opened LifecycleWorkers
  import opened LifecycleCalls
  import opened LifecycleAttacher
  import opened LifecycleSafety
  import opened LifecycleProgress

  predicate SameIncarnation(vas: map<Key, VA>, key: Key, va: VA) {
    key in vas && vas[key].born == va.born
  }

  predicate AttacherPlans(vas: map<Key, VA>, att: Attacher) {
    match att
    case Idle => true
    case Looking(key, va) => !va.deleting && Driver in va.finalizers ==> SameIncarnation(vas, key, va)
    case Marking(key, va, h) => !va.attached && Driver !in va.finalizers
    case Refetching(key, h) => key in vas ==> !vas[key].attached
    case Allowing(key, va, h) => !va.attached && SameIncarnation(vas, key, va)
    case Reporting(key, va, h) => !va.attached && SameIncarnation(vas, key, va)
    case Denying(key, va, h) => Driver in va.finalizers
    case Unmarking(key, va) => Driver in va.finalizers
  }

  predicate ProvisionerPlans(prov: Provisioner) {
    prov.DroppingFinalizer? ==> Driver in prov.pv.finalizers
  }

  /** A deleting attachment stays so in all later versions of the same incarnation. */
  predicate DeletionLasts(vaLog: set<VAVersion>) {
    forall y, z :: y in vaLog && z in vaLog && StillDeleting(y, z) ==> z.va.value.deleting
  }

  predicate StillDeleting(y: VAVersion, z: VAVersion) {
    && y.key == z.key && y.va.Some? && z.va.Some? && y.va.value.born == z.va.value.born && y.rv <= z.rv
    && y.va.value.deleting
  }

  predicate PlansFit(w: World) {
    AttacherPlans(w.vas, w.att) && ProvisionerPlans(w.prov) && DeletionLasts(w.vaLog)
  }

  lemma PutVAKeepsDeletion(w: World, key: Key, va: VA)
    requires AttachmentsFit(w) && DeletionLasts(w.vaLog)
    requires key in w.vas ==> va.born == w.vas[key].born && (w.vas[key].deleting ==> va.deleting)
    requires key !in w.vas ==> va.born > w.rev
    ensures DeletionLasts(PutVA(w, key, va).vaLog)
  {
    var w' := PutVA(w, key, va);
    forall y, z | y in w'.vaLog && z in w'.vaLog && StillDeleting(y, z) ensures z.va.value.deleting {
      if y in w.vaLog && z !in w.vaLog && key in w.vas { assert VAVersionBinds(y, w.vas[key]); }
    }
  }

  lemma RemoveVAKeepsDeletion(w: World, key: Key)
    requires DeletionLasts(w.vaLog)
    ensures DeletionLasts(RemoveVA(w, key).vaLog)
  {
  }

  lemma StoreVAKeepsDeletion(w: World, key: Key, va: VA)
    requires AttachmentsFit(w) && DeletionLasts(w.vaLog) && key in w.vas
    requires va.born == w.vas[key].born && (w.vas[key].deleting ==> va.deleting)
    ensures DeletionLasts(StoreVA(w, key, va).vaLog)
  {
    if va.deleting && va.finalizers == {} { RemoveVAKeepsDeletion(w, key); } else { PutVAKeepsDeletion(w, key, va); }
  }

  /** What others may do to attachments leaves the attacher's plans alone. */
  lemma PlansOutlastEdits(w: World, key: Key, va: VA)
    requires AttacherFits(w) && AttacherPlans(w.vas, w.att) && key in w.vas && VAMayBecome(w.vas[key], va)
    ensures AttacherPlans(StoreVA(w, key, va).vas, w.att)
  {
    if va.deleting && va.finalizers == {} { PlansOutlastPurges(w, key); } else { PlansOutlastUpdates(w, key, va); }
  }

  lemma PlansOutlastUpdates(w: World, key: Key, va: VA)
    requires AttacherPlans(w.vas, w.att) && key in w.vas && va.born == w.vas[key].born && va.attached == w.vas[key].attached
    ensures AttacherPlans(PutVA(w, key, va).vas, w.att)
  {
  }

  lemma PlansOutlastPurges(w: World, key: Key)
    requires AttacherFits(w) && AttacherPlans(w.vas, w.att) && key in w.vas && Driver !in w.vas[key].finalizers
    ensures AttacherPlans(RemoveVA(w, key).vas, w.att)
  {
  }

  lemma PlansOutlastAttach(w: World, key: Key)
    requires AttacherFits(w) && AttacherPlans(w.vas, w.att) && key !in w.vas
    ensures AttacherPlans(PutVA(w, key, NewVA(w)).vas, w.att)
  {
  }

  /** A copy with the finalizer that is not deleting is of the current incarnation. */
  lemma StartAttachPlans(w: World, key: Key, w': World)
    requires AttachmentsFit(w) && PlansFit(w) && StartsAttachment(w, key, w')
    ensures PlansFit(w')
  {
    var va := w.vaCache[key].va.value;
    if !va.deleting && Driver in va.finalizers {
      assert w.vaCache[key] in w.vaLog && MarkedLive(w.vaCache[key]);
    }
  }

  lemma LookPlans(w: World)
    requires PlansFit(w) && w.att.Looking?
    ensures PlansFit(AttacherCall(w).value)
  {
  }

  // ---------- Calls keep the plans ----------

  lemma UpdatePlans(w: World, key: Key, va: VA, now: VA, next: Attacher)
    requires AttachmentsFit(w) && PlansFit(w) && VAVersion(key, va.rv, Some(va)) in w.vaLog
    requires key in w.vas && w.vas[key].rv == va.rv && now.born == va.born && (va.deleting ==> now.deleting)
    requires next.Idle? || (next.Refetching? && next.key == key && !now.attached)
    ensures PlansFit(StoreVA(w, key, now).(att := next))
  {
    CopyIsCurrent(w, key, va);
    StoreVAKeepsDeletion(w, key, now);
  }

  lemma UpdateCallPlans(w: World, w': World)
    requires Inv(w) && PlansFit(w) && AttacherCall(w) == Some(w')
    requires w.att.Marking? || w.att.Reporting? || w.att.Unmarking?
    ensures PlansFit(w')
  {
    match w.att {
      case Marking(key, va, h) =>
        MarkIs(w, w');
        UpdatePlans(w, key, va, va.(finalizers := va.finalizers + {Driver}), Refetching(key, h));
      case Reporting(key, va, h) =>
        ReportIs(w, w');
        UpdatePlans(w, key, va, va.(attached := true), Idle);
      case Unmarking(key, va) =>
        UnmarkIs(w, w');
        UpdatePlans(w, key, va, va.(finalizers := va.finalizers - {Driver}), Idle);
    }
  }

  lemma AccessCallPlans(w: World, w': World)
    requires PlansFit(w) && AttacherCall(w) == Some(w')
    requires w.att.Allowing? || w.att.Denying?
    ensures PlansFit(w')
  {
    if w.att.Allowing? { AllowIs(w, w'); } else { DenyIs(w, w'); }
  }

  lemma AttacherCallPlans(w: World, w': World)
    requires Inv(w) && PlansFit(w) && AttacherCall(w) == Some(w')
    ensures PlansFit(w')
  {
    if w.att.Looking? {
      LookPlans(w);
    } else if w.att.Refetching? {
      RefetchIs(w, w');
    } else if w.att.Allowing? || w.att.Denying? {
      AccessCallPlans(w, w');
    } else {
      UpdateCallPlans(w, w');
    }
  }

  lemma CommandCallPlans(w: World, w': World)
    requires PlansFit(w) && ProvisionerCall(w) == Some(w')
    requires w.prov.Creating? || w.prov.RollingBack? || w.prov.Deleting?
    ensures PlansFit(w')
  {
    match w.prov {
      case Creating(_, _, _, _) => CreateCallIs(w, w');
      case RollingBack(_, _) => RollbackCallIs(w, w');
      case Deleting(_, _, _) => DeleteIs(w, w');
    }
  }

  lemma UpdatePVCallPlans(w: World, w': World)
    requires PlansFit(w) && ProvisionerCall(w) == Some(w')
    requires w.prov.DroppingFinalizer? || w.prov.DeletingPV?
    ensures PlansFit(w')
  {
    VolumeUpdateIs(w, w');
  }

  lemma ProvisionerCallPlans(w: World, w': World)
    requires PlansFit(w) && ProvisionerCall(w) == Some(w')
    ensures PlansFit(w')
  {
    if w.prov.Publishing? {
      PublishIs(w, w');
    } else if w.prov.DroppingFinalizer? || w.prov.DeletingPV? {
      UpdatePVCallPlans(w, w');
    } else {
      CommandCallPlans(w, w');
    }
  }

  lemma ProvisionPlans(w: World, lost: bool, w': World)
    requires PlansFit(w) && Provisions(w, lost, w')
    ensures PlansFit(w')
  {
    ProvisionerCallPlans(w, ProvisionerCall(w).value);
  }

  lemma AttachCallPlans(w: World, lost: bool, w': World)
    requires Inv(w) && PlansFit(w) && CallsForAttachment(w, lost, w')
    ensures PlansFit(w')
  {
    AttacherCallPlans(w, AttacherCall(w).value);
  }

  lemma EditPlans(w: World, key: Key, va: VA, w': World)
    requires AttachmentsFit(w) && AttacherFits(w) && PlansFit(w) && EditsVA(w, key, va, w')
    ensures PlansFit(w')
  {
    StoreVAKeepsDeletion(w, key, va);
    PlansOutlastEdits(w, key, va);
    StoreVAOnly(w, key, va);
  }

  lemma PurgePlans(w: World, key: Key, w': World)
    requires Inv(w) && PlansFit(w) && PurgesVA(w, key, w')
    ensures PlansFit(w')
  {
    RemoveVAKeepsDeletion(w, key);
    PlansOutlastPurges(w, key);
  }

  lemma NewPlans(w: World, key: Key, w': World)
    requires Inv(w) && PlansFit(w) && Attaches(w, key, w')
    ensures PlansFit(w')
  {
    PutVAKeepsDeletion(w, key, NewVA(w));
    PlansOutlastAttach(w, key);
  }

  predicate LeavesPlans(a: Action) {
    !OfAttachment(a) && !a.StartAttach? && !a.AttachCall? && !a.Provision?
  }

  lemma OtherStepPlans(w: World, a: Action, w': World)
    requires PlansFit(w) && Step(w, a, w') && LeavesPlans(a)
    ensures PlansFit(w')
  {
    OtherStepLeaves(w, a, w');
  }

  lemma OtherStepLeaves(w: World, a: Action, w': World)
    requires Step(w, a, w') && LeavesPlans(a)
    ensures w'.vas == w.vas && w'.vaLog == w.vaLog && (w'.att == w.att || w'.att.Idle?)
    ensures w'.prov == w.prov || ProvisionerPlans(w'.prov)
  {
    if a.EditPV? { StorePVOnly(w, a.name, a.pv); }
  }

  lemma AttachmentStepPlans(w: World, a: Action, w': World)
    requires Inv(w) && PlansFit(w) && Step(w, a, w') && OfAttachment(a)
    ensures PlansFit(w')
  {
    match a {
      case EditVA(key, va) => EditPlans(w, key, va, w');
      case PurgeVA(key) => PurgePlans(w, key, w');
      case Attach(key) => NewPlans(w, key, w');
      case SeeVA(_) =>
    }
  }

  lemma WorkerStepPlans(w: World, a: Action, w': World)
    requires Inv(w) && PlansFit(w) && Step(w, a, w') && (a.StartAttach? || a.AttachCall? || a.Provision?)
    ensures PlansFit(w')
  {
    match a {
      case StartAttach(key) => StartAttachPlans(w, key, w');
      case AttachCall(lost) => AttachCallPlans(w, lost, w');
      case Provision(lost) => ProvisionPlans(w, lost, w');
    }
  }

  lemma StepKeepsPlans(w: World, a: Action, w': World)
    requires Inv(w) && PlansFit(w) && Step(w, a, w')
    ensures PlansFit(w')
  {
    if LeavesPlans(a) {
      OtherStepPlans(w, a, w');
    } else if OfAttachment(a) {
      AttachmentStepPlans(w, a, w');
    } else {
      WorkerStepPlans(w, a, w');
    }
  }

  lemma {:induction false} RunKeepsPlans(run: seq<World>, i: nat)
    requires Run(run) && i < |run|
    ensures PlansFit(run[i])
  {
    if i > 0 {
      RunKeepsPlans(run, i - 1);
      RunKeeps(run, i - 1);
      assert Next(run[i - 1], run[i - 1 + 1]);
      var a :| Step(run[i - 1], a, run[i]);
      StepKeepsPlans(run[i - 1], a, run[i]);
    }
  }
}
