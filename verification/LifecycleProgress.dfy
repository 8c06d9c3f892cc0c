/** What the workers need besides safety so that none of their calls is refused for good. */
module LifecycleProgress {
  import opened Results
  import opened Naming
  import opened WindowsStorage
  import opened ControllerServer
  import opened Lifecycle
  import opened LifecycleInvariants
  import opened LifecycleSteps
  import opened LifecycleCommands
  import opened LifecycleWorkers
  import opened LifecycleCalls
  import opened LifecycleAttacher
  import opened LifecycleSafety

  /** A published volume has no disk but its own, mapped nowhere but at its own target. */
  ghost predicate AtHome(s: Storage, published: map<string, Handle>) {
    forall v :: v in published ==> HandleAtHome(s, v, published[v])
  }

  ghost predicate HandleAtHome(s: Storage, vol: string, h: Handle) {
    && (forall p :: p in s.disks && PathOwner(p) == vol ==> p == h.path)
    && (forall t :: t in s.targets && h.path in s.targets[t].luns ==> t == h.target)
  }

  ghost predicate RemovalLogged(vaLog: set<VAVersion>, key: Key, rv: nat) {
    exists y :: y in vaLog && y.key == key && y.va.None? && rv <= y.rv
  }

  /** Of every attachment that was there and is not, the informer will yet be told. */
  ghost predicate RemovalsLogged(vaLog: set<VAVersion>, vas: map<Key, VA>) {
    forall y :: WillBeTold(vaLog, vas, y)
  }

  ghost predicate WillBeTold(vaLog: set<VAVersion>, vas: map<Key, VA>, y: VAVersion) {
    y in vaLog && y.key !in vas ==> RemovalLogged(vaLog, y.key, y.rv)
  }

  /** The object is the latest of its versions. */
  predicate PVsLatest(pvLog: set<PVVersion>, pvs: map<string, PV>) {
    forall x :: x in pvLog && x.name in pvs ==> x.rv <= pvs[x.name].rv
  }

  /** A deleting attachment is there only as long as some finalizer holds it. */
  predicate NoneLingers(vas: map<Key, VA>) {
    forall k :: k in vas ==> !vas[k].deleting || vas[k].finalizers != {}
  }

  ghost predicate Tidy(w: World) {
    && AtHome(w.storage, w.published) && RemovalsLogged(w.vaLog, w.vas)
    && PVsLatest(w.pvLog, w.pvs) && NoneLingers(w.vas)
  }

  lemma StorePVStaysLatest(w: World, name: string, pv: PV)
    requires PVsLatest(w.pvLog, w.pvs) && PVLogSound(w.pvLog, w.rev, w.births, w.published, w.kept)
    ensures PVsLatest(PutPV(w, name, pv).pvLog, PutPV(w, name, pv).pvs)
    ensures PVsLatest(RemovePV(w, name).pvLog, RemovePV(w, name).pvs)
  {
    forall x | x in w.pvLog ensures x.rv <= w.rev { assert PVVersionSound(x, w.rev, w.births, w.published, w.kept); }
  }

  lemma LogGrows(before: set<VAVersion>, after: set<VAVersion>, key: Key, rv: nat)
    requires RemovalLogged(before, key, rv) && before <= after
    ensures RemovalLogged(after, key, rv)
  {
  }

  lemma PutVAStaysLogged(w: World, key: Key, va: VA)
    requires RemovalsLogged(w.vaLog, w.vas) && NoneLingers(w.vas)
    ensures RemovalsLogged(PutVA(w, key, va).vaLog, PutVA(w, key, va).vas)
    ensures !va.deleting || va.finalizers != {} ==> NoneLingers(PutVA(w, key, va).vas)
  {
    var w' := PutVA(w, key, va);
    forall y ensures WillBeTold(w'.vaLog, w'.vas, y) {
      assert WillBeTold(w.vaLog, w.vas, y);
      if y in w'.vaLog && y.key !in w'.vas { LogGrows(w.vaLog, w'.vaLog, y.key, y.rv); }
    }
  }

  lemma RemoveVAStaysLogged(w: World, key: Key)
    requires RemovalsLogged(w.vaLog, w.vas) && NoneLingers(w.vas) && VALogSound(w.vaLog, w.rev)
    ensures RemovalsLogged(RemoveVA(w, key).vaLog, RemoveVA(w, key).vas) && NoneLingers(RemoveVA(w, key).vas)
  {
    var w' := RemoveVA(w, key);
    var gone := VAVersion(key, w.rev + 1, None);
    forall y ensures WillBeTold(w'.vaLog, w'.vas, y) {
      assert WillBeTold(w.vaLog, w.vas, y);
      if y.key == key {
        assert gone in w'.vaLog;
      } else if y in w'.vaLog && y.key !in w'.vas {
        LogGrows(w.vaLog, w'.vaLog, y.key, y.rv);
      }
    }
  }

  lemma CommandStaysAtHome(s: Storage, c: Command, vol: string, s': Storage, published: map<string, Handle>)
    requires HandlesFit(published) && AtHome(s, published) && Touches(c, vol) && Apply(s, c) == Ok(s')
    requires c.NewDisk? || c.AddMapping? ==> vol !in published
    ensures AtHome(s', published)
  {
    forall v | v in published ensures HandleAtHome(s', v, published[v]) {
      assert HandleFits(v, published[v]) && HandleAtHome(s, v, published[v]);
    }
  }

  lemma PublishedIsAtHome(w: World, h: Handle)
    requires AtHome(w.storage, w.published) && MappedOnce(w.storage) && OneDiskPerVolume(w.storage)
    requires HandleFits(h.vol, h) && Intact(w.storage, h)
    ensures AtHome(w.storage, w.published[h.vol := h])
  {
  }

  lemma CreateStaysAtHome(w: World, w': World)
    requires HandlesFit(w.published) && ProvisionerFits(w) && AtHome(w.storage, w.published)
    requires w.prov.Creating? && ProvisionerCall(w) == Some(w')
    ensures AtHome(w'.storage, w.published)
  {
    var Creating(req, found, policy, phase) := w.prov;
    CreateCommandIsOwn(w.storage, req, found, phase);
    CommandStaysAtHome(w.storage, CreateCommand(req, found, phase), req.vol, w'.storage, w.published);
  }

  lemma DeleteStaysAtHome(w: World, h: Handle, phase: DeletePhase, s': Storage)
    requires HandlesFit(w.published) && AtHome(w.storage, w.published)
    requires HandleFits(h.vol, h) && Apply(w.storage, DeleteCommand(h, phase)) == Ok(s')
    ensures AtHome(s', w.published)
  {
    CommandStaysAtHome(w.storage, DeleteCommand(h, phase), h.vol, s', w.published);
  }

  lemma DeletionStaysAtHome(w: World, w': World)
    requires HandlesFit(w.published) && AtHome(w.storage, w.published)
    requires w.prov.Deleting? && HandleFits(w.prov.name, w.prov.pv.handle)
    requires ProvisionerCall(w) == Some(w')
    ensures AtHome(w'.storage, w.published)
  {
    DeleteStaysAtHome(w, w.prov.pv.handle, w.prov.phase, w'.storage);
  }

  lemma VolumeUpdatesStayLatest(w: World, w': World)
    requires PVsLatest(w.pvLog, w.pvs) && PVLogSound(w.pvLog, w.rev, w.births, w.published, w.kept)
    requires w.prov.DroppingFinalizer? || w.prov.DeletingPV?
    requires ProvisionerCall(w) == Some(w')
    ensures PVsLatest(w'.pvLog, w'.pvs)
  {
    if w.prov.DroppingFinalizer? {
      var DroppingFinalizer(name, pv) := w.prov;
      StorePVStaysLatest(w, name, pv.(finalizers := pv.finalizers - {Driver}));
    } else if w.prov.name in w.pvs && !w.pvs[w.prov.name].deleting {
      StorePVStaysLatest(w, w.prov.name, w.pvs[w.prov.name].(deleting := true));
    }
  }

  lemma CommandStepStaysAtHome(w: World, w': World)
    requires Inv(w) && AtHome(w.storage, w.published) && ProvisionerCall(w) == Some(w')
    requires w.prov.Creating? || w.prov.RollingBack? || w.prov.Deleting?
    ensures AtHome(w'.storage, w.published)
  {
    if w.prov.Creating? {
      CreateStaysAtHome(w, w');
    } else if w.prov.RollingBack? {
      DeleteStaysAtHome(w, w.prov.handle, w.prov.phase, w'.storage);
    } else {
      DeletionFits(w);
      DeletionStaysAtHome(w, w');
    }
  }

  lemma PublishStaysTidy(w: World, w': World)
    requires ProvisionerFits(w) && HostFits(w) && PVLogSound(w.pvLog, w.rev, w.births, w.published, w.kept) && Tidy(w)
    requires w.prov.Publishing? && ProvisionerCall(w) == Some(w')
    ensures Tidy(w')
  {
    var h, policy := w.prov.handle, w.prov.policy;
    PublishedIsAtHome(w, h);
    StorePVStaysLatest(w, h.vol, PV(0, policy, h, false, false, if policy.Delete? then {Driver} else {}));
  }

  lemma ProvisionerStaysTidy(w: World, w': World)
    requires Inv(w) && Tidy(w) && ProvisionerCall(w) == Some(w')
    ensures Tidy(w')
  {
    if w.prov.Publishing? {
      PublishStaysTidy(w, w');
    } else if w.prov.DroppingFinalizer? || w.prov.DeletingPV? {
      VolumeUpdateIs(w, w');
      VolumeUpdatesStayLatest(w, w');
    } else {
      CommandStaysTidy(w, w');
    }
  }

  lemma CommandStaysTidy(w: World, w': World)
    requires Inv(w) && Tidy(w) && ProvisionerCall(w) == Some(w')
    requires w.prov.Creating? || w.prov.RollingBack? || w.prov.Deleting?
    ensures Tidy(w')
  {
    CommandStepStaysAtHome(w, w');
    CommandLeavesObjects(w, w');
    assert w'.published.Keys <= w.published.Keys && forall v :: v in w'.published ==> w'.published[v] == w.published[v];
  }

  lemma CommandLeavesObjects(w: World, w': World)
    requires w.prov.Creating? || w.prov.RollingBack? || w.prov.Deleting?
    requires ProvisionerCall(w) == Some(w')
    ensures w'.vas == w.vas && w'.vaLog == w.vaLog && w'.pvs == w.pvs && w'.pvLog == w.pvLog
    ensures w'.published == w.published || (w.prov.Deleting? && w'.published == w.published - {w.prov.name})
  {
    CallsOnlyCommand(w, w');
  }

  lemma StoreVAStaysLogged(w: World, key: Key, va: VA)
    requires RemovalsLogged(w.vaLog, w.vas) && NoneLingers(w.vas) && VALogSound(w.vaLog, w.rev)
    ensures RemovalsLogged(StoreVA(w, key, va).vaLog, StoreVA(w, key, va).vas)
    ensures NoneLingers(StoreVA(w, key, va).vas) && StoreVA(w, key, va).pvLog == w.pvLog
  {
    PutVAStaysLogged(w, key, va);
    RemoveVAStaysLogged(w, key);
  }

  predicate SameVolumes(w: World, w': World) {
    && w'.pvs == w.pvs && w'.pvLog == w.pvLog && w'.pvCache == w.pvCache
    && w'.births == w.births && w'.kept == w.kept && w'.begun == w.begun && w'.prov == w.prov
  }

  predicate SameHandles(w: World, w': World) {
    w'.published == w.published && w'.strayed == w.strayed && w'.again == w.again
  }

  /** No volume but this one has ceased to be vouched for. */
  predicate Vouches(w: World, w': World, vol: string) {
    w'.published == w.published || w'.published == w.published - {vol}
  }

  lemma StoreVALeavesVolumes(w: World, key: Key, va: VA)
    ensures SameVolumes(w, StoreVA(w, key, va)) && SameHandles(w, StoreVA(w, key, va))
    ensures StoreVA(w, key, va).storage == w.storage
  {
  }

  lemma UpdateVAStaysLogged(w: World, key: Key, va: VA, now: VA, next: Attacher)
    requires RemovalsLogged(w.vaLog, w.vas) && NoneLingers(w.vas) && VALogSound(w.vaLog, w.rev)
    requires UpdateVA(w, key, va, now, next).Some?
    ensures var w' := UpdateVA(w, key, va, now, next).value;
            && RemovalsLogged(w'.vaLog, w'.vas) && NoneLingers(w'.vas)
            && SameVolumes(w, w') && SameHandles(w, w') && w'.storage == w.storage
  {
    StoreVAStaysLogged(w, key, now);
    StoreVALeavesVolumes(w, key, now);
  }

  lemma AttacherUpdateStaysLogged(w: World, w': World)
    requires RemovalsLogged(w.vaLog, w.vas) && NoneLingers(w.vas) && VALogSound(w.vaLog, w.rev)
    requires w.att.Marking? || w.att.Reporting? || w.att.Unmarking?
    requires AttacherCall(w) == Some(w')
    ensures RemovalsLogged(w'.vaLog, w'.vas) && NoneLingers(w'.vas)
    ensures SameVolumes(w, w') && SameHandles(w, w') && w'.storage == w.storage
  {
    match w.att {
      case Marking(key, va, h) =>
        UpdateVAStaysLogged(w, key, va, va.(finalizers := va.finalizers + {Driver}), Refetching(key, h));
      case Reporting(key, va, h) => UpdateVAStaysLogged(w, key, va, va.(attached := true), Idle);
      case Unmarking(key, va) => UpdateVAStaysLogged(w, key, va, va.(finalizers := va.finalizers - {Driver}), Idle);
    }
  }

  /** The other calls change the host and the worker's place, nothing else. */
  lemma AttacherOnlyCommands(w: World, w': World)
    requires w.att.Refetching? || w.att.Allowing? || w.att.Denying?
    requires AttacherCall(w) == Some(w')
    ensures w' == w.(storage := w'.storage, att := w'.att)
  {
    match w.att {
      case Refetching(_, _) => RefetchIs(w, w');
      case Allowing(_, _, _) => AllowIs(w, w');
      case Denying(_, _, _) => DenyIs(w, w');
    }
  }

  /** Looking changes the worker's place; it may show that the worker has strayed. */
  lemma LookingOnlyStrays(w: World, w': World)
    requires w.att.Looking? && AttacherCall(w) == Some(w')
    ensures w' == w.(att := w'.att, published := w'.published, strayed := w'.strayed, again := w'.again)
    ensures Vouches(w, w', w.att.key.pv)
    ensures !Outdated(w, w.att.key.pv) || w.att.key.pv !in w.published ==> SameHandles(w, w')
  {
    LookIs(w, w');
  }

  lemma AttacherStaysLogged(w: World, w': World)
    requires RemovalsLogged(w.vaLog, w.vas) && NoneLingers(w.vas) && VALogSound(w.vaLog, w.rev)
    requires AttacherCall(w) == Some(w')
    ensures RemovalsLogged(w'.vaLog, w'.vas) && NoneLingers(w'.vas)
    ensures SameVolumes(w, w') && Vouches(w, w', w.att.key.pv)
  {
    if w.att.Marking? || w.att.Reporting? || w.att.Unmarking? {
      AttacherUpdateStaysLogged(w, w');
    } else if w.att.Looking? {
      LookingOnlyStrays(w, w');
    } else {
      AttacherOnlyCommands(w, w');
    }
  }

  lemma AccessStaysAtHome(w: World, c: Command, s': Storage)
    requires AtHome(w.storage, w.published) && (c.Allow? || c.Deny?) && Apply(w.storage, c) == Ok(s')
    ensures AtHome(s', w.published)
  {
    AccessCommandDiffers(w.storage, c, s');
    forall v | v in w.published ensures HandleAtHome(s', v, w.published[v]) {
      assert HandleAtHome(w.storage, v, w.published[v]);
    }
  }

  lemma AttacherCommandStaysAtHome(w: World, w': World)
    requires AtHome(w.storage, w.published) && AttacherCall(w) == Some(w')
    requires !w.att.Marking? && !w.att.Reporting? && !w.att.Unmarking?
    ensures AtHome(w'.storage, w'.published)
  {
    match w.att {
      case Looking(_, _) => LookingOnlyStrays(w, w');
      case Refetching(_, _) => RefetchIs(w, w');
      case Allowing(key, va, h) =>
        AllowIs(w, w');
        AccessStaysAtHome(w, Command.Allow(FirstNonEmpty(h.target, h.iqn), key.node), w'.storage);
      case Denying(key, va, h) =>
        DenyIs(w, w');
        AccessStaysAtHome(w, Command.Deny(FirstNonEmpty(h.target, h.iqn), key.node), w'.storage);
    }
  }

  lemma AttacherStaysTidy(w: World, w': World)
    requires Inv(w) && Tidy(w) && AttacherCall(w) == Some(w')
    ensures Tidy(w')
  {
    AttacherStaysLogged(w, w');
    if w.att.Marking? || w.att.Reporting? || w.att.Unmarking? {
      AttacherUpdateStaysLogged(w, w');
    } else {
      AttacherCommandStaysAtHome(w, w');
    }
  }

  lemma VolumeEditStaysTidy(w: World, a: Action, w': World)
    requires PVLogSound(w.pvLog, w.rev, w.births, w.published, w.kept) && Tidy(w) && Step(w, a, w') && (a.EditPV? || a.PurgePV?)
    ensures Tidy(w')
  {
    match a {
      case EditPV(name, pv) => StorePVStaysLatest(w, name, pv);
      case PurgePV(name) => StorePVStaysLatest(w, name, w.pvs[name]);
    }
  }

  lemma AttachmentEditStaysTidy(w: World, a: Action, w': World)
    requires VALogSound(w.vaLog, w.rev) && Tidy(w) && Step(w, a, w') && OfAttachment(a)
    ensures Tidy(w')
  {
    match a {
      case EditVA(key, va) => StoreVAStaysLogged(w, key, va);
      case PurgeVA(key) => RemoveVAStaysLogged(w, key);
      case Attach(key) => PutVAStaysLogged(w, key, NewVA(w));
      case SeeVA(_) =>
    }
  }

  lemma StepStaysTidy(w: World, a: Action, w': World)
    requires Inv(w) && Tidy(w) && Step(w, a, w')
    ensures Tidy(w')
  {
    if a.Provision? {
      ProvisionerStaysTidy(w, ProvisionerCall(w).value);
    } else if a.AttachCall? {
      AttacherStaysTidy(w, AttacherCall(w).value);
    } else if a.EditPV? || a.PurgePV? {
      VolumeEditStaysTidy(w, a, w');
    } else if OfAttachment(a) {
      AttachmentEditStaysTidy(w, a, w');
    }
  }

  lemma InitIsTidy(w: World)
    requires Init(w)
    ensures Tidy(w)
  {
  }

  lemma {:induction false} RunStaysTidy(run: seq<World>, i: nat)
    requires Run(run) && i < |run|
    ensures Tidy(run[i])
  {
    if i == 0 {
      InitIsTidy(run[0]);
    } else {
      RunStaysTidy(run, i - 1);
      RunKeeps(run, i - 1);
      assert Next(run[i - 1], run[i - 1 + 1]);
      var a :| Step(run[i - 1], a, run[i]);
      StepStaysTidy(run[i - 1], a, run[i]);
    }
  }
}
