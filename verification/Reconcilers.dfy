/**
 * The reconcile loops as programs over the cluster. Every statement that calls out is one step of
 * the protocol, so whatever holds of its runs holds here. When the rest of the cluster is quiet and
 * the informers have caught up, no call is refused, and the loops settle.
 */
module Reconcilers {
  import opened Results
  import opened Naming
  import opened WindowsStorage
  import opened ControllerServer
  import opened Lifecycle
  import opened LifecycleInvariants
  import opened LifecycleSteps
  import opened LifecycleCommands
  import opened LifecycleWorkers
  import opened LifecycleCalls
  import opened LifecycleAttacher
  import opened LifecycleSafety
  import opened LifecycleProgress
  import opened Courses

  // ---------- Work still to be done ----------

  /**
   * The attacher owes this attachment an unpublish or a publish; a publish only of a volume on which no
   * worker has strayed, since the backend of another may be gone.
   */
  predicate PendingVA(w: World, key: Key) {
    key in w.vas &&
    (if w.vas[key].deleting then Driver in w.vas[key].finalizers
     else !w.vas[key].attached && key.pv in w.pvs && key.pv in w.published)
  }

  predicate NothingOwed(w: World) {
    forall k :: k in w.vas ==> !PendingVA(w, k)
  }

  /** The provisioner is to delete this volume. */
  predicate Doomed(pv: PV) {
    Flagged(pv) && pv.policy.Delete?
  }

  /** The informers show this attachment and its volume as they are. */
  predicate Informed(w: World, key: Key) {
    && key in w.vas && key in w.vaCache && w.vaCache[key].va == Some(w.vas[key])
    && (key.pv in w.pvs ==> CachedPV(w, key.pv) == Some(w.pvs[key.pv]))
  }

  // ---------- What one attacher call leaves alone ----------

  /** Other attachments are as they were; the host has the same disks and targets. */
  predicate OnlyTouches(w: World, w': World, key: Key) {
    && SameVolumes(w, w') && Vouches(w, w', key.pv)
    && w'.vas.Keys - {key} == w.vas.Keys - {key}
    && (forall k :: k in w.vas && k != key ==> k in w'.vas && w'.vas[k] == w.vas[k])
    && w'.storage.disks == w.storage.disks && w'.storage.targets.Keys == w.storage.targets.Keys
  }

  predicate Works(w: World, w': World, key: Key) {
    OnlyTouches(w, w', key) && SameHandles(w, w')
  }

  lemma StoreVAOnlyTouches(w: World, key: Key, va: VA)
    ensures Works(w, StoreVA(w, key, va), key)
    ensures key in StoreVA(w, key, va).vas <==> !(va.deleting && va.finalizers == {})
    ensures key in StoreVA(w, key, va).vas ==> StoreVA(w, key, va).vas[key] == va.(rv := w.rev + 1)
  {
    var w' := StoreVA(w, key, va);
    assert w'.vas.Keys - {key} == w.vas.Keys - {key};
  }

  lemma ChangeAccessOnlyTouches(w: World, c: Command, next: Attacher, key: Key)
    requires (c.Allow? || c.Deny?) && ChangeAccess(w, c, next).Some?
    ensures Works(w, ChangeAccess(w, c, next).value, key)
    ensures ChangeAccess(w, c, next).value.vas == w.vas
  {
    AccessCommandDiffers(w.storage, c, Apply(w.storage, c).value);
  }

  lemma UpdateVAOnlyTouches(w: World, key: Key, va: VA, now: VA, next: Attacher)
    requires UpdateVA(w, key, va, now, next).Some?
    ensures Works(w, UpdateVA(w, key, va, now, next).value, key)
  {
    StoreVAOnlyTouches(w, key, now);
  }

  lemma AttacherCallOnlyTouches(w: World, w': World)
    requires AttacherCall(w) == Some(w')
    ensures OnlyTouches(w, w', w.att.key) && (!w.att.Looking? ==> SameHandles(w, w'))
  {
    match w.att {
      case Marking(key, va, h) =>
        UpdateVAOnlyTouches(w, key, va, va.(finalizers := va.finalizers + {Driver}), Refetching(key, h));
      case Reporting(key, va, h) => UpdateVAOnlyTouches(w, key, va, va.(attached := true), Idle);
      case Unmarking(key, va) => UpdateVAOnlyTouches(w, key, va, va.(finalizers := va.finalizers - {Driver}), Idle);
      case Looking(_, _) =>
      case Refetching(_, _) =>
      case Allowing(key, va, h) =>
        ChangeAccessOnlyTouches(w, Command.Allow(FirstNonEmpty(h.target, h.iqn), key.node), Reporting(key, va, h), key);
      case Denying(key, va, h) =>
        ChangeAccessOnlyTouches(w, Command.Deny(FirstNonEmpty(h.target, h.iqn), key.node), Unmarking(key, va), key);
    }
  }

  /** The update goes through on the object it was made from; without other finalizers the object goes. */
  lemma UnmarkReleases(w: World)
    requires w.att.Unmarking? && w.att.va.deleting
    ensures var Unmarking(key, va) := w.att;
            && (Current(w, key, va) ==> AttacherCall(w).Some?)
            && (AttacherCall(w).Some? ==>
                  && AttacherCall(w).value.att.Idle? && !PendingVA(AttacherCall(w).value, key)
                  && (va.finalizers == {Driver} ==> key !in AttacherCall(w).value.vas))
  {
    var Unmarking(key, va) := w.att;
    assert AttacherCall(w) == UpdateVA(w, key, va, va.(finalizers := va.finalizers - {Driver}), Idle);
    StoreVAOnlyTouches(w, key, va.(finalizers := va.finalizers - {Driver}));
  }

  predicate Current(w: World, key: Key, va: VA) {
    key in w.vas && w.vas[key] == va
  }

  lemma MarkHolds(w: World)
    requires w.att.Marking? && !w.att.va.deleting
    ensures var Marking(key, va, h) := w.att;
            && (Current(w, key, va) ==> AttacherCall(w).Some?)
            && (AttacherCall(w).Some? ==>
                  && AttacherCall(w).value.att == Refetching(key, h)
                  && key in AttacherCall(w).value.vas && !AttacherCall(w).value.vas[key].deleting)
  {
    var Marking(key, va, h) := w.att;
    assert AttacherCall(w) == UpdateVA(w, key, va, va.(finalizers := va.finalizers + {Driver}), Refetching(key, h));
    StoreVAOnlyTouches(w, key, va.(finalizers := va.finalizers + {Driver}));
  }

  lemma RefetchFinds(w: World)
    requires w.att.Refetching? && w.att.key in w.vas
    ensures AttacherCall(w) == Some(w.(att := Allowing(w.att.key, w.vas[w.att.key], w.att.handle)))
  {
  }

  lemma WorksChains(w: World, w1: World, w2: World, key: Key)
    requires Works(w, w1, key) && Works(w1, w2, key)
    ensures Works(w, w2, key)
  {
  }

  // ---------- What a run guarantees to the programs below ----------

  lemma RunExtends(run: seq<World>, a: Action, w': World)
    requires Run(run) && Step(run[|run| - 1], a, w')
    ensures Run(run + [w'])
  {
    var longer := run + [w'];
    forall i | 0 <= i < |longer| - 1 ensures Next(longer[i], longer[i + 1]) {
      if i < |run| - 1 { assert Next(run[i], run[i + 1]); }
    }
  }

  lemma AllowFindsTarget(w: World)
    requires HandlesFit(w.published) && IntactUntilBegun(w.storage, w.published, w.begun)
    requires BegunAreDead(w.pvs, w.vas, w.published, w.begun)
    requires w.att.Allowing? && AttacherFits(w) && w.att.key.pv in w.published
    ensures FirstNonEmpty(w.att.handle.target, w.att.handle.iqn) in w.storage.targets
  {
    assert HandleFits(w.att.key.pv, w.att.handle);
    assert Intact(w.storage, w.published[w.att.key.pv]);
  }

  /** The target of an attached volume exists, so its access list can be extended. */
  lemma AllowNotRefused(run: seq<World>)
    requires Run(run) && run[|run| - 1].att.Allowing? && run[|run| - 1].att.key.pv in run[|run| - 1].published
    ensures var h := run[|run| - 1].att.handle;
            FirstNonEmpty(h.target, h.iqn) in run[|run| - 1].storage.targets
  {
    RunKeeps(run, |run| - 1);
    AllowFindsTarget(run[|run| - 1]);
  }

  /** An attached object is marked, so reporting it does not remove it. */
  lemma AllowingIsMarked(run: seq<World>)
    requires Run(run) && (run[|run| - 1].att.Allowing? || run[|run| - 1].att.Reporting?)
    ensures Marked(run[|run| - 1].vas, run[|run| - 1].att.key)
  {
    RunKeeps(run, |run| - 1);
  }

  // ---------- What one provisioner call leaves alone ----------

  predicate Shrinks(s: Storage, s': Storage) {
    s'.targets.Keys <= s.targets.Keys && s'.disks.Keys <= s.disks.Keys
  }

  /** All attachments and other PersistentVolumes are as they were; nothing is added to the host. */
  predicate OnlyRemoves(w: World, w': World, name: string) {
    && w'.vas == w.vas && w'.vaLog == w.vaLog && w'.vaCache == w.vaCache && w'.pvCache == w.pvCache && w'.att == w.att
    && w'.births == w.births && Vouches(w, w', name)
    && w'.pvs.Keys <= w.pvs.Keys
    && (forall v :: v in w.pvs && v != name ==> v in w'.pvs && w'.pvs[v] == w.pvs[v])
    && (name in w'.pvs ==> w'.pvs[name].handle == w.pvs[name].handle)
    && Shrinks(w.storage, w'.storage)
  }

  predicate SameObjects(w: World, w': World) {
    w'.pvs == w.pvs && w'.pvLog == w.pvLog && w'.rev == w.rev && w'.kept == w.kept
  }

  /** The removal of the object is in the log, and a policy that was Delete has stayed so. */
  predicate Logged(w: World, w': World, name: string) {
    && w.pvLog <= w'.pvLog
    && (name !in w.pvs ==> name !in w'.pvs && w'.pvLog == w.pvLog && w'.kept == w.kept && w'.rev == w.rev)
    && (name in w.pvs && name !in w'.pvs ==> PVVersion(name, w'.rev, None) in w'.pvLog)
    && (name in w.pvs && name in w'.pvs ==> w'.pvs[name].policy == w.pvs[name].policy)
    && (name in w.pvs && w.pvs[name].policy.Delete? ==> w'.kept == w.kept)
  }

  lemma LoggedChains(w: World, w1: World, w2: World, name: string)
    requires Logged(w, w1, name) && Logged(w1, w2, name)
    ensures Logged(w, w2, name)
  {
  }

  lemma StorePVIsLogged(w: World, name: string, pv: PV)
    requires name in w.pvs && pv.policy == w.pvs[name].policy
    ensures Logged(w, StorePV(w, name, pv), name)
  {
  }

  lemma DeleteCommandShrinks(s: Storage, h: Handle, phase: DeletePhase)
    requires Apply(s, DeleteCommand(h, phase)).Ok?
    ensures Shrinks(s, Apply(s, DeleteCommand(h, phase)).value)
  {
  }

  lemma DeleteCallOnlyRemoves(w: World, w': World)
    requires w.prov.Deleting? && ProvisionerCall(w) == Some(w')
    ensures OnlyRemoves(w, w', w.prov.name) && SameObjects(w, w')
    ensures w'.prov == if w.prov.phase.DropTarget? then AfterDeletion(w.prov.name, w.prov.pv)
                       else Deleting(w.prov.name, w.prov.pv, AfterPhase(w.prov.phase))
  {
    DeleteIs(w, w');
    DeleteCommandShrinks(w.storage, w.prov.pv.handle, w.prov.phase);
  }

  lemma OnlyRemovesChains(w: World, w1: World, w2: World, name: string)
    requires OnlyRemoves(w, w1, name) && OnlyRemoves(w1, w2, name)
    ensures OnlyRemoves(w, w2, name)
  {
  }

  lemma StorePVOnlyRemoves(w: World, name: string, pv: PV)
    requires name in w.pvs && pv.handle == w.pvs[name].handle
    ensures OnlyRemoves(w, StorePV(w, name, pv), name) && SameHandles(w, StorePV(w, name, pv))
    ensures name in StorePV(w, name, pv).pvs <==> !(pv.deleting && pv.finalizers == {})
    ensures name in StorePV(w, name, pv).pvs ==> StorePV(w, name, pv).pvs[name] == pv.(rv := w.rev + 1)
    ensures StorePV(w, name, pv).storage == w.storage
  {
    StorePVOnly(w, name, pv);
    assert StorePV(w, name, pv).pvs == if pv.deleting && pv.finalizers == {} then w.pvs - {name} else w.pvs[name := pv.(rv := w.rev + 1)];
  }

  /** The copy an update goes through with is the object. */
  lemma DroppingKnowsObject(run: seq<World>)
    requires Run(run) && run[|run| - 1].prov.DroppingFinalizer?
    ensures var w := run[|run| - 1];
            w.prov.name in w.pvs && w.pvs[w.prov.name].rv == w.prov.pv.rv ==> w.prov.pv == w.pvs[w.prov.name]
  {
    var w := run[|run| - 1];
    RunKeeps(run, |run| - 1);
    if w.prov.name in w.pvs && w.pvs[w.prov.name].rv == w.prov.pv.rv {
      assert PVVersion(w.prov.name, w.prov.pv.rv, Some(w.prov.pv)) ==
             PVVersion(w.prov.name, w.pvs[w.prov.name].rv, Some(w.pvs[w.prov.name]));
    }
  }

  /** The update goes through exactly on the object it was made from, and takes the driver's finalizer off it. */
  lemma DropReleases(w: World)
    requires w.prov.DroppingFinalizer?
    requires w.prov.name in w.pvs && w.pvs[w.prov.name].rv == w.prov.pv.rv ==> w.prov.pv == w.pvs[w.prov.name]
    ensures var DroppingFinalizer(name, pv) := w.prov;
            && (ProvisionerCall(w).Some? <==> name in w.pvs && w.pvs[name].rv == pv.rv)
            && (ProvisionerCall(w).Some? ==> LetGo(w, ProvisionerCall(w).value, name, pv))
  {
    var DroppingFinalizer(name, pv) := w.prov;
    assert ProvisionerCall(w) == DropFinalizerCall(w, name, pv);
    if ProvisionerCall(w).Some? {
      DropIs(w, ProvisionerCall(w).value);
      StorePVOnlyRemoves(w, name, pv.(finalizers := pv.finalizers - {Driver}));
      StorePVIsLogged(w, name, pv.(finalizers := pv.finalizers - {Driver}));
    }
  }

  /** The driver has let go of this object. */
  predicate LetGo(w: World, w': World, name: string, pv: PV) {
    && OnlyRemoves(w, w', name) && SameHandles(w, w') && Logged(w, w', name)
    && w'.storage == w.storage && w'.prov == AfterDropping(name, pv)
    && (name in w'.pvs <==> !(pv.deleting && pv.finalizers - {Driver} == {}))
    && (name in w'.pvs ==> w'.pvs[name].deleting == pv.deleting && w'.pvs[name].finalizers == pv.finalizers - {Driver})
  }

  /** A request to delete what is deleting already changes nothing. */
  lemma DeletePVEnds(w: World)
    requires w.prov.DeletingPV?
    ensures ProvisionerCall(w).Some?
    ensures var name := w.prov.name; var w' := ProvisionerCall(w).value;
            && OnlyRemoves(w, w', name) && SameHandles(w, w') && Logged(w, w', name)
            && w'.storage == w.storage && w'.prov.Resting?
            && (name in w'.pvs ==>
                  w'.pvs[name].deleting && name in w.pvs && w'.pvs[name].finalizers == w.pvs[name].finalizers)
            && (name in w.pvs && !w.pvs[name].deleting && w.pvs[name].finalizers == {} ==> name !in w'.pvs)
  {
    var name := w.prov.name;
    DeletePVIs(w, ProvisionerCall(w).value);
    if name in w.pvs && !w.pvs[name].deleting {
      StorePVOnlyRemoves(w, name, w.pvs[name].(deleting := true));
      StorePVIsLogged(w, name, w.pvs[name].(deleting := true));
    }
  }

  /** A deletion by a copy of the latest PersistentVolume, of a volume on which no worker has strayed. */
  predicate SureDeletion(w: World) {
    w.prov.Deleting? && w.prov.name in w.published && OfLatest(w.births, w.prov.name, w.prov.pv.rv)
  }

  ghost predicate DeletionStands(s: Storage, name: string, h: Handle, phase: DeletePhase) {
    && MappingsFit(s) && HandleFits(name, h) && HandleAtHome(s, name, h) && OnTrack(s, h, phase)
  }

  lemma StandsOnTrack(w: World)
    requires VolumesFit(w) && MappingsFit(w.storage) && AtHome(w.storage, w.published) && OnCourse(w) && SureDeletion(w)
    requires HandleOf(w.published, w.prov.name, w.prov.pv.handle)
    ensures DeletionStands(w.storage, w.prov.name, w.prov.pv.handle, w.prov.phase)
  {
    assert w.prov.pv.handle == w.published[w.prov.name];
  }

  lemma DeletionIsOnTrack(run: seq<World>)
    requires Run(run) && SureDeletion(run[|run| - 1])
    ensures var w := run[|run| - 1]; DeletionStands(w.storage, w.prov.name, w.prov.pv.handle, w.prov.phase)
  {
    var w := run[|run| - 1];
    RunKeeps(run, |run| - 1);
    RunStaysTidy(run, |run| - 1);
    RunStaysOnCourse(run, |run| - 1);
    DeletionIsUnclaimed(w);
    StandsOnTrack(w);
  }

  /** In every reachable world the deletion's next call goes through. */
  lemma DeletionNotRefused(run: seq<World>)
    requires Run(run) && SureDeletion(run[|run| - 1])
    ensures ProvisionerCall(run[|run| - 1]).Some?
    ensures var w := run[|run| - 1]; var w' := ProvisionerCall(w).value;
            && w' == w.(storage := w'.storage, prov := w'.prov, begun := w'.begun, again := w'.again)
            && Shrinks(w.storage, w'.storage)
            && (w.prov.phase.DropTarget? ==>
                  w'.prov == AfterDeletion(w.prov.name, w.prov.pv) && BackendGone(w'.storage, w.prov.pv.handle))
            && (!w.prov.phase.DropTarget? ==>
                  && w'.prov == Deleting(w.prov.name, w.prov.pv, AfterPhase(w.prov.phase))
                  && OnTrack(w'.storage, w.prov.pv.handle, AfterPhase(w.prov.phase)))
  {
    var w := run[|run| - 1];
    DeletionIsOnTrack(run);
    DeletionAdvances(w.storage, w.prov.name, w.prov.pv.handle, w.prov.phase);
    DeleteCommandShrinks(w.storage, w.prov.pv.handle, w.prov.phase);
  }

  /** The volume needs no more work: nothing on the host, and the driver has let go of the object. */
  predicate Finished(w: World, name: string, h: Handle) {
    && BackendGone(w.storage, h)
    && (name in w.pvs ==> w.pvs[name].deleting && Driver !in w.pvs[name].finalizers)
  }

  // ---------- What the informers still have to deliver ----------

  lemma CurrentVASeeable(run: seq<World>, key: Key)
    requires Run(run) && key in run[|run| - 1].vas
    ensures var w := run[|run| - 1];
            && VAVersion(key, w.vas[key].rv, Some(w.vas[key])) in w.vaLog
            && (key in w.vaCache ==> w.vaCache[key].rv <= w.vas[key].rv)
  {
    var w := run[|run| - 1];
    RunKeeps(run, |run| - 1);
    assert key in w.vaCache ==> w.vaCache[key] in w.vaLog && VAVersionBinds(w.vaCache[key], w.vas[key]);
  }

  lemma CurrentPVSeeable(run: seq<World>, name: string)
    requires Run(run) && name in run[|run| - 1].pvs
    ensures var w := run[|run| - 1];
            && PVVersion(name, w.pvs[name].rv, Some(w.pvs[name])) in w.pvLog
            && (name in w.pvCache ==> w.pvCache[name].rv <= w.pvs[name].rv)
  {
    var w := run[|run| - 1];
    RunKeeps(run, |run| - 1);
    RunStaysTidy(run, |run| - 1);
    assert name in w.pvCache ==> w.pvCache[name] in w.pvLog && w.pvCache[name].name == name;
  }

  lemma ShownIsNotOutdated(run: seq<World>, name: string)
    requires Run(run) && name in run[|run| - 1].pvs && CachedPV(run[|run| - 1], name) == Some(run[|run| - 1].pvs[name])
    ensures !Outdated(run[|run| - 1], name)
  {
    var w := run[|run| - 1];
    RunKeeps(run, |run| - 1);
    assert PVVersionSound(w.pvCache[name], w.rev, w.births, w.published, w.kept);
  }

  lemma CurrentIsLatest(run: seq<World>, name: string)
    requires Run(run)
    ensures name in run[|run| - 1].pvs ==> OfLatest(run[|run| - 1].births, name, run[|run| - 1].pvs[name].rv)
  {
    RunKeeps(run, |run| - 1);
  }

  lemma RemovalSeeable(run: seq<World>, key: Key)
    requires Run(run) && key in run[|run| - 1].vaCache && key !in run[|run| - 1].vas
    ensures var w := run[|run| - 1];
            exists y :: y in w.vaLog && y.key == key && y.va.None? && w.vaCache[key].rv <= y.rv
  {
    var w := run[|run| - 1];
    RunKeeps(run, |run| - 1);
    RunStaysTidy(run, |run| - 1);
    assert WillBeTold(w.vaLog, w.vas, w.vaCache[key]);
  }

  lemma NothingLingers(run: seq<World>)
    requires Run(run)
    ensures NoneLingers(run[|run| - 1].vas)
  {
    RunStaysTidy(run, |run| - 1);
  }

  lemma CachedIsSeen(run: seq<World>, name: string)
    requires Run(run) && CachedPV(run[|run| - 1], name).Some?
    ensures SeenPV(run[|run| - 1], name, CachedPV(run[|run| - 1], name).value)
  {
    var w := run[|run| - 1];
    RunKeeps(run, |run| - 1);
    assert PVVersionSound(w.pvCache[name], w.rev, w.births, w.published, w.kept);
  }

  // ---------- How much is left to do ----------

  /** Of volumes that are there still, the same are vouched for. */
  predicate SameVouched(w: World, w': World) {
    forall v :: v in w'.pvs ==> (v in w'.published <==> v in w.published)
  }

  function OwedVAs(w: World): set<Key> {
    set k | k in w.vas && PendingVA(w, k)
  }

  /** Flagged Delete-policy volumes that are not finished and have no attachment. */
  function OwedPVs(w: World): set<string> {
    set v | v in w.pvs && v in w.published && Doomed(w.pvs[v]) && NoneAttached(w.vas, v) && !Finished(w, v, w.pvs[v].handle)
  }

  /** The attachment will be gone once the driver lets go of it. */
  predicate OnlyDriverHolds(va: VA) {
    va.deleting && va.finalizers <= {Driver}
  }

  /** Attachments that are as they were, or were not the driver's to remove. */
  predicate AttachmentsSettling(was: map<Key, VA>, now: map<Key, VA>) {
    forall k :: k in now ==> k in was && (OnlyDriverHolds(was[k]) ==> now[k] == was[k])
  }

  lemma SettlingChains(w: World, w1: World, w2: World, key: Key)
    requires AttachmentsSettling(w.vas, w1.vas) && OnlyTouches(w1, w2, key) && key in w1.vas
    requires !PendingVA(w2, key)
    requires OnlyDriverHolds(w1.vas[key]) && Driver in w1.vas[key].finalizers ==> key !in w2.vas
    requires OnlyDriverHolds(w1.vas[key]) ==> Driver in w1.vas[key].finalizers
    ensures AttachmentsSettling(w.vas, w2.vas) && OwedVAs(w2) <= OwedVAs(w1) - {key}
  {
    assert forall k :: k in w2.vas && k != key ==> k in w2.vas.Keys - {key};
    assert forall k :: k in w1.vas.Keys - {key} ==> k in w1.vas;
  }

  /** Each of these volumes is finished or as it was. */
  predicate VolumesSettling(was: map<string, PV>, now: World) {
    forall v :: v in was ==> Finished(now, v, was[v].handle) || (v in now.pvs && now.pvs[v] == was[v])
  }

  lemma VolumesSettlingChains(was: map<string, PV>, w1: World, w2: World, name: string)
    requires VolumesSettling(was, w1) && OnlyRemoves(w1, w2, name)
    requires name in w1.pvs && Finished(w2, name, w1.pvs[name].handle)
    requires name in was ==> was[name].handle == w1.pvs[name].handle
    ensures VolumesSettling(was, w2)
  {
    forall v | v in was && v != name ensures Finished(w2, v, was[v].handle) || (v in w2.pvs && w2.pvs[v] == was[v]) {
      if Finished(w1, v, was[v].handle) { assert BackendGone(w2.storage, was[v].handle); }
    }
  }

  /** Flagged Delete-policy volume with no attachment but those only the driver holds. */
  predicate MayGo(w: World, name: string) {
    && name in w.pvs && name in w.published && Doomed(w.pvs[name])
    && forall k :: k in w.vas && k.pv == name ==> OnlyDriverHolds(w.vas[k])
  }

  lemma SettledAttachmentsAreGone(run: seq<World>, was: map<Key, VA>, name: string)
    requires Run(run) && AttachmentsSettling(was, run[|run| - 1].vas)
    requires NothingOwed(run[|run| - 1])
    requires forall k :: k in was && k.pv == name ==> OnlyDriverHolds(was[k])
    ensures NoneAttached(run[|run| - 1].vas, name)
  {
    var w := run[|run| - 1];
    NothingLingers(run);
    assert forall va :: OnlyDriverHolds(va) && va.finalizers != {} ==> Driver in va.finalizers;
  }

  lemma RemovalLeavesOthersOwed(w: World, w': World, name: string)
    requires OnlyRemoves(w, w', name)
    requires name in w.pvs && Finished(w', name, w.pvs[name].handle)
    ensures OwedPVs(w') <= OwedPVs(w) - {name}
  {
    forall v | v in OwedPVs(w') ensures v in OwedPVs(w) - {name} {
      if v != name && Finished(w, v, w.pvs[v].handle) {
        assert Finished(w', v, w'.pvs[v].handle);
      }
    }
  }

  // ---------- The phases are the scripts of the controller ----------

  /** The commands of DeleteVolume that come before `phase`. */
  function DeletedSoFar(h: Handle, phase: DeletePhase): seq<Command> {
    match phase
    case Unmap => []
    case Unregister => [DeleteCommand(h, Unmap)]
    case Unlink => [DeleteCommand(h, Unmap), DeleteCommand(h, Unregister)]
    case DropTarget => [DeleteCommand(h, Unmap), DeleteCommand(h, Unregister), DeleteCommand(h, Unlink)]
  }

  lemma OneMoreCommand(s: Storage, done: seq<Command>, now: Storage, c: Command)
    requires RunAll(s, done) == Ok(now) && Apply(now, c).Ok?
    ensures RunAll(s, done + [c]) == Ok(Apply(now, c).value)
  {
    RunAllSplit(s, done, [c]);
    assert RunAll(now, [c]) == RunAll(Apply(now, c).value, []);
  }

  lemma DeletionRunsTheScript(h: Handle)
    requires h.target != "" && h.path != ""
    ensures DeletedSoFar(h, DropTarget) + [DeleteCommand(h, DropTarget)] == DeleteScript(h, h.target)
    ensures forall phase :: phase != DropTarget ==>
              DeletedSoFar(h, AfterPhase(phase)) == DeletedSoFar(h, phase) + [DeleteCommand(h, phase)]
  {
  }

  /** The commands of CreateVolume that come before `phase`. */
  function CreatedSoFar(req: Request, found: Found, phase: CreatePhase): seq<Command> {
    (if found.Absent? && !phase.MakeDisk? then [CreateCommand(req, found, MakeDisk)] else [])
    + (if phase.NameTarget? || phase.MapDisk? then [CreateCommand(req, found, MakeTarget)] else [])
    + (if phase.MapDisk? then [CreateCommand(req, found, NameTarget)] else [])
  }

  predicate LastPhase(found: Found, phase: CreatePhase) {
    phase.MapDisk? || (phase.NameTarget? && AlreadyMapped(found))
  }

  lemma CreationRunsTheScript(req: Request, found: Found, phase: CreatePhase)
    requires !Refused(req, found) && (found.Absent? || !phase.MakeDisk?)
    ensures CreatedSoFar(req, found, FirstPhase(found)) == []
    ensures LastPhase(found, phase) && (phase.MapDisk? ==> !AlreadyMapped(found)) ==>
              CreatedSoFar(req, found, phase) + [CreateCommand(req, found, phase)] == CreateScript(req, found)
    ensures !LastPhase(found, phase) ==>
              CreatedSoFar(req, found, NextPhase(phase)) == CreatedSoFar(req, found, phase) + [CreateCommand(req, found, phase)]
  {
  }

  function NextPhase(phase: CreatePhase): CreatePhase {
    match phase
    case MakeDisk => MakeTarget
    case MakeTarget => NameTarget
    case NameTarget => MapDisk
    case MapDisk => MapDisk
  }

  lemma DeleteCallRuns(s: Storage, h: Handle, phase: DeletePhase, now: Storage)
    requires h.target != "" && h.path != "" && RunAll(s, DeletedSoFar(h, phase)) == Ok(now)
    requires Apply(now, DeleteCommand(h, phase)).Ok?
    ensures RunAll(s, if phase.DropTarget? then DeleteScript(h, h.target) else DeletedSoFar(h, AfterPhase(phase)))
            == Ok(Apply(now, DeleteCommand(h, phase)).value)
  {
    OneMoreCommand(s, DeletedSoFar(h, phase), now, DeleteCommand(h, phase));
    DeletionRunsTheScript(h);
  }

  lemma CreateCallMoves(w: World, w': World)
    requires w.prov.Creating? && CreationFits(w.storage, w.prov.req, w.prov.found, w.prov.make)
    requires ProvisionerCall(w) == Some(w')
    ensures Apply(w.storage, CreateCommand(w.prov.req, w.prov.found, w.prov.make)) == Ok(w'.storage)
    ensures w' == w.(storage := w'.storage, prov := w'.prov)
    ensures w'.prov == if LastPhase(w.prov.found, w.prov.make)
                       then Publishing(HandleFor(w.prov.req, w.prov.found, w'.storage), w.prov.policy)
                       else w.prov.(make := NextPhase(w.prov.make))
  {
    CreateCallIs(w, w');
  }

  lemma CreateCallRuns(s: Storage, req: Request, found: Found, make: CreatePhase, now: Storage)
    requires CreationFits(now, req, found, make) && RunAll(s, CreatedSoFar(req, found, make)) == Ok(now)
    requires Apply(now, CreateCommand(req, found, make)).Ok?
    ensures RunAll(s, if LastPhase(found, make) then CreateScript(req, found) else CreatedSoFar(req, found, NextPhase(make)))
            == Ok(Apply(now, CreateCommand(req, found, make)).value)
  {
    OneMoreCommand(s, CreatedSoFar(req, found, make), now, CreateCommand(req, found, make));
    CreationRunsTheScript(req, found, make);
  }

  /** The commands made so far are those of DeleteVolume; after the last the volume has left nothing behind. */
  predicate ScriptGoesOn(w: World, w': World, before: Storage, h: Handle) {
    && w' == w.(storage := w'.storage, prov := w'.prov, begun := w'.begun, again := w'.again)
    && (if w'.prov.Deleting? then RunAll(before, DeletedSoFar(h, w'.prov.phase)) == Ok(w'.storage)
        else BackendGone(w'.storage, h) && RunAll(before, DeleteScript(h, h.target)) == Ok(w'.storage))
  }

  lemma SureDeletionGoesOn(run: seq<World>, before: Storage)
    requires Run(run) && SureDeletion(run[|run| - 1])
    requires var w := run[|run| - 1]; RunAll(before, DeletedSoFar(w.prov.pv.handle, w.prov.phase)) == Ok(w.storage)
    ensures var w := run[|run| - 1];
            ProvisionerCall(w).Some? && ScriptGoesOn(w, ProvisionerCall(w).value, before, w.prov.pv.handle)
  {
    var w := run[|run| - 1];
    DeletionIsOnTrack(run);
    DeletionNotRefused(run);
    assert PathOwner("") == "";
    DeleteCallRuns(before, w.prov.pv.handle, w.prov.phase, w.storage);
    DeleteIs(w, ProvisionerCall(w).value);
  }

  // ---------- Rolling back ----------

  lemma DeleteCommandKeepsHome(s: Storage, vol: string, h: Handle, phase: DeletePhase)
    requires HandleAtHome(s, vol, h) && Apply(s, DeleteCommand(h, phase)).Ok?
    ensures HandleAtHome(Apply(s, DeleteCommand(h, phase)).value, vol, h)
  {
  }

  lemma PublishingIsAtHome(run: seq<World>)
    requires Run(run) && run[|run| - 1].prov.Publishing?
    ensures var w := run[|run| - 1];
            HandleAtHome(w.storage, w.prov.handle.vol, w.prov.handle) && Intact(w.storage, w.prov.handle)
    ensures HandleFits(run[|run| - 1].prov.handle.vol, run[|run| - 1].prov.handle)
    ensures run[|run| - 1].prov.handle.vol !in run[|run| - 1].published
  {
    RunKeeps(run, |run| - 1);
  }

  lemma RollbackNotRefused(run: seq<World>)
    requires Run(run) && run[|run| - 1].prov.RollingBack?
    requires var w := run[|run| - 1];
             && HandleAtHome(w.storage, w.prov.handle.vol, w.prov.handle)
             && OnTrack(w.storage, w.prov.handle, w.prov.phase)
    ensures ProvisionerCall(run[|run| - 1]).Some?
    ensures var w := run[|run| - 1]; var w' := ProvisionerCall(w).value;
            && w' == w.(storage := w'.storage, prov := w'.prov)
            && HandleAtHome(w'.storage, w.prov.handle.vol, w.prov.handle)
            && (w.prov.phase.DropTarget? ==> w'.prov.Resting? && BackendGone(w'.storage, w.prov.handle))
            && (!w.prov.phase.DropTarget? ==>
                  && w'.prov == RollingBack(w.prov.handle, AfterPhase(w.prov.phase))
                  && OnTrack(w'.storage, w.prov.handle, AfterPhase(w.prov.phase)))
  {
    var w := run[|run| - 1];
    RunKeeps(run, |run| - 1);
    DeletionAdvances(w.storage, w.prov.handle.vol, w.prov.handle, w.prov.phase);
    DeleteCommandKeepsHome(w.storage, w.prov.handle.vol, w.prov.handle, w.prov.phase);
  }

  /** The PersistentVolume of a fresh volume, and the volume behind it. */
  predicate IsProvisioned(w: World, req: Request, policy: Policy) {
    && req.vol in w.pvs && (req.vol in w.published || req.vol in w.again)
    && var pv := w.pvs[req.vol];
       && Intact(w.storage, pv.handle) && HandleOf(w.published, req.vol, pv.handle)
       && pv.policy == policy && !Flagged(pv) && pv.finalizers == (if policy.Delete? then {Driver} else {})
       && pv.handle.portal == req.portal && pv.handle.lun == 0 && pv.handle.path == req.path
  }

  /** From its publication on the volume is vouched for, unless an earlier PersistentVolume stands against it. */
  predicate VouchedIfFresh(w: World, w': World, vol: string) {
    if Fresh(w, vol) then vol in w'.published && w'.strayed == w.strayed else vol in w'.strayed && vol in w'.again
  }

  /** Nothing of this volume stands in the way, and its target will have an IQN. */
  predicate Unhindered(s: Storage, req: Request) {
    req.path !in s.disks && (req.iqn != "" || (req.target in s.targets ==> s.targets[req.target].iqn != ""))
  }

  /** The IQN the target has before it is named. */
  predicate TargetsAsBefore(before: Storage, now: Storage, target: string, make: CreatePhase) {
    match make
    case MakeDisk => now.targets == before.targets
    case MakeTarget => now.targets == before.targets
    case NameTarget =>
      && target in now.targets
      && now.targets[target].iqn == (if target in before.targets then before.targets[target].iqn else DefaultIqn(target))
    case MapDisk => true
  }

  /** In every reachable world the creation's next call goes through, unless the target would have no IQN. */
  lemma CreationNotRefused(w: World, before: Storage)
    requires w.prov.Creating? && CreationFits(w.storage, w.prov.req, w.prov.found, w.prov.make)
    requires TargetsAsBefore(before, w.storage, TargetChosen(w.prov.req, w.prov.found), w.prov.make)
    ensures var req, found := w.prov.req, w.prov.found;
            ProvisionerCall(w).None? <==>
            w.prov.make.NameTarget? && EnsuredIqn(before, TargetChosen(req, found), IqnChosen(req, found)) == ""
    ensures ProvisionerCall(w).Some? && ProvisionerCall(w).value.prov.Creating? ==>
              TargetsAsBefore(before, ProvisionerCall(w).value.storage, TargetChosen(w.prov.req, w.prov.found),
                              ProvisionerCall(w).value.prov.make)
  {
  }

  lemma CreatingFits(run: seq<World>)
    requires Run(run) && run[|run| - 1].prov.Creating?
    ensures var w := run[|run| - 1]; CreationFits(w.storage, w.prov.req, w.prov.found, w.prov.make)
    ensures run[|run| - 1].prov.req.vol !in run[|run| - 1].published
  {
    RunKeeps(run, |run| - 1);
  }

  class Cluster {
    var w: World
    /** Every world so far. */
    ghost var run: seq<World>

    ghost predicate Valid()
      reads this
    {
      Run(run) && run[|run| - 1] == w
    }

    constructor (start: World)
      requires Init(start)
      ensures Valid() && w == start && run == [start]
    {
      w := start;
      run := [start];
    }

    /** One step of the protocol. */
    method Take(ghost a: Action, w': World)
      requires Valid() && Step(w, a, w')
      modifies this
      ensures Valid() && w == w' && old(run) <= run
    {
      RunExtends(run, a, w');
      w := w';
      run := run + [w'];
    }

    /** The attacher's next call; it gives up when the call is refused. */
    method CallAttacher() returns (ok: bool)
      requires Valid() && !w.att.Idle?
      modifies this
      ensures Valid() && old(run) <= run
      ensures ok == AttacherCall(old(w)).Some?
      ensures w == if ok then AttacherCall(old(w)).value else old(w).(att := Idle)
      ensures OnlyTouches(old(w), w, old(w).att.key) && (!old(w).att.Looking? ==> SameHandles(old(w), w))
    {
      match AttacherCall(w) {
        case Some(w') =>
          AttacherCallOnlyTouches(w, w');
          Take(AttachCall(false), w');
          return true;
        case None =>
          Take(AttacherFails, w.(att := Idle));
          return false;
      }
    }

    method CallProvisioner() returns (ok: bool)
      requires Valid() && !w.prov.Resting?
      modifies this
      ensures Valid() && old(run) <= run
      ensures ok == ProvisionerCall(old(w)).Some?
      ensures w == if ok then ProvisionerCall(old(w)).value else old(w).(prov := Resting)
    {
      match ProvisionerCall(w) {
        case Some(w') =>
          Take(Provision(false), w');
          return true;
        case None =>
          Take(ProvisionerFails, w.(prov := Resting));
          return false;
      }
    }

    /** Takes the driver's finalizer off; removes the object when nothing else holds it. */
    method DropVAFinalizer(key: Key, va: VA) returns (ok: bool)
      requires Valid() && w.att == Unmarking(key, va) && va.deleting
      modifies this
      ensures Valid() && w.att.Idle? && old(run) <= run && Works(old(w), w, key)
      ensures key in old(w).vas && old(w).vas[key] == va ==>
                ok && !PendingVA(w, key) && (va.finalizers == {Driver} ==> key !in w.vas)
    {
      UnmarkReleases(w);
      ok := CallAttacher();
    }

    /** ControllerUnpublishVolume, then the finalizer. */
    method Unpublish(key: Key, va: VA, h: Handle) returns (ok: bool)
      requires Valid() && w.att == Denying(key, va, h) && va.deleting
      modifies this
      ensures Valid() && w.att.Idle? && old(run) <= run && Works(old(w), w, key)
      ensures key in old(w).vas && old(w).vas[key] == va ==>
                ok && !PendingVA(w, key) && (va.finalizers == {Driver} ==> key !in w.vas)
    {
      ghost var before := w;
      ok := CallAttacher();
      if !ok { return; }
      ghost var denied := w;
      ok := DropVAFinalizer(key, va);
      WorksChains(before, denied, w, key);
    }

    /** ControllerPublishVolume: over a sound link it fails only if the target is gone. */
    method Admit(key: Key, va: VA, h: Handle) returns (ok: bool)
      requires Valid() && w.att == Allowing(key, va, h)
      modifies this
      ensures Valid() && old(run) <= run && Works(old(w), w, key) && w.vas == old(w).vas
      ensures w.att == if ok then Reporting(key, va, h) else Idle
      ensures key.pv in old(w).published ==> ok
    {
      if key.pv in w.published { AllowNotRefused(run); }
      ok := CallAttacher();
    }

    /** ControllerPublishVolume, then the status. */
    method Publish(key: Key, va: VA, h: Handle) returns (ok: bool)
      requires Valid() && w.att == Allowing(key, va, h)
      modifies this
      ensures Valid() && w.att.Idle? && old(run) <= run && Works(old(w), w, key)
      ensures key in old(w).vas && old(w).vas[key] == va && !va.deleting && key.pv in old(w).published ==>
                ok && !PendingVA(w, key)
    {
      ghost var before := w;
      AllowingIsMarked(run);
      ok := Admit(key, va, h);
      if !ok { return; }
      ghost var allowed := w;
      ok := CallAttacher();
      WorksChains(before, allowed, w, key);
      StoreVAOnlyTouches(allowed, key, va.(attached := true));
    }

    method AddVAFinalizer(key: Key, va: VA, h: Handle) returns (ok: bool)
      requires Valid() && w.att == Marking(key, va, h) && !va.deleting
      modifies this
      ensures Valid() && old(run) <= run && Works(old(w), w, key)
      ensures w.att == if ok then Refetching(key, h) else Idle
      ensures ok ==> key in w.vas && !w.vas[key].deleting
      ensures Current(old(w), key, va) ==> ok
    {
      MarkHolds(w);
      ok := CallAttacher();
    }

    method Refetch(key: Key, h: Handle)
      requires Valid() && w.att == Refetching(key, h) && key in w.vas
      modifies this
      ensures Valid() && old(run) <= run && w == old(w).(att := Allowing(key, old(w).vas[key], h))
    {
      RefetchFinds(w);
      var ok := CallAttacher();
    }

    /** The finalizer and a fresh copy, before publishing. */
    method Mark(key: Key, va: VA, h: Handle) returns (ok: bool)
      requires Valid() && w.att == Marking(key, va, h) && !va.deleting
      modifies this
      ensures Valid() && old(run) <= run && Works(old(w), w, key)
      ensures ok ==> key in w.vas && w.att == Allowing(key, w.vas[key], h) && !w.vas[key].deleting
      ensures !ok ==> w.att.Idle?
      ensures key in old(w).vas && old(w).vas[key] == va ==> ok
    {
      ok := AddVAFinalizer(key, va, h);
      if !ok { return; }
      ghost var marked := w;
      Refetch(key, h);
      WorksChains(old(w), marked, w, key);
    }

    /** The finalizer goes on first, unless it is there already. */
    method MarkAndPublish(key: Key, va: VA, h: Handle) returns (ok: bool)
      requires Valid() && !va.deleting
      requires w.att == if Driver in va.finalizers then Allowing(key, va, h) else Marking(key, va, h)
      modifies this
      ensures Valid() && w.att.Idle? && old(run) <= run && Works(old(w), w, key)
      ensures key in old(w).vas && old(w).vas[key] == va && key.pv in old(w).published ==> ok && !PendingVA(w, key)
    {
      if Driver in va.finalizers {
        ok := Publish(key, va, h);
        return;
      }
      ghost var before := w;
      ok := Mark(key, va, h);
      if !ok { return; }
      ghost var marked := w;
      ok := Publish(key, w.vas[key], h);
      WorksChains(before, marked, w, key);
    }

    /** Reads the attachment from its cache and then the volume from its own. */
    method Look(key: Key, va: VA)
      requires Valid() && w.att.Idle? && key in w.vaCache && w.vaCache[key].va == Some(va)
      modifies this
      ensures Valid() && old(run) <= run && w.att == AttachPlan(old(w), key, va)
      ensures w == old(w).(att := w.att, published := w.published, strayed := w.strayed, again := w.again)
      ensures Vouches(old(w), w, key.pv) && (!Outdated(old(w), key.pv) ==> SameHandles(old(w), w))
    {
      Take(StartAttach(key), w.(att := Looking(key, va)));
      LookingOnlyStrays(w, AttacherCall(w).value);
      var looked := CallAttacher();
    }

    /** The two halves of the reconcile, once the volume is known to be there. */
    method PublishOrUnpublish(key: Key, va: VA, h: Handle) returns (ok: bool)
      requires Valid()
      requires w.att == if va.deleting then (if Driver in va.finalizers then Denying(key, va, h) else Idle)
                        else if va.attached then Idle
                        else if Driver !in va.finalizers then Marking(key, va, h)
                        else Allowing(key, va, h)
      modifies this
      ensures Valid() && w.att.Idle? && old(run) <= run && Works(old(w), w, key)
      ensures key in old(w).vas && old(w).vas[key] == va && (va.deleting || key.pv in old(w).published) ==> ok && !PendingVA(w, key)
      ensures key in old(w).vas && old(w).vas[key] == va && va.deleting && va.finalizers == {Driver} ==> key !in w.vas
    {
      if va.deleting {
        if Driver !in va.finalizers { return true; }
        ok := Unpublish(key, va, h);
        return;
      }
      if va.attached { return true; }
      ok := MarkAndPublish(key, va, h);
    }

    /**
     * Works on whatever the informers show. When they show the truth it succeeds and leaves
     * nothing owed to this attachment: a deleting one has lost the driver's finalizer, another
     * one is attached.
     */
    method ReconcileVolumeAttachment(key: Key) returns (ok: bool)
      requires Valid() && w.att.Idle?
      modifies this
      ensures Valid() && w.att.Idle? && old(run) <= run
      ensures OnlyTouches(old(w), w, key)
      ensures !Outdated(old(w), key.pv) ==> SameHandles(old(w), w)
      ensures Informed(old(w), key)
              && (old(w).vas[key].deleting || (key.pv in old(w).published && !Outdated(old(w), key.pv))) ==>
                ok && !PendingVA(w, key)
      ensures Informed(old(w), key) && old(w).vas[key].deleting && old(w).vas[key].finalizers == {Driver} ==>
                key !in w.vas
    {
      if key !in w.vaCache || w.vaCache[key].va.None? { return true; }
      var va := w.vaCache[key].va.value;
      Look(key, va);
      match CachedPV(w, key.pv) {
        case None =>
          // the volume is gone: only the finalizer is left to drop
          if !(va.deleting && Driver in va.finalizers) { return true; }
          ok := DropVAFinalizer(key, va);
        case Some(pv) => ok := PublishOrUnpublish(key, va, pv.handle);
      }
    }

    // ---------- The provisioner: deletion ----------

    /** Whether the lister shows an attachment of this volume. */
    method VolumeAttachmentExists(name: string) returns (found: bool)
      ensures found == !NoneListed(w, name)
    {
      var rest := w.vaCache.Keys;
      while rest != {}
        invariant rest <= w.vaCache.Keys
        invariant forall k :: k in w.vaCache && k !in rest ==> k.pv != name || w.vaCache[k].va.None?
        decreases rest
      {
        var k :| k in rest;
        if k.pv == name && w.vaCache[k].va.Some? { return true; }
        rest := rest - {k};
      }
      return false;
    }

    /** One call of DeleteVolume. */
    method CallDeletion(ghost before: Storage, ghost name: string, ghost pv: PV) returns (ok: bool)
      requires Valid() && w.prov.Deleting? && w.prov.name == name && w.prov.pv == pv
      modifies this
      ensures Valid() && old(run) <= run && OnlyRemoves(old(w), w, name) && SameObjects(old(w), w)
      ensures !ok ==> w.prov.Resting?
      ensures ok ==> w.prov == (if old(w).prov.phase.DropTarget? then AfterDeletion(name, pv)
                                else Deleting(name, pv, AfterPhase(old(w).prov.phase)))
      ensures SureDeletion(old(w)) && RunAll(before, DeletedSoFar(pv.handle, old(w).prov.phase)) == Ok(old(w).storage) ==>
                ok && ScriptGoesOn(old(w), w, before, pv.handle)
    {
      if SureDeletion(w) && RunAll(before, DeletedSoFar(pv.handle, w.prov.phase)) == Ok(w.storage) {
        SureDeletionGoesOn(run, before);
      }
      ghost var now := w;
      ok := CallProvisioner();
      if ok { DeleteCallOnlyRemoves(now, w); }
    }

    /**
     * The calls of DeleteVolume. By a copy of the latest PersistentVolume, of a volume on which no
     * worker has strayed, they go through in whatever state earlier attempts have left the host.
     */
    method DeleteBackend(name: string, pv: PV) returns (ok: bool)
      requires Valid() && w.prov == Deleting(name, pv, Unmap)
      modifies this
      ensures Valid() && old(run) <= run && OnlyRemoves(old(w), w, name) && SameObjects(old(w), w)
      ensures w.prov == if ok then AfterDeletion(name, pv) else Resting
      ensures SureDeletion(old(w)) ==>
                && ok && w == old(w).(storage := w.storage, prov := AfterDeletion(name, pv), begun := w.begun, again := w.again)
                && BackendGone(w.storage, pv.handle)
                && RunAll(old(w).storage, DeleteScript(pv.handle, pv.handle.target)) == Ok(w.storage)
    {
      ghost var before := w;
      ok := true;
      while w.prov.Deleting?
        invariant Valid() && old(run) <= run && OnlyRemoves(before, w, name) && SameObjects(before, w) && ok
        invariant w.prov.Deleting? ==> w.prov == Deleting(name, pv, w.prov.phase)
        invariant !w.prov.Deleting? ==> w.prov == AfterDeletion(name, pv)
        invariant SureDeletion(before) ==>
                    ScriptGoesOn(before, w, before.storage, pv.handle)
        decreases if w.prov.Deleting? then PhasesLeft(w.prov.phase) else 0
      {
        ghost var now := w;
        ok := CallDeletion(before.storage, name, pv);
        OnlyRemovesChains(before, now, w, name);
        if !ok { return; }
      }
    }

    /** Takes the driver's finalizer off the PersistentVolume, unless it has changed meanwhile. */
    method DropPVFinalizer(name: string, pv: PV) returns (ok: bool)
      requires Valid() && w.prov == DroppingFinalizer(name, pv)
      modifies this
      ensures Valid() && old(run) <= run && OnlyRemoves(old(w), w, name) && SameHandles(old(w), w) && w.storage == old(w).storage
      ensures ok <==> name in old(w).pvs && old(w).pvs[name].rv == pv.rv
      ensures w.prov == if ok then AfterDropping(name, pv) else Resting
      ensures ok && name in w.pvs ==>
                w.pvs[name].deleting == pv.deleting && w.pvs[name].finalizers == pv.finalizers - {Driver}
      ensures ok ==> (name in w.pvs <==> !(pv.deleting && pv.finalizers - {Driver} == {}))
      ensures Logged(old(w), w, name)
    {
      DroppingKnowsObject(run);
      DropReleases(w);
      ok := CallProvisioner();
    }

    method DeletePV(name: string)
      requires Valid() && w.prov == DeletingPV(name)
      modifies this
      ensures Valid() && old(run) <= run && w.prov.Resting?
      ensures OnlyRemoves(old(w), w, name) && SameHandles(old(w), w) && w.storage == old(w).storage
      ensures name in w.pvs ==>
                w.pvs[name].deleting && name in old(w).pvs && w.pvs[name].finalizers == old(w).pvs[name].finalizers
      ensures name in old(w).pvs && !old(w).pvs[name].deleting && old(w).pvs[name].finalizers == {} ==> name !in w.pvs
      ensures Logged(old(w), w, name)
    {
      DeletePVEnds(w);
      var ok := CallProvisioner();
    }

    /** A volume that is to be kept only loses the driver's finalizer. */
    method ReleaseKept(name: string, pv: PV) returns (ok: bool)
      requires Valid() && w.prov.Resting? && CachedPV(w, name) == Some(pv) && pv.policy.Keep?
      modifies this
      ensures Valid() && w.prov.Resting? && old(run) <= run
      ensures OnlyRemoves(old(w), w, name) && Logged(old(w), w, name) && w.storage == old(w).storage
    {
      if !pv.deleting || Driver !in pv.finalizers { return true; }
      CachedIsSeen(run, name);
      Take(StartDrop(name, pv), w.(prov := DroppingFinalizer(name, pv)));
      ok := DropPVFinalizer(name, pv);
    }

    /** The finalizer, then the object if it is only Released. */
    method LetGoOf(name: string, pv: PV) returns (ok: bool)
      requires Valid() && w.prov == AfterDeletion(name, pv) && pv.policy.Delete?
      modifies this
      ensures Valid() && w.prov.Resting? && old(run) <= run
      ensures OnlyRemoves(old(w), w, name) && SameHandles(old(w), w) && Logged(old(w), w, name) && w.storage == old(w).storage
      ensures name in old(w).pvs && old(w).pvs[name] == pv ==>
                ok && (name in w.pvs ==> w.pvs[name].deleting && Driver !in w.pvs[name].finalizers)
      ensures name in old(w).pvs && old(w).pvs[name] == pv && pv.finalizers == {Driver} ==> name !in w.pvs
    {
      ghost var before := w;
      if Driver in pv.finalizers {
        ok := DropPVFinalizer(name, pv);
        if !ok { return; }
      }
      ghost var dropped := w;
      if !pv.deleting {
        DeletePV(name);
        OnlyRemovesChains(before, dropped, w, name);
        LoggedChains(before, dropped, w, name);
      }
      ok := true;
    }

    /** DeleteVolume, then the driver lets go of the object. */
    method DeleteAndRelease(name: string, pv: PV) returns (ok: bool)
      requires Valid() && StartsDeletion(w, name, pv, w.(prov := Deleting(name, pv, Unmap)))
      modifies this
      ensures Valid() && w.prov.Resting? && old(run) <= run && OnlyRemoves(old(w), w, name)
      ensures name in old(w).pvs && old(w).pvs[name] == pv && name in old(w).published ==>
                ok && Finished(w, name, pv.handle) && w.published == old(w).published
      ensures name in old(w).pvs && old(w).pvs[name] == pv && name in old(w).published && pv.finalizers == {Driver} ==>
                name !in w.pvs
      ensures Logged(old(w), w, name)
    {
      ghost var start := w;
      CurrentIsLatest(run, name);
      Take(StartDelete(name, pv), w.(prov := Deleting(name, pv, Unmap)));
      ok := DeleteBackend(name, pv);
      OnlyRemovesChains(start, start.(prov := Deleting(name, pv, Unmap)), w, name);
      if !ok { return; }
      ghost var deleted := w;
      ok := LetGoOf(name, pv);
      OnlyRemovesChains(start, deleted, w, name);
    }

    /**
     * Deletes the backend of a flagged volume once no attachment is listed, then lets go of the
     * object. The lister is taken to be no older than the PersistentVolume copy.
     */
    method ReconcilePersistentVolumeDeletion(name: string) returns (ok: bool)
      requires Valid() && w.prov.Resting?
      requires CachedPV(w, name).Some? ==> ListIsRecent(w, name, CachedPV(w, name).value.rv)
      modifies this
      ensures Valid() && w.prov.Resting? && old(run) <= run && OnlyRemoves(old(w), w, name)
      ensures CachedPV(old(w), name).None? || !Flagged(CachedPV(old(w), name).value) ==> ok && w == old(w)
      ensures !NoneListed(old(w), name) && CachedPV(old(w), name).Some? && CachedPV(old(w), name).value.policy.Delete? ==>
                ok && w == old(w)
      ensures name in old(w).pvs && CachedPV(old(w), name) == Some(old(w).pvs[name]) && NoneListed(old(w), name)
              && Flagged(old(w).pvs[name]) && old(w).pvs[name].policy.Delete? && name in old(w).published ==>
                && ok && Finished(w, name, old(w).pvs[name].handle) && w.published == old(w).published
                && (old(w).pvs[name].finalizers == {Driver} ==> name !in w.pvs)
      ensures Logged(old(w), w, name)
    {
      ghost var before := w;
      match CachedPV(w, name) {
        case None => return true;
        case Some(pv) =>
          if !Flagged(pv) { return true; }
          if !pv.policy.Delete? {
            ok := ReleaseKept(name, pv);
            return;
          }
          var attached := VolumeAttachmentExists(name);
          if attached { return true; }
          CachedIsSeen(run, name);
          ok := DeleteAndRelease(name, pv);
      }
    }

    // ---------- The informers ----------

    method ShowVA(key: Key)
      requires Valid() && key in w.vas
      modifies this
      ensures Valid() && old(run) <= run
      ensures w == old(w).(vaCache := w.vaCache) && key in w.vaCache && w.vaCache[key].va == Some(w.vas[key])
    {
      CurrentVASeeable(run, key);
      var y := VAVersion(key, w.vas[key].rv, Some(w.vas[key]));
      Take(SeeVA(y), w.(vaCache := w.vaCache[key := y]));
    }

    method ShowPV(name: string)
      requires Valid() && name in w.pvs
      modifies this
      ensures Valid() && old(run) <= run
      ensures w == old(w).(pvCache := w.pvCache) && CachedPV(w, name) == Some(w.pvs[name])
    {
      CurrentPVSeeable(run, name);
      var x := PVVersion(name, w.pvs[name].rv, Some(w.pvs[name]));
      Take(SeePV(x), w.(pvCache := w.pvCache[name := x]));
    }

    method ShowRemoval(key: Key)
      requires Valid() && key in w.vaCache && key !in w.vas
      modifies this
      ensures Valid() && old(run) <= run
      ensures w == old(w).(vaCache := w.vaCache) && w.vaCache.Keys == old(w).vaCache.Keys
      ensures w.vaCache[key].va.None? && forall k :: k in w.vaCache && k != key ==> w.vaCache[k] == old(w).vaCache[k]
    {
      RemovalSeeable(run, key);
      var y :| y in w.vaLog && y.key == key && y.va.None? && w.vaCache[key].rv <= y.rv;
      Take(SeeVA(y), w.(vaCache := w.vaCache[key := y]));
    }

    /** The lister comes to show that no attachment of this volume is left. */
    method ShowRemovals(name: string)
      requires Valid() && NoneAttached(w.vas, name)
      modifies this
      ensures Valid() && old(run) <= run
      ensures w == old(w).(vaCache := w.vaCache) && NoneListed(w, name)
    {
      var rest := w.vaCache.Keys;
      while rest != {}
        invariant Valid() && old(run) <= run && w == old(w).(vaCache := w.vaCache) && rest <= w.vaCache.Keys
        invariant forall k :: k in w.vaCache && k !in rest ==> k.pv != name || w.vaCache[k].va.None?
        decreases rest
      {
        var k :| k in rest;
        if k.pv == name { ShowRemoval(k); }
        rest := rest - {k};
      }
    }

    // ---------- Both workers, once the rest of the cluster is quiet ----------

    /** One attachment that is owed something, with the informers shown what they need. */
    method SettleAttachment(key: Key) returns (ghost shown: World)
      requires Valid() && w.att.Idle? && key in OwedVAs(w)
      modifies this
      ensures Valid() && w.att.Idle? && old(run) <= run
      ensures shown == old(w).(vaCache := shown.vaCache, pvCache := shown.pvCache) && OnlyTouches(shown, w, key)
      ensures !PendingVA(w, key) && NoneLingers(shown.vas) && SameVouched(shown, w)
      ensures shown.vas[key].deleting && shown.vas[key].finalizers == {Driver} ==> key !in w.vas
    {
      ShowVA(key);
      if key.pv in w.pvs {
        ShowPV(key.pv);
        ShownIsNotOutdated(run, key.pv);
      }
      NothingLingers(run);
      shown := w;
      var ok := ReconcileVolumeAttachment(key);
    }

    /** The attacher's queue runs dry: nothing is owed to any attachment any more. */
    method SettleAttachments()
      requires Valid() && w.att.Idle?
      modifies this
      ensures Valid() && w.att.Idle? && old(run) <= run && w.prov == old(w).prov
      ensures NothingOwed(w)
      ensures AttachmentsSettling(old(w).vas, w.vas)
      ensures w.pvs == old(w).pvs && w.storage.disks == old(w).storage.disks
      ensures w.storage.targets.Keys == old(w).storage.targets.Keys
      ensures w.births == old(w).births && SameVouched(old(w), w)
    {
      ghost var start := w;
      var owed := OwedVAs(w);
      while owed != {}
        invariant Valid() && w.att.Idle? && old(run) <= run && w.prov == start.prov && w.pvs == start.pvs
        invariant w.births == start.births && SameVouched(start, w)
        invariant owed == OwedVAs(w) && AttachmentsSettling(start.vas, w.vas)
        invariant w.storage.disks == start.storage.disks && w.storage.targets.Keys == start.storage.targets.Keys
        decreases owed
      {
        var key :| key in owed;
        ghost var shown := SettleAttachment(key);
        SettlingChains(start, shown, w, key);
        owed := OwedVAs(w);
      }
      assert forall k :: PendingVA(w, k) ==> k in owed;
    }

    /** One volume that may go, with its informers shown what they need. */
    method SettleVolume(name: string) returns (ghost shown: World)
      requires Valid() && w.prov.Resting? && name in OwedPVs(w)
      modifies this
      ensures Valid() && w.prov.Resting? && old(run) <= run
      ensures shown == old(w).(vaCache := shown.vaCache, pvCache := shown.pvCache)
      ensures OnlyRemoves(shown, w, name) && Finished(w, name, old(w).pvs[name].handle) && w.published == old(w).published
    {
      ShowPV(name);
      ShowRemovals(name);
      shown := w;
      var ok := ReconcilePersistentVolumeDeletion(name);
    }

    /** The provisioner's queue runs dry: volumes without attachments that may go are gone. */
    method SettleVolumes()
      requires Valid() && w.prov.Resting?
      modifies this
      ensures Valid() && w.prov.Resting? && old(run) <= run && w.att == old(w).att && w.vas == old(w).vas
      ensures w.pvs.Keys <= old(w).pvs.Keys
      ensures SameVouched(old(w), w)
      ensures forall v ::
                v in old(w).pvs && v in old(w).published && Doomed(old(w).pvs[v]) && NoneAttached(w.vas, v) ==>
                  Finished(w, v, old(w).pvs[v].handle)
    {
      ghost var start := w;
      var owed := OwedPVs(w);
      while owed != {}
        invariant Valid() && w.prov.Resting? && old(run) <= run && w.att == start.att && w.vas == start.vas
        invariant owed == OwedPVs(w) && w.pvs.Keys <= start.pvs.Keys && SameVouched(start, w)
        invariant VolumesSettling(start.pvs, w)
        invariant forall v :: v in w.pvs ==> w.pvs[v].handle == start.pvs[v].handle
        decreases owed
      {
        var name :| name in owed;
        ghost var shown := SettleVolume(name);
        RemovalLeavesOthersOwed(shown, w, name);
        VolumesSettlingChains(start.pvs, shown, w, name);
        owed := OwedPVs(w);
      }
      assert forall v :: v in w.pvs && v in w.published && Doomed(w.pvs[v]) && NoneAttached(w.vas, v) ==>
          Finished(w, v, w.pvs[v].handle) || v in owed;
    }

    /**
     * With the rest of the cluster quiet and no call failing, repeated reconciliation ends. Every
     * deleting attachment has then lost the driver's finalizer and every other one whose volume
     * exists is Attached; every flagged Delete-policy volume held by no attachment, or only by
     * deleting ones of the driver, has its backend gone and is released by the driver.
     */
    method Settle()
      requires Valid() && w.att.Idle? && w.prov.Resting?
      modifies this
      ensures Valid() && w.att.Idle? && w.prov.Resting? && old(run) <= run
      ensures NothingOwed(w)
      ensures forall v :: MayGo(old(w), v) ==> Finished(w, v, old(w).pvs[v].handle)
    {
      ghost var start := w;
      SettleAttachments();
      forall v | MayGo(start, v) ensures NoneAttached(w.vas, v) {
        SettledAttachmentsAreGone(run, start.vas, v);
      }
      SettleVolumes();
    }

    // ---------- The provisioner: creation ----------

    /** One call of CreateVolume. */
    method CallCreation(ghost before: Storage, ghost req: Request, ghost found: Found, ghost policy: Policy,
            ghost make: CreatePhase) returns (ok: bool)
      requires Valid() && w.prov == Creating(req, found, policy, make)
      requires TargetsAsBefore(before, w.storage, TargetChosen(req, found), make)
      requires RunAll(before, CreatedSoFar(req, found, make)) == Ok(w.storage)
      modifies this
      ensures Valid() && old(run) <= run && w == old(w).(storage := w.storage, prov := w.prov)
      ensures ok <==> !(make.NameTarget? && EnsuredIqn(before, TargetChosen(req, found), IqnChosen(req, found)) == "")
      ensures !ok ==> w.prov.Resting?
      ensures ok && LastPhase(found, make) ==>
                && w.prov == Publishing(HandleFor(req, found, w.storage), policy)
                && RunAll(before, CreateScript(req, found)) == Ok(w.storage)
      ensures ok && !LastPhase(found, make) ==>
                && w.prov == Creating(req, found, policy, NextPhase(make))
                && TargetsAsBefore(before, w.storage, TargetChosen(req, found), NextPhase(make))
                && RunAll(before, CreatedSoFar(req, found, NextPhase(make))) == Ok(w.storage)
    {
      CreatingFits(run);
      ghost var now := w;
      CreationNotRefused(w, before);
      ok := CallProvisioner();
      if !ok { return; }
      CreateCallMoves(now, w);
      CreateCallRuns(before, req, found, make, now.storage);
    }

    /**
     * The calls of CreateVolume; on failure whatever was done stays. Over a sound link they fail only
     * if the target would have no IQN.
     */
    method CreateBackend(req: Request, found: Found, policy: Policy) returns (ok: bool)
      requires Valid() && StartsCreation(w, req, found)
      modifies this
      ensures Valid() && old(run) <= run
      ensures w == Forgotten(old(w), req.vol).(storage := w.storage, prov := w.prov)
      ensures if ok then w.prov == Publishing(HandleFor(req, found, w.storage), policy) else w.prov.Resting?
      ensures ok ==> RunAll(old(w).storage, CreateScript(req, found)) == Ok(w.storage)
      ensures ok <==> EnsuredIqn(old(w).storage, TargetChosen(req, found), IqnChosen(req, found)) != ""
    {
      ghost var before := w;
      Take(StartCreate(req, found, policy), CreationStarted(w, req, found, policy));
      CreationRunsTheScript(req, found, FirstPhase(found));
      while w.prov.Creating?
        invariant Valid() && old(run) <= run
        invariant w == Forgotten(before, req.vol).(storage := w.storage, prov := w.prov)
        invariant w.prov.Creating? ==>
                    && w.prov == Creating(req, found, policy, w.prov.make)
                    && TargetsAsBefore(before.storage, w.storage, TargetChosen(req, found), w.prov.make)
                    && RunAll(before.storage, CreatedSoFar(req, found, w.prov.make)) == Ok(w.storage)
        invariant !w.prov.Creating? || w.prov.make.MapDisk? ==>
                    EnsuredIqn(before.storage, TargetChosen(req, found), IqnChosen(req, found)) != ""
        invariant !w.prov.Creating? ==>
                    && w.prov == Publishing(HandleFor(req, found, w.storage), policy)
                    && RunAll(before.storage, CreateScript(req, found)) == Ok(w.storage)
        decreases if w.prov.Creating? then CreatePhasesLeft(w.prov.make) else 0
      {
        ok := CallCreation(before.storage, req, found, policy, w.prov.make);
        if !ok { return; }
      }
      ok := true;
    }

    /** DeleteVolume on a volume whose PersistentVolume could not be created leaves nothing of it. */
    method RollBack()
      requires Valid() && w.prov.Publishing?
      modifies this
      ensures Valid() && old(run) <= run
      ensures w == old(w).(storage := w.storage, prov := Resting)
      ensures BackendGone(w.storage, old(w).prov.handle)
    {
      ghost var before := w;
      var h := w.prov.handle;
      PublishingIsAtHome(run);
      Take(PublishFails, w.(prov := RollingBack(h, Unmap)));
      var phase := Unmap;
      while !phase.DropTarget?
        invariant Valid() && old(run) <= run
        invariant w == before.(storage := w.storage, prov := RollingBack(h, phase))
        invariant HandleAtHome(w.storage, h.vol, h) && OnTrack(w.storage, h, phase)
        decreases PhasesLeft(phase)
      {
        RollbackNotRefused(run);
        var ok := CallProvisioner();
        phase := AfterPhase(phase);
      }
      RollbackNotRefused(run);
      var ok := CallProvisioner();
    }

    /** Creates the PersistentVolume of a volume that is complete. */
    method PublishPV(req: Request, found: Found, policy: Policy) returns (ok: bool)
      requires Valid() && w.prov == Publishing(HandleFor(req, found, w.storage), policy) && req.vol !in w.pvs
      modifies this
      ensures Valid() && old(run) <= run && w.prov.Resting? && w.vas == old(w).vas && w.att == old(w).att
      ensures ok && IsProvisioned(w, req, policy) && w.pvs.Keys == old(w).pvs.Keys + {req.vol}
      ensures w.pvs[req.vol].handle == old(w).prov.handle
      ensures w.vaCache == old(w).vaCache && w.vaLog == old(w).vaLog && w.pvCache == old(w).pvCache
      ensures w.births == old(w).births[req.vol := w.pvs[req.vol].rv] && VouchedIfFresh(old(w), w, req.vol)
      ensures old(w).pvLog <= w.pvLog && (policy.Delete? ==> w.kept == old(w).kept)
      ensures forall v :: v in old(w).pvs ==> v in w.pvs && w.pvs[v] == old(w).pvs[v]
    {
      PublishingIsAtHome(run);
      ok := CallProvisioner();
    }

    /** CreateVolume, then the PersistentVolume, or the way back when the API server refuses it. */
    method CreateAndPublish(req: Request, found: Found, policy: Policy, apiFails: bool) returns (ok: bool)
      requires Valid() && StartsCreation(w, req, found)
      modifies this
      ensures Valid() && old(run) <= run && w.prov.Resting? && w.vas == old(w).vas && w.att == old(w).att
      ensures !ok ==> w == Forgotten(old(w), req.vol).(storage := w.storage)
      ensures ok ==> IsProvisioned(w, req, policy) && w.pvs.Keys == old(w).pvs.Keys + {req.vol}
      ensures ok ==> w.pvs[req.vol].handle.target == TargetChosen(req, found)
      ensures w.vaCache == old(w).vaCache && w.vaLog == old(w).vaLog && w.pvCache == old(w).pvCache
      ensures ok ==> w.births == old(w).births[req.vol := w.pvs[req.vol].rv] && VouchedIfFresh(old(w), w, req.vol)
      ensures old(w).pvLog <= w.pvLog && (policy.Delete? ==> w.kept == old(w).kept)
      ensures ok <==> !apiFails && EnsuredIqn(old(w).storage, TargetChosen(req, found), IqnChosen(req, found)) != ""
      ensures forall v :: v in old(w).pvs ==> v in w.pvs && w.pvs[v] == old(w).pvs[v]
    {
      ok := CreateBackend(req, found, policy);
      if !ok { return; }
      if apiFails {
        RollBack();
        return false;
      }
      ok := PublishPV(req, found, policy);
    }

    /**
     * Provisions an unbound claim of this driver. `apiFails` is the API server refusing the new
     * PersistentVolume.
     */
    method ReconcilePersistentVolumeClaim(req: Request, policy: Policy, apiFails: bool) returns (ok: bool)
      requires Valid() && w.prov.Resting? && WellNamed(req) && OneHome(w.storage, req.vol, req.path)
      modifies this
      ensures Valid() && old(run) <= run && w.prov.Resting? && w.vas == old(w).vas && w.att == old(w).att
      ensures req.vol in old(w).pvs ==> ok && w == old(w)
      ensures forall v :: v in old(w).pvs ==> v in w.pvs && w.pvs[v] == old(w).pvs[v]
      ensures !ok ==> w.pvs == old(w).pvs
      ensures ok && req.vol !in old(w).pvs ==>
                IsProvisioned(w, req, policy) && w.pvs.Keys == old(w).pvs.Keys + {req.vol}
      ensures w.vaCache == old(w).vaCache && w.vaLog == old(w).vaLog && w.pvCache == old(w).pvCache
      ensures req.vol !in old(w).pvs && Unhindered(old(w).storage, req) ==>
                ok == !apiFails && (ok ==> w.pvs[req.vol].handle.target == req.target)
      ensures ok && req.vol !in old(w).pvs ==>
                w.births == old(w).births[req.vol := w.pvs[req.vol].rv] && VouchedIfFresh(old(w), w, req.vol)
      ensures old(w).pvLog <= w.pvLog && (policy.Delete? ==> w.kept == old(w).kept)
    {
      if req.vol in w.pvs { return true; }
      var host := new WinRMBackend(w.storage, None);
      var probe := host.GetVolumeByName(req.path);
      if probe.Err? || Refused(req, probe.value) { return false; }
      ok := CreateAndPublish(req, probe.value, policy, apiFails);
    }
  }
}
