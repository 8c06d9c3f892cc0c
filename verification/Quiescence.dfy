/**
 * Why the workers come to rest. While the rest of the cluster is quiet every write, to the API server
 * or to the Windows host, uses up a token, and nothing makes new ones: whatever the informers deliver
 * and when, however the calls of the two workers interleave and fail, only so many writes are made.
 */
module Quiescence {
  import opened Results
  import opened Naming
  import opened WindowsStorage
  import opened ControllerServer
  import opened Lifecycle
  import opened LifecycleInvariants
  import opened LifecycleSteps
  import opened LifecycleCommands
  import opened LifecycleWorkers
  import opened LifecycleCalls
  import opened LifecycleAttacher
  import opened LifecycleSafety
  import opened LifecycleProgress
  import opened Plans

  /** A step of a worker or an informer, or a failure: everything but the rest of the cluster and new claims. */
  predicate Quiet(a: Action) {
    !a.EditPV? && !a.PurgePV? && !a.EditVA? && !a.PurgeVA? && !a.Attach? && !a.StartCreate?
  }

  /** Reconciles of PersistentVolumes work by copies of the latest object. */
  predicate Calm(w: World, a: Action) {
    Quiet(a) && (a.StartDelete? ==> OfLatest(w.births, a.name, a.copy.rv))
  }

  /** The informer has left earlier PersistentVolumes of the same names behind. */
  predicate CaughtUpOnce(pvLog: set<PVVersion>, pvCache: map<string, PVVersion>, births: map<string, nat>) {
    forall x :: x in pvLog ==> LeftBehind(x, pvCache, births)
  }

  predicate LeftBehind(x: PVVersion, pvCache: map<string, PVVersion>, births: map<string, nat>) {
    OfLatest(births, x.name, x.rv) || (x.name in pvCache && OfLatest(births, x.name, pvCache[x.name].rv))
  }

  /** Every volume is vouched for, and nothing that is known to a worker could lead it astray. */
  predicate Clean(w: World) {
    && w.births.Keys <= w.published.Keys
    && CaughtUpOnce(w.pvLog, w.pvCache, w.births)
    && (w.prov.Deleting? ==> OfLatest(w.births, w.prov.name, w.prov.pv.rv))
  }

  /** Something on the API server or on the host has changed. */
  predicate Writes(w: World, w': World) {
    w'.rev != w.rev || w'.storage != w.storage
  }

  // ---------- Tokens of attachments: their own updates ----------

  predicate Live(vas: map<Key, VA>, key: Key) {
    key in vas && !vas[key].deleting
  }

  predicate MayMark(vas: map<Key, VA>, key: Key) {
    Live(vas, key) && Driver !in vas[key].finalizers
  }

  predicate MayReport(vas: map<Key, VA>, key: Key) {
    key in vas && !vas[key].attached
  }

  predicate MayUnmarkIt(vas: map<Key, VA>, key: Key) {
    key in vas && vas[key].deleting && Driver in vas[key].finalizers
  }

  ghost predicate FewerUpdates(vas: map<Key, VA>, vas': map<Key, VA>) {
    forall key :: FewerUpdatesAt(vas, vas', key)
  }

  predicate FewerUpdatesAt(vas: map<Key, VA>, vas': map<Key, VA>, key: Key) {
    && (MayMark(vas', key) ==> MayMark(vas, key)) && (MayReport(vas', key) ==> MayReport(vas, key))
    && (MayUnmarkIt(vas', key) ==> MayUnmarkIt(vas, key))
  }

  // ---------- Tokens of attachments: access on the host ----------

  predicate IsAdmitted(s: Storage, published: map<string, Handle>, key: Key) {
    key.pv in published && Admitted(s, published[key.pv].target, key.node)
  }

  /** A version that says that the current incarnation is not deleting. */
  predicate Promising(vas: map<Key, VA>, key: Key, y: VAVersion) {
    key in vas && y.key == key && y.va.Some? && y.va.value.born == vas[key].born && !y.va.value.deleting
  }

  predicate AllowUnderWay(vas: map<Key, VA>, att: Attacher, key: Key) {
    match att
    case Looking(k, va) => k == key && !va.deleting && SameIncarnation(vas, key, va)
    case Marking(k, va, _) => k == key && SameIncarnation(vas, key, va)
    case Refetching(k, _) => k == key && key in vas
    case Allowing(k, _, _) => k == key && key in vas
    case _ => false
  }

  /** The attacher may yet admit the node: from a copy still to be seen or one it works from. */
  ghost predicate AllowAhead(vas: map<Key, VA>, vaLog: set<VAVersion>, vaCache: map<Key, VAVersion>, att: Attacher, key: Key) {
    || (exists y :: y in vaLog && Promising(vas, key, y) && CacheNotPast(vaCache, key, y.rv))
    || AllowUnderWay(vas, att, key)
  }

  predicate OldDenyUnderWay(vas: map<Key, VA>, att: Attacher, key: Key) {
    match att
    case Looking(k, va) => k == key && va.deleting && key in vas && va.born != vas[key].born
    case Denying(k, va, _) => k == key && key in vas && va.born != vas[key].born
    case _ => false
  }

  /** The attacher may yet shut the node out because of an earlier incarnation. */
  predicate OldDenyAhead(vas: map<Key, VA>, vaCache: map<Key, VAVersion>, att: Attacher, key: Key) {
    key in vas && (key !in vaCache || vaCache[key].rv < vas[key].born || OldDenyUnderWay(vas, att, key))
  }

  ghost predicate MayAllow(w: World, key: Key) {
    && AllowAhead(w.vas, w.vaLog, w.vaCache, w.att, key)
    && (!IsAdmitted(w.storage, w.published, key) || OldDenyAhead(w.vas, w.vaCache, w.att, key))
  }

  predicate MayDenyOld(w: World, key: Key) {
    IsAdmitted(w.storage, w.published, key) && OldDenyAhead(w.vas, w.vaCache, w.att, key)
  }

  ghost predicate MayDeny(w: World, key: Key) {
    && !Live(w.vas, key)
    && (IsAdmitted(w.storage, w.published, key) || AllowAhead(w.vas, w.vaLog, w.vaCache, w.att, key))
  }

  ghost predicate FewerAccesses(w: World, w': World) {
    forall key :: FewerAt(w, w', key)
  }

  ghost predicate FewerAt(w: World, w': World, key: Key) {
    && (MayAllow(w', key) ==> MayAllow(w, key)) && (MayDenyOld(w', key) ==> MayDenyOld(w, key))
    && (MayDeny(w', key) ==> MayDeny(w, key))
  }

  // ---------- Tokens of volumes ----------

  predicate Reserved(prov: Provisioner, vol: string) {
    (prov.Creating? && prov.req.vol == vol) || (prov.Publishing? && prov.handle.vol == vol)
  }

  predicate MayDrop(pvs: map<string, PV>, prov: Provisioner, name: string) {
    (name in pvs && Driver in pvs[name].finalizers) || Reserved(prov, name)
  }

  predicate MayDeletePV(pvs: map<string, PV>, prov: Provisioner, name: string) {
    (name in pvs && !pvs[name].deleting) || Reserved(prov, name)
  }

  ghost predicate FewerVolumes(pvs: map<string, PV>, prov: Provisioner, pvs': map<string, PV>, prov': Provisioner) {
    forall name :: FewerVolumesAt(pvs, prov, pvs', prov', name)
  }

  predicate FewerVolumesAt(pvs: map<string, PV>, prov: Provisioner, pvs': map<string, PV>, prov': Provisioner, name: string) {
    && (MayDrop(pvs', prov', name) ==> MayDrop(pvs, prov, name))
    && (MayDeletePV(pvs', prov', name) ==> MayDeletePV(pvs, prov, name))
  }

  /** The calls a creation under way can still make, with its publication and rollback. */
  function CallsLeft(prov: Provisioner): nat {
    match prov
    case Creating(_, _, _, make) => CreatePhasesLeft(make) + 5
    case Publishing(_, _) => 5
    case RollingBack(_, phase) => PhasesLeft(phase)
    case _ => 0
  }

  // ---------- Tokens of the host ----------

  /** What a creation under way may put on the host. */
  predicate MayMake(prov: Provisioner, path: string) {
    prov.Creating? && prov.req.path == path
  }

  predicate MayAim(prov: Provisioner, target: string) {
    prov.Creating? && TargetChosen(prov.req, prov.found) == target
  }

  predicate HasFile(s: Storage, prov: Provisioner, path: string) {
    path in s.disks || MayMake(prov, path)
  }

  predicate HasDisk(s: Storage, prov: Provisioner, path: string) {
    IsRegistered(s, path) || MayMake(prov, path)
  }

  predicate HasTarget(s: Storage, prov: Provisioner, target: string) {
    target in s.targets || MayAim(prov, target)
  }

  predicate HasMapping(s: Storage, prov: Provisioner, target: string, path: string) {
    MapsTo(s, target, path) || (MayAim(prov, target) && MayMake(prov, path))
  }

  ghost predicate FewerOnHost(s: Storage, prov: Provisioner, s': Storage, prov': Provisioner) {
    && (forall p :: FewerDisksAt(s, prov, s', prov', p))
    && (forall t :: HasTarget(s', prov', t) ==> HasTarget(s, prov, t))
    && (forall t, p :: HasMapping(s', prov', t, p) ==> HasMapping(s, prov, t, p))
  }

  predicate FewerDisksAt(s: Storage, prov: Provisioner, s': Storage, prov': Provisioner, path: string) {
    && (HasFile(s', prov', path) ==> HasFile(s, prov, path)) && (HasDisk(s', prov', path) ==> HasDisk(s, prov, path))
  }

  // ---------- All tokens ----------

  datatype Token =
    | Mark(key: Key) | Report(key: Key) | Unmark(key: Key)
    | Allowance(key: Key) | OldDenial(key: Key) | Denial(key: Key)
    | Drop(name: string) | DeletePV(name: string)
    | Call(n: nat)
    | File(path: string) | Disk(path: string) | Aim(target: string) | Mapping(target: string, path: string)

  ghost predicate Has(w: World, tok: Token) {
    match tok
    case Mark(key) => MayMark(w.vas, key)
    case Report(key) => MayReport(w.vas, key)
    case Unmark(key) => MayUnmarkIt(w.vas, key)
    case Allowance(key) => MayAllow(w, key)
    case OldDenial(key) => MayDenyOld(w, key)
    case Denial(key) => MayDeny(w, key)
    case Drop(name) => MayDrop(w.pvs, w.prov, name)
    case DeletePV(name) => MayDeletePV(w.pvs, w.prov, name)
    case Call(n) => n < CallsLeft(w.prov)
    case File(path) => HasFile(w.storage, w.prov, path)
    case Disk(path) => HasDisk(w.storage, w.prov, path)
    case Aim(target) => HasTarget(w.storage, w.prov, target)
    case Mapping(target, path) => HasMapping(w.storage, w.prov, target, path)
  }

  ghost predicate Fewer(w: World, w': World) {
    && FewerUpdates(w.vas, w'.vas) && FewerAccesses(w, w')
    && FewerVolumes(w.pvs, w.prov, w'.pvs, w'.prov) && CallsLeft(w'.prov) <= CallsLeft(w.prov)
    && FewerOnHost(w.storage, w.prov, w'.storage, w'.prov)
  }

  ghost predicate Spends(w: World, w': World) {
    exists tok :: Has(w, tok) && !Has(w', tok)
  }

  lemma FewerTokens(w: World, w': World, tok: Token)
    requires Fewer(w, w') && Has(w', tok)
    ensures Has(w, tok)
  {
    match tok {
      case Mark(key) => assert FewerUpdatesAt(w.vas, w'.vas, key);
      case Report(key) => assert FewerUpdatesAt(w.vas, w'.vas, key);
      case Unmark(key) => assert FewerUpdatesAt(w.vas, w'.vas, key);
      case Allowance(key) => assert FewerAt(w, w', key);
      case OldDenial(key) => assert FewerAt(w, w', key);
      case Denial(key) => assert FewerAt(w, w', key);
      case Drop(name) => assert FewerVolumesAt(w.pvs, w.prov, w'.pvs, w'.prov, name);
      case DeletePV(name) => assert FewerVolumesAt(w.pvs, w.prov, w'.pvs, w'.prov, name);
      case Call(n) =>
      case File(path) => assert FewerDisksAt(w.storage, w.prov, w'.storage, w'.prov, path);
      case Disk(path) => assert FewerDisksAt(w.storage, w.prov, w'.storage, w'.prov, path);
      case Aim(target) => assert HasTarget(w'.storage, w'.prov, target);
      case Mapping(target, path) => assert HasMapping(w'.storage, w'.prov, target, path);
    }
  }

  lemma HostChains(s: Storage, prov: Provisioner, s1: Storage, prov1: Provisioner, s2: Storage, prov2: Provisioner)
    requires FewerOnHost(s, prov, s1, prov1) && FewerOnHost(s1, prov1, s2, prov2)
    ensures FewerOnHost(s, prov, s2, prov2)
  {
    forall p ensures FewerDisksAt(s, prov, s2, prov2, p) {
      assert FewerDisksAt(s, prov, s1, prov1, p) && FewerDisksAt(s1, prov1, s2, prov2, p);
    }
  }

  lemma FewerChains(w: World, w1: World, w2: World)
    requires Fewer(w, w1) && Fewer(w1, w2)
    ensures Fewer(w, w2)
  {
    forall key ensures FewerAt(w, w2, key) { assert FewerAt(w, w1, key) && FewerAt(w1, w2, key); }
    forall key ensures FewerUpdatesAt(w.vas, w2.vas, key) {
      assert FewerUpdatesAt(w.vas, w1.vas, key) && FewerUpdatesAt(w1.vas, w2.vas, key);
    }
    forall name ensures FewerVolumesAt(w.pvs, w.prov, w2.pvs, w2.prov, name) {
      assert FewerVolumesAt(w.pvs, w.prov, w1.pvs, w1.prov, name) && FewerVolumesAt(w1.pvs, w1.prov, w2.pvs, w2.prov, name);
    }
    HostChains(w.storage, w.prov, w1.storage, w1.prov, w2.storage, w2.prov);
  }

  // ---------- Steps that change no token but of access ----------

  /** Nothing but caches and the attacher's place differs. */
  predicate OnlyViews(w: World, w': World) {
    && w'.rev == w.rev && w'.vas == w.vas && w'.vaLog == w.vaLog && w'.pvs == w.pvs && w'.storage == w.storage
    && w'.published == w.published && w'.prov == w.prov
  }

  lemma ViewsAreFewer(w: World, w': World)
    requires OnlyViews(w, w') && FewerAccesses(w, w')
    ensures Fewer(w, w') && !Writes(w, w')
  {
  }

  lemma SeePVFewer(w: World, x: PVVersion, w': World)
    requires SeesPV(w, x, w')
    ensures Fewer(w, w') && !Writes(w, w')
  {
    forall key ensures FewerAt(w, w', key) {}
    ViewsAreFewer(w, w');
  }

  lemma SeeVAFewer(w: World, y: VAVersion, w': World)
    requires SeesVA(w, y, w')
    ensures Fewer(w, w') && !Writes(w, w')
  {
    forall key ensures FewerAt(w, w', key) {
      assert forall z: VAVersion :: CacheNotPast(w'.vaCache, key, z.rv) ==> CacheNotPast(w.vaCache, key, z.rv);
    }
    ViewsAreFewer(w, w');
  }

  /** A worker that gives up has less in view. */
  lemma IdleIsFewer(w: World)
    ensures Fewer(w, w.(att := Idle)) && !Writes(w, w.(att := Idle))
  {
    var w' := w.(att := Idle);
    forall key ensures FewerAt(w, w', key) {}
    ViewsAreFewer(w, w');
  }

  /** Starting on a copy adds nothing that the cache did not already promise. */
  lemma StartAttachFewer(w: World, key: Key, w': World)
    requires AttachmentsFit(w) && StartsAttachment(w, key, w')
    ensures Fewer(w, w') && !Writes(w, w')
  {
    var y := w.vaCache[key];
    assert y in w.vaLog && y.key == key;
    assert key in w.vas ==> VAVersionBinds(y, w.vas[key]);
    forall k ensures FewerAt(w, w', k) {
      if k == key && !y.va.value.deleting && SameIncarnation(w.vas, key, y.va.value) { assert Promising(w.vas, key, y); }
    }
    ViewsAreFewer(w, w');
  }

  lemma CleanIsNotOutdated(w: World, name: string)
    requires PVCacheSound(w.pvCache, w.pvLog) && Clean(w)
    ensures !Outdated(w, name)
  {
    if name in w.pvCache { assert LeftBehind(w.pvCache[name], w.pvCache, w.births); }
  }

  lemma LookFewer(w: World, w': World)
    requires PlansFit(w) && PVCacheSound(w.pvCache, w.pvLog) && Clean(w) && w.att.Looking? && AttacherCall(w) == Some(w')
    ensures Fewer(w, w') && !Writes(w, w')
  {
    CleanIsNotOutdated(w, w.att.key.pv);
    LookingOnlyStrays(w, w');
    forall key ensures FewerAt(w, w', key) {}
    ViewsAreFewer(w, w');
  }

  lemma RefetchFewer(w: World, w': World)
    requires w.att.Refetching? && AttacherCall(w) == Some(w')
    ensures Fewer(w, w') && !Writes(w, w')
  {
    RefetchIs(w, w');
    forall key ensures FewerAt(w, w', key) {}
    ViewsAreFewer(w, w');
  }

  // ---------- Updates of attachments ----------

  /** One attachment has a new version of the same incarnation, or is gone. */
  ghost predicate Updated(w: World, w': World, key: Key) {
    && key in w.vas && (if key in w'.vas then SameState(w'.vas[key], w.vas[key]) else w.vas[key].deleting)
    && (forall k :: k != key ==> (k in w'.vas <==> k in w.vas) && (k in w.vas ==> w'.vas[k] == w.vas[k]))
    && (forall y :: y in w'.vaLog ==> y in w.vaLog || (y.key == key && (y.va.Some? ==> SameState(y.va.value, w.vas[key]))))
    && w'.vaCache == w.vaCache && w'.storage == w.storage && w'.published == w.published
    && w'.pvs == w.pvs && w'.prov == w.prov
  }

  predicate SameState(now: VA, was: VA) {
    now.born == was.born && now.deleting == was.deleting
  }

  lemma StoreVAUpdates(w: World, key: Key, now: VA, att: Attacher)
    requires key in w.vas && SameState(now, w.vas[key])
    ensures var w' := StoreVA(w, key, now).(att := att);
            && Updated(w, w', key) && w'.rev != w.rev
            && (key in w'.vas ==> w'.vas[key].finalizers == now.finalizers && w'.vas[key].attached == now.attached)
  {
    if !(now.deleting && now.finalizers == {}) { PutVAUpdates(w, key, now, att); }
  }

  lemma PutVAUpdates(w: World, key: Key, now: VA, att: Attacher)
    requires key in w.vas && SameState(now, w.vas[key])
    ensures Updated(w, PutVA(w, key, now).(att := att), key)
  {
  }

  /** Updating an attachment promises nothing new about access. */
  lemma UpdatePromisesNothing(w: World, w': World, key: Key, k: Key)
    requires AttachmentsFit(w) && Updated(w, w', key)
    requires AllowUnderWay(w'.vas, w'.att, k) ==> AllowUnderWay(w.vas, w.att, k)
    requires AllowAhead(w'.vas, w'.vaLog, w'.vaCache, w'.att, k)
    ensures AllowAhead(w.vas, w.vaLog, w.vaCache, w.att, k)
  {
    if y :| y in w'.vaLog && Promising(w'.vas, k, y) && CacheNotPast(w'.vaCache, k, y.rv) {
      if y !in w.vaLog {
        var current := VAVersion(key, w.vas[key].rv, Some(w.vas[key]));
        assert current in w.vaLog && (key in w.vaCache ==> VAVersionBinds(w.vaCache[key], w.vas[key]));
        assert Promising(w.vas, key, current);
      } else {
        assert Promising(w.vas, k, y);
      }
    }
  }

  lemma UpdateFewerAccesses(w: World, w': World, key: Key)
    requires AttachmentsFit(w) && Updated(w, w', key)
    requires forall k :: AllowUnderWay(w'.vas, w'.att, k) ==> AllowUnderWay(w.vas, w.att, k)
    requires forall k :: OldDenyUnderWay(w'.vas, w'.att, k) ==> OldDenyUnderWay(w.vas, w.att, k)
    ensures FewerAccesses(w, w')
  {
    forall k ensures FewerAt(w, w', k) {
      if AllowAhead(w'.vas, w'.vaLog, w'.vaCache, w'.att, k) { UpdatePromisesNothing(w, w', key, k); }
    }
  }

  lemma UpdateFewer(w: World, w': World, key: Key)
    requires Updated(w, w', key) && FewerAccesses(w, w') && FewerUpdatesAt(w.vas, w'.vas, key)
    ensures Fewer(w, w')
  {
    forall k ensures FewerUpdatesAt(w.vas, w'.vas, k) {}
  }

  lemma MarkSpends(w: World, w': World)
    requires Inv(w) && PlansFit(w) && w.att.Marking? && AttacherCall(w) == Some(w')
    ensures Fewer(w, w') && Spends(w, w')
  {
    var Marking(key, va, h) := w.att;
    MarkIs(w, w');
    CopyIsCurrent(w, key, va);
    StoreVAUpdates(w, key, va.(finalizers := va.finalizers + {Driver}), w'.att);
    UpdateFewerAccesses(w, w', key);
    UpdateFewer(w, w', key);
    assert Has(w, Mark(key)) && !Has(w', Mark(key));
  }

  lemma ReportSpends(w: World, w': World)
    requires Inv(w) && PlansFit(w) && w.att.Reporting? && AttacherCall(w) == Some(w')
    ensures Fewer(w, w') && Spends(w, w')
  {
    var Reporting(key, va, h) := w.att;
    ReportIs(w, w');
    CopyIsCurrent(w, key, va);
    StoreVAUpdates(w, key, va.(attached := true), w'.att);
    UpdateFewerAccesses(w, w', key);
    UpdateFewer(w, w', key);
    assert Has(w, Report(key)) && !Has(w', Report(key));
  }

  lemma UnmarkSpends(w: World, w': World)
    requires Inv(w) && PlansFit(w) && w.att.Unmarking? && AttacherCall(w) == Some(w')
    ensures Fewer(w, w') && Spends(w, w')
  {
    var Unmarking(key, va) := w.att;
    UnmarkIs(w, w');
    CopyIsCurrent(w, key, va);
    StoreVAUpdates(w, key, va.(finalizers := va.finalizers - {Driver}), w'.att);
    UpdateFewerAccesses(w, w', key);
    UpdateFewer(w, w', key);
    assert Has(w, Unmark(key)) && !Has(w', Unmark(key));
  }

  // ---------- Access calls ----------

  /** Only who may connect to one target has changed. */
  ghost predicate AccessChanged(w: World, w': World, target: string) {
    && w' == w.(storage := w'.storage, att := w'.att) && OnlyAccessDiffers(w.storage, w'.storage, target)
  }

  lemma AccessLeavesHost(s: Storage, s': Storage, target: string, prov: Provisioner)
    requires OnlyAccessDiffers(s, s', target)
    ensures FewerOnHost(s, prov, s', prov)
  {
    forall p ensures FewerDisksAt(s, prov, s', prov, p) {}
  }

  lemma AccessFewer(w: World, w': World, target: string)
    requires AccessChanged(w, w', target) && FewerAccesses(w, w')
    ensures Fewer(w, w')
  {
    AccessLeavesHost(w.storage, w'.storage, target, w.prov);
  }

  /** Admission to one volume says nothing of another, and of one node nothing of another. */
  lemma AllowAdmitsOnly(w: World, h: Handle, key: Key, s': Storage, k: Key)
    requires HandlesFit(w.published) && key.pv in w.published && h == w.published[key.pv]
    requires Apply(w.storage, Command.Allow(h.target, key.node)) == Ok(s')
    ensures IsAdmitted(s', w.published, k) <==> k == key || IsAdmitted(w.storage, w.published, k)
  {
    assert HandleFits(key.pv, h) && (k.pv in w.published ==> HandleFits(k.pv, w.published[k.pv]));
  }

  lemma DenyShutsOutOnly(w: World, h: Handle, key: Key, s': Storage, k: Key)
    requires HandlesFit(w.published) && key.pv in w.published && h == w.published[key.pv]
    requires Apply(w.storage, Command.Deny(h.target, key.node)) == Ok(s')
    ensures IsAdmitted(s', w.published, k) <==> k != key && IsAdmitted(w.storage, w.published, k)
  {
    assert HandleFits(key.pv, h) && (k.pv in w.published ==> HandleFits(k.pv, w.published[k.pv]));
  }

  lemma AllowFewerAt(w: World, w': World, k: Key)
    requires AttacherFits(w) && w.att.Allowing?
    requires w' == w.(storage := w'.storage, att := Reporting(w.att.key, w.att.va, w.att.handle))
    requires IsAdmitted(w'.storage, w.published, k) <==> k == w.att.key || IsAdmitted(w.storage, w.published, k)
    ensures FewerAt(w, w', k)
  {
  }

  /** Admitting a node uses up its allowance. */
  lemma AllowSpends(w: World, w': World)
    requires Inv(w) && Clean(w) && w.att.Allowing? && AttacherCall(w) == Some(w')
    ensures Fewer(w, w') && (Writes(w, w') ==> Spends(w, w'))
  {
    var Allowing(key, va, h) := w.att;
    AllowIs(w, w');
    assert HandleFits(key.pv, h);
    AccessCommandDiffers(w.storage, Command.Allow(h.target, key.node), w'.storage);
    forall k ensures FewerAt(w, w', k) {
      AllowAdmitsOnly(w, h, key, w'.storage, k);
      AllowFewerAt(w, w', k);
    }
    AccessFewer(w, w', h.target);
    AllowAdmitsOnly(w, h, key, w'.storage, key);
    if Admitted(w.storage, h.target, key.node) {
      AllowOfAdmitted(w.storage, h.target, key.node, w'.storage);
    } else {
      AllowanceSpent(w, w');
    }
  }

  lemma AllowanceSpent(w: World, w': World)
    requires AttacherFits(w) && w.att.Allowing?
    requires w' == w.(storage := w'.storage, att := Reporting(w.att.key, w.att.va, w.att.handle))
    requires !IsAdmitted(w.storage, w.published, w.att.key) && IsAdmitted(w'.storage, w.published, w.att.key)
    ensures Spends(w, w')
  {
    assert Has(w, Allowance(w.att.key)) && !Has(w', Allowance(w.att.key));
  }

  lemma AllowOfAdmitted(s: Storage, target: string, node: string, s': Storage)
    requires Apply(s, Command.Allow(target, node)) == Ok(s') && Admitted(s, target, node)
    ensures s' == s
  {
    assert s.targets[target].initiators + {node} == s.targets[target].initiators;
    assert s'.targets == s.targets;
  }

  lemma DenyOfStranger(s: Storage, target: string, node: string, s': Storage)
    requires Apply(s, Command.Deny(target, node)) == Ok(s') && !Admitted(s, target, node)
    ensures s' == s
  {
    if target in s.targets { assert s.targets[target].initiators - {node} == s.targets[target].initiators; }
    assert s'.targets == s.targets;
  }

  /** Once a deleting version of the current incarnation has been seen nothing is promised any more. */
  lemma DeletingPromisesNothing(w: World, key: Key, va: VA)
    requires AttachmentsFit(w) && PlansFit(w) && CopySeen(w, key, va) && va.deleting && SameIncarnation(w.vas, key, va)
    requires !AllowUnderWay(w.vas, w.att, key)
    ensures !AllowAhead(w.vas, w.vaLog, w.vaCache, w.att, key)
  {
    var copy := VAVersion(key, va.rv, Some(va));
    forall y | y in w.vaLog && Promising(w.vas, key, y) ensures !CacheNotPast(w.vaCache, key, y.rv) {
      assert !StillDeleting(copy, y);
    }
  }

  /** Shutting a node out uses up a denial. */
  lemma DenySpends(w: World, w': World)
    requires Inv(w) && PlansFit(w) && Clean(w) && w.att.Denying? && AttacherCall(w) == Some(w')
    ensures Fewer(w, w') && (Writes(w, w') ==> Spends(w, w'))
  {
    var Denying(key, va, h) := w.att;
    DenyIs(w, w');
    assert HandleFits(key.pv, h);
    AccessCommandDiffers(w.storage, Command.Deny(h.target, key.node), w'.storage);
    forall k ensures FewerAt(w, w', k) {
      DenyShutsOutOnly(w, h, key, w'.storage, k);
      DenyFewerAt(w, w', k);
    }
    AccessFewer(w, w', h.target);
    DenyShutsOutOnly(w, h, key, w'.storage, key);
    if Admitted(w.storage, h.target, key.node) {
      DenialSpent(w, w');
    } else {
      DenyOfStranger(w.storage, h.target, key.node, w'.storage);
    }
  }

  lemma DenyFewerAt(w: World, w': World, k: Key)
    requires Inv(w) && PlansFit(w) && w.att.Denying? && w' == w.(storage := w'.storage, att := Unmarking(w.att.key, w.att.va))
    requires IsAdmitted(w'.storage, w.published, k) <==> k != w.att.key && IsAdmitted(w.storage, w.published, k)
    ensures FewerAt(w, w', k)
  {
    var key, va := w.att.key, w.att.va;
    if k == key && SameIncarnation(w.vas, key, va) { DeletingPromisesNothing(w, key, va); }
  }

  lemma DenialSpent(w: World, w': World)
    requires Inv(w) && PlansFit(w) && w.att.Denying? && w' == w.(storage := w'.storage, att := Unmarking(w.att.key, w.att.va))
    requires IsAdmitted(w.storage, w.published, w.att.key) && !IsAdmitted(w'.storage, w.published, w.att.key)
    ensures Spends(w, w')
  {
    var key, va := w.att.key, w.att.va;
    if key in w.vas && va.born != w.vas[key].born {
      assert Has(w, OldDenial(key)) && !Has(w', OldDenial(key));
    } else {
      if key in w.vas {
        DeletingPromisesNothing(w, key, va);
        CopyBinds(w, key, va);
      }
      LastDenialSpent(w, w');
    }
  }

  lemma LastDenialSpent(w: World, w': World)
    requires w.att.Denying? && w' == w.(storage := w'.storage, att := Unmarking(w.att.key, w.att.va))
    requires IsAdmitted(w.storage, w.published, w.att.key) && !IsAdmitted(w'.storage, w.published, w.att.key)
    requires !Live(w.vas, w.att.key)
    requires w.att.key in w.vas ==> !AllowAhead(w.vas, w.vaLog, w.vaCache, w.att, w.att.key)
    ensures Spends(w, w')
  {
    assert Has(w, Denial(w.att.key)) && !Has(w', Denial(w.att.key));
  }

  lemma CopyBinds(w: World, key: Key, va: VA)
    requires AttachmentsFit(w) && VAVersion(key, va.rv, Some(va)) in w.vaLog && SameIncarnation(w.vas, key, va) && va.deleting
    ensures w.vas[key].deleting
  {
    assert VAVersionBinds(VAVersion(key, va.rv, Some(va)), w.vas[key]);
  }

  // ---------- The provisioner ----------

  predicate SameAttachments(w: World, w': World) {
    w'.vas == w.vas && w'.vaLog == w.vaLog && w'.vaCache == w.vaCache && w'.att == w.att
  }

  /** What the provisioner does on the host takes no access from anybody attached, and gives none. */
  lemma ProvisionerFewerAccesses(w: World, w': World)
    requires SameAttachments(w, w')
    requires forall k :: IsAdmitted(w'.storage, w'.published, k) ==> IsAdmitted(w.storage, w.published, k)
    requires forall k :: k in w.vas && IsAdmitted(w.storage, w.published, k) ==> IsAdmitted(w'.storage, w'.published, k)
    ensures FewerAccesses(w, w')
  {
    forall k ensures FewerAt(w, w', k) {}
  }

  lemma SameAccesses(w: World, w': World)
    requires SameAttachments(w, w') && w'.storage == w.storage && w'.published == w.published
    ensures FewerAccesses(w, w')
  {
    ProvisionerFewerAccesses(w, w');
  }

  lemma RestIsFewer(w: World)
    ensures Fewer(w, w.(prov := Resting))
  {
    SameAccesses(w, w.(prov := Resting));
  }

  predicate StartsWork(prov: Provisioner) {
    prov.Deleting? || prov.DroppingFinalizer?
  }

  lemma StartWorkFewer(w: World, prov: Provisioner)
    requires w.prov.Resting? && StartsWork(prov)
    ensures Fewer(w, w.(prov := prov))
  {
    SameAccesses(w, w.(prov := prov));
  }

  lemma PublishFailsFewer(w: World, w': World)
    requires FailsToPublish(w, w')
    ensures Fewer(w, w') && !Writes(w, w')
  {
    SameAccesses(w, w');
  }

  /** A command on a volume that is not published, or has no attachment, and that admits nobody. */
  lemma CommandFewerAccesses(w: World, w': World, c: Command, vol: string)
    requires HandlesFit(w.published) && SameAttachments(w, w') && w'.published == w.published
    requires Touches(c, vol) && !c.Allow? && Apply(w.storage, c) == Ok(w'.storage)
    requires vol in w.published ==> NoneAttached(w.vas, vol)
    ensures FewerAccesses(w, w')
  {
    CommandStaysHome(w.storage, c, vol, w'.storage);
    forall k | IsAdmitted(w'.storage, w.published, k) ensures IsAdmitted(w.storage, w.published, k) {
      CommandAdmitsNobody(w.storage, c, w'.storage, w.published[k.pv].target, k.node);
    }
    forall k | k in w.vas && IsAdmitted(w.storage, w.published, k) ensures IsAdmitted(w'.storage, w.published, k) {
      assert HandleFits(k.pv, w.published[k.pv]);
    }
    ProvisionerFewerAccesses(w, w');
  }

  lemma CommandAdmitsNobody(s: Storage, c: Command, s': Storage, t: string, n: string)
    requires !c.Allow? && Apply(s, c) == Ok(s') && Admitted(s', t, n)
    ensures Admitted(s, t, n)
  {
  }

  lemma CallSpent(w: World, w': World)
    requires CallsLeft(w'.prov) < CallsLeft(w.prov)
    ensures Spends(w, w')
  {
    assert Has(w, Call(CallsLeft(w'.prov))) && !Has(w', Call(CallsLeft(w'.prov)));
  }

  lemma CreationFewerOnHost(s: Storage, req: Request, found: Found, policy: Policy, make: CreatePhase, s': Storage)
    requires Apply(s, CreateCommand(req, found, make)) == Ok(s')
    requires !make.MakeDisk? ==> IsRegistered(s, req.path)
    ensures FewerOnHost(s, Creating(req, found, policy, make), s', AfterCreating(req, found, policy, make, s'))
  {
    var prov, prov' := Creating(req, found, policy, make), AfterCreating(req, found, policy, make, s');
    forall p ensures FewerDisksAt(s, prov, s', prov', p) {}
  }

  lemma CreateSpends(w: World, w': World)
    requires Inv(w) && w.prov.Creating? && ProvisionerCall(w) == Some(w')
    ensures Fewer(w, w') && Spends(w, w')
  {
    var Creating(req, found, policy, make) := w.prov;
    CreateCallIs(w, w');
    CreateCommandIsOwn(w.storage, req, found, make);
    CommandFewerAccesses(w, w', CreateCommand(req, found, make), req.vol);
    CreationFewerOnHost(w.storage, req, found, policy, make, w'.storage);
    CallSpent(w, w');
  }

  lemma PublishSpends(w: World, w': World)
    requires Inv(w) && Clean(w) && w.prov.Publishing? && ProvisionerCall(w) == Some(w')
    ensures Fewer(w, w') && Spends(w, w')
  {
    PublishIs(w, w');
    var h, policy := w.prov.handle, w.prov.policy;
    if h.vol in w.pvs {
      RestIsFewer(w);
    } else {
      PublishFewerAccesses(w, h, policy);
      PublishFewer(w, h, policy);
    }
    CallSpent(w, w');
  }

  lemma AttachedIsPublished(w: World)
    requires AttachmentsFit(w) && Clean(w)
    ensures forall k :: k in w.vas ==> k.pv in w.published
  {
    forall k | k in w.vas ensures k.pv in w.published { assert k.pv in w.births; }
  }

  lemma PublishFewer(w: World, h: Handle, policy: Policy)
    requires w.prov == Publishing(h, policy) && FewerAccesses(w, Published(w, h, policy))
    ensures Fewer(w, Published(w, h, policy))
  {
    var w' := Published(w, h, policy);
    forall name ensures FewerVolumesAt(w.pvs, w.prov, w'.pvs, w'.prov, name) {}
  }

  lemma PublishFewerAccesses(w: World, h: Handle, policy: Policy)
    requires AttachmentsFit(w) && HostFits(w) && ProvisionerFits(w) && Clean(w) && w.prov == Publishing(h, policy)
    ensures FewerAccesses(w, Published(w, h, policy))
  {
    PublishAdmitsNobody(w, h, policy);
    AttachedIsPublished(w);
    ProvisionerFewerAccesses(w, Published(w, h, policy));
  }

  lemma PublishAdmitsNobody(w: World, h: Handle, policy: Policy)
    requires AttachmentsFit(w) && HostFits(w) && h.vol !in w.published && HandleFits(h.vol, h)
    ensures forall k :: IsAdmitted(w.storage, Published(w, h, policy).published, k) ==> IsAdmitted(w.storage, w.published, k)
  {
    if Fresh(w, h.vol) { FreshIsVacated(w, h.vol); }
  }

  predicate Removes(c: Command) {
    c.RemoveMapping? || c.UnregisterDisk? || c.RemoveFile? || c.RemoveTarget?
  }

  lemma RemovalFewerOnHost(s: Storage, c: Command, s': Storage, prov: Provisioner, prov': Provisioner)
    requires Removes(c) && Apply(s, c) == Ok(s') && !prov.Creating? && !prov'.Creating?
    ensures FewerOnHost(s, prov, s', prov')
  {
    RemovalShrinks(s, c, s');
    forall p ensures FewerDisksAt(s, prov, s', prov', p) {}
  }

  lemma RemovalShrinks(s: Storage, c: Command, s': Storage)
    requires Removes(c) && Apply(s, c) == Ok(s')
    ensures forall p :: (p in s'.disks ==> p in s.disks) && (IsRegistered(s', p) ==> IsRegistered(s, p))
    ensures forall t :: t in s'.targets ==> t in s.targets && s'.targets[t].luns <= s.targets[t].luns
  {
  }

  lemma RollbackSpends(w: World, w': World)
    requires VolumesFit(w) && ProvisionerFits(w) && w.prov.RollingBack? && ProvisionerCall(w) == Some(w')
    ensures Fewer(w, w') && Spends(w, w')
  {
    var RollingBack(h, phase) := w.prov;
    RollbackCallIs(w, w');
    RollbackAdvances(w, w');
    CommandFewerAccesses(w, w', DeleteCommand(h, phase), h.vol);
    RemovalFewerOnHost(w.storage, DeleteCommand(h, phase), w'.storage, w.prov, w'.prov);
    CallSpent(w, w');
  }

  lemma RollbackAdvances(w: World, w': World)
    requires w.prov.RollingBack? && ProvisionerCall(w) == Some(w')
    ensures CallsLeft(w'.prov) < CallsLeft(w.prov)
  {
  }

  /** A removal that changes the host takes something off it. */
  lemma RemovalSpends(w: World, w': World, c: Command)
    requires Removes(c) && Apply(w.storage, c) == Ok(w'.storage) && w'.storage != w.storage
    requires !w.prov.Creating? && !w'.prov.Creating?
    ensures Spends(w, w')
  {
    var s, s' := w.storage, w'.storage;
    match c {
      case RemoveMapping(t, p) =>
        if !MapsTo(s, t, p) { UnmapNothing(s, t, p, s'); }
        assert Has(w, Token.Mapping(t, p)) && !Has(w', Token.Mapping(t, p));
      case UnregisterDisk(p) => assert Has(w, Token.Disk(p)) && !Has(w', Token.Disk(p));
      case RemoveFile(p) =>
        if p !in s.disks { RemoveNoFile(s, p, s'); }
        assert Has(w, File(p)) && !Has(w', File(p));
      case RemoveTarget(t) =>
        if t !in s.targets { RemoveNoTarget(s, t, s'); }
        assert Has(w, Aim(t)) && !Has(w', Aim(t));
    }
  }

  lemma RemoveNoFile(s: Storage, p: string, s': Storage)
    requires p !in s.disks && Apply(s, RemoveFile(p)) == Ok(s')
    ensures s' == s
  {
    assert s'.disks == s.disks;
  }

  lemma RemoveNoTarget(s: Storage, t: string, s': Storage)
    requires t !in s.targets && Apply(s, RemoveTarget(t)) == Ok(s')
    ensures s' == s
  {
    assert s'.targets == s.targets;
  }

  lemma UnmapNothing(s: Storage, t: string, p: string, s': Storage)
    requires !MapsTo(s, t, p) && Apply(s, RemoveMapping(t, p)) == Ok(s')
    ensures s' == s
  {
    if t in s.targets { assert s.targets[t].luns - {p} == s.targets[t].luns; }
    assert s'.targets == s.targets;
  }

  lemma DeleteSpends(w: World, w': World)
    requires Inv(w) && Clean(w) && w.prov.Deleting? && ProvisionerCall(w) == Some(w')
    ensures Fewer(w, w') && (Writes(w, w') ==> Spends(w, w'))
  {
    var Deleting(name, pv, phase) := w.prov;
    DeleteIs(w, w');
    DeletionIsUnclaimed(w);
    assert HandleFits(name, pv.handle);
    RemovalFewer(w, w', DeleteCommand(pv.handle, phase), name);
  }

  lemma RemovalFewer(w: World, w': World, c: Command, vol: string)
    requires HandlesFit(w.published) && SameAttachments(w, w') && w'.published == w.published && w'.pvs == w.pvs && w'.rev == w.rev
    requires Touches(c, vol) && Removes(c) && Apply(w.storage, c) == Ok(w'.storage)
    requires vol in w.published ==> NoneAttached(w.vas, vol)
    requires w.prov.Deleting? && !w'.prov.Creating? && !w'.prov.Publishing? && CallsLeft(w'.prov) == 0
    ensures Fewer(w, w') && (Writes(w, w') ==> Spends(w, w'))
  {
    CommandFewerAccesses(w, w', c, vol);
    RemovalFewerOnHost(w.storage, c, w'.storage, w.prov, w'.prov);
    if w'.storage != w.storage { RemovalSpends(w, w', c); }
  }

  /** A PersistentVolume has a new version, or is gone; nothing else has changed. */
  ghost predicate VolumeUpdated(w: World, w': World, name: string) {
    && SameAttachments(w, w') && w'.storage == w.storage && w'.published == w.published
    && (forall v :: v != name ==> (v in w'.pvs <==> v in w.pvs) && (v in w.pvs ==> w'.pvs[v] == w.pvs[v]))
  }

  lemma StorePVUpdates(w: World, name: string, now: PV, prov: Provisioner)
    requires name in w.pvs
    ensures var w' := StorePV(w, name, now).(prov := prov);
            && VolumeUpdated(w, w', name) && w'.rev != w.rev
            && (name in w'.pvs ==> w'.pvs[name].finalizers == now.finalizers && w'.pvs[name].deleting == now.deleting)
  {
    if !(now.deleting && now.finalizers == {}) { PutPVUpdates(w, name, now, prov); }
  }

  lemma PutPVUpdates(w: World, name: string, now: PV, prov: Provisioner)
    requires name in w.pvs
    ensures VolumeUpdated(w, PutPV(w, name, now).(prov := prov), name)
  {
  }

  lemma VolumeUpdateFewer(w: World, w': World, name: string)
    requires VolumeUpdated(w, w', name) && FewerVolumesAt(w.pvs, w.prov, w'.pvs, w'.prov, name)
    requires !Reserved(w'.prov, name) && CallsLeft(w'.prov) == 0 && !w'.prov.Creating? && !w'.prov.Publishing?
    ensures Fewer(w, w')
  {
    SameAccesses(w, w');
    forall v ensures FewerVolumesAt(w.pvs, w.prov, w'.pvs, w'.prov, v) {}
  }

  lemma DropSpends(w: World, w': World)
    requires VolumesFit(w) && ProvisionerFits(w) && PlansFit(w) && w.prov.DroppingFinalizer? && ProvisionerCall(w) == Some(w')
    ensures Fewer(w, w') && Spends(w, w')
  {
    var DroppingFinalizer(name, pv) := w.prov;
    DropIs(w, w');
    assert PVVersion(name, pv.rv, Some(pv)) == PVVersion(name, w.pvs[name].rv, Some(w.pvs[name]));
    StorePVUpdates(w, name, pv.(finalizers := pv.finalizers - {Driver}), w'.prov);
    VolumeUpdateFewer(w, w', name);
    assert Has(w, Drop(name)) && !Has(w', Drop(name));
  }

  lemma DeletePVSpends(w: World, w': World)
    requires w.prov.DeletingPV? && ProvisionerCall(w) == Some(w')
    ensures Fewer(w, w') && (Writes(w, w') ==> Spends(w, w'))
  {
    var name := w.prov.name;
    DeletePVIs(w, w');
    if name !in w.pvs || w.pvs[name].deleting {
      RestIsFewer(w);
    } else {
      StorePVUpdates(w, name, w.pvs[name].(deleting := true), w'.prov);
      VolumeUpdateFewer(w, w', name);
      assert Has(w, DeletePV(name)) && !Has(w', DeletePV(name));
    }
  }

  // ---------- Every quiet step ----------

  lemma AttacherCallSpends(w: World, w': World)
    requires Inv(w) && PlansFit(w) && Clean(w) && AttacherCall(w) == Some(w')
    ensures Fewer(w, w') && (Writes(w, w') ==> Spends(w, w'))
  {
    match w.att {
      case Looking(_, _) => LookFewer(w, w');
      case Marking(_, _, _) => MarkSpends(w, w');
      case Refetching(_, _) => RefetchFewer(w, w');
      case Allowing(_, _, _) => AllowSpends(w, w');
      case Reporting(_, _, _) => ReportSpends(w, w');
      case Denying(_, _, _) => DenySpends(w, w');
      case Unmarking(_, _) => UnmarkSpends(w, w');
    }
  }

  lemma ProvisionerCallSpends(w: World, w': World)
    requires Inv(w) && PlansFit(w) && Clean(w) && ProvisionerCall(w) == Some(w')
    ensures Fewer(w, w') && (Writes(w, w') ==> Spends(w, w'))
  {
    match w.prov {
      case Creating(_, _, _, _) => CreateSpends(w, w');
      case Publishing(_, _) => PublishSpends(w, w');
      case RollingBack(_, _) => RollbackSpends(w, w');
      case Deleting(_, _, _) => DeleteSpends(w, w');
      case DroppingFinalizer(_, _) => DropSpends(w, w');
      case DeletingPV(_) => DeletePVSpends(w, w');
    }
  }

  /** What is spent stays spent when the worker goes idle at once. */
  lemma SpendsThrough(w: World, w1: World, w2: World)
    requires Spends(w, w1) && Fewer(w1, w2)
    ensures Spends(w, w2)
  {
    var tok :| Has(w, tok) && !Has(w1, tok);
    if Has(w2, tok) { FewerTokens(w1, w2, tok); }
  }

  lemma AttachCallSpends(w: World, lost: bool, w': World)
    requires Inv(w) && PlansFit(w) && Clean(w) && CallsForAttachment(w, lost, w')
    ensures Fewer(w, w') && (Writes(w, w') ==> Spends(w, w'))
  {
    var w1 := AttacherCall(w).value;
    AttacherCallSpends(w, w1);
    if lost {
      IdleIsFewer(w1);
      FewerChains(w, w1, w');
      if Writes(w, w1) { SpendsThrough(w, w1, w'); }
    }
  }

  lemma ProvisionSpends(w: World, lost: bool, w': World)
    requires Inv(w) && PlansFit(w) && Clean(w) && Provisions(w, lost, w')
    ensures Fewer(w, w') && (Writes(w, w') ==> Spends(w, w'))
  {
    var w1 := ProvisionerCall(w).value;
    ProvisionerCallSpends(w, w1);
    if lost {
      RestIsFewer(w1);
      FewerChains(w, w1, w');
      if Writes(w, w1) { SpendsThrough(w, w1, w'); }
    }
  }

  lemma AttacherStepSpends(w: World, a: Action, w': World)
    requires Inv(w) && PlansFit(w) && Clean(w) && Step(w, a, w') && OfAttacher(a)
    ensures Fewer(w, w') && (Writes(w, w') ==> Spends(w, w'))
  {
    if a.AttachCall? { AttachCallSpends(w, a.lost, w'); } else { AttacherTurnSpends(w, a, w'); }
  }

  lemma AttacherTurnSpends(w: World, a: Action, w': World)
    requires AttachmentsFit(w) && Step(w, a, w') && (a.StartAttach? || a.AttacherFails?)
    ensures Fewer(w, w') && !Writes(w, w')
  {
    match a {
      case StartAttach(key) => StartAttachFewer(w, key, w');
      case AttacherFails => IdleIsFewer(w);
    }
  }

  lemma InformerStepSpends(w: World, a: Action, w': World)
    requires Step(w, a, w') && (a.SeePV? || a.SeeVA?)
    ensures Fewer(w, w') && !Writes(w, w')
  {
    match a {
      case SeePV(x) => SeePVFewer(w, x, w');
      case SeeVA(y) => SeeVAFewer(w, y, w');
    }
  }

  lemma ProvisionerStartSpends(w: World, a: Action, w': World)
    requires Step(w, a, w') && (a.StartDelete? || a.StartDrop?)
    ensures Fewer(w, w') && !Writes(w, w')
  {
    match a {
      case StartDelete(name, pv) => StartWorkFewer(w, Deleting(name, pv, Unmap));
      case StartDrop(name, pv) => StartWorkFewer(w, DroppingFinalizer(name, pv));
    }
  }

  lemma ProvisionerStepSpends(w: World, a: Action, w': World)
    requires Inv(w) && PlansFit(w) && Clean(w) && Step(w, a, w')
    requires a.Provision? || a.PublishFails? || a.ProvisionerFails?
    ensures Fewer(w, w') && (Writes(w, w') ==> Spends(w, w'))
  {
    match a {
      case Provision(lost) => ProvisionSpends(w, lost, w');
      case PublishFails => PublishFailsFewer(w, w');
      case ProvisionerFails => RestIsFewer(w);
    }
  }

  /** No quiet step adds a token, and every one that writes takes one away. */
  lemma QuietStepSpends(w: World, a: Action, w': World)
    requires Inv(w) && PlansFit(w) && Clean(w) && Quiet(a) && Step(w, a, w')
    ensures Fewer(w, w') && (Writes(w, w') ==> Spends(w, w'))
  {
    if OfAttacher(a) {
      AttacherStepSpends(w, a, w');
    } else if a.SeePV? || a.SeeVA? {
      InformerStepSpends(w, a, w');
    } else if a.StartDelete? || a.StartDrop? {
      ProvisionerStartSpends(w, a, w');
    } else {
      ProvisionerStepSpends(w, a, w');
    }
  }
}
