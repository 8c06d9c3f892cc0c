/**
 * The workers settle under every fair schedule: when nothing is written any more, nothing is owed.
 */
module Settling {
  import opened Results
  import opened Naming
  import opened WindowsStorage
  import opened ControllerServer
  import opened Lifecycle
  import opened LifecycleInvariants
  import opened LifecycleSteps
  import opened LifecycleWorkers
  import opened LifecycleCalls
  import opened LifecycleAttacher
  import opened LifecycleSafety
  import opened LifecycleProgress
  import opened Courses
  import opened Reconcilers
  import opened Plans
  import opened Quiescence
  import opened Rest
  import opened Fairness
  import opened Departures

  /** The standstill of a fair behaviour. */
  ghost predicate Standstill(b: nat -> World, act: nat -> Action, n: nat) {
    Behaviour(b, act) && Fair(b, act) && Still(b, n)
  }

  lemma SameAt(b: nat -> World, act: nat -> Action, n: nat, i: nat)
    requires Standstill(b, act, n) && n <= i
    ensures Unwritten(b(n), b(i))
  {
    assert StillAt(b, n, i);
  }

  lemma OrderAt(b: nat -> World, act: nat -> Action, n: nat, i: nat)
    requires Standstill(b, act, n) && n <= i
    ensures InOrder(b(i)) && CaughtUp(b(i))
  {
    assert StillAt(b, n, i);
  }

  // ---------- What informers that have caught up show ----------

  lemma ShowsAttachment(w: World, key: Key)
    requires AttachmentsFit(w) && AllVAsShown(w, w.vaLog) && key in w.vas
    ensures key in w.vaCache && w.vaCache[key].va == Some(w.vas[key])
  {
    var current := VAVersion(key, w.vas[key].rv, Some(w.vas[key]));
    assert ShowsVA(w, current);
    assert VAVersionBinds(w.vaCache[key], w.vas[key]);
  }

  lemma ShowsVolume(w: World, name: string)
    requires VolumesFit(w) && PVsLatest(w.pvLog, w.pvs) && AllPVsShown(w, w.pvLog) && name in w.pvs
    ensures CachedPV(w, name) == Some(w.pvs[name])
  {
    var current := PVVersion(name, w.pvs[name].rv, Some(w.pvs[name]));
    assert ShowsPV(w, current) && w.pvCache[name] in w.pvLog;
  }

  lemma ShowsRemoval(w: World, key: Key)
    requires VACacheSound(w.vaCache, w.vaLog) && VAVersionsDistinct(w.vaLog) && AllVAsShown(w, w.vaLog)
    requires key in w.vaCache && RemovalLogged(w.vaLog, key, w.vaCache[key].rv)
    ensures w.vaCache[key].va.None?
  {
    var last := w.vaCache[key];
    var y :| y in w.vaLog && y.key == key && y.va.None? && last.rv <= y.rv;
    assert ShowsVA(w, y) && y == last;
  }

  lemma RemovalIsLogged(w: World, key: Key)
    requires VACacheSound(w.vaCache, w.vaLog) && RemovalsLogged(w.vaLog, w.vas) && key in w.vaCache && key !in w.vas
    ensures RemovalLogged(w.vaLog, key, w.vaCache[key].rv)
  {
    assert WillBeTold(w.vaLog, w.vas, w.vaCache[key]);
  }

  lemma InformedOf(w: World, key: Key)
    requires InOrder(w) && CaughtUp(w) && key in w.vas
    ensures Informed(w, key)
  {
    ShowsAttachment(w, key);
    if key.pv in w.pvs { ShowsVolume(w, key.pv); }
  }

  lemma ListsTruth(w: World, name: string, rv: nat)
    requires InOrder(w) && CaughtUp(w)
    ensures ListIsRecent(w, name, rv)
    ensures NoneAttached(w.vas, name) ==> NoneListed(w, name)
  {
    forall k | k in w.vas ensures k in w.vaCache && w.vas[k].born <= w.vaCache[k].rv {
      ShowsAttachment(w, k);
      assert ShowsVA(w, VAVersion(k, w.vas[k].rv, Some(w.vas[k])));
    }
    forall k | k in w.vaCache && k !in w.vas ensures w.vaCache[k].va.None? {
      RemovalIsLogged(w, k);
      ShowsRemoval(w, k);
    }
  }

  lemma InformedAt(b: nat -> World, act: nat -> Action, n: nat, i: nat, key: Key)
    requires Standstill(b, act, n) && n <= i && key in b(i).vas
    ensures Informed(b(i), key)
  {
    OrderAt(b, act, n, i);
    InformedOf(b(i), key);
  }

  lemma VolumeShownAt(b: nat -> World, act: nat -> Action, n: nat, i: nat, name: string)
    requires Standstill(b, act, n) && n <= i && name in b(i).pvs
    ensures CachedPV(b(i), name) == Some(b(i).pvs[name])
  {
    OrderAt(b, act, n, i);
    ShowsVolume(b(i), name);
  }

  // ---------- A worker's next move ----------

  lemma OthersLeaveAttacher(w: World, a: Action, w': World)
    requires Quiet(a) && Step(w, a, w') && !AttachersTurn(a) && !w.att.Idle?
    ensures w'.att == w.att
  {
    if a.Provision? { ProvisionerCallStill(w, ProvisionerCall(w).value); }
  }

  lemma OthersLeaveProvisioner(w: World, a: Action, w': World)
    requires Quiet(a) && Sound(w, a) && Step(w, a, w') && !OfProvisioner(a) && !w.prov.Resting?
    ensures w'.prov == w.prov
  {
    if a.AttachCall? { AttacherCallOnlyTouches(w, AttacherCall(w).value); }
  }

  lemma {:induction false} AttacherWaits(b: nat -> World, act: nat -> Action, i: nat, k: nat) returns (j: nat)
    requires Behaviour(b, act) && i <= k && AttachersTurn(act(k)) && !b(i).att.Idle?
    ensures i <= j && AttachersTurn(act(j)) && b(j).att == b(i).att
    decreases k - i
  {
    if AttachersTurn(act(i)) {
      j := i;
    } else {
      assert Moves(b, act, i);
      OthersLeaveAttacher(b(i), act(i), b(i + 1));
      j := AttacherWaits(b, act, i + 1, k);
    }
  }

  lemma {:induction false} ProvisionerWaits(b: nat -> World, act: nat -> Action, i: nat, k: nat) returns (j: nat)
    requires Behaviour(b, act) && Fair(b, act) && i <= k && OfProvisioner(act(k)) && !b(i).prov.Resting?
    ensures i <= j && OfProvisioner(act(j)) && b(j).prov == b(i).prov
    decreases k - i
  {
    if OfProvisioner(act(i)) {
      j := i;
    } else {
      assert Moves(b, act, i) && FairAt(b, act, i);
      OthersLeaveProvisioner(b(i), act(i), b(i + 1));
      j := ProvisionerWaits(b, act, i + 1, k);
    }
  }

  /** The attacher's next call, made later in a world that is the same but for caches and the like. */
  ghost predicate AttacherCalls(b: nat -> World, i: nat, j: nat) {
    i <= j && b(j).att == b(i).att && AttacherCallMade(b(j), b(j + 1))
  }

  predicate AttacherCallMade(w: World, w': World) {
    AttacherCall(w).Some? ==> AttacherCall(w) == Some(w')
  }

  lemma AttacherTakesTurn(w: World, a: Action, w': World)
    requires AttachersTurn(a) && Sound(w, a) && Step(w, a, w')
    ensures AttacherCallMade(w, w')
  {
  }

  lemma AttacherMovesOn(b: nat -> World, act: nat -> Action, i: nat) returns (j: nat)
    requires Behaviour(b, act) && Fair(b, act) && !b(i).att.Idle?
    ensures AttacherCalls(b, i, j)
  {
    assert FairAt(b, act, i) && AttacherTurns(act, i);
    var k: nat :| i <= k && AttachersTurn(act(k));
    j := AttacherWaits(b, act, i, k);
    assert Moves(b, act, j) && FairAt(b, act, j);
    AttacherTakesTurn(b(j), act(j), b(j + 1));
  }

  ghost predicate ProvisionerCalls(b: nat -> World, i: nat, j: nat) {
    i <= j && b(j).prov == b(i).prov && (ProvisionerCall(b(j)).Some? ==> ProvisionerCall(b(j)) == Some(b(j + 1)))
  }

  lemma ProvisionerMovesOn(b: nat -> World, act: nat -> Action, i: nat) returns (j: nat)
    requires Behaviour(b, act) && Fair(b, act) && !b(i).prov.Resting?
    ensures ProvisionerCalls(b, i, j)
  {
    assert FairAt(b, act, i) && ProvisionerTurns(act, i);
    var k: nat :| i <= k && OfProvisioner(act(k));
    j := ProvisionerWaits(b, act, i, k);
    assert Moves(b, act, j) && FairAt(b, act, j);
  }

  // ---------- The attacher owes nothing ----------

  /** The attacher is about to make an update that will go through. */
  predicate AboutToUpdate(w: World) {
    (w.att.Marking? || w.att.Reporting? || w.att.Unmarking?) && w.att.key in w.vas && w.vas[w.att.key] == w.att.va
  }

  lemma UpdateGoesThrough(w: World)
    requires AboutToUpdate(w)
    ensures AttacherCall(w).Some?
    ensures AttacherCall(w).value.rev != w.rev
  {
    AttachmentUpdateIs(w, AttacherCall(w).value);
  }

  lemma NeverUpdates(b: nat -> World, act: nat -> Action, n: nat, i: nat)
    requires Standstill(b, act, n) && n <= i
    ensures !AboutToUpdate(b(i))
  {
    if AboutToUpdate(b(i)) {
      var j := AttacherMovesOn(b, act, i);
      SameAt(b, act, n, i);
      SameAt(b, act, n, j);
      SameAt(b, act, n, j + 1);
      UpdateGoesThrough(b(j));
    }
  }

  /** The attacher is about to change an access list, with an update to follow that will go through. */
  predicate AboutToGrant(w: World) {
    (w.att.Allowing? || w.att.Denying?) && w.att.key in w.vas && w.vas[w.att.key] == w.att.va
  }

  lemma AllowGoesThrough(w: World)
    requires w.att.Allowing? && FirstNonEmpty(w.att.handle.target, w.att.handle.iqn) in w.storage.targets
    ensures AttacherCall(w).Some?
    ensures var w' := AttacherCall(w).value;
            w'.vas == w.vas && w'.att == Reporting(w.att.key, w.att.va, w.att.handle)
  {
  }

  lemma DenyGoesThrough(w: World)
    requires w.att.Denying?
    ensures AttacherCall(w).Some?
    ensures var w' := AttacherCall(w).value; w'.vas == w.vas && w'.att == Unmarking(w.att.key, w.att.va)
  {
  }

  lemma GrantGoesThrough(w: World)
    requires InOrder(w) && AboutToGrant(w)
    ensures AttacherCall(w).Some? && AboutToUpdate(AttacherCall(w).value)
  {
    if w.att.Allowing? {
      AllowFindsTarget(w);
      AllowGoesThrough(w);
    } else {
      DenyGoesThrough(w);
    }
  }

  lemma GrantAt(b: nat -> World, act: nat -> Action, n: nat, i: nat)
    requires Standstill(b, act, n) && n <= i && AboutToGrant(b(i))
    ensures AttacherCall(b(i)).Some? && AboutToUpdate(AttacherCall(b(i)).value)
  {
    OrderAt(b, act, n, i);
    GrantGoesThrough(b(i));
  }

  lemma NeverGrants(b: nat -> World, act: nat -> Action, n: nat, i: nat)
    requires Standstill(b, act, n) && n <= i
    ensures !AboutToGrant(b(i))
  {
    if AboutToGrant(b(i)) {
      var j := AttacherMovesOn(b, act, i);
      SameAt(b, act, n, i);
      SameAt(b, act, n, j);
      GrantAt(b, act, n, j);
      NeverUpdates(b, act, n, j + 1);
    }
  }

  /** Looking at an attachment that something is owed to leads to work on it. */
  lemma PlanIsWork(w: World, key: Key)
    requires Informed(w, key) && PendingVA(w, key) && w.att == Looking(key, w.vas[key])
    ensures AttacherCall(w).Some?
    ensures var w' := AttacherCall(w).value; AboutToGrant(w') || AboutToUpdate(w')
  {
  }

  lemma VouchedFor(w: World)
    requires VolumesFit(w) && Clean(w)
    ensures w.pvs.Keys <= w.published.Keys
  {
    forall n | n in w.pvs ensures n in w.published { assert OfLatest(w.births, n, w.pvs[n].rv); }
  }

  lemma VouchedAt(b: nat -> World, act: nat -> Action, n: nat, i: nat)
    requires Standstill(b, act, n) && n <= i
    ensures b(i).pvs.Keys <= b(i).published.Keys
  {
    OrderAt(b, act, n, i);
    VouchedFor(b(i));
  }

  lemma PendingStays(b: nat -> World, act: nat -> Action, n: nat, i: nat, j: nat, key: Key)
    requires Standstill(b, act, n) && n <= i && n <= j
    ensures PendingVA(b(i), key) <==> PendingVA(b(j), key)
  {
    SameAt(b, act, n, i);
    SameAt(b, act, n, j);
    VouchedAt(b, act, n, i);
    VouchedAt(b, act, n, j);
  }

  lemma NeverLooks(b: nat -> World, act: nat -> Action, n: nat, i: nat, key: Key)
    requires Standstill(b, act, n) && n <= i && PendingVA(b(i), key)
    ensures b(i).att != Looking(key, b(i).vas[key])
  {
    if b(i).att == Looking(key, b(i).vas[key]) {
      var j := AttacherMovesOn(b, act, i);
      SameAt(b, act, n, i);
      SameAt(b, act, n, j);
      PendingStays(b, act, n, i, j, key);
      InformedAt(b, act, n, j, key);
      PlanIsWork(b(j), key);
      NeverGrants(b, act, n, j + 1);
      NeverUpdates(b, act, n, j + 1);
    }
  }

  lemma StartIsLooking(w: World, key: Key, w': World)
    requires Informed(w, key) && StartsAttachment(w, key, w')
    ensures w'.vas == w.vas && w'.att == Looking(key, w.vas[key])
  {
  }

  lemma StartsLooking(b: nat -> World, act: nat -> Action, n: nat, i: nat, key: Key) returns (k: nat)
    requires Standstill(b, act, n) && n <= i && key in b(i).vas
    ensures i <= k && key in b(k).vas && b(k).att == Looking(key, b(k).vas[key])
  {
    var j := ReconcileStarts(b, act, n, i, key);
    InformedAt(b, act, n, j, key);
    assert Moves(b, act, j);
    StartIsLooking(b(j), key, b(j + 1));
    k := j + 1;
  }

  /** Once nothing is written any more nothing is owed to any attachment. */
  lemma AttacherOwesNothing(b: nat -> World, act: nat -> Action, n: nat, i: nat, key: Key)
    requires Standstill(b, act, n) && n <= i
    ensures !PendingVA(b(i), key)
  {
    if PendingVA(b(i), key) {
      var k := StartsLooking(b, act, n, i, key);
      SameAt(b, act, n, i);
      SameAt(b, act, n, k);
      PendingStays(b, act, n, i, k, key);
      NeverLooks(b, act, n, k, key);
    }
  }

  lemma ReconcileStarts(b: nat -> World, act: nat -> Action, n: nat, i: nat, key: Key) returns (k: nat)
    requires Standstill(b, act, n) && n <= i && key in b(i).vas
    ensures i <= k && key in b(k).vas && act(k) == StartAttach(key)
  {
    assert FairAt(b, act, i) && Reconciled(b, act, i, key);
    k :| i <= k && (Listed(b(k), key) ==> act(k) == StartAttach(key));
    SameAt(b, act, n, i);
    SameAt(b, act, n, k);
    InformedAt(b, act, n, k, key);
  }

  // ---------- The provisioner owes nothing ----------

  /** The provisioner is about to make an update that will go through. */
  predicate AboutToStore(w: World) {
    || (w.prov.DroppingFinalizer? && w.prov.name in w.pvs && w.pvs[w.prov.name] == w.prov.pv)
    || (w.prov.DeletingPV? && w.prov.name in w.pvs && !w.pvs[w.prov.name].deleting)
  }

  lemma StoreGoesThrough(w: World)
    requires AboutToStore(w)
    ensures ProvisionerCall(w).Some? && ProvisionerCall(w).value.rev != w.rev
  {
    var name := w.prov.name;
    if w.prov.DroppingFinalizer? {
      StorePVOnly(w, name, w.prov.pv.(finalizers := w.prov.pv.finalizers - {Driver}));
    } else {
      StorePVOnly(w, name, w.pvs[name].(deleting := true));
    }
  }

  lemma NeverStores(b: nat -> World, act: nat -> Action, n: nat, i: nat)
    requires Standstill(b, act, n) && n <= i
    ensures !AboutToStore(b(i))
  {
    if AboutToStore(b(i)) {
      var j := ProvisionerMovesOn(b, act, i);
      SameAt(b, act, n, i);
      SameAt(b, act, n, j);
      SameAt(b, act, n, j + 1);
      StoreGoesThrough(b(j));
    }
  }

  /** A deletion in its place, of the PersistentVolume as it is. */
  predicate Deleting(w: World, name: string, phase: DeletePhase) {
    && name in w.pvs && w.prov == Provisioner.Deleting(name, w.pvs[name], phase)
    && OnTrack(w.storage, w.pvs[name].handle, phase)
  }

  lemma DeletionGoesThrough(w: World, name: string, phase: DeletePhase)
    requires InOrder(w) && Deleting(w, name, phase)
    ensures ProvisionerCall(w).Some?
    ensures var w', pv := ProvisionerCall(w).value, w.pvs[name];
            if phase.DropTarget? then BackendGone(w'.storage, pv.handle) && w'.prov == AfterDeletion(name, pv)
            else OnTrack(w'.storage, pv.handle, AfterPhase(phase)) && w'.prov == Provisioner.Deleting(name, pv, AfterPhase(phase))
  {
    DeletionIsUnclaimed(w);
    assert HandleFits(name, w.pvs[name].handle) && name in w.published;
    assert HandleAtHome(w.storage, name, w.pvs[name].handle);
    DeletionAdvances(w.storage, name, w.pvs[name].handle, phase);
  }

  /** Where the deletion stands after its next call. */
  predicate DeletedOneMore(w: World, name: string, phase: DeletePhase) {
    && name in w.pvs
    && if phase.DropTarget? then BackendGone(w.storage, w.pvs[name].handle) && w.prov == AfterDeletion(name, w.pvs[name])
       else Deleting(w, name, AfterPhase(phase))
  }

  lemma DeletionAt(b: nat -> World, act: nat -> Action, n: nat, i: nat, name: string, phase: DeletePhase)
    requires Standstill(b, act, n) && n <= i && Deleting(b(i), name, phase)
    ensures ProvisionerCall(b(i)).Some? && ProvisionerCall(b(i)).value.pvs == b(i).pvs
    ensures DeletedOneMore(ProvisionerCall(b(i)).value, name, phase)
  {
    OrderAt(b, act, n, i);
    DeletionGoesThrough(b(i), name, phase);
    CallsOnlyCommand(b(i), ProvisionerCall(b(i)).value);
  }

  lemma DeletionGoesOn(b: nat -> World, act: nat -> Action, n: nat, i: nat, name: string, phase: DeletePhase)
      returns (j: nat)
    requires Standstill(b, act, n) && n <= i && Deleting(b(i), name, phase)
    ensures i <= j && DeletedOneMore(b(j), name, phase)
  {
    var k := ProvisionerMovesOn(b, act, i);
    SameAt(b, act, n, i);
    SameAt(b, act, n, k);
    DeletionAt(b, act, n, k, name, phase);
    j := k + 1;
  }

  lemma {:induction false} DeletionEnds(b: nat -> World, act: nat -> Action, n: nat, i: nat, name: string, phase: DeletePhase)
      returns (j: nat)
    requires Standstill(b, act, n) && n <= i && Deleting(b(i), name, phase)
    ensures i <= j && DeletedOneMore(b(j), name, DropTarget)
    decreases PhasesLeft(phase)
  {
    j := DeletionGoesOn(b, act, n, i, name, phase);
    if !phase.DropTarget? { j := DeletionEnds(b, act, n, j, name, AfterPhase(phase)); }
  }

  /** A flagged Delete-policy volume without attachments is shown as deletable. */
  lemma DeletableWhenDoomed(w: World, name: string)
    requires InOrder(w) && CaughtUp(w) && name in w.pvs && Doomed(w.pvs[name]) && NoneAttached(w.vas, name)
    ensures Deletable(w, name) && CachedPV(w, name) == Some(w.pvs[name])
  {
    ShowsVolume(w, name);
    ListsTruth(w, name, w.pvs[name].rv);
  }

  lemma DeletableAt(b: nat -> World, act: nat -> Action, n: nat, i: nat, name: string)
    requires Standstill(b, act, n) && n <= i
    requires name in b(i).pvs && Doomed(b(i).pvs[name]) && NoneAttached(b(i).vas, name)
    ensures Deletable(b(i), name) && CachedPV(b(i), name) == Some(b(i).pvs[name])
  {
    OrderAt(b, act, n, i);
    DeletableWhenDoomed(b(i), name);
  }

  lemma DeletionStarts(b: nat -> World, act: nat -> Action, n: nat, i: nat, name: string) returns (k: nat)
    requires Standstill(b, act, n) && n <= i
    requires name in b(i).pvs && Doomed(b(i).pvs[name]) && NoneAttached(b(i).vas, name)
    ensures i <= k && Deleting(b(k), name, Unmap)
  {
    assert FairAt(b, act, i) && Deleted(b, act, i, name);
    var j: nat :| i <= j && (Deletable(b(j), name) ==> Deletes(b(j), act(j), name));
    SameAt(b, act, n, i);
    SameAt(b, act, n, j);
    DeletableAt(b, act, n, j, name);
    assert Moves(b, act, j);
    StartsOnTrack(b(j), act(j), b(j + 1), name);
    k := j + 1;
  }

  lemma StartsOnTrack(w: World, a: Action, w': World, name: string)
    requires Deletes(w, a, name) && Step(w, a, w') && name in w.pvs && CachedPV(w, name) == Some(w.pvs[name])
    ensures Deleting(w', name, Unmap)
  {
  }

  lemma ReleasedIsFinished(w: World, name: string)
    requires DeletedOneMore(w, name, DropTarget) && !AboutToStore(w) && w.pvs[name].policy.Delete?
    ensures Finished(w, name, w.pvs[name].handle)
  {
  }

  /** Once nothing is written any more, doomed volumes without attachments are finished. */
  lemma ProvisionerOwesNoDeletion(b: nat -> World, act: nat -> Action, n: nat, i: nat, name: string)
    requires Standstill(b, act, n) && n <= i
    requires name in b(i).pvs && Doomed(b(i).pvs[name]) && NoneAttached(b(i).vas, name)
    ensures Finished(b(i), name, b(i).pvs[name].handle)
  {
    var k := DeletionStarts(b, act, n, i, name);
    var j := DeletionEnds(b, act, n, k, name, Unmap);
    NeverStores(b, act, n, j);
    SameAt(b, act, n, i);
    SameAt(b, act, n, j);
    ReleasedIsFinished(b(j), name);
  }

  lemma ReleaseStarts(b: nat -> World, act: nat -> Action, n: nat, i: nat, name: string) returns (k: nat)
    requires Standstill(b, act, n) && n <= i && name in b(i).pvs
    requires b(i).pvs[name].deleting && b(i).pvs[name].policy.Keep? && Driver in b(i).pvs[name].finalizers
    ensures n <= k && AboutToStore(b(k))
  {
    assert FairAt(b, act, i) && Released(b, act, i, name);
    var j: nat :| i <= j && (Releasable(b(j), name) ==> Releases(b(j), act(j), name));
    SameAt(b, act, n, i);
    SameAt(b, act, n, j);
    SameAt(b, act, n, j + 1);
    VolumeShownAt(b, act, n, j, name);
    assert Moves(b, act, j);
    k := j + 1;
  }

  /** Once nothing is written any more, no deleting volume that is to be kept has the driver's finalizer. */
  lemma ProvisionerOwesNoRelease(b: nat -> World, act: nat -> Action, n: nat, i: nat, name: string)
    requires Standstill(b, act, n) && n <= i
    requires name in b(i).pvs && b(i).pvs[name].deleting && b(i).pvs[name].policy.Keep?
    ensures Driver !in b(i).pvs[name].finalizers
  {
    if Driver in b(i).pvs[name].finalizers {
      var k := ReleaseStarts(b, act, n, i, name);
      NeverStores(b, act, n, k);
    }
  }

  // ---------- The theorem ----------

  /** Nothing is left to do for either worker. */
  ghost predicate Done(w: World) {
    && (forall k :: k in w.vas ==>
          if w.vas[k].deleting then Driver !in w.vas[k].finalizers && w.vas[k].finalizers != {}
          else k.pv in w.pvs ==> w.vas[k].attached)
    && (forall v :: v in w.pvs && Doomed(w.pvs[v]) && NoneAttached(w.vas, v) ==> Finished(w, v, w.pvs[v].handle))
    && (forall v :: v in w.pvs && w.pvs[v].deleting && w.pvs[v].policy.Keep? ==> Driver !in w.pvs[v].finalizers)
  }

  ghost predicate DoneFrom(b: nat -> World, n: nat) {
    forall i: nat :: n <= i ==> Done(b(i)) && Unwritten(b(n), b(i))
  }

  lemma DoneWhenStill(b: nat -> World, act: nat -> Action, n: nat, i: nat)
    requires Standstill(b, act, n) && n <= i
    ensures Done(b(i)) && Unwritten(b(n), b(i))
  {
    SameAt(b, act, n, i);
    OrderAt(b, act, n, i);
    var w := b(i);
    forall k | k in w.vas ensures !PendingVA(w, k) { AttacherOwesNothing(b, act, n, i, k); }
    forall v | v in w.pvs && Doomed(w.pvs[v]) && NoneAttached(w.vas, v) ensures Finished(w, v, w.pvs[v].handle) {
      ProvisionerOwesNoDeletion(b, act, n, i, v);
    }
    forall v | v in w.pvs && w.pvs[v].deleting && w.pvs[v].policy.Keep? ensures Driver !in w.pvs[v].finalizers {
      ProvisionerOwesNoRelease(b, act, n, i, v);
    }
  }

  predicate Passes(p: nat -> bool, k: nat) {
    p(k) ==> p(k + 1)
  }

  lemma {:induction false} PassesOn(p: nat -> bool, i: nat)
    requires p(0) && forall k: nat :: Passes(p, k)
    ensures p(i)
  {
    if i > 0 {
      PassesOn(p, i - 1);
      assert Passes(p, i - 1);
    }
  }

  lemma StaysGoing(b: nat -> World, act: nat -> Action, i: nat, name: string, h: Handle)
    requires QuietBehaviour(b, act) && Going(b(0), name, h)
    ensures Going(b(i), name, h)
  {
    var p := (k: nat) => Going(b(k), name, h);
    forall k: nat ensures Passes(p, k) {
      if p(k) { MoveLeavesGoing(b, act, k, name, h); }
    }
    PassesOn(p, i);
  }

  lemma MoveLeavesGoing(b: nat -> World, act: nat -> Action, i: nat, name: string, h: Handle)
    requires QuietBehaviour(b, act) && Going(b(i), name, h)
    ensures Going(b(i + 1), name, h)
  {
    AlwaysInOrder(b, act, i);
    assert Moves(b, act, i);
    CalmStepLeavesGoing(b(i), act(i), b(i + 1), name, h);
  }

  /** The volume could go from the start, and in the end it has. */
  ghost predicate GoneAt(b: nat -> World, name: string, i: nat) {
    MayGo(b(0), name) ==> Finished(b(i), name, b(0).pvs[name].handle)
  }

  ghost predicate GoneFrom(b: nat -> World, n: nat) {
    forall v, i: nat :: n <= i ==> GoneAt(b, v, i)
  }

  lemma GoneWhenStill(b: nat -> World, act: nat -> Action, n: nat, i: nat, name: string)
    requires Standstill(b, act, n) && QuietBehaviour(b, act) && n <= i
    ensures GoneAt(b, name, i)
  {
    if MayGo(b(0), name) {
      var h := b(0).pvs[name].handle;
      MayGoIsGoing(b(0), name);
      StaysGoing(b, act, i, name, h);
      DoneWhenStill(b, act, n, i);
      GoingEnds(b(i), name, h);
    }
  }

  /**
   * Repeated reconciliation ends, under every fair schedule and whatever the workers were about when
   * the rest of the cluster fell quiet and calls stopped failing. From some moment on nothing is
   * written any more, and then every deleting attachment has lost the driver's finalizer, every other
   * one whose volume exists is Attached, every flagged Delete-policy volume without attachments has
   * its backend gone and is released by the driver, and so is every deleting volume that is kept. Of
   * every flagged Delete-policy volume that was held by no attachments at the start, or only by
   * deleting ones of the driver, the backend is then gone, whether the object is still there or not.
   */
  lemma FairSchedulesSettle(run: seq<World>, b: nat -> World, act: nat -> Action)
    requires Run(run) && Clean(run[|run| - 1]) && b(0) == run[|run| - 1]
    requires Behaviour(b, act) && Fair(b, act)
    ensures exists n: nat :: DoneFrom(b, n) && GoneFrom(b, n)
  {
    ReachedInOrder(run, |run| - 1);
    var n := BecomesStill(b, act);
    forall i: nat | n <= i ensures Done(b(i)) && Unwritten(b(n), b(i)) { DoneWhenStill(b, act, n, i); }
    forall v, i: nat | n <= i ensures GoneAt(b, v, i) { GoneWhenStill(b, act, n, i, v); }
    assert DoneFrom(b, n) && GoneFrom(b, n);
  }
}
