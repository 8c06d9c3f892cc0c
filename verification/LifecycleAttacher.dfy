/** The attacher's steps keep the invariants. */
module LifecycleAttacher {
  import opened Results
  import opened Naming
  import opened WindowsStorage
  import opened ControllerServer
  import opened Lifecycle
  import opened LifecycleInvariants
  import opened LifecycleSteps
  import opened LifecycleCommands

  predicate AllButAttacher(w: World) {
    VolumesFit(w) && AttachmentsFit(w) && HostFits(w) && ProvisionerFits(w)
  }

  lemma AttacherMoves(w: World, att: Attacher)
    requires AllButAttacher(w) && AttacherFits(w.(att := att))
    ensures Inv(w.(att := att))
  {
  }

  lemma AttacherMayRest(w: World)
    requires Inv(w)
    ensures Inv(w.(att := Idle))
  {
  }

  // ---------- Deciding what to do ----------

  /** The PersistentVolume was seen and is gone, so the volume's target is gone too, or kept. */
  lemma GoneVolumeAdmitsNobody(w: World, key: Key)
    requires VolumesFit(w) && AccessJustified(w.storage, w.vas, w.pvCache, w.births, w.published, w.strayed, w.kept)
    requires ReleasedGone(w.storage, w.pvs, w.published, w.kept)
    requires SeenGone(w.pvCache, w.births, key.pv)
    ensures NoAccess(w, key)
  {
    var x := w.pvCache[key.pv];
    assert PVVersionBinds(x, w.pvs);
    if key.pv in w.published && key.pv !in w.kept {
      forall t | t in w.storage.targets && TargetOwner(t) == key.pv ensures key.node !in w.storage.targets[t].initiators {
        assert key.node in w.storage.targets[t].initiators ==>
            AdmissionJustified(t, key.node, w.vas, w.pvCache, w.births, w.published, w.strayed, w.kept);
      }
    }
  }

  lemma SeenDeletingIsDeleting(w: World, key: Key, va: VA)
    requires AttachmentsFit(w) && AttachedAdmitted(w.storage, w.vas, w.vaCache, w.published)
    requires key in w.vaCache && w.vaCache[key].va == Some(va) && va.deleting
    ensures AttachedOnlyIfDeleting(w.vas, key, w.published)
  {
    if key in w.vas && w.vas[key].attached && key.pv in w.published {
      assert VAVersionBinds(w.vaCache[key], w.vas[key]);
    }
  }

  lemma CachedHandleIsKnown(w: World, key: Key)
    requires VolumesFit(w) && CachedPV(w, key.pv).Some? && (key.pv in w.published ==> !Outdated(w, key.pv))
    ensures HandleKnown(w, key, CachedPV(w, key.pv).value.handle)
  {
    assert PVVersionSound(w.pvCache[key.pv], w.rev, w.births, w.published, w.kept);
  }

  /** A copy that carries the finalizer and is not deleting is of an object that still has it. */
  lemma CopyFits(w: World, key: Key, va: VA)
    requires AttachmentsFit(w) && HostFits(w)
    requires key in w.vaCache && w.vaCache[key].va == Some(va)
    ensures AttacherFits(w.(att := Looking(key, va)))
  {
    if va.deleting {
      SeenDeletingIsDeleting(w, key, va);
    } else {
      var y := w.vaCache[key];
      assert y in w.vaLog && y.va.value.born <= y.rv == va.rv;
      assert MarkedLive(y) ==> Marked(w.vas, key) && w.vas[key].born == va.born;
    }
  }

  lemma StartAttachKeeps(w: World, key: Key, w': World)
    requires Inv(w) && StartsAttachment(w, key, w')
    ensures Inv(w')
  {
    CopyFits(w, key, w.vaCache[key].va.value);
    AttacherMoves(w, w'.att);
  }

  /** A finalizer is only on attachments whose volume has been seen. */
  lemma MarkedIsSeen(w: World, key: Key, va: VA)
    requires AttachmentsFit(w) && VAVersion(key, va.rv, Some(va)) in w.vaLog && Driver in va.finalizers
    ensures key.pv in w.pvCache
  {
    var y := VAVersion(key, va.rv, Some(va));
    assert y in w.vaLog && y.va.Some?;
  }

  /** Where the copy and a PersistentVolume cache that is not outdated lead. */
  lemma PlanFits(w: World, key: Key, va: VA)
    requires Inv(w) && w.att == Looking(key, va) && (key.pv in w.published ==> !Outdated(w, key.pv))
    ensures AttacherFits(w.(att := AttachPlan(w, key, va)))
  {
    if CachedPV(w, key.pv).Some? {
      CachedHandleIsKnown(w, key);
    } else if va.deleting && Driver in va.finalizers {
      MarkedIsSeen(w, key, va);
      if key.pv in w.published {
        assert PVVersionSound(w.pvCache[key.pv], w.rev, w.births, w.published, w.kept);
        GoneVolumeAdmitsNobody(w, key);
      }
    }
  }

  /** Where the copy and the PersistentVolume cache lead, with or without straying. */
  lemma LookKeeps(w: World, w': World)
    requires Inv(w) && w.att.Looking? && AttacherCall(w) == Some(w')
    ensures Inv(w')
  {
    var Looking(key, va) := w.att;
    var plan := AttachPlan(w, key, va);
    if plan.Idle? {
      AttacherMoves(w, plan);
    } else if Outdated(w, key.pv) {
      StrayKeeps(w, key.pv);
      StrayLeavesPlan(w, key, va);
      LookFits(Strayed(w, key.pv), key, va);
    } else {
      LookFits(w, key, va);
    }
  }

  lemma StrayLeavesPlan(w: World, key: Key, va: VA)
    ensures var w1 := Strayed(w, key.pv);
            w1.att == w.att && key.pv !in w1.published && AttachPlan(w1, key, va) == AttachPlan(w, key, va)
  {
  }

  lemma LookFits(w: World, key: Key, va: VA)
    requires Inv(w) && w.att == Looking(key, va) && (key.pv in w.published ==> !Outdated(w, key.pv))
    ensures Inv(w.(att := AttachPlan(w, key, va)))
  {
    PlanFits(w, key, va);
    AttacherMoves(w, AttachPlan(w, key, va));
  }

  // ---------- Updates of the VolumeAttachment ----------

  /** An update goes through only if the copy it is based on is the object itself. */
  lemma CopyIsCurrent(w: World, key: Key, va: VA)
    requires AttachmentsFit(w) && VAVersion(key, va.rv, Some(va)) in w.vaLog
    requires key in w.vas && w.vas[key].rv == va.rv
    ensures va == w.vas[key]
  {
    assert VAVersion(key, w.vas[key].rv, Some(w.vas[key])) == VAVersion(key, va.rv, Some(va));
  }

  lemma PutVAKeepsAllButAttacher(w: World, key: Key, va: VA)
    requires AllButAttacher(w) && VASucceeds(w, key, va)
    ensures AllButAttacher(PutVA(w, key, va))
  {
    PutVAKeepsAttachments(w, key, va);
    PutVAKeepsHost(w, key, va);
    PutVAKeepsProvisioner(w, key, va);
    assert VolumesFit(PutVA(w, key, va));
  }

  lemma PutVAKeepsProvisioner(w: World, key: Key, va: VA)
    requires ProvisionerFits(w) && key in w.vas
    ensures ProvisionerFits(PutVA(w, key, va))
  {
  }

  lemma RemoveVAKeepsAllButAttacher(w: World, key: Key)
    requires AllButAttacher(w) && MayUnmark(w, key)
    ensures AllButAttacher(RemoveVA(w, key))
  {
    RemoveVAKeepsAttachments(w, key);
    RemoveVAKeepsHost(w, key);
    RemoveVAKeepsProvisioner(w, key);
  }

  lemma RemoveVAKeepsProvisioner(w: World, key: Key)
    requires ProvisionerFits(w)
    ensures ProvisionerFits(RemoveVA(w, key))
  {
  }

  lemma MarkKeeps(w: World, w': World)
    requires Inv(w) && w.att.Marking? && AttacherCall(w) == Some(w')
    ensures Inv(w')
  {
    var Marking(key, va, h) := w.att;
    CopyIsCurrent(w, key, va);
    assert va.born <= va.rv;
    var marked := va.(finalizers := va.finalizers + {Driver});
    PutVAKeepsAllButAttacher(w, key, marked);
    AttacherMoves(PutVA(w, key, marked), Refetching(key, h));
  }

  lemma RefetchKeeps(w: World, w': World)
    requires Inv(w) && w.att.Refetching? && AttacherCall(w) == Some(w')
    ensures Inv(w')
  {
    AttacherMoves(w, w'.att);
  }

  lemma ReportSucceeds(w: World)
    requires AttachmentsFit(w) && AttacherFits(w) && w.att.Reporting?
    requires w.att.key in w.vas && w.vas[w.att.key].rv == w.att.va.rv
    ensures VASucceeds(w, w.att.key, w.att.va.(attached := true))
    ensures StoreVA(w, w.att.key, w.att.va.(attached := true)) == PutVA(w, w.att.key, w.att.va.(attached := true))
  {
    CopyIsCurrent(w, w.att.key, w.att.va);
  }

  lemma ReportKeeps(w: World, w': World)
    requires Inv(w) && w.att.Reporting? && AttacherCall(w) == Some(w')
    ensures Inv(w')
  {
    var Reporting(key, va, h) := w.att;
    ReportSucceeds(w);
    PutVAKeepsAllButAttacher(w, key, va.(attached := true));
    assert w' == PutVA(w, key, va.(attached := true)).(att := Idle);
    AttacherMoves(PutVA(w, key, va.(attached := true)), Idle);
  }

  lemma UnmarkKeeps(w: World, w': World)
    requires Inv(w) && w.att.Unmarking? && AttacherCall(w) == Some(w')
    ensures Inv(w')
  {
    var Unmarking(key, va) := w.att;
    CopyIsCurrent(w, key, va);
    var unmarked := va.(finalizers := va.finalizers - {Driver});
    if unmarked.finalizers == {} {
      RemoveVAKeepsAllButAttacher(w, key);
      AttacherMoves(RemoveVA(w, key), Idle);
    } else {
      PutVAKeepsAllButAttacher(w, key, unmarked);
      AttacherMoves(PutVA(w, key, unmarked), Idle);
    }
  }

  // ---------- Changes of the access list ----------

  /** `s'` differs from `s` in who may connect to `target`, and in nothing else. */
  ghost predicate OnlyAccessDiffers(s: Storage, s': Storage, target: string) {
    && s'.disks == s.disks && s'.targets.Keys == s.targets.Keys
    && (forall t :: t in s.targets ==> s'.targets[t].iqn == s.targets[t].iqn && s'.targets[t].luns == s.targets[t].luns)
    && (forall t :: t in s.targets && t != target ==> s'.targets[t] == s.targets[t])
  }

  lemma AccessCommandDiffers(s: Storage, c: Command, s': Storage)
    requires (c.Allow? || c.Deny?) && Apply(s, c) == Ok(s')
    ensures OnlyAccessDiffers(s, s', c.target)
  {
    assert s'.targets.Keys == s.targets.Keys;
  }

  lemma AccessKeepsMappings(s: Storage, s': Storage, target: string)
    requires MappingsFit(s) && MappedOnce(s) && OneDiskPerVolume(s) && OnlyAccessDiffers(s, s', target)
    ensures MappingsFit(s') && MappedOnce(s') && OneDiskPerVolume(s')
  {
  }

  lemma AccessKeepsGuarantees(w: World, s': Storage, target: string)
    requires HostFits(w) && OnlyAccessDiffers(w.storage, s', target)
    ensures IntactUntilBegun(s', w.published, w.begun) && AgainIntact(s', w.pvs, w.strayed, w.again)
    ensures ReleasedGone(s', w.pvs, w.published, w.kept)
  {
    assert forall h: Handle {:trigger Intact(s', h)} :: Intact(s', h) == Intact(w.storage, h);
  }

  lemma AccessKeepsProvisioner(w: World, s': Storage, target: string)
    requires ProvisionerFits(w) && OnlyAccessDiffers(w.storage, s', target)
    ensures ProvisionerFits(w.(storage := s'))
  {
    assert forall path :: IsMapped(s', path) ==> IsMapped(w.storage, path) by {
      forall path | IsMapped(s', path) ensures IsMapped(w.storage, path) {
        var t :| t in s'.targets && path in s'.targets[t].luns;
        assert MapsTo(w.storage, t, path);
      }
    }
  }

  lemma AllowKeepsAccess(w: World, target: string, key: Key, s': Storage)
    requires HostFits(w) && HandlesFit(w.published) && Apply(w.storage, Command.Allow(target, key.node)) == Ok(s')
    requires TargetOwner(target) == key.pv && key.pv in w.births && Marked(w.vas, key)
    requires Held(w.published, w.strayed, w.kept, key.pv)
    requires key.pv in w.published ==> w.published[key.pv].target == target
    ensures AccessJustified(s', w.vas, w.pvCache, w.births, w.published, w.strayed, w.kept)
    ensures AttachedAdmitted(s', w.vas, w.vaCache, w.published)
  {
    AllowKeepsAdmitted(w, target, key, s');
    forall t, n | t in s'.targets && n in s'.targets[t].initiators
      ensures AdmissionJustified(t, n, w.vas, w.pvCache, w.births, w.published, w.strayed, w.kept)
    {
      assert t in w.storage.targets && n in w.storage.targets[t].initiators ==>
          AdmissionJustified(t, n, w.vas, w.pvCache, w.births, w.published, w.strayed, w.kept);
    }
  }

  lemma AllowKeepsAdmitted(w: World, target: string, key: Key, s': Storage)
    requires AttachedAdmitted(w.storage, w.vas, w.vaCache, w.published) && HandlesFit(w.published)
    requires Apply(w.storage, Command.Allow(target, key.node)) == Ok(s')
    ensures AttachedAdmitted(s', w.vas, w.vaCache, w.published)
  {
    assert forall k :: k in w.vas && k.pv in w.published && Admitted(w.storage, w.published[k.pv].target, k.node) ==>
        Admitted(s', w.published[k.pv].target, k.node);
  }

  lemma AccessKeepsAllButAttacher(w: World, s': Storage, target: string)
    requires AllButAttacher(w) && OnlyAccessDiffers(w.storage, s', target)
    requires AccessJustified(s', w.vas, w.pvCache, w.births, w.published, w.strayed, w.kept) && AttachedAdmitted(s', w.vas, w.vaCache, w.published)
    ensures AllButAttacher(w.(storage := s'))
  {
    AccessKeepsMappings(w.storage, s', target);
    AccessKeepsGuarantees(w, s', target);
    AccessKeepsProvisioner(w, s', target);
  }

  lemma AllowAdmits(w: World, w': World)
    requires HandlesFit(w.published) && AttacherFits(w) && w.att.Allowing? && AttacherCall(w) == Some(w')
    ensures AttacherFits(w')
    ensures w.att.handle.target != ""
  {
    assert HandleFits(w.att.key.pv, w.att.handle);
  }

  lemma AllowKeeps(w: World, w': World)
    requires Inv(w) && w.att.Allowing? && AttacherCall(w) == Some(w')
    ensures Inv(w')
  {
    var Allowing(key, va, h) := w.att;
    AllowAdmits(w, w');
    AccessCommandDiffers(w.storage, Command.Allow(h.target, key.node), w'.storage);
    assert Held(w.published, w.strayed, w.kept, key.pv);
    AllowKeepsAccess(w, h.target, key, w'.storage);
    AccessKeepsAllButAttacher(w, w'.storage, h.target);
    AttacherMoves(w.(storage := w'.storage), w'.att);
  }

  lemma DenyKeepsAccess(w: World, target: string, key: Key, s': Storage)
    requires HostFits(w) && HandlesFit(w.published) && Apply(w.storage, Command.Deny(target, key.node)) == Ok(s')
    requires TargetOwner(target) == key.pv && AttachedOnlyIfDeleting(w.vas, key, w.published)
    requires key.pv in w.published ==> w.published[key.pv].target == target
    ensures AccessJustified(s', w.vas, w.pvCache, w.births, w.published, w.strayed, w.kept)
    ensures AttachedAdmitted(s', w.vas, w.vaCache, w.published)
  {
    forall t, n | t in s'.targets && n in s'.targets[t].initiators
      ensures t in w.storage.targets && n in w.storage.targets[t].initiators
    {
    }
    forall k | k in w.vas && k.pv in w.published && k != key && Admitted(w.storage, w.published[k.pv].target, k.node)
      ensures Admitted(s', w.published[k.pv].target, k.node)
    {
      assert HandleFits(k.pv, w.published[k.pv]);
    }
  }

  lemma DenyShutsOut(w: World, target: string, key: Key, s': Storage)
    requires AccessJustified(w.storage, w.vas, w.pvCache, w.births, w.published, w.strayed, w.kept)
    requires key.pv in w.published ==> w.published[key.pv].target == target
    requires Apply(w.storage, Command.Deny(target, key.node)) == Ok(s')
    ensures NoAccess(w.(storage := s'), key)
  {
    if key.pv in w.published {
      forall t | t in s'.targets && TargetOwner(t) == key.pv ensures key.node !in s'.targets[t].initiators {
        assert t in w.storage.targets;
        assert key.node in w.storage.targets[t].initiators ==>
            AdmissionJustified(t, key.node, w.vas, w.pvCache, w.births, w.published, w.strayed, w.kept);
      }
    }
  }

  lemma DenyKeeps(w: World, w': World)
    requires Inv(w) && w.att.Denying? && AttacherCall(w) == Some(w')
    ensures Inv(w')
  {
    var Denying(key, va, h) := w.att;
    assert HandleFits(key.pv, h);
    AccessCommandDiffers(w.storage, Command.Deny(h.target, key.node), w'.storage);
    DenyKeepsAccess(w, h.target, key, w'.storage);
    AccessKeepsAllButAttacher(w, w'.storage, h.target);
    DenyShutsOut(w, h.target, key, w'.storage);
    AttacherMoves(w.(storage := w'.storage), w'.att);
  }

  lemma AttacherCallKeeps(w: World, w': World)
    requires Inv(w) && AttacherCall(w) == Some(w')
    ensures Inv(w') && Inv(w'.(att := Idle))
  {
    match w.att {
      case Looking(_, _) => LookKeeps(w, w');
      case Marking(_, _, _) => MarkKeeps(w, w');
      case Refetching(_, _) => RefetchKeeps(w, w');
      case Allowing(_, _, _) => AllowKeeps(w, w');
      case Reporting(_, _, _) => ReportKeeps(w, w');
      case Denying(_, _, _) => DenyKeeps(w, w');
      case Unmarking(_, _) => UnmarkKeeps(w, w');
    }
    AttacherMayRest(w');
  }
}
