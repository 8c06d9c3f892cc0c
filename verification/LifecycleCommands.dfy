/** The backend commands of the two workers keep the invariants. */
module LifecycleCommands {
  import opened Results
  import opened Naming
  import opened WindowsStorage
  import opened ControllerServer
  import opened Lifecycle
  import opened LifecycleInvariants
  import opened LifecycleSteps

  // ---------- Mappings ----------

  /** A disk is made only as the volume's first and mapped only when it is mapped nowhere. */
  ghost predicate Careful(s: Storage, c: Command) {
    && (c.NewDisk? ==> OneHome(s, PathOwner(c.path), c.path))
    && (c.AddMapping? ==> !IsMapped(s, c.path))
  }

  lemma CommandKeepsMappingsFit(s: Storage, c: Command, vol: string, s': Storage)
    requires MappingsFit(s) && Touches(c, vol) && Apply(s, c) == Ok(s')
    ensures MappingsFit(s')
  {
    forall t, p | t in s'.targets && p in s'.targets[t].luns
      ensures PathOwner(p) == TargetOwner(t) && IsRegistered(s', p)
    {
      if t in s.targets && p in s.targets[t].luns {
        assert IsRegistered(s, p);
        assert MapsTo(s, t, p);
      }
    }
  }

  lemma CommandKeepsMappedOnce(s: Storage, c: Command, vol: string, s': Storage)
    requires MappedOnce(s) && Careful(s, c) && Touches(c, vol) && Apply(s, c) == Ok(s')
    ensures MappedOnce(s')
  {
    forall t, u, p | t in s'.targets && u in s'.targets && p in s'.targets[t].luns && p in s'.targets[u].luns
      ensures t == u
    {
      assert t in s.targets && p in s.targets[t].luns ==> MapsTo(s, t, p) && IsMapped(s, p);
      assert u in s.targets && p in s.targets[u].luns ==> MapsTo(s, u, p) && IsMapped(s, p);
    }
  }

  lemma CommandKeepsOneDisk(s: Storage, c: Command, vol: string, s': Storage)
    requires OneDiskPerVolume(s) && Careful(s, c) && Touches(c, vol) && Apply(s, c) == Ok(s')
    ensures OneDiskPerVolume(s')
  {
  }

  // ---------- The provisioner's commands and everyone else's guarantees ----------

  /** No guarantee rests on the volume any more, or yet. */
  predicate Unclaimed(w: World, vol: string) {
    vol in w.published ==> Dead(w.pvs, w.vas, vol)
  }

  /** The host after a command on this volume, and whether its deletion has begun by then. */
  predicate Leaves(w: World, vol: string, s': Storage, begun: set<string>) {
    && (begun == w.begun || begun == w.begun + {vol})
    && (vol in w.published ==> vol in begun && !Intact(s', w.published[vol]))
  }

  lemma CommandKeepsIntact(s: Storage, c: Command, vol: string, s': Storage, h: Handle)
    requires Touches(c, vol) && Apply(s, c) == Ok(s') && HandleFits(h.vol, h) && h.vol != vol
    ensures Intact(s', h) == Intact(s, h)
  {
    CommandStaysHome(s, c, vol, s');
  }

  lemma CommandKeepsGuarantees(w: World, c: Command, vol: string, s': Storage, begun: set<string>)
    requires HandlesFit(w.published) && HostFits(w) && Unclaimed(w, vol) && Leaves(w, vol, s', begun)
    requires Touches(c, vol) && Apply(w.storage, c) == Ok(s')
    ensures IntactUntilBegun(s', w.published, begun) && BegunAreDead(w.pvs, w.vas, w.published, begun)
  {
    forall v | v in w.published && v != vol ensures Intact(s', w.published[v]) == Intact(w.storage, w.published[v]) {
      assert HandleFits(v, w.published[v]);
      CommandKeepsIntact(w.storage, c, vol, s', w.published[v]);
    }
  }

  lemma CommandKeepsAgain(w: World, c: Command, vol: string, s': Storage)
    requires HostFits(w) && Touches(c, vol) && Apply(w.storage, c) == Ok(s')
    ensures AgainIntact(s', w.pvs, w.strayed, w.again - {vol})
  {
    forall v | v in w.again && v != vol ensures Intact(s', w.again[v]) {
      CommandKeepsIntact(w.storage, c, vol, s', w.again[v]);
    }
  }

  lemma CommandKeepsAccess(w: World, c: Command, vol: string, s': Storage)
    requires HostFits(w) && !c.Allow? && Apply(w.storage, c) == Ok(s')
    ensures AccessJustified(s', w.vas, w.pvCache, w.births, w.published, w.strayed, w.kept)
  {
    forall t, n | t in s'.targets && n in s'.targets[t].initiators
      ensures t in w.storage.targets && n in w.storage.targets[t].initiators
    {
    }
  }

  lemma CommandKeepsAttached(w: World, c: Command, vol: string, s': Storage)
    requires HandlesFit(w.published) && HostFits(w) && Unclaimed(w, vol)
    requires Touches(c, vol) && Apply(w.storage, c) == Ok(s')
    ensures AttachedAdmitted(s', w.vas, w.vaCache, w.published)
  {
    CommandStaysHome(w.storage, c, vol, s');
    forall k | k in w.vas && k.pv in w.published
      ensures Admitted(s', w.published[k.pv].target, k.node) == Admitted(w.storage, w.published[k.pv].target, k.node)
    {
      assert HandleFits(k.pv, w.published[k.pv]);
    }
  }

  lemma CommandKeepsReleased(w: World, c: Command, vol: string, s': Storage)
    requires HandlesFit(w.published) && HostFits(w) && (c.NewTarget? ==> vol !in w.published)
    requires Touches(c, vol) && Apply(w.storage, c) == Ok(s')
    ensures ReleasedGone(s', w.pvs, w.published, w.kept)
  {
    forall v | v in w.published ensures w.published[v].target in s'.targets ==> w.published[v].target in w.storage.targets {
      assert HandleFits(v, w.published[v]);
    }
  }

  lemma ProvisionerCommandKeepsHost(w: World, c: Command, vol: string, s': Storage, begun: set<string>)
    requires HandlesFit(w.published) && HostFits(w) && Unclaimed(w, vol) && Leaves(w, vol, s', begun)
    requires Careful(w.storage, c) && !c.Allow? && (c.NewTarget? ==> vol !in w.published)
    requires Touches(c, vol) && Apply(w.storage, c) == Ok(s')
    ensures HostFits(w.(storage := s', begun := begun, again := w.again - {vol}))
  {
    CommandKeepsMappingsFit(w.storage, c, vol, s');
    CommandKeepsMappedOnce(w.storage, c, vol, s');
    CommandKeepsOneDisk(w.storage, c, vol, s');
    CommandKeepsGuarantees(w, c, vol, s', begun);
    CommandKeepsAgain(w, c, vol, s');
    CommandKeepsAccess(w, c, vol, s');
    CommandKeepsAttached(w, c, vol, s');
    CommandKeepsReleased(w, c, vol, s');
  }

  lemma CommandAddsNoInitiator(s: Storage, c: Command, s': Storage)
    requires !c.Allow? && Apply(s, c) == Ok(s')
    ensures forall t, n :: t in s'.targets && n in s'.targets[t].initiators ==>
              t in s.targets && n in s.targets[t].initiators
  {
  }

  /** The attacher's view survives: initiators are only taken away from targets nobody is using. */
  lemma ProvisionerCommandKeepsAttacher(w: World, c: Command, vol: string, s': Storage, begun: set<string>)
    requires HandlesFit(w.published) && VAsCurrent(w.vas, w.vaLog, w.rev, w.births, w.published, w.strayed, w.kept)
    requires AttacherFits(w) && Unclaimed(w, vol) && !c.Allow?
    requires Touches(c, vol) && Apply(w.storage, c) == Ok(s')
    ensures AttacherFits(w.(storage := s', begun := begun, again := w.again - {vol}))
  {
    CommandStaysHome(w.storage, c, vol, s');
    if w.att.Unmarking? { CommandAddsNoInitiator(w.storage, c, s'); }
    if w.att.Reporting? {
      assert HandleFits(w.att.key.pv, w.att.handle);
    }
  }
}
