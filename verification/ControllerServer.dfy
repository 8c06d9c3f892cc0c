/** The iSCSI half of the CSI controller service: each RPC is a run of backend calls. */
module ControllerServer {
  import opened Results
  import opened WindowsStorage

  /** A CreateVolume request after its parameters have been checked; `iqn` is "" without iqnPrefix. */
  datatype Request = Request(vol: string, path: string, target: string, iqn: string, size: int, portal: string)

  /** What a volume handle carries. */
  datatype Handle = Handle(vol: string, portal: string, target: string, iqn: string, lun: int, path: string, size: int)

  /** Where a node is told to connect: the volume context and the publish context. */
  datatype Connection = Connection(portal: string, iqn: string, lun: int)

  datatype Volume = Volume(handle: Handle, capacity: int, context: Connection)

  /** Answered by an error before anything is changed: the disk found cannot serve the request. */
  predicate Refused(req: Request, found: Found) {
    || found.Broken?
    || (found.Present? && req.size > 0 && found.size > 0 && req.size > found.size)
  }

  /** The target CreateVolume works on: the one the disk is mapped to, if any. */
  function TargetChosen(req: Request, found: Found): string {
    if found.Present? && found.mapping.Some? && found.mapping.value.target != ""
    then found.mapping.value.target else req.target
  }

  function IqnChosen(req: Request, found: Found): string {
    if found.Present? && found.mapping.Some? && found.mapping.value.iqn != ""
    then found.mapping.value.iqn else req.iqn
  }

  /** The commands of the iSCSI CreateVolume, given what GetVolumeByName answered. */
  function CreateScript(req: Request, found: Found): seq<Command> {
    if Refused(req, found) then []
    else
      (if found.Absent? then [NewDisk(req.path, req.size)] else [])
      + [NewTarget(TargetChosen(req, found)), SetIqn(TargetChosen(req, found), IqnChosen(req, found))]
      + (if found.Present? && found.mapping.Some? then []
         else [AddMapping(TargetChosen(req, found), req.path)])
  }

  /** Those of them that deal with the target. */
  function TargetScript(req: Request, found: Found): seq<Command> {
    [NewTarget(TargetChosen(req, found)), SetIqn(TargetChosen(req, found), IqnChosen(req, found))]
    + (if found.Present? && found.mapping.Some? then [] else [AddMapping(TargetChosen(req, found), req.path)])
  }

  /** The reply once the commands are through. */
  function CreateReply(req: Request, found: Found, s: Storage): Volume
    requires TargetChosen(req, found) in s.targets && req.path in s.disks
  {
    var iqn := s.targets[TargetChosen(req, found)].iqn;
    var size := s.disks[req.path].size;
    Volume(Handle(req.vol, req.portal, TargetChosen(req, found), iqn, 0, req.path, size),
           size, Connection(req.portal, iqn, 0))
  }

  function FirstNonEmpty(a: string, b: string): string {
    if a != "" then a else b
  }

  /** The commands of the iSCSI DeleteVolume; `target` is the target it decides to remove. */
  function DeleteScript(h: Handle, target: string): seq<Command> {
    (if FirstNonEmpty(h.target, h.iqn) != "" && h.path != ""
     then [RemoveMapping(FirstNonEmpty(h.target, h.iqn), h.path)] else [])
    + (if h.path != "" then [UnregisterDisk(h.path), RemoveFile(h.path)] else [])
    + (if h.path != "" && target != "" then [RemoveTarget(target)] else [])
  }

  /** The targets are the same, each with its IQN. */
  predicate SameIqns(s: Storage, s': Storage) {
    s.targets.Keys == s'.targets.Keys && forall t :: t in s.targets ==> s'.targets[t].iqn == s.targets[t].iqn
  }

  lemma UnmapKeepsIqns(s: Storage, target: string, path: string)
    ensures var r := RunAll(s, [RemoveMapping(target, path)]); r.Ok? && SameIqns(s, r.value)
  {
    var s1 := Apply(s, RemoveMapping(target, path)).value;
    assert RunAll(s, [RemoveMapping(target, path)]) == RunAll(s1, []);
  }

  class Controller {
    const backend: WinRMBackend

    constructor (backend: WinRMBackend)
      ensures this.backend == backend
    {
      this.backend := backend;
    }

    /** The target, and the mapping unless the disk has one already. */
    method EnsureAndMap(req: Request, found: Found) returns (r: Result<Volume>)
      requires req.path in backend.storage.disks
      modifies backend
      ensures CutOff(old(backend.storage), TargetScript(req, found), backend.storage)
      ensures r.Ok? ==>
                && RunAll(old(backend.storage), TargetScript(req, found)) == Ok(backend.storage)
                && TargetChosen(req, found) in backend.storage.targets && req.path in backend.storage.disks
                && r.value == CreateReply(req, found, backend.storage)
                && TargetChosen(req, found) != ""
                && EnsuredIqn(old(backend.storage), TargetChosen(req, found), IqnChosen(req, found)) != ""
      ensures old(backend.fuse).None? ==>
                backend.fuse.None? &&
                (r.Ok? <==>
                  && TargetChosen(req, found) != "" && RunAll(old(backend.storage), TargetScript(req, found)).Ok?
                  && EnsuredIqn(old(backend.storage), TargetChosen(req, found), IqnChosen(req, found)) != "")
    {
      ghost var s1 := backend.storage;
      var target, iqn := TargetChosen(req, found), IqnChosen(req, found);
      ghost var ensure := [NewTarget(target), SetIqn(target, iqn)];
      ghost var mapping := TargetScript(req, found)[2..];
      assert TargetScript(req, found) == ensure + mapping;
      var ensured := backend.EnsureTarget(target, iqn);
      EnsureTargetWorks(s1, target, iqn);
      CutOffExtends(s1, ensure, mapping, backend.storage);
      RunAllSplit(s1, ensure, mapping);
      if ensured.Err? { return Err; }
      if !(found.Present? && found.mapping.Some?) {
        assert mapping == [AddMapping(target, req.path)];
        var lun := backend.MapDiskToTarget(target, req.path);
        CutOffAfter(s1, ensure, mapping, backend.storage);
        if lun.Err? { return Err; }
      }
      var size := backend.storage.disks[req.path].size;
      r := Ok(Volume(Handle(req.vol, req.portal, target, ensured.value, 0, req.path, size),
                     size, Connection(req.portal, ensured.value, 0)));
    }

    /**
     * A failed call may leave any prefix of the script behind, a successful one leaves all of it;
     * over a link that does not fail the call fails only where the host itself refuses.
     */
    method CreateVolume(req: Request) returns (r: Result<Volume>, ghost found: Found)
      modifies backend
      ensures Finds(old(backend.storage), req.path, found)
      ensures CutOff(old(backend.storage), CreateScript(req, found), backend.storage)
      ensures r.Ok? ==>
                && !Refused(req, found)
                && RunAll(old(backend.storage), CreateScript(req, found)) == Ok(backend.storage)
                && TargetChosen(req, found) in backend.storage.targets && req.path in backend.storage.disks
                && r.value == CreateReply(req, found, backend.storage)
                && TargetChosen(req, found) != ""
                && EnsuredIqn(old(backend.storage), TargetChosen(req, found), IqnChosen(req, found)) != ""
      ensures old(backend.fuse).None? ==>
                backend.fuse.None? &&
                (r.Ok? <==>
                  && !Refused(req, found) && TargetChosen(req, found) != ""
                  && RunAll(old(backend.storage), CreateScript(req, found)).Ok?
                  && EnsuredIqn(old(backend.storage), TargetChosen(req, found), IqnChosen(req, found)) != "")
    {
      ghost var s0 := backend.storage;
      found := TrueFinding(s0, req.path);
      var probe := backend.GetVolumeByName(req.path);
      if probe.Err? { return Err, found; }
      found := probe.value;
      if Refused(req, probe.value) { return Err, found; }
      ghost var script, rest := CreateScript(req, found), TargetScript(req, found);
      ghost var done: seq<Command> := [];
      if probe.value.Absent? {
        var disk := backend.CreateVirtualDisk(req.path, req.size);
        done := [NewDisk(req.path, req.size)];
        assert script == done + rest;
        CutOffExtends(s0, done, rest, backend.storage);
        RunAllSplit(s0, done, rest);
        if disk.Err? { return Err, found; }
        assert backend.storage.targets == s0.targets;
      }
      assert script == done + rest;
      RunAllSplit(s0, done, rest);
      r := EnsureAndMap(req, probe.value);
      CutOffAfter(s0, done, rest, backend.storage);
    }

    /** For handles with a target name `target` is that name, whatever the host holds. */
    method DeleteVolume(h: Handle) returns (ok: bool, ghost target: string)
      modifies backend
      ensures h.target != "" ==> target == h.target
      ensures h.target == "" && target != "" ==>
                target in old(backend.storage).targets && old(backend.storage).targets[target].iqn == h.iqn
      ensures ok && target == "" && h.path != "" && h.iqn != "" ==>
                forall t :: t in old(backend.storage).targets && t != "" ==> old(backend.storage).targets[t].iqn != h.iqn
      ensures CutOff(old(backend.storage), DeleteScript(h, target), backend.storage)
      ensures ok ==> RunAll(old(backend.storage), DeleteScript(h, target)) == Ok(backend.storage)
      ensures old(backend.fuse).None? ==>
                backend.fuse.None? && ok == RunAll(old(backend.storage), DeleteScript(h, target)).Ok?
    {
      ghost var s0 := backend.storage;
      ghost var done: seq<Command> := [];
      target := h.target;
      ghost var script := DeleteScript(h, target);
      var unmapFrom := FirstNonEmpty(h.target, h.iqn);
      if unmapFrom != "" && h.path != "" {
        ok := backend.UnmapDiskFromTarget(unmapFrom, h.path);
        done := [RemoveMapping(unmapFrom, h.path)];
        assert script == done + script[1..];
        CutOffExtends(s0, done, script[1..], backend.storage);
        RunAllSplit(s0, done, script[1..]);
        if !ok { return; }
      }
      if h.path == "" { return true, target; }
      ghost var s1 := backend.storage;
      assert RunAll(s0, done) == Ok(s1);
      if done != [] { UnmapKeepsIqns(s0, unmapFrom, h.path); }

      var toDelete := h.target;
      if toDelete == "" {
        var looked := backend.LookupTargetNameByIQN(h.iqn);
        if looked.Err? {
          CutOffExtends(s0, done, script[|done|..], backend.storage);
          assert script == done + script[|done|..];
          return false, target;
        }
        toDelete := looked.value;
        target := toDelete;
        script := DeleteScript(h, target);
      }

      ghost var disk := [UnregisterDisk(h.path), RemoveFile(h.path)];
      ghost var rest := script[|done|..];
      assert script == done + rest;
      RunAllSplit(s0, done, rest);
      ok := backend.DeleteVirtualDisk(h.path);
      assert rest == disk + rest[2..];
      CutOffExtends(s1, disk, rest[2..], backend.storage);
      CutOffAfter(s0, done, rest, backend.storage);
      RunAllSplit(s1, disk, rest[2..]);
      if !ok { return; }
      ghost var s2 := backend.storage;
      if toDelete != "" {
        ok := backend.DeleteTarget(toDelete);
        assert rest[2..] == [RemoveTarget(toDelete)];
        CutOffAfter(s1, disk, rest[2..], backend.storage);
        CutOffAfter(s0, done, rest, backend.storage);
      } else {
        assert rest[2..] == [];
      }
    }

    method ControllerPublishVolume(h: Handle, node: string) returns (r: Result<Connection>)
      modifies backend
      ensures CutOff(old(backend.storage), [Allow(FirstNonEmpty(h.target, h.iqn), node)], backend.storage)
      ensures r.Ok? ==>
                && RunAll(old(backend.storage), [Allow(FirstNonEmpty(h.target, h.iqn), node)]) == Ok(backend.storage)
                && r.value == Connection(h.portal, h.iqn, h.lun)
      ensures !("iqn." <= node) || h.iqn == "" ==> r.Err? && backend.storage == old(backend.storage)
      ensures old(backend.fuse).None? ==>
                backend.fuse.None? &&
                (r.Ok? <==> "iqn." <= node && h.iqn != "" && FirstNonEmpty(h.target, h.iqn) in old(backend.storage).targets)
    {
      if !("iqn." <= node) { return Err; }
      var target := FirstNonEmpty(h.target, h.iqn);
      if target == "" || h.iqn == "" { return Err; }
      var ok := backend.AllowInitiator(target, node);
      if !ok { return Err; }
      return Ok(Connection(h.portal, h.iqn, h.lun));
    }

    method ControllerUnpublishVolume(h: Handle, node: string) returns (ok: bool)
      modifies backend
      ensures CutOff(old(backend.storage), [Deny(FirstNonEmpty(h.target, h.iqn), node)], backend.storage)
      ensures ok && FirstNonEmpty(h.target, h.iqn) != "" ==>
                RunAll(old(backend.storage), [Deny(FirstNonEmpty(h.target, h.iqn), node)]) == Ok(backend.storage)
      ensures FirstNonEmpty(h.target, h.iqn) == "" ==> ok && backend.storage == old(backend.storage)
      ensures old(backend.fuse).None? ==> backend.fuse.None? && ok
    {
      var target := FirstNonEmpty(h.target, h.iqn);
      if target == "" { return true; }
      ok := backend.DenyInitiator(target, node);
    }
  }

  /** Whatever the host holds, GetVolumeByName has some truthful answer. */
  ghost function TrueFinding(s: Storage, path: string): (found: Found)
    ensures Finds(s, path, found)
  {
    if path !in s.disks then Absent
    else if !s.disks[path].registered then Broken
    else if IsMapped(s, path) then
      var t :| t in s.targets && path in s.targets[t].luns;
      Present(s.disks[path].size, Some(Mapping(t, s.targets[t].iqn)))
    else Present(s.disks[path].size, None)
  }
}
