/**
 * The Windows host: VHDX files, iSCSI targets, and the commands the driver's PowerShell scripts
 * run there. One `Command` is one test-and-change of a script; a script may be cut off before,
 * between or after its commands.
 *
 * Names, paths and IQNs stand for their case-folded form, since PowerShell compares them so.
 */
module WindowsStorage {
  import opened Results

  /** A VHDX file; `registered` while the iSCSI service knows it as a virtual disk. */
  datatype Disk = Disk(size: int, registered: bool)

  datatype Target = Target(iqn: string, initiators: set<string>, luns: set<string>)

  datatype Storage = Storage(disks: map<string, Disk>, targets: map<string, Target>)

  datatype Command =
    | NewTarget(target: string)
    | SetIqn(target: string, iqn: string)
    | NewDisk(path: string, size: int)
    | AddMapping(target: string, path: string)
    | RemoveMapping(target: string, path: string)
    | UnregisterDisk(path: string)
    | RemoveFile(path: string)
    | RemoveTarget(target: string)
    | Allow(target: string, node: string)
    | Deny(target: string, node: string)

  /** The IQN Windows gives a new target: a function of the target's name. */
  function DefaultIqn(target: string): string {
    "iqn.1991-05.com.microsoft:" + target + "-target"
  }

  predicate IsRegistered(s: Storage, path: string) {
    path in s.disks && s.disks[path].registered
  }

  predicate MapsTo(s: Storage, target: string, path: string) {
    target in s.targets && path in s.targets[target].luns
  }

  predicate IsMapped(s: Storage, path: string) {
    exists t :: t in s.targets && path in s.targets[t].luns
  }

  function PutTarget(s: Storage, name: string, t: Target): Storage {
    s.(targets := s.targets[name := t])
  }

  function PutDisk(s: Storage, path: string, d: Disk): Storage {
    s.(disks := s.disks[path := d])
  }

  /** What a command does to the host; Err when the script throws, which changes nothing. */
  function Apply(s: Storage, c: Command): Result<Storage> {
    match c
    case NewTarget(t) =>
      Ok(if t in s.targets then s else PutTarget(s, t, Target(DefaultIqn(t), {}, {})))
    case SetIqn(t, iqn) =>
      if t !in s.targets then Err
      else Ok(if iqn == "" then s else PutTarget(s, t, s.targets[t].(iqn := iqn)))
    case NewDisk(path, size) =>
      if path !in s.disks then Ok(PutDisk(s, path, Disk(size, true)))
      else if s.disks[path].registered then Ok(s) else Err
    case AddMapping(t, path) =>
      if t !in s.targets || !IsRegistered(s, path) then Err
      else Ok(PutTarget(s, t, s.targets[t].(luns := s.targets[t].luns + {path})))
    case RemoveMapping(t, path) =>
      Ok(if t !in s.targets then s
         else PutTarget(s, t, s.targets[t].(luns := s.targets[t].luns - {path})))
    case UnregisterDisk(path) =>
      if !IsRegistered(s, path) then Ok(s)
      else if IsMapped(s, path) then Err
      else Ok(PutDisk(s, path, s.disks[path].(registered := false)))
    case RemoveFile(path) =>
      if IsRegistered(s, path) then Err else Ok(s.(disks := s.disks - {path}))
    case RemoveTarget(t) =>
      if t in s.targets && s.targets[t].luns != {} then Err
      else Ok(s.(targets := s.targets - {t}))
    case Allow(t, node) =>
      if t !in s.targets then Err
      else Ok(PutTarget(s, t, s.targets[t].(initiators := s.targets[t].initiators + {node})))
    case Deny(t, node) =>
      Ok(if t !in s.targets then s
         else PutTarget(s, t, s.targets[t].(initiators := s.targets[t].initiators - {node})))
  }

  /** All commands in order, each of them succeeding. */
  function RunAll(s: Storage, cs: seq<Command>): Result<Storage>
    decreases |cs|
  {
    if cs == [] then Ok(s)
    else match Apply(s, cs[0])
      case Err => Err
      case Ok(s') => RunAll(s', cs[1..])
  }

  /** `s'` is what an attempt at `cs` may leave that stops after any number of its commands. */
  ghost predicate CutOff(s: Storage, cs: seq<Command>, s': Storage)
    decreases |cs|
  {
    s' == s
    || (cs != [] && Apply(s, cs[0]).Ok? && CutOff(Apply(s, cs[0]).value, cs[1..], s'))
  }

  lemma {:induction false} RunAllIsCutOff(s: Storage, cs: seq<Command>)
    requires RunAll(s, cs).Ok?
    ensures CutOff(s, cs, RunAll(s, cs).value)
    decreases |cs|
  {
    if cs != [] {
      RunAllIsCutOff(Apply(s, cs[0]).value, cs[1..]);
    }
  }

  lemma {:induction false} RunAllSplit(s: Storage, a: seq<Command>, b: seq<Command>)
    ensures RunAll(s, a + b) ==
            (match RunAll(s, a) case Err => Err case Ok(s') => RunAll(s', b))
    decreases |a|
  {
    if a == [] {
      assert a + b == b;
    } else {
      assert (a + b)[0] == a[0] && (a + b)[1..] == a[1..] + b;
      if Apply(s, a[0]).Ok? {
        RunAllSplit(Apply(s, a[0]).value, a[1..], b);
      }
    }
  }

  lemma {:induction false} CutOffExtends(s: Storage, a: seq<Command>, b: seq<Command>, s': Storage)
    requires CutOff(s, a, s')
    ensures CutOff(s, a + b, s')
    decreases |a|
  {
    if s' != s {
      assert (a + b)[0] == a[0] && (a + b)[1..] == a[1..] + b;
      CutOffExtends(Apply(s, a[0]).value, a[1..], b, s');
    }
  }

  /** Finishing one call and being cut off in the next is being cut off in both. */
  lemma {:induction false} CutOffAfter(s: Storage, a: seq<Command>, b: seq<Command>, s': Storage)
    requires RunAll(s, a).Ok? && CutOff(RunAll(s, a).value, b, s')
    ensures CutOff(s, a + b, s')
    decreases |a|
  {
    if a == [] {
      assert a + b == b;
    } else {
      assert (a + b)[0] == a[0] && (a + b)[1..] == a[1..] + b;
      CutOffAfter(Apply(s, a[0]).value, a[1..], b, s');
    }
  }

  /** What GetVolumeByName reports. `Broken` is a file the iSCSI service does not know. */
  datatype Found = Absent | Broken | Present(size: int, mapping: Option<Mapping>)

  datatype Mapping = Mapping(target: string, iqn: string)

  /** `found` is a truthful answer about `path`; any mapped target may come first. */
  ghost predicate Finds(s: Storage, path: string, found: Found) {
    match found
    case Absent => path !in s.disks
    case Broken => path in s.disks && !s.disks[path].registered
    case Present(size, mapping) =>
      && IsRegistered(s, path) && s.disks[path].size == size
      && match mapping
         case None => !IsMapped(s, path)
         case Some(m) => MapsTo(s, m.target, path) && s.targets[m.target].iqn == m.iqn
  }

  /**
   * The WinRM backend. `fuse` counts the exchanges with the host that still succeed before the
   * link fails; None is a link that does not fail. A failed exchange may be a request that never
   * arrived or a reply that was lost.
   */
  class WinRMBackend {
    var storage: Storage
    var fuse: Option<nat>

    constructor (s: Storage, fuse: Option<nat>)
      ensures storage == s && this.fuse == fuse
    {
      storage := s;
      this.fuse := fuse;
    }

    method Exchange() returns (ok: bool)
      modifies this`fuse
      ensures old(fuse).None? ==> ok && fuse.None?
    {
      match fuse {
        case None => ok := true;
        case Some(n) =>
          ok := n > 0;
          if ok { fuse := Some(n - 1); }
      }
    }

    /** Sends one command. */
    method Send(c: Command) returns (ok: bool)
      modifies this
      ensures storage == old(storage) || Apply(old(storage), c) == Ok(storage)
      ensures ok ==> Apply(old(storage), c) == Ok(storage)
      ensures old(fuse).None? ==> fuse.None? && ok == Apply(old(storage), c).Ok?
    {
      ok := Exchange();
      if ok {
        match Apply(storage, c) {
          case Err => ok := false;
          case Ok(s) => storage := s;
        }
      }
    }

    /**
     * Runs one script: every backend method below is such a run followed by a reply.
     * Stopping at a thrown error is `$ErrorActionPreference='Stop'`.
     */
    method RunScript(cs: seq<Command>) returns (ok: bool)
      modifies this
      ensures CutOff(old(storage), cs, storage)
      ensures ok ==> RunAll(old(storage), cs) == Ok(storage)
      ensures old(fuse).None? ==> fuse.None? && ok == RunAll(old(storage), cs).Ok?
    {
      ghost var start := storage;
      ok := true;
      var i := 0;
      while i < |cs|
        invariant 0 <= i <= |cs| && ok
        invariant RunAll(start, cs[..i]) == Ok(storage)
        invariant old(fuse).None? ==> fuse.None?
      {
        assert cs[..i + 1] == cs[..i] + [cs[i]];
        assert cs == cs[..i] + cs[i..] && cs == cs[..i + 1] + cs[i + 1..];
        ghost var before := storage;
        ok := Send(cs[i]);
        RunAllSplit(start, cs[..i], [cs[i]]);
        if !ok {
          assert CutOff(before, cs[i..], storage);
          CutOffAfter(start, cs[..i], cs[i..], storage);
          RunAllSplit(start, cs[..i], cs[i..]);
          return;
        }
        i := i + 1;
      }
      assert cs[..i] == cs;
      RunAllIsCutOff(start, cs);
      ok := Exchange();
    }

    method EnsureTarget(target: string, iqn: string) returns (r: Result<string>)
      modifies this
      ensures CutOff(old(storage), [NewTarget(target), SetIqn(target, iqn)], storage)
      ensures r.Ok? ==> RunAll(old(storage), [NewTarget(target), SetIqn(target, iqn)]) == Ok(storage)
      ensures r.Ok? ==> target in storage.targets && r.value == storage.targets[target].iqn != ""
      ensures r.Ok? ==> target != "" && r.value == EnsuredIqn(old(storage), target, iqn)
      ensures old(fuse).None? ==>
                fuse.None? && (r.Ok? <==> target != "" && EnsuredIqn(old(storage), target, iqn) != "")
    {
      EnsureTargetWorks(storage, target, iqn);
      if target == "" { return Err; }
      var ok := RunScript([NewTarget(target), SetIqn(target, iqn)]);
      if !ok || storage.targets[target].iqn == "" { return Err; }
      return Ok(storage.targets[target].iqn);
    }

    method CreateVirtualDisk(path: string, size: int) returns (r: Result<int>)
      modifies this
      ensures CutOff(old(storage), [NewDisk(path, size)], storage)
      ensures r.Ok? ==> RunAll(old(storage), [NewDisk(path, size)]) == Ok(storage)
      ensures r.Ok? ==> IsRegistered(storage, path) && r.value == storage.disks[path].size
      ensures old(fuse).None? ==> fuse.None? && r.Ok? == RunAll(old(storage), [NewDisk(path, size)]).Ok?
    {
      var ok := RunScript([NewDisk(path, size)]);
      if !ok { return Err; }
      return Ok(storage.disks[path].size);
    }

    /** Answers LUN 0 whatever the target maps. */
    method MapDiskToTarget(target: string, path: string) returns (r: Result<int>)
      modifies this
      ensures CutOff(old(storage), [AddMapping(target, path)], storage)
      ensures r.Ok? ==> RunAll(old(storage), [AddMapping(target, path)]) == Ok(storage)
      ensures r.Ok? ==> r.value == 0
      ensures old(fuse).None? ==> fuse.None? && r.Ok? == RunAll(old(storage), [AddMapping(target, path)]).Ok?
    {
      var ok := RunScript([AddMapping(target, path)]);
      if !ok { return Err; }
      return Ok(0);
    }

    method GetVolumeByName(path: string) returns (r: Result<Found>)
      modifies this`fuse
      ensures r.Ok? ==> Finds(storage, path, r.value) && !r.value.Broken?
      ensures old(fuse).None? ==> fuse.None? && (r.Err? <==> Finds(storage, path, Broken))
    {
      var ok := Exchange();
      if !ok { return Err; }
      if path !in storage.disks { return Ok(Absent); }
      if !storage.disks[path].registered { return Err; }
      var mappedTargets := set t | t in storage.targets && path in storage.targets[t].luns;
      if mappedTargets == {} {
        assert forall t :: t in storage.targets && path in storage.targets[t].luns ==> t in mappedTargets;
        return Ok(Present(storage.disks[path].size, None));
      }
      var t :| t in mappedTargets;
      return Ok(Present(storage.disks[path].size, Some(Mapping(t, storage.targets[t].iqn))));
    }

    method UnmapDiskFromTarget(target: string, path: string) returns (ok: bool)
      modifies this
      ensures CutOff(old(storage), [RemoveMapping(target, path)], storage)
      ensures ok ==> RunAll(old(storage), [RemoveMapping(target, path)]) == Ok(storage)
      ensures old(fuse).None? ==> fuse.None? && ok == RunAll(old(storage), [RemoveMapping(target, path)]).Ok?
    {
      ok := RunScript([RemoveMapping(target, path)]);
    }

    method DeleteVirtualDisk(path: string) returns (ok: bool)
      modifies this
      ensures CutOff(old(storage), [UnregisterDisk(path), RemoveFile(path)], storage)
      ensures ok ==> RunAll(old(storage), [UnregisterDisk(path), RemoveFile(path)]) == Ok(storage)
      ensures old(fuse).None? ==>
                fuse.None? && ok == RunAll(old(storage), [UnregisterDisk(path), RemoveFile(path)]).Ok?
    {
      ok := RunScript([UnregisterDisk(path), RemoveFile(path)]);
    }

    /** The name of some target with this IQN, or "" when there is none. Targets have names on Windows. */
    method LookupTargetNameByIQN(iqn: string) returns (r: Result<string>)
      modifies this`fuse
      ensures r.Ok? && r.value != "" ==> r.value in storage.targets && storage.targets[r.value].iqn == iqn
      ensures r.Ok? && r.value == "" ==> iqn == "" || forall t :: t in storage.targets && t != "" ==> storage.targets[t].iqn != iqn
      ensures old(fuse).None? ==> fuse.None? && r.Ok?
    {
      if iqn == "" { return Ok(""); }
      var ok := Exchange();
      if !ok { return Err; }
      var named := set t | t in storage.targets && t != "" && storage.targets[t].iqn == iqn;
      if named == {} {
        assert forall t :: t in storage.targets && t != "" && storage.targets[t].iqn == iqn ==> t in named;
        return Ok("");
      }
      var t :| t in named;
      return Ok(t);
    }

    method DeleteTarget(target: string) returns (ok: bool)
      modifies this
      ensures CutOff(old(storage), [RemoveTarget(target)], storage)
      ensures ok && target != "" ==> RunAll(old(storage), [RemoveTarget(target)]) == Ok(storage)
      ensures target == "" ==> ok && storage == old(storage)
      ensures old(fuse).None? && target != "" ==>
                fuse.None? && ok == RunAll(old(storage), [RemoveTarget(target)]).Ok?
    {
      if target == "" { return true; }
      ok := RunScript([RemoveTarget(target)]);
    }

    method AllowInitiator(target: string, node: string) returns (ok: bool)
      modifies this
      ensures CutOff(old(storage), [Allow(target, node)], storage)
      ensures ok ==> RunAll(old(storage), [Allow(target, node)]) == Ok(storage)
      ensures old(fuse).None? ==> fuse.None? && ok == RunAll(old(storage), [Allow(target, node)]).Ok?
    {
      ok := RunScript([Allow(target, node)]);
    }

    method DenyInitiator(target: string, node: string) returns (ok: bool)
      modifies this
      ensures CutOff(old(storage), [Deny(target, node)], storage)
      ensures ok ==> RunAll(old(storage), [Deny(target, node)]) == Ok(storage)
      ensures old(fuse).None? ==> fuse.None? && ok == RunAll(old(storage), [Deny(target, node)]).Ok?
    {
      ok := RunScript([Deny(target, node)]);
    }
  }

  /** The IQN a target has once EnsureTarget is through. */
  function EnsuredIqn(s: Storage, target: string, iqn: string): string {
    if iqn != "" then iqn
    else if target in s.targets then s.targets[target].iqn
    else DefaultIqn(target)
  }

  function Ensured(s: Storage, target: string, iqn: string): Storage {
    var t := if target in s.targets then s.targets[target] else Target("", {}, {});
    PutTarget(s, target, t.(iqn := EnsuredIqn(s, target, iqn)))
  }

  /** EnsureTarget never throws, and changes nothing but the target's presence and IQN. */
  lemma EnsureTargetWorks(s: Storage, target: string, iqn: string)
    ensures RunAll(s, [NewTarget(target), SetIqn(target, iqn)]) == Ok(Ensured(s, target, iqn))
  {
    var cs := [NewTarget(target), SetIqn(target, iqn)];
    var s1 := Apply(s, cs[0]).value;
    assert cs[1..] == [SetIqn(target, iqn)];
    assert RunAll(s1, cs[1..]) == RunAll(Apply(s1, cs[1]).value, []);
    assert Apply(s1, cs[1]).value.targets == Ensured(s, target, iqn).targets;
  }
}
