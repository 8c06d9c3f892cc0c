/**
 * VHDX-backed NFS and SMB volumes: a virtual disk, mounted at a directory that is shared. The two
 * protocols differ only in the share's namespace and in how the share is named in the reply.
 */
module FileShares {
  import opened Results

  datatype Kind = Nfs | Smb

  datatype Share = Share(kind: Kind, name: string)

  datatype Disk = Disk(size: int, registered: bool)

  /**
   * `access` says which disk is mounted at a path; `inDisk` and `dirs` hold the capacity written
   * to the metadata file in a volume and in a plain directory; `grants` holds the clients admitted
   * to each share.
   */
  datatype Host = Host(
    disks: map<string, Disk>, attached: set<string>, access: map<string, string>,
    inDisk: map<string, Option<int>>, dirs: map<string, Option<int>>, shares: map<Share, string>,
    grants: map<Share, set<string>>)

  datatype Command =
    | NewDisk(path: string, size: int)
    | MakeDir(dir: string)
    | Attach(path: string)
    | AddAccess(path: string, dir: string)
    | NewShare(share: Share, dir: string)
    | Grant(share: Share, client: string)
    | WriteCapacity(dir: string, capacity: int)
    | RemoveAccess(dir: string)
    | Detach(path: string)
    | RemoveEmptyDir(dir: string)
    | UnregisterDisk(path: string)
    | RemoveFile(path: string)
    | RemoveShare(share: Share)
    | RemoveTree(dir: string)

  predicate IsRegistered(h: Host, path: string) {
    path in h.disks && h.disks[path].registered
  }

  predicate MountedAt(h: Host, path: string, dir: string) {
    dir in h.access && h.access[dir] == path
  }

  function WithDir(h: Host, dir: string): Host {
    if dir in h.dirs then h else h.(dirs := h.dirs[dir := None])
  }

  /** Err when the script throws, which changes nothing. */
  function Apply(h: Host, c: Command): Result<Host> {
    match c
    case NewDisk(path, size) =>
      if path !in h.disks then Ok(h.(disks := h.disks[path := Disk(size, true)], inDisk := h.inDisk[path := None]))
      else if h.disks[path].registered then Ok(h) else Err
    case MakeDir(dir) => Ok(WithDir(h, dir))
    case Attach(path) => if path !in h.disks then Err else Ok(h.(attached := h.attached + {path}))
    case AddAccess(path, dir) =>
      if path !in h.attached || dir !in h.dirs then Err
      else if dir in h.access then (if h.access[dir] == path then Ok(h) else Err)
      else Ok(h.(access := h.access[dir := path]))
    case NewShare(share, dir) =>
      Ok(if share in h.shares then h else h.(shares := h.shares[share := dir], grants := h.grants[share := {}]))
    case Grant(share, client) =>
      Ok(if share in h.grants then h.(grants := h.grants[share := h.grants[share] + {client}]) else h)
    case WriteCapacity(dir, capacity) =>
      if dir in h.access then Ok(h.(inDisk := h.inDisk[h.access[dir] := Some(capacity)]))
      else Ok(h.(dirs := h.dirs[dir := Some(capacity)]))
    case RemoveAccess(dir) => Ok(h.(access := h.access - {dir}))
    case Detach(path) =>
      Ok(h.(attached := h.attached - {path}, access := map d | d in h.access && h.access[d] != path :: h.access[d]))
    case RemoveEmptyDir(dir) =>
      if dir in h.access || (dir in h.dirs && h.dirs[dir].Some?) then Err else Ok(h.(dirs := h.dirs - {dir}))
    case UnregisterDisk(path) =>
      Ok(if path in h.disks then h.(disks := h.disks[path := h.disks[path].(registered := false)]) else h)
    case RemoveFile(path) =>
      if path in h.attached || IsRegistered(h, path) then Err
      else Ok(h.(disks := h.disks - {path}, inDisk := h.inDisk - {path}))
    case RemoveShare(share) => Ok(h.(shares := h.shares - {share}, grants := h.grants - {share}))
    case RemoveTree(dir) => if dir in h.access then Err else Ok(h.(dirs := h.dirs - {dir}))
  }

  /** The host after the first `k` commands. */
  function After(h: Host, cs: seq<Command>, k: nat): Result<Host>
    requires k <= |cs|
  {
    if k == 0 then Ok(h)
    else
      match After(h, cs, k - 1)
      case Err => Err
      case Ok(h') => Apply(h', cs[k - 1])
  }

  // ---------- Requests, scripts and replies ----------

  /**
   * `server` is the parameter of that name, "" when it is not given; `computer` is the host's own
   * name; `clients` are those a parameter names for an NFS share.
   */
  datatype Request = Request(
    share: Share, vhdx: string, dir: string, size: int, server: string, computer: string, clients: seq<string>)

  /** The clients an NFS share is granted to one by one; an SMB share is made with its access list. */
  function Clients(r: Request): seq<string> {
    if r.share.kind.Smb? then [] else if r.clients == [] then ["*"] else r.clients
  }

  datatype FileHandle = FileHandle(share: Share, server: string, vhdx: string, dir: string, capacity: int)

  function Max(a: int, b: int): int {
    if a > b then a else b
  }

  /** What the two probes found: the share's path, the disk's size. */
  datatype Probe = Probe(dir: Option<string>, capacity: int, size: Option<int>)

  /** The truthful probe of a host whose disk is not broken. */
  function ProbeOf(h: Host, r: Request): Probe {
    Probe(if r.share in h.shares then Some(h.shares[r.share]) else None,
          if r.share in h.shares then CapacityAt(h, h.shares[r.share]) else 0,
          if r.vhdx in h.disks then Some(h.disks[r.vhdx].size) else None)
  }

  /** The capacity in the metadata file at a path, 0 without one. */
  function CapacityAt(h: Host, dir: string): int {
    var written :=
      if dir in h.access then (if h.access[dir] in h.inDisk then h.inDisk[h.access[dir]] else None)
      else if dir in h.dirs then h.dirs[dir] else None;
    if written.Some? then written.value else 0
  }

  predicate Broken(h: Host, r: Request) {
    r.vhdx in h.disks && !h.disks[r.vhdx].registered
  }

  /** A share whose disk is missing: answered by FailedPrecondition. */
  predicate ShareWithoutDisk(p: Probe) {
    p.dir.Some? && p.size.None?
  }

  function MountScript(vhdx: string, dir: string): seq<Command> {
    [MakeDir(dir), Attach(vhdx), AddAccess(vhdx, dir)]
  }

  function ActualSize(r: Request, p: Probe): int {
    if p.size.Some? then p.size.value else r.size
  }

  function Grants(r: Request): seq<Command> {
    seq(|Clients(r)|, i requires 0 <= i < |Clients(r)| => Grant(r.share, Clients(r)[i]))
  }

  function CreateScript(r: Request, p: Probe): seq<Command> {
    if ShareWithoutDisk(p) then []
    else if p.dir.Some? then MountScript(r.vhdx, p.dir.value)
    else (if p.size.None? then [NewDisk(r.vhdx, r.size)] else []) + MountScript(r.vhdx, r.dir)
         + ([MakeDir(r.dir), NewShare(r.share, r.dir)] + Grants(r)) + [WriteCapacity(r.dir, Max(r.size, ActualSize(r, p)))]
  }

  function CreateReply(r: Request, p: Probe): FileHandle {
    var server := if r.server != "" then r.server else r.computer;
    var written := if p.dir.Some? then p.capacity else Max(r.size, ActualSize(r, p));
    FileHandle(r.share, server, r.vhdx, if p.dir.Some? then p.dir.value else r.dir,
               Max(Max(written, ActualSize(r, p)), r.size))
  }

  function DeleteScript(h: FileHandle): seq<Command> {
    [RemoveAccess(h.dir), Detach(h.vhdx), RemoveEmptyDir(h.dir), UnregisterDisk(h.vhdx), RemoveFile(h.vhdx),
     RemoveShare(h.share), RemoveTree(h.dir)]
  }

  // ---------- The controller's calls ----------

  /** The host behind a link on which `fuse` more commands succeed; None is a link that does not fail. */
  class ShareController {
    var host: Host
    var fuse: Option<nat>

    constructor (h: Host, fuse: Option<nat>)
      ensures host == h && this.fuse == fuse
    {
      host, this.fuse := h, fuse;
    }

    method Exchange() returns (ok: bool)
      modifies this`fuse
      ensures old(fuse).None? ==> ok && fuse.None?
    {
      match fuse {
        case None => ok := true;
        case Some(n) =>
          ok := n > 0;
          if ok { fuse := Some(n - 1); }
      }
    }

    /** Runs the next commands of `script`; it may stop anywhere, and the last reply may be lost. */
    method Call(cs: seq<Command>, ghost start: Host, ghost script: seq<Command>, ghost done: nat)
      returns (ok: bool, ghost now: nat)
      requires done + |cs| <= |script| && script[done..done + |cs|] == cs
      requires After(start, script, done) == Ok(host)
      modifies this
      ensures done <= now <= done + |cs| && After(start, script, now) == Ok(host)
      ensures ok ==> now == done + |cs|
      ensures old(fuse).None? ==>
                fuse.None? && (ok || (now < done + |cs| && After(start, script, now + 1).Err?))
    {
      now := done;
      for i := 0 to |cs|
        invariant now == done + i && After(start, script, now) == Ok(host)
        invariant old(fuse).None? ==> fuse.None?
      {
        ok := Exchange();
        if !ok { return; }
        assert cs[i] == script[now];
        match Apply(host, cs[i]) {
          case Err => return false, now;
          case Ok(h) =>
            host := h;
            now := now + 1;
        }
      }
      ok := Exchange();
    }

    /** GetNfsShare or GetSmbShare, then GetVolumeByName; None when a call fails or the disk is broken. */
    method Find(r: Request) returns (p: Option<Probe>)
      modifies this`fuse
      ensures p.Some? ==> p.value == ProbeOf(host, r) && !Broken(host, r)
      ensures old(fuse).None? ==> fuse.None? && (p.None? <==> Broken(host, r))
    {
      var asked := Exchange();
      if !asked { return None; }
      var asked2 := Exchange();
      if !asked2 || Broken(host, r) { return None; }
      return Some(ProbeOf(host, r));
    }

    /** The VHDX-backed CreateVolume of either protocol. */
    method CreateVolume(r: Request) returns (v: Result<FileHandle>, ghost done: nat)
      modifies this
      ensures var script := CreateScript(r, ProbeOf(old(host), r));
              done <= |script| && After(old(host), script, done) == Ok(host) && (v.Ok? ==> done == |script|)
      ensures Broken(old(host), r) ==> done == 0
      ensures v.Ok? ==>
                && v.value == CreateReply(r, ProbeOf(old(host), r))
                && !Broken(old(host), r) && !ShareWithoutDisk(ProbeOf(old(host), r))
      ensures old(fuse).None? && v.Err? ==>
                || Broken(old(host), r) || ShareWithoutDisk(ProbeOf(old(host), r))
                || (done < |CreateScript(r, ProbeOf(old(host), r))|
                    && After(old(host), CreateScript(r, ProbeOf(old(host), r)), done + 1).Err?)
    {
      ghost var start := host;
      ghost var script := CreateScript(r, ProbeOf(host, r));
      done := 0;
      var found := Find(r);
      if found.None? { return Err, done; }
      var p := found.value;
      if p.dir.Some? {
        if p.size.None? { return Err, done; }
        var mounted: bool;
        mounted, done := Call(MountScript(r.vhdx, p.dir.value), start, script, done);
        if !mounted { return Err, done; }
        return Ok(CreateReply(r, p)), done;
      }
      var ok: bool;
      if p.size.None? {
        ok, done := Call([NewDisk(r.vhdx, r.size)], start, script, done);
        if !ok { return Err, done; }
      }
      ok, done := Call(MountScript(r.vhdx, r.dir), start, script, done);
      if !ok { return Err, done; }
      var actual := ActualSize(r, p);
      ok, done := Call([MakeDir(r.dir), NewShare(r.share, r.dir)] + Grants(r), start, script, done);
      if !ok { return Err, done; }
      ok, done := Call([WriteCapacity(r.dir, Max(r.size, actual))], start, script, done);
      if !ok { return Err, done; }
      return Ok(CreateReply(r, p)), done;
    }

    /** DeleteVolume for a VHDX-backed share: unmount, delete the disk, delete the share. */
    method DeleteVolume(h: FileHandle) returns (ok: bool, ghost done: nat)
      requires h.vhdx != ""
      modifies this
      ensures done <= |DeleteScript(h)| && After(old(host), DeleteScript(h), done) == Ok(host)
      ensures ok ==> done == |DeleteScript(h)|
      ensures old(fuse).None? && !ok ==> done < |DeleteScript(h)| && After(old(host), DeleteScript(h), done + 1).Err?
    {
      ghost var start, script := host, DeleteScript(h);
      done := 0;
      ok, done := Call([RemoveAccess(h.dir), Detach(h.vhdx), RemoveEmptyDir(h.dir)], start, script, done);
      if !ok { return; }
      ok, done := Call([UnregisterDisk(h.vhdx), RemoveFile(h.vhdx)], start, script, done);
      if !ok { return; }
      ok, done := Call([RemoveShare(h.share), RemoveTree(h.dir)], start, script, done);
    }
  }
}
