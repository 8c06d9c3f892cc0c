/**
 * Creating and deleting one volume, over any number of attempts that each may be cut off.
 *
 * A host that carries part of the volume is described by a `Progress`; the commands of the RPCs
 * act on it as a small machine, which the storage commands are shown to follow exactly.
 */
module Convergence {
  import opened Results
  import opened WindowsStorage
  import opened ControllerServer

  datatype DiskPhase = NoDisk | FileOnly | Registered

  datatype TargetPhase = NoTarget | Unnamed | Named | Mapped

  datatype Progress = Progress(disk: DiskPhase, target: TargetPhase, nodes: set<string>)

  const NOTHING := Progress(NoDisk, NoTarget, {})

  predicate Valid(p: Progress) {
    && (p.target.Mapped? ==> p.disk.Registered?)
    && (p.target.NoTarget? ==> p.nodes == {})
  }

  /** Nothing on the host carries one of the volume's names. */
  ghost predicate Clear(base: Storage, req: Request) {
    && req.path !in base.disks && req.target !in base.targets && !IsMapped(base, req.path)
    && req.target != "" && req.size > 0
  }

  function FinalIqn(req: Request): string {
    if req.iqn != "" then req.iqn else DefaultIqn(req.target)
  }

  function TargetAt(req: Request, p: Progress): Target {
    Target(if p.target.Unnamed? then DefaultIqn(req.target) else FinalIqn(req),
           p.nodes,
           if p.target.Mapped? then {req.path} else {})
  }

  /** The host `base` with as much of the volume added as `p` says, and nothing else changed. */
  function Place(base: Storage, req: Request, p: Progress): Storage {
    Storage(
      if p.disk.NoDisk? then base.disks
      else base.disks[req.path := Disk(req.size, p.disk.Registered?)],
      if p.target.NoTarget? then base.targets
      else base.targets[req.target := TargetAt(req, p)])
  }

  /** The commands that CreateVolume and DeleteVolume of this request use. */
  predicate Own(req: Request, c: Command) {
    || c == NewDisk(req.path, req.size) || c == NewTarget(req.target)
    || c == SetIqn(req.target, req.iqn) || c == SetIqn(req.target, FinalIqn(req))
    || c == AddMapping(req.target, req.path) || c == RemoveMapping(req.target, req.path)
    || c == UnregisterDisk(req.path) || c == RemoveFile(req.path) || c == RemoveTarget(req.target)
  }

  /** The small machine; Err where the host refuses. */
  function Move(p: Progress, c: Command): Result<Progress> {
    match c
    case NewDisk(_, _) => if p.disk.FileOnly? then Err else Ok(p.(disk := Registered))
    case NewTarget(_) => Ok(if p.target.NoTarget? then p.(target := Unnamed) else p)
    case SetIqn(_, _) =>
      if p.target.NoTarget? then Err else Ok(if p.target.Unnamed? then p.(target := Named) else p)
    case AddMapping(_, _) =>
      if p.target.NoTarget? || !p.disk.Registered? then Err else Ok(p.(target := Mapped))
    case RemoveMapping(_, _) => Ok(if p.target.Mapped? then p.(target := Named) else p)
    case UnregisterDisk(_) =>
      if !p.disk.Registered? then Ok(p) else if p.target.Mapped? then Err else Ok(p.(disk := FileOnly))
    case RemoveFile(_) => if p.disk.Registered? then Err else Ok(p.(disk := NoDisk))
    case RemoveTarget(_) => if p.target.Mapped? then Err else Ok(p.(target := NoTarget, nodes := {}))
    case Allow(_, node) => if p.target.NoTarget? then Err else Ok(p.(nodes := p.nodes + {node}))
    case Deny(_, node) => Ok(p.(nodes := p.nodes - {node}))
  }

  /** Nothing is mapped to a target whose IQN has not been set yet. */
  predicate Timely(p: Progress, c: Command) {
    c.AddMapping? ==> !p.target.Unnamed?
  }

  lemma UnmappedUnlessPlaced(base: Storage, req: Request, p: Progress)
    requires Clear(base, req)
    ensures IsMapped(Place(base, req, p), req.path) <==> p.target.Mapped?
  {
    var s := Place(base, req, p);
    if p.target.Mapped? {
      assert MapsTo(s, req.target, req.path);
    } else {
      assert forall t :: t in s.targets && t != req.target ==> s.targets[t] == base.targets[t];
    }
  }

  lemma DiskCommandFollowsMove(base: Storage, req: Request, p: Progress, c: Command)
    requires Clear(base, req) && Valid(p)
    requires c == NewDisk(req.path, req.size) || c == UnregisterDisk(req.path) || c == RemoveFile(req.path)
    ensures Apply(Place(base, req, p), c).Ok? == Move(p, c).Ok?
    ensures Move(p, c).Ok? ==> Apply(Place(base, req, p), c).value == Place(base, req, Move(p, c).value)
  {
    UnmappedUnlessPlaced(base, req, p);
    if Move(p, c).Ok? {
      assert Apply(Place(base, req, p), c).value.disks == Place(base, req, Move(p, c).value).disks;
    }
  }

  /** Replacing the volume's own target is placing the volume at another progress. */
  lemma PutOwnTarget(base: Storage, req: Request, p: Progress, q: Progress)
    requires p.disk == q.disk && !q.target.NoTarget?
    ensures PutTarget(Place(base, req, p), req.target, TargetAt(req, q)) == Place(base, req, q)
  {
  }

  lemma TargetCommandFollowsMove(base: Storage, req: Request, p: Progress, c: Command)
    requires Clear(base, req) && Valid(p) && Own(req, c) && Timely(p, c)
    requires !c.NewDisk? && !c.UnregisterDisk? && !c.RemoveFile? && !c.RemoveTarget?
    ensures Apply(Place(base, req, p), c).Ok? == Move(p, c).Ok?
    ensures Move(p, c).Ok? ==> Apply(Place(base, req, p), c).value == Place(base, req, Move(p, c).value)
  {
    if Move(p, c).Ok? && !Move(p, c).value.target.NoTarget? {
      var q := Move(p, c).value;
      PutOwnTarget(base, req, p, q);
      if !p.target.NoTarget? {
        PutOwnTarget(base, req, p, p);
        var luns := TargetAt(req, p).luns;
        assert luns + {req.path} == {req.path} && luns - {req.path} == {};
      }
    }
  }

  lemma RemoveTargetFollowsMove(base: Storage, req: Request, p: Progress)
    requires Clear(base, req) && Valid(p) && !p.target.Mapped?
    ensures Apply(Place(base, req, p), RemoveTarget(req.target))
         == Ok(Place(base, req, p.(target := NoTarget, nodes := {})))
  {
    assert Place(base, req, p).targets - {req.target} == base.targets;
  }

  /** One command on the host is one move of the machine, refusals included. */
  lemma CommandFollowsMove(base: Storage, req: Request, p: Progress, c: Command)
    requires Clear(base, req) && Valid(p) && Own(req, c) && Timely(p, c)
    ensures Apply(Place(base, req, p), c).Ok? == Move(p, c).Ok?
    ensures Move(p, c).Ok? ==>
              Valid(Move(p, c).value) && Apply(Place(base, req, p), c).value == Place(base, req, Move(p, c).value)
  {
    if c.NewDisk? || c.UnregisterDisk? || c.RemoveFile? {
      DiskCommandFollowsMove(base, req, p, c);
    } else if c.RemoveTarget? {
      if !p.target.Mapped? { RemoveTargetFollowsMove(base, req, p); }
    } else {
      TargetCommandFollowsMove(base, req, p, c);
    }
  }

  predicate Suits(req: Request, p: Progress, cs: seq<Command>)
    decreases |cs|
  {
    cs == [] ||
    (Own(req, cs[0]) && Timely(p, cs[0]) &&
     (Move(p, cs[0]).Ok? ==> Suits(req, Move(p, cs[0]).value, cs[1..])))
  }

  function Moves(p: Progress, cs: seq<Command>): Result<Progress>
    decreases |cs|
  {
    if cs == [] then Ok(p)
    else match Move(p, cs[0])
      case Err => Err
      case Ok(q) => Moves(q, cs[1..])
  }

  ghost predicate Reaches(p: Progress, cs: seq<Command>, q: Progress)
    decreases |cs|
  {
    q == p || (cs != [] && Move(p, cs[0]).Ok? && Reaches(Move(p, cs[0]).value, cs[1..], q))
  }

  lemma {:induction false} RunFollowsMoves(base: Storage, req: Request, p: Progress, cs: seq<Command>)
    requires Clear(base, req) && Valid(p) && Suits(req, p, cs)
    ensures RunAll(Place(base, req, p), cs).Ok? == Moves(p, cs).Ok?
    ensures Moves(p, cs).Ok? ==>
              Valid(Moves(p, cs).value) && RunAll(Place(base, req, p), cs).value == Place(base, req, Moves(p, cs).value)
    decreases |cs|
  {
    if cs != [] {
      CommandFollowsMove(base, req, p, cs[0]);
      if Move(p, cs[0]).Ok? {
        RunFollowsMoves(base, req, Move(p, cs[0]).value, cs[1..]);
      }
    }
  }

  lemma {:induction false} CutOffFollowsMoves(base: Storage, req: Request, p: Progress, cs: seq<Command>, s': Storage)
    returns (q: Progress)
    requires Clear(base, req) && Valid(p) && Suits(req, p, cs)
    requires CutOff(Place(base, req, p), cs, s')
    ensures s' == Place(base, req, q) && Valid(q) && Reaches(p, cs, q)
    decreases |cs|
  {
    q := p;
    if s' != Place(base, req, p) {
      CommandFollowsMove(base, req, p, cs[0]);
      q := CutOffFollowsMoves(base, req, Move(p, cs[0]).value, cs[1..], s');
    }
  }

  // ---------- The scripts of the two RPCs, on the machine ----------

  function Created(nodes: set<string>): Progress {
    Progress(Registered, Mapped, nodes)
  }

  /** The handle and the reply of a creation nobody interrupted. */
  function HandleOf(req: Request): Handle {
    Handle(req.vol, req.portal, req.target, FinalIqn(req), 0, req.path, req.size)
  }

  function Issued(req: Request): Volume {
    Volume(HandleOf(req), req.size, Connection(req.portal, FinalIqn(req), 0))
  }

  function FoundAt(req: Request, p: Progress): Found {
    match p.disk
    case NoDisk => Absent
    case FileOnly => Broken
    case Registered =>
      Present(req.size, if p.target.Mapped? then Some(Mapping(req.target, FinalIqn(req))) else None)
  }

  lemma FindingIsForced(base: Storage, req: Request, p: Progress, found: Found)
    requires Clear(base, req) && Valid(p)
    requires Finds(Place(base, req, p), req.path, found)
    ensures found == FoundAt(req, p)
  {
    UnmappedUnlessPlaced(base, req, p);
    var s := Place(base, req, p);
    if p.target.Mapped? {
      assert MapsTo(s, req.target, req.path);
      assert forall t :: MapsTo(s, t, req.path) ==> t == req.target by {
        assert forall t :: t in base.targets ==> req.path !in base.targets[t].luns;
      }
    }
  }

  lemma CreateScriptMoves(req: Request, p: Progress)
    requires Valid(p) && req.target != "" && req.size > 0
    ensures p.disk.FileOnly? <==> Refused(req, FoundAt(req, p))
    ensures Suits(req, p, CreateScript(req, FoundAt(req, p)))
    ensures !p.disk.FileOnly? ==> Moves(p, CreateScript(req, FoundAt(req, p))) == Ok(Created(p.nodes))
  {
    var add := [AddMapping(req.target, req.path)];
    var ensure := [SetIqn(req.target, req.iqn)] + add;
    if p.disk.Registered? && p.target.Mapped? {
      UnfoldMove(req, p, NewTarget(req.target), [SetIqn(req.target, FinalIqn(req))]);
      UnfoldMove(req, p, SetIqn(req.target, FinalIqn(req)), []);
      assert CreateScript(req, FoundAt(req, p)) == [NewTarget(req.target)] + [SetIqn(req.target, FinalIqn(req))];
    } else if !p.disk.FileOnly? {
      var p1 := p.(disk := Registered);
      var p2 := if p1.target.NoTarget? then p1.(target := Unnamed) else p1;
      UnfoldMove(req, p, NewDisk(req.path, req.size), [NewTarget(req.target)] + ensure);
      UnfoldMove(req, p1, NewTarget(req.target), ensure);
      UnfoldMove(req, p2, SetIqn(req.target, req.iqn), add);
      UnfoldMove(req, p2.(target := Named), AddMapping(req.target, req.path), []);
      assert CreateScript(req, FoundAt(req, p)) ==
             (if p.disk.NoDisk? then [NewDisk(req.path, req.size)] else []) + ([NewTarget(req.target)] + ensure);
    }
  }

  lemma UnfoldMove(req: Request, p: Progress, c: Command, rest: seq<Command>)
    ensures Moves(p, [c] + rest) == (if Move(p, c).Ok? then Moves(Move(p, c).value, rest) else Err)
    ensures Suits(req, p, [c] + rest) <==>
            Own(req, c) && Timely(p, c) && (Move(p, c).Ok? ==> Suits(req, Move(p, c).value, rest))
    ensures rest == [] ==> [c] + rest == [c]
  {
  }

  lemma DeleteScriptMoves(req: Request, p: Progress)
    requires Valid(p) && req.target != "" && req.path != ""
    ensures Suits(req, p, DeleteScript(HandleOf(req), req.target))
    ensures Moves(p, DeleteScript(HandleOf(req), req.target)) == Ok(NOTHING)
  {
    var p1 := if p.target.Mapped? then p.(target := Named) else p;
    var p2 := if p1.disk.Registered? then p1.(disk := FileOnly) else p1;
    var p3 := p2.(disk := NoDisk);
    var remove := [RemoveTarget(req.target)];
    UnfoldMove(req, p, RemoveMapping(req.target, req.path), [UnregisterDisk(req.path)] + ([RemoveFile(req.path)] + remove));
    UnfoldMove(req, p1, UnregisterDisk(req.path), [RemoveFile(req.path)] + remove);
    UnfoldMove(req, p2, RemoveFile(req.path), remove);
    UnfoldMove(req, p3, RemoveTarget(req.target), []);
    assert DeleteScript(HandleOf(req), req.target) ==
           [RemoveMapping(req.target, req.path)] + ([UnregisterDisk(req.path)] + ([RemoveFile(req.path)] + remove));
  }

  // ---------- Any number of attempts ----------

  /** One attempt at creating or deleting the volume, or at (un)publishing it, cut off anywhere. */
  ghost predicate Attempt(req: Request, nodes: set<string>, s: Storage, s': Storage) {
    || (exists found :: Finds(s, req.path, found) && CutOff(s, CreateScript(req, found), s'))
    || CutOff(s, DeleteScript(HandleOf(req), req.target), s')
    || (exists n :: n in nodes && CutOff(s, [Allow(req.target, n)], s'))
    || (exists n :: CutOff(s, [Deny(req.target, n)], s'))
  }

  ghost predicate History(req: Request, nodes: set<string>, trace: seq<Storage>) {
    && trace != []
    && forall i :: 0 <= i < |trace| - 1 ==> Attempt(req, nodes, trace[i], trace[i + 1])
  }

  lemma {:induction false} NodesShrink(p: Progress, cs: seq<Command>, q: Progress)
    requires Reaches(p, cs, q)
    requires forall c :: c in cs ==> !c.Allow?
    ensures q.nodes <= p.nodes
    decreases |cs|
  {
    if q != p {
      NodesShrink(Move(p, cs[0]).value, cs[1..], q);
    }
  }

  lemma AccessCommandStaysPlaced(base: Storage, req: Request, p: Progress, c: Command, s': Storage)
    returns (q: Progress)
    requires Clear(base, req) && Valid(p)
    requires exists n :: c == Allow(req.target, n) || c == Deny(req.target, n)
    requires CutOff(Place(base, req, p), [c], s')
    ensures Valid(q) && s' == Place(base, req, q)
    ensures q.nodes <= p.nodes + (if c.Allow? then {c.node} else {})
  {
    var s := Place(base, req, p);
    q := p;
    if s' != s {
      assert CutOff(Apply(s, c).value, [], s');
      if !p.target.NoTarget? {
        q := Move(p, c).value;
        PutOwnTarget(base, req, p, q);
      }
    }
  }

  lemma AttemptStaysPlaced(base: Storage, req: Request, nodes: set<string>, p: Progress, s': Storage)
    returns (q: Progress)
    requires Clear(base, req) && req.path != "" && Valid(p)
    requires Attempt(req, nodes, Place(base, req, p), s')
    ensures Valid(q) && s' == Place(base, req, q) && q.nodes <= p.nodes + nodes
  {
    var s := Place(base, req, p);
    if found :| Finds(s, req.path, found) && CutOff(s, CreateScript(req, found), s') {
      FindingIsForced(base, req, p, found);
      CreateScriptMoves(req, p);
      q := CutOffFollowsMoves(base, req, p, CreateScript(req, found), s');
      NodesShrink(p, CreateScript(req, found), q);
    } else if CutOff(s, DeleteScript(HandleOf(req), req.target), s') {
      DeleteScriptMoves(req, p);
      q := CutOffFollowsMoves(base, req, p, DeleteScript(HandleOf(req), req.target), s');
      NodesShrink(p, DeleteScript(HandleOf(req), req.target), q);
    } else if n :| n in nodes && CutOff(s, [Allow(req.target, n)], s') {
      q := AccessCommandStaysPlaced(base, req, p, Allow(req.target, n), s');
    } else {
      var n :| CutOff(s, [Deny(req.target, n)], s');
      q := AccessCommandStaysPlaced(base, req, p, Deny(req.target, n), s');
    }
  }

  /**
   * Whatever the attempts so far, the host holds the volume at some progress, and everything
   * that is not the volume's is exactly as it was.
   */
  lemma {:induction false} HistoryStaysPlaced(base: Storage, req: Request, nodes: set<string>, start: Progress,
          trace: seq<Storage>)
    returns (q: Progress)
    requires Clear(base, req) && req.path != "" && Valid(start) && start.nodes <= nodes
    requires History(req, nodes, trace) && trace[0] == Place(base, req, start)
    ensures Valid(q) && trace[|trace| - 1] == Place(base, req, q) && q.nodes <= nodes
    decreases |trace|
  {
    if |trace| == 1 {
      q := start;
    } else {
      var before := trace[..|trace| - 1];
      forall i | 0 <= i < |before| - 1 ensures Attempt(req, nodes, before[i], before[i + 1]) {
        assert Attempt(req, nodes, trace[i], trace[i + 1]);
      }
      var p := HistoryStaysPlaced(base, req, nodes, start, before);
      q := AttemptStaysPlaced(base, req, nodes, p, trace[|trace| - 1]);
    }
  }

  /** A creation nobody interrupts, on a host without the volume. */
  lemma FreshCreation(base: Storage, req: Request)
    requires Clear(base, req)
    ensures Finds(base, req.path, Absent) && !Refused(req, Absent)
    ensures RunAll(base, CreateScript(req, Absent)) == Ok(Place(base, req, Created({})))
    ensures CreateReply(req, Absent, Place(base, req, Created({}))) == Issued(req)
  {
    assert Place(base, req, NOTHING) == base;
    CreateScriptMoves(req, NOTHING);
    RunFollowsMoves(base, req, NOTHING, CreateScript(req, Absent));
  }

  /**
   * CreateVolume converges: after any history of interrupted creations and deletions a completed
   * one leaves the host and answers the caller as a fresh uninterrupted creation does. Over a
   * sound link it completes unless an interrupted deletion left a file that the iSCSI service
   * no longer knows, and then it cannot complete before a deletion has.
   */
  lemma CreateConverges(base: Storage, req: Request, trace: seq<Storage>, found: Found, s': Storage)
    requires Clear(base, req) && req.path != ""
    requires History(req, {}, trace) && trace[0] == base
    requires Finds(trace[|trace| - 1], req.path, found)
    ensures !Refused(req, found) && RunAll(trace[|trace| - 1], CreateScript(req, found)) == Ok(s') ==>
              && Ok(s') == RunAll(base, CreateScript(req, Absent))
              && TargetChosen(req, found) in s'.targets && req.path in s'.disks
              && CreateReply(req, found, s') == Issued(req)
    ensures var s := trace[|trace| - 1];
            !Refused(req, found) && RunAll(s, CreateScript(req, found)).Ok? <==>
            !(req.path in s.disks && !s.disks[req.path].registered)
  {
    assert Place(base, req, NOTHING) == base;
    var p := HistoryStaysPlaced(base, req, {}, NOTHING, trace);
    FindingIsForced(base, req, p, found);
    CreateScriptMoves(req, p);
    RunFollowsMoves(base, req, p, CreateScript(req, found));
    FreshCreation(base, req);
    assert p.nodes == {};
  }

  /**
   * DeleteVolume undoes CreateVolume: from whatever a history left, with any initiators admitted,
   * a completed deletion leaves the host as if the volume had never been, and over a sound link
   * the deletion completes; in particular DeleteTarget never meets leftover mappings.
   */
  lemma DeleteUndoesCreate(base: Storage, req: Request, nodes: set<string>, start: Progress, trace: seq<Storage>)
    requires Clear(base, req) && req.path != "" && Valid(start) && start.nodes <= nodes
    requires History(req, nodes, trace) && trace[0] == Place(base, req, start)
    ensures RunAll(trace[|trace| - 1], DeleteScript(HandleOf(req), req.target)) == Ok(base)
  {
    var p := HistoryStaysPlaced(base, req, nodes, start, trace);
    DeleteScriptMoves(req, p);
    RunFollowsMoves(base, req, p, DeleteScript(HandleOf(req), req.target));
    assert Place(base, req, NOTHING) == base;
  }

  /** Throughout any history every other volume keeps its disk, target, mapping and initiators. */
  lemma OthersUntouched(base: Storage, req: Request, nodes: set<string>, start: Progress, trace: seq<Storage>,
          path: string, target: string)
    requires Clear(base, req) && req.path != "" && Valid(start) && start.nodes <= nodes
    requires History(req, nodes, trace) && trace[0] == Place(base, req, start)
    requires path != req.path && target != req.target
    ensures var s := trace[|trace| - 1];
            && (path in s.disks <==> path in base.disks)
            && (path in s.disks ==> s.disks[path] == base.disks[path])
            && (target in s.targets <==> target in base.targets)
            && (target in s.targets ==> s.targets[target] == base.targets[target])
  {
    var p := HistoryStaysPlaced(base, req, nodes, start, trace);
  }

  /**
   * The rollback after a failed PersistentVolume creation is a deletion that nobody retries. Cut
   * off between its two file operations, it leaves a name that CreateVolume can never serve again.
   */
  lemma InterruptedRollbackBlocksName(base: Storage, req: Request, found: Found)
    requires Clear(base, req) && req.path != ""
    ensures var stuck := Place(base, req, Progress(FileOnly, Named, {}));
            && History(req, {}, [Place(base, req, Created({})), stuck])
            && (Finds(stuck, req.path, found) ==> Refused(req, found))
  {
    var made, stuck := Place(base, req, Created({})), Place(base, req, Progress(FileOnly, Named, {}));
    var cs := DeleteScript(HandleOf(req), req.target);
    assert cs == [RemoveMapping(req.target, req.path), UnregisterDisk(req.path), RemoveFile(req.path),
                  RemoveTarget(req.target)];
    CommandFollowsMove(base, req, Created({}), cs[0]);
    CommandFollowsMove(base, req, Progress(Registered, Named, {}), cs[1]);
    assert cs[1..][0] == cs[1];
    var s1 := Apply(made, cs[0]).value;
    assert CutOff(Apply(s1, cs[1]).value, cs[1..][1..], stuck);
    assert CutOff(s1, cs[1..], stuck);
    assert CutOff(made, cs, stuck);
  }
}
