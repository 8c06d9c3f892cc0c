/** What any history of interrupted calls leaves of a VHDX-backed share, and what a further call makes of it. */
module ShareConvergence {
  import opened Results
  import opened FileShares

  /** Nothing of this volume is on the host. */
  predicate Gone(h: Host, r: Request) {
    && r.share !in h.shares && r.share !in h.grants && r.vhdx !in h.disks && r.vhdx !in h.inDisk && r.vhdx !in h.attached
    && r.dir !in h.access && r.dir !in h.dirs && (forall d :: d in h.access ==> h.access[d] != r.vhdx)
  }

  /** What always holds of the parts of this volume. */
  predicate Keeps(h: Host, r: Request) {
    && (r.share in h.shares ==> h.shares[r.share] == r.dir)
    && (r.share in h.shares <==> r.share in h.grants)
    && (forall d :: d in h.access ==> (h.access[d] == r.vhdx <==> d == r.dir))
    && (r.vhdx in h.attached ==> r.vhdx in h.disks)
    && (r.dir in h.access ==> r.vhdx in h.attached && r.dir in h.dirs)
    && (r.dir in h.dirs ==> h.dirs[r.dir].None?)
    && (r.vhdx in h.disks ==> h.disks[r.vhdx].size == r.size)
    && (r.vhdx in h.disks <==> r.vhdx in h.inDisk)
    && (CapacityWritten(h, r) ==> h.inDisk[r.vhdx].value == r.size && r.share in h.shares)
  }

  /** The volume holds its metadata file. */
  predicate CapacityWritten(h: Host, r: Request) {
    r.vhdx in h.inDisk && h.inDisk[r.vhdx].Some?
  }

  /** A share has its disk, mounted where it points. */
  predicate Whole(h: Host, r: Request) {
    && (r.share in h.shares ==> IsRegistered(h, r.vhdx) && MountedAt(h, r.vhdx, r.dir))
    && (r.vhdx in h.disks ==> h.disks[r.vhdx].registered)
  }

  /** The volume is shared, mounted, and on its disk. */
  predicate Shared(h: Host, r: Request) {
    Whole(h, r) && r.share in h.shares && h.shares[r.share] == r.dir
  }

  predicate Granted(h: Host, r: Request, n: nat)
    requires n <= |Clients(r)|
  {
    r.share in h.grants && forall i :: 0 <= i < n ==> Clients(r)[i] in h.grants[r.share]
  }

  /** What an uninterrupted creation leaves besides: the clients are admitted, capacity and quota are written. */
  predicate Furnished(h: Host, r: Request) {
    Granted(h, r, |Clients(r)|) && CapacityWritten(h, r)
  }

  // ---------- One command of a creation ----------

  /** The number of commands of a creation that starts from nothing. */
  function Length(r: Request): nat {
    7 + |Clients(r)|
  }

  /** Command number `k` of such a creation. */
  function CommandAt(r: Request, k: nat): Command
    requires k < Length(r)
  {
    if k == 0 then NewDisk(r.vhdx, r.size)
    else if k == 1 || k == 4 then MakeDir(r.dir)
    else if k == 2 then Attach(r.vhdx)
    else if k == 3 then AddAccess(r.vhdx, r.dir)
    else if k == 5 then NewShare(r.share, r.dir)
    else if k < Length(r) - 1 then Grant(r.share, Clients(r)[k - 6])
    else WriteCapacity(r.dir, r.size)
  }

  /** The commands of the script from number `from` on. */
  predicate IsPart(cs: seq<Command>, r: Request, from: nat) {
    from + |cs| <= Length(r) && forall i :: 0 <= i < |cs| ==> cs[i] == CommandAt(r, from + i)
  }

  /** How many of the grants have been made before the command of this number. */
  function GrantsBefore(r: Request, k: nat): (n: nat)
    ensures n <= |Clients(r)|
  {
    if k < 6 then 0 else if k - 6 > |Clients(r)| then |Clients(r)| else k - 6
  }

  /** Where the host stands before the command of this number. */
  predicate At(h: Host, r: Request, k: nat) {
    && (k == 0 ==> r.vhdx !in h.disks)
    && (k >= 1 ==> IsRegistered(h, r.vhdx))
    && (k >= 2 ==> r.dir in h.dirs)
    && (k >= 3 ==> r.vhdx in h.attached)
    && (k >= 4 ==> MountedAt(h, r.vhdx, r.dir))
    && (k >= 6 ==> r.share in h.shares && Granted(h, r, GrantsBefore(r, k)))
    && (k == Length(r) ==> CapacityWritten(h, r))
  }

  lemma CreationStep(h: Host, r: Request, k: nat)
    requires k < Length(r) && Keeps(h, r) && At(h, r, k)
    ensures var next := Apply(h, CommandAt(r, k));
            && next.Ok? && Keeps(next.value, r) && At(next.value, r, k + 1)
            && (Whole(h, r) ==> Whole(next.value, r))
  {
    if k >= 4 { LaterStep(h, r, k); }
  }

  lemma LaterStep(h: Host, r: Request, k: nat)
    requires 4 <= k < Length(r) && Keeps(h, r) && At(h, r, k)
    ensures var next := Apply(h, CommandAt(r, k));
            && next.Ok? && Keeps(next.value, r) && At(next.value, r, k + 1)
            && (Whole(h, r) ==> Whole(next.value, r))
  {
    assert k >= 6 ==> GrantsBefore(r, k + 1) <= GrantsBefore(r, k) + 1;
  }

  /** A host in order, standing at this point of the script. */
  predicate Stands(h: Result<Host>, r: Request, k: nat, whole: bool) {
    h.Ok? && Keeps(h.value, r) && At(h.value, r, k) && (whole ==> Whole(h.value, r))
  }

  lemma CreationStepStands(h: Host, r: Request, k: nat, whole: bool, c: Command)
    requires k < Length(r) && Stands(Ok(h), r, k, whole) && c == CommandAt(r, k)
    ensures Stands(Apply(h, c), r, k + 1, whole)
  {
    CreationStep(h, r, k);
  }

  /** Any part of the creation's commands goes through from where the host stands. */
  lemma {:induction false} CreationRuns(h: Host, r: Request, from: nat, cs: seq<Command>, k: nat)
    requires IsPart(cs, r, from) && k <= |cs|
    requires Keeps(h, r) && At(h, r, from)
    ensures Stands(After(h, cs, k), r, from + k, Whole(h, r))
  {
    if k > 0 {
      CreationRuns(h, r, from, cs, k - 1);
      CreationStepStands(After(h, cs, k - 1).value, r, from + k - 1, Whole(h, r), cs[k - 1]);
    }
  }

  /** Which part of the commands a probed host calls for. */
  lemma ScriptIsPart(h: Host, r: Request)
    requires Keeps(h, r) && !Broken(h, r) && !ShareWithoutDisk(ProbeOf(h, r))
    ensures var p := ProbeOf(h, r);
            && IsPart(CreateScript(r, p), r, FirstCommand(h, r)) && At(h, r, FirstCommand(h, r))
            && |CreateScript(r, p)| == (if p.dir.Some? then 3 else Length(r) - FirstCommand(h, r))
  {
  }

  function FirstCommand(h: Host, r: Request): nat {
    if r.vhdx in h.disks then 1 else 0
  }

  // ---------- One command of a deletion ----------

  predicate Names(f: FileHandle, r: Request) {
    f.share == r.share && f.vhdx == r.vhdx && f.dir == r.dir
  }

  predicate DeletedTo(h: Host, r: Request, k: nat) {
    && (k >= 1 ==> r.dir !in h.access)
    && (k >= 2 ==> r.vhdx !in h.attached)
    && (k >= 3 ==> r.dir !in h.dirs)
    && (k >= 4 ==> !IsRegistered(h, r.vhdx))
    && (k >= 5 ==> r.vhdx !in h.disks)
    && (k >= 6 ==> r.share !in h.shares)
  }

  lemma UnmountStep(h: Host, r: Request, f: FileHandle, k: nat)
    requires Keeps(h, r) && Names(f, r) && DeletedTo(h, r, k) && k < 3
    ensures var next := Apply(h, DeleteScript(f)[k]);
            next.Ok? && Keeps(next.value, r) && DeletedTo(next.value, r, k + 1)
  {
  }

  lemma RemovalStep(h: Host, r: Request, f: FileHandle, k: nat)
    requires Keeps(h, r) && Names(f, r) && DeletedTo(h, r, k) && 3 <= k < 7
    ensures var next := Apply(h, DeleteScript(f)[k]);
            next.Ok? && Keeps(next.value, r) && DeletedTo(next.value, r, k + 1)
  {
    if k < 5 { DiskRemovalStep(h, r, f, k); } else { ShareRemovalStep(h, r, f, k); }
  }

  lemma DiskRemovalStep(h: Host, r: Request, f: FileHandle, k: nat)
    requires Keeps(h, r) && Names(f, r) && DeletedTo(h, r, k) && 3 <= k < 5
    ensures var next := Apply(h, DeleteScript(f)[k]);
            next.Ok? && Keeps(next.value, r) && DeletedTo(next.value, r, k + 1)
  {
  }

  lemma ShareRemovalStep(h: Host, r: Request, f: FileHandle, k: nat)
    requires Keeps(h, r) && Names(f, r) && DeletedTo(h, r, k) && 5 <= k < 7
    ensures var next := Apply(h, DeleteScript(f)[k]);
            next.Ok? && Keeps(next.value, r) && DeletedTo(next.value, r, k + 1)
  {
  }

  /** No command of a deletion is refused, wherever earlier attempts stopped. */
  lemma {:induction false} DeletionRuns(h: Host, r: Request, f: FileHandle, k: nat)
    requires Keeps(h, r) && Names(f, r) && k <= 7
    ensures var now := After(h, DeleteScript(f), k);
            now.Ok? && Keeps(now.value, r) && DeletedTo(now.value, r, k)
  {
    if k > 0 {
      DeletionRuns(h, r, f, k - 1);
      var before := After(h, DeleteScript(f), k - 1).value;
      if k <= 3 { UnmountStep(before, r, f, k - 1); } else { RemovalStep(before, r, f, k - 1); }
    }
  }

  // ---------- Histories ----------

  /** A call that stopped after `k` commands. */
  datatype Attempt = Creating(k: nat) | Deleting(f: FileHandle, k: nat)

  predicate Attempted(h: Host, r: Request, a: Attempt, h': Host) {
    match a
    case Creating(k) =>
      if Broken(h, r) then h' == h
      else k <= |CreateScript(r, ProbeOf(h, r))| && After(h, CreateScript(r, ProbeOf(h, r)), k) == Ok(h')
    case Deleting(f, k) => Names(f, r) && k <= 7 && After(h, DeleteScript(f), k) == Ok(h')
  }

  /** A host on which calls for this volume, and no others for it, have been made since it was absent. */
  predicate History(hs: seq<Host>, attempts: seq<Attempt>, r: Request) {
    && |hs| == |attempts| + 1 && Gone(hs[0], r)
    && forall i :: 0 <= i < |attempts| ==> Attempted(hs[i], r, attempts[i], hs[i + 1])
  }

  /** Every call the controller makes, however it ends, is such an attempt. */
  method TryCreate(c: ShareController, r: Request) returns (v: Result<FileHandle>, ghost a: Attempt)
    modifies c
    ensures Attempted(old(c.host), r, a, c.host) && a.Creating?
    ensures v.Ok? ==> v.value == CreateReply(r, ProbeOf(old(c.host), r))
  {
    ghost var done;
    v, done := c.CreateVolume(r);
    a := Creating(done);
  }

  method TryDelete(c: ShareController, r: Request, f: FileHandle) returns (ok: bool, ghost a: Attempt)
    requires Names(f, r) && f.vhdx != ""
    modifies c
    ensures Attempted(old(c.host), r, a, c.host) && a.Deleting? && (ok ==> a.k == 7)
  {
    ghost var done;
    ok, done := c.DeleteVolume(f);
    a := Deleting(f, done);
  }

  predicate DeletesComplete(attempts: seq<Attempt>) {
    forall i :: 0 <= i < |attempts| && attempts[i].Deleting? ==> attempts[i].k == 7
  }

  lemma AttemptKeeps(h: Host, r: Request, a: Attempt, h': Host)
    requires Keeps(h, r) && Attempted(h, r, a, h')
    ensures Keeps(h', r)
    ensures Whole(h, r) && (a.Deleting? ==> a.k == 7) ==> Whole(h', r)
  {
    match a {
      case Creating(k) =>
        var p := ProbeOf(h, r);
        if !Broken(h, r) && !ShareWithoutDisk(p) {
          ScriptIsPart(h, r);
          CreationRuns(h, r, FirstCommand(h, r), CreateScript(r, p), k);
        }
      case Deleting(f, k) => DeletionRuns(h, r, f, k);
    }
  }

  lemma {:induction false} HistoryKeeps(hs: seq<Host>, attempts: seq<Attempt>, r: Request, i: nat)
    requires History(hs, attempts, r) && i < |hs|
    ensures Keeps(hs[i], r)
    ensures DeletesComplete(attempts) ==> Whole(hs[i], r)
  {
    if i > 0 {
      HistoryKeeps(hs, attempts, r, i - 1);
      AttemptKeeps(hs[i - 1], r, attempts[i - 1], hs[i - 1 + 1]);
    }
  }

  // ---------- Theorems ----------

  function Last(hs: seq<Host>): Host
    requires hs != []
  {
    hs[|hs| - 1]
  }

  /**
   * With no deletion interrupted, an existing share has its disk, mounted at the share's path: the
   * FailedPrecondition branch is never taken.
   */
  lemma NeverShareWithoutDisk(hs: seq<Host>, attempts: seq<Attempt>, r: Request)
    requires History(hs, attempts, r) && DeletesComplete(attempts)
    ensures var h := Last(hs);
            && !Broken(h, r) && !ShareWithoutDisk(ProbeOf(h, r))
            && (r.share in h.shares ==> h.shares[r.share] == r.dir && IsRegistered(h, r.vhdx) && MountedAt(h, r.vhdx, r.dir))
  {
    HistoryKeeps(hs, attempts, r, |hs| - 1);
  }

  /** The reply of an uninterrupted creation on a host without the volume. */
  function FreshReply(r: Request): FileHandle {
    CreateReply(r, Probe(None, 0, None))
  }

  /**
   * Creation converges on the handle and the share: after any number of attempts cut off anywhere
   * (and complete deletions in between) a further creation goes through and leaves the volume
   * shared. What else it ought to leave is the subject of `FurnishedExactly`.
   */
  lemma CreateConverges(hs: seq<Host>, attempts: seq<Attempt>, r: Request)
    requires History(hs, attempts, r) && DeletesComplete(attempts) && r.size > 0
    ensures var h := Last(hs); var script := CreateScript(r, ProbeOf(h, r));
            && (forall k :: 0 <= k <= |script| ==> After(h, script, k).Ok?)
            && Shared(After(h, script, |script|).value, r)
            && CreateReply(r, ProbeOf(h, r)) == FreshReply(r)
  {
    var h := Last(hs);
    HistoryKeeps(hs, attempts, r, |hs| - 1);
    NeverShareWithoutDisk(hs, attempts, r);
    CreateRefusedExactly(hs, attempts, r);
    RepliesAgree(hs, attempts, r);
    CompletedCreation(h, r);
  }

  /**
   * A completed creation on a host in order leaves the share; it leaves clients admitted and the
   * capacity written if and only if the share was not there, or came with both.
   */
  lemma CompletedCreation(h: Host, r: Request)
    requires Keeps(h, r) && GoesThrough(h, r)
    ensures var script := CreateScript(r, ProbeOf(h, r)); var final := After(h, script, |script|);
            && final.Ok? && Keeps(final.value, r)
            && (Whole(h, r) ==> Shared(final.value, r))
            && (r.share in h.shares ==> SameShare(h, final.value, r))
            && (Furnished(final.value, r) <==> r.share !in h.shares || Furnished(h, r))
  {
    var p := ProbeOf(h, r);
    var script, from := CreateScript(r, p), FirstCommand(h, r);
    ScriptIsPart(h, r);
    CreationRuns(h, r, from, script, |script|);
    if p.dir.Some? { MountKeepsShare(h, r, r.vhdx, r.dir, 3); }
  }

  /** Share, grants and capacity file are the same on both hosts. */
  predicate SameShare(h: Host, h': Host, r: Request) {
    h.shares == h'.shares && h.grants == h'.grants && h.inDisk == h'.inDisk
  }

  lemma {:induction false} MountKeepsShare(h: Host, r: Request, vhdx: string, dir: string, k: nat)
    requires k <= 3 && After(h, MountScript(vhdx, dir), k).Ok?
    ensures SameShare(h, After(h, MountScript(vhdx, dir), k).value, r)
  {
    if k > 0 { MountKeepsShare(h, r, vhdx, dir, k - 1); }
  }

  /** Whatever happened before, a creation that is not refused answers as the first one would have. */
  lemma RepliesAgree(hs: seq<Host>, attempts: seq<Attempt>, r: Request)
    requires History(hs, attempts, r) && r.size > 0 && GoesThrough(Last(hs), r)
    ensures CreateReply(r, ProbeOf(Last(hs), r)) == FreshReply(r)
  {
    HistoryKeeps(hs, attempts, r, |hs| - 1);
  }

  /**
   * Creation does not converge on the rest: after any history without interrupted deletions, a
   * completed creation leaves the clients admitted and capacity and quota written if and only if it
   * found no share, or the share already had them.
   */
  lemma FurnishedExactly(hs: seq<Host>, attempts: seq<Attempt>, r: Request)
    requires History(hs, attempts, r) && DeletesComplete(attempts) && r.size > 0
    ensures var h := Last(hs); var script := CreateScript(r, ProbeOf(h, r)); var final := After(h, script, |script|);
            && final.Ok?
            && (Furnished(final.value, r) <==> r.share !in h.shares || Furnished(h, r))
            && (CapacityWritten(final.value, r) <==> r.share !in h.shares || CapacityAt(h, r.dir) != 0)
  {
    var h := Last(hs);
    HistoryKeeps(hs, attempts, r, |hs| - 1);
    NeverShareWithoutDisk(hs, attempts, r);
    CreateRefusedExactly(hs, attempts, r);
    CompletedCreation(h, r);
  }

  /** Which attempts leave a furnished share: the ones that find it so, and the ones that make it without interruption. */
  lemma AttemptFurnishes(h: Host, r: Request, k: nat, h': Host)
    requires Keeps(h, r) && Attempted(h, r, Creating(k), h')
    ensures var made := !Broken(h, r) && !ShareWithoutDisk(ProbeOf(h, r)) && k == |CreateScript(r, ProbeOf(h, r))|;
            Furnished(h', r) <==> if r.share in h.shares then Furnished(h, r) else made
    ensures r.share in h.shares ==> r.share in h'.shares
  {
    var p := ProbeOf(h, r);
    if Broken(h, r) || ShareWithoutDisk(p) {
    } else if r.share in h.shares {
      MountKeepsShare(h, r, r.vhdx, r.dir, k);
    } else {
      ScriptIsPart(h, r);
      CreationRuns(h, r, FirstCommand(h, r), CreateScript(r, p), k);
      if k < |CreateScript(r, p)| { NotYetWritten(h, r, FirstCommand(h, r), CreateScript(r, p), k); }
    }
  }

  /** The capacity is written by the last command only. */
  lemma {:induction false} NotYetWritten(h: Host, r: Request, from: nat, cs: seq<Command>, k: nat)
    requires IsPart(cs, r, from) && k <= |cs| && from + k < Length(r)
    requires !CapacityWritten(h, r) && After(h, cs, k).Ok?
    ensures !CapacityWritten(After(h, cs, k).value, r)
  {
    if k > 0 {
      NotYetWritten(h, r, from, cs, k - 1);
      NotYetWrittenStep(After(h, cs, k - 1).value, r, from + k - 1, cs[k - 1]);
    }
  }

  lemma NotYetWrittenStep(h: Host, r: Request, k: nat, c: Command)
    requires k + 1 < Length(r) && c == CommandAt(r, k) && !CapacityWritten(h, r) && Apply(h, c).Ok?
    ensures !CapacityWritten(Apply(h, c).value, r)
  {
  }

  /** Creating again never repairs it. */
  lemma {:induction false} NeverFurnished(hs: seq<Host>, attempts: seq<Attempt>, r: Request, i: nat, j: nat)
    requires History(hs, attempts, r) && i <= j < |hs|
    requires r.share in hs[i].shares && !Furnished(hs[i], r)
    requires forall n :: i <= n < j ==> attempts[n].Creating?
    ensures r.share in hs[j].shares && !Furnished(hs[j], r)
  {
    if i < j {
      NeverFurnished(hs, attempts, r, i, j - 1);
      HistoryKeeps(hs, attempts, r, j - 1);
      var n := j - 1;
      assert Attempted(hs[n], r, attempts[n], hs[n + 1]);
      AttemptFurnishes(hs[n], r, attempts[n].k, hs[n + 1]);
    }
  }

  /**
   * The input that shows it: a creation cut off after New-NfsShare or New-SmbShare, and a second one
   * that completes. The volume is answered as complete, with the capacity asked for; no client is
   * admitted, and neither capacity nor quota is written.
   */
  lemma CutOffShareStaysBare(h: Host, r: Request)
    requires Gone(h, r) && r.size > 0
    ensures var made := After(h, CreateScript(r, ProbeOf(h, r)), 6);
            && made.Ok? && GoesThrough(made.value, r)
            && var again := CreateScript(r, ProbeOf(made.value, r)); var final := After(made.value, again, |again|);
               && final.Ok? && Shared(final.value, r) && CreateReply(r, ProbeOf(made.value, r)) == FreshReply(r)
               && r.share in final.value.grants && final.value.grants[r.share] == {} && CapacityAt(final.value, r.dir) == 0
               && !Furnished(final.value, r)
  {
    var script := CreateScript(r, ProbeOf(h, r));
    ScriptIsPart(h, r);
    CreationRuns(h, r, 0, script, 5);
    CreationRuns(h, r, 0, script, 6);
    var made := After(h, script, 6).value;
    SharesUntilMade(h, r, script, 5);
    assert script[5] == CommandAt(r, 5);
    assert After(h, script, 6) == Apply(After(h, script, 5).value, script[5]);
    NotYetWritten(h, r, 0, script, 6);
    var hs, attempts := [h, made], [Creating(6)];
    assert Attempted(h, r, attempts[0], made);
    CreateConverges(hs, attempts, r);
    CreateRefusedExactly(hs, attempts, r);
    NeverShareWithoutDisk(hs, attempts, r);
    CompletedCreation(made, r);
  }

  /** The share is made by command number 5. */
  lemma {:induction false} SharesUntilMade(h: Host, r: Request, cs: seq<Command>, k: nat)
    requires IsPart(cs, r, 0) && k <= 5 && k <= |cs| && After(h, cs, k).Ok?
    ensures After(h, cs, k).value.shares == h.shares
  {
    if k > 0 {
      SharesUntilMade(h, r, cs, k - 1);
      assert cs[k - 1] == CommandAt(r, k - 1);
    }
  }

  /** Over a link that does not fail a creation succeeds. */
  predicate GoesThrough(h: Host, r: Request) {
    var script := CreateScript(r, ProbeOf(h, r));
    !Broken(h, r) && script != [] && forall k :: 0 <= k <= |script| ==> After(h, script, k).Ok?
  }

  /**
   * After any history, interrupted deletions included, creation is refused exactly when the disk
   * is broken or the share stands without its disk.
   */
  lemma CreateRefusedExactly(hs: seq<Host>, attempts: seq<Attempt>, r: Request)
    requires History(hs, attempts, r)
    ensures GoesThrough(Last(hs), r) <==> !Broken(Last(hs), r) && !ShareWithoutDisk(ProbeOf(Last(hs), r))
  {
    var h := Last(hs);
    HistoryKeeps(hs, attempts, r, |hs| - 1);
    var p := ProbeOf(h, r);
    if !Broken(h, r) && !ShareWithoutDisk(p) {
      ScriptIsPart(h, r);
      var script := CreateScript(r, p);
      forall k | 0 <= k <= |script| ensures After(h, script, k).Ok? {
        CreationRuns(h, r, FirstCommand(h, r), script, k);
      }
    }
  }

  /** Deletion after any history goes through and leaves nothing of the volume. */
  lemma DeleteLeavesNothing(hs: seq<Host>, attempts: seq<Attempt>, r: Request, f: FileHandle)
    requires History(hs, attempts, r) && Names(f, r)
    ensures forall k :: 0 <= k <= 7 ==> After(Last(hs), DeleteScript(f), k).Ok?
    ensures Gone(After(Last(hs), DeleteScript(f), 7).value, r)
  {
    HistoryKeeps(hs, attempts, r, |hs| - 1);
    forall k | 0 <= k <= 7 ensures After(Last(hs), DeleteScript(f), k).Ok? {
      DeletionRuns(Last(hs), r, f, k);
    }
    DeletionRuns(Last(hs), r, f, 7);
  }

  /** A deletion cut off between the disk and the share blocks the name until it is deleted again. */
  lemma InterruptedDeleteBlocks(h: Host, r: Request, f: FileHandle)
    requires Keeps(h, r) && Shared(h, r) && Names(f, r)
    ensures After(h, DeleteScript(f), 5).Ok?
    ensures ShareWithoutDisk(ProbeOf(After(h, DeleteScript(f), 5).value, r))
  {
    DeletionRuns(h, r, f, 5);
    SharesOutlastDisk(h, f, 5);
  }

  lemma {:induction false} SharesOutlastDisk(h: Host, f: FileHandle, k: nat)
    requires k <= 5 && After(h, DeleteScript(f), k).Ok?
    ensures After(h, DeleteScript(f), k).value.shares == h.shares
  {
    if k > 0 {
      SharesOutlastDisk(h, f, k - 1);
      DiskStepKeepsShares(After(h, DeleteScript(f), k - 1).value, DeleteScript(f)[k - 1]);
    }
  }

  lemma DiskStepKeepsShares(h: Host, c: Command)
    requires c.RemoveAccess? || c.Detach? || c.RemoveEmptyDir? || c.UnregisterDisk? || c.RemoveFile?
    requires Apply(h, c).Ok?
    ensures Apply(h, c).value.shares == h.shares
  {
  }

  // ---------- Other volumes ----------

  predicate Disjoint(r: Request, o: Request) {
    r.share != o.share && r.vhdx != o.vhdx && r.dir != o.dir
  }

  /** Everything of volume `o` is the same on both hosts. */
  predicate SameVolume(h: Host, h': Host, o: Request) {
    && (o.share in h.shares <==> o.share in h'.shares) && (o.share in h.shares ==> h.shares[o.share] == h'.shares[o.share])
    && (o.share in h.grants <==> o.share in h'.grants) && (o.share in h.grants ==> h.grants[o.share] == h'.grants[o.share])
    && (o.vhdx in h.disks <==> o.vhdx in h'.disks) && (o.vhdx in h.disks ==> h.disks[o.vhdx] == h'.disks[o.vhdx])
    && (o.vhdx in h.inDisk <==> o.vhdx in h'.inDisk) && (o.vhdx in h.inDisk ==> h.inDisk[o.vhdx] == h'.inDisk[o.vhdx])
    && (o.vhdx in h.attached <==> o.vhdx in h'.attached)
    && (o.dir in h.access <==> o.dir in h'.access) && (o.dir in h.access ==> h.access[o.dir] == h'.access[o.dir])
    && (o.dir in h.dirs <==> o.dir in h'.dirs) && (o.dir in h.dirs ==> h.dirs[o.dir] == h'.dirs[o.dir])
  }

  /** The mounts of this volume's disk are as they were. */
  ghost predicate SameMounts(h: Host, h': Host, o: Request) {
    forall d :: (d in h.access && h.access[d] == o.vhdx) <==> (d in h'.access && h'.access[d] == o.vhdx)
  }

  ghost predicate Spares(h: Host, h': Host, o: Request) {
    SameVolume(h, h', o) && SameMounts(h, h', o)
  }

  lemma CreationStepSpares(h: Host, r: Request, o: Request, k: nat, c: Command, h': Host)
    requires k < Length(r) && Stands(Ok(h), r, k, false) && Disjoint(r, o)
    requires c == CommandAt(r, k) && Apply(h, c) == Ok(h')
    ensures Spares(h, h', o)
  {
    if k < 4 { EarlyStepSpares(h, r, o, k, c, h'); }
  }

  lemma EarlyStepSpares(h: Host, r: Request, o: Request, k: nat, c: Command, h': Host)
    requires k < 4 && Stands(Ok(h), r, k, false) && Disjoint(r, o)
    requires c == CommandAt(r, k) && Apply(h, c) == Ok(h')
    ensures Spares(h, h', o)
  {
    if k == 3 { AccessStepSpares(h, r, o, c, h'); }
  }

  lemma AccessStepSpares(h: Host, r: Request, o: Request, c: Command, h': Host)
    requires Disjoint(r, o) && c == AddAccess(r.vhdx, r.dir) && Apply(h, c) == Ok(h')
    ensures Spares(h, h', o)
  {
  }

  lemma UnmountSpares(h: Host, c: Command, o: Request)
    requires Keeps(h, o) && Apply(h, c).Ok?
    requires c.RemoveAccess? || c.Detach? || c.RemoveEmptyDir?
    requires c.RemoveAccess? || c.RemoveEmptyDir? ==> c.dir != o.dir
    requires c.Detach? ==> c.path != o.vhdx
    ensures Spares(h, Apply(h, c).value, o)
  {
  }

  lemma RemovalSpares(h: Host, c: Command, o: Request)
    requires Apply(h, c).Ok?
    requires c.UnregisterDisk? || c.RemoveFile? || c.RemoveShare? || c.RemoveTree?
    requires c.UnregisterDisk? || c.RemoveFile? ==> c.path != o.vhdx
    requires c.RemoveShare? ==> c.share != o.share
    requires c.RemoveTree? ==> c.dir != o.dir
    ensures Spares(h, Apply(h, c).value, o)
  {
  }

  lemma DeletionStepSpares(h: Host, r: Request, o: Request, f: FileHandle, k: nat)
    requires Keeps(h, o) && Disjoint(r, o) && Names(f, r) && k < 7 && Apply(h, DeleteScript(f)[k]).Ok?
    ensures Spares(h, Apply(h, DeleteScript(f)[k]).value, o)
  {
    var c := DeleteScript(f)[k];
    if k < 3 { UnmountSpares(h, c, o); } else { RemovalSpares(h, c, o); }
  }

  lemma SparesChains(h: Host, h1: Host, h2: Host, o: Request)
    requires Spares(h, h1, o) && Spares(h1, h2, o)
    ensures Spares(h, h2, o)
  {
  }

  lemma SparedKeeps(h: Host, h': Host, o: Request)
    requires Keeps(h, o) && Spares(h, h', o)
    ensures Keeps(h', o)
  {
  }

  lemma {:induction false} CreationSpares(h: Host, r: Request, o: Request, from: nat, cs: seq<Command>, k: nat)
    requires IsPart(cs, r, from) && k <= |cs|
    requires Keeps(h, r) && Disjoint(r, o) && At(h, r, from) && After(h, cs, k).Ok?
    ensures Spares(h, After(h, cs, k).value, o)
  {
    if k > 0 {
      var before := After(h, cs, k - 1).value;
      CreationSpares(h, r, o, from, cs, k - 1);
      CreationRuns(h, r, from, cs, k - 1);
      CreationStepSpares(before, r, o, from + k - 1, cs[k - 1], After(h, cs, k).value);
      SparesChains(h, before, After(h, cs, k).value, o);
    }
  }

  lemma {:induction false} DeletionSpares(h: Host, r: Request, o: Request, f: FileHandle, k: nat)
    requires Keeps(h, r) && Keeps(h, o) && Disjoint(r, o) && Names(f, r) && k <= 7
    requires After(h, DeleteScript(f), k).Ok?
    ensures Spares(h, After(h, DeleteScript(f), k).value, o)
  {
    if k > 0 {
      var before := After(h, DeleteScript(f), k - 1).value;
      DeletionSpares(h, r, o, f, k - 1);
      DeletionRuns(h, r, f, k - 1);
      SparedKeeps(h, before, o);
      DeletionStepSpares(before, r, o, f, k - 1);
      SparesChains(h, before, After(h, DeleteScript(f), k).value, o);
    }
  }

  /** No attempt for one volume, however it ends, touches another. */
  lemma OthersUntouched(h: Host, r: Request, a: Attempt, h': Host, o: Request)
    requires Keeps(h, r) && Keeps(h, o) && Disjoint(r, o) && Attempted(h, r, a, h')
    ensures SameVolume(h, h', o) && Keeps(h', o)
  {
    match a {
      case Creating(k) =>
        var p := ProbeOf(h, r);
        if !Broken(h, r) && !ShareWithoutDisk(p) {
          ScriptIsPart(h, r);
          CreationSpares(h, r, o, FirstCommand(h, r), CreateScript(r, p), k);
          SparedKeeps(h, h', o);
        }
      case Deleting(f, k) =>
        DeletionSpares(h, r, o, f, k);
        SparedKeeps(h, h', o);
    }
  }
}
