/**
 * Staging an iSCSI filesystem volume on a node: one staging path, its connector files, and the
 * sessions and devices behind it. Any call into the system may fail, before or after its effect.
 */
module NodeServer {
  import opened Results

  /** What a connector file remembers. */
  datatype Connector = Connector(portal: string, iqn: string, lun: int)

  datatype Session = Session(iqn: string, portal: string)

  function SessionOf(c: Connector): Session {
    Session(c.iqn, c.portal)
  }

  /** How a call into the system goes. */
  datatype Luck = Works | FailsBefore | FailsAfter

  /** The luck of the call at position `i`; beyond the end calls work. */
  function LuckAt(luck: seq<Luck>, i: nat): Luck {
    if i < |luck| then luck[i] else Works
  }

  /** What happened to the staging path and its volume, in order. */
  datatype Event =
    | Mounted | Unmounted | Rebooted
    | RemovingDevices(c: Connector) | DevicesRemoved(c: Connector)
    | LoggingOut(c: Connector) | LoggedOut(c: Connector)
    | RemovingFile(c: Connector)
    | RollingBack(c: Connector) | RescanTimedOut(c: Connector)
    | DeviceLost

  /**
   * An event, whether the staging path was mounted when it happened, and whether that mount had then
   * lost its device.
   */
  datatype Moment = Moment(e: Event, mounted: bool, lost: bool)

  function MountedNext(m: Moment): bool {
    m.e.Mounted? || (m.mounted && !m.e.Unmounted? && !m.e.Rebooted?)
  }

  function LostNext(m: Moment): bool {
    m.e.DeviceLost? || (m.lost && !m.e.Mounted? && !m.e.Unmounted? && !m.e.Rebooted?)
  }

  function MountedAfter(trace: seq<Moment>): bool {
    trace != [] && MountedNext(trace[|trace| - 1])
  }

  function LostAfter(trace: seq<Moment>): bool {
    trace != [] && LostNext(trace[|trace| - 1])
  }

  predicate EndsWith(trace: seq<Moment>, e: Event) {
    trace != [] && trace[|trace| - 1].e == e
  }

  /** The two places in the code that cut a connection without looking whether it is in use. */
  predicate Careless(e: Event) {
    e.RollingBack? || e.RescanTimedOut?
  }

  /** What must have come just before an event. */
  predicate MayFollow(before: seq<Moment>, e: Event) {
    match e
    case RemovingDevices(_) => !MountedAfter(before)
    case DevicesRemoved(c) => EndsWith(before, RemovingDevices(c))
    case LoggingOut(c) => EndsWith(before, DevicesRemoved(c))
    case LoggedOut(c) => EndsWith(before, LoggingOut(c))
    case RemovingFile(c) => EndsWith(before, LoggedOut(c)) || EndsWith(before, RemovingFile(c))
    case DeviceLost => MountedAfter(before) && Careless(before[|before| - 1].e)
    case _ => true
  }

  predicate Linked(trace: seq<Moment>, i: nat)
    requires i < |trace|
  {
    && MayFollow(trace[..i], trace[i].e)
    && trace[i].mounted == MountedAfter(trace[..i]) && trace[i].lost == LostAfter(trace[..i])
  }

  /** Devices go only when nothing is mounted, sessions after devices, files after sessions. */
  predicate InOrder(trace: seq<Moment>) {
    forall i {:trigger Linked(trace, i)} :: 0 <= i < |trace| ==> Linked(trace, i)
  }

  function Extended(trace: seq<Moment>, e: Event): seq<Moment> {
    trace + [Moment(e, MountedAfter(trace), LostAfter(trace))]
  }

  lemma TraceExtends(trace: seq<Moment>, e: Event)
    requires InOrder(trace) && MayFollow(trace, e)
    ensures InOrder(Extended(trace, e))
  {
    var longer := Extended(trace, e);
    assert longer[..|trace|] == trace;
    forall i | 0 <= i < |longer| ensures Linked(longer, i) {
      if i < |trace| {
        assert longer[..i] == trace[..i] && longer[i] == trace[i];
        assert Linked(trace, i);
      }
    }
  }

  /** The device under the mount went at `j`, cut off by a careless step, and the path stayed mounted until `i`. */
  predicate LostAt(trace: seq<Moment>, j: nat, i: nat)
    requires j < i <= |trace|
  {
    && trace[j].e.DeviceLost? && trace[j].mounted
    && j > 0 && Careless(trace[j - 1].e) && trace[j - 1].mounted
    && forall k :: j <= k < i ==> trace[k].mounted && !trace[k].e.Mounted? && !trace[k].e.Unmounted? && !trace[k].e.Rebooted?
  }

  /**
   * A mounted path is without its device if and only if it was lost while it was mounted, which
   * happens in a rollback or after a rescan that timed out and at no other time.
   */
  lemma {:induction false} LostExactly(trace: seq<Moment>, i: nat)
    requires InOrder(trace) && i <= |trace|
    ensures LostAfter(trace[..i]) <==> exists j :: 0 <= j < i && LostAt(trace, j, i)
    ensures LostAfter(trace[..i]) ==> MountedAfter(trace[..i])
  {
    if i > 0 {
      var last := i - 1;
      LostExactly(trace, last);
      assert Linked(trace, last);
      assert trace[..i][|trace[..i]| - 1] == trace[last];
      if trace[last].e.DeviceLost? {
        assert Linked(trace, last - 1);
        assert trace[..last][last - 1] == trace[last - 1];
        assert LostAt(trace, last, i);
      } else if LostAfter(trace[..i]) {
        var j :| 0 <= j < last && LostAt(trace, j, last);
        assert LostAt(trace, j, i);
      } else if j :| 0 <= j < i && LostAt(trace, j, i) {
        assert j < last ==> LostAt(trace, j, last);
      }
    }
  }

  predicate TearsDown(trace: seq<Moment>, j: nat, c: Connector)
    requires j + 4 <= |trace|
  {
    && trace[j].e == RemovingDevices(c) && trace[j + 1].e == DevicesRemoved(c)
    && trace[j + 2].e == LoggingOut(c) && trace[j + 3].e == LoggedOut(c)
  }

  /** The whole teardown of `c` stands just before position `i`, apart from earlier file removals. */
  predicate TornDownBefore(trace: seq<Moment>, i: nat, c: Connector)
    requires i <= |trace|
  {
    exists j :: 0 <= j <= i - 4 && TearsDown(trace, j, c) && forall k :: j + 4 <= k < i ==> trace[k].e == RemovingFile(c)
  }

  /** The order, read backwards from one event to the one before. */
  lemma Precedes(trace: seq<Moment>, i: nat)
    requires InOrder(trace) && i < |trace|
    ensures var e := trace[i].e;
            && (e.RemovingDevices? ==> !trace[i].mounted)
            && (e.DevicesRemoved? ==> i > 0 && trace[i - 1].e == RemovingDevices(e.c))
            && (e.LoggingOut? ==> i > 0 && trace[i - 1].e == DevicesRemoved(e.c))
            && (e.LoggedOut? ==> i > 0 && trace[i - 1].e == LoggingOut(e.c))
            && (e.RemovingFile? ==> i > 0 && (trace[i - 1].e == LoggedOut(e.c) || trace[i - 1].e == RemovingFile(e.c)))
    ensures i > 0 ==> trace[i].mounted == MountedNext(trace[i - 1])
  {
    assert Linked(trace, i);
  }

  /**
   * Whenever a connector file is removed, the devices were removed and then the session logged
   * out, both with success, and nothing has been mounted from before that until now.
   */
  lemma {:induction false} FilesGoLast(trace: seq<Moment>, i: nat, c: Connector)
    requires InOrder(trace) && i < |trace| && trace[i].e == RemovingFile(c)
    ensures TornDownBefore(trace, i, c) && !trace[i].mounted
  {
    Precedes(trace, i);
    if trace[i - 1].e == RemovingFile(c) {
      FilesGoLast(trace, i - 1, c);
      var j :| 0 <= j <= i - 5 && TearsDown(trace, j, c) && forall k :: j + 4 <= k < i - 1 ==> trace[k].e == RemovingFile(c);
      assert TearsDown(trace, j, c);
    } else {
      Precedes(trace, i - 1);
      Precedes(trace, i - 2);
      Precedes(trace, i - 3);
      Precedes(trace, i - 4);
      assert TearsDown(trace, i - 4, c);
    }
  }

  /** A connector file; the write that was cut off has left `Torn`, which no reader understands. */
  datatype File = NoFile | Holds(c: Connector) | Torn

  /** `NoDevice` is a file that names a mount target device which is not there. */
  datatype Load = Loaded(c: Connector) | NotExist | NoDevice | Unreadable

  datatype Call =
    | Stage(c: Connector, block: bool)
    | Unstage
    | Publish
    | Reboot
    | Relogin(c: Connector)

  /**
   * Connect goes through: rescan, logout if the rescan timed out, then discovery and login unless the
   * sessions are listed and show one, and the wait for the device. Sessions that cannot be listed
   * count as none.
   */
  predicate ConnectWorks(luck: seq<Luck>, loggedIn: bool) {
    && (LuckAt(luck, 0).FailsAfter? ==> LuckAt(luck, 1).Works?)
    && ((loggedIn && !LuckAt(luck, 0).FailsAfter? && LuckAt(luck, 2).Works?) || (LuckAt(luck, 3).Works? && LuckAt(luck, 4).Works?))
    && LuckAt(luck, 5).Works?
  }

  /** Everything up to writing the connector works, and that does not. */
  predicate RollsBack(luck: seq<Luck>, loggedIn: bool) {
    ConnectWorks(luck, loggedIn) && LuckAt(luck, 6).Works? && !LuckAt(luck, 7).Works?
  }

  /** Staging `c` cuts off the device `b`: after a rescan that timed out, or in the rollback of a connector not written. */
  predicate CutsOff(luck: seq<Luck>, loggedIn: bool, c: Connector, b: Connector) {
    || (SessionOf(b) == SessionOf(c) && LuckAt(luck, 0).FailsAfter? && !LuckAt(luck, 1).FailsBefore?)
    || (&& RollsBack(luck, loggedIn)
        && ((b == c && !LuckAt(luck, 8).FailsBefore?) || (SessionOf(b) == SessionOf(c) && !LuckAt(luck, 9).FailsBefore?)))
  }

  class StagingNode {
    var present: bool
    var mounted: bool
    /** The device under the mount, while it is there. */
    var backing: Option<Connector>
    /** The connector file beside the staging path. */
    var primary: File
    /** The older connector file inside it, which a mount hides. */
    var legacy: Option<Connector>
    var sessions: set<Session>
    var devices: set<Connector>
    /** How the calls to come will go; after these, they work. */
    var luck: seq<Luck>
    ghost var trace: seq<Moment>

    /** A mounted staging path has a connector file, and its device unless the trace tells of the loss. */
    ghost predicate Valid()
      reads this
    {
      && (mounted ==> present && (!primary.NoFile? || legacy.Some?))
      && (legacy.Some? ==> present)
      && (forall d :: d in devices ==> SessionOf(d) in sessions)
      && (backing.Some? ==> mounted && backing.value in devices)
      && mounted == MountedAfter(trace) && LostMount() == LostAfter(trace) && InOrder(trace)
    }

    /** The staging path is mounted from a device that is gone. */
    predicate LostMount()
      reads this
    {
      mounted && backing.None?
    }

    constructor (legacy: Option<Connector>, luck: seq<Luck>)
      ensures Valid() && !mounted && primary.NoFile? && this.legacy == legacy && trace == []
      ensures sessions == {} && devices == {} && this.luck == luck
    {
      present, mounted, backing, primary, this.legacy := legacy.Some?, false, None, NoFile, legacy;
      sessions, devices, this.luck := {}, {}, luck;
      trace := [];
    }

    method Try() returns (o: Luck)
      modifies this`luck
      ensures o == LuckAt(old(luck), 0) && luck == if old(luck) == [] then [] else old(luck)[1..]
    {
      if luck == [] { return Works; }
      o := luck[0];
      luck := luck[1..];
    }

    ghost method Note(e: Event)
      requires InOrder(trace) && MayFollow(trace, e)
      modifies this`trace
      ensures trace == Extended(old(trace), e) && InOrder(trace)
    {
      TraceExtends(trace, e);
      trace := Extended(trace, e);
    }

    // ---------- Connector files ----------

    function Visible(beside: bool): File
      reads this
    {
      if beside then primary
      else if mounted || legacy.None? then NoFile
      else Holds(legacy.value)
    }

    /** Reads a file and looks for its device. */
    method LoadFile(beside: bool) returns (r: Load)
      modifies this`luck
      ensures r.NotExist? <==> Visible(beside).NoFile?
      ensures r.Loaded? ==> Visible(beside) == Holds(r.c) && r.c in devices
      ensures r.NoDevice? ==> Visible(beside).Holds?
      ensures old(luck) == [] ==> luck == []
      ensures old(luck) == [] && Visible(beside).Holds? ==> if Visible(beside).c in devices then r.Loaded? else r.NoDevice?
    {
      match Visible(beside) {
        case NoFile => return NotExist;
        case Torn => return Unreadable;
        case Holds(c) =>
          var o := Try();
          r := if o.FailsAfter? then Unreadable else if o.FailsBefore? || c !in devices then NoDevice else Loaded(c);
      }
    }

    /** The first file there is; the files are [beside, inside]. */
    method GetConnector(includeLegacy: bool) returns (r: Load)
      modifies this`luck
      ensures r.Loaded? ==>
                && r.c in devices
                && (Visible(true) == Holds(r.c) || (includeLegacy && Visible(true).NoFile? && Visible(false) == Holds(r.c)))
      ensures r.NotExist? <==> Visible(true).NoFile? && (includeLegacy ==> Visible(false).NoFile?)
      ensures old(luck) == [] && Visible(true).Holds? && Visible(true).c in devices ==> r.Loaded?
      ensures old(luck) == [] ==> luck == []
    {
      r := LoadFile(true);
      if r.NotExist? && includeLegacy { r := LoadFile(false); }
    }

    /** For cleaning up, a file whose device is gone still serves; a torn one does not. */
    method GetCleanupConnector(includeLegacy: bool) returns (r: Load)
      modifies this`luck
      ensures r.Loaded? ==>
                Visible(true) == Holds(r.c) || (includeLegacy && Visible(true).NoFile? && Visible(false) == Holds(r.c))
      ensures r.NotExist? <==> Visible(true).NoFile? && (includeLegacy ==> Visible(false).NoFile?)
      ensures !r.NoDevice? && (Visible(true).Torn? ==> r.Unreadable?)
      ensures old(luck) == [] ==> luck == []
      ensures old(luck) == [] && !Visible(true).Torn? ==> r.Loaded? || r.NotExist?
    {
      var paths := if includeLegacy then [true, false] else [true];
      var i := 0;
      r := NotExist;
      while i < |paths|
        invariant i <= |paths| && r.NotExist?
        invariant i > 0 ==> Visible(true).NoFile?
        invariant i > 1 ==> Visible(false).NoFile?
        invariant old(luck) == [] ==> luck == []
      {
        r := LoadFile(paths[i]);
        if r.Loaded? || r.Unreadable? { return; }
        if r.NoDevice? {
          var o := Try();
          return if o.Works? then Loaded(Visible(paths[i]).c) else Unreadable;
        }
        i := i + 1;
      }
    }

    // ---------- Calls into the system ----------

    method Mount(c: Connector) returns (ok: bool)
      requires Valid() && present && (!primary.NoFile? || legacy.Some?) && !mounted && c in devices
      modifies this`luck, this`mounted, this`backing, this`trace
      ensures Valid() && (ok ==> mounted) && (mounted ==> backing == Some(c))
      ensures old(luck) == [] ==> ok && luck == []
    {
      var o := Try();
      if !o.FailsBefore? {
        mounted, backing := true, Some(c);
        Note(Mounted);
      }
      ok := o.Works?;
    }

    method Unmount() returns (ok: bool)
      requires Valid()
      modifies this`luck, this`mounted, this`backing, this`trace
      ensures Valid() && (ok ==> !mounted) && (mounted ==> old(mounted) && backing == old(backing))
      ensures old(luck) == [] ==> ok && luck == []
    {
      var o := Try();
      if !o.FailsBefore? {
        mounted, backing := false, None;
        Note(Unmounted);
      }
      ok := o.Works?;
    }

    /** Devices leave the node, and a mount on one of them loses it. */
    method Drop(gone: set<Connector>)
      requires Valid() && (backing.Some? && backing.value in gone ==> Careless(trace[|trace| - 1].e))
      modifies this`devices, this`backing, this`trace
      ensures Valid() && devices == old(devices) - gone
      ensures backing == if old(backing).Some? && old(backing).value in gone then None else old(backing)
      ensures backing == old(backing) ==> trace == old(trace)
    {
      devices := devices - gone;
      if backing.Some? && backing.value in gone {
        backing := None;
        Note(DeviceLost);
      }
    }

    /** The session ends and takes its devices along. */
    method EndSession(s: Session)
      requires Valid() && (backing.Some? && SessionOf(backing.value) == s ==> Careless(trace[|trace| - 1].e))
      modifies this`sessions, this`devices, this`backing, this`trace
      ensures Valid() && sessions == old(sessions) - {s} && devices <= old(devices)
      ensures backing == if old(backing).Some? && SessionOf(old(backing).value) == s then None else old(backing)
      ensures backing == old(backing) ==> trace == old(trace)
    {
      Drop(set d | d in devices && SessionOf(d) == s);
      sessions := sessions - {s};
    }

    /** Removes the devices of a volume that is not mounted. */
    method DisconnectVolume(c: Connector) returns (ok: bool)
      requires Valid() && !mounted
      modifies this`luck, this`devices, this`backing, this`trace
      ensures Valid() && devices <= old(devices)
      ensures ok ==> c !in devices && EndsWith(trace, DevicesRemoved(c))
      ensures old(luck) == [] ==> ok && luck == []
    {
      Note(RemovingDevices(c));
      var o := Try();
      if !o.FailsBefore? { Drop({c}); }
      if o.Works? { Note(DevicesRemoved(c)); }
      ok := o.Works?;
    }

    method Logout(c: Connector) returns (ok: bool)
      requires Valid() && !mounted && EndsWith(trace, DevicesRemoved(c))
      modifies this`luck, this`sessions, this`devices, this`backing, this`trace
      ensures Valid() && devices <= old(devices)
      ensures ok ==> SessionOf(c) !in sessions && EndsWith(trace, LoggedOut(c))
      ensures old(luck) == [] ==> ok && luck == []
    {
      Note(LoggingOut(c));
      var o := Try();
      if o.FailsBefore? { return false; }
      EndSession(SessionOf(c));
      if o.FailsAfter? { return false; }
      Note(LoggedOut(c));
      ok := true;
    }

    /** removeStagingConnectorFiles: the file beside, then the one inside. */
    method RemoveConnectorFiles(c: Connector) returns (ok: bool)
      requires Valid() && !mounted && EndsWith(trace, LoggedOut(c))
      modifies this`luck, this`primary, this`legacy, this`trace
      ensures Valid() && (ok ==> primary.NoFile? && legacy.None?)
      ensures old(luck) == [] ==> ok && luck == []
    {
      if !primary.NoFile? {
        Note(RemovingFile(c));
        var o := Try();
        if !o.FailsBefore? { primary := NoFile; }
        if !o.Works? { return false; }
      }
      if legacy.Some? {
        Note(RemovingFile(c));
        var o := Try();
        if !o.FailsBefore? { legacy := None; }
        if !o.Works? { return false; }
      }
      ok := true;
    }

    /** CleanupMountPoint on a path that is not mounted: removes the directory if it is empty. */
    method CleanupMountPoint() returns (ok: bool)
      requires Valid() && !mounted
      modifies this`luck, this`present
      ensures Valid() && (ok ==> !present)
      ensures old(luck) == [] && legacy.None? ==> ok && luck == []
    {
      if !present { return true; }
      if legacy.Some? { return false; }
      var o := Try();
      if !o.FailsBefore? { present := false; }
      ok := o.Works?;
    }

    // ---------- The RPCs ----------

    /** A rescan that timed out (its FailsAfter) logs the session out. */
    method Rescan(c: Connector) returns (ok: bool)
      requires Valid()
      modifies this`luck, this`sessions, this`devices, this`backing, this`trace
      ensures Valid() && ok == (LuckAt(old(luck), 0).FailsAfter? ==> LuckAt(old(luck), 1).Works?)
      ensures backing == if old(backing).Some? && SessionOf(old(backing).value) == SessionOf(c)
                            && LuckAt(old(luck), 0).FailsAfter? && !LuckAt(old(luck), 1).FailsBefore?
                         then None else old(backing)
      ensures ok ==> (SessionOf(c) in sessions <==> SessionOf(c) in old(sessions) && !LuckAt(old(luck), 0).FailsAfter?)
      ensures luck == if |old(luck)| <= 2 then [] else old(luck)[2..]
    {
      var rescan := Try();
      var logout := Try();
      if rescan.FailsAfter? {
        Note(RescanTimedOut(c));
        if !logout.FailsBefore? { EndSession(SessionOf(c)); }
        return logout.Works?;
      }
      ok := true;
    }

    /**
     * Rescans, discovers the target and logs in unless a session is listed, and waits for the device;
     * a failure may leave the session behind. The luck of a call that is not made is drawn all the same.
     */
    method Connect(c: Connector) returns (ok: bool)
      requires Valid()
      modifies this`luck, this`sessions, this`devices, this`backing, this`trace
      ensures Valid() && ok == ConnectWorks(old(luck), SessionOf(c) in old(sessions))
      ensures ok ==> SessionOf(c) in sessions && c in devices
      ensures backing == if old(backing).Some? && SessionOf(old(backing).value) == SessionOf(c)
                            && LuckAt(old(luck), 0).FailsAfter? && !LuckAt(old(luck), 1).FailsBefore?
                         then None else old(backing)
      ensures luck == if |old(luck)| <= 6 then [] else old(luck)[6..]
    {
      ok := Rescan(c);
      var listed := Try();
      var discovery := Try();
      var login := Try();
      var wait := Try();
      assert listed == LuckAt(old(luck), 2) && discovery == LuckAt(old(luck), 3);
      assert login == LuckAt(old(luck), 4) && wait == LuckAt(old(luck), 5);
      if !ok { return; }
      ok := EnsureSession(c, listed, discovery, login);
      if !ok { return; }
      if wait.Works? { devices := devices + {c}; }
      ok := wait.Works?;
    }

    /** Discovery and login, unless a session is listed. */
    method EnsureSession(c: Connector, listed: Luck, discovery: Luck, login: Luck) returns (ok: bool)
      modifies this`sessions
      ensures ok <==> (listed.Works? && SessionOf(c) in old(sessions)) || (discovery.Works? && login.Works?)
      ensures old(sessions) <= sessions <= old(sessions) + {SessionOf(c)} && (ok ==> SessionOf(c) in sessions)
    {
      if !listed.Works? || SessionOf(c) !in sessions {
        if !discovery.Works? { return false; }
        if !login.FailsBefore? { sessions := sessions + {SessionOf(c)}; }
        return login.Works?;
      }
      return true;
    }

    /** Devices and session are given up, both whatever becomes of the other. */
    method RollBack(c: Connector)
      requires Valid()
      modifies this`luck, this`sessions, this`devices, this`backing, this`trace
      ensures Valid()
      ensures !LuckAt(old(luck), 0).FailsBefore? ==> c !in devices
      ensures !LuckAt(old(luck), 1).FailsBefore? ==> SessionOf(c) !in sessions
      ensures backing ==
              if old(backing).Some? && ((old(backing).value == c && !LuckAt(old(luck), 0).FailsBefore?)
                                        || (SessionOf(old(backing).value) == SessionOf(c) && !LuckAt(old(luck), 1).FailsBefore?))
              then None else old(backing)
      ensures old(luck) == [] ==> luck == []
    {
      Note(RollingBack(c));
      var removed := Try();
      if !removed.FailsBefore? { Drop({c}); }
      var loggedOut := Try();
      if !loggedOut.FailsBefore? { EndSession(SessionOf(c)); }
    }

    /**
     * Writes the connector file; on failure, which may leave the file torn, the connection is given
     * up, whether a mount uses it or not.
     */
    method PersistOrRollBack(c: Connector) returns (ok: bool)
      requires Valid() && c in devices
      modifies this`luck, this`primary, this`sessions, this`devices, this`backing, this`trace
      ensures Valid() && ok == LuckAt(old(luck), 0).Works?
      ensures primary == match LuckAt(old(luck), 0) case Works => Holds(c) case FailsBefore => old(primary) case FailsAfter => Torn
      ensures ok ==> sessions == old(sessions) && devices == old(devices) && backing == old(backing)
      ensures !ok && !LuckAt(old(luck), 1).FailsBefore? ==> c !in devices
      ensures !ok && !LuckAt(old(luck), 2).FailsBefore? ==> c !in devices && SessionOf(c) !in sessions
      ensures !ok ==> backing ==
                        if old(backing).Some? && ((old(backing).value == c && !LuckAt(old(luck), 1).FailsBefore?)
                                                  || (SessionOf(old(backing).value) == SessionOf(c) && !LuckAt(old(luck), 2).FailsBefore?))
                        then None else old(backing)
      ensures old(luck) == [] ==> luck == []
    {
      var o := Try();
      if o.Works? { primary := Holds(c); return true; }
      if o.FailsAfter? { primary := Torn; }
      RollBack(c);
      ok := false;
    }

    method MakeDirectory() returns (ok: bool)
      modifies this`luck, this`present
      ensures (ok ==> present) && (old(present) ==> present)
      ensures old(luck) == [] ==> ok && luck == []
    {
      var o := Try();
      if !o.FailsBefore? { present := true; }
      ok := o.Works?;
    }

    /**
     * Success means connected, recorded and, for filesystems, mounted. A mount loses its device if
     * and only if the connection is cut, in one of two ways: the rescan timed out and its logout took
     * effect, or the connector was not written and the rollback took effect.
     */
    method NodeStageVolume(c: Connector, block: bool) returns (ok: bool)
      requires Valid()
      modifies this
      ensures Valid() && (old(mounted) ==> mounted)
      ensures ok ==> primary == Holds(c) && present && SessionOf(c) in sessions && c in devices
      ensures ok && !block ==> mounted
      ensures LostMount() <==>
              old(mounted) && (old(backing).None?
                               || CutsOff(old(luck), SessionOf(c) in old(sessions), c, old(backing).value))
      ensures mounted && backing.Some? ==> backing == if old(mounted) then old(backing) else Some(c)
      ensures RollsBack(old(luck), SessionOf(c) in old(sessions)) ==>
                && primary == (if LuckAt(old(luck), 7).FailsBefore? then old(primary) else Torn)
                && (!LuckAt(old(luck), 9).FailsBefore? ==> c !in devices && SessionOf(c) !in sessions)
      ensures !RollsBack(old(luck), SessionOf(c) in old(sessions)) ==> primary == old(primary) || primary == Holds(c)
      ensures old(luck) == [] ==> ok && luck == []
    {
      ok := Connect(c);
      if !ok { return; }
      var parent := Try();
      if !parent.Works? { return false; }
      ok := PersistOrRollBack(c);
      if !ok { return; }
      if block {
        ok := MakeDirectory();
        return;
      }
      var checked := Try();
      if !checked.Works? { return false; }
      var notMounted := !mounted;
      ok := MakeDirectory();
      if !ok { return; }
      if notMounted {
        ok := Mount(c);
        if !ok { return; }
      }
      var ready := Try();
      ok := ready.Works?;
    }

    /** Devices, then the session, then the files. */
    method Disconnect(c: Connector) returns (ok: bool)
      requires Valid() && !mounted
      modifies this
      ensures Valid() && !mounted && present == old(present)
      ensures ok ==> primary.NoFile? && legacy.None? && c !in devices && SessionOf(c) !in sessions
      ensures old(luck) == [] ==> ok && luck == []
    {
      ok := DisconnectVolume(c);
      if !ok { return; }
      ok := Logout(c);
      if !ok { return; }
      ok := RemoveConnectorFiles(c);
    }

    /**
     * Success leaves nothing: no mount, no directory, no file, and no session or device of the
     * volume. A torn connector file refuses it; every other state is cleaned up when all calls work.
     */
    method NodeUnstageVolume() returns (ok: bool)
      requires Valid()
      modifies this
      ensures Valid() && (mounted ==> old(mounted) && backing == old(backing))
      ensures ok ==> !mounted && !present && primary.NoFile? && legacy.None?
      ensures ok && old(primary).Holds? ==> old(primary).c !in devices && SessionOf(old(primary).c) !in sessions
      ensures ok && old(primary).NoFile? && old(legacy).Some? ==>
                old(legacy.value) !in devices && SessionOf(old(legacy.value)) !in sessions
      ensures old(primary).Torn? ==>
                && !ok && mounted == old(mounted) && primary.Torn? && legacy == old(legacy)
                && sessions == old(sessions) && devices == old(devices)
      ensures old(luck) == [] ==> ok == !old(primary).Torn?
    {
      var conn := GetCleanupConnector(false);
      if conn.NoDevice? || conn.Unreadable? { return false; }
      var checked := Try();
      if !checked.Works? { return false; }
      if mounted {
        ok := Unmount();
        if !ok { return; }
      }
      if conn.NotExist? {
        conn := GetCleanupConnector(true);
        if conn.NoDevice? || conn.Unreadable? { return false; }
      }
      if conn.Loaded? {
        ok := Disconnect(conn.c);
        if !ok { return; }
      }
      ok := CleanupMountPoint();
    }

    /** The filesystem branch: a staging path that lost its mount is mounted again from its connector. */
    method NodePublishVolume() returns (ok: bool)
      requires Valid()
      modifies this`luck, this`mounted, this`backing, this`trace, this`present
      ensures Valid()
      ensures old(mounted) ==> mounted && backing == old(backing)
      ensures ok && old(present) && LuckAt(old(luck), 0).Works? ==> mounted
      ensures LostMount() ==> old(LostMount())
      ensures !old(mounted) && mounted ==> primary.Holds? || (primary.NoFile? && legacy.Some?)
      ensures old(luck) == [] && old(primary).Holds? && old(primary).c in devices ==> ok
    {
      var checked := Try();
      if checked.Works? && !mounted && present {
        var conn := GetConnector(true);
        if !conn.Loaded? { return false; }
        ok := Mount(conn.c);
        if !ok { return; }
      }
      var published := Try();
      ok := published.Works?;
    }

    /** The node loses what is not on disk. */
    method RebootNode()
      requires Valid()
      modifies this
      ensures Valid() && !mounted && primary == old(primary) && legacy == old(legacy)
    {
      mounted, backing, sessions, devices := false, None, {}, {};
      Note(Rebooted);
    }

    /** The initiator service of the node restores a session it remembers. */
    method RestoreSession(c: Connector)
      requires Valid()
      modifies this`sessions, this`devices
      ensures Valid() && SessionOf(c) in sessions && c in devices
    {
      sessions, devices := sessions + {SessionOf(c)}, devices + {c};
    }

    /**
     * Any calls in any order, going as they may: a mounted path has its connector file; it has its
     * device unless that was lost since the mount in a rollback or after a rescan that timed out.
     */
    method Serve(calls: seq<Call>)
      requires Valid()
      modifies this
      ensures Valid() && (mounted ==> !primary.NoFile? || legacy.Some?)
      ensures LostMount() <==> exists j :: 0 <= j < |trace| && LostAt(trace, j, |trace|)
    {
      for i := 0 to |calls|
        invariant Valid()
      {
        var ok: bool;
        match calls[i] {
          case Stage(c, block) => ok := NodeStageVolume(c, block);
          case Unstage => ok := NodeUnstageVolume();
          case Publish => ok := NodePublishVolume();
          case Reboot => RebootNode();
          case Relogin(c) => RestoreSession(c);
        }
      }
      LostExactly(trace, |trace|);
      assert trace[..|trace|] == trace;
    }
  }

  /** A staged, mounted volume is staged again; the connector cannot be written, and the mount loses its device. */
  method StageAgain(c: Connector) returns (node: StagingNode)
    ensures fresh(node) && node.Valid()
    ensures node.mounted && node.backing.None? && c !in node.devices && SessionOf(c) !in node.sessions
    ensures node.primary == Holds(c)
  {
    node := new StagingNode(None, []);
    var ok := node.NodeStageVolume(c, false);
    assert node.backing == Some(c);
    node.luck := [Works, Works, Works, Works, Works, Works, Works, FailsBefore];
    ok := node.NodeStageVolume(c, false);
  }
}
