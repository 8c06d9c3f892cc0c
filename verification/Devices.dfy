/**
 * Block devices on the node: the tree that is rebuilt from the rows lsblk prints, and the choice
 * and the check of a multipath device.
 */
module Devices {
  import opened Results
  import opened Strings

  datatype Device = Device(name: string, hctl: string, kind: string, transport: string, size: string,
                           children: seq<Device>)

  /** One line of `lsblk -rn -o NAME,KNAME,PKNAME,HCTL,TYPE,TRAN,SIZE`. */
  datatype Row = Row(name: string, kname: string, pkname: string, hctl: string, kind: string, transport: string,
                     size: string)

  /** `Panic` is an index out of range: a line of five or six columns. */
  datatype Outcome<+T> = Done(value: T) | Invalid | Panic

  // ---------- What the tree is ----------

  /** The last row before `n` with this kernel name, or -1. */
  function LastWith(rows: seq<Row>, kname: string, n: nat): (i: int)
    requires n <= |rows|
    ensures -1 <= i < n
    ensures i >= 0 ==> rows[i].kname == kname
    ensures forall j :: i < j < n ==> rows[j].kname != kname
  {
    if n == 0 then -1 else if rows[n - 1].kname == kname then n - 1 else LastWith(rows, kname, n - 1)
  }

  predicate IsRoot(row: Row) {
    row.pkname == ""
  }

  /** The row a child is attached to. */
  function ParentOf(rows: seq<Row>, j: nat): int
    requires j < |rows|
  {
    LastWith(rows, rows[j].pkname, |rows|)
  }

  predicate AttachesTo(rows: seq<Row>, j: nat, i: int)
    requires j < |rows|
  {
    !IsRoot(rows[j]) && ParentOf(rows, j) == i
  }

  /** What hangs below row `i` once the first `t` rows have been attached. */
  function ChildrenAt(rows: seq<Row>, i: nat, t: nat): seq<Device>
    requires i < |rows| && t <= |rows|
    decreases t, 0
  {
    if t == 0 then []
    else ChildrenAt(rows, i, t - 1) + (if AttachesTo(rows, t - 1, i) then [DeviceAt(rows, t - 1, t - 1)] else [])
  }

  /** Row `i` as it stands at that moment: a copy made then never sees later children. */
  function DeviceAt(rows: seq<Row>, i: nat, t: nat): Device
    requires i < |rows| && t <= |rows|
    decreases t, 1
  {
    var row := rows[i];
    Device(row.name, row.hctl, row.kind, row.transport, row.size, ChildrenAt(rows, i, t))
  }

  function RootsAt(rows: seq<Row>, n: nat): seq<Device>
    requires n <= |rows|
  {
    if n == 0 then []
    else RootsAt(rows, n - 1) + (if IsRoot(rows[n - 1]) then [DeviceAt(rows, n - 1, |rows|)] else [])
  }

  predicate ParentsOccur(rows: seq<Row>) {
    forall j :: 0 <= j < |rows| && !IsRoot(rows[j]) ==> ParentOf(rows, j) >= 0
  }

  function Tree(rows: seq<Row>): Outcome<seq<Device>> {
    if ParentsOccur(rows) then Done(RootsAt(rows, |rows|)) else Invalid
  }

  // ---------- Reading the rows ----------

  function RowOf(columns: seq<string>): Row
    requires |columns| >= 7
  {
    Row(columns[0], columns[1], columns[2], columns[3], columns[4], columns[5], columns[6])
  }

  /** The lines in order; the first bad one decides. */
  function RowsOf(lines: seq<string>): Outcome<seq<Row>> {
    if lines == [] then Done([])
    else
      var prefix := RowsOf(lines[..|lines| - 1]);
      var columns := Split(lines[|lines| - 1], ' ');
      if !prefix.Done? then prefix
      else if |columns| < 5 then Invalid
      else if |columns| < 7 then Panic
      else Done(prefix.value + [RowOf(columns)])
  }

  lemma {:induction false} BadLineDecides(lines: seq<string>, n: nat)
    requires n <= |lines| && !RowsOf(lines[..n]).Done?
    ensures RowsOf(lines) == RowsOf(lines[..n])
    decreases |lines|
  {
    if n < |lines| {
      assert lines[..|lines| - 1][..n] == lines[..n];
      BadLineDecides(lines[..|lines| - 1], n);
    } else {
      assert lines[..n] == lines;
    }
  }

  /** A device under construction, which others point to. */
  class Node {
    var name: string
    var hctl: string
    var kind: string
    var transport: string
    var size: string
    var children: seq<Device>

    constructor (row: Row)
      ensures Value() == Device(row.name, row.hctl, row.kind, row.transport, row.size, [])
    {
      name, hctl, kind, transport, size := row.name, row.hctl, row.kind, row.transport, row.size;
      children := [];
    }

    /** The device by value, as `*device` copies it. */
    function Value(): Device
      reads this
    {
      Device(name, hctl, kind, transport, size, children)
    }

    method Append(child: Device)
      modifies this`children
      ensures Value() == old(Value()).(children := old(children) + [child])
    {
      children := children + [child];
    }
  }

  predicate Distinct(nodes: seq<Node>) {
    forall i, j :: 0 <= i < j < |nodes| ==> nodes[i] != nodes[j]
  }

  /** The name map after `n` rows: later rows replace earlier ones of the same name. */
  ghost predicate MapsNames(byName: map<string, Node>, nodes: seq<Node>, rows: seq<Row>, n: nat)
    requires n <= |rows| && n <= |nodes|
  {
    forall k :: (k in byName <==> LastWith(rows, k, n) >= 0) && (k in byName ==> byName[k] == nodes[LastWith(rows, k, n)])
  }

  /** The nodes stand where `t` rows have been attached. */
  ghost predicate Stands(rows: seq<Row>, nodes: seq<Node>, t: nat)
    requires t <= |rows| == |nodes|
    reads nodes
  {
    forall i :: 0 <= i < |rows| ==> nodes[i].Value() == DeviceAt(rows, i, t)
  }

  lemma OthersStand(rows: seq<Row>, i: nat, t: nat)
    requires i < |rows| && t < |rows| && !AttachesTo(rows, t, i)
    ensures DeviceAt(rows, i, t + 1) == DeviceAt(rows, i, t)
  {
  }

  /** Attaches one row to its parent, by value; false when the parent is unknown. */
  method AttachRow(rows: seq<Row>, nodes: seq<Node>, byName: map<string, Node>, t: nat) returns (ok: bool)
    requires |nodes| == |rows| && Distinct(nodes) && MapsNames(byName, nodes, rows, |rows|)
    requires t < |rows| && Stands(rows, nodes, t)
    modifies nodes
    ensures ok <==> IsRoot(rows[t]) || ParentOf(rows, t) >= 0
    ensures ok ==> Stands(rows, nodes, t + 1)
  {
    forall i | 0 <= i < |rows| && !AttachesTo(rows, t, i) ensures DeviceAt(rows, i, t + 1) == DeviceAt(rows, i, t) {
      OthersStand(rows, i, t);
    }
    var pkName := rows[t].pkname;
    if pkName == "" { return true; }
    if pkName !in byName { return false; }
    ghost var p := ParentOf(rows, t);
    ghost var child := DeviceAt(rows, t, t);
    assert nodes[t].Value() == child && byName[pkName] == nodes[p];
    byName[pkName].Append(nodes[t].Value());
    assert ChildrenAt(rows, p, t + 1) == ChildrenAt(rows, p, t) + [child];
    assert nodes[p].Value() == DeviceAt(rows, p, t + 1);
    forall i | 0 <= i < |rows| && i != p ensures nodes[i].Value() == DeviceAt(rows, i, t + 1) {
      assert nodes[i] != nodes[p] && nodes[i].Value() == DeviceAt(rows, i, t);
    }
    return true;
  }

  /** Attaches every row to its parent, through the map. */
  method Attach(rows: seq<Row>, nodes: seq<Node>, byName: map<string, Node>) returns (ok: bool)
    requires |nodes| == |rows| && Distinct(nodes) && MapsNames(byName, nodes, rows, |rows|)
    requires Stands(rows, nodes, 0)
    modifies nodes
    ensures ok <==> ParentsOccur(rows)
    ensures ok ==> Stands(rows, nodes, |rows|)
  {
    var t := 0;
    while t < |rows|
      invariant t <= |rows| && Stands(rows, nodes, t)
      invariant forall j :: 0 <= j < t && !IsRoot(rows[j]) ==> ParentOf(rows, j) >= 0
    {
      ok := AttachRow(rows, nodes, byName, t);
      if !ok { return; }
      t := t + 1;
    }
    return true;
  }

  /** One node a line, and the map from kernel names to nodes. */
  method ReadDevices(lines: seq<string>)
    returns (r: Outcome<seq<Row>>, nodes: seq<Node>, byName: map<string, Node>)
    ensures r == RowsOf(lines)
    ensures r.Done? ==>
              && |nodes| == |r.value| && Distinct(nodes) && MapsNames(byName, nodes, r.value, |nodes|)
              && Stands(r.value, nodes, 0) && forall i :: 0 <= i < |nodes| ==> fresh(nodes[i])
  {
    var rows: seq<Row> := [];
    nodes, byName := [], map[];
    for n := 0 to |lines|
      invariant RowsOf(lines[..n]) == Done(rows) && |rows| == |nodes| == n
      invariant Distinct(nodes) && MapsNames(byName, nodes, rows, n)
      invariant Stands(rows, nodes, 0) && forall i :: 0 <= i < n ==> fresh(nodes[i])
    {
      assert lines[..n + 1][..n] == lines[..n];
      var columns := Split(lines[n], ' ');
      if |columns| < 7 {
        BadLineDecides(lines, n + 1);
        return (if |columns| < 5 then Invalid else Panic), nodes, byName;
      }
      var row := RowOf(columns);
      var device := new Node(row);
      forall k ensures LastWith(rows + [row], k, n) == LastWith(rows, k, n) { LastWithPrefix(rows, row, k, n); }
      rows, nodes := rows + [row], nodes + [device];
      byName := byName[row.kname := device];
    }
    assert lines[..|lines|] == lines;
    r := Done(rows);
  }

  /** The rows without a parent, by value. */
  method KeepRoots(rows: seq<Row>, nodes: seq<Node>) returns (roots: seq<Device>)
    requires |nodes| == |rows| && Stands(rows, nodes, |rows|)
    ensures roots == RootsAt(rows, |rows|)
  {
    roots := [];
    for n := 0 to |rows|
      invariant roots == RootsAt(rows, n)
    {
      if rows[n].pkname == "" { roots := roots + [nodes[n].Value()]; }
    }
  }

  method Lsblk(output: string) returns (r: Outcome<seq<Device>>)
    ensures var rows := RowsOf(Split(TrimNewlines(output), '\n'));
            r == match rows case Done(rs) => Tree(rs) case Invalid => Invalid case Panic => Panic
  {
    var rows, nodes, byName := ReadDevices(Split(TrimNewlines(output), '\n'));
    if rows.Invalid? { return Invalid; }
    if rows.Panic? { return Panic; }
    var ok := Attach(rows.value, nodes, byName);
    if !ok { return Invalid; }
    var roots := KeepRoots(rows.value, nodes);
    return Done(roots);
  }

  lemma {:induction false} LastWithPrefix(rows: seq<Row>, row: Row, k: string, n: nat)
    requires n <= |rows|
    ensures LastWith(rows + [row], k, n) == LastWith(rows, k, n)
  {
    if n > 0 { LastWithPrefix(rows, row, k, n - 1); }
  }

  function TrimNewlinesLeft(s: string): string {
    if s != "" && s[0] == '\n' then TrimNewlinesLeft(s[1..]) else s
  }

  function TrimNewlinesRight(s: string): string
    decreases |s|
  {
    if s != "" && s[|s| - 1] == '\n' then TrimNewlinesRight(s[..|s| - 1]) else s
  }

  function TrimNewlines(s: string): string {
    TrimNewlinesRight(TrimNewlinesLeft(s))
  }

  // ---------- What the tree holds ----------

  /** The roots, in the order of the rows. */
  function RootRows(rows: seq<Row>, n: nat): (js: seq<nat>)
    requires n <= |rows|
    ensures forall k :: 0 <= k < |js| ==> js[k] < n && IsRoot(rows[js[k]])
    ensures forall k, l :: 0 <= k < l < |js| ==> js[k] < js[l]
    ensures forall j :: 0 <= j < n && IsRoot(rows[j]) ==> j in js
  {
    if n == 0 then [] else RootRows(rows, n - 1) + (if IsRoot(rows[n - 1]) then [n - 1] else [])
  }

  /** The rows that name row `i` as their parent, in order. */
  function ChildRows(rows: seq<Row>, i: nat, n: nat): (js: seq<nat>)
    requires i < |rows| && n <= |rows|
  {
    if n == 0 then []
    else ChildRows(rows, i, n - 1) + (if Names(rows, n - 1, i) then [n - 1] else [])
  }

  predicate Names(rows: seq<Row>, j: nat, i: nat)
    requires i < |rows| && j < |rows|
  {
    !IsRoot(rows[j]) && rows[j].pkname == rows[i].kname
  }

  lemma {:induction false} ChildRowsSound(rows: seq<Row>, i: nat, n: nat)
    requires i < |rows| && n <= |rows|
    ensures forall k :: 0 <= k < |ChildRows(rows, i, n)| ==> ChildRows(rows, i, n)[k] < n && Names(rows, ChildRows(rows, i, n)[k], i)
    ensures forall k, l :: 0 <= k < l < |ChildRows(rows, i, n)| ==> ChildRows(rows, i, n)[k] < ChildRows(rows, i, n)[l]
    ensures forall j :: 0 <= j < n && Names(rows, j, i) ==> j in ChildRows(rows, i, n)
  {
    if n > 0 { ChildRowsSound(rows, i, n - 1); }
  }

  /** A device as its row describes it, whatever hangs below. */
  predicate IsRow(d: Device, row: Row) {
    d.name == row.name && d.hctl == row.hctl && d.kind == row.kind && d.transport == row.transport && d.size == row.size
  }

  predicate AreRows(ds: seq<Device>, rows: seq<Row>, js: seq<nat>) {
    |ds| == |js| && forall k :: 0 <= k < |ds| ==> js[k] < |rows| && IsRow(ds[k], rows[js[k]])
  }

  /** The result is the root rows, all of them and in order. */
  lemma {:induction false} RootsInOrder(rows: seq<Row>, n: nat)
    requires n <= |rows|
    ensures |RootsAt(rows, n)| == |RootRows(rows, n)|
    ensures forall k :: 0 <= k < |RootsAt(rows, n)| ==>
              RootsAt(rows, n)[k] == DeviceAt(rows, RootRows(rows, n)[k], |rows|)
  {
    if n > 0 { RootsInOrder(rows, n - 1); }
  }

  /** A row with a later namesake gets no children. */
  lemma {:induction false} ShadowedRowIsBare(rows: seq<Row>, i: nat, t: nat)
    requires i < |rows| && t <= |rows| && LastWith(rows, rows[i].kname, |rows|) != i
    ensures ChildrenAt(rows, i, t) == []
  {
    if t > 0 {
      ShadowedRowIsBare(rows, i, t - 1);
      assert ParentOf(rows, t - 1) == i ==> rows[i].kname == rows[t - 1].pkname;
    }
  }

  /** The last row of a name gets exactly the rows that name it. */
  lemma {:induction false} LastNamesakeHasChildren(rows: seq<Row>, i: nat, t: nat)
    requires i < |rows| && t <= |rows| && LastWith(rows, rows[i].kname, |rows|) == i
    ensures AreRows(ChildrenAt(rows, i, t), rows, ChildRows(rows, i, t))
  {
    if t > 0 {
      LastNamesakeHasChildren(rows, i, t - 1);
      assert AttachesTo(rows, t - 1, i) <==> Names(rows, t - 1, i);
    }
  }

  predicate OccursAgain(rows: seq<Row>, i: nat)
    requires i < |rows|
  {
    exists j :: i < j < |rows| && rows[j].kname == rows[i].kname
  }

  lemma LastIfNotAgain(rows: seq<Row>, i: nat)
    requires i < |rows|
    ensures LastWith(rows, rows[i].kname, |rows|) == i <==> !OccursAgain(rows, i)
  {
  }

  /**
   * A device of the tree has exactly its direct children, in the order of their rows, if and only
   * if its kernel name does not occur again further down or nothing names it as a parent.
   */
  lemma DirectChildrenExactly(rows: seq<Row>, i: nat)
    requires i < |rows|
    ensures AreRows(ChildrenAt(rows, i, |rows|), rows, ChildRows(rows, i, |rows|)) <==>
            !OccursAgain(rows, i) || ChildRows(rows, i, |rows|) == []
  {
    LastIfNotAgain(rows, i);
    if OccursAgain(rows, i) {
      ShadowedRowIsBare(rows, i, |rows|);
    } else {
      LastNamesakeHasChildren(rows, i, |rows|);
    }
  }

  /** Each child is a copy made when its own row was attached. */
  lemma {:induction false} ChildrenAreCopies(rows: seq<Row>, i: nat, t: nat)
    requires i < |rows| && t <= |rows| && !OccursAgain(rows, i)
    ensures |ChildrenAt(rows, i, t)| == |ChildRows(rows, i, t)|
    ensures forall k :: 0 <= k < |ChildRows(rows, i, t)| ==>
              var j := ChildRows(rows, i, t)[k]; j < t && ChildrenAt(rows, i, t)[k] == DeviceAt(rows, j, j)
  {
    LastIfNotAgain(rows, i);
    if t > 0 {
      ChildrenAreCopies(rows, i, t - 1);
      ChildRowsSound(rows, i, t - 1);
      assert AttachesTo(rows, t - 1, i) <==> Names(rows, t - 1, i);
    }
  }

  lemma {:induction false} ChildRowsGrow(rows: seq<Row>, i: nat, n: nat, m: nat)
    requires i < |rows| && n <= m <= |rows|
    ensures ChildRows(rows, i, n) <= ChildRows(rows, i, m)
  {
    if n < m { ChildRowsGrow(rows, i, n, m - 1); }
  }

  /** Between two rows no child is added if and only if all children stand before the first. */
  lemma NoneBetweenExactly(rows: seq<Row>, i: nat, n: nat, m: nat)
    requires i < |rows| && n <= m <= |rows|
    ensures |ChildRows(rows, i, n)| == |ChildRows(rows, i, m)| <==> forall j :: j in ChildRows(rows, i, m) ==> j < n
  {
    ChildRowsGrow(rows, i, n, m);
    ChildRowsSound(rows, i, n);
    ChildRowsSound(rows, i, m);
    var fewer, more := ChildRows(rows, i, n), ChildRows(rows, i, m);
    if |fewer| < |more| {
      var first := more[|fewer|];
      assert first in more;
      assert first < n ==> first in fewer;
    }
  }

  /**
   * The copy of row `j` in its parent has all its children if and only if it has none, or its
   * kernel name does not occur again and every row that names it stands before it.
   */
  lemma GrandchildrenExactly(rows: seq<Row>, j: nat)
    requires j < |rows|
    ensures var all := ChildRows(rows, j, |rows|);
            AreRows(DeviceAt(rows, j, j).children, rows, all) <==>
            all == [] || (!OccursAgain(rows, j) && forall n :: n in all ==> n < j)
  {
    LastIfNotAgain(rows, j);
    NoneBetweenExactly(rows, j, j, |rows|);
    ChildRowsGrow(rows, j, j, |rows|);
    if OccursAgain(rows, j) {
      ShadowedRowIsBare(rows, j, j);
    } else {
      LastNamesakeHasChildren(rows, j, j);
    }
  }

  /** Every parent is printed before its children, as lsblk does. */
  predicate ParentsFirst(rows: seq<Row>) {
    forall j :: 0 <= j < |rows| && !IsRoot(rows[j]) ==> ParentOf(rows, j) < j
  }

  lemma {:induction false} NothingBelowYet(rows: seq<Row>, i: nat, t: nat)
    requires i < |rows| && t <= i && ParentsFirst(rows)
    ensures ChildrenAt(rows, i, t) == []
  {
    if t > 0 {
      NothingBelowYet(rows, i, t - 1);
      assert !IsRoot(rows[t - 1]) ==> ParentOf(rows, t - 1) < t - 1;
    }
  }

  /** Children are copied when they are attached: of a tree printed from the top, no grandchild is seen. */
  lemma {:induction false} GrandchildrenAreLost(rows: seq<Row>, i: nat, t: nat)
    requires i < |rows| && t <= |rows| && ParentsFirst(rows)
    ensures forall k :: 0 <= k < |ChildrenAt(rows, i, t)| ==> ChildrenAt(rows, i, t)[k].children == []
  {
    if t > 0 {
      GrandchildrenAreLost(rows, i, t - 1);
      NothingBelowYet(rows, t - 1, t - 1);
    }
  }

  // ---------- Multipath ----------

  /** The one child that all devices share by name; only the last device's child is looked at closely. */
  predicate ShareMultipath(devices: seq<Device>) {
    && devices != [] && (forall i :: 0 <= i < |devices| ==> |devices[i].children| == 1)
    && (forall i, j :: 0 <= i < |devices| && 0 <= j < |devices| ==>
          devices[i].children[0].name == devices[j].children[0].name)
    && devices[|devices| - 1].children[0].kind == "mpath"
  }

  method GetMultipathDevice(devices: seq<Device>) returns (r: Result<Device>)
    ensures r.Ok? <==> ShareMultipath(devices)
    ensures r.Ok? ==> r.value == devices[|devices| - 1].children[0]
  {
    var multipath: Option<Device> := None;
    for n := 0 to |devices|
      invariant forall i :: 0 <= i < n ==> |devices[i].children| == 1
      invariant n == 0 <==> multipath.None?
      invariant n > 0 ==> multipath == Some(devices[n - 1].children[0])
      invariant forall i :: 0 <= i < n ==> devices[i].children[0].name == multipath.value.name
    {
      if |devices[n].children| != 1 { return Err; }
      if multipath.Some? && devices[n].children[0].name != multipath.value.name { return Err; }
      multipath := Some(devices[n].children[0]);
    }
    if multipath.None? || multipath.value.kind != "mpath" { return Err; }
    return Ok(multipath.value);
  }

  /** A single device is mounted itself, several through their multipath device. */
  method GetMountTargetDevice(devices: seq<Device>) returns (r: Result<Device>)
    ensures r.Ok? <==> |devices| == 1 || (|devices| > 1 && ShareMultipath(devices))
    ensures r.Ok? ==> r.value == if |devices| == 1 then devices[0] else devices[|devices| - 1].children[0]
  {
    if |devices| > 1 {
      r := GetMultipathDevice(devices);
      return;
    }
    if devices == [] { return Err; }
    return Ok(devices[0]);
  }

  datatype HCTL = HCTL(hba: int, channel: int, target: int, lun: int)

  function Numbers(parts: seq<string>): Result<seq<int>> {
    if parts == [] then Ok([])
    else if Atoi(parts[0]).Err? || Numbers(parts[1..]).Err? then Err
    else Ok([Atoi(parts[0]).value] + Numbers(parts[1..]).value)
  }

  /** "HBA:channel:target:LUN", all of them numbers. */
  function ParseHCTL(text: string): Result<HCTL> {
    match Numbers(Split(text, ':'))
    case Err => Err
    case Ok(n) => if |n| == 4 then Ok(HCTL(n[0], n[1], n[2], n[3])) else Err
  }

  /** The disks among the devices: their addresses in order, or Err when one has none. */
  function DiskAddresses(devices: seq<Device>): Result<seq<HCTL>> {
    if devices == [] then Ok([])
    else
      var n := |devices| - 1;
      match DiskAddresses(devices[..n])
      case Err => Err
      case Ok(before) =>
        if devices[n].kind == "mpath" then Ok(before)
        else
          match ParseHCTL(devices[n].hctl)
          case Err => Err
          case Ok(h) => Ok(before + [h])
  }

  /** -1 stands for "no reference yet", so LUNs of -1 at the front are passed over. */
  function ReferenceLUN(hs: seq<HCTL>): int {
    if hs == [] then -1
    else if ReferenceLUN(hs[..|hs| - 1]) == -1 then hs[|hs| - 1].lun
    else ReferenceLUN(hs[..|hs| - 1])
  }

  predicate LUNsAccepted(hs: seq<HCTL>) {
    forall i :: 0 <= i < |hs| ==> ReferenceLUN(hs[..i]) == -1 || hs[i].lun == ReferenceLUN(hs[..i])
  }

  predicate ControllersDistinct(hs: seq<HCTL>) {
    forall i, j :: 0 <= i < j < |hs| ==> hs[i].hba != hs[j].hba
  }

  lemma ReferenceExtends(hs: seq<HCTL>, h: HCTL)
    ensures ReferenceLUN(hs + [h]) == if ReferenceLUN(hs) == -1 then h.lun else ReferenceLUN(hs)
    ensures LUNsAccepted(hs + [h]) <==> LUNsAccepted(hs) && (ReferenceLUN(hs) == -1 || h.lun == ReferenceLUN(hs))
  {
    var longer := hs + [h];
    assert longer[..|hs|] == hs;
    assert forall i :: 0 <= i < |hs| ==> longer[..i] == hs[..i] && longer[i] == hs[i];
  }

  predicate SizesEqual(devices: seq<Device>) {
    forall i :: 0 <= i < |devices| ==> devices[i].size == devices[0].size
  }

  /** What scsi_id answers for a device. */
  type Wwids = Device -> Result<string>

  predicate WwidsMatch(devices: seq<Device>, wwid: Wwids) {
    forall i :: 0 <= i < |devices| ==> wwid(devices[i]) == Ok(devices[0].name)
  }

  predicate AddressesFit(devices: seq<Device>) {
    && DiskAddresses(devices).Ok?
    && LUNsAccepted(DiskAddresses(devices).value) && ControllersDistinct(DiskAddresses(devices).value)
  }

  lemma AddressesExtend(devices: seq<Device>, n: nat)
    requires n < |devices|
    ensures DiskAddresses(devices[..n + 1]) ==
            (if DiskAddresses(devices[..n]).Err? then Err
             else if devices[n].kind == "mpath" then DiskAddresses(devices[..n])
             else if ParseHCTL(devices[n].hctl).Err? then Err
             else Ok(DiskAddresses(devices[..n]).value + [ParseHCTL(devices[n].hctl).value]))
  {
    assert devices[..n + 1][..n] == devices[..n];
  }

  /** A bad prefix stays bad. */
  lemma {:induction false} MisfitLasts(devices: seq<Device>, n: nat)
    requires n <= |devices| && !AddressesFit(devices[..n])
    ensures !AddressesFit(devices)
    decreases |devices| - n
  {
    if n == |devices| {
      assert devices[..n] == devices;
    } else {
      AddressesExtend(devices, n);
      var was, now := DiskAddresses(devices[..n]), DiskAddresses(devices[..n + 1]);
      if was.Ok? && now.Ok? && now != was {
        ReferenceExtends(was.value, ParseHCTL(devices[n].hctl).value);
        assert forall i :: 0 <= i < |was.value| ==> now.value[i] == was.value[i];
      }
      MisfitLasts(devices, n + 1);
    }
  }

  /** What the loop of the check remembers of the devices so far. */
  predicate Tracks(devices: seq<Device>, seen: seq<HCTL>, reference: int, hba: set<int>) {
    && DiskAddresses(devices) == Ok(seen) && AddressesFit(devices)
    && reference == ReferenceLUN(seen) && hba == set i | 0 <= i < |seen| :: seen[i].hba
  }

  lemma ControllerSeen(seen: seq<HCTL>, h: HCTL)
    requires ControllersDistinct(seen)
    ensures ControllersDistinct(seen + [h]) <==> h.hba !in (set i | 0 <= i < |seen| :: seen[i].hba)
    ensures (set i | 0 <= i < |seen + [h]| :: (seen + [h])[i].hba) == (set i | 0 <= i < |seen| :: seen[i].hba) + {h.hba}
  {
    var longer := seen + [h];
    assert forall i :: 0 <= i < |seen| ==> longer[i] == seen[i];
    assert longer[|seen|] == h;
  }

  /** One device more: a disk's LUN must fit the reference, and its controller must be new. */
  method CheckAddress(devices: seq<Device>, n: nat, ghost seen: seq<HCTL>, reference: int, hba: set<int>)
    returns (ok: bool, reference': int, hba': set<int>, ghost seen': seq<HCTL>)
    requires n < |devices| && Tracks(devices[..n], seen, reference, hba)
    ensures ok <==> AddressesFit(devices[..n + 1])
    ensures ok ==> Tracks(devices[..n + 1], seen', reference', hba')
  {
    reference', hba', seen' := reference, hba, seen;
    AddressesExtend(devices, n);
    if devices[n].kind == "mpath" { return true, reference', hba', seen'; }
    var h := ParseHCTL(devices[n].hctl);
    if h.Err? { return false, reference', hba', seen'; }
    ReferenceExtends(seen, h.value);
    ControllerSeen(seen, h.value);
    if reference == -1 {
      reference' := h.value.lun;
    } else if h.value.lun != reference {
      return false, reference', hba', seen';
    }
    if h.value.hba in hba { return false, reference', hba', seen'; }
    hba' := hba + {h.value.hba};
    seen' := seen + [h.value];
    ok := true;
  }

  /**
   * The mount target and its devices are consistent: equal sizes, every WWID the target's name,
   * and disks on distinct controllers whose LUNs agree with the reference.
   */
  method IsMultipathConsistent(mountTarget: Device, paths: seq<Device>, wwid: Wwids) returns (ok: bool)
    ensures var devices := [mountTarget] + paths;
            ok <==> SizesEqual(devices) && WwidsMatch(devices, wwid) && AddressesFit(devices)
  {
    ok := DevicesConsistent([mountTarget] + paths, wwid);
  }

  /** The loop over the devices; the first is the reference. */
  method DevicesConsistent(devices: seq<Device>, wwid: Wwids) returns (ok: bool)
    requires devices != []
    ensures ok <==> SizesEqual(devices) && WwidsMatch(devices, wwid) && AddressesFit(devices)
  {
    var referenceLUN := -1;
    var hba: set<int> := {};
    ghost var seen: seq<HCTL> := [];
    for n := 0 to |devices|
      invariant forall i :: 0 <= i < n ==> devices[i].size == devices[0].size && wwid(devices[i]) == Ok(devices[0].name)
      invariant Tracks(devices[..n], seen, referenceLUN, hba)
    {
      if devices[n].size != devices[0].size { return false; }
      ok, referenceLUN, hba, seen := CheckAddress(devices, n, seen, referenceLUN, hba);
      if !ok {
        MisfitLasts(devices, n + 1);
        return;
      }
      if wwid(devices[n]) != Ok(devices[0].name) { return false; }
    }
    assert devices[..|devices|] == devices;
    return true;
  }

  predicate AllLUNsEqual(hs: seq<HCTL>) {
    forall i, j :: 0 <= i < |hs| && 0 <= j < |hs| ==> hs[i].lun == hs[j].lun
  }

  lemma {:induction false} ReferenceIsFirst(hs: seq<HCTL>)
    ensures hs != [] && hs[0].lun != -1 ==> ReferenceLUN(hs) == hs[0].lun
    ensures ReferenceLUN(hs) == -1 <==> forall i :: 0 <= i < |hs| ==> hs[i].lun == -1
    decreases |hs|
  {
    if hs != [] {
      ReferenceIsFirst(hs[..|hs| - 1]);
    }
  }

  /**
   * The LUNs are all equal exactly when they are accepted and the sentinel did not hide anything:
   * the first is not -1, or all of them are.
   */
  lemma {:induction false} AcceptedExactly(hs: seq<HCTL>)
    ensures AllLUNsEqual(hs) <==> LUNsAccepted(hs) && (hs == [] || hs[0].lun != -1 || ReferenceLUN(hs) == -1)
    decreases |hs|
  {
    if hs != [] {
      var n := |hs| - 1;
      AcceptedExactly(hs[..n]);
      assert hs == hs[..n] + [hs[n]];
      ReferenceExtends(hs[..n], hs[n]);
      ReferenceIsFirst(hs[..n]);
      ReferenceIsFirst(hs);
      assert AllLUNsEqual(hs) <==> AllLUNsEqual(hs[..n]) && (n == 0 || hs[n].lun == hs[0].lun);
    }
  }

  /** With a LUN of -1 in front the check passes over any difference. */
  lemma SentinelHidesDifference(first: HCTL, second: HCTL)
    requires first.lun == -1 && second.lun != -1
    ensures LUNsAccepted([first] + [second]) && !AllLUNsEqual([first] + [second])
  {
    ReferenceExtends([], first);
    ReferenceExtends([first], second);
    assert [] + [first] == [first];
    AcceptedExactly([first] + [second]);
    ReferenceIsFirst([first]);
  }
}
