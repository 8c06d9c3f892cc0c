/**
 * From the parameters of a StorageClass to the address a node connects to: the portal a volume is
 * created with, the contexts it travels in, and what the node makes of them.
 */
module Endpoints {
  import opened Results
  import opened Strings
  import opened Urls
  import opened WindowsStorage
  import opened ControllerServer
  import FileShares
  import LegacyHandle
  import VH = VolumeHandle
  import HandleRoundTrip
  import Escapes

  // ---------- Sizes ----------

  const GIB: int := 0x4000_0000

  /** requiredBytesFromRange; None is no range at all. */
  function RequiredBytes(range: Option<(int, int)>, minGiB: int): Result<int> {
    var min := minGiB * GIB;
    match range
    case None => Ok(min)
    case Some((required, limit)) =>
      if required > 0 && limit > 0 && required > limit then Err
      else if required > 0 then Ok(if required < min then min else required)
      else if limit > 0 then Ok(if limit < min then min else limit)
      else Ok(min)
  }

  /**
   * The size is never below the minimum nor below what is required; a limit is kept exactly when
   * it is not below the minimum.
   */
  lemma RequiredBytesWithin(required: int, limit: int, minGiB: int)
    requires minGiB > 0
    ensures var r := RequiredBytes(Some((required, limit)), minGiB);
            && (r.Err? <==> required > 0 && limit > 0 && required > limit)
            && (r.Ok? ==> r.value >= minGiB * GIB && r.value >= required)
            && (r.Ok? && limit > 0 ==> (r.value <= limit <==> minGiB * GIB <= limit))
  {
  }

  // ---------- Portals ----------

  /** net.ParseIP accepting a text: an address without a zone. */
  predicate IsIP(s: string) {
    IsIPv4(s) || (IsIPv6(s) && '%' !in s)
  }

  predicate ValidPort(port: int) {
    1 <= port <= 65535
  }

  predicate HasSpace(s: string) {
    exists i :: 0 <= i <= |s| && SpaceAtStart(s[i..]) > 0
  }

  /** validateTargetPortal. */
  predicate ValidTargetPortal(value: string) {
    var portal := TrimSpace(value);
    && portal != "" && '/' !in portal && '\\' !in portal && !HasSpace(portal)
    && match SplitHostPort(portal)
       case Ok((host, port)) => TrimSpace(host) != "" && Atoi(port).Ok? && ValidPort(Atoi(port).value)
       case Err => ':' in portal ==> IsIP(portal)
  }

  /** targetPortalAddress: adds the port unless there is one. */
  function TargetPortalAddress(targetPortal: string, port: int): string {
    var portal := TrimSpace(targetPortal);
    if portal == "" then ""
    else if SplitHostPort(portal).Ok? then portal
    else JoinHostPort(portal, Itoa(port))
  }

  /** connectTarget cuts its target at every colon and keeps two pieces. */
  function PortalOf(target: string): string {
    var parts := Split(target, ':');
    parts[0] + ":" + (if |parts| > 1 then parts[1] else "3260")
  }

  lemma {:induction false} SplitLength(s: string, c: char)
    ensures |Split(s, c)| >= 1 && (c !in s <==> |Split(s, c)| == 1)
    decreases |s|
  {
  }

  /** The portal connected to is the one given exactly when that has one colon. */
  lemma SamePortalExactly(target: string)
    ensures PortalOf(target) == target <==> |Split(target, ':')| == 2
  {
    var parts := Split(target, ':');
    SplitLength(target, ':');
    JoinUndoesSplit(target, ':');
    if |parts| == 2 {
      assert parts == [parts[0], parts[1]] && parts[1..] == [parts[1]];
      assert Join(parts, ':') == parts[0] + [':'] + parts[1];
    } else if |parts| == 1 {
      assert target == parts[0];
    } else {
      assert Join(parts, ':') == parts[0] + [':'] + Join(parts[1..], ':');
      assert Join(parts[1..], ':') == parts[1] + [':'] + Join(parts[1..][1..], ':');
      assert |target| > |PortalOf(target)|;
    }
  }

  lemma OneColon(host: string, port: string)
    requires ':' !in host && ':' !in port
    ensures |Split(host + ":" + port, ':')| == 2
  {
    assert host + ":" + port == host + [':'] + port;
    CutAtFirst(host, ':', port);
  }

  lemma DigitsHaveNoColon(n: int)
    requires n > 0
    ensures ':' !in Itoa(n) && AllDigits(Itoa(n)) && Itoa(n) != "" && DigitsValue(Itoa(n)) == n
  {
    DigitsRoundTrip(n);
  }

  /** A name or IPv4 address, with its port or without, becomes an address with one colon. */
  lemma AddressHasOneColon(targetPortal: string, port: int)
    requires Trimmed(targetPortal) && targetPortal != "" && ValidPort(port)
    requires '[' !in targetPortal && (':' in targetPortal ==> SplitHostPort(targetPortal).Ok?)
    ensures |Split(TargetPortalAddress(targetPortal, port), ':')| == 2
  {
    TrimSpaceSound(targetPortal);
    DigitsHaveNoColon(port);
    if SplitHostPort(targetPortal).Ok? {
      var colon := LastIndex(targetPortal, ':');
      assert targetPortal[0] in targetPortal;
      OneColon(targetPortal[..colon], targetPortal[colon + 1..]);
      assert targetPortal == targetPortal[..colon] + ":" + targetPortal[colon + 1..];
    } else {
      OneColon(targetPortal, Itoa(port));
    }
  }

  /**
   * For such portals the session check, the login and the device name on the node all use the very
   * address the volume was created with.
   */
  lemma NodeUsesPortal(targetPortal: string, port: int)
    requires Trimmed(targetPortal) && targetPortal != "" && ValidPort(port)
    requires '[' !in targetPortal && (':' in targetPortal ==> SplitHostPort(targetPortal).Ok?)
    ensures var address := TargetPortalAddress(targetPortal, port); PortalOf(address) == address
  {
    AddressHasOneColon(targetPortal, port);
    SamePortalExactly(TargetPortalAddress(targetPortal, port));
  }

  // ---------- Addresses the node accepts ----------

  predicate Bracketless(s: string) {
    '[' !in s && ']' !in s
  }

  /** A portal with a port, or one without brackets, or one in brackets. */
  predicate Addressable(portal: string) {
    || SplitHostPort(portal).Ok? || Bracketless(portal)
    || (|portal| > 2 && InBrackets(portal))
  }

  lemma {:induction false} FieldsHaveNoBracket(s: string, bytes: nat, ellipsis: bool)
    requires IPv6Fields(s, bytes, ellipsis)
    ensures Bracketless(s)
    decreases |s|
  {
    var run := HexRun(s);
    var rest := s[run..];
    assert s == s[..run] + rest && Bracketless(s[..run]);
    if rest != "" && rest[0] == '.' {
      IPv4HasNoBracket(s);
    } else if rest != "" && rest[1] != ':' {
      FieldsHaveNoBracket(rest[1..], bytes + 2, ellipsis);
      assert rest == [':'] + rest[1..];
    } else if rest != "" && rest != "::" {
      FieldsHaveNoBracket(rest[2..], bytes + 2, true);
      assert rest == [':', ':'] + rest[2..];
    }
  }

  lemma {:induction false} JoinIsBracketless(parts: seq<string>, c: char)
    requires c != '[' && c != ']' && forall i :: 0 <= i < |parts| ==> Bracketless(parts[i])
    ensures Bracketless(Join(parts, c))
  {
    if |parts| > 1 {
      assert forall i :: 0 <= i < |parts[1..]| ==> parts[1..][i] == parts[i + 1];
      JoinIsBracketless(parts[1..], c);
    }
  }

  lemma IPv4HasNoBracket(s: string)
    requires IsIPv4(s)
    ensures Bracketless(s)
  {
    var parts := Split(s, '.');
    JoinUndoesSplit(s, '.');
    forall i | 0 <= i < |parts| ensures Bracketless(parts[i]) {
      assert i == 0 || i == 1 || i == 2 || i == 3;
      OctetHasNoBracket(parts[i]);
    }
    JoinIsBracketless(parts, '.');
  }

  lemma OctetHasNoBracket(s: string)
    requires IsOctet(s)
    ensures Bracketless(s)
  {
  }

  lemma IPHasNoBracket(s: string)
    requires IsIP(s)
    ensures Bracketless(s)
  {
    if IsIPv4(s) {
      IPv4HasNoBracket(s);
    } else {
      CutNowhere(s, '%');
      if s != "::" {
        if "::" <= s {
          FieldsHaveNoBracket(s[2..], 0, true);
          assert s == "::" + s[2..];
        } else {
          FieldsHaveNoBracket(s, 0, false);
        }
      }
    }
  }

  predicate NoSpaceBytes(s: string) {
    forall i :: 0 <= i < |s| ==> !SpaceByte(s[i])
  }

  /** Between bytes that belong to no space a text without spaces stays without. */
  lemma NoSpaceBetween(a: string, t: string, b: string)
    requires NoSpaceBytes(a) && NoSpaceBytes(b)
    ensures HasSpace(a + t + b) ==> HasSpace(t)
  {
    var s := a + t + b;
    if i :| 0 <= i <= |s| && SpaceAtStart(s[i..]) > 0 { SpaceInside(a, t, b, i); }
  }

  lemma SpaceInside(a: string, t: string, b: string, i: nat)
    requires NoSpaceBytes(a) && NoSpaceBytes(b) && i <= |a + t + b| && SpaceAtStart((a + t + b)[i..]) > 0
    ensures HasSpace(t)
  {
    var s := a + t + b;
    var n := SpaceAtStart(s[i..]);
    assert SpaceByte(s[i..][0]) && SpaceByte(s[i..][n - 1]);
    var k := i - |a|;
    assert s[i] == s[i..][0] && s[i + n - 1] == s[i..][n - 1];
    assert 0 <= k && k + n <= |t|;
    assert forall j :: 0 <= j < n ==> s[i..][j] == t[k..][j];
    SameSpaceAtStart(s[i..], t[k..]);
  }

  lemma SameSpaceAtStart(s: string, t: string)
    requires SpaceAtStart(s) <= |t| && forall j :: 0 <= j < SpaceAtStart(s) ==> s[j] == t[j]
    ensures SpaceAtStart(s) > 0 ==> SpaceAtStart(t) > 0
  {
  }

  predicate InBrackets(x: string) {
    |x| >= 2 && x[0] == '[' && x[|x| - 1] == ']' && Bracketless(x[1..|x| - 1])
  }

  predicate PortText(port: string) {
    ':' !in port && Bracketless(port)
  }

  lemma LastColon(x: string, port: string)
    requires ':' !in port
    ensures var a := x + ":" + port; LastIndex(a, ':') == |x| && a[..|x|] == x && a[|x| + 1..] == port
  {
    var a := x + ":" + port;
    assert a[|x|] == ':' && forall i :: |x| < i < |a| ==> a[i] == port[i - |x| - 1];
  }

  /** What SplitHostPort makes of a host and a port. */
  lemma SplitsPlain(x: string, port: string)
    requires x != "" && x[0] != '[' && PortText(port)
    ensures SplitHostPort(x + ":" + port) == if ':' in x || !Bracketless(x) then Err else Ok((x, port))
  {
    var a := x + ":" + port;
    LastColon(x, port);
    assert a[0] == x[0];
    assert forall c :: c in a <==> c in x || c == ':' || c in port;
  }

  lemma SplitsInBrackets(x: string, port: string)
    requires InBrackets(x) && PortText(port)
    ensures SplitHostPort(x + ":" + port) == Ok((x[1..|x| - 1], port))
  {
    var a := x + ":" + port;
    LastColon(x, port);
    ClosingBracket(x, port);
    var inner := x[1..|x| - 1];
    assert a[1..] == inner + "]:" + port && a[|x|..] == ":" + port && a[1..|x| - 1] == inner;
  }

  lemma ClosingBracket(x: string, port: string)
    requires InBrackets(x)
    ensures var a := x + ":" + port; ']' in a && Before(a, ']') == x[..|x| - 1]
  {
    var inner, open := x[1..|x| - 1], x[..|x| - 1];
    assert open == "[" + inner;
    assert x + ":" + port == open + [']'] + (":" + port);
    CutAtFirst(open, ']', ":" + port);
  }

  /** Brackets that close at the end and hold no others are the ones of `InBrackets`. */
  lemma OuterBracket(x: string)
    requires x != "" && x[0] == '[' && ']' in x && |Before(x, ']')| + 1 == |x| && '[' !in x[1..]
    ensures InBrackets(x)
  {
    CutsAt(x, ']');
    var before := Before(x, ']');
    assert After(x, ']') == "";
    assert before == x[..|x| - 1] && x[|x| - 1] == ']';
    assert forall c :: c in x[1..|x| - 1] ==> c in before && c in x[1..];
  }

  lemma SameClosing(x: string, port: string)
    requires ']' in x
    ensures var a := x + ":" + port; ']' in a && Before(a, ']') == Before(x, ']')
  {
    CutsAt(x, ']');
    var before, more := Before(x, ']'), After(x, ']');
    assert x + ":" + port == before + [']'] + (more + ":" + port);
    CutAtFirst(before, ']', more + ":" + port);
  }

  lemma StrayBracket(x: string, port: string)
    requires x != "" && x[0] == '[' && !InBrackets(x) && PortText(port)
    ensures SplitHostPort(x + ":" + port).Err?
  {
    var a := x + ":" + port;
    LastColon(x, port);
    if ']' in x {
      SameClosing(x, port);
      assert a[1..] == x[1..] + ":" + port;
      if |Before(x, ']')| + 1 == |x| && '[' !in x[1..] { OuterBracket(x); }
    } else {
      assert forall c :: c in a <==> c in x || c == ':' || c in port;
    }
  }

  /** An address made of a host and a port is taken apart again, unless brackets are in the way. */
  lemma SplitsAgain(t: string, port: string)
    requires t != "" && PortText(port) && (':' in t ==> Bracketless(t))
    ensures var r := SplitHostPort(JoinHostPort(t, port));
            if Bracketless(t) then r == Ok((t, port))
            else if InBrackets(t) then r == Ok((t[1..|t| - 1], port))
            else r.Err?
  {
    if ':' in t {
      var x := "[" + t + "]";
      assert x[1..|x| - 1] == t && JoinHostPort(t, port) == x + ":" + port;
      SplitsInBrackets(x, port);
    } else if t[0] != '[' {
      SplitsPlain(t, port);
    } else if InBrackets(t) {
      SplitsInBrackets(t, port);
    } else {
      StrayBracket(t, port);
    }
  }

  /** The address a volume is created with is one the node accepts if and only if the portal has no stray bracket. */
  lemma AddressValidExactly(targetPortal: string, port: int)
    requires ValidTargetPortal(targetPortal) && ValidPort(port)
    ensures var a := TargetPortalAddress(targetPortal, port);
            a != "" && Trimmed(a) && (ValidTargetPortal(a) <==> Addressable(TrimSpace(targetPortal)))
  {
    var t := TrimSpace(targetPortal);
    TrimSpaceSound(targetPortal);
    TrimSpaceSound(t);
    if SplitHostPort(t).Err? {
      var digits := Itoa(port);
      DigitsHaveNoColon(port);
      AtoiUndoesItoa(port);
      if ':' in t { IPHasNoBracket(t); }
      JoinedAddress(t, digits);
      SplitsAgain(t, digits);
      InnerText(t);
      var a := JoinHostPort(t, digits);
      if SplitHostPort(a).Err? && IsIP(a) { IPHasNoBracket(a); }
    }
  }

  /** Neither separators nor spaces come in with a port. */
  lemma JoinedAddress(t: string, digits: string)
    requires t != "" && '/' !in t && '\\' !in t && !HasSpace(t) && AllDigits(digits) && digits != ""
    ensures var a := JoinHostPort(t, digits);
            && a != "" && '/' !in a && '\\' !in a && !HasSpace(a) && Trimmed(a) && TrimSpace(a) == a && ':' in a
            && (Bracketless(a) ==> Bracketless(t))
  {
    var a := JoinHostPort(t, digits);
    var before, after := if ':' in t then "[" else "", if ':' in t then "]:" + digits else ":" + digits;
    assert a == before + t + after;
    NoSpaceBetween(before, t, after);
    SpacelessIsTrimmed(a);
    JoinedCharacters(t, digits);
  }

  lemma JoinedCharacters(t: string, digits: string)
    ensures forall c :: c in JoinHostPort(t, digits) ==> c in t || c in digits || c == ':' || c == '[' || c == ']'
    ensures ':' in JoinHostPort(t, digits) && forall c :: c in t ==> c in JoinHostPort(t, digits)
  {
    var a := JoinHostPort(t, digits);
    if ':' in t { assert a[|t| + 2] == ':'; } else { assert a[|t|] == ':'; }
    assert forall c :: c in t ==> c in a;
  }

  lemma SpacelessIsTrimmed(s: string)
    requires s != "" && !HasSpace(s)
    ensures Trimmed(s) && TrimSpace(s) == s
  {
    assert s[0..] == s && SpaceAtStart(s) == 0;
    if SpaceAtEnd(s) > 0 { SpaceAtEndIsSpace(s); }
    TrimSpaceSound(s);
  }

  lemma InnerText(t: string)
    requires t != "" && !HasSpace(t)
    ensures TrimSpace(t) == t
    ensures |t| > 2 ==> TrimSpace(t[1..|t| - 1]) != ""
  {
    SpacelessIsTrimmed(t);
    if |t| > 2 {
      if SpaceAtStart(t[1..|t| - 1]) > 0 { InnerSpaceIsSpace(t); }
      NoBlank(t[1..|t| - 1]);
    }
  }

  lemma SpaceAtEndIsSpace(t: string)
    requires SpaceAtEnd(t) > 0
    ensures HasSpace(t)
  {
    assert SpaceAtStart(t[|t| - SpaceAtEnd(t)..]) > 0;
  }

  lemma InnerSpaceIsSpace(t: string)
    requires |t| > 2 && SpaceAtStart(t[1..|t| - 1]) > 0
    ensures HasSpace(t)
  {
    var inner := t[1..|t| - 1];
    assert forall j :: 0 <= j < SpaceAtStart(inner) ==> inner[j] == t[1..][j];
    SameSpaceAtStart(inner, t[1..]);
  }

  /** A text that does not start with a space is not trimmed to nothing. */
  lemma NoBlank(s: string)
    requires s != "" && SpaceAtStart(s) == 0
    ensures TrimSpace(s) != ""
  {
    TrimRightKeepsStart(s);
  }

  lemma {:induction false} TrimRightKeepsStart(s: string)
    requires s != "" && SpaceAtStart(s) == 0
    ensures TrimRight(s) != ""
    decreases |s|
  {
    var n := SpaceAtEnd(s);
    if n > 0 {
      assert n < |s|;
      PrefixStartsAlike(s, |s| - n);
      TrimRightKeepsStart(s[..|s| - n]);
    }
  }

  // ---------- The node's connection ----------

  function ByPath(portal: string, iqn: string, lun: int): string {
    "/dev/disk/by-path/ip-" + portal + "-iscsi-" + iqn + "-lun-" + Itoa(lun)
  }

  /** The device name a block publish falls back to is the one waited for exactly with one colon. */
  lemma FallbackDeviceAgrees(target: string, iqn: string, lun: int)
    ensures ByPath(target, iqn, lun) == ByPath(PortalOf(target), iqn, lun) <==> |Split(target, ':')| == 2
  {
    SamePortalExactly(target);
    DeviceNamesPortal(target, PortalOf(target), iqn, lun);
  }

  lemma DeviceNamesPortal(a: string, b: string, iqn: string, lun: int)
    ensures ByPath(a, iqn, lun) == ByPath(b, iqn, lun) <==> a == b
  {
    var prefix, suffix := "/dev/disk/by-path/ip-", "-iscsi-" + iqn + "-lun-" + Itoa(lun);
    assert ByPath(a, iqn, lun) == prefix + (a + suffix) && ByPath(b, iqn, lun) == prefix + (b + suffix);
    SuffixCancels(prefix, a, b, suffix);
  }

  lemma SuffixCancels(prefix: string, a: string, b: string, suffix: string)
    ensures prefix + (a + suffix) == prefix + (b + suffix) ==> a == b
  {
    var x, y := prefix + (a + suffix), prefix + (b + suffix);
    if x == y {
      assert |a| == |b|;
      assert x[|prefix|..|prefix| + |a|] == a && y[|prefix|..|prefix| + |b|] == b;
    }
  }

  // ---------- Contexts ----------

  /** The keys under which endpoints travel in publish and volume contexts. */
  datatype Key =
    | TargetPortal | Portal | Iqn | TargetIQN | TargetIqn | Lun | LUN
    | NfsServer | SmbServer | Server | NfsExportPath | ExportPath | SmbShareName | ShareName

  type Context = map<Key, string>

  function FirstInContext(keys: seq<Key>, context: Context): string {
    if keys == [] then ""
    else if keys[0] in context && TrimSpace(context[keys[0]]) != "" then TrimSpace(context[keys[0]])
    else FirstInContext(keys[1..], context)
  }

  /** The first context that has any of the keys decides, and in it the first of the keys. */
  function FirstValue(keys: seq<Key>, contexts: seq<Context>): string {
    if contexts == [] then ""
    else if FirstInContext(keys, contexts[0]) != "" then FirstInContext(keys, contexts[0])
    else FirstValue(keys, contexts[1..])
  }

  method FirstContextValueForKeys(keys: seq<Key>, contexts: seq<Context>) returns (value: string)
    ensures value == FirstValue(keys, contexts)
  {
    for i := 0 to |contexts|
      invariant FirstValue(keys, contexts) == FirstValue(keys, contexts[i..])
    {
      for j := 0 to |keys|
        invariant FirstInContext(keys, contexts[i]) == FirstInContext(keys[j..], contexts[i])
      {
        assert keys[j..][1..] == keys[j + 1..];
        if keys[j] in contexts[i] && TrimSpace(contexts[i][keys[j]]) != "" {
          return TrimSpace(contexts[i][keys[j]]);
        }
      }
      assert contexts[i..][1..] == contexts[i + 1..];
    }
    return "";
  }

  const PORTAL_KEYS := [TargetPortal, Portal]
  const IQN_KEYS := [Iqn, TargetIQN, TargetIqn]
  const LUN_KEYS := [Lun, LUN]

  function ConnectionFrom(contexts: seq<Context>): Result<Connection> {
    var portal := FirstValue(PORTAL_KEYS, contexts);
    var iqn := FirstValue(IQN_KEYS, contexts);
    var lun := FirstValue(LUN_KEYS, contexts);
    if portal == "" || !ValidTargetPortal(portal) || iqn == "" || Atoi(lun).Err? || Atoi(lun).value < 0 then Err
    else Ok(Connection(portal, iqn, Atoi(lun).value))
  }

  /** volumeContextForVolumeID, as far as endpoints go. */
  function ContextOfID(v: VH.VolumeID): Context {
    match v.protocol
    case NFS => map[Server := v.nfsServer, NfsServer := v.nfsServer, ExportPath := v.nfsExportPath, NfsExportPath := v.nfsExportPath]
    case SMB => map[Server := v.smbServer, SmbServer := v.smbServer, ShareName := v.smbShareName, SmbShareName := v.smbShareName]
    case _ => map[TargetPortal := v.targetPortal, Iqn := v.targetIQN, Lun := Itoa(v.lun)]
  }

  /** volumeContextFromVolumeID: what the volume's own handle says, if it is one of this protocol. */
  function OwnContext(id: string, protocol: VH.Protocol): seq<Context> {
    match VH.Decoded(id)
    case Err => []
    case Ok(v) => if v.protocol == protocol then [ContextOfID(v)] else []
  }

  method VolumeContextFromVolumeID(id: string, protocol: VH.Protocol) returns (own: seq<Context>)
    ensures own == OwnContext(id, protocol)
  {
    var decoded := VH.DecodeVolumeID(id);
    if decoded.Err? || decoded.value.protocol != protocol { return []; }
    own := [ContextOfID(decoded.value)];
  }

  /** iscsiConnectionFromContexts: the context of the volume's own handle comes last. */
  method IscsiConnectionFromContexts(id: string, given: seq<Context>) returns (r: Result<Connection>)
    ensures r == ConnectionFrom(given + OwnContext(id, VH.ISCSI))
  {
    var own := VolumeContextFromVolumeID(id, VH.ISCSI);
    var contexts := given + own;
    var portal := FirstContextValueForKeys(PORTAL_KEYS, contexts);
    if portal == "" || !ValidTargetPortal(portal) { return Err; }
    var iqn := FirstContextValueForKeys(IQN_KEYS, contexts);
    if iqn == "" { return Err; }
    var lunText := FirstContextValueForKeys(LUN_KEYS, contexts);
    var lun := Atoi(lunText);
    if lun.Err? || lun.value < 0 { return Err; }
    return Ok(Connection(portal, iqn, lun.value));
  }

  /** A key has a value in a context: one that is not blank. */
  predicate Says(context: Context, key: Key, value: string) {
    key in context && value != "" && TrimSpace(context[key]) == value
  }

  predicate Silent(context: Context, keys: seq<Key>) {
    forall k :: 0 <= k < |keys| && keys[k] in context ==> TrimSpace(context[keys[k]]) == ""
  }

  lemma SilentAtFirst(context: Context, key: Key, keys: seq<Key>)
    requires key in context ==> TrimSpace(context[key]) == ""
    ensures Silent(context, [key] + keys) <==> Silent(context, keys)
  {
    assert forall k :: 0 <= k < |keys| ==> keys[k] == ([key] + keys)[k + 1];
  }

  lemma {:induction false} FirstInContextExactly(keys: seq<Key>, context: Context, value: string)
    requires value != ""
    ensures FirstInContext(keys, context) == value <==>
            exists k :: 0 <= k < |keys| && Silent(context, keys[..k]) && Says(context, keys[k], value)
    ensures FirstInContext(keys, context) == "" <==> Silent(context, keys)
    decreases |keys|
  {
    if keys != [] {
      var rest := keys[1..];
      FirstInContextExactly(rest, context, value);
      assert keys[..0] == [];
      if keys[0] in context && TrimSpace(context[keys[0]]) != "" {
        assert Silent(context, keys[..0]);
        assert forall k :: 0 < k < |keys| ==> keys[..k][0] == keys[0];
      } else {
        forall k | 0 < k < |keys| ensures Silent(context, keys[..k]) <==> Silent(context, rest[..k - 1]) {
          assert keys[..k] == [keys[0]] + rest[..k - 1];
          SilentAtFirst(context, keys[0], rest[..k - 1]);
        }
        assert forall k :: 0 <= k < |rest| ==> rest[k] == keys[k + 1];
        assert forall k :: 0 < k < |keys| ==> keys[k] == rest[k - 1];
      }
    }
  }

  /** The context that decides is the first in which any of the keys has a value. */
  lemma {:induction false} FirstValueExactly(keys: seq<Key>, contexts: seq<Context>, value: string)
    requires value != ""
    ensures FirstValue(keys, contexts) == value <==>
            exists i :: 0 <= i < |contexts| && (forall j :: 0 <= j < i ==> Silent(contexts[j], keys))
                        && FirstInContext(keys, contexts[i]) == value
    decreases |contexts|
  {
    if contexts != [] {
      var rest := contexts[1..];
      FirstValueExactly(keys, rest, value);
      FirstInContextExactly(keys, contexts[0], value);
      assert forall i :: 0 <= i < |rest| ==> rest[i] == contexts[i + 1];
      if i :| 0 <= i < |contexts| && (forall j :: 0 <= j < i ==> Silent(contexts[j], keys)) && FirstInContext(keys, contexts[i]) == value {
        if i > 0 {
          assert Silent(contexts[0], keys);
          assert rest[i - 1] == contexts[i];
        }
      }
      if FirstInContext(keys, contexts[0]) == "" {
        if i :| 0 <= i < |rest| && (forall j :: 0 <= j < i ==> Silent(rest[j], keys)) && FirstInContext(keys, rest[i]) == value {
          assert forall j :: 0 < j < i + 1 ==> contexts[j] == rest[j - 1];
          assert contexts[i + 1] == rest[i];
        }
      }
    }
  }

  /** The context ControllerPublishVolume answers with, and the one CreateVolume put in the volume. */
  function ContextOf(c: Connection): Context {
    map[TargetPortal := c.portal, Iqn := c.iqn, Lun := Itoa(c.lun)]
  }

  predicate Usable(c: Connection) {
    && Trimmed(c.portal) && ValidTargetPortal(c.portal) && Trimmed(c.iqn) && c.iqn != ""
    && 0 <= c.lun <= MAX_INT64
  }

  /** A context that names a connection decides, whatever comes after it. */
  lemma FirstContextDecides(c: Connection, others: seq<Context>)
    requires Usable(c)
    ensures ConnectionFrom([ContextOf(c)] + others) == Ok(c)
  {
    TrimSpaceSound(c.portal);
    TrimSpaceSound(c.iqn);
    ItoaIsTrimmed(c.lun);
    AtoiUndoesItoa(c.lun);
    var contexts := [ContextOf(c)] + others;
    assert contexts[0] == ContextOf(c);
    assert FirstInContext(PORTAL_KEYS, ContextOf(c)) == c.portal;
    assert FirstInContext(IQN_KEYS, ContextOf(c)) == c.iqn;
    assert FirstInContext(LUN_KEYS, ContextOf(c)) == Itoa(c.lun);
  }

  lemma ItoaIsTrimmed(n: nat)
    ensures TrimSpace(Itoa(n)) == Itoa(n) && Itoa(n) != ""
  {
    DigitsRoundTrip(n);
    TrimSpaceSound(Itoa(n));
  }

  // ---------- From creation to connection ----------

  /** A CreateVolume that succeeded, by the conditions it succeeds under. */
  ghost predicate Created(s: Storage, req: Request, found: Found, s': Storage) {
    && Finds(s, req.path, found) && !Refused(req, found) && "" !in s.targets
    && TargetChosen(req, found) != "" && EnsuredIqn(s, TargetChosen(req, found), IqnChosen(req, found)) != ""
    && RunAll(s, CreateScript(req, found)) == Ok(s')
  }

  /** What is on the host once a volume is created. */
  predicate Stands(s': Storage, target: string, iqn: string, path: string) {
    MapsTo(s', target, path) && path in s'.disks && s'.targets[target].iqn == iqn
  }

  lemma TargetStands(s: Storage, target: string, iqn: string, path: string)
    requires path in s.disks
    ensures var s2 := Ensured(s, target, iqn);
            && (MapsTo(s, target, path) ==> Stands(s2, target, EnsuredIqn(s, target, iqn), path))
            && (Apply(s2, AddMapping(target, path)).Ok? ==>
                  Stands(Apply(s2, AddMapping(target, path)).value, target, EnsuredIqn(s, target, iqn), path))
  {
  }

  /** Whatever CreateVolume found, the target it answers with maps the disk when it is through. */
  lemma CreatedIsMapped(s: Storage, req: Request, found: Found, s': Storage)
    requires Created(s, req, found, s')
    ensures Stands(s', TargetChosen(req, found), EnsuredIqn(s, TargetChosen(req, found), IqnChosen(req, found)), req.path)
  {
    var target, iqn := TargetChosen(req, found), IqnChosen(req, found);
    var ensure := [NewTarget(target), SetIqn(target, iqn)];
    var disk := if found.Absent? then [NewDisk(req.path, req.size)] else [];
    var map' := if found.Present? && found.mapping.Some? then [] else [AddMapping(target, req.path)];
    assert CreateScript(req, found) == disk + ensure + map';
    RunAllSplit(s, disk + ensure, map');
    RunAllSplit(s, disk, ensure);
    var s1 := RunAll(s, disk).value;
    assert req.path in s1.disks && s1.targets == s.targets by {
      assert disk != [] ==> RunAll(s, disk) == RunAll(Apply(s, disk[0]).value, []);
    }
    EnsureTargetWorks(s1, target, iqn);
    TargetStands(s1, target, iqn, req.path);
    if map' != [] {
      var s2 := Ensured(s1, target, iqn);
      assert RunAll(s2, map') == RunAll(Apply(s2, map'[0]).value, map'[1..]);
    }
  }

  /** IQNs on a Windows host have no space at either end. */
  predicate TrimmedIqns(s: Storage) {
    forall t :: t in s.targets ==> Trimmed(s.targets[t].iqn)
  }

  lemma EnsuredIqnIsTrimmed(s: Storage, req: Request, found: Found)
    requires TrimmedIqns(s) && Trimmed(req.iqn) && Finds(s, req.path, found)
    ensures Trimmed(EnsuredIqn(s, TargetChosen(req, found), IqnChosen(req, found)))
  {
    var d := DefaultIqn(TargetChosen(req, found));
    assert d[0] == 'i' && d[|d| - 1] == 't';
  }

  /** The record in the handle CreateVolume issues. */
  function RecordOf(h: Handle): LegacyHandle.LegacyID {
    LegacyHandle.LegacyID(h.vol, h.portal, h.target, h.iqn, h.lun, h.path, h.size)
  }

  /** What ControllerPublishVolume reads in a handle and answers with. */
  function PublishContext(json: LegacyHandle.Json, id: string): Context
    requires LegacyHandle.DecodeAny(json, id).Ok?
  {
    var (v, record) := LegacyHandle.DecodeAny(json, id).value;
    if v.protocol.NFS? || v.protocol.SMB? then ContextOfID(v)
    else ContextOf(Connection(record.targetPortal, record.targetIQN, record.lun))
  }

  /** A handle travels to the node whole: the publish context made from it is that of its connection. */
  lemma HandleNamesConnection(h: Handle, json: LegacyHandle.Json)
    requires LegacyHandle.IsCodec(json)
    ensures var id := LegacyHandle.EncodeLegacy(json, RecordOf(h));
            && LegacyHandle.DecodeAny(json, id).Ok?
            && PublishContext(json, id) == ContextOf(Connection(h.portal, h.iqn, h.lun))
  {
    LegacyHandle.LegacyRoundTrip(json, RecordOf(h));
  }

  /**
   * The node connects to what was created: from the publish context, or from the volume context
   * when there is none, it gets the address made of the StorageClass's portal and port, the IQN of
   * the target that maps the disk, and LUN 0, whatever other contexts say. It refuses the volume if
   * and only if the portal, though it was accepted for the StorageClass, has a stray bracket.
   */
  lemma NodeConnectsToCreated(targetPortal: string, port: int, s: Storage, req: Request, found: Found, s': Storage,
                              others: seq<Context>, json: LegacyHandle.Json)
    requires ValidTargetPortal(targetPortal) && ValidPort(port) && req.portal == TargetPortalAddress(targetPortal, port)
    requires Created(s, req, found, s') && TrimmedIqns(s) && Trimmed(req.iqn) && LegacyHandle.IsCodec(json)
    ensures TargetChosen(req, found) in s'.targets && req.path in s'.disks
    ensures var v := CreateReply(req, found, s');
            var id := LegacyHandle.EncodeLegacy(json, RecordOf(v.handle));
            var expected := Connection(req.portal, s'.targets[v.handle.target].iqn, 0);
            var outcome := if Addressable(TrimSpace(targetPortal)) then Ok(expected) else Err;
            && LegacyHandle.DecodeAny(json, id).Ok?
            && ConnectionFrom([PublishContext(json, id)] + others) == outcome
            && ConnectionFrom([ContextOf(v.context)] + others) == outcome
            && MapsTo(s', v.handle.target, req.path)
  {
    CreatedIsMapped(s, req, found, s');
    EnsuredIqnIsTrimmed(s, req, found);
    AddressValidExactly(targetPortal, port);
    var v := CreateReply(req, found, s');
    HandleNamesConnection(v.handle, json);
    if Addressable(TrimSpace(targetPortal)) {
      FirstContextDecides(v.context, others);
    } else {
      InvalidPortalIsRefused(v.context, others);
    }
  }

  /** The first context decides also when what it says is refused. */
  lemma InvalidPortalIsRefused(c: Connection, others: seq<Context>)
    requires c.portal != "" && Trimmed(c.portal) && !ValidTargetPortal(c.portal)
    ensures ConnectionFrom([ContextOf(c)] + others) == Err
  {
    TrimSpaceSound(c.portal);
    var contexts := [ContextOf(c)] + others;
    assert contexts[0] == ContextOf(c);
    assert FirstInContext(PORTAL_KEYS, ContextOf(c)) == c.portal;
  }

  lemma OwnContextOfHandle(v: VH.VolumeID)
    requires HandleRoundTrip.InScope(v) && HandleRoundTrip.WellFormed(v)
    ensures OwnContext(VH.Encoded(v), v.protocol) == [ContextOfID(v)]
  {
    HandleRoundTrip.RoundTripExactly(v);
  }

  /** A well-formed handle in URI form is all the node needs. */
  lemma HandleAloneConnects(v: VH.VolumeID)
    requires v.protocol.ISCSI? && HandleRoundTrip.InScope(v) && HandleRoundTrip.WellFormed(v)
    requires ValidTargetPortal(v.targetPortal) && v.lun >= 0
    ensures ConnectionFrom(OwnContext(VH.Encoded(v), VH.ISCSI)) == Ok(Connection(v.targetPortal, v.targetIQN, v.lun))
  {
    OwnContextOfHandle(v);
    IscsiContextDecides(v, OwnContext(VH.Encoded(v), VH.ISCSI));
  }

  lemma IscsiContextDecides(v: VH.VolumeID, contexts: seq<Context>)
    requires v.protocol.ISCSI? && contexts == [ContextOfID(v)] && HandleRoundTrip.WellFormed(v)
    requires ValidTargetPortal(v.targetPortal) && 0 <= v.lun <= MAX_INT64
    ensures ConnectionFrom(contexts) == Ok(Connection(v.targetPortal, v.targetIQN, v.lun))
  {
    var c := Connection(v.targetPortal, v.targetIQN, v.lun);
    assert contexts == [ContextOf(c)] + [];
    FirstContextDecides(c, []);
  }

  // ---------- File shares ----------

  /** fileShareVolumeID and applyNfsOptionsToVolumeID: the handle of a VHDX-backed share. */
  function ShareID(h: FileShares.FileHandle, authentication: string, mountAuthentication: string): VH.VolumeID {
    var v := VH.BLANK.(name := h.share.name, shareBackend := "vhdx", sharePath := h.dir, vhdxPath := h.vhdx,
                       capacityBytes := h.capacity);
    match h.share.kind
    case Nfs =>
      v.(protocol := VH.NFS, nfsServer := h.server, nfsExportPath := "/" + h.share.name,
         nfsAuthentication := authentication, nfsMountAuthentication := mountAuthentication)
    case Smb => v.(protocol := VH.SMB, smbServer := h.server, smbShareName := h.share.name)
  }

  /** A share name that a handle can hold: in a path of NFS or as the one segment of SMB. */
  predicate ShareNameSurvives(share: FileShares.Share) {
    && !VH.IsBlank(share.name)
    && match share.kind
       case Nfs => HandleRoundTrip.PathSurvives("/" + share.name)
       case Smb => HandleRoundTrip.SegmentSurvives(share.name)
  }

  /** Names of letters, digits, '-', '_', '.' and '~', such as those of claims, survive. */
  lemma UnreservedNameSurvives(share: FileShares.Share)
    requires share.name != "" && forall c :: c in share.name ==> Escapes.IsUnreserved(c)
    ensures ShareNameSurvives(share)
  {
    var name := share.name;
    assert name[0] in name && name[|name| - 1] in name && '/' !in name && '%' !in name;
    TrimSpaceSound(name);
    assert ("/" + name)[1..] == name && Split(name, '/') == [name];
  }

  lemma SurvivingNameIsTrimmed(share: FileShares.Share)
    requires ShareNameSurvives(share)
    ensures share.kind.Nfs? ==> TrimSpace("/" + share.name) == "/" + share.name
    ensures share.kind.Smb? ==> TrimSpace(share.name) == share.name
  {
    TrimSpaceSound(share.name);
    if share.kind.Nfs? { HandleRoundTrip.SurvivingPathIsNoRoot("/" + share.name); }
  }

  /** Such a handle comes back if and only if the share's name survives and the server may stand in a URL. */
  lemma ShareIDWellFormedExactly(h: FileShares.FileHandle, authentication: string, mountAuthentication: string)
    requires h.capacity >= 0
    ensures HandleRoundTrip.WellFormed(ShareID(h, authentication, mountAuthentication)) <==>
            ShareNameSurvives(h.share) && !VH.IsBlank(h.server) && ParseHost(TrimSpace(h.server)).Ok?
  {
    assert TrimSpace("") == "";
    if ShareNameSurvives(h.share) { SurvivingNameIsTrimmed(h.share); }
  }

  /** What stageFileShareVolume mounts; the context of the volume's own handle comes last. */
  function MountSource(kind: FileShares.Kind, given: seq<Context>, id: string): Result<string> {
    SourceFrom(kind, given + OwnContext(id, if kind.Nfs? then VH.NFS else VH.SMB))
  }

  function SourceFrom(kind: FileShares.Kind, contexts: seq<Context>): Result<string> {
    match kind
    case Nfs =>
      var server, path := FirstValue([NfsServer, Server], contexts), FirstValue([NfsExportPath, ExportPath], contexts);
      if server == "" || path == "" then Err else Ok(server + ":" + path)
    case Smb =>
      var server, share := FirstValue([SmbServer, Server], contexts), FirstValue([SmbShareName, ShareName], contexts);
      if server == "" || share == "" then Err else Ok("//" + server + "/" + share)
  }

  /** The share as the node addresses it. */
  function SourceOf(h: FileShares.FileHandle): string {
    match h.share.kind
    case Nfs => TrimSpace(h.server) + ":" + ("/" + h.share.name)
    case Smb => "//" + TrimSpace(h.server) + "/" + h.share.name
  }

  /** The context of a share comes first and decides. */
  lemma ShareContextDecides(h: FileShares.FileHandle, v: VH.VolumeID, others: seq<Context>, id: string)
    requires ShareNameSurvives(h.share) && !VH.IsBlank(h.server)
    requires h.share.kind.Nfs? ==> v.protocol.NFS? && v.nfsServer == h.server && v.nfsExportPath == "/" + h.share.name
    requires h.share.kind.Smb? ==> v.protocol.SMB? && v.smbServer == h.server && v.smbShareName == h.share.name
    ensures MountSource(h.share.kind, [ContextOfID(v)] + others, id) == Ok(SourceOf(h))
    ensures OwnContext(id, v.protocol) == [ContextOfID(v)] ==> MountSource(h.share.kind, [], id) == Ok(SourceOf(h))
  {
    var own := OwnContext(id, v.protocol);
    assert [ContextOfID(v)] + others + own == [ContextOfID(v)] + (others + own);
    assert [] + [ContextOfID(v)] == [ContextOfID(v)] + [];
    ShareContextComesFirst(h, v, others + own);
    ShareContextComesFirst(h, v, []);
  }

  lemma ShareContextComesFirst(h: FileShares.FileHandle, v: VH.VolumeID, rest: seq<Context>)
    requires ShareNameSurvives(h.share) && !VH.IsBlank(h.server)
    requires h.share.kind.Nfs? ==> v.protocol.NFS? && v.nfsServer == h.server && v.nfsExportPath == "/" + h.share.name
    requires h.share.kind.Smb? ==> v.protocol.SMB? && v.smbServer == h.server && v.smbShareName == h.share.name
    ensures SourceFrom(h.share.kind, [ContextOfID(v)] + rest) == Ok(SourceOf(h))
  {
    SurvivingNameIsTrimmed(h.share);
    TrimSpaceSound(h.server);
    ContextSays(h, v);
    assert ([ContextOfID(v)] + rest)[0] == ContextOfID(v);
  }

  lemma ContextSays(h: FileShares.FileHandle, v: VH.VolumeID)
    requires ShareNameSurvives(h.share) && !VH.IsBlank(h.server)
    requires h.share.kind.Nfs? ==> v.protocol.NFS? && v.nfsServer == h.server && v.nfsExportPath == "/" + h.share.name
    requires h.share.kind.Smb? ==> v.protocol.SMB? && v.smbServer == h.server && v.smbShareName == h.share.name
    ensures h.share.kind.Nfs? ==>
              && FirstInContext([NfsServer, Server], ContextOfID(v)) == TrimSpace(h.server)
              && FirstInContext([NfsExportPath, ExportPath], ContextOfID(v)) == "/" + h.share.name
    ensures h.share.kind.Smb? ==>
              && FirstInContext([SmbServer, Server], ContextOfID(v)) == TrimSpace(h.server)
              && FirstInContext([SmbShareName, ShareName], ContextOfID(v)) == h.share.name
  {
    SurvivingNameIsTrimmed(h.share);
  }

  lemma SameContext(v: VH.VolumeID, w: VH.VolumeID)
    requires HandleRoundTrip.SameExported(v, w)
    ensures ContextOfID(v) == ContextOfID(w) && v.protocol == w.protocol
  {
  }

  lemma PublishedShare(v: VH.VolumeID, json: LegacyHandle.Json)
    requires HandleRoundTrip.InScope(v) && HandleRoundTrip.WellFormed(v) && (v.protocol.NFS? || v.protocol.SMB?)
    ensures var id := VH.Encoded(v); LegacyHandle.DecodeAny(json, id).Ok? && PublishContext(json, id) == ContextOfID(v)
  {
    LegacyHandle.UriThroughEither(json, v);
    SameContext(v, LegacyHandle.DecodeAny(json, VH.Encoded(v)).value.0);
  }

  /**
   * The node mounts the share that was created, whatever other contexts say: from the volume
   * context, from the publish context ControllerPublishVolume makes of the handle it decodes, and
   * from the handle alone.
   */
  lemma NodeMountsCreatedShare(h: FileShares.FileHandle, authentication: string, mountAuthentication: string,
                               others: seq<Context>, json: LegacyHandle.Json)
    requires h.capacity >= 0 && HandleRoundTrip.InScope(ShareID(h, authentication, mountAuthentication))
    requires ShareNameSurvives(h.share) && !VH.IsBlank(h.server) && ParseHost(TrimSpace(h.server)).Ok?
    ensures var v := ShareID(h, authentication, mountAuthentication);
            var id := VH.Encoded(v);
            && MountSource(h.share.kind, [ContextOfID(v)] + others, id) == Ok(SourceOf(h))
            && LegacyHandle.DecodeAny(json, id).Ok?
            && MountSource(h.share.kind, [PublishContext(json, id)] + others, id) == Ok(SourceOf(h))
            && MountSource(h.share.kind, [], id) == Ok(SourceOf(h))
  {
    var v := ShareID(h, authentication, mountAuthentication);
    ShareIDWellFormedExactly(h, authentication, mountAuthentication);
    OwnContextOfHandle(v);
    PublishedShare(v, json);
    ShareContextDecides(h, v, others, VH.Encoded(v));
  }
}
