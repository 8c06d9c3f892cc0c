/** Volume handles in URI form: how they are printed and how they are read back. */
module VolumeHandle {
  import opened Results
  import opened Strings
  import opened Escapes
  import opened Urls

  /** The protocol of a handle; any other scheme is kept as it stands. */
  datatype Protocol = ISCSI | NFS | SMB | Other(name: string)

  function Scheme(p: Protocol): string {
    match p
    case ISCSI => "iscsi"
    case NFS => "nfs"
    case SMB => "smb"
    case Other(name) => name
  }

  function ProtocolOf(scheme: string): Protocol {
    if scheme == "iscsi" then ISCSI
    else if scheme == "nfs" then NFS
    else if scheme == "smb" then SMB
    else Other(scheme)
  }

  /** `nameSpecified` and `lunSpecified` are not exported: they only tell Validate what was read. */
  datatype VolumeID = VolumeID(
    name: string, protocol: Protocol, shareBackend: string, sharePath: string,
    targetPortal: string, targetName: string, targetIQN: string, lun: int, vhdxPath: string,
    nfsServer: string, nfsExportPath: string, nfsAuthentication: string, nfsMountAuthentication: string,
    smbServer: string, smbShareName: string, capacityBytes: int,
    nameSpecified: bool, lunSpecified: bool)

  const BLANK := VolumeID("", Other(""), "", "", "", "", "", 0, "", "", "", "", "", "", "", 0, false, false)

  /** Every query key a handle can have. */
  datatype Key =
    | CapacityBytes | Name | NfsAuthentication | NfsMountAuthentication | NfsServer | ShareBackend | SharePath
    | SmbServer | TargetName | TargetPortal | VhdxPath

  type Query = map<Key, string>

  function Text(key: Key): string {
    match key
    case CapacityBytes => "capacityBytes"
    case Name => "name"
    case NfsAuthentication => "nfsAuthentication"
    case NfsMountAuthentication => "nfsMountAuthentication"
    case NfsServer => "nfsServer"
    case ShareBackend => "shareBackend"
    case SharePath => "sharePath"
    case SmbServer => "smbServer"
    case TargetName => "targetName"
    case TargetPortal => "targetPortal"
    case VhdxPath => "vhdxPath"
  }

  /** The keys in the order of their texts, in which they are printed. */
  const KEYS := [CapacityBytes, Name, NfsAuthentication, NfsMountAuthentication, NfsServer, ShareBackend, SharePath,
                 SmbServer, TargetName, TargetPortal, VhdxPath]

  /** url.Values.Encode: the pairs in the order of their keys. */
  function PairsOf(q: Query, keys: seq<Key>): Pairs {
    if keys == [] then []
    else (if keys[0] in q then [(Text(keys[0]), q[keys[0]])] else []) + PairsOf(q, keys[1..])
  }

  function Value(q: Pairs, key: Key): string {
    Get(q, Text(key))
  }

  // ---------- Paths ----------

  function NonBlank(segments: seq<string>): seq<string> {
    if segments == [] then []
    else (if TrimSpace(segments[0]) == "" then [] else [TrimSpace(segments[0])]) + NonBlank(segments[1..])
  }

  function EscapeAll(segments: seq<string>): seq<string> {
    if segments == [] then [] else [Escape(segments[0], Segment)] + EscapeAll(segments[1..])
  }

  /** "" or the segments, each after a slash. */
  function PathOf(segments: seq<string>): string {
    if segments == [] then "" else "/" + Join(segments, '/')
  }

  function Pieces(parts: seq<string>): seq<string> {
    if parts == [] then []
    else (if parts[0] == "" then [] else [UnescapeIfPossible(parts[0])]) + Pieces(parts[1..])
  }

  /** The non-empty pieces between slashes, unescaped where possible. */
  function PathSegments(path: string): seq<string> {
    Pieces(Split(path, '/'))
  }

  function TrimSlashesLeft(s: string): string {
    if s != "" && s[0] == '/' then TrimSlashesLeft(s[1..]) else s
  }

  function TrimSlashesRight(s: string): string
    decreases |s|
  {
    if s != "" && s[|s| - 1] == '/' then TrimSlashesRight(s[..|s| - 1]) else s
  }

  lemma {:induction false} NonBlankConcat(a: seq<string>, b: seq<string>)
    ensures NonBlank(a + b) == NonBlank(a) + NonBlank(b)
    decreases |a|
  {
    if a == [] {
      assert a + b == b;
    } else {
      assert (a + b)[0] == a[0] && (a + b)[1..] == a[1..] + b;
      NonBlankConcat(a[1..], b);
    }
  }

  lemma {:induction false} EscapeAllConcat(a: seq<string>, b: seq<string>)
    ensures EscapeAll(a + b) == EscapeAll(a) + EscapeAll(b)
    decreases |a|
  {
    if a == [] {
      assert a + b == b;
    } else {
      assert (a + b)[0] == a[0] && (a + b)[1..] == a[1..] + b;
      EscapeAllConcat(a[1..], b);
    }
  }

  lemma {:induction false} PiecesConcat(a: seq<string>, b: seq<string>)
    ensures Pieces(a + b) == Pieces(a) + Pieces(b)
    decreases |a|
  {
    if a == [] {
      assert a + b == b;
    } else {
      assert (a + b)[0] == a[0] && (a + b)[1..] == a[1..] + b;
      PiecesConcat(a[1..], b);
    }
  }

  lemma {:induction false} SplitConcat(a: string, c: char, b: string)
    ensures Split(a + [c] + b, c) == Split(a, c) + Split(b, c)
    decreases |a|
  {
    var s := a + [c] + b;
    if c in a {
      CutsAt(a, c);
      var first, rest := Before(a, c), After(a, c);
      assert s == first + [c] + (rest + [c] + b);
      CutAtFirst(first, c, rest + [c] + b);
      SplitConcat(rest, c, b);
    } else {
      CutAtFirst(a, c, b);
    }
  }

  /** Leading and trailing slashes make no segments. */
  lemma {:induction false} LeadingSlashesVanish(s: string)
    ensures PathSegments(TrimSlashesLeft(s)) == PathSegments(s)
  {
    if s != "" && s[0] == '/' {
      LeadingSlashesVanish(s[1..]);
      assert s == "" + ['/'] + s[1..];
      SplitConcat("", '/', s[1..]);
      PiecesConcat([""], Split(s[1..], '/'));
    }
  }

  lemma {:induction false} TrailingSlashesVanish(s: string)
    ensures PathSegments(TrimSlashesRight(s)) == PathSegments(s)
    decreases |s|
  {
    if s != "" && s[|s| - 1] == '/' {
      var t := s[..|s| - 1];
      TrailingSlashesVanish(t);
      assert s == t + ['/'] + "";
      SplitConcat(t, '/', "");
      PiecesConcat(Split(t, '/'), [""]);
      assert Pieces([""]) == [];
    }
  }

  /** pathSegments: trims the slashes, splits, and drops what is empty. */
  method PathSegmentsOf(path: string) returns (segments: seq<string>)
    ensures segments == PathSegments(path)
  {
    var trimmed := TrimSlashesRight(TrimSlashesLeft(path));
    LeadingSlashesVanish(path);
    TrailingSlashesVanish(TrimSlashesLeft(path));
    var raw := Split(trimmed, '/');
    segments := [];
    for i := 0 to |raw|
      invariant segments == Pieces(raw[..i])
    {
      assert raw[..i + 1] == raw[..i] + [raw[i]];
      PiecesConcat(raw[..i], [raw[i]]);
      if raw[i] != "" {
        segments := segments + [UnescapeIfPossible(raw[i])];
      }
    }
    assert raw[..|raw|] == raw;
  }

  // ---------- Printing ----------

  function URIOf(protocol: Protocol, host: string, segments: seq<string>, q: Query): string {
    var query := EncodeQuery(PairsOf(q, KEYS));
    Scheme(protocol) + "://" + host + PathOf(EscapeAll(NonBlank(segments))) + (if query == "" then "" else "?" + query)
  }

  /** Trims and escapes the segments, dropping blank ones. */
  method EscapeSegments(segments: seq<string>) returns (escaped: seq<string>)
    ensures escaped == EscapeAll(NonBlank(segments))
  {
    escaped := [];
    for i := 0 to |segments|
      invariant escaped == EscapeAll(NonBlank(segments[..i]))
    {
      assert segments[..i + 1] == segments[..i] + [segments[i]];
      NonBlankConcat(segments[..i], [segments[i]]);
      EscapeAllConcat(NonBlank(segments[..i]), NonBlank([segments[i]]));
      var segment := TrimSpace(segments[i]);
      if segment != "" {
        escaped := escaped + [Escape(segment, Segment)];
      }
    }
    assert segments[..|segments|] == segments;
  }

  method BuildURI(protocol: Protocol, host: string, segments: seq<string>, q: Query) returns (uri: string)
    ensures uri == URIOf(protocol, host, segments, q)
  {
    var escaped := EscapeSegments(segments);
    uri := Scheme(protocol) + "://" + host;
    if escaped != [] { uri := uri + ("/" + Join(escaped, '/')); }
    var encoded := EncodeQuery(PairsOf(q, KEYS));
    if encoded != "" { uri := uri + ("?" + encoded); }
  }

  predicate ShouldEncodeLUN(v: VolumeID) {
    v.lun != 0 || v.vhdxPath != "" || v.capacityBytes != 0
  }

  function With(q: Query, key: Key, value: string): Query {
    if value == "" then q else q[key := value]
  }

  function CapacityText(v: VolumeID): string {
    if v.capacityBytes == 0 then "" else Itoa(v.capacityBytes)
  }

  function CommonQuery(v: VolumeID): Query {
    With(With(With(With(With(map[Name := v.name], CapacityBytes, CapacityText(v)), VhdxPath, v.vhdxPath),
                   ShareBackend, v.shareBackend), SharePath, v.sharePath), TargetName, v.targetName)
  }

  function QueryOf(v: VolumeID): Query {
    var q := CommonQuery(v);
    if v.protocol.NFS? then
      With(With(With(if TrimSpace(v.targetPortal) == "" then q else q[TargetPortal := v.targetPortal],
                     NfsServer, v.nfsServer), NfsAuthentication, v.nfsAuthentication),
           NfsMountAuthentication, v.nfsMountAuthentication)
    else if v.protocol.SMB? then With(q, SmbServer, v.smbServer)
    else q
  }

  function HostOf(v: VolumeID): string {
    if v.protocol.ISCSI? then TrimSpace(v.targetPortal)
    else if v.protocol.NFS? then
      if TrimSpace(v.targetPortal) == "" then TrimSpace(v.nfsServer) else TrimSpace(v.targetPortal)
    else if v.protocol.SMB? then TrimSpace(v.smbServer)
    else ""
  }

  function SegmentsOf(v: VolumeID): seq<string> {
    if v.protocol.ISCSI? then
      [TrimSpace(v.targetIQN)] + (if ShouldEncodeLUN(v) then ["lun", Itoa(v.lun)] else [])
    else if v.protocol.NFS? then PathSegments(v.nfsExportPath)
    else if v.protocol.SMB? then [TrimSpace(v.smbShareName)]
    else []
  }

  function Encoded(v: VolumeID): string {
    URIOf(v.protocol, HostOf(v), SegmentsOf(v), QueryOf(v))
  }

  method EncodeVolumeID(v: VolumeID) returns (id: string)
    ensures id == Encoded(v)
  {
    var q := map[Name := v.name];
    if v.capacityBytes != 0 { q := q[CapacityBytes := Itoa(v.capacityBytes)]; }
    if v.vhdxPath != "" { q := q[VhdxPath := v.vhdxPath]; }
    if v.shareBackend != "" { q := q[ShareBackend := v.shareBackend]; }
    if v.sharePath != "" { q := q[SharePath := v.sharePath]; }
    if v.targetName != "" { q := q[TargetName := v.targetName]; }
    ItoaIsNotEmpty(v.capacityBytes);
    assert q == CommonQuery(v);

    if v.protocol.ISCSI? {
      var segments := [TrimSpace(v.targetIQN)];
      if ShouldEncodeLUN(v) { segments := segments + ["lun", Itoa(v.lun)]; }
      assert segments == SegmentsOf(v);
      id := BuildURI(ISCSI, TrimSpace(v.targetPortal), segments, q);
    } else if v.protocol.NFS? {
      var host := TrimSpace(v.targetPortal);
      if host == "" {
        host := TrimSpace(v.nfsServer);
      } else {
        q := q[TargetPortal := v.targetPortal];
      }
      if v.nfsServer != "" { q := q[NfsServer := v.nfsServer]; }
      if v.nfsAuthentication != "" { q := q[NfsAuthentication := v.nfsAuthentication]; }
      if v.nfsMountAuthentication != "" { q := q[NfsMountAuthentication := v.nfsMountAuthentication]; }
      var segments := PathSegmentsOf(v.nfsExportPath);
      id := BuildURI(NFS, host, segments, q);
    } else if v.protocol.SMB? {
      if v.smbServer != "" { q := q[SmbServer := v.smbServer]; }
      id := BuildURI(SMB, TrimSpace(v.smbServer), [TrimSpace(v.smbShareName)], q);
    } else {
      id := BuildURI(v.protocol, "", [], q);
    }
  }

  lemma ItoaIsNotEmpty(n: int)
    ensures Itoa(n) != "" && forall i :: 0 <= i < |Itoa(n)| ==> IsDigit(Itoa(n)[i]) || Itoa(n)[i] == '-'
  {
    DigitsRoundTrip(if n < 0 then -n else n);
  }

  // ---------- Reading ----------

  /** None for a handle whose authority is empty: its scheme is then taken as it stands. */
  function ParseProtocol(id: string): Result<Option<Protocol>> {
    if TrimSpace(id) == "" || '\0' in id then Err
    else
      var sep := Index(id, "://");
      if sep <= 0 || sep + 3 >= |id| then Err
      else if id[sep + 3] == '/' then Ok(None)
      else if ProtocolOf(id[..sep]).Other? then Err
      else Ok(Some(ProtocolOf(id[..sep])))
  }

  predicate IsBlank(s: string) {
    TrimSpace(s) == ""
  }

  predicate Validate(v: VolumeID) {
    && !(v.nameSpecified && IsBlank(v.name)) && v.capacityBytes >= 0
    && if v.protocol.ISCSI? then !IsBlank(v.targetPortal) && !IsBlank(v.targetIQN) && v.lunSpecified
       else if v.protocol.NFS? then
         !IsBlank(v.nfsServer) && !IsBlank(v.nfsExportPath) && TrimSpace(v.nfsExportPath) != "/"
       else if v.protocol.SMB? then !IsBlank(v.smbServer) && !IsBlank(v.smbShareName)
       else false
  }

  function DefaultPort(host: string, port: string): string {
    if host == "" || ':' in host then host else JoinHostPort(host, port)
  }

  function HostOnly(host: string): string {
    match SplitHostPort(host)
    case Ok((h, _)) => h
    case Err => host
  }

  /** capacityBytes may be missing; it must not be negative. */
  function Capacity(q: Pairs): Result<int> {
    var text := TrimSpace(Value(q, CapacityBytes));
    if text == "" then Ok(0)
    else
      match Atoi(text)
      case Err => Err
      case Ok(n) => if n < 0 then Err else Ok(n)
  }

  /** The number after the first "lun" segment that is followed by anything. */
  function LUNFrom(parts: seq<string>, i: nat): Result<Option<int>>
    decreases |parts| - i
  {
    if i + 1 >= |parts| then Ok(None)
    else if parts[i] == "lun" then
      match Atoi(parts[i + 1])
      case Err => Err
      case Ok(n) => Ok(Some(n))
    else LUNFrom(parts, i + 1)
  }

  function FirstOf(parts: seq<string>): string {
    if parts == [] then "" else parts[0]
  }

  function WithProtocolFields(v: VolumeID, u: URL, q: Pairs): Result<VolumeID> {
    if v.protocol.ISCSI? then
      var parts := PathSegments(u.path);
      match LUNFrom(parts, 1)
      case Err => Err
      case Ok(lun) =>
        Ok(v.(targetPortal := DefaultPort(u.host, "3260"), targetIQN := FirstOf(parts),
              lun := if lun.Some? then lun.value else 0, lunSpecified := lun.Some?))
    else if v.protocol.NFS? then
      Ok(v.(targetPortal := Value(q, TargetPortal),
            nfsServer := if Value(q, NfsServer) != "" then Value(q, NfsServer) else HostOnly(u.host),
            nfsAuthentication := Value(q, NfsAuthentication),
            nfsMountAuthentication := Value(q, NfsMountAuthentication), nfsExportPath := u.path))
    else if v.protocol.SMB? then
      Ok(v.(smbServer := if Value(q, SmbServer) != "" then Value(q, SmbServer) else HostOnly(u.host),
            smbShareName := FirstOf(PathSegments(u.path))))
    else Ok(v)
  }

  /** What is read before the protocol matters. */
  function CommonFields(protocol: Protocol, q: Pairs, capacity: int): VolumeID {
    BLANK.(protocol := protocol, name := Value(q, Name), nameSpecified := Has(q, Text(Name)),
           capacityBytes := capacity, vhdxPath := Value(q, VhdxPath), shareBackend := Value(q, ShareBackend),
           sharePath := Value(q, SharePath), targetName := Value(q, TargetName))
  }

  function Checked(r: Result<VolumeID>): Result<VolumeID> {
    if r.Ok? && Validate(r.value) then r else Err
  }

  function FromURL(protocol: Protocol, u: URL): Result<VolumeID> {
    var q := ParseQuery(u.rawQuery);
    match Capacity(q)
    case Err => Err
    case Ok(capacity) => Checked(WithProtocolFields(CommonFields(protocol, q, capacity), u, q))
  }

  function KnownOr(protocol: Option<Protocol>, scheme: string): Protocol {
    if protocol.Some? then protocol.value else ProtocolOf(scheme)
  }

  function SchemeOf(id: string): string {
    var sep := Index(id, "://");
    if sep < 0 then "" else id[..sep]
  }

  function Decoded(id: string): Result<VolumeID> {
    var protocol, parsed := ParseProtocol(id), Parse(id);
    if protocol.Err? || parsed.Err? then Err else FromURL(KnownOr(protocol.value, SchemeOf(id)), parsed.value)
  }

  method FindLUN(parts: seq<string>) returns (r: Result<Option<int>>)
    ensures r == LUNFrom(parts, 1)
  {
    var i := 1;
    while i + 1 < |parts|
      invariant 1 <= i
      invariant LUNFrom(parts, i) == LUNFrom(parts, 1)
    {
      if parts[i] == "lun" {
        var lun := Atoi(parts[i + 1]);
        return if lun.Err? then Err else Ok(Some(lun.value));
      }
      i := i + 1;
    }
    return Ok(None);
  }

  method ReadProtocolFields(v: VolumeID, u: URL, q: Pairs) returns (r: Result<VolumeID>)
    requires v.lun == 0 && !v.lunSpecified && v.targetIQN == "" && v.smbShareName == ""
    ensures r == WithProtocolFields(v, u, q)
  {
    var out := v;
    if v.protocol.ISCSI? {
      out := out.(targetPortal := DefaultPort(u.host, "3260"));
      var parts := PathSegmentsOf(u.path);
      if |parts| > 0 { out := out.(targetIQN := parts[0]); }
      var lun := FindLUN(parts);
      if lun.Err? { return Err; }
      if lun.value.Some? { out := out.(lun := lun.value.value, lunSpecified := true); }
    } else if v.protocol.NFS? {
      out := out.(targetPortal := Value(q, TargetPortal), nfsServer := Value(q, NfsServer));
      if out.nfsServer == "" { out := out.(nfsServer := HostOnly(u.host)); }
      out := out.(nfsAuthentication := Value(q, NfsAuthentication),
                  nfsMountAuthentication := Value(q, NfsMountAuthentication), nfsExportPath := u.path);
    } else if v.protocol.SMB? {
      out := out.(smbServer := Value(q, SmbServer));
      if out.smbServer == "" { out := out.(smbServer := HostOnly(u.host)); }
      var parts := PathSegmentsOf(u.path);
      if |parts| > 0 { out := out.(smbShareName := parts[0]); }
    }
    return Ok(out);
  }

  method DecodeVolumeID(id: string) returns (r: Result<VolumeID>)
    ensures r == Decoded(id)
  {
    var protocol := ParseProtocol(id);
    if protocol.Err? { return Err; }
    var proto := KnownOr(protocol.value, SchemeOf(id));
    var parsed := Parse(id);
    if parsed.Err? { return Err; }
    var u := parsed.value;
    var q := ParseQuery(u.rawQuery);

    var out := BLANK.(protocol := proto);
    if Has(q, Text(Name)) {
      out := out.(name := Value(q, Name), nameSpecified := true);
    }
    NotHad(q, Text(Name));
    var capRaw := TrimSpace(Value(q, CapacityBytes));
    if capRaw != "" {
      var capacity := Atoi(capRaw);
      if capacity.Err? || capacity.value < 0 { return Err; }
      out := out.(capacityBytes := capacity.value);
    }
    out := out.(vhdxPath := Value(q, VhdxPath), shareBackend := Value(q, ShareBackend),
                sharePath := Value(q, SharePath), targetName := Value(q, TargetName));

    var read := ReadProtocolFields(out, u, q);
    if read.Err? { return Err; }
    out := read.value;
    return if Validate(out) then Ok(out) else Err;
  }

  lemma {:induction false} NotHad(q: Pairs, key: string)
    ensures !Has(q, key) ==> Get(q, key) == ""
    decreases |q|
  {
    if !Has(q, key) && q != [] {
      assert forall i :: 0 <= i < |q[1..]| ==> q[1..][i] == q[i + 1];
      NotHad(q[1..], key);
    }
  }
}
