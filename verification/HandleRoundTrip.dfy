/** Which volume handles in URI form give back what they were made from: exactly the well-formed ones. */
module HandleRoundTrip {
  import opened Results
  import opened Strings
  import opened Escapes
  import opened Urls
  import opened VolumeHandle

  // ---------- The domain ----------

  /** A text that stands in a URI between "//" and the path without ending it. */
  predicate SeparatorFree(s: string) {
    Printable(s) && '/' !in s && '?' !in s && '@' !in s
  }

  /** Values of the types the source gives the fields, and a host without the separators of a URI. */
  predicate InScope(v: VolumeID) {
    && IsInt64(v.lun) && IsInt64(v.capacityBytes) && SeparatorFree(HostOf(v))
    && Bytes(v.name) && Bytes(v.targetPortal) && Bytes(v.targetIQN) && Bytes(v.nfsServer) && Bytes(v.nfsExportPath)
    && Bytes(v.smbServer) && Bytes(v.smbShareName)
    && Bytes(v.shareBackend) && Bytes(v.sharePath) && Bytes(v.targetName) && Bytes(v.vhdxPath)
    && Bytes(v.nfsAuthentication) && Bytes(v.nfsMountAuthentication)
  }

  /** A host that a URL gives back as it stands. */
  predicate HostSurvives(s: string) {
    ParseHost(s) == Ok(s)
  }

  /** A path segment that comes back: unescaping it once more than was escaped must not change it. */
  predicate SegmentSurvives(s: string) {
    s != "" && Trimmed(s) && '/' !in s && ('%' !in s || Unescape(s, Segment).Err?)
  }

  /** A path that comes back: absolute, and every piece of it survives. */
  predicate PathSurvives(path: string) {
    path != "" && path[0] == '/' && forall i :: 0 <= i < |Split(path[1..], '/')| ==> SegmentSurvives(Split(path[1..], '/')[i])
  }

  predicate NoIscsiFields(v: VolumeID) {
    v.targetIQN == "" && v.lun == 0
  }

  predicate NoNfsFields(v: VolumeID) {
    v.nfsServer == "" && v.nfsExportPath == "" && v.nfsAuthentication == "" && v.nfsMountAuthentication == ""
  }

  predicate NoSmbFields(v: VolumeID) {
    v.smbServer == "" && v.smbShareName == ""
  }

  predicate SmbWellFormed(v: VolumeID) {
    && !IsBlank(v.name) && NoIscsiFields(v) && NoNfsFields(v) && v.targetPortal == ""
    && !IsBlank(v.smbServer) && SegmentSurvives(v.smbShareName)
  }

  predicate WellFormed(v: VolumeID) {
    && !IsBlank(v.name) && v.capacityBytes >= 0
    && if v.protocol.ISCSI? then
         && NoNfsFields(v) && NoSmbFields(v)
         && Trimmed(v.targetPortal) && ':' in v.targetPortal && HostSurvives(v.targetPortal)
         && SegmentSurvives(v.targetIQN) && ShouldEncodeLUN(v)
       else if v.protocol.NFS? then
         && NoIscsiFields(v) && NoSmbFields(v)
         && (v.targetPortal == "" || !IsBlank(v.targetPortal)) && !IsBlank(v.nfsServer) && PathSurvives(v.nfsExportPath)
         && ParseHost(HostOf(v)).Ok?
       else
         v.protocol.SMB? && SmbWellFormed(v) && ParseHost(HostOf(v)).Ok?
  }

  predicate SameExported(v: VolumeID, w: VolumeID) {
    w.(nameSpecified := v.nameSpecified, lunSpecified := v.lunSpecified) == v
  }

  predicate GivesBack(v: VolumeID) {
    Decoded(Encoded(v)).Ok? && SameExported(v, Decoded(Encoded(v)).value)
  }

  // ---------- The query ----------

  function TextLength(key: Key): nat {
    match key
    case CapacityBytes => 13
    case Name => 4
    case NfsAuthentication => 17
    case NfsMountAuthentication => 22
    case NfsServer => 9
    case ShareBackend => 12
    case SharePath => 9
    case SmbServer => 9
    case TargetName => 10
    case TargetPortal => 12
    case VhdxPath => 8
  }

  /** The texts of two keys differ in their length or their second letter. */
  lemma TextsDiffer(a: Key, b: Key)
    ensures Text(a) == Text(b) ==> a == b
    ensures Bytes(Text(a))
  {
    TextIsShort(a);
    TextIsShort(b);
    assert Text(NfsServer)[1] == 'f' && Text(SharePath)[1] == 'h' && Text(SmbServer)[1] == 'm';
    assert Text(ShareBackend)[1] == 'h' && Text(TargetPortal)[1] == 'a';
  }

  lemma TextIsShort(key: Key)
    ensures |Text(key)| == TextLength(key) && Bytes(Text(key))
  {
  }

  predicate BytesIn(q: VolumeHandle.Query) {
    forall k :: k in q ==> Bytes(q[k])
  }

  lemma {:induction false} PairsStayInBytes(q: VolumeHandle.Query, keys: seq<Key>)
    requires BytesIn(q)
    ensures PairsInBytes(PairsOf(q, keys))
    decreases |keys|
  {
    if keys != [] {
      var rest := PairsOf(q, keys[1..]);
      PairsStayInBytes(q, keys[1..]);
      TextsDiffer(keys[0], keys[0]);
      var ps := PairsOf(q, keys);
      forall i | 0 <= i < |ps| ensures Bytes(ps[i].0) && Bytes(ps[i].1) {
        assert keys[0] !in q ==> ps == rest;
        assert keys[0] in q && i > 0 ==> ps[i] == rest[i - 1];
      }
    }
  }

  lemma {:induction false} ValueOfPairs(q: VolumeHandle.Query, keys: seq<Key>, key: Key)
    ensures Value(PairsOf(q, keys), key) == (if key in q && key in keys then q[key] else "")
    ensures Has(PairsOf(q, keys), Text(key)) <==> key in q && key in keys
    decreases |keys|
  {
    if keys != [] {
      var ps, rest := PairsOf(q, keys), PairsOf(q, keys[1..]);
      ValueOfPairs(q, keys[1..], key);
      TextsDiffer(keys[0], key);
      if keys[0] in q {
        assert ps[0] == (Text(keys[0]), q[keys[0]]) && ps[1..] == rest;
        assert forall i :: 0 <= i < |rest| ==> ps[i + 1] == rest[i];
        assert forall i :: 0 < i < |ps| ==> ps[i] == rest[i - 1];
      } else {
        assert ps == rest;
      }
    }
  }

  function QueryText(v: VolumeID): string {
    EncodeQuery(PairsOf(QueryOf(v), KEYS))
  }

  lemma CapacityTextReadsBack(v: VolumeID)
    requires IsInt64(v.capacityBytes)
    ensures Bytes(CapacityText(v)) && TrimSpace(CapacityText(v)) == CapacityText(v)
    ensures v.capacityBytes != 0 ==> CapacityText(v) != "" && Atoi(CapacityText(v)) == Ok(v.capacityBytes)
  {
    ItoaIsNotEmpty(v.capacityBytes);
    AtoiUndoesItoa(v.capacityBytes);
    TrimSpaceSound(CapacityText(v));
  }

  function Lookup(q: VolumeHandle.Query, key: Key): string {
    if key in q then q[key] else ""
  }

  lemma LookupWith(q: VolumeHandle.Query, key: Key, value: string, other: Key)
    requires Lookup(q, key) == ""
    ensures Lookup(With(q, key, value), other) == if other == key then value else Lookup(q, other)
  {
  }

  /** What each query key stands for. */
  function FieldFor(v: VolumeID, key: Key): string {
    match key
    case CapacityBytes => CapacityText(v)
    case Name => v.name
    case ShareBackend => v.shareBackend
    case SharePath => v.sharePath
    case TargetName => v.targetName
    case VhdxPath => v.vhdxPath
    case TargetPortal => if v.protocol.NFS? && !IsBlank(v.targetPortal) then v.targetPortal else ""
    case NfsServer => if v.protocol.NFS? then v.nfsServer else ""
    case NfsAuthentication => if v.protocol.NFS? then v.nfsAuthentication else ""
    case NfsMountAuthentication => if v.protocol.NFS? then v.nfsMountAuthentication else ""
    case SmbServer => if v.protocol.SMB? then v.smbServer else ""
  }

  predicate IsCommon(key: Key) {
    key.CapacityBytes? || key.Name? || key.ShareBackend? || key.SharePath? || key.TargetName? || key.VhdxPath?
  }

  lemma CommonQueryHolds(v: VolumeID, key: Key)
    ensures Lookup(CommonQuery(v), key) == if IsCommon(key) then FieldFor(v, key) else ""
    ensures Name in CommonQuery(v)
  {
  }

  lemma QueryHolds(v: VolumeID, key: Key)
    ensures Lookup(QueryOf(v), key) == FieldFor(v, key) && Name in QueryOf(v)
  {
    var q0 := CommonQuery(v);
    CommonQueryHolds(v, key);
    CommonQueryHolds(v, SmbServer);
    if v.protocol.NFS? {
      CommonQueryHolds(v, NfsServer);
      CommonQueryHolds(v, NfsAuthentication);
      CommonQueryHolds(v, NfsMountAuthentication);
      var q1 := if IsBlank(v.targetPortal) then q0 else q0[TargetPortal := v.targetPortal];
      var q2 := With(q1, NfsServer, v.nfsServer);
      var q3 := With(q2, NfsAuthentication, v.nfsAuthentication);
      LookupWith(q1, NfsServer, v.nfsServer, key);
      LookupWith(q1, NfsServer, v.nfsServer, NfsAuthentication);
      LookupWith(q1, NfsServer, v.nfsServer, NfsMountAuthentication);
      LookupWith(q2, NfsAuthentication, v.nfsAuthentication, key);
      LookupWith(q2, NfsAuthentication, v.nfsAuthentication, NfsMountAuthentication);
      LookupWith(q3, NfsMountAuthentication, v.nfsMountAuthentication, key);
    } else if v.protocol.SMB? {
      LookupWith(q0, SmbServer, v.smbServer, key);
    }
  }

  lemma FieldInBytes(v: VolumeID, key: Key)
    requires InScope(v)
    ensures Bytes(FieldFor(v, key))
  {
    CapacityTextReadsBack(v);
  }

  lemma QueryInBytes(v: VolumeID, q: VolumeHandle.Query)
    requires InScope(v) && q == QueryOf(v)
    ensures BytesIn(q)
  {
    forall k | k in q ensures Bytes(q[k]) {
      QueryHolds(v, k);
      FieldInBytes(v, k);
      assert Lookup(q, k) == q[k];
    }
  }

  /** Reading a key of the printed query gives the field it stands for, whatever that holds. */
  lemma QueryReadsBack(v: VolumeID, key: Key)
    requires InScope(v)
    ensures Value(ParseQuery(QueryText(v)), key) == FieldFor(v, key)
    ensures Has(ParseQuery(QueryText(v)), Text(Name)) && QueryText(v) != "" && Printable(QueryText(v))
  {
    var ps := PairsOf(QueryOf(v), KEYS);
    QueryInBytes(v, QueryOf(v));
    PairsStayInBytes(QueryOf(v), KEYS);
    QueryRoundTrip(ps);
    QueryIsPrintable(ps);
    ValueOfPairs(QueryOf(v), KEYS, key);
    ValueOfPairs(QueryOf(v), KEYS, Name);
    QueryHolds(v, key);
    EveryKeyIsPrinted(key);
    EveryKeyIsPrinted(Name);
    assert QueryText(v) != "" by { assert ParseQuery("") == [] && Has(ps, Text(Name)); }
  }

  lemma EveryKeyIsPrinted(key: Key)
    ensures key in KEYS
  {
  }

  /** The pairs hold every field the query stands for. */
  predicate Gives(q: Pairs, v: VolumeID) {
    Has(q, Text(Name)) && forall k :: Value(q, k) == FieldFor(v, k)
  }

  lemma QueryGives(v: VolumeID)
    requires InScope(v)
    ensures Gives(ParseQuery(QueryText(v)), v) && QueryText(v) != "" && Printable(QueryText(v))
  {
    QueryReadsBack(v, Name);
    forall k ensures Value(ParseQuery(QueryText(v)), k) == FieldFor(v, k) {
      QueryReadsBack(v, k);
    }
  }

  lemma CapacityReadsBack(q: Pairs, v: VolumeID)
    requires InScope(v) && Gives(q, v)
    ensures Capacity(q) == if v.capacityBytes < 0 then Err else Ok(v.capacityBytes)
  {
    CapacityTextReadsBack(v);
    assert Value(q, CapacityBytes) == CapacityText(v);
  }

  /** What DecodeVolumeID has read before it looks at the protocol. */
  function CommonOf(v: VolumeID): VolumeID {
    BLANK.(protocol := v.protocol, name := v.name, nameSpecified := true, capacityBytes := v.capacityBytes,
           vhdxPath := v.vhdxPath, shareBackend := v.shareBackend, sharePath := v.sharePath, targetName := v.targetName)
  }

  lemma CommonReadsBack(q: Pairs, v: VolumeID)
    requires Gives(q, v)
    ensures CommonFields(v.protocol, q, v.capacityBytes) == CommonOf(v)
  {
  }

  lemma URLReadsBack(v: VolumeID, u: URL)
    requires InScope(v) && Gives(ParseQuery(u.rawQuery), v)
    ensures FromURL(v.protocol, u) ==
            if v.capacityBytes < 0 then Err else Checked(WithProtocolFields(CommonOf(v), u, ParseQuery(u.rawQuery)))
  {
    var q := ParseQuery(u.rawQuery);
    CapacityReadsBack(q, v);
    CommonReadsBack(q, v);
  }

  // ---------- The path ----------

  predicate AllBytes(parts: seq<string>) {
    forall i :: 0 <= i < |parts| ==> Bytes(parts[i])
  }

  lemma {:induction false} EscapeAllSound(parts: seq<string>)
    ensures |EscapeAll(parts)| == |parts|
    ensures forall i :: 0 <= i < |parts| ==> EscapeAll(parts)[i] == Escape(parts[i], Segment)
  {
    if parts != [] {
      EscapeAllSound(parts[1..]);
    }
  }

  /** The path of a printed handle is safe in a URL and unescapes to the segments. */
  lemma {:induction false} JoinedPathReadsBack(parts: seq<string>)
    requires parts != [] && AllBytes(parts)
    ensures Unescape(Join(EscapeAll(parts), '/'), Segment) == Ok(Join(parts, '/'))
    ensures var s := Join(EscapeAll(parts), '/'); Printable(s) && '?' !in s
    decreases |parts|
  {
    var e := Escape(parts[0], Segment);
    EscapeAllSound(parts);
    EscapeRoundTrip(parts[0], Segment);
    SeparatorsAreEscaped(parts[0], Segment);
    assert Printable(e);
    if |parts| > 1 {
      var rest := Join(EscapeAll(parts[1..]), '/');
      JoinedPathReadsBack(parts[1..]);
      assert EscapeAll(parts)[1..] == EscapeAll(parts[1..]);
      UnescapePlain("/", Segment);
      UnescapeConcat(e, "/", Segment);
      UnescapeConcat(e + "/", rest, Segment);
      assert Printable("/");
      PrintableConcat(e, "/");
      PrintableConcat(e + "/", rest);
    }
  }

  lemma PathReadsBack(parts: seq<string>)
    requires AllBytes(parts)
    ensures Unescape(PathOf(EscapeAll(parts)), Segment) == Ok(PathOf(parts))
    ensures var s := PathOf(EscapeAll(parts)); Printable(s) && '?' !in s && (s == "" || s[0] == '/')
  {
    EscapeAllSound(parts);
    if parts != [] {
      JoinedPathReadsBack(parts);
      UnescapePlain("/", Segment);
      UnescapeConcat("/", Join(EscapeAll(parts), '/'), Segment);
      assert Printable("/");
      PrintableConcat("/", Join(EscapeAll(parts), '/'));
    }
  }

  function UnescapeAll(parts: seq<string>): seq<string> {
    if parts == [] then [] else [UnescapeIfPossible(parts[0])] + UnescapeAll(parts[1..])
  }

  /** Non-empty and without a slash. */
  predicate Solid(s: string) {
    s != "" && '/' !in s
  }

  predicate AllSolid(parts: seq<string>) {
    forall i :: 0 <= i < |parts| ==> Solid(parts[i])
  }

  lemma {:induction false} PiecesOfSolid(parts: seq<string>)
    requires AllSolid(parts)
    ensures Pieces(parts) == UnescapeAll(parts)
  {
    if parts != [] {
      PiecesOfSolid(parts[1..]);
    }
  }

  lemma {:induction false} UnescapeAllPlain(parts: seq<string>)
    requires Free(parts, '%')
    ensures UnescapeAll(parts) == parts
  {
    if parts != [] {
      assert forall i :: 0 <= i < |parts[1..]| ==> parts[1..][i] == parts[i + 1];
      UnescapeAllPlain(parts[1..]);
      SecondUnescapeHarmless(parts[0]);
    }
  }

  /** A leading slash adds an empty piece, which is dropped. */
  lemma SegmentsAfterSlash(s: string)
    ensures PathSegments("/" + s) == PathSegments(s)
  {
  }

  lemma SegmentsOfPath(parts: seq<string>)
    requires AllSolid(parts)
    ensures PathSegments(PathOf(parts)) == UnescapeAll(parts)
  {
    if parts == [] {
      assert Split("", '/') == [""];
    } else {
      SegmentsAfterSlash(Join(parts, '/'));
      assert Free(parts, '/');
      SplitUndoesJoin(parts, '/');
      PiecesOfSolid(parts);
    }
  }

  lemma {:induction false} SplitPiecesAreShort(s: string, c: char, i: nat)
    requires i < |Split(s, c)|
    ensures |Split(s, c)[i]| <= |s| && (c in s ==> |Split(s, c)[i]| < |s|)
    decreases |s|
  {
    if c in s {
      CutsAt(s, c);
      if i > 0 { SplitPiecesAreShort(After(s, c), c, i - 1); }
    }
  }

  lemma {:induction false} FirstPieceIsShort(parts: seq<string>, n: nat)
    requires forall i :: 0 <= i < |parts| ==> |parts[i]| < n
    ensures |FirstOf(Pieces(parts))| < n || Pieces(parts) == []
  {
    if parts != [] {
      assert forall i :: 0 <= i < |parts[1..]| ==> parts[1..][i] == parts[i + 1];
      FirstPieceIsShort(parts[1..], n);
      SecondUnescapeHarmless(parts[0]);
    }
  }

  /** A first segment with a slash in it falls apart: what is read first is shorter or has no slash. */
  lemma SlashedSegmentIsLost(t: string, more: seq<string>)
    requires t != "" && '/' in t && AllSolid(more) && Free(more, '%')
    ensures var first := FirstOf(PathSegments(PathOf([t] + more))); |first| < |t| || '/' !in first
  {
    var rest := Join(more, '/');
    SegmentsAfterSlash(Join([t] + more, '/'));
    var pieces := Split(t, '/');
    forall i | 0 <= i < |pieces| ensures |pieces[i]| < |t| { SplitPiecesAreShort(t, '/', i); }
    FirstPieceIsShort(pieces, |t|);
    if more == [] {
      assert Join([t] + more, '/') == t;
    } else {
      assert ([t] + more)[1..] == more && Join([t] + more, '/') == t + ['/'] + rest;
      SplitConcat(t, '/', rest);
      assert Free(more, '/');
      SplitUndoesJoin(more, '/');
      PiecesConcat(pieces, more);
      PiecesOfSolid(more);
      UnescapeAllPlain(more);
    }
  }

  /** The first segment comes back exactly when it survives. */
  lemma FirstSegmentExactly(s: string, more: seq<string>)
    requires !IsBlank(s) && AllSolid(more) && Free(more, '%')
    ensures var parts := PathSegments(PathOf([TrimSpace(s)] + more));
            && (FirstOf(parts) == s <==> SegmentSurvives(s))
            && (FirstOf(parts) == s ==> parts == [s] + more)
            && (Solid(TrimSpace(s)) ==> |parts| == 1 + |more| && parts[1..] == more)
  {
    var t := TrimSpace(s);
    TrimSpaceSound(s);
    if '/' in t {
      SlashedSegmentIsLost(t, more);
    } else {
      var parts := [t] + more;
      assert AllSolid(parts);
      SegmentsOfPath(parts);
      assert parts[1..] == more;
      UnescapeAllPlain(more);
      SecondUnescapeHarmless(t);
      assert t != s ==> |t| < |s| by { TrimSpaceShortens(s); }
      assert '/' in s ==> '/' in t || t != s;
    }
  }

  lemma TrimSpaceShortens(s: string)
    ensures TrimSpace(s) != s ==> |TrimSpace(s)| < |s|
  {
    TrimLeftSound(s);
    TrimRightSound(TrimLeft(s));
  }

  // ---------- Paths that come back whole ----------

  /** The printed length of these pieces, each with its slash. */
  function Total(parts: seq<string>): nat {
    if parts == [] then 0 else |parts[0]| + 1 + Total(parts[1..])
  }

  lemma {:induction false} JoinLength(parts: seq<string>, c: char)
    ensures parts != [] ==> |Join(parts, c)| + 1 == Total(parts)
    decreases |parts|
  {
    if |parts| > 1 { JoinLength(parts[1..], c); }
  }

  predicate AllSurvive(parts: seq<string>) {
    forall i :: 0 <= i < |parts| ==> SegmentSurvives(parts[i])
  }

  function Again(p: string): seq<string> {
    if p == "" then [] else NonBlank([UnescapeIfPossible(p)])
  }

  lemma PieceShrinks(p: string)
    requires '/' !in p
    ensures Total(Again(p)) <= |p| + 1
    ensures Total(Again(p)) == |p| + 1 <==> SegmentSurvives(p)
    ensures SegmentSurvives(p) ==> Again(p) == [p]
  {
    var u := UnescapeIfPossible(p);
    SecondUnescapeHarmless(p);
    TrimSpaceSound(u);
    TrimSpaceShortens(u);
    assert NonBlank([u]) == if IsBlank(u) then [] else [TrimSpace(u)];
    assert Total([TrimSpace(u)]) == |TrimSpace(u)| + 1;
  }

  lemma {:induction false} TotalConcat(a: seq<string>, b: seq<string>)
    ensures Total(a + b) == Total(a) + Total(b)
    decreases |a|
  {
    if a == [] {
      assert a + b == b;
    } else {
      assert (a + b)[1..] == a[1..] + b;
      TotalConcat(a[1..], b);
    }
  }

  /** Reading and printing pieces again only ever shortens them, unless every one survives. */
  lemma PiecesUnfold(parts: seq<string>)
    requires parts != []
    ensures NonBlank(Pieces(parts)) == Again(parts[0]) + NonBlank(Pieces(parts[1..]))
  {
    NonBlankConcat(if parts[0] == "" then [] else [UnescapeIfPossible(parts[0])], Pieces(parts[1..]));
  }

  lemma {:induction false} PiecesShrink(parts: seq<string>)
    requires Free(parts, '/')
    ensures var again := NonBlank(Pieces(parts));
            && Total(again) <= Total(parts)
            && (Total(again) == Total(parts) <==> AllSurvive(parts))
            && (AllSurvive(parts) ==> again == parts)
  {
    if parts != [] {
      var p := parts[0];
      assert forall i :: 0 <= i < |parts[1..]| ==> parts[1..][i] == parts[i + 1];
      PiecesShrink(parts[1..]);
      PieceShrinks(p);
      PiecesUnfold(parts);
      TotalConcat(Again(p), NonBlank(Pieces(parts[1..])));
      assert parts == [p] + parts[1..];
    }
  }

  /** An export path is printed and read back exactly when it is absolute and all its pieces survive. */
  lemma PathExactly(path: string)
    requires path != ""
    ensures PathOf(NonBlank(PathSegments(path))) == path <==> PathSurvives(path)
  {
    var again := NonBlank(PathSegments(path));
    if path[0] == '/' {
      var tail := path[1..];
      assert path == "/" + tail;
      SegmentsAfterSlash(tail);
      JoinUndoesSplit(tail, '/');
      PiecesShrink(Split(tail, '/'));
      JoinLength(Split(tail, '/'), '/');
      JoinLength(again, '/');
    }
  }

  // ---------- The three protocols ----------

  /** What the handle of `v` reads as once it is parsed, with this host. */
  function ReadAs(v: VolumeID, host: string, q: Pairs): Result<VolumeID> {
    Checked(WithProtocolFields(CommonOf(v), URL(host, PathOf(NonBlank(SegmentsOf(v))), QueryText(v)), q))
  }

  predicate ReadsBack(v: VolumeID, host: string, q: Pairs) {
    ReadAs(v, host, q).Ok? && SameExported(v, ReadAs(v, host, q).value)
  }

  lemma LunSegments(v: VolumeID)
    requires IsInt64(v.lun)
    ensures var more := if ShouldEncodeLUN(v) then ["lun", Itoa(v.lun)] else [];
            NonBlank(more) == more && AllSolid(more) && Free(more, '%')
  {
    ItoaIsNotEmpty(v.lun);
    TrimSpaceSound(Itoa(v.lun));
    TrimSpaceSound("lun");
    assert NonBlank([Itoa(v.lun)]) == [Itoa(v.lun)];
    assert ["lun", Itoa(v.lun)][1..] == [Itoa(v.lun)];
  }

  lemma IscsiSegments(v: VolumeID)
    requires v.protocol.ISCSI? && IsInt64(v.lun)
    ensures var more := if ShouldEncodeLUN(v) then ["lun", Itoa(v.lun)] else [];
            NonBlank(SegmentsOf(v)) == (if IsBlank(v.targetIQN) then [] else [TrimSpace(v.targetIQN)]) + more
  {
    var more := if ShouldEncodeLUN(v) then ["lun", Itoa(v.lun)] else [];
    TrimSpaceSound(v.targetIQN);
    TrimSpaceSound(TrimSpace(v.targetIQN));
    NonBlankConcat([TrimSpace(v.targetIQN)], more);
    LunSegments(v);
  }

  /** The LUN is found exactly when it was printed, behind a name that did not fall apart. */
  lemma LunReadsBack(v: VolumeID, first: string)
    requires IsInt64(v.lun)
    ensures LUNFrom([first] + (if ShouldEncodeLUN(v) then ["lun", Itoa(v.lun)] else []), 1) ==
            Ok(if ShouldEncodeLUN(v) then Some(v.lun) else None)
  {
    AtoiUndoesItoa(v.lun);
  }

  lemma BlankNameHasNoLun(v: VolumeID)
    requires IsInt64(v.lun)
    ensures var parts := PathSegments(PathOf(if ShouldEncodeLUN(v) then ["lun", Itoa(v.lun)] else []));
            LUNFrom(parts, 1) == Ok(None)
  {
    LunSegments(v);
    SegmentsOfPath(if ShouldEncodeLUN(v) then ["lun", Itoa(v.lun)] else []);
    UnescapeAllPlain(if ShouldEncodeLUN(v) then ["lun", Itoa(v.lun)] else []);
  }

  lemma IscsiOutcome(v: VolumeID, out: VolumeID)
    requires v.protocol.ISCSI? && v.capacityBytes >= 0 && (out.lunSpecified <==> ShouldEncodeLUN(v))
    requires out == CommonOf(v).(targetPortal := out.targetPortal, targetIQN := out.targetIQN,
                                 lun := if ShouldEncodeLUN(v) then v.lun else 0, lunSpecified := out.lunSpecified)
    ensures SameExported(v, out) <==>
            out.targetPortal == v.targetPortal && out.targetIQN == v.targetIQN && NoNfsFields(v) && NoSmbFields(v)
    ensures Validate(out) <==>
            !IsBlank(v.name) && !IsBlank(out.targetPortal) && !IsBlank(out.targetIQN) && ShouldEncodeLUN(v)
  {
  }

  /** The segments of an iSCSI handle once they are read back. */
  lemma IscsiPartsReadBack(v: VolumeID, parts: seq<string>)
    requires InScope(v) && v.protocol.ISCSI?
    requires parts == PathSegments(PathOf(NonBlank(SegmentsOf(v))))
    ensures FirstOf(parts) == v.targetIQN && !IsBlank(v.targetIQN) <==> SegmentSurvives(v.targetIQN)
    ensures SegmentSurvives(v.targetIQN) ==> LUNFrom(parts, 1) == Ok(if ShouldEncodeLUN(v) then Some(v.lun) else None)
    ensures IsBlank(v.targetIQN) ==> LUNFrom(parts, 1) == Ok(None)
  {
    var more := if ShouldEncodeLUN(v) then ["lun", Itoa(v.lun)] else [];
    IscsiSegments(v);
    LunSegments(v);
    TrimSpaceSound(v.targetIQN);
    if IsBlank(v.targetIQN) {
      assert [] + more == more;
      BlankNameHasNoLun(v);
    } else {
      FirstSegmentExactly(v.targetIQN, more);
      LunReadsBack(v, v.targetIQN);
    }
  }

  lemma {:induction false} ColonOutlastsUnescape(s: string)
    requires ':' in s && Unescape(s, Host).Ok?
    ensures ':' in Unescape(s, Host).value
  {
    if s[0] == '%' {
      assert s == s[..3] + s[3..];
      assert ':' !in s[..3];
      ColonOutlastsUnescape(s[3..]);
    } else if s[0] != ':' {
      ColonOutlastsUnescape(s[1..]);
    }
  }

  lemma {:induction false} ZoneShortens(s: string)
    requires UnescapeZone(s).Ok?
    ensures |UnescapeZone(s).value| <= |s|
  {
    if s != "" { ZoneShortens(s[if s[0] == '%' then 3 else 1..]); }
  }

  lemma LiteralShortens(s: string)
    requires UnescapeLiteral(s).Ok?
    ensures |UnescapeLiteral(s).value| <= |s|
  {
    var zone := Index(s, "%25");
    if zone < 0 {
      UnescapeShortens(s, Host);
    } else {
      UnescapeShortens(s[..zone], Host);
      ZoneShortens(s[zone..]);
    }
  }

  lemma IPv6HasColon(s: string)
    requires IsIPv6(s)
    ensures ':' in s
  {
    var address := Before(s, '%');
    if '%' in s { CutsAt(s, '%'); } else { CutNowhere(s, '%'); }
    assert ':' in address by {
      assert address[HexRun(address)..] != "" ==> address[HexRun(address)] in address;
    }
    assert forall c :: c in address ==> c in s;
  }

  /** A parsed host is no longer than its text, and has a colon if that had one. */
  lemma HostShrinks(s: string)
    requires ParseHost(s).Ok?
    ensures |ParseHost(s).value| <= |s|
    ensures ':' in s ==> ':' in ParseHost(s).value
  {
    if '[' in s {
      var close := LastIndex(s, ']');
      LiteralShortens(s[1..close]);
      IPv6HasColon(UnescapeLiteral(s[1..close]).value);
    } else {
      UnescapeShortens(s, Host);
      if ':' in s { ColonOutlastsUnescape(s); }
    }
  }

  /** A portal comes back if and only if it is trimmed, has a port, and a URL gives it back. */
  lemma PortalReadsBack(portal: string)
    requires ParseHost(TrimSpace(portal)).Ok?
    ensures var back := DefaultPort(ParseHost(TrimSpace(portal)).value, "3260");
            back == portal && !IsBlank(portal) <==> Trimmed(portal) && ':' in portal && HostSurvives(portal)
  {
    TrimSpaceSound(portal);
    TrimSpaceShortens(portal);
    var t := TrimSpace(portal);
    var h := ParseHost(t).value;
    HostShrinks(t);
    assert ':' !in h ==> DefaultPort(h, "3260") == "" || DefaultPort(h, "3260") == h + ":" + "3260";
    assert ':' in portal ==> ':' in t && !IsBlank(portal);
    assert DefaultPort(h, "3260") == h + ":" + "3260" ==> ':' in DefaultPort(h, "3260");
  }

  lemma IscsiReadAs(v: VolumeID, host: string, q: Pairs, parts: seq<string>)
    requires v.protocol.ISCSI? && parts == PathSegments(PathOf(NonBlank(SegmentsOf(v))))
    ensures LUNFrom(parts, 1).Err? ==> ReadAs(v, host, q).Err?
    ensures LUNFrom(parts, 1).Ok? ==> ReadAs(v, host, q) == Checked(Ok(IscsiOut(v, host, parts)))
  {
  }

  function IscsiOut(v: VolumeID, host: string, parts: seq<string>): VolumeID
    requires LUNFrom(parts, 1).Ok?
  {
    var lun := LUNFrom(parts, 1).value;
    CommonOf(v).(targetPortal := DefaultPort(host, "3260"), targetIQN := FirstOf(parts),
                 lun := if lun.Some? then lun.value else 0, lunSpecified := lun.Some?)
  }

  lemma LostNameIsNotReadBack(v: VolumeID, host: string, q: Pairs)
    requires InScope(v) && v.protocol.ISCSI? && !SegmentSurvives(v.targetIQN)
    ensures !ReadsBack(v, host, q)
  {
    var parts := PathSegments(PathOf(NonBlank(SegmentsOf(v))));
    IscsiPartsReadBack(v, parts);
    IscsiReadAs(v, host, q, parts);
    if LUNFrom(parts, 1).Ok? {
      if IsBlank(v.targetIQN) {
        assert !Validate(IscsiOut(v, host, parts));
      } else {
        assert !SameExported(v, IscsiOut(v, host, parts));
      }
    }
  }

  lemma IscsiExactly(v: VolumeID, host: string, q: Pairs)
    requires InScope(v) && v.protocol.ISCSI? && v.capacityBytes >= 0 && ParseHost(HostOf(v)) == Ok(host)
    ensures ReadsBack(v, host, q) <==> WellFormed(v)
  {
    if !SegmentSurvives(v.targetIQN) {
      LostNameIsNotReadBack(v, host, q);
    } else {
      var parts := PathSegments(PathOf(NonBlank(SegmentsOf(v))));
      IscsiPartsReadBack(v, parts);
      IscsiReadAs(v, host, q, parts);
      PortalReadsBack(v.targetPortal);
      IscsiOutcome(v, IscsiOut(v, host, parts));
    }
  }

  lemma NfsOutcome(v: VolumeID, out: VolumeID)
    requires v.protocol.NFS? && v.capacityBytes >= 0
    requires out == CommonOf(v).(targetPortal := out.targetPortal, nfsServer := out.nfsServer,
                                 nfsExportPath := out.nfsExportPath, nfsAuthentication := v.nfsAuthentication,
                                 nfsMountAuthentication := v.nfsMountAuthentication)
    ensures SameExported(v, out) <==>
            && out.targetPortal == v.targetPortal && out.nfsServer == v.nfsServer && out.nfsExportPath == v.nfsExportPath
            && NoIscsiFields(v) && NoSmbFields(v)
    ensures Validate(out) <==>
            !IsBlank(v.name) && !IsBlank(out.nfsServer) && !IsBlank(out.nfsExportPath) && TrimSpace(out.nfsExportPath) != "/"
  {
  }

  lemma SurvivingPathIsNoRoot(path: string)
    requires PathSurvives(path)
    ensures !IsBlank(path) && TrimSpace(path) != "/" && TrimSpace(path) == path
  {
    TrimSpaceSound(path);
    assert path[0] == '/';
    var pieces := Split(path[1..], '/');
    LastPieceEnds(path[1..], '/');
    var last := pieces[|pieces| - 1];
    assert SegmentSurvives(last);
    var k := |path| - |last| - 1;
    assert path == path[..k] + ['/'] + last;
    EndsAlike(path[..k], '/', last);
    assert Trimmed(path) && |path| > 1;
  }

  lemma {:induction false} LastPieceEnds(s: string, c: char)
    ensures var ps := Split(s, c);
            && ps != [] && |ps[|ps| - 1]| <= |s| && ps[|ps| - 1] == s[|s| - |ps[|ps| - 1]|..]
            && (|ps[|ps| - 1]| < |s| ==> s[|s| - |ps[|ps| - 1]| - 1] == c)
    decreases |s|
  {
    if c in s {
      CutsAt(s, c);
      LastPieceEnds(After(s, c), c);
    }
  }

  lemma NfsPathReadsBack(v: VolumeID, path: string)
    requires v.protocol.NFS? && path == PathOf(NonBlank(SegmentsOf(v)))
    ensures path == v.nfsExportPath && !IsBlank(path) && TrimSpace(path) != "/" <==> PathSurvives(v.nfsExportPath)
  {
    if v.nfsExportPath == "" {
      assert TrimSpace("") == "";
    } else {
      PathExactly(v.nfsExportPath);
      if PathSurvives(v.nfsExportPath) { SurvivingPathIsNoRoot(v.nfsExportPath); }
    }
  }

  lemma NfsFieldsGiven(v: VolumeID, q: Pairs)
    requires v.protocol.NFS? && Gives(q, v)
    ensures Value(q, TargetPortal) == (if IsBlank(v.targetPortal) then "" else v.targetPortal)
    ensures Value(q, NfsServer) == v.nfsServer && Value(q, NfsAuthentication) == v.nfsAuthentication
    ensures Value(q, NfsMountAuthentication) == v.nfsMountAuthentication
  {
  }

  lemma NfsReadAs(v: VolumeID, host: string, q: Pairs, out: VolumeID)
    requires v.protocol.NFS?
    requires out == CommonOf(v).(targetPortal := Value(q, TargetPortal),
                                 nfsServer := if Value(q, NfsServer) != "" then Value(q, NfsServer) else HostOnly(host),
                                 nfsExportPath := PathOf(NonBlank(SegmentsOf(v))),
                                 nfsAuthentication := Value(q, NfsAuthentication),
                                 nfsMountAuthentication := Value(q, NfsMountAuthentication))
    ensures ReadAs(v, host, q) == Checked(Ok(out))
  {
  }

  lemma NfsExactly(v: VolumeID, host: string, q: Pairs)
    requires InScope(v) && v.protocol.NFS? && v.capacityBytes >= 0 && Gives(q, v) && ParseHost(HostOf(v)) == Ok(host)
    ensures ReadsBack(v, host, q) <==> WellFormed(v)
  {
    var path := PathOf(NonBlank(SegmentsOf(v)));
    var out := CommonOf(v).(targetPortal := if IsBlank(v.targetPortal) then "" else v.targetPortal,
                            nfsServer := if v.nfsServer != "" then v.nfsServer else HostOnly(host),
                            nfsExportPath := path, nfsAuthentication := v.nfsAuthentication,
                            nfsMountAuthentication := v.nfsMountAuthentication);
    NfsFieldsGiven(v, q);
    NfsReadAs(v, host, q, out);
    NfsOutcome(v, out);
    NfsPathReadsBack(v, path);
    assert TrimSpace("") == "";
  }

  lemma SmbShareReadsBack(v: VolumeID, share: string)
    requires v.protocol.SMB? && share == FirstOf(PathSegments(PathOf(NonBlank(SegmentsOf(v)))))
    ensures share == v.smbShareName && !IsBlank(share) <==> SegmentSurvives(v.smbShareName)
  {
    var t := TrimSpace(v.smbShareName);
    TrimSpaceSound(v.smbShareName);
    TrimSpaceSound(t);
    if !IsBlank(v.smbShareName) {
      FirstSegmentExactly(v.smbShareName, []);
      assert [t] + [] == [t] == NonBlank([t]);
    } else {
      assert NonBlank([t]) == [] && Split("", '/') == [""];
    }
  }

  lemma SmbOutcome(v: VolumeID, out: VolumeID)
    requires v.protocol.SMB? && v.capacityBytes >= 0
    requires out == CommonOf(v).(smbServer := out.smbServer, smbShareName := out.smbShareName)
    ensures SameExported(v, out) <==>
            && out.smbServer == v.smbServer && out.smbShareName == v.smbShareName
            && NoIscsiFields(v) && NoNfsFields(v) && v.targetPortal == ""
    ensures Validate(out) <==> !IsBlank(v.name) && !IsBlank(out.smbServer) && !IsBlank(out.smbShareName)
  {
  }

  lemma SmbReadAs(v: VolumeID, host: string, q: Pairs, out: VolumeID)
    requires v.protocol.SMB?
    requires out == CommonOf(v).(smbServer := if Value(q, SmbServer) != "" then Value(q, SmbServer) else HostOnly(host),
                                 smbShareName := FirstOf(PathSegments(PathOf(NonBlank(SegmentsOf(v))))))
    ensures ReadAs(v, host, q) == Checked(Ok(out))
  {
  }

  lemma SmbFieldsReadBack(v: VolumeID, host: string, q: Pairs)
    requires v.protocol.SMB? && v.capacityBytes >= 0 && Gives(q, v)
    ensures ReadsBack(v, host, q) <==> SmbWellFormed(v)
  {
    assert Value(q, SmbServer) == v.smbServer;
    var share := FirstOf(PathSegments(PathOf(NonBlank(SegmentsOf(v)))));
    var out := CommonOf(v).(smbServer := if v.smbServer != "" then v.smbServer else HostOnly(host),
                            smbShareName := share);
    SmbReadAs(v, host, q, out);
    SmbOutcome(v, out);
    SmbShareReadsBack(v, share);
    assert TrimSpace("") == "";
  }

  lemma SmbExactly(v: VolumeID, host: string, q: Pairs)
    requires v.protocol.SMB? && v.capacityBytes >= 0 && Gives(q, v) && ParseHost(HostOf(v)) == Ok(host)
    ensures ReadsBack(v, host, q) <==> WellFormed(v)
  {
    SmbFieldsReadBack(v, host, q);
  }

  // ---------- The whole handle ----------

  lemma {:induction false} LiteralsOnly(s: string)
    requires '%' !in s
    ensures Unescape(s, Host) == Ok(s) <==> forall c :: c in s ==> MayBeLiteral(c, Host)
    ensures Unescape(s, Host).Ok? ==> Unescape(s, Host) == Ok(s)
  {
    if s != "" {
      assert s == [s[0]] + s[1..] && s[0] in s;
      assert forall c :: c in s <==> c == s[0] || c in s[1..];
      LiteralsOnly(s[1..]);
    }
  }

  /** A name or IPv4 address, or an IPv6 address in brackets, with a port or without; nothing percent-encoded. */
  predicate PlainHost(s: string) {
    && '%' !in s && (forall c :: c in s ==> MayBeLiteral(c, Host))
    && if '[' in s then
         var close := LastIndex(s, ']');
         close >= 1 && LastIndex(s, '[') == 0 && IsIPv6(s[1..close]) && ValidOptionalPort(s[close + 1..])
       else ':' in s ==> AllDigits(After(s, ':'))
  }

  lemma LiteralSurvivesExactly(s: string)
    ensures UnescapeLiteral(s) == Ok(s) <==> '%' !in s && forall c :: c in s ==> MayBeLiteral(c, Host)
  {
    if '%' in s {
      var zone := Index(s, "%25");
      if zone < 0 {
        assert Unescape(s, Host).Ok? ==> |Unescape(s, Host).value| < |s| by {
          if Unescape(s, Host).Ok? { UnescapeShortens(s, Host); }
        }
      } else {
        assert s[zone..][0] == '%';
        if UnescapeLiteral(s).Ok? {
          UnescapeShortens(s[..zone], Host);
          ZoneShortens(s[zone..][3..]);
        }
      }
    } else {
      IndexNowhere(s, "%25");
      LiteralsOnly(s);
    }
  }

  /** Exactly the plain hosts come back; a zone is accepted and read, but printed otherwise. */
  lemma HostSurvivesExactly(s: string)
    ensures HostSurvives(s) <==> PlainHost(s)
  {
    if '[' in s {
      var close := LastIndex(s, ']');
      if close >= 1 && LastIndex(s, '[') == 0 && ValidOptionalPort(s[close + 1..]) {
        var address, port := s[1..close], s[close + 1..];
        assert s == "[" + address + "]" + port;
        LiteralSurvivesExactly(address);
        PortIsLiteral(port);
        var back := UnescapeLiteral(address);
        if back.Ok? { Bracketed(back.value, address, port); }
      }
    } else if '%' in s {
      if Unescape(s, Host).Ok? { UnescapeShortens(s, Host); }
    } else {
      LiteralsOnly(s);
    }
  }

  lemma PortIsLiteral(port: string)
    requires ValidOptionalPort(port)
    ensures '%' !in port && forall c :: c in port ==> MayBeLiteral(c, Host)
  {
    forall c | c in port ensures c != '%' && MayBeLiteral(c, Host) {
      var i :| 0 <= i < |port| && port[i] == c;
      assert i > 0 ==> c == port[1..][i - 1];
    }
  }

  lemma Bracketed(a: string, b: string, port: string)
    ensures "[" + a + "]" + port == "[" + b + "]" + port <==> a == b
  {
    var x, y := "[" + a + "]" + port, "[" + b + "]" + port;
    if x == y {
      assert |a| == |b|;
      assert x[1..1 + |a|] == a && y[1..1 + |b|] == b;
    }
  }

  lemma SchemeIsPlain(p: Protocol)
    requires !p.Other?
    ensures var s := Scheme(p); s != "" && (forall i :: 0 <= i < |s| ==> IsLetter(s[i])) && Printable(s)
    ensures ProtocolOf(Scheme(p)) == p && ':' !in Scheme(p)
  {
    assert "iscsi"[0] == 'i' && "nfs"[0] == 'n' && "smb"[0] == 's';
  }

  lemma {:induction false} NonBlankInBytes(segments: seq<string>)
    requires AllBytes(segments)
    ensures AllBytes(NonBlank(segments))
  {
    if segments != [] {
      assert forall i :: 0 <= i < |segments[1..]| ==> segments[1..][i] == segments[i + 1];
      NonBlankInBytes(segments[1..]);
      TrimLeftSound(segments[0]);
      TrimRightSound(TrimLeft(segments[0]));
    }
  }

  lemma ProtocolReadsBack(p: Protocol, rest: string)
    requires !p.Other? && rest != "" && Printable(rest)
    ensures var id := Scheme(p) + "://" + rest;
            && ParseProtocol(id) == Ok(if rest[0] == '/' then None else Some(p))
            && ProtocolOf(SchemeOf(id)) == p
  {
    var id := Scheme(p) + "://" + rest;
    SchemeIsPlain(p);
    assert Printable("://");
    PrintableConcat(Scheme(p), "://");
    PrintableConcat(Scheme(p) + "://", rest);
    IndexAtFirst(Scheme(p), "://", rest);
    assert id[..|Scheme(p)|] == Scheme(p) && id[|Scheme(p)| + 3] == rest[0];
    TrimSpaceSound(id);
    assert !SpaceByte(id[0]) && id[0] in id && '\0' !in id;
  }

  lemma SegmentsInBytes(v: VolumeID)
    requires InScope(v)
    ensures AllBytes(SegmentsOf(v))
  {
    TrimSpaceInBytes(v.targetIQN);
    TrimSpaceInBytes(v.smbShareName);
    ItoaIsNotEmpty(v.lun);
    if v.protocol.NFS? { PathSegmentsInBytes(v.nfsExportPath); }
  }

  lemma TrimSpaceInBytes(s: string)
    requires Bytes(s)
    ensures Bytes(TrimSpace(s))
  {
    TrimLeftSound(s);
    TrimRightSound(TrimLeft(s));
  }

  lemma {:induction false} UnescapeInBytes(s: string)
    requires Bytes(s)
    ensures Unescape(s, Segment).Ok? ==> Bytes(Unescape(s, Segment).value)
  {
    if s != "" {
      var n := if s[0] == '%' && |s| >= 3 then 3 else 1;
      UnescapeInBytes(s[n..]);
    }
  }

  lemma {:induction false} PiecesInBytes(parts: seq<string>)
    requires AllBytes(parts)
    ensures AllBytes(Pieces(parts))
  {
    if parts != [] {
      assert forall i :: 0 <= i < |parts[1..]| ==> parts[1..][i] == parts[i + 1];
      PiecesInBytes(parts[1..]);
      UnescapeInBytes(parts[0]);
    }
  }

  lemma {:induction false} SplitInBytes(s: string, c: char)
    requires Bytes(s)
    ensures AllBytes(Split(s, c))
    decreases |s|
  {
    if c in s {
      CutsAt(s, c);
      var first, rest := Before(s, c), After(s, c);
      assert forall i :: 0 <= i < |first| ==> first[i] == s[i];
      assert forall i :: 0 <= i < |rest| ==> rest[i] == s[|first| + 1 + i];
      SplitInBytes(rest, c);
    }
  }

  lemma PathSegmentsInBytes(path: string)
    requires Bytes(path)
    ensures AllBytes(PathSegments(path))
  {
    SplitInBytes(path, '/');
    PiecesInBytes(Split(path, '/'));
  }

  lemma PartsAreParsed(p: Protocol, host: string, parts: seq<string>, query: string)
    requires !p.Other? && SeparatorFree(host) && AllBytes(parts) && Printable(query)
    ensures Parse(Scheme(p) + "://" + host + PathOf(EscapeAll(parts)) + "?" + query) ==
            (match ParseHost(host) case Err => Err case Ok(h) => Ok(URL(h, PathOf(parts), query)))
  {
    PathReadsBack(parts);
    SchemeIsPlain(p);
    ParseOfParts(Scheme(p), host, PathOf(EscapeAll(parts)), query);
  }

  lemma PartsArePrintable(host: string, parts: seq<string>, query: string)
    requires SeparatorFree(host) && AllBytes(parts) && Printable(query)
    ensures Printable(host + PathOf(EscapeAll(parts)) + ("?" + query))
  {
    PathReadsBack(parts);
    assert Printable("?");
    PrintableConcat("?", query);
    PrintableConcat(host, PathOf(EscapeAll(parts)));
    PrintableConcat(host + PathOf(EscapeAll(parts)), "?" + query);
  }

  lemma Regrouped(scheme: string, host: string, path: string, query: string)
    ensures scheme + "://" + (host + path + ("?" + query)) == scheme + "://" + host + path + "?" + query
    ensures scheme + "://" + host + path + ("?" + query) == scheme + "://" + host + path + "?" + query
  {
  }

  lemma PartsAreRead(p: Protocol, host: string, parts: seq<string>, query: string)
    requires !p.Other? && SeparatorFree(host) && AllBytes(parts) && Printable(query)
    ensures Decoded(Scheme(p) + "://" + host + PathOf(EscapeAll(parts)) + ("?" + query)) ==
            (match ParseHost(host) case Err => Err case Ok(h) => FromURL(p, URL(h, PathOf(parts), query)))
  {
    var path := PathOf(EscapeAll(parts));
    PartsAreParsed(p, host, parts, query);
    PartsArePrintable(host, parts, query);
    ProtocolReadsBack(p, host + path + ("?" + query));
    Regrouped(Scheme(p), host, path, query);
    var id := Scheme(p) + "://" + host + path + "?" + query;
    assert KnownOr(ParseProtocol(id).value, SchemeOf(id)) == p;
  }

  /** A printed handle is taken apart into the parts it was put together from. */
  lemma HandleIsRead(v: VolumeID)
    requires InScope(v) && !v.protocol.Other?
    ensures Decoded(Encoded(v)) ==
            (match ParseHost(HostOf(v))
             case Err => Err
             case Ok(h) => FromURL(v.protocol, URL(h, PathOf(NonBlank(SegmentsOf(v))), QueryText(v))))
  {
    SegmentsInBytes(v);
    NonBlankInBytes(SegmentsOf(v));
    QueryGives(v);
    PartsAreRead(v.protocol, HostOf(v), NonBlank(SegmentsOf(v)), QueryText(v));
  }

  lemma DecodedIsValid(id: string)
    ensures Decoded(id).Ok? ==> Validate(Decoded(id).value)
  {
  }

  lemma GivesBackAsRead(v: VolumeID)
    requires InScope(v) && !v.protocol.Other?
    ensures GivesBack(v) <==>
            && v.capacityBytes >= 0 && ParseHost(HostOf(v)).Ok?
            && ReadsBack(v, ParseHost(HostOf(v)).value, ParseQuery(QueryText(v)))
  {
    HandleIsRead(v);
    QueryGives(v);
    if ParseHost(HostOf(v)).Ok? {
      URLReadsBack(v, URL(ParseHost(HostOf(v)).value, PathOf(NonBlank(SegmentsOf(v))), QueryText(v)));
    }
  }

  lemma UnparsedHostIsIllFormed(v: VolumeID)
    ensures WellFormed(v) ==> ParseHost(HostOf(v)).Ok?
  {
    TrimSpaceSound(v.targetPortal);
  }

  /**
   * A handle gives back every field it was made from exactly when the fields are well formed:
   * over all protocols, all contents of the query, and all names, shares and paths.
   */
  lemma RoundTripExactly(v: VolumeID)
    requires InScope(v)
    ensures GivesBack(v) <==> WellFormed(v)
  {
    if v.protocol.Other? {
      DecodedIsValid(Encoded(v));
    } else {
      GivesBackAsRead(v);
      UnparsedHostIsIllFormed(v);
      if v.capacityBytes >= 0 && ParseHost(HostOf(v)).Ok? {
        var host, q := ParseHost(HostOf(v)).value, ParseQuery(QueryText(v));
        QueryGives(v);
        match v.protocol {
          case ISCSI => IscsiExactly(v, host, q);
          case NFS => NfsExactly(v, host, q);
          case SMB => SmbExactly(v, host, q);
        }
      }
    }
  }

  lemma EncodedPercentDoesNotSurvive()
    ensures !SegmentSurvives("a%41")
  {
    var s := "a%41";
    assert s[1..][3..] == "" && Unescape("", Segment) == Ok("");
    assert Unescape(s[1..], Segment).Ok?;
    assert s[1] in s;
  }

  /** A share named "a%41" does not come back: it is read as "aA". */
  lemma EncodedPercentIsLost(v: VolumeID)
    requires InScope(v) && v.protocol.SMB? && v.smbShareName == "a%41"
    ensures !GivesBack(v)
  {
    RoundTripExactly(v);
    EncodedPercentDoesNotSurvive();
  }
}
