/**
 * Volume handles in the older form, JSON in unpadded base64url (section 5 of RFC 4648), and the
 * decoder that accepts either form.
 */
module LegacyHandle {
  import opened Results
  import opened Strings
  import opened Escapes
  import opened Urls
  import opened VolumeHandle
  import opened HandleRoundTrip

  // ---------- base64url ----------

  function Digit64(n: nat): (c: char)
    requires n < 64
    ensures Value64(c) == Some(n)
  {
    if n < 26 then ('A' as int + n) as char
    else if n < 52 then ('a' as int + n - 26) as char
    else if n < 62 then ('0' as int + n - 52) as char
    else if n == 62 then '-' else '_'
  }

  function Value64(c: char): (n: Option<nat>)
    ensures n.Some? ==> n.value < 64
  {
    if 'A' <= c <= 'Z' then Some(c as int - 'A' as int)
    else if 'a' <= c <= 'z' then Some(c as int - 'a' as int + 26)
    else if '0' <= c <= '9' then Some(c as int - '0' as int + 52)
    else if c == '-' then Some(62)
    else if c == '_' then Some(63)
    else None
  }

  /** Three bytes make four characters; one or two bytes left over make two or three. */
  function EncodeBase64(s: string): string
    requires Bytes(s)
  {
    if s == "" then ""
    else
      var a := s[0] as int;
      if |s| == 1 then [Digit64(a / 4), Digit64(a % 4 * 16)]
      else
        var b := s[1] as int;
        if |s| == 2 then [Digit64(a / 4), Digit64(a % 4 * 16 + b / 16), Digit64(b % 16 * 4)]
        else
          var c := s[2] as int;
          [Digit64(a / 4), Digit64(a % 4 * 16 + b / 16), Digit64(b % 16 * 4 + c / 64), Digit64(c % 64)]
          + EncodeBase64(s[3..])
  }

  /** Line ends are ignored wherever they stand. */
  function WithoutLineEnds(s: string): string {
    if s == "" then ""
    else (if s[0] == '\r' || s[0] == '\n' then "" else [s[0]]) + WithoutLineEnds(s[1..])
  }

  predicate AllBase64(s: string) {
    forall i :: 0 <= i < |s| ==> Value64(s[i]).Some?
  }

  function Sextet(s: string, i: nat): (n: nat)
    requires AllBase64(s) && i < |s|
    ensures n < 64
  {
    Value64(s[i]).value
  }

  /** Bits left over in the last character are not looked at. */
  function DecodeQuanta(s: string): Result<string>
    requires AllBase64(s)
  {
    if s == "" then Ok("")
    else if |s| == 1 then Err
    else
      var a := (Sextet(s, 0) * 4 + Sextet(s, 1) / 16) as char;
      if |s| == 2 then Ok([a])
      else
        var b := (Sextet(s, 1) % 16 * 16 + Sextet(s, 2) / 4) as char;
        if |s| == 3 then Ok([a, b])
        else
          var c := (Sextet(s, 2) % 4 * 64 + Sextet(s, 3)) as char;
          match DecodeQuanta(s[4..])
          case Err => Err
          case Ok(t) => Ok([a, b, c] + t)
  }

  function DecodeBase64(s: string): Result<string> {
    var t := WithoutLineEnds(s);
    if AllBase64(t) then DecodeQuanta(t) else Err
  }

  lemma TripleReadsBack(a: int, b: int, c: int)
    requires 0 <= a < 256 && 0 <= b < 256 && 0 <= c < 256
    ensures a / 4 * 4 + (a % 4 * 16 + b / 16) / 16 == a
    ensures (a % 4 * 16 + b / 16) % 16 * 16 + (b % 16 * 4 + c / 64) / 4 == b
    ensures (b % 16 * 4 + c / 64) % 4 * 64 + c % 64 == c
  {
  }

  lemma QuantumReads(w: nat, x: nat, y: nat, z: nat, rest: string)
    requires w < 64 && x < 64 && y < 64 && z < 64
    requires AllBase64(rest) && DecodeQuanta(rest).Ok?
    ensures var s := [Digit64(w), Digit64(x), Digit64(y), Digit64(z)] + rest;
            && AllBase64(s)
            && DecodeQuanta(s) == Ok([(w * 4 + x / 16) as char, (x % 16 * 16 + y / 4) as char, (y % 4 * 64 + z) as char]
                                     + DecodeQuanta(rest).value)
  {
    var s := [Digit64(w), Digit64(x), Digit64(y), Digit64(z)] + rest;
    assert forall i :: 4 <= i < |s| ==> s[i] == rest[i - 4];
    assert s[4..] == rest;
    assert Sextet(s, 0) == w && Sextet(s, 1) == x && Sextet(s, 2) == y && Sextet(s, 3) == z;
  }

  lemma PartialQuantumReads(w: nat, x: nat, y: nat)
    requires w < 64 && x < 64 && y < 64
    ensures DecodeQuanta([Digit64(w), Digit64(x)]) == Ok([(w * 4 + x / 16) as char])
    ensures DecodeQuanta([Digit64(w), Digit64(x), Digit64(y)]) ==
            Ok([(w * 4 + x / 16) as char, (x % 16 * 16 + y / 4) as char])
  {
    assert Sextet([Digit64(w), Digit64(x)], 0) == w && Sextet([Digit64(w), Digit64(x)], 1) == x;
    var s := [Digit64(w), Digit64(x), Digit64(y)];
    assert Sextet(s, 0) == w && Sextet(s, 1) == x && Sextet(s, 2) == y;
  }

  lemma OneByteReadsBack(s: string)
    requires Bytes(s) && |s| == 1
    ensures AllBase64(EncodeBase64(s)) && DecodeQuanta(EncodeBase64(s)) == Ok(s)
  {
    var a := s[0] as int;
    TripleReadsBack(a, 0, 0);
    PartialQuantumReads(a / 4, a % 4 * 16, 0);
    assert s == [a as char];
  }

  lemma TwoBytesRead(s: string, e: string, w: nat, x: nat, y: nat)
    requires |s| == 2 && w < 64 && x < 64 && y < 64 && e == [Digit64(w), Digit64(x), Digit64(y)]
    requires w * 4 + x / 16 == s[0] as int && x % 16 * 16 + y / 4 == s[1] as int
    ensures AllBase64(e) && DecodeQuanta(e) == Ok(s)
  {
    PartialQuantumReads(w, x, y);
    assert s == [s[0], s[1]];
  }

  lemma TwoBytesReadBack(s: string)
    requires Bytes(s) && |s| == 2
    ensures AllBase64(EncodeBase64(s)) && DecodeQuanta(EncodeBase64(s)) == Ok(s)
  {
    var a, b := s[0] as int, s[1] as int;
    TripleReadsBack(a, b, 0);
    TwoBytesRead(s, EncodeBase64(s), a / 4, a % 4 * 16 + b / 16, b % 16 * 4);
  }

  lemma ThreeBytesRead(s: string, e: string, w: nat, x: nat, y: nat, z: nat, rest: string)
    requires |s| > 2 && w < 64 && x < 64 && y < 64 && z < 64
    requires e == [Digit64(w), Digit64(x), Digit64(y), Digit64(z)] + rest
    requires w * 4 + x / 16 == s[0] as int && x % 16 * 16 + y / 4 == s[1] as int && y % 4 * 64 + z == s[2] as int
    requires AllBase64(rest) && DecodeQuanta(rest) == Ok(s[3..])
    ensures AllBase64(e) && DecodeQuanta(e) == Ok(s)
  {
    QuantumReads(w, x, y, z, rest);
    assert s == [s[0], s[1], s[2]] + s[3..];
  }

  lemma ThreeBytesReadBack(s: string)
    requires Bytes(s) && |s| > 2
    requires AllBase64(EncodeBase64(s[3..])) && DecodeQuanta(EncodeBase64(s[3..])) == Ok(s[3..])
    ensures AllBase64(EncodeBase64(s)) && DecodeQuanta(EncodeBase64(s)) == Ok(s)
  {
    var a, b, c := s[0] as int, s[1] as int, s[2] as int;
    TripleReadsBack(a, b, c);
    ThreeBytesRead(s, EncodeBase64(s), a / 4, a % 4 * 16 + b / 16, b % 16 * 4 + c / 64, c % 64, EncodeBase64(s[3..]));
  }

  lemma {:induction false} QuantaReadBack(s: string)
    requires Bytes(s)
    ensures AllBase64(EncodeBase64(s)) && DecodeQuanta(EncodeBase64(s)) == Ok(s)
  {
    if |s| == 1 {
      OneByteReadsBack(s);
    } else if |s| == 2 {
      TwoBytesReadBack(s);
    } else if |s| > 2 {
      QuantaReadBack(s[3..]);
      ThreeBytesReadBack(s);
    }
  }

  lemma {:induction false} NoLineEnds(s: string)
    requires AllBase64(s)
    ensures WithoutLineEnds(s) == s
  {
    if s != "" {
      assert Value64(s[0]).Some?;
      NoLineEnds(s[1..]);
    }
  }

  /** Decoding undoes encoding, for all bytes. */
  lemma Base64RoundTrip(s: string)
    requires Bytes(s)
    ensures DecodeBase64(EncodeBase64(s)) == Ok(s)
  {
    QuantaReadBack(s);
    NoLineEnds(EncodeBase64(s));
  }

  lemma {:induction false} LineEndsHideNothing(s: string, c: char)
    requires c in s && c != '\r' && c != '\n'
    ensures c in WithoutLineEnds(s)
  {
    if s[0] != c { LineEndsHideNothing(s[1..], c); }
  }

  // ---------- Either form ----------

  datatype LegacyID = LegacyID(
    volumeName: string, targetPortal: string, targetName: string, targetIQN: string, lun: int, vhdxPath: string,
    sizeBytes: int)

  /** encoding/json on this struct, taken as a codec that loses nothing. */
  datatype Json = Json(marshal: LegacyID -> string, unmarshal: string -> Result<LegacyID>)

  ghost predicate IsCodec(json: Json) {
    forall v :: Bytes(json.marshal(v)) && json.unmarshal(json.marshal(v)) == Ok(v)
  }

  function EncodeLegacy(json: Json, v: LegacyID): string
    requires Bytes(json.marshal(v))
  {
    EncodeBase64(json.marshal(v))
  }

  function DecodeLegacy(json: Json, id: string): Result<LegacyID> {
    match DecodeBase64(id)
    case Err => Err
    case Ok(text) => json.unmarshal(text)
  }

  predicate IsInt32(n: int) {
    -0x8000_0000 <= n < 0x8000_0000
  }

  /** Go's conversion to int32 keeps the low 32 bits. */
  function ToInt32(n: int): (r: int)
    ensures IsInt32(r) && (r == n <==> IsInt32(n))
  {
    (n + 0x8000_0000) % 0x1_0000_0000 - 0x8000_0000
  }

  function LegacyOf(v: VolumeID): LegacyID {
    LegacyID(v.name, v.targetPortal, v.targetName, v.targetIQN, ToInt32(v.lun), v.vhdxPath, v.capacityBytes)
  }

  function FromLegacy(v: LegacyID): VolumeID {
    BLANK.(name := v.volumeName, protocol := ISCSI, targetPortal := v.targetPortal, targetName := v.targetName,
           targetIQN := v.targetIQN, lun := v.lun, vhdxPath := v.vhdxPath, capacityBytes := v.sizeBytes)
  }

  /** The URI form is tried first. */
  function DecodeAny(json: Json, id: string): Result<(VolumeID, LegacyID)> {
    match Decoded(id)
    case Ok(v) => Ok((v, LegacyOf(v)))
    case Err =>
      match DecodeLegacy(json, id)
      case Err => Err
      case Ok(legacy) => Ok((FromLegacy(legacy), legacy))
  }

  /** No handle is of both forms: a URI holds a colon, which base64url never does. */
  lemma FormsNeverCollide(id: string)
    ensures Decoded(id).Err? || DecodeBase64(id).Err?
  {
    if ':' in id {
      LineEndsHideNothing(id, ':');
      var t := WithoutLineEnds(id);
      assert Value64(':').None?;
      var i :| 0 <= i < |t| && t[i] == ':';
      assert !AllBase64(t);
    } else {
      IndexNowhere(id, "://");
    }
  }

  /** Whatever an older handle was made from comes back, both as the record and as a volume. */
  lemma LegacyRoundTrip(json: Json, v: LegacyID)
    requires IsCodec(json)
    ensures DecodeAny(json, EncodeLegacy(json, v)) == Ok((FromLegacy(v), v))
  {
    Base64RoundTrip(json.marshal(v));
    FormsNeverCollide(EncodeLegacy(json, v));
  }

  /** Two older handles are equal only if they were made from the same record. */
  lemma LegacyHandlesDiffer(json: Json, v: LegacyID, w: LegacyID)
    requires IsCodec(json)
    ensures EncodeLegacy(json, v) == EncodeLegacy(json, w) ==> v == w
  {
    LegacyRoundTrip(json, v);
    LegacyRoundTrip(json, w);
  }

  /**
   * A well-formed handle in URI form comes back through the same decoder; the record made from it
   * has the same LUN exactly when that fits 32 bits.
   */
  lemma UriThroughEither(json: Json, v: VolumeID)
    requires InScope(v) && WellFormed(v)
    ensures DecodeAny(json, Encoded(v)).Ok?
    ensures var (w, legacy) := DecodeAny(json, Encoded(v)).value;
            && SameExported(v, w)
            && legacy.(lun := v.lun) ==
               LegacyID(v.name, v.targetPortal, v.targetName, v.targetIQN, v.lun, v.vhdxPath, v.capacityBytes)
            && (legacy.lun == v.lun <==> IsInt32(v.lun))
  {
    RoundTripExactly(v);
  }
}
