/** Go's net/url and net, as far as volume handles are read and written with them. */
module Urls {
  import opened Results
  import opened Strings
  import opened Escapes

  /** What is used of a parsed URL. */
  datatype URL = URL(host: string, path: string, rawQuery: string)

  // ---------- url.Parse ----------

  predicate IsControl(c: char) {
    c < ' ' || c as int == 0x7f
  }

  predicate HasControl(s: string) {
    exists i :: 0 <= i < |s| && IsControl(s[i])
  }

  predicate IsLetter(c: char) {
    'a' <= c <= 'z' || 'A' <= c <= 'Z'
  }

  /** How many bytes at the start may be part of a scheme. */
  function SchemeRun(s: string): (n: nat)
    ensures n <= |s|
  {
    if s != "" && (IsAlphanumeric(s[0]) || s[0] == '+' || s[0] == '-' || s[0] == '.') then 1 + SchemeRun(s[1..]) else 0
  }

  /** The scheme and what follows its colon; no scheme is "". */
  function GetScheme(s: string): Result<(string, string)> {
    var n := SchemeRun(s);
    if n == |s| || s[n] != ':' then Ok(("", s))
    else if n == 0 then Err
    else if !IsLetter(s[0]) then Ok(("", s))
    else Ok((s[..n], s[n + 1..]))
  }

  // ---------- Hosts ----------

  /** How many hexadecimal digits the text starts with. */
  function HexRun(s: string): (n: nat)
    ensures n <= |s| && forall i :: 0 <= i < n ==> IsHex(s[i])
  {
    if s != "" && IsHex(s[0]) then 1 + HexRun(s[1..]) else 0
  }

  /** A decimal field of an IPv4 address, without leading zeros. */
  predicate IsOctet(s: string) {
    1 <= |s| <= 3 && AllDigits(s) && (s[0] == '0' ==> |s| == 1) && DigitsValue(s) < 256
  }

  predicate IsIPv4(s: string) {
    var parts := Split(s, '.');
    |parts| == 4 && IsOctet(parts[0]) && IsOctet(parts[1]) && IsOctet(parts[2]) && IsOctet(parts[3])
  }

  /** All 16 bytes are given, or "::" stands for the missing ones, of which there is one at least. */
  predicate FillsAddress(bytes: nat, ellipsis: bool) {
    if bytes < 16 then ellipsis else bytes == 16 && !ellipsis
  }

  /** The fields of an IPv6 address (section 2.2 of RFC 4291) of which so many bytes have been read. */
  predicate IPv6Fields(s: string, bytes: nat, ellipsis: bool)
    decreases |s|
  {
    var run := HexRun(s);
    && bytes < 16 && 1 <= run <= 4
    && var rest := s[run..];
       if rest == "" then FillsAddress(bytes + 2, ellipsis)
       else if rest[0] == '.' then IsIPv4(s) && (ellipsis || bytes == 12) && FillsAddress(bytes + 4, ellipsis)
       else if rest[0] != ':' || rest == ":" then false
       else if rest[1] != ':' then IPv6Fields(rest[1..], bytes + 2, ellipsis)
       else !ellipsis && if rest == "::" then FillsAddress(bytes + 2, true) else IPv6Fields(rest[2..], bytes + 2, true)
  }

  /** netip.ParseAddr accepting an address that is not IPv4. A zone may follow a '%'. */
  predicate IsIPv6(s: string) {
    var address := Before(s, '%');
    && ('%' in s ==> After(s, '%') != "")
    && (address == "::" || if "::" <= address then IPv6Fields(address[2..], 0, true) else IPv6Fields(address, 0, false))
  }

  /** Nothing, or a colon and a port. */
  predicate ValidOptionalPort(s: string) {
    s == "" || (s[0] == ':' && AllDigits(s[1..]))
  }

  /** In a zone anything may be written percent-encoded that a host may hold. */
  function UnescapeZone(s: string): Result<string> {
    if s == "" then Ok("")
    else if s[0] == '%' then
      if |s| >= 3 && IsHex(s[1]) && IsHex(s[2]) && MayBeEncodedInZone(s[1], s[2]) then
        Prepend((16 * HexValue(s[1]) + HexValue(s[2])) as char, UnescapeZone(s[3..]))
      else Err
    else if !MayBeLiteral(s[0], Host) then Err
    else Prepend(s[0], UnescapeZone(s[1..]))
  }

  predicate MayBeEncodedInZone(h1: char, h2: char)
    requires IsHex(h1) && IsHex(h2)
  {
    var v := (16 * HexValue(h1) + HexValue(h2)) as char;
    (h1 == '2' && h2 == '5') || v == ' ' || !ShouldEscape(v, Host)
  }

  /** What stands between the brackets; a zone starts with an encoded percent sign. */
  function UnescapeLiteral(s: string): Result<string> {
    var zone := Index(s, "%25");
    if zone < 0 then Unescape(s, Host) else Concat(Unescape(s[..zone], Host), UnescapeZone(s[zone..]))
  }

  /** An IPv6 address in brackets with an optional port. */
  function ParseLiteral(s: string): Result<string> {
    var close := LastIndex(s, ']');
    if close < 1 || LastIndex(s, '[') != 0 || !ValidOptionalPort(s[close + 1..]) then Err
    else
      var address := UnescapeLiteral(s[1..close]);
      if address.Err? || !IsIPv6(address.value) then Err else Ok("[" + address.value + "]" + s[close + 1..])
  }

  /** A host with an optional port, which follows its first colon or the closing bracket. */
  function ParseHost(s: string): Result<string> {
    if '[' in s then ParseLiteral(s)
    else if ':' in s && !AllDigits(After(s, ':')) then Err
    else Unescape(s, Host)
  }

  predicate IsUserinfoChar(c: char) {
    || IsUnreserved(c) || c == ':' || c == '!' || c == '$' || c == '&' || c == '\'' || c == '(' || c == ')'
    || c == '*' || c == '+' || c == ',' || c == ';' || c == '=' || c == '%' || c == '@'
  }

  predicate ValidUserinfo(s: string) {
    (forall i :: 0 <= i < |s| ==> IsUserinfoChar(s[i])) && Unescape(s, Segment).Ok?
  }

  /** The host of "user@host"; the user part must be well formed and is dropped. */
  function ParseAuthority(s: string): Result<string> {
    var at := LastIndex(s, '@');
    if at >= 0 && !ValidUserinfo(s[..at]) then Err else ParseHost(s[at + 1..])
  }

  function ParsePath(host: string, path: string, query: string): Result<URL> {
    match Unescape(path, Segment)
    case Err => Err
    case Ok(p) => Ok(URL(host, p, query))
  }

  /** What follows the authority: from the first slash on. */
  function FromSlash(s: string): string {
    if s == "" || s[0] == '/' then s else FromSlash(s[1..])
  }

  /** The hierarchical part: "//authority/path" or a path alone. */
  function ParseHierarchy(scheme: string, rest: string, query: string): Result<URL> {
    if "//" <= rest && (scheme != "" || !("///" <= rest)) then
      match ParseAuthority(Before(rest[2..], '/'))
      case Err => Err
      case Ok(host) => ParsePath(host, FromSlash(rest[2..]), query)
    else ParsePath("", rest, query)
  }

  function ParseWithoutFragment(s: string): Result<URL> {
    if HasControl(s) then Err
    else if s == "*" then Ok(URL("", "*", ""))
    else
      match GetScheme(s)
      case Err => Err
      case Ok((scheme, rest)) =>
        var (main, query) := (Before(rest, '?'), After(rest, '?'));
        if "/" <= main then ParseHierarchy(scheme, main, query)
        else if scheme != "" then Ok(URL("", "", query))
        else if ':' in Before(main, '/') then Err
        else ParsePath("", main, query)
  }

  /** url.Parse. */
  function Parse(s: string): Result<URL> {
    if Unescape(After(s, '#'), Segment).Err? then Err else ParseWithoutFragment(Before(s, '#'))
  }

  // ---------- Parsing what was printed ----------

  lemma {:induction false} FromSlashSkips(a: string, b: string)
    requires '/' !in a && (b == "" || b[0] == '/')
    ensures FromSlash(a + b) == b && Before(a + b, '/') == a
  {
    if a == "" {
      assert a + b == b;
    } else {
      assert (a + b)[0] == a[0] != '/' && (a + b)[1..] == a[1..] + b;
      FromSlashSkips(a[1..], b);
    }
  }

  lemma {:induction false} SchemeRunEnds(scheme: string, rest: string)
    requires forall i :: 0 <= i < |scheme| ==> IsLetter(scheme[i])
    ensures SchemeRun(scheme + ":" + rest) == |scheme|
  {
    var s := scheme + ":" + rest;
    if scheme != "" {
      assert s[0] == scheme[0] && s[1..] == scheme[1..] + ":" + rest;
      SchemeRunEnds(scheme[1..], rest);
    }
  }

  predicate Printable(s: string) {
    !HasControl(s) && '#' !in s
  }

  lemma PrintableConcat(a: string, b: string)
    requires Printable(a) && Printable(b)
    ensures Printable(a + b)
  {
  }

  lemma PartsArePrintable(scheme: string, host: string, path: string, query: string)
    requires Printable(scheme) && Printable(host) && Printable(path) && Printable(query)
    ensures Printable(scheme + ":" + ("//" + (host + path) + "?" + query))
  {
  }

  lemma HierarchyOfParts(scheme: string, host: string, path: string, query: string)
    requires scheme != "" && '/' !in host && '@' !in host && (path == "" || path[0] == '/')
    ensures ParseHierarchy(scheme, "//" + (host + path), query) ==
            (match ParseHost(host) case Err => Err case Ok(h) => ParsePath(h, path, query))
  {
    var main := "//" + (host + path);
    assert main[2..] == host + path;
    FromSlashSkips(host, path);
    assert LastIndex(host, '@') == -1;
    assert host[0..] == host;
  }

  /** A URI put together from well-separated parts is taken apart into the same parts. */
  lemma ParseOfParts(scheme: string, host: string, path: string, query: string)
    requires scheme != "" && (forall i :: 0 <= i < |scheme| ==> IsLetter(scheme[i]))
    requires Printable(host) && '/' !in host && '?' !in host && '@' !in host
    requires Printable(path) && '?' !in path && (path == "" || path[0] == '/')
    requires Printable(query) && Printable(scheme)
    ensures Parse(scheme + "://" + host + path + "?" + query) ==
            (match ParseHost(host) case Err => Err case Ok(h) => ParsePath(h, path, query))
  {
    var main := "//" + (host + path);
    var s := scheme + ":" + (main + "?" + query);
    assert scheme + "://" + host + path + "?" + query == s;
    PartsArePrintable(scheme, host, path, query);
    CutNowhere(s, '#');
    SchemeRunEnds(scheme, main + "?" + query);
    assert s[|scheme| + 1..] == main + ['?'] + query && s[..|scheme|] == scheme;
    CutAtFirst(main, '?', query);
    HierarchyOfParts(scheme, host, path, query);
  }

  // ---------- Query strings ----------

  /** A query as url.ParseQuery reads it: its pairs in order. */
  type Pairs = seq<(string, string)>

  function ParsePair(s: string): Pairs {
    if ';' in s || s == "" then []
    else
      match (Unescape(Before(s, '='), Query), Unescape(After(s, '='), Query))
      case (Ok(k), Ok(v)) => [(k, v)]
      case (_, _) => []
  }

  lemma {:induction false} AfterIsShorter(s: string, c: char)
    requires s != ""
    ensures |After(s, c)| < |s|
  {
    if s[0] != c && s[1..] != "" { AfterIsShorter(s[1..], c); }
  }

  /** Malformed pairs are skipped. */
  function ParseQuery(s: string): Pairs
    decreases |s|
  {
    if s == "" then []
    else AfterIsShorter(s, '&'); ParsePair(Before(s, '&')) + ParseQuery(After(s, '&'))
  }

  /** url.Values.Get on the pairs: the first value of this key, or "". */
  function Get(ps: Pairs, key: string): string {
    if ps == [] then "" else if ps[0].0 == key then ps[0].1 else Get(ps[1..], key)
  }

  predicate Has(ps: Pairs, key: string) {
    exists i :: 0 <= i < |ps| && ps[i].0 == key
  }

  function EncodePair(p: (string, string)): string {
    Escape(p.0, Query) + "=" + Escape(p.1, Query)
  }

  function EncodePairs(ps: Pairs): seq<string> {
    if ps == [] then [] else [EncodePair(ps[0])] + EncodePairs(ps[1..])
  }

  function EncodeQuery(ps: Pairs): string {
    Join(EncodePairs(ps), '&')
  }

  predicate PairsInBytes(ps: Pairs) {
    forall i :: 0 <= i < |ps| ==> Bytes(ps[i].0) && Bytes(ps[i].1)
  }

  lemma PairRoundTrip(p: (string, string))
    requires Bytes(p.0) && Bytes(p.1)
    ensures ParsePair(EncodePair(p)) == [p]
    ensures '&' !in EncodePair(p) && Printable(EncodePair(p)) && EncodePair(p) != ""
  {
    var k, v := Escape(p.0, Query), Escape(p.1, Query);
    SeparatorsAreEscaped(p.0, Query);
    SeparatorsAreEscaped(p.1, Query);
    CutAtFirst(k, '=', v);
    assert Printable(k) && Printable("=") && Printable(v);
    PrintableConcat(k, "=");
    PrintableConcat(k + "=", v);
    EscapeRoundTrip(p.0, Query);
    EscapeRoundTrip(p.1, Query);
  }

  lemma QueryUnfolds(ps: Pairs)
    requires ps != []
    ensures |ps| == 1 ==> EncodeQuery(ps) == EncodePair(ps[0])
    ensures |ps| > 1 ==> EncodeQuery(ps) == EncodePair(ps[0]) + ['&'] + EncodeQuery(ps[1..])
  {
    assert EncodePairs(ps)[1..] == EncodePairs(ps[1..]);
    assert |ps| > 1 ==> |EncodePairs(ps)| > 1;
  }

  lemma {:induction false} QueryIsPrintable(ps: Pairs)
    requires PairsInBytes(ps)
    ensures Printable(EncodeQuery(ps))
    decreases |ps|
  {
    if ps != [] {
      QueryUnfolds(ps);
      PairRoundTrip(ps[0]);
      if |ps| > 1 {
        QueryIsPrintable(ps[1..]);
        assert Printable(['&']);
        PrintableConcat(EncodePair(ps[0]), ['&']);
        PrintableConcat(EncodePair(ps[0]) + ['&'], EncodeQuery(ps[1..]));
      }
    }
  }

  /** Whatever the values hold, the query gives them all back in order. */
  lemma {:induction false} QueryRoundTrip(ps: Pairs)
    requires PairsInBytes(ps)
    ensures ParseQuery(EncodeQuery(ps)) == ps
    decreases |ps|
  {
    if ps != [] {
      QueryUnfolds(ps);
      PairRoundTrip(ps[0]);
      if |ps| == 1 {
        CutNowhere(EncodePair(ps[0]), '&');
        assert ps == [ps[0]];
      } else {
        QueryRoundTrip(ps[1..]);
        CutAtFirst(EncodePair(ps[0]), '&', EncodeQuery(ps[1..]));
        assert ps == [ps[0]] + ps[1..];
      }
    }
  }

  // ---------- net.SplitHostPort and net.JoinHostPort ----------

  function SplitHostPort(s: string): Result<(string, string)> {
    var colon := LastIndex(s, ':');
    if colon < 0 then Err
    else if s[0] == '[' then
      if ']' !in s then Err
      else
        CutsAt(s, ']');
        var end := |Before(s, ']')|;
        if end + 1 != colon || '[' in s[1..] || ']' in s[end + 1..] then Err
        else Ok((s[1..end], s[colon + 1..]))
    else if ':' in s[..colon] || '[' in s || ']' in s then Err
    else Ok((s[..colon], s[colon + 1..]))
  }

  function JoinHostPort(host: string, port: string): string {
    if ':' in host then "[" + host + "]:" + port else host + ":" + port
  }
}
