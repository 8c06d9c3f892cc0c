/** Percent-encoding (section 2.1 of RFC 3986) as Go's net/url does it in paths and in queries. */
module Escapes {
  import opened Results
  import opened Strings

  /** Where a text stands: a path segment, a query key or value, or the host. */
  datatype Place = Segment | Query | Host

  predicate IsAlphanumeric(c: char) {
    IsDigit(c) || 'a' <= c <= 'z' || 'A' <= c <= 'Z'
  }

  predicate IsUnreserved(c: char) {
    IsAlphanumeric(c) || c == '-' || c == '_' || c == '.' || c == '~'
  }

  predicate IsHostMark(c: char) {
    || c == '!' || c == '$' || c == '&' || c == '\'' || c == '(' || c == ')' || c == '*'
    || c == '+' || c == ',' || c == ';' || c == '=' || c == ':'
    || c == '[' || c == ']' || c == '<' || c == '>' || c == '"'
  }

  predicate ShouldEscape(c: char, place: Place) {
    match place
    case Segment => !IsUnreserved(c) && !(c == '$' || c == '&' || c == '+' || c == ':' || c == '=' || c == '@')
    case Query => !IsUnreserved(c)
    case Host => !IsUnreserved(c) && !IsHostMark(c)
  }

  predicate IsHex(c: char) {
    IsDigit(c) || 'a' <= c <= 'f' || 'A' <= c <= 'F'
  }

  function HexValue(c: char): (n: nat)
    requires IsHex(c)
    ensures n < 16
  {
    if IsDigit(c) then c as int - '0' as int
    else if 'a' <= c <= 'f' then c as int - 'a' as int + 10
    else c as int - 'A' as int + 10
  }

  function HexDigit(n: nat): (c: char)
    requires n < 16
    ensures IsHex(c) && HexValue(c) == n
  {
    if n < 10 then ('0' as int + n) as char else ('A' as int + n - 10) as char
  }

  function EscapeChar(c: char, place: Place): string {
    if place.Query? && c == ' ' then "+"
    else if ShouldEscape(c, place) then ['%', HexDigit(c as int / 16 % 16), HexDigit(c as int % 16)]
    else [c]
  }

  /** url.PathEscape and url.QueryEscape. */
  function Escape(s: string, place: Place): string {
    if s == "" then "" else EscapeChar(s[0], place) + Escape(s[1..], place)
  }

  /** In a host only bytes beyond ASCII and '%' itself may be written percent-encoded. */
  predicate MayBeEncoded(h1: char, h2: char, place: Place)
    requires IsHex(h1) && IsHex(h2)
  {
    place.Host? ==> HexValue(h1) >= 8 || (h1 == '2' && h2 == '5')
  }

  predicate MayBeLiteral(c: char, place: Place) {
    place.Host? ==> c as int >= 128 || !ShouldEscape(c, Host)
  }

  function Prepend(c: char, r: Result<string>): Result<string> {
    match r
    case Err => Err
    case Ok(t) => Ok([c] + t)
  }

  /** url.PathUnescape, url.QueryUnescape, and the decoding of a host. */
  function Unescape(s: string, place: Place): Result<string> {
    if s == "" then Ok("")
    else if s[0] == '%' then
      if |s| >= 3 && IsHex(s[1]) && IsHex(s[2]) && MayBeEncoded(s[1], s[2], place) then
        Prepend((16 * HexValue(s[1]) + HexValue(s[2])) as char, Unescape(s[3..], place))
      else Err
    else if !MayBeLiteral(s[0], place) then Err
    else Prepend(if place.Query? && s[0] == '+' then ' ' else s[0], Unescape(s[1..], place))
  }

  lemma UnescapeChar(c: char, place: Place, rest: string)
    requires c as int < 256 && !place.Host?
    ensures Unescape(EscapeChar(c, place) + rest, place) == Prepend(c, Unescape(rest, place))
  {
  }

  /** Unescaping undoes escaping, for all bytes. */
  lemma {:induction false} EscapeRoundTrip(s: string, place: Place)
    requires Bytes(s) && !place.Host?
    ensures Unescape(Escape(s, place), place) == Ok(s)
  {
    if s != "" {
      EscapeRoundTrip(s[1..], place);
      UnescapeChar(s[0], place, Escape(s[1..], place));
      assert s == [s[0]] + s[1..];
    }
  }

  /** An escaped text holds only '%', '+' and bytes that need no escaping, printable ASCII all of them. */
  predicate EscapedChar(c: char, place: Place) {
    c == '%' || c == '+' || !ShouldEscape(c, place)
  }

  lemma {:induction false} EscapedChars(s: string, place: Place)
    ensures forall c :: c in Escape(s, place) ==> EscapedChar(c, place)
    ensures s != "" ==> Escape(s, place) != ""
  {
    if s != "" {
      EscapedChars(s[1..], place);
    }
  }

  /** Escaped texts never hold the bytes that separate the parts of a URI. */
  lemma SeparatorsAreEscaped(s: string, place: Place)
    requires !place.Host?
    ensures var e := Escape(s, place);
            && '/' !in e && '?' !in e && '#' !in e && ';' !in e
            && (place.Query? ==> '&' !in e && '=' !in e)
            && (forall i :: 0 <= i < |e| ==> ' ' < e[i] < 0x7f as char)
  {
  }

  function Concat(a: Result<string>, b: Result<string>): Result<string> {
    if a.Err? || b.Err? then Err else Ok(a.value + b.value)
  }

  lemma ConcatPrepends(c: char, a: Result<string>, b: Result<string>)
    ensures Concat(Prepend(c, a), b) == Prepend(c, Concat(a, b))
  {
    if a.Ok? && b.Ok? {
      assert [c] + a.value + b.value == [c] + (a.value + b.value);
    }
  }

  lemma {:induction false} UnescapeConcat(a: string, b: string, place: Place)
    requires Unescape(a, place).Ok?
    ensures Unescape(a + b, place) == Concat(Unescape(a, place), Unescape(b, place))
  {
    if a == "" {
      assert a + b == b;
      assert forall t: string :: "" + t == t;
    } else if a[0] == '%' {
      assert (a + b)[0] == '%' && (a + b)[1] == a[1] && (a + b)[2] == a[2] && (a + b)[3..] == a[3..] + b;
      UnescapeConcat(a[3..], b, place);
      var c := (16 * HexValue(a[1]) + HexValue(a[2])) as char;
      ConcatPrepends(c, Unescape(a[3..], place), Unescape(b, place));
    } else {
      assert (a + b)[0] == a[0] && (a + b)[1..] == a[1..] + b;
      UnescapeConcat(a[1..], b, place);
      var c := if place.Query? && a[0] == '+' then ' ' else a[0];
      ConcatPrepends(c, Unescape(a[1..], place), Unescape(b, place));
    }
  }

  /** Only percent signs (and '+' in a query) make a text change when it is unescaped. */
  lemma {:induction false} UnescapePlain(s: string, place: Place)
    requires '%' !in s && (place.Query? ==> '+' !in s)
    requires forall c :: c in s ==> MayBeLiteral(c, place)
    ensures Unescape(s, place) == Ok(s)
  {
    if s != "" {
      assert s[0] in s && forall c :: c in s[1..] ==> c in s;
      UnescapePlain(s[1..], place);
      assert s == [s[0]] + s[1..];
    }
  }

  /** Unescaping never lengthens, and it shortens whatever holds a percent sign. */
  lemma {:induction false} UnescapeShortens(s: string, place: Place)
    requires Unescape(s, place).Ok?
    ensures |Unescape(s, place).value| <= |s|
    ensures '%' in s ==> |Unescape(s, place).value| < |s|
  {
    if s != "" {
      var n := if s[0] == '%' then 3 else 1;
      UnescapeShortens(s[n..], place);
      assert '%' in s && s[0] != '%' ==> '%' in s[1..];
    }
  }

  /** A second unescaping, as pathSegments does it: kept as is when it fails. */
  function UnescapeIfPossible(s: string): string {
    match Unescape(s, Segment)
    case Err => s
    case Ok(t) => t
  }

  /** The second unescaping does no harm exactly to texts without '%' and to malformed ones. */
  lemma SecondUnescapeHarmless(s: string)
    ensures UnescapeIfPossible(s) == s <==> ('%' !in s || Unescape(s, Segment).Err?)
    ensures UnescapeIfPossible(s) != s ==> |UnescapeIfPossible(s)| < |s|
  {
  }
}
