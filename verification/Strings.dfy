/**
 * Go's string functions, as far as the handle codecs use them. A `char` of a string stands for one
 * byte, so the strings of interest satisfy `Bytes`.
 */
module Strings {
  import opened Results

  predicate Bytes(s: string) {
    forall i :: 0 <= i < |s| ==> s[i] as int < 256
  }

  // ---------- Cutting ----------

  /** strings.Cut: what comes before the first `c`, or everything. */
  function Before(s: string, c: char): string {
    if s == "" || s[0] == c then "" else [s[0]] + Before(s[1..], c)
  }

  /** strings.Cut: what comes after the first `c`, or nothing. */
  function After(s: string, c: char): string {
    if s == "" then "" else if s[0] == c then s[1..] else After(s[1..], c)
  }

  lemma {:induction false} CutAtFirst(a: string, c: char, b: string)
    requires c !in a
    ensures Before(a + [c] + b, c) == a && After(a + [c] + b, c) == b
  {
    var s := a + [c] + b;
    if a == "" {
      assert s[1..] == b;
    } else {
      assert s[0] == a[0] != c && s[1..] == a[1..] + [c] + b;
      CutAtFirst(a[1..], c, b);
    }
  }

  lemma {:induction false} CutNowhere(s: string, c: char)
    requires c !in s
    ensures Before(s, c) == s && After(s, c) == ""
  {
    if s != "" {
      assert s[0] != c && c !in s[1..];
      CutNowhere(s[1..], c);
    }
  }

  /** Cutting takes a string apart without loss. */
  lemma {:induction false} CutsAt(s: string, c: char)
    requires c in s
    ensures s == Before(s, c) + [c] + After(s, c) && c !in Before(s, c)
  {
    if s[0] != c {
      CutsAt(s[1..], c);
    }
  }

  /** strings.Split on one byte. */
  function Split(s: string, c: char): seq<string>
    decreases |s|
  {
    if c !in s then [s]
    else CutsAt(s, c); [Before(s, c)] + Split(After(s, c), c)
  }

  /** strings.Join. */
  function Join(parts: seq<string>, sep: char): string {
    if |parts| == 0 then ""
    else if |parts| == 1 then parts[0]
    else parts[0] + [sep] + Join(parts[1..], sep)
  }

  predicate Free(parts: seq<string>, c: char) {
    forall i :: 0 <= i < |parts| ==> c !in parts[i]
  }

  lemma {:induction false} SplitUndoesJoin(parts: seq<string>, c: char)
    requires parts != [] && Free(parts, c)
    ensures Split(Join(parts, c), c) == parts
    decreases |parts|
  {
    if |parts| > 1 {
      var rest := Join(parts[1..], c);
      CutAtFirst(parts[0], c, rest);
      assert Free(parts[1..], c) by {
        forall i | 0 <= i < |parts[1..]| ensures c !in parts[1..][i] { assert parts[1..][i] == parts[i + 1]; }
      }
      SplitUndoesJoin(parts[1..], c);
      assert parts == [parts[0]] + parts[1..];
    }
  }

  lemma {:induction false} JoinUndoesSplit(s: string, c: char)
    ensures Join(Split(s, c), c) == s && Free(Split(s, c), c) && Split(s, c) != []
    decreases |s|
  {
    if c in s {
      CutsAt(s, c);
      JoinUndoesSplit(After(s, c), c);
      assert Split(s, c)[1..] == Split(After(s, c), c);
    }
  }

  /** strings.Index of a sequence of bytes; -1 when it does not occur. */
  function Index(s: string, sub: string): (i: int)
    ensures i == -1 || (0 <= i <= |s| - |sub| && s[i..i + |sub|] == sub)
    decreases |s|
  {
    if |s| >= |sub| && s[..|sub|] == sub then 0
    else if s == "" || Index(s[1..], sub) < 0 then -1
    else
      assert s[1..][Index(s[1..], sub)..Index(s[1..], sub) + |sub|] == sub;
      Index(s[1..], sub) + 1
  }

  /** The sequence occurs first where its first byte does. */
  lemma {:induction false} IndexAtFirst(a: string, sub: string, b: string)
    requires sub != "" && sub[0] !in a
    ensures Index(a + sub + b, sub) == |a|
  {
    var s := a + sub + b;
    if a == "" {
      assert s[..|sub|] == sub;
    } else {
      assert s[..|sub|][0] == a[0];
      assert s[1..] == a[1..] + sub + b;
      IndexAtFirst(a[1..], sub, b);
    }
  }

  lemma {:induction false} IndexNowhere(s: string, sub: string)
    requires sub != "" && sub[0] !in s
    ensures Index(s, sub) == -1
  {
  }

  /** strings.LastIndexByte. */
  function LastIndex(s: string, c: char): (i: int)
    ensures -1 <= i < |s|
    ensures i >= 0 ==> s[i] == c
    ensures forall j :: i < j < |s| ==> s[j] != c
    decreases |s|
  {
    if s == "" then -1
    else if s[|s| - 1] == c then |s| - 1
    else LastIndex(s[..|s| - 1], c)
  }

  // ---------- White space ----------

  /** White space in ASCII. */
  predicate IsSpace(c: char) {
    c == ' ' || '\t' <= c <= '\r'
  }

  /** U+0085 and U+00A0 in UTF-8. */
  predicate IsSpaceOfTwo(a: char, b: char) {
    a as int == 0xC2 && (b as int == 0x85 || b as int == 0xA0)
  }

  /** U+1680, U+2000 to U+200A, U+2028, U+2029, U+202F, U+205F and U+3000 in UTF-8. */
  predicate IsSpaceOfThree(a: char, b: char, c: char) {
    || (a as int == 0xE1 && b as int == 0x9A && c as int == 0x80)
    || (a as int == 0xE2 && b as int == 0x80
        && (0x80 <= c as int <= 0x8A || c as int == 0xA8 || c as int == 0xA9 || c as int == 0xAF))
    || (a as int == 0xE2 && b as int == 0x81 && c as int == 0x9F)
    || (a as int == 0xE3 && b as int == 0x80 && c as int == 0x80)
  }

  /** A byte of some space; no other byte is ever trimmed. */
  predicate SpaceByte(c: char) {
    IsSpace(c) || c as int >= 128
  }

  /** How many bytes the space takes that the text starts with; 0 without one. */
  function SpaceAtStart(s: string): (n: nat)
    ensures n <= |s| && forall i :: 0 <= i < n ==> SpaceByte(s[i])
  {
    if |s| >= 1 && IsSpace(s[0]) then 1
    else if |s| >= 2 && IsSpaceOfTwo(s[0], s[1]) then 2
    else if |s| >= 3 && IsSpaceOfThree(s[0], s[1], s[2]) then 3
    else 0
  }

  function SpaceAtEnd(s: string): (n: nat)
    ensures n <= |s| && forall i :: |s| - n <= i < |s| ==> SpaceByte(s[i])
  {
    var n := |s|;
    if n >= 1 && IsSpace(s[n - 1]) then 1
    else if n >= 2 && IsSpaceOfTwo(s[n - 2], s[n - 1]) then 2
    else if n >= 3 && IsSpaceOfThree(s[n - 3], s[n - 2], s[n - 1]) then 3
    else 0
  }

  function TrimLeft(s: string): string {
    if SpaceAtStart(s) > 0 then TrimLeft(s[SpaceAtStart(s)..]) else s
  }

  function TrimRight(s: string): string
    decreases |s|
  {
    if SpaceAtEnd(s) > 0 then TrimRight(s[..|s| - SpaceAtEnd(s)]) else s
  }

  /** strings.TrimSpace: white space in the sense of Unicode, in UTF-8. */
  function TrimSpace(s: string): string {
    TrimRight(TrimLeft(s))
  }

  predicate Trimmed(s: string) {
    SpaceAtStart(s) == 0 && SpaceAtEnd(s) == 0
  }

  lemma {:induction false} TrimLeftSound(s: string)
    ensures var t := TrimLeft(s);
            && |t| <= |s| && t == s[|s| - |t|..] && SpaceAtStart(t) == 0
            && (t == s <==> SpaceAtStart(s) == 0) && (forall i :: 0 <= i < |s| - |t| ==> SpaceByte(s[i]))
    decreases |s|
  {
    var n := SpaceAtStart(s);
    if n > 0 {
      TrimLeftSound(s[n..]);
      var t := TrimLeft(s);
      forall i | 0 <= i < |s| - |t| ensures SpaceByte(s[i]) {
        if i >= n { assert s[i] == s[n..][i - n]; }
      }
    }
  }

  lemma {:induction false} TrimRightSound(s: string)
    ensures var t := TrimRight(s);
            && |t| <= |s| && t == s[..|t|] && SpaceAtEnd(t) == 0
            && (t == s <==> SpaceAtEnd(s) == 0) && (forall i :: |t| <= i < |s| ==> SpaceByte(s[i]))
    decreases |s|
  {
    var n := SpaceAtEnd(s);
    if n > 0 { TrimRightSound(s[..|s| - n]); }
  }

  /** A text that starts with no space has no prefix that does. */
  lemma PrefixStartsAlike(s: string, n: nat)
    requires n <= |s| && SpaceAtStart(s) == 0
    ensures SpaceAtStart(s[..n]) == 0
  {
  }

  /** Behind a byte of no space, an end without a space stays one. */
  lemma EndsAlike(a: string, c: char, t: string)
    requires !SpaceByte(c) && t != "" && SpaceAtEnd(t) == 0
    ensures SpaceAtEnd(a + [c] + t) == 0
  {
  }

  /** What is left starts and ends with no space, and every byte that belongs to no space is left. */
  lemma TrimSpaceSound(s: string)
    ensures var t := TrimSpace(s);
            && |t| <= |s| && Trimmed(t) && (t == s <==> Trimmed(s))
            && (forall c :: c in t ==> c in s) && (forall c :: c in s && !SpaceByte(c) ==> c in t)
  {
    var l := TrimLeft(s);
    var t := TrimSpace(s);
    TrimLeftSound(s);
    TrimRightSound(l);
    PrefixStartsAlike(l, |t|);
    forall c | c in s && !SpaceByte(c) ensures c in t {
      var i :| 0 <= i < |s| && s[i] == c;
      assert s[i] == l[i - (|s| - |l|)];
      assert l[i - (|s| - |l|)] == t[i - (|s| - |l|)];
    }
  }

  // ---------- Decimal numbers ----------

  predicate IsDigit(c: char) {
    '0' <= c <= '9'
  }

  function DigitOf(n: nat): (c: char)
    requires n < 10
    ensures IsDigit(c) && c as int - '0' as int == n
  {
    ('0' as int + n) as char
  }

  predicate AllDigits(s: string) {
    forall i :: 0 <= i < |s| ==> IsDigit(s[i])
  }

  function Digits(n: nat): string {
    if n < 10 then [DigitOf(n)] else Digits(n / 10) + [DigitOf(n % 10)]
  }

  function DigitsValue(s: string): nat
    requires AllDigits(s)
    decreases |s|
  {
    if s == "" then 0
    else 10 * DigitsValue(s[..|s| - 1]) + (s[|s| - 1] as int - '0' as int)
  }

  /** strconv.Itoa. */
  function Itoa(n: int): string {
    if n < 0 then "-" + Digits(-n) else Digits(n)
  }

  const MIN_INT64: int := -0x8000_0000_0000_0000
  const MAX_INT64: int := 0x7fff_ffff_ffff_ffff

  predicate IsInt64(n: int) {
    MIN_INT64 <= n <= MAX_INT64
  }

  /** strconv.Atoi and strconv.ParseInt(s, 10, 64): an optional sign and digits. */
  function Atoi(s: string): Result<int> {
    var body := if s != "" && (s[0] == '-' || s[0] == '+') then s[1..] else s;
    if body == "" || !AllDigits(body) then Err
    else
      var n: int := DigitsValue(body) * (if s[0] == '-' then -1 else 1);
      if IsInt64(n) then Ok(n) else Err
  }

  lemma {:induction false} DigitsRoundTrip(n: nat)
    ensures Digits(n) != "" && AllDigits(Digits(n)) && DigitsValue(Digits(n)) == n
  {
    if n >= 10 {
      DigitsRoundTrip(n / 10);
      var s := Digits(n);
      assert s[..|s| - 1] == Digits(n / 10);
    } else {
      assert [DigitOf(n)][..0] == "";
    }
  }

  lemma AtoiUndoesItoa(n: int)
    requires IsInt64(n)
    ensures Atoi(Itoa(n)) == Ok(n)
  {
    DigitsRoundTrip(if n < 0 then -n else n);
    assert n < 0 ==> Itoa(n)[1..] == Digits(-n);
  }
}
