/** The list helpers behind finalizer updates, and the set operations they amount to. */
module Finalizers {
  import opened Strings

  method HasString(values: seq<string>, needle: string) returns (found: bool)
    ensures found <==> needle in values
  {
    for i := 0 to |values|
      invariant needle !in values[..i]
    {
      if values[i] == needle { return true; }
    }
    return false;
  }

  /** The values other than `needle`, in order. */
  function Without(values: seq<string>, needle: string): seq<string> {
    if values == [] then []
    else (if values[0] == needle then [] else [values[0]]) + Without(values[1..], needle)
  }

  lemma {:induction false} WithoutConcat(a: seq<string>, b: seq<string>, needle: string)
    ensures Without(a + b, needle) == Without(a, needle) + Without(b, needle)
    decreases |a|
  {
    if a == [] {
      assert a + b == b;
    } else {
      assert (a + b)[0] == a[0] && (a + b)[1..] == a[1..] + b;
      WithoutConcat(a[1..], b, needle);
    }
  }

  method RemoveString(values: seq<string>, needle: string) returns (out: seq<string>)
    ensures out == Without(values, needle)
  {
    out := [];
    for i := 0 to |values|
      invariant out == Without(values[..i], needle)
    {
      assert values[..i + 1] == values[..i] + [values[i]];
      WithoutConcat(values[..i], [values[i]], needle);
      if values[i] != needle { out := out + [values[i]]; }
    }
    assert values[..|values|] == values;
  }

  /** The first occurrence of every value that is not blank, in order. */
  function FirstsOf(values: seq<string>, seen: set<string>): seq<string> {
    if values == [] then []
    else if TrimSpace(values[0]) == "" || values[0] in seen then FirstsOf(values[1..], seen)
    else [values[0]] + FirstsOf(values[1..], seen + {values[0]})
  }

  predicate NoDuplicates(values: seq<string>) {
    forall i, j :: 0 <= i < j < |values| ==> values[i] != values[j]
  }

  lemma {:induction false} FirstsSound(values: seq<string>, seen: set<string>)
    ensures NoDuplicates(FirstsOf(values, seen))
    ensures forall v :: v in FirstsOf(values, seen) <==> v in values && TrimSpace(v) != "" && v !in seen
    decreases |values|
  {
    if values != [] {
      if TrimSpace(values[0]) == "" || values[0] in seen {
        FirstsSound(values[1..], seen);
      } else {
        FirstsSound(values[1..], seen + {values[0]});
      }
      assert forall v :: v in values <==> v == values[0] || v in values[1..];
    }
  }

  method UniqueStrings(values: seq<string>) returns (out: seq<string>)
    ensures out == FirstsOf(values, {})
  {
    var seen: set<string> := {};
    out := [];
    for i := 0 to |values|
      invariant out + FirstsOf(values[i..], seen) == FirstsOf(values, {})
    {
      assert values[i..][1..] == values[i + 1..];
      if TrimSpace(values[i]) != "" && values[i] !in seen {
        seen := seen + {values[i]};
        out := out + [values[i]];
      }
    }
  }

  function Elements(values: seq<string>): set<string> {
    set v | v in values
  }

  lemma {:induction false} WithoutSound(values: seq<string>, needle: string)
    ensures forall v :: v in Without(values, needle) <==> v in values && v != needle
  {
    if values != [] {
      WithoutSound(values[1..], needle);
      assert forall v :: v in values <==> v == values[0] || v in values[1..];
    }
  }

  /** Taking a finalizer off a list without blank entries takes it off the set, and nothing else. */
  lemma RemovalIsSetRemoval(values: seq<string>, needle: string)
    requires forall v :: v in values ==> TrimSpace(v) != ""
    ensures Elements(FirstsOf(Without(values, needle), {})) == Elements(values) - {needle}
    ensures NoDuplicates(FirstsOf(Without(values, needle), {}))
  {
    WithoutSound(values, needle);
    FirstsSound(Without(values, needle), {});
  }

  /** Appending a finalizer puts it in the set once. */
  lemma AdditionIsSetAddition(values: seq<string>, needle: string)
    requires forall v :: v in values ==> TrimSpace(v) != ""
    requires TrimSpace(needle) != ""
    ensures Elements(FirstsOf(values + [needle], {})) == Elements(values) + {needle}
    ensures NoDuplicates(FirstsOf(values + [needle], {}))
  {
    FirstsSound(values + [needle], {});
  }
}
