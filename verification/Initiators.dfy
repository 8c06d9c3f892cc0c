/**
 * A target's list of initiators as the scripts see it. PowerShell compares names without regard to
 * case; `fold` is that comparison's normal form. The protocol keeps only the set of folded names.
 */
module Initiators {

  type Fold = string -> string

  predicate Listed(iqns: seq<string>, fold: Fold, node: string) {
    exists i :: 0 <= i < |iqns| && fold(iqns[i]) == fold(node)
  }

  /** AllowInitiator: appends the name unless it is there in some spelling. */
  function Allowed(iqns: seq<string>, fold: Fold, node: string): seq<string> {
    if Listed(iqns, fold, node) then iqns else iqns + [node]
  }

  /** DenyInitiator: keeps every name that differs. */
  function Denied(iqns: seq<string>, fold: Fold, node: string): seq<string> {
    if iqns == [] then []
    else (if fold(iqns[0]) == fold(node) then [] else [iqns[0]]) + Denied(iqns[1..], fold, node)
  }

  function Folded(iqns: seq<string>, fold: Fold): set<string> {
    set i | 0 <= i < |iqns| :: fold(iqns[i])
  }

  lemma ListedIsFolded(iqns: seq<string>, fold: Fold, node: string)
    ensures Listed(iqns, fold, node) <==> fold(node) in Folded(iqns, fold)
  {
  }

  lemma AllowAddsToSet(iqns: seq<string>, fold: Fold, node: string)
    ensures Folded(Allowed(iqns, fold, node), fold) == Folded(iqns, fold) + {fold(node)}
  {
    ListedIsFolded(iqns, fold, node);
    if !Listed(iqns, fold, node) {
      var longer := iqns + [node];
      assert forall i :: 0 <= i < |iqns| ==> longer[i] == iqns[i];
      assert longer[|iqns|] == node;
    }
  }

  lemma {:induction false} DenyTakesFromSet(iqns: seq<string>, fold: Fold, node: string)
    ensures Folded(Denied(iqns, fold, node), fold) == Folded(iqns, fold) - {fold(node)}
  {
    if iqns != [] {
      DenyTakesFromSet(iqns[1..], fold, node);
      FoldedCons(iqns[0], iqns[1..], fold);
      FoldedCons(iqns[0], Denied(iqns[1..], fold, node), fold);
      assert iqns == [iqns[0]] + iqns[1..];
      assert [] + Denied(iqns[1..], fold, node) == Denied(iqns[1..], fold, node);
    }
  }

  lemma FoldedCons(first: string, rest: seq<string>, fold: Fold)
    ensures Folded([first] + rest, fold) == {fold(first)} + Folded(rest, fold)
  {
    var s := [first] + rest;
    assert forall i :: 0 <= i < |rest| ==> s[i + 1] == rest[i];
    assert s[0] == first;
  }

  /**
   * Publishing admits exactly the node and unpublishing shuts out exactly the node: any other
   * node's membership changes if and only if its name is the same but for case.
   */
  lemma OthersKeepMembership(iqns: seq<string>, fold: Fold, node: string, other: string)
    ensures Listed(Allowed(iqns, fold, node), fold, node) && !Listed(Denied(iqns, fold, node), fold, node)
    ensures fold(other) != fold(node) ==>
              && (Listed(Allowed(iqns, fold, node), fold, other) <==> Listed(iqns, fold, other))
              && (Listed(Denied(iqns, fold, node), fold, other) <==> Listed(iqns, fold, other))
    ensures fold(other) == fold(node) ==>
              Listed(Allowed(iqns, fold, node), fold, other) && !Listed(Denied(iqns, fold, node), fold, other)
  {
    AllowAddsToSet(iqns, fold, node);
    DenyTakesFromSet(iqns, fold, node);
    ListedIsFolded(Allowed(iqns, fold, node), fold, node);
    ListedIsFolded(Denied(iqns, fold, node), fold, node);
    ListedIsFolded(Allowed(iqns, fold, node), fold, other);
    ListedIsFolded(Denied(iqns, fold, node), fold, other);
    ListedIsFolded(iqns, fold, other);
  }
}
