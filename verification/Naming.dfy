/** How volumes, targets and VHDX files are named, and why no two volumes share a name. */
module Naming {

  predicate Contains(s: string, c: char) {
    exists i :: 0 <= i < |s| && s[i] == c
  }

  /** The claim's UID makes the PersistentVolume name, which is also the CSI volume name. */
  function VolumeNameForClaim(uid: string): string {
    "pvc-" + uid
  }

  /** Kubernetes UIDs hold hexadecimal digits and dashes. */
  predicate ValidUid(uid: string) {
    forall i :: 0 <= i < |uid| ==> '0' <= uid[i] <= '9' || 'a' <= uid[i] <= 'f' || uid[i] == '-'
  }

  /** A name that can neither be mistaken for a qualified target name nor leave its directory. */
  predicate ValidVolumeName(vol: string) {
    !Contains(vol, ':') && !Contains(vol, '\\')
  }

  /** With an iqnPrefix the target is called prefix:volume (also its IQN), otherwise just volume. */
  function TargetFor(iqnPrefix: string, vol: string): string {
    if iqnPrefix == "" then vol else iqnPrefix + ":" + vol
  }

  function VhdxPath(parentDir: string, vol: string): string {
    parentDir + "\\" + vol + ".vhdx"
  }

  /** The part of `s` after the last `c`, or all of it. */
  function AfterLast(s: string, c: char): string {
    if s == "" then ""
    else if Contains(s[1..], c) then AfterLast(s[1..], c)
    else if s[0] == c then s[1..]
    else s
  }

  function TargetOwner(target: string): string {
    AfterLast(target, ':')
  }

  function PathOwner(path: string): string {
    var file := AfterLast(path, '\\');
    if |file| < 5 then file else file[..|file| - 5]
  }

  lemma {:induction false} AfterLastOfJoin(prefix: string, c: char, rest: string)
    requires !Contains(rest, c)
    ensures AfterLast(prefix + [c] + rest, c) == rest
  {
    var s := prefix + [c] + rest;
    if prefix == "" {
      assert s[1..] == rest;
    } else {
      assert s[1..] == prefix[1..] + [c] + rest;
      assert s[1..][|prefix| - 1] == c;
      AfterLastOfJoin(prefix[1..], c, rest);
    }
  }

  lemma {:induction false} AfterLastAbsent(s: string, c: char)
    requires !Contains(s, c)
    ensures AfterLast(s, c) == s
  {
    if s != "" {
      assert s[0] != c;
      forall i | 0 <= i < |s[1..]| ensures s[1..][i] != c { assert s[1..][i] == s[i + 1]; }
    }
  }

  /** Every target name a StorageClass can produce leads back to its volume. */
  lemma TargetOwnerOfTarget(iqnPrefix: string, vol: string)
    requires ValidVolumeName(vol)
    ensures TargetOwner(TargetFor(iqnPrefix, vol)) == vol
  {
    if iqnPrefix == "" {
      AfterLastAbsent(vol, ':');
    } else {
      assert TargetFor(iqnPrefix, vol) == iqnPrefix + [':'] + vol;
      AfterLastOfJoin(iqnPrefix, ':', vol);
    }
  }

  lemma PathOwnerOfPath(parentDir: string, vol: string)
    requires ValidVolumeName(vol)
    ensures PathOwner(VhdxPath(parentDir, vol)) == vol
  {
    var file := vol + ".vhdx";
    assert !Contains(file, '\\');
    assert VhdxPath(parentDir, vol) == parentDir + ['\\'] + file;
    AfterLastOfJoin(parentDir, '\\', file);
    assert file[..|file| - 5] == vol;
  }

  lemma ClaimNamesAreValid(uid: string)
    requires ValidUid(uid)
    ensures ValidVolumeName(VolumeNameForClaim(uid))
  {
    var s := VolumeNameForClaim(uid);
    forall i | 0 <= i < |s| ensures s[i] != ':' && s[i] != '\\' {
      if i >= 4 { assert s[i] == uid[i - 4]; }
    }
  }

  /**
   * Volumes of different claims never meet on the Windows host, whatever prefixes and
   * directories their StorageClasses name.
   */
  lemma ClaimsDoNotCollide(uid1: string, prefix1: string, dir1: string, uid2: string, prefix2: string, dir2: string)
    requires ValidUid(uid1) && ValidUid(uid2) && uid1 != uid2
    ensures TargetFor(prefix1, VolumeNameForClaim(uid1)) != TargetFor(prefix2, VolumeNameForClaim(uid2))
    ensures VhdxPath(dir1, VolumeNameForClaim(uid1)) != VhdxPath(dir2, VolumeNameForClaim(uid2))
  {
    var v1, v2 := VolumeNameForClaim(uid1), VolumeNameForClaim(uid2);
    ClaimNamesAreValid(uid1);
    ClaimNamesAreValid(uid2);
    assert v1[4..] == uid1 && v2[4..] == uid2;
    TargetOwnerOfTarget(prefix1, v1);
    TargetOwnerOfTarget(prefix2, v2);
    PathOwnerOfPath(dir1, v1);
    PathOwnerOfPath(dir2, v2);
  }

  /**
   * For volume names chosen by other callers the naming is not injective: it fails in exactly
   * one way, when a volume without prefix is itself called prefix:volume.
   */
  lemma TargetNamesCollideExactly(prefix1: string, vol1: string, prefix2: string, vol2: string)
    requires !Contains(prefix1, ':') && !Contains(prefix2, ':')
    requires (prefix1, vol1) != (prefix2, vol2)
    ensures TargetFor(prefix1, vol1) == TargetFor(prefix2, vol2) <==>
            || (prefix1 == "" && prefix2 != "" && vol1 == prefix2 + ":" + vol2)
            || (prefix2 == "" && prefix1 != "" && vol2 == prefix1 + ":" + vol1)
  {
    if TargetFor(prefix1, vol1) == TargetFor(prefix2, vol2) && prefix1 != "" {
      FirstColonSplits(prefix1, vol1, prefix2, vol2);
    }
  }

  lemma FirstColonSplits(prefix1: string, vol1: string, prefix2: string, vol2: string)
    requires !Contains(prefix1, ':') && !Contains(prefix2, ':')
    ensures prefix1 + ":" + vol1 == prefix2 + ":" + vol2 ==> prefix1 == prefix2 && vol1 == vol2
  {
    var t1, t2 := prefix1 + ":" + vol1, prefix2 + ":" + vol2;
    assert t1[|prefix1|] == ':' && t2[|prefix2|] == ':';
    assert forall i :: 0 <= i < |prefix1| ==> t1[i] == prefix1[i];
    assert forall i :: 0 <= i < |prefix2| ==> t2[i] == prefix2[i];
    if t1 == t2 {
      assert |prefix1| == |prefix2|;
      assert prefix1 == t1[..|prefix1|] && prefix2 == t2[..|prefix2|];
      assert vol1 == t1[|prefix1| + 1..] && vol2 == t2[|prefix2| + 1..];
    }
  }
}
