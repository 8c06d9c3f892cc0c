/** A quiet stretch of a run makes only so many writes, whatever the schedule. */
module Rest {
  import opened Results
  import opened Naming
  import opened WindowsStorage
  import opened ControllerServer
  import opened Lifecycle
  import opened LifecycleInvariants
  import opened LifecycleSteps
  import opened LifecycleWorkers
  import opened LifecycleCalls
  import opened LifecycleAttacher
  import opened LifecycleSafety
  import opened LifecycleProgress
  import opened Courses
  import opened Reconcilers
  import opened Plans
  import opened Quiescence

  // ---------- Tokens are finitely many ----------

  ghost function KeysInSight(w: World): set<Key> {
    w.vas.Keys + (set t, n | t in w.storage.targets && n in w.storage.targets[t].initiators :: Key(TargetOwner(t), n))
  }

  ghost function NamesInSight(w: World): set<string> {
    w.pvs.Keys + (match w.prov
                  case Creating(req, _, _, _) => {req.vol}
                  case Publishing(h, _) => {h.vol}
                  case _ => {})
  }

  ghost function PathsInSight(w: World): set<string> {
    w.storage.disks.Keys + (if w.prov.Creating? then {w.prov.req.path} else {})
  }

  ghost function TargetsInSight(w: World): set<string> {
    w.storage.targets.Keys + (if w.prov.Creating? then {TargetChosen(w.prov.req, w.prov.found)} else {})
  }

  ghost function MappingsInSight(w: World): set<Token> {
    (set t, p | t in w.storage.targets && p in w.storage.targets[t].luns :: Token.Mapping(t, p))
    + (set t, p | t in TargetsInSight(w) && p in PathsInSight(w) :: Token.Mapping(t, p))
  }

  ghost function KeyTokens(w: World): set<Token> {
    (set k | k in KeysInSight(w) :: Mark(k)) + (set k | k in KeysInSight(w) :: Report(k))
    + (set k | k in KeysInSight(w) :: Unmark(k)) + (set k | k in KeysInSight(w) :: Allowance(k))
    + (set k | k in KeysInSight(w) :: OldDenial(k)) + (set k | k in KeysInSight(w) :: Denial(k))
  }

  ghost function OtherTokens(w: World): set<Token> {
    (set n | n in NamesInSight(w) :: Drop(n)) + (set n | n in NamesInSight(w) :: Token.DeletePV(n))
    + (set i | 0 <= i < CallsLeft(w.prov) :: Call(i))
    + (set p | p in PathsInSight(w) :: File(p)) + (set p | p in PathsInSight(w) :: Token.Disk(p))
    + (set t | t in TargetsInSight(w) :: Aim(t)) + MappingsInSight(w)
  }

  ghost function Tokens(w: World): set<Token> {
    set tok | tok in KeyTokens(w) + OtherTokens(w) && Has(w, tok)
  }

  lemma AdmittedInSight(w: World, key: Key)
    requires HandlesFit(w.published) && IsAdmitted(w.storage, w.published, key)
    ensures key in KeysInSight(w)
  {
    var t := w.published[key.pv].target;
    assert HandleFits(key.pv, w.published[key.pv]);
    assert Key(TargetOwner(t), key.node) == key && t in w.storage.targets && key.node in w.storage.targets[t].initiators;
  }

  predicate OfKey(tok: Token) {
    tok.Mark? || tok.Report? || tok.Unmark? || tok.Allowance? || tok.OldDenial? || tok.Denial?
  }

  lemma KeyTokenInSight(w: World, tok: Token)
    requires HandlesFit(w.published) && Has(w, tok) && OfKey(tok)
    ensures tok in KeyTokens(w)
  {
    var key := tok.key;
    if IsAdmitted(w.storage, w.published, key) { AdmittedInSight(w, key); }
    assert key in KeysInSight(w);
  }

  lemma OtherTokenInSight(w: World, tok: Token)
    requires Has(w, tok) && !OfKey(tok)
    ensures tok in OtherTokens(w)
  {
  }

  lemma TokensAreAll(w: World, tok: Token)
    requires HandlesFit(w.published)
    ensures tok in Tokens(w) <==> Has(w, tok)
  {
    if Has(w, tok) {
      if OfKey(tok) { KeyTokenInSight(w, tok); } else { OtherTokenInSight(w, tok); }
    }
  }

  lemma SmallerSubset<T>(a: set<T>, b: set<T>, x: T)
    requires a <= b && x in b && x !in a
    ensures |a| < |b|
  {
    SubsetSize(a, b - {x});
  }

  lemma SubsetSize<T>(a: set<T>, b: set<T>)
    requires a <= b
    ensures |a| <= |b|
  {
    if a != {} {
      var x :| x in a;
      SubsetSize(a - {x}, b - {x});
    }
  }

  lemma TokensShrink(w: World, w': World)
    requires HandlesFit(w.published) && HandlesFit(w'.published) && Fewer(w, w')
    ensures |Tokens(w')| <= |Tokens(w)|
    ensures Spends(w, w') ==> |Tokens(w')| < |Tokens(w)|
  {
    forall tok | tok in Tokens(w') ensures tok in Tokens(w) {
      FewerTokens(w, w', tok);
      TokensAreAll(w, tok);
    }
    SubsetSize(Tokens(w'), Tokens(w));
    if tok :| Has(w, tok) && !Has(w', tok) {
      TokensAreAll(w, tok);
      SmallerSubset(Tokens(w'), Tokens(w), tok);
    }
  }

  // ---------- Calm steps lead nobody astray ----------

  /** What reachable worlds satisfy, as long as no worker has strayed or is about to. */
  ghost predicate InOrder(w: World) {
    Inv(w) && Tidy(w) && OnCourse(w) && PlansFit(w) && Clean(w)
  }

  lemma StorePVStaysClean(w: World, name: string, pv: PV)
    requires VolumesFit(w) && Clean(w) && name in w.pvs
    ensures var w' := StorePV(w, name, pv);
            && w'.births == w.births && w'.published == w.published && CaughtUpOnce(w'.pvLog, w'.pvCache, w'.births)
  {
    forall x | x in w.pvLog ensures LeftBehind(x, w.pvCache, w.births) {}
    assert w.births[name] <= w.rev;
  }

  lemma VolumeUpdateStaysClean(w: World, w': World)
    requires VolumesFit(w) && Clean(w) && (w.prov.DroppingFinalizer? || w.prov.DeletingPV?) && ProvisionerCall(w) == Some(w')
    ensures Clean(w')
  {
    if w.prov.DroppingFinalizer? {
      DropIs(w, w');
      StorePVStaysClean(w, w.prov.name, w.prov.pv.(finalizers := w.prov.pv.finalizers - {Driver}));
    } else {
      DeletePVIs(w, w');
      if w.prov.name in w.pvs { StorePVStaysClean(w, w.prov.name, w.pvs[w.prov.name].(deleting := true)); }
    }
  }

  /** A volume that is published in a clean world is so for the first time. */
  lemma PublishStaysClean(w: World, w': World)
    requires VolumesFit(w) && ProvisionerFits(w) && Clean(w) && w.prov.Publishing? && ProvisionerCall(w) == Some(w')
    ensures Clean(w')
  {
    PublishIs(w, w');
    var h := w.prov.handle;
    assert h.vol !in w.births && h.vol !in w.strayed;
    forall x | x in w.pvLog ensures x.name != h.vol && LeftBehind(x, w'.pvCache, w'.births) {
      assert PVVersionSound(x, w.rev, w.births, w.published, w.kept) && LeftBehind(x, w.pvCache, w.births);
    }
  }

  lemma ProvisionerStaysClean(w: World, w': World)
    requires VolumesFit(w) && ProvisionerFits(w) && Clean(w) && ProvisionerCall(w) == Some(w')
    ensures Clean(w')
  {
    if w.prov.DroppingFinalizer? || w.prov.DeletingPV? {
      VolumeUpdateStaysClean(w, w');
    } else if w.prov.Publishing? {
      PublishStaysClean(w, w');
    } else {
      CallsOnlyCommand(w, w');
      CommandStaysClean(w, w');
    }
  }

  lemma CommandStaysClean(w: World, w': World)
    requires Clean(w) && (w.prov.Creating? || w.prov.RollingBack? || w.prov.Deleting?) && ProvisionerCall(w) == Some(w')
    ensures Clean(w')
  {
    match w.prov {
      case Creating(_, _, _, _) => CreateCallIs(w, w');
      case RollingBack(_, _) => RollbackCallIs(w, w');
      case Deleting(_, _, _) => DeleteIs(w, w');
    }
  }

  lemma AttacherStaysClean(w: World, w': World)
    requires VolumesFit(w) && Clean(w) && AttacherCall(w) == Some(w')
    ensures Clean(w')
  {
    AttacherCallOnlyTouches(w, w');
    if w.att.Looking? {
      CleanIsNotOutdated(w, w.att.key.pv);
      LookingOnlyStrays(w, w');
    }
  }

  lemma SeePVStaysClean(w: World, x: PVVersion, w': World)
    requires Clean(w) && SeesPV(w, x, w')
    ensures Clean(w')
  {
    forall y | y in w.pvLog ensures LeftBehind(y, w'.pvCache, w.births) { assert LeftBehind(y, w.pvCache, w.births); }
  }

  lemma StaysClean(w: World, a: Action, w': World)
    requires Inv(w) && Clean(w) && Calm(w, a) && Step(w, a, w')
    ensures Clean(w')
  {
    if a.Provision? {
      ProvisionerStaysClean(w, ProvisionerCall(w).value);
    } else if a.AttachCall? {
      AttacherStaysClean(w, AttacherCall(w).value);
    } else if a.SeePV? {
      SeePVStaysClean(w, a.pvVersion, w');
    }
  }

  lemma QuietStepInOrder(w: World, a: Action, w': World)
    requires InOrder(w) && Calm(w, a) && Step(w, a, w')
    ensures InOrder(w') && |Tokens(w')| <= |Tokens(w)| && (Writes(w, w') ==> |Tokens(w')| < |Tokens(w)|)
  {
    StepKeeps(w, a, w');
    StepStaysTidy(w, a, w');
    StepKeepsPlans(w, a, w');
    StepStaysOnCourse(w, a, w');
    StaysClean(w, a, w');
    QuietStepSpends(w, a, w');
    TokensShrink(w, w');
  }

  lemma ReachedInOrder(run: seq<World>, i: nat)
    requires Run(run) && i < |run| && Clean(run[i])
    ensures InOrder(run[i])
  {
    RunKeeps(run, i);
    RunStaysTidy(run, i);
    RunStaysOnCourse(run, i);
    RunKeepsPlans(run, i);
  }

  // ---------- Where every volume was provisioned once ----------

  predicate FirstOfName(pvLog: set<PVVersion>, births: map<string, nat>) {
    forall x :: x in pvLog ==> OfLatest(births, x.name, x.rv)
  }

  /** No name has had more than one PersistentVolume, and none is provisioned again. */
  predicate Once(w: World) {
    w.strayed == {} && w.births.Keys <= w.published.Keys && FirstOfName(w.pvLog, w.births)
  }

  lemma OnceIsClean(w: World)
    requires ProvisionerFits(w) && Once(w)
    ensures Clean(w)
  {
    forall x | x in w.pvLog ensures LeftBehind(x, w.pvCache, w.births) {}
  }

  lemma OnceIsCalm(w: World, a: Action, w': World)
    requires Once(w) && Quiet(a) && Step(w, a, w')
    ensures Calm(w, a)
  {
    if a.StartDelete? { assert PVVersion(a.name, a.copy.rv, Some(a.copy)) in w.pvLog; }
  }

  lemma StorePVStaysFirst(w: World, name: string, pv: PV)
    requires VolumesFit(w) && FirstOfName(w.pvLog, w.births) && name in w.pvs
    ensures FirstOfName(StorePV(w, name, pv).pvLog, w.births) && FirstOfName(RemovePV(w, name).pvLog, w.births)
  {
    assert w.births[name] <= w.rev;
  }

  lemma PublishStaysFirst(w: World, w': World)
    requires VolumesFit(w) && ProvisionerFits(w) && Once(w) && w.prov.Publishing? && ProvisionerCall(w) == Some(w')
    ensures FirstOfName(w'.pvLog, w'.births)
  {
    PublishIs(w, w');
    var h := w.prov.handle;
    forall x | x in w.pvLog ensures x.name != h.vol {
      assert PVVersionSound(x, w.rev, w.births, w.published, w.kept) && h.vol !in w.births;
    }
  }

  lemma VolumeUpdateStaysFirst(w: World, w': World)
    requires VolumesFit(w) && Once(w) && (w.prov.DroppingFinalizer? || w.prov.DeletingPV?) && ProvisionerCall(w) == Some(w')
    ensures FirstOfName(w'.pvLog, w'.births)
  {
    VolumeUpdateIs(w, w');
    if w.prov.DroppingFinalizer? {
      DropIs(w, w');
      StorePVStaysFirst(w, w.prov.name, w.prov.pv.(finalizers := w.prov.pv.finalizers - {Driver}));
    } else {
      DeletePVIs(w, w');
      if w.prov.name in w.pvs { StorePVStaysFirst(w, w.prov.name, w.pvs[w.prov.name].(deleting := true)); }
    }
  }

  lemma ProvisionerStaysFirst(w: World, w': World)
    requires VolumesFit(w) && ProvisionerFits(w) && Once(w) && ProvisionerCall(w) == Some(w')
    ensures FirstOfName(w'.pvLog, w'.births)
  {
    if w.prov.DroppingFinalizer? || w.prov.DeletingPV? {
      VolumeUpdateStaysFirst(w, w');
    } else if w.prov.Publishing? {
      PublishStaysFirst(w, w');
    } else {
      CommandStaysFirst(w, w');
    }
  }

  lemma CommandStaysFirst(w: World, w': World)
    requires FirstOfName(w.pvLog, w.births) && ProvisionerCall(w) == Some(w')
    requires w.prov.Creating? || w.prov.RollingBack? || w.prov.Deleting?
    ensures FirstOfName(w'.pvLog, w'.births)
  {
    CallsOnlyCommand(w, w');
  }

  lemma QuietStepStaysFirst(w: World, a: Action, w': World)
    requires VolumesFit(w) && ProvisionerFits(w) && Once(w) && Quiet(a) && Step(w, a, w')
    ensures FirstOfName(w'.pvLog, w'.births)
  {
    if a.Provision? {
      ProvisionerStaysFirst(w, ProvisionerCall(w).value);
    } else if a.AttachCall? {
      AttacherCallOnlyTouches(w, AttacherCall(w).value);
    }
  }

  lemma QuietStepStraysNobody(w: World, a: Action, w': World)
    requires PVCacheSound(w.pvCache, w.pvLog) && ProvisionerFits(w) && Clean(w) && Once(w) && Quiet(a) && Step(w, a, w')
    ensures w'.strayed == {}
  {
    forall vol ensures vol !in w'.strayed {
      CleanIsNotOutdated(w, vol);
      StraysExactly(w, a, w', vol);
    }
  }

  /** A creation starts for a name that has had a PersistentVolume before. */
  predicate ProvisionsAgain(w: World, w': World) {
    w.prov.Resting? && w'.prov.Creating? && w'.prov.req.vol in w.births
  }

  lemma OtherStepStaysOnce(w: World, a: Action, w': World)
    requires VolumesFit(w) && Once(w) && Step(w, a, w') && !Quiet(a) && !ProvisionsAgain(w, w')
    ensures Once(w')
  {
    if a.EditPV? {
      StorePVStaysFirst(w, a.name, a.pv);
      StorePVOnly(w, a.name, a.pv);
    } else if a.PurgePV? {
      StorePVStaysFirst(w, a.name, w.pvs[a.name]);
    } else if a.EditVA? {
      StoreVAOnly(w, a.key, a.va);
    }
  }

  lemma StaysOnce(w: World, a: Action, w': World)
    requires Inv(w) && Once(w) && Step(w, a, w') && !ProvisionsAgain(w, w')
    ensures Once(w')
  {
    if Quiet(a) {
      OnceIsClean(w);
      OnceIsCalm(w, a, w');
      StaysClean(w, a, w');
      QuietStepStaysFirst(w, a, w');
      QuietStepStraysNobody(w, a, w');
    } else {
      OtherStepStaysOnce(w, a, w');
    }
  }

  lemma {:induction false} ProvisionedOnce(run: seq<World>, i: nat)
    requires Run(run) && i < |run|
    requires forall k :: 0 <= k < i ==> !ProvisionsAgain(run[k], run[k + 1])
    ensures Once(run[i])
  {
    if i > 0 {
      ProvisionedOnce(run, i - 1);
      RunKeeps(run, i - 1);
      assert Next(run[i - 1], run[i - 1 + 1]);
      var a :| Step(run[i - 1], a, run[i]);
      StaysOnce(run[i - 1], a, run[i]);
    }
  }

  /**
   * As long as no name is provisioned again no volume strays, and every quiet step is calm: what is
   * assumed for liveness holds by itself.
   */
  lemma ProvisionedOnceNeverStrays(run: seq<World>, i: nat)
    requires Run(run) && i < |run|
    requires forall k :: 0 <= k < i ==> !ProvisionsAgain(run[k], run[k + 1])
    ensures run[i].strayed == {} && Clean(run[i])
    ensures forall a, w' :: Quiet(a) && Step(run[i], a, w') ==> Calm(run[i], a)
  {
    ProvisionedOnce(run, i);
    RunKeeps(run, i);
    OnceIsClean(run[i]);
    forall a, w' | Quiet(a) && Step(run[i], a, w') ensures Calm(run[i], a) { OnceIsCalm(run[i], a, w'); }
  }

  // ---------- A quiet stretch makes only so many writes ----------

  ghost predicate QuietStep(w: World, w': World) {
    exists a :: Calm(w, a) && Step(w, a, w')
  }

  ghost predicate QuietAt(run: seq<World>, k: nat) {
    k + 1 < |run| && QuietStep(run[k], run[k + 1])
  }

  ghost predicate QuietStretch(run: seq<World>, i: nat, j: nat) {
    forall k :: i <= k < j ==> QuietAt(run, k)
  }

  function WritesMade(run: seq<World>, i: nat, j: nat): nat
    requires i <= j < |run|
  {
    if i == j then 0 else WritesMade(run, i, j - 1) + (if Writes(run[j - 1], run[j]) then 1 else 0)
  }

  lemma QuietStepCounts(w: World, w': World)
    requires InOrder(w) && QuietStep(w, w')
    ensures InOrder(w') && |Tokens(w')| + (if Writes(w, w') then 1 else 0) <= |Tokens(w)|
  {
    var a :| Calm(w, a) && Step(w, a, w');
    QuietStepInOrder(w, a, w');
  }

  lemma {:induction false} StretchCounts(run: seq<World>, i: nat, j: nat)
    requires i <= j < |run| && InOrder(run[i]) && QuietStretch(run, i, j)
    ensures InOrder(run[j]) && WritesMade(run, i, j) + |Tokens(run[j])| <= |Tokens(run[i])|
  {
    if i < j {
      StretchCounts(run, i, j - 1);
      assert QuietAt(run, j - 1);
      QuietStepCounts(run[j - 1], run[j]);
    }
  }

  /**
   * Whatever the workers were about when the rest of the cluster fell quiet, and however informers,
   * calls and failures interleave from then on: the writes made, to API server and host together,
   * are no more than the tokens there were.
   */
  lemma FinitelyManyWrites(run: seq<World>, i: nat, j: nat)
    requires Run(run) && i <= j < |run| && QuietStretch(run, i, j) && Clean(run[i])
    ensures WritesMade(run, i, j) + |Tokens(run[j])| <= |Tokens(run[i])|
  {
    ReachedInOrder(run, i);
    StretchCounts(run, i, j);
  }
}
