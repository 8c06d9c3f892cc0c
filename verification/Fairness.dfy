/**
 * Behaviours: endless runs of quiet steps. What makes one fair, and why a fair one comes to a moment
 * from which on nothing is written and the informers show everything as it is.
 */
module Fairness {
  import opened Results
  import opened Naming
  import opened WindowsStorage
  import opened ControllerServer
  import opened Lifecycle
  import opened LifecycleInvariants
  import opened LifecycleSteps
  import opened LifecycleWorkers
  import opened LifecycleCalls
  import opened LifecycleAttacher
  import opened LifecycleSafety
  import opened LifecycleProgress
  import opened Courses
  import opened Reconcilers
  import opened Plans
  import opened Quiescence
  import opened Rest

  // ---------- Behaviours ----------

  ghost predicate Moves(b: nat -> World, act: nat -> Action, i: nat) {
    Calm(b(i), act(i)) && Step(b(i), act(i), b(i + 1))
  }

  /** Quiet steps without end; a step may leave everything as it is. */
  ghost predicate Behaviour(b: nat -> World, act: nat -> Action) {
    forall i: nat :: Moves(b, act, i)
  }

  ghost predicate QuietBehaviour(b: nat -> World, act: nat -> Action) {
    InOrder(b(0)) && Behaviour(b, act)
  }

  // ---------- Fairness ----------

  /** No call fails unless it is refused. */
  predicate Sound(w: World, a: Action) {
    && !a.PublishFails? && (a.Provision? || a.AttachCall? ==> !a.lost)
    && (a.ProvisionerFails? ==> ProvisionerCall(w).None?) && (a.AttacherFails? ==> AttacherCall(w).None?)
  }

  predicate OfProvisioner(a: Action) {
    a.Provision? || a.ProvisionerFails?
  }

  predicate AttachersTurn(a: Action) {
    a.AttachCall? || a.AttacherFails?
  }

  predicate ShowsPV(w: World, x: PVVersion) {
    x.name in w.pvCache && x.rv <= w.pvCache[x.name].rv
  }

  predicate ShowsVA(w: World, y: VAVersion) {
    y.key in w.vaCache && y.rv <= w.vaCache[y.key].rv
  }

  /** The attacher's informer lists this attachment. */
  predicate Listed(w: World, key: Key) {
    key in w.vaCache && w.vaCache[key].va.Some?
  }

  /** By what the informers show, a reconcile of this volume deletes the backend. */
  predicate Deletable(w: World, name: string) {
    match CachedPV(w, name)
    case None => false
    case Some(pv) => Doomed(pv) && NoneListed(w, name) && ListIsRecent(w, name, pv.rv)
  }

  /** By what the informers show, a reconcile of this volume takes the finalizer off. */
  predicate Releasable(w: World, name: string) {
    match CachedPV(w, name)
    case None => false
    case Some(pv) => pv.deleting && pv.policy.Keep? && Driver in pv.finalizers
  }

  predicate Deletes(w: World, a: Action, name: string) {
    Deletable(w, name) && a == StartDelete(name, CachedPV(w, name).value)
  }

  predicate Releases(w: World, a: Action, name: string) {
    Releasable(w, name) && a == StartDrop(name, CachedPV(w, name).value)
  }

  ghost predicate PVShown(b: nat -> World, i: nat, x: PVVersion) {
    exists j: nat :: i <= j && ShowsPV(b(j), x)
  }

  ghost predicate VAShown(b: nat -> World, i: nat, y: VAVersion) {
    exists j: nat :: i <= j && ShowsVA(b(j), y)
  }

  ghost predicate ProvisionerTurns(act: nat -> Action, i: nat) {
    exists j: nat :: i <= j && OfProvisioner(act(j))
  }

  ghost predicate AttacherTurns(act: nat -> Action, i: nat) {
    exists j: nat :: i <= j && AttachersTurn(act(j))
  }

  ghost predicate Reconciled(b: nat -> World, act: nat -> Action, i: nat, key: Key) {
    exists j: nat :: i <= j && (Listed(b(j), key) ==> act(j) == StartAttach(key))
  }

  ghost predicate Deleted(b: nat -> World, act: nat -> Action, i: nat, name: string) {
    exists j: nat :: i <= j && (Deletable(b(j), name) ==> Deletes(b(j), act(j), name))
  }

  ghost predicate Released(b: nat -> World, act: nat -> Action, i: nat, name: string) {
    exists j: nat :: i <= j && (Releasable(b(j), name) ==> Releases(b(j), act(j), name))
  }

  /**
   * Every version reaches its informer, at some time or overtaken by a later one; a busy worker gets
   * on with its work; and the resync of the informers puts every listed object into its queue over
   * and over, so that its reconcile starts again and again as long as the caches call for it.
   */
  ghost predicate Fair(b: nat -> World, act: nat -> Action) {
    forall i: nat :: FairAt(b, act, i)
  }

  ghost predicate FairAt(b: nat -> World, act: nat -> Action, i: nat) {
    && Sound(b(i), act(i))
    && (forall x :: x in b(i).pvLog ==> PVShown(b, i, x))
    && (forall y :: y in b(i).vaLog ==> VAShown(b, i, y))
    && (!b(i).prov.Resting? ==> ProvisionerTurns(act, i))
    && (!b(i).att.Idle? ==> AttacherTurns(act, i))
    && (forall key :: Reconciled(b, act, i, key))
    && (forall name :: Deleted(b, act, i, name) && Released(b, act, i, name))
  }

  // ---------- Nothing is written for ever ----------

  lemma {:induction false} AlwaysInOrder(b: nat -> World, act: nat -> Action, i: nat)
    requires QuietBehaviour(b, act)
    ensures InOrder(b(i))
  {
    if i > 0 {
      AlwaysInOrder(b, act, i - 1);
      assert Moves(b, act, i - 1);
      QuietStepInOrder(b(i - 1), act(i - 1), b(i));
    }
  }

  lemma MoveCounts(b: nat -> World, act: nat -> Action, i: nat)
    requires QuietBehaviour(b, act)
    ensures |Tokens(b(i + 1))| + (if Writes(b(i), b(i + 1)) then 1 else 0) <= |Tokens(b(i))|
  {
    AlwaysInOrder(b, act, i);
    assert Moves(b, act, i);
    QuietStepInOrder(b(i), act(i), b(i + 1));
  }

  predicate Drops(f: nat -> nat, k: nat) {
    f(k + 1) <= f(k)
  }

  lemma {:induction false} NeverGrows(f: nat -> nat, i: nat, j: nat)
    requires (forall k: nat :: Drops(f, k)) && i <= j
    ensures f(j) <= f(i)
  {
    if i < j {
      NeverGrows(f, i, j - 1);
      assert Drops(f, j - 1);
    }
  }

  lemma TokensNeverGrow(b: nat -> World, act: nat -> Action, i: nat, j: nat)
    requires QuietBehaviour(b, act) && i <= j
    ensures |Tokens(b(j))| <= |Tokens(b(i))|
  {
    var f := (k: nat) => |Tokens(b(k))|;
    forall k: nat ensures Drops(f, k) { MoveCounts(b, act, k); }
    NeverGrows(f, i, j);
  }

  ghost predicate NotFewer(b: nat -> World, n: nat, i: nat) {
    |Tokens(b(n))| <= |Tokens(b(i))|
  }

  ghost predicate Fewest(b: nat -> World, n: nat) {
    forall i: nat :: n <= i ==> NotFewer(b, n, i)
  }

  /** Sooner or later no more tokens are spent. */
  lemma {:induction false} TokensSettle(b: nat -> World, i: nat) returns (n: nat)
    ensures i <= n && Fewest(b, n)
    decreases |Tokens(b(i))|
  {
    if j: nat :| i <= j && |Tokens(b(j))| < |Tokens(b(i))| {
      n := TokensSettle(b, j);
    } else {
      n := i;
    }
  }

  /** Everything but caches, the workers' places and what only records the past. */
  predicate Unwritten(w: World, w': World) {
    && w'.rev == w.rev && w'.pvs == w.pvs && w'.pvLog == w.pvLog && w'.vas == w.vas && w'.vaLog == w.vaLog
    && w'.storage == w.storage && w'.births == w.births && w'.kept == w.kept
  }

  lemma AttacherCallStill(w: World, w': World)
    requires AttacherCall(w) == Some(w')
    ensures w'.pvCache == w.pvCache && w'.vaCache == w.vaCache
    ensures !Writes(w, w') ==> Unwritten(w, w')
  {
    if w.att.Marking? || w.att.Reporting? || w.att.Unmarking? {
      AttachmentUpdateIs(w, w');
    } else if w.att.Looking? {
      LookingOnlyStrays(w, w');
    } else {
      AttacherOnlyCommands(w, w');
    }
  }

  lemma PublishStill(w: World, w': World)
    requires ProvisionerCall(w) == Some(w') && w.prov.Publishing?
    ensures w'.pvCache == w.pvCache && w'.vaCache == w.vaCache && w'.att == w.att
    ensures !Writes(w, w') ==> Unwritten(w, w')
  {
    PublishIs(w, w');
  }

  lemma ProvisionerCallStill(w: World, w': World)
    requires ProvisionerCall(w) == Some(w')
    ensures w'.pvCache == w.pvCache && w'.vaCache == w.vaCache && w'.att == w.att
    ensures !Writes(w, w') ==> Unwritten(w, w')
  {
    if w.prov.DroppingFinalizer? || w.prov.DeletingPV? {
      VolumeUpdateIs(w, w');
    } else if w.prov.Publishing? {
      PublishStill(w, w');
    } else {
      CallsOnlyCommand(w, w');
    }
  }

  lemma QuietStepStill(w: World, a: Action, w': World)
    requires Quiet(a) && Step(w, a, w') && !Writes(w, w')
    ensures Unwritten(w, w')
  {
    if a.Provision? {
      ProvisionerCallStill(w, ProvisionerCall(w).value);
    } else if a.AttachCall? {
      AttacherCallStill(w, AttacherCall(w).value);
    }
  }

  lemma MoveStill(b: nat -> World, act: nat -> Action, n: nat, i: nat)
    requires QuietBehaviour(b, act) && Fewest(b, n) && n <= i
    ensures Unwritten(b(i), b(i + 1))
  {
    TokensNeverGrow(b, act, n, i);
    MoveCounts(b, act, i);
    assert NotFewer(b, n, i + 1) && Moves(b, act, i);
    QuietStepStill(b(i), act(i), b(i + 1));
  }

  lemma {:induction false} StillFrom(b: nat -> World, act: nat -> Action, n: nat, i: nat)
    requires QuietBehaviour(b, act) && Fewest(b, n) && n <= i
    ensures Unwritten(b(n), b(i))
  {
    if n < i {
      StillFrom(b, act, n, i - 1);
      MoveStill(b, act, n, i - 1);
    }
  }

  // ---------- The informers catch up ----------

  lemma CachesAdvance(w: World, a: Action, w': World)
    requires Quiet(a) && Step(w, a, w')
    ensures forall x :: ShowsPV(w, x) ==> ShowsPV(w', x)
    ensures forall y :: ShowsVA(w, y) ==> ShowsVA(w', y)
  {
    if a.Provision? {
      ProvisionerCallStill(w, ProvisionerCall(w).value);
    } else if a.AttachCall? {
      AttacherCallStill(w, AttacherCall(w).value);
    }
  }

  lemma {:induction false} PVStaysShown(b: nat -> World, act: nat -> Action, i: nat, j: nat, x: PVVersion)
    requires Behaviour(b, act) && i <= j && ShowsPV(b(i), x)
    ensures ShowsPV(b(j), x)
  {
    if i < j {
      PVStaysShown(b, act, i, j - 1, x);
      assert Moves(b, act, j - 1);
      CachesAdvance(b(j - 1), act(j - 1), b(j));
    }
  }

  lemma {:induction false} VAStaysShown(b: nat -> World, act: nat -> Action, i: nat, j: nat, y: VAVersion)
    requires Behaviour(b, act) && i <= j && ShowsVA(b(i), y)
    ensures ShowsVA(b(j), y)
  {
    if i < j {
      VAStaysShown(b, act, i, j - 1, y);
      assert Moves(b, act, j - 1);
      CachesAdvance(b(j - 1), act(j - 1), b(j));
    }
  }

  ghost predicate AllPVsShown(w: World, xs: set<PVVersion>) {
    forall x :: x in xs ==> ShowsPV(w, x)
  }

  ghost predicate AllVAsShown(w: World, ys: set<VAVersion>) {
    forall y :: y in ys ==> ShowsVA(w, y)
  }

  /** The informers have delivered every version there is, or a later one. */
  ghost predicate CaughtUp(w: World) {
    AllPVsShown(w, w.pvLog) && AllVAsShown(w, w.vaLog)
  }

  lemma {:induction false} PVsGetShown(b: nat -> World, act: nat -> Action, n: nat, xs: set<PVVersion>) returns (m: nat)
    requires Behaviour(b, act) && Fair(b, act) && xs <= b(n).pvLog
    ensures n <= m && AllPVsShown(b(m), xs)
    decreases xs
  {
    m := n;
    if x :| x in xs {
      assert FairAt(b, act, n) && PVShown(b, n, x);
      var j: nat :| n <= j && ShowsPV(b(j), x);
      var k := PVsGetShown(b, act, n, xs - {x});
      m := if j <= k then k else j;
      PVStaysShown(b, act, j, m, x);
      forall z | z in xs ensures ShowsPV(b(m), z) {
        if z != x { PVStaysShown(b, act, k, m, z); }
      }
    }
  }

  lemma {:induction false} VAsGetShown(b: nat -> World, act: nat -> Action, n: nat, ys: set<VAVersion>) returns (m: nat)
    requires Behaviour(b, act) && Fair(b, act) && ys <= b(n).vaLog
    ensures n <= m && AllVAsShown(b(m), ys)
    decreases ys
  {
    m := n;
    if y :| y in ys {
      assert FairAt(b, act, n) && VAShown(b, n, y);
      var j: nat :| n <= j && ShowsVA(b(j), y);
      var k := VAsGetShown(b, act, n, ys - {y});
      m := if j <= k then k else j;
      VAStaysShown(b, act, j, m, y);
      forall z | z in ys ensures ShowsVA(b(m), z) {
        if z != y { VAStaysShown(b, act, k, m, z); }
      }
    }
  }

  /** From `n` on nothing is written and the informers show everything as it is. */
  ghost predicate StillAt(b: nat -> World, n: nat, i: nat) {
    InOrder(b(i)) && Unwritten(b(n), b(i)) && CaughtUp(b(i))
  }

  ghost predicate Still(b: nat -> World, n: nat) {
    forall i: nat :: n <= i ==> StillAt(b, n, i)
  }

  lemma StaysCaughtUp(b: nat -> World, act: nat -> Action, m: nat, i: nat)
    requires Behaviour(b, act) && CaughtUp(b(m)) && m <= i && Unwritten(b(m), b(i))
    ensures CaughtUp(b(i))
  {
    forall x | x in b(i).pvLog ensures ShowsPV(b(i), x) { PVStaysShown(b, act, m, i, x); }
    forall y | y in b(i).vaLog ensures ShowsVA(b(i), y) { VAStaysShown(b, act, m, i, y); }
  }

  /** Every fair behaviour comes to a standstill: no more writes, and informers that tell the truth. */
  lemma BecomesStill(b: nat -> World, act: nat -> Action) returns (n: nat)
    requires QuietBehaviour(b, act) && Fair(b, act)
    ensures Still(b, n)
  {
    var settled := TokensSettle(b, 0);
    var m := PVsGetShown(b, act, settled, b(settled).pvLog);
    n := VAsGetShown(b, act, m, b(m).vaLog);
    StillFrom(b, act, settled, m);
    StillFrom(b, act, settled, n);
    forall x | x in b(n).pvLog ensures ShowsPV(b(n), x) { PVStaysShown(b, act, m, n, x); }
    forall i: nat | n <= i ensures StillAt(b, n, i) {
      AlwaysInOrder(b, act, i);
      StillFrom(b, act, settled, i);
      StaysCaughtUp(b, act, n, i);
    }
  }
}
