/**
 * Fair behaviours: where nothing is left to do the resync goes on for ever, and the attacher looks at
 * one listed attachment after another.
 */
module Resyncs {
  import opened Results
  import opened Naming
  import opened WindowsStorage
  import opened ControllerServer
  import opened Lifecycle
  import opened LifecycleInvariants
  import opened LifecycleProgress
  import opened LifecycleSafety
  import opened Reconcilers
  import opened Quiescence
  import opened Rest
  import opened Fairness
  import Hazards

  /** Both workers rest, the informers show everything there is, and no reconcile would do anything. */
  ghost predicate NothingToDo(w: World) {
    && w.prov.Resting? && w.att.Idle? && CaughtUp(w)
    && (forall k :: Listed(w, k) ==> AttachPlan(w, k, w.vaCache[k].va.value).Idle?)
    && (forall name :: !Deletable(w, name) && !Releasable(w, name))
  }

  /** Every listed attachment, one after another. */
  ghost predicate Lists(w: World, keys: seq<Key>) {
    && (forall i :: 0 <= i < |keys| ==> Listed(w, keys[i]))
    && (forall k :: Listed(w, k) ==> k in keys)
  }

  lemma {:induction false} ListKeys(w: World, rest: set<Key>) returns (keys: seq<Key>)
    requires rest <= w.vaCache.Keys
    ensures forall k :: k in keys <==> k in rest && Listed(w, k)
    decreases rest
  {
    keys := [];
    if k :| k in rest {
      var more := ListKeys(w, rest - {k});
      keys := if Listed(w, k) then [k] + more else more;
    }
  }

  /** Whose turn it is after `m` turns among `n`. */
  function Turn(n: nat, m: nat): (p: nat)
    requires n > 0
    ensures p < n
  {
    if m == 0 || Turn(n, m - 1) + 1 == n then 0 else Turn(n, m - 1) + 1
  }

  lemma {:induction false} TurnsPass(n: nat, m: nat, p: nat)
    requires p < n && Turn(n, m) == 0
    ensures Turn(n, m + p) == p
  {
    if p > 0 { TurnsPass(n, m, p - 1); }
  }

  /** A round begins after any turn. */
  lemma {:induction false} RoundBegins(n: nat, i: nat) returns (m: nat)
    requires n > 0
    ensures i <= m && Turn(n, m) == 0
  {
    m := 0;
    if i > 0 {
      var before := RoundBegins(n, i - 1);
      TurnsPass(n, before, n - 1);
      m := before + n;
    }
  }

  function KeyAt(keys: seq<Key>, i: nat): Key
    requires keys != []
  {
    keys[Turn(|keys|, i / 2)]
  }

  ghost function WorldAt(w: World, keys: seq<Key>, i: nat): World
    requires Lists(w, keys)
  {
    if keys == [] || i % 2 == 0 then w else w.(att := Looking(KeyAt(keys, i), w.vaCache[KeyAt(keys, i)].va.value))
  }

  function ActAt(keys: seq<Key>, i: nat): Action {
    if keys == [] then ProvisionerFails
    else if i % 2 == 0 then StartAttach(KeyAt(keys, i))
    else AttachCall(false)
  }

  lemma ResyncMoves(w: World, keys: seq<Key>, i: nat)
    requires NothingToDo(w) && Lists(w, keys)
    ensures Calm(WorldAt(w, keys, i), ActAt(keys, i)) && Sound(WorldAt(w, keys, i), ActAt(keys, i))
    ensures Step(WorldAt(w, keys, i), ActAt(keys, i), WorldAt(w, keys, i + 1))
  {
    if keys != [] {
      if i % 2 == 0 { assert (i + 1) / 2 == i / 2; } else { LookingLeavesAll(w, KeyAt(keys, i)); }
    }
  }

  lemma LookingLeavesAll(w: World, key: Key)
    requires NothingToDo(w) && Listed(w, key)
    ensures AttacherCall(w.(att := Looking(key, w.vaCache[key].va.value))) == Some(w)
  {
  }

  /** The turn of this attachment comes after any moment. */
  lemma TurnComes(keys: seq<Key>, p: nat, i: nat) returns (j: nat)
    requires p < |keys|
    ensures i <= j && ActAt(keys, j) == StartAttach(keys[p])
  {
    var m := RoundBegins(|keys|, i);
    TurnsPass(|keys|, m, p);
    j := 2 * (m + p);
  }

  lemma StaysDone(w: World, att: Attacher, name: string)
    ensures Deletable(w.(att := att), name) == Deletable(w, name) && Releasable(w.(att := att), name) == Releasable(w, name)
  {
  }

  lemma ResyncIsFairAt(w: World, keys: seq<Key>, b: nat -> World, act: nat -> Action, i: nat)
    requires NothingToDo(w) && Lists(w, keys)
    requires forall k: nat :: b(k) == WorldAt(w, keys, k) && act(k) == ActAt(keys, k)
    ensures FairAt(b, act, i)
  {
    ResyncMoves(w, keys, i);
    forall x | x in b(i).pvLog ensures PVShown(b, i, x) { assert ShowsPV(b(i), x); }
    forall y | y in b(i).vaLog ensures VAShown(b, i, y) { assert ShowsVA(b(i), y); }
    if !b(i).att.Idle? { assert AttachersTurn(act(i)); }
    forall key ensures Reconciled(b, act, i, key) {
      if Listed(w, key) {
        var p :| 0 <= p < |keys| && keys[p] == key;
        var j := TurnComes(keys, p, i);
        assert act(j) == StartAttach(key);
      } else {
        assert !Listed(b(i), key);
      }
    }
    forall name ensures Deleted(b, act, i, name) && Released(b, act, i, name) {
      StaysDone(w, b(i).att, name);
      assert !Deletable(b(i), name) && !Releasable(b(i), name);
    }
  }

  /** From any world where nothing is left to do there is a fair behaviour. */
  lemma FairBehaviourExists(w: World) returns (b: nat -> World, act: nat -> Action)
    requires NothingToDo(w)
    ensures b(0) == w && Behaviour(b, act) && Fair(b, act)
  {
    var keys := ListKeys(w, w.vaCache.Keys);
    assert Lists(w, keys);
    b := (i: nat) => WorldAt(w, keys, i);
    act := (i: nat) => ActAt(keys, i);
    forall i: nat ensures Moves(b, act, i) { ResyncMoves(w, keys, i); }
    forall i: nat ensures FairAt(b, act, i) { ResyncIsFairAt(w, keys, b, act, i); }
  }

  // ---------- Such a world ----------

  lemma ShownAll(run: seq<World>, name: string, key: Key)
    requires Run(run) && run[|run| - 1].births.Keys == {name} && CachedPV(run[|run| - 1], name).Some?
    requires forall y :: y in run[|run| - 1].vaLog ==> y.key == key
    requires var w := run[|run| - 1];
             && name in w.pvs && CachedPV(w, name) == Some(w.pvs[name])
             && key in w.vas && key in w.vaCache && w.vaCache[key].va == Some(w.vas[key])
    ensures CaughtUp(run[|run| - 1])
    ensures run[|run| - 1].pvCache.Keys <= {name} && run[|run| - 1].vaCache.Keys <= {key}
  {
    var w := run[|run| - 1];
    RunKeeps(run, |run| - 1);
    RunStaysTidy(run, |run| - 1);
    assert PVVersionSound(w.pvCache[name], w.rev, w.births, w.published, w.kept);
    forall x | x in w.pvLog ensures ShowsPV(w, x) && x.name == name {
      assert PVVersionSound(x, w.rev, w.births, w.published, w.kept);
    }
    forall y | y in w.vaLog ensures ShowsVA(w, y) {
      assert VAVersionBinds(y, w.vas[key]) && VAVersionBinds(w.vaCache[key], w.vas[key]);
    }
  }

  /** A volume is provisioned and attached, the informers show it, and nothing is left to do. */
  method ProvisionAndAttach(start: World, req: Request, node: string) returns (c: Cluster)
    requires Init(start) && WellNamed(req) && req.iqn != ""
    ensures fresh(c) && c.Valid() && NothingToDo(c.w) && req.vol in c.w.pvs
    ensures var key := Key(req.vol, node); Listed(c.w, key) && key in c.w.vas && c.w.vas[key].attached
  {
    c := new Cluster(start);
    var ok := c.ReconcilePersistentVolumeClaim(req, Policy.Delete, false);
    c.ShowPV(req.vol);
    var key := Key(req.vol, node);
    Hazards.AttachByCopy(c, key, c.w.pvs[req.vol]);
    c.ShowVA(key);
    ShownAll(c.run, req.vol, key);
  }
}
