/**
 Every run of the relay, with nothing assumed of the digest but its width: either the run shows what
 the theorems say, or it has built two trees for which different inputs with one digest were hashed.
 */
module RelayAnyRun {
  import opened Bytes
  import opened SparseMerkle
  import opened SmtUnique
  import opened PathSets
  import opened PolyTxs
  import opened PolyTxTable
  import opened Relay
  import opened RelayInvariant
  import opened RelayTheorems
  import opened RelayQueue

  /** Different inputs with one digest, hashed for trees of the family. */
  ghost predicate Collides(h: Hasher, trees: set<set<Bytes>>)
    requires forall a :: a in trees ==> AllPaths(h, a)
  {
    exists a, b :: a in trees && b in trees && Collide(h, Hashed(h, a), Hashed(h, b))
  }

  lemma BuiltSized(h: Hasher, s: State, a: Action, s': State)
    requires Step(h, s, a, s')
    ensures forall tree :: tree in Built(h, s, a) ==> AllPaths(h, tree)
  {
    hide LastRow, Previous, Base, NewRow, NodesAfterPut, WithProof, WithVersion, Insert, Spawn, Move, Finish, Write;
    hide Submit, Sweep, Remove, DeleteRemoved, MarkForRemoval, MarkForReturn, Execute, Reject, Tick, Importable;
  }

  lemma {:induction false} TreesSized(h: Hasher, states: seq<State>, actions: seq<Action>)
    requires AnyRun(h, states, actions)
    ensures forall tree :: tree in TreesOf(h, states, actions) ==> AllPaths(h, tree)
  {
    hide Step, Built;
    if actions != [] {
      var n := |actions| - 1;
      Shorter(h, states, actions);
      TreesSized(h, states[..n + 1], actions[..n]);
      assert Step(h, states[n], actions[n], states[n + 1]);
      BuiltSized(h, states[n], actions[n], states[n + 1]);
    }
  }

  lemma Shorter(h: Hasher, states: seq<State>, actions: seq<Action>)
    requires AnyRun(h, states, actions) && actions != []
    ensures AnyRun(h, states[..|actions|], actions[..|actions| - 1])
  {
    hide Step;
    var states', actions' := states[..|actions|], actions[..|actions| - 1];
    forall k | 0 <= k < |actions'| ensures Step(h, states'[k], actions'[k], states'[k + 1]) {
      assert Step(h, states[k], actions[k], states[k + 1]);
    }
  }

  lemma {:induction false} BuiltIncluded(h: Hasher, states: seq<State>, actions: seq<Action>, k: nat)
    requires AnyRun(h, states, actions) && k < |actions|
    ensures Built(h, states[k], actions[k]) <= TreesOf(h, states, actions)
  {
    hide Step, Built;
    if k < |actions| - 1 {
      Shorter(h, states, actions);
      BuiltIncluded(h, states[..|actions|], actions[..|actions| - 1], k);
    }
  }

  lemma {:induction false} EmptyIncluded(h: Hasher, states: seq<State>, actions: seq<Action>)
    requires |states| == |actions| + 1
    ensures {} in TreesOf(h, states, actions)
  {
    hide Built;
    if actions != [] {
      EmptyIncluded(h, states[..|actions|], actions[..|actions| - 1]);
    }
  }

  /** A run is a run within the family of the trees it builds, and all theorems apply unless two of these collide. */
  lemma OwnTrees(h: Hasher, states: seq<State>, actions: seq<Action>)
    requires h.Valid() && AnyRun(h, states, actions)
    ensures |states| == |actions| + 1
    ensures forall tree :: tree in TreesOf(h, states, actions) ==> AllPaths(h, tree)
    ensures var cfg := Config(h, TreesOf(h, states, actions));
      Run(cfg, states, actions) && (cfg.Valid() <==> !Collides(h, cfg.trees))
  {
    hide Step, Built, TreesOf;
    var cfg := Config(h, TreesOf(h, states, actions));
    TreesSized(h, states, actions);
    EmptyIncluded(h, states, actions);
    forall k | 0 <= k < |actions| ensures Next(cfg, states[k], actions[k], states[k + 1]) {
      BuiltIncluded(h, states, actions, k);
      assert Step(h, states[k], actions[k], states[k + 1]);
    }
  }

  /** What is promised of a state: order of execution, processed rows executed, and roots of the rows before. */
  ghost predicate Promised(h: Hasher, s: State) {
    && (exists n :: Elements(s.starcoin.log) == Before(s.rows, n))
    && NoRepeats(s.starcoin.log) && LogInOrder(s.rows, s.starcoin.log)
    && (forall i :: i in s.rows && s.rows[i].status in {Processed, Confirmed} ==>
        s.rows[i].smtTxPath in s.starcoin.log)
    && (forall i :: i in s.rows && s.rows[i].root != [] ==>
        AllPaths(h, Before(s.rows, i)) && s.rows[i].root == SetRoot(h, Before(s.rows, i)))
  }

  lemma PromisedInRun(cfg: Config, states: seq<State>, actions: seq<Action>, k: nat)
    requires cfg.Valid() && Run(cfg, states, actions) && k < |states|
    ensures Promised(cfg.h, states[k])
  {
    hide Run, Inv, LogInOrder, SetRoot, AbsenceProof;
    var s := states[k];
    ExecutedIsPrefix(cfg, states, actions, k);
    ExecutedInQueueOrder(cfg, states, actions, k);
    forall i | i in s.rows && s.rows[i].status in {Processed, Confirmed} ensures s.rows[i].smtTxPath in s.starcoin.log {
      ProcessedWasExecuted(cfg, states, actions, k, i);
    }
    forall i | i in s.rows && s.rows[i].root != []
      ensures AllPaths(cfg.h, Before(s.rows, i)) && s.rows[i].root == SetRoot(cfg.h, Before(s.rows, i))
    {
      RootsDescribeQueue(cfg, states, actions, k, i);
      RootedSized(cfg.h, s, i);
    }
  }

  lemma RootedSized(h: Hasher, s: State, i: nat)
    requires i in s.rows && s.rows[i].sideNodes.Some?
    requires AbsenceProof(h, Before(s.rows, i), s.rows[i].smtTxPath, s.rows[i].sideNodes.value, s.rows[i].leafData)
    ensures AllPaths(h, Before(s.rows, i))
  {
  }

  /** In every run, without any assumption on collisions: all is as promised, or the trees built collide. */
  lemma PromisedOrCollides(h: Hasher, states: seq<State>, actions: seq<Action>, k: nat)
    requires h.Valid() && AnyRun(h, states, actions) && k < |states|
    ensures forall tree :: tree in TreesOf(h, states, actions) ==> AllPaths(h, tree)
    ensures Collides(h, TreesOf(h, states, actions)) || Promised(h, states[k])
  {
    hide TreesOf, Run, AnyRun, Promised, AllPaths, Collides, CollisionFree;
    OwnTrees(h, states, actions);
    var cfg := Config(h, TreesOf(h, states, actions));
    if cfg.Valid() {
      PromisedInRun(cfg, states, actions, k);
    }
  }
}
