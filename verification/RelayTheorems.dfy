/** What holds of every run of the relay. */
module RelayTheorems {
  import opened Bytes
  import opened Wrappers
  import opened PathSets
  import opened PolyTxs
  import opened PolyTxTable
  import opened Relay
  import opened RelayInvariant
  import opened RelayLocalSteps
  import opened RelayWriteSteps
  import opened RelayQueueSteps
  import opened RelayInsertion
  import opened RelayChainSteps
  import opened RelayRemoval

  /** Every step keeps the invariant. */
  lemma NextOk(cfg: Config, s: State, a: Action, s': State)
    requires cfg.Valid() && Inv(cfg, s) && Next(cfg, s, a, s')
    ensures Inv(cfg, s')
  {
    hide Inv, Built, Put, Insert, Spawn, Move, Finish, Write, Derive, Submit, Sweep, Remove, PushBack, DeleteRemoved;
    hide MarkForRemoval, MarkForReturn, Execute, Reject, Tick;
    match a
    case APut(n, key, payload) => PutOk(cfg, s, s', n, key, payload);
    case AInsert(t) => InsertOk(cfg, s, s', t);
    case ASpawn(n, thr) => SpawnOk(cfg, s, s', n, thr);
    case AMove(t, thr) => MoveOk(cfg, s, s', t, thr);
    case AFinish(t) => FinishOk(cfg, s, s', t);
    case AWrite(t) => WriteOk(cfg, s, s', t);
    case ADerive(t) => DeriveOk(cfg, s, s', t);
    case ASubmit(t, hash) => SubmitOk(cfg, s, s', t, hash);
    case ASweep(t, targets) => SweepOk(cfg, s, s', t, targets);
    case ARemove(t) => RemoveOk(cfg, s, s', t);
    case APushBack(n, id) => PushBackOk(cfg, s, s', n, id);
    case ADeleteRemoved(t) => DeleteRemovedOk(cfg, s, s', t);
    case AMarkForRemoval(i) => MarkForRemovalOk(cfg, s, s', i);
    case AMarkForReturn(id) => MarkForReturnOk(cfg, s, s', id);
    case AExecute(hash) => ExecuteOk(cfg, s, s', hash);
    case AReject(hash) => RejectOk(cfg, s, s', hash);
    case ATick(millis) => TickOk(cfg, s, s', millis);
  }

  lemma {:induction false} RunOk(cfg: Config, states: seq<State>, actions: seq<Action>, k: nat)
    requires cfg.Valid() && Run(cfg, states, actions) && k < |states|
    ensures Inv(cfg, states[k])
  {
    hide Inv, Next;
    if k == 0 {
      InitOk(cfg);
    } else {
      RunOk(cfg, states, actions, k - 1);
      assert Next(cfg, states[k - 1], actions[k - 1], states[k - 1 + 1]);
      NextOk(cfg, states[k - 1], actions[k - 1], states[k]);
    }
  }

  lemma RunStep(cfg: Config, states: seq<State>, actions: seq<Action>, k: nat)
    requires cfg.Valid() && Run(cfg, states, actions) && k < |actions|
    ensures |states| == |actions| + 1
    ensures Inv(cfg, states[k]) && Next(cfg, states[k], actions[k], states[k + 1]) && Inv(cfg, states[k + 1])
  {
    RunOk(cfg, states, actions, k);
    RunOk(cfg, states, actions, k + 1);
    hide Inv, Next;
  }

  // ---------- executed rows are a prefix of the queue ----------

  /** Executed rows come in queue order. */
  ghost predicate LogInOrder(rows: Rows, log: seq<Bytes>) {
    forall a, b, i, j ::
      0 <= a < b < |log| && i in rows && j in rows && rows[i].smtTxPath == log[a] && rows[j].smtTxPath == log[b] ==>
        i < j
  }

  lemma LastExecuted(rows: Rows, executed: set<nat>) returns (n: nat)
    requires executed <= rows.Keys
    ensures forall i :: i in executed ==> i < n
    ensures n == 0 || n - 1 in executed
  {
    if executed == {} {
      n := 0;
    } else {
      LastExists(rows, executed);
      var i :| i in executed && forall j :: j in executed ==> j <= i;
      n := i + 1;
    }
  }

  /** Rows executed in order, and nothing else executed, are the rows before some index. */
  lemma InOrderIsPrefix(rows: Rows, executed: set<Bytes>)
    requires executed <= PathSet(rows) && InOrder(rows, executed)
    ensures exists n :: executed == Before(rows, n)
  {
    var indices := set i | i in rows && rows[i].smtTxPath in executed;
    var n := LastExecuted(rows, indices);
    forall p | p in executed ensures p in Before(rows, n) {
      var i :| i in rows && rows[i].smtTxPath == p;
      assert i in indices;
    }
    forall p | p in Before(rows, n) ensures p in executed {
      var i :| i in rows && i < n && rows[i].smtTxPath == p;
      assert i <= n - 1;
    }
    assert executed == Before(rows, n);
  }

  /**
   In every state of every run, the paths executed on Starcoin are those of the rows before some
   index of the queue, no path having been executed twice.
   */
  lemma ExecutedIsPrefix(cfg: Config, states: seq<State>, actions: seq<Action>, k: nat)
    requires cfg.Valid() && Run(cfg, states, actions) && k < |states|
    ensures exists n :: Elements(states[k].starcoin.log) == Before(states[k].rows, n)
    ensures NoRepeats(states[k].starcoin.log)
  {
    RunOk(cfg, states, actions, k);
    InOrderIsPrefix(states[k].rows, Elements(states[k].starcoin.log));
  }

  /** In every state of every run, a row marked processed has been executed on Starcoin. */
  lemma ProcessedWasExecuted(cfg: Config, states: seq<State>, actions: seq<Action>, k: nat, i: nat)
    requires cfg.Valid() && Run(cfg, states, actions) && k < |states|
    requires i in states[k].rows && states[k].rows[i].status in {Processed, Confirmed}
    ensures states[k].rows[i].smtTxPath in states[k].starcoin.log
  {
    RunOk(cfg, states, actions, k);
  }

  /**
   In every state of every run, rows with a root come first, each such root is the root of exactly
   the rows before it, and the stored proof shows the row's own path absent from them.
   */
  lemma RootsDescribeQueue(cfg: Config, states: seq<State>, actions: seq<Action>, k: nat, i: nat)
    requires cfg.Valid() && Run(cfg, states, actions) && k < |states|
    requires i in states[k].rows && states[k].rows[i].root != []
    ensures var row, earlier := states[k].rows[i], Before(states[k].rows, i);
      && row.sideNodes.Some?
      && AbsenceProof(cfg.h, earlier, row.smtTxPath, row.sideNodes.value, row.leafData)
      && row.root == SetRoot(cfg.h, earlier)
    ensures forall j :: j in states[k].rows && j < i ==> states[k].rows[j].root != []
  {
    RunOk(cfg, states, actions, k);
    assert Sound(cfg, states[k], states[k].rows[i]);
  }

  /**
   In every state of every run, an insertion of a row prepared earlier, as the code performs it, keeps
   the roots right exactly when no row behind it has a root and a root of its own is the inclusion root
   of the row now before it.
   */
  lemma InsertionKeepsRoots(cfg: Config, states: seq<State>, actions: seq<Action>, k: nat, t: nat, s': State)
    requires cfg.Valid() && Run(cfg, states, actions) && k < |states| && InsertAnyhow(states[k], s', t)
    ensures RootsOk(s') <==> Fits(cfg.h, states[k].rows, states[k].threads[t].row)
  {
    hide Inv, Run, InsertAnyhow, RootsOk, Fits;
    RunOk(cfg, states, actions, k);
    InsertKeepsRoots(cfg, states[k], s', t);
  }

  /**
   The inclusion root computed from a row's stored proof is the one the tree gives: the root of the
   rows before it and itself, hence the root of the next row once that is derived.
   */
  lemma InclusionRootsAgree(cfg: Config, states: seq<State>, actions: seq<Action>, k: nat, i: nat)
    requires cfg.Valid() && Run(cfg, states, actions) && k < |states|
    requires i in states[k].rows && states[k].rows[i].root != []
    ensures var s, row := states[k], states[k].rows[i];
      var with := Base(s.nodes, Some(row));
      && with == Before(s.rows, i) + {row.smtTxPath} && AllPaths(cfg.h, with)
      && InclusionRootOf(cfg.h, row) == Some(SetRoot(cfg.h, with))
  {
    RunOk(cfg, states, actions, k);
    RowInclusionRoot(cfg, states[k], i);
  }

  /**
   In every state of every run, comparing a row's inclusion root with Starcoin's decides whether this
   row is the last one executed.
   */
  lemma RootCheckDecides(cfg: Config, states: seq<State>, actions: seq<Action>, k: nat, i: nat)
    requires cfg.Valid() && Run(cfg, states, actions) && k < |states|
    requires i in states[k].rows && states[k].rows[i].root != []
    ensures InclusionRootOf(cfg.h, states[k].rows[i]) == Some(states[k].starcoin.root)
      <==> Elements(states[k].starcoin.log) == Before(states[k].rows, i) + {states[k].rows[i].smtTxPath}
  {
    RunOk(cfg, states, actions, k);
    RowRootCheck(cfg, states[k], i);
  }

  lemma RowRootCheck(cfg: Config, s: State, i: nat)
    requires cfg.Valid() && RowsOk(cfg, s) && RootsOk(s) && NodesOk(cfg, s) && ChainOk(cfg, s) && i in s.rows
    requires s.rows[i].root != []
    ensures InclusionRootOf(cfg.h, s.rows[i]) == Some(s.starcoin.root)
      <==> Elements(s.starcoin.log) == Before(s.rows, i) + {s.rows[i].smtTxPath}
  {
    RowInclusionRoot(cfg, s, i);
    hide RowsOk, RootsOk, NodesOk, InclusionRootOf, SetRoot;
    SameRootSameSet(cfg.h, cfg.trees, Before(s.rows, i) + {s.rows[i].smtTxPath}, Elements(s.starcoin.log));
  }
}
