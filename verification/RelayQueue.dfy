/** The queue over whole runs: order of execution, and what a removal leaves. */
module RelayQueue {
  import opened SparseMerkle
  import opened PathSets
  import opened PolyTxs
  import opened PolyTxTable
  import opened Relay
  import opened RelayInvariant
  import opened RelayQueueSteps
  import opened RelayChainSteps
  import opened RelayTheorems

  // ---------- order of execution ----------

  /** Rows whose paths have been executed stand where they stood. */
  ghost predicate ExecutedStay(s: State, s': State) {
    && s'.starcoin.log == s.starcoin.log
    && forall i :: i in s'.rows && s'.rows[i].smtTxPath in Elements(s.starcoin.log) ==>
        i in s.rows && s.rows[i].smtTxPath == s'.rows[i].smtTxPath
  }

  lemma ExecutedStayStep(cfg: Config, s: State, a: Action, s': State)
    requires cfg.Valid() && Inv(cfg, s) && Next(cfg, s, a, s') && !a.AExecute?
    ensures ExecutedStay(s, s')
  {
    hide Inv, Next;
    LogStays(cfg, s, a, s');
    ExecutedAreQueued(cfg, s);
    forall i | i in s'.rows && s'.rows[i].smtTxPath in Elements(s.starcoin.log)
      ensures i in s.rows && s.rows[i].smtTxPath == s'.rows[i].smtTxPath
    {
      RowWasThere(cfg, s, a, s', i);
    }
  }

  lemma LogStays(cfg: Config, s: State, a: Action, s': State)
    requires Next(cfg, s, a, s') && !a.AExecute?
    ensures s'.starcoin.log == s.starcoin.log
  {
    hide SetRoot, Quiescent, Moves, Picked, AllPaths;
  }

  lemma ExecutedAreQueued(cfg: Config, s: State)
    requires Inv(cfg, s)
    ensures Elements(s.starcoin.log) <= PathSet(s.rows)
  {
    hide SetRoot, RowsOk, RootsOk, NodesOk, RemovedOk, TxsOk, ProcessedOk, ThreadsOk, RemovalsOk;
  }

  lemma RowsAsBefore(h: Hasher, s: State, a: Action, s': State)
    requires Step(h, s, a, s') && (a.APut? || a.APushBack? || a.AExecute?)
    ensures s'.rows == s.rows
  {
    hide NewRow, NodesAfterPut, Base, LastRow, AllPaths, Importable;
  }

  /** Only an insertion adds a row, and then of a path not queued. */
  lemma RowWasThere(cfg: Config, s: State, a: Action, s': State, i: nat)
    requires Next(cfg, s, a, s') && i in s'.rows && s'.rows[i].smtTxPath in PathSet(s.rows)
    ensures i in s.rows && s.rows[i].smtTxPath == s'.rows[i].smtTxPath
  {
    hide SetRoot, Quiescent, Moves, Picked, AllPaths, Fits, Affects, NewRow, NodesAfterPut, WithVersion, Built;
    hide Unchanged, Sweepable, AfterWrite, AfterInsert, ToRemovedPolyTx, PutsBehind, Prepare, Execute, Importable, Base;
    if a.APut? || a.APushBack? || a.AExecute? {
      RowsAsBefore(cfg.h, s, a, s');
    }
  }

  lemma LogOrderKept(s: State, s': State)
    requires ExecutedStay(s, s') && LogInOrder(s.rows, s.starcoin.log)
    ensures LogInOrder(s'.rows, s'.starcoin.log)
  {
    forall x, y, i, j | 0 <= x < y < |s'.starcoin.log| && i in s'.rows && j in s'.rows
        && s'.rows[i].smtTxPath == s'.starcoin.log[x] && s'.rows[j].smtTxPath == s'.starcoin.log[y]
      ensures i < j
    {
      assert s'.rows[i].smtTxPath in Elements(s.starcoin.log) && s'.rows[j].smtTxPath in Elements(s.starcoin.log);
    }
  }

  lemma LogOrderStep(cfg: Config, s: State, a: Action, s': State)
    requires cfg.Valid() && Inv(cfg, s) && Next(cfg, s, a, s') && LogInOrder(s.rows, s.starcoin.log)
    ensures LogInOrder(s'.rows, s'.starcoin.log)
  {
    hide ThreadsOk, RemovalsOk, LogInOrder, Execute, ExecutedStay, RowsOk, RootsOk, NodesOk, RemovedOk;
    hide ChainOk, TxsOk, ProcessedOk;
    if a.AExecute? {
      var n := ExecutedRow(cfg, s, s', a.hash);
      LogOrderExtended(cfg, s, s', n);
    } else {
      ExecutedStayStep(cfg, s, a, s');
      LogOrderKept(s, s');
    }
  }

  lemma LogOrderExtended(cfg: Config, s: State, s': State, n: nat)
    requires RowsOk(cfg, s) && ChainOk(cfg, s) && Extended(cfg, s, s', n) && LogInOrder(s.rows, s.starcoin.log)
    ensures LogInOrder(s'.rows, s'.starcoin.log)
  {
    hide Sound, SetRoot;
    var log := s.starcoin.log;
    forall x, y, i, j | 0 <= x < y < |s'.starcoin.log| && i in s.rows && j in s.rows
        && s.rows[i].smtTxPath == s'.starcoin.log[x] && s.rows[j].smtTxPath == s'.starcoin.log[y]
      ensures i < j
    {
      assert s.rows[i].smtTxPath == log[x];
      assert s.rows[i].smtTxPath in Elements(log);
      if y == |log| {
        assert j == n;
      }
    }
  }

  lemma NothingExecuted(cfg: Config)
    ensures LogInOrder(Init(cfg.h).rows, Init(cfg.h).starcoin.log)
  {
  }

  /** In every state of every run, paths have been executed in the order of their rows in the queue. */
  lemma {:induction false} ExecutedInQueueOrder(cfg: Config, states: seq<State>, actions: seq<Action>, k: nat)
    requires cfg.Valid() && Run(cfg, states, actions) && k < |states|
    ensures LogInOrder(states[k].rows, states[k].starcoin.log)
  {
    hide Inv, Next, LogInOrder;
    if k == 0 {
      NothingExecuted(cfg);
    } else {
      ExecutedInQueueOrder(cfg, states, actions, k - 1);
      RunOk(cfg, states, actions, k - 1);
      assert Next(cfg, states[k - 1], actions[k - 1], states[k - 1 + 1]);
      LogOrderStep(cfg, states[k - 1], actions[k - 1], states[k]);
    }
  }

  // ---------- removal ----------

  /**
   In every run, a removed row has not been executed, and Starcoin's root is at that moment the root
   of exactly the rows before it.
   */
  lemma RemovedWasNotExecuted(cfg: Config, states: seq<State>, actions: seq<Action>, k: nat, t: nat, m: PolyTx)
    requires cfg.Valid() && Run(cfg, states, actions) && k < |actions|
    requires actions[k] == ARemove(t) && t in states[k].threads && states[k].threads[t] == Removable(m)
    ensures var s := states[k];
      && m.txIndex in s.rows && s.rows[m.txIndex].key == m.key && m.txIndex !in states[k + 1].rows
      && s.rows[m.txIndex].smtTxPath !in s.starcoin.log
      && Elements(s.starcoin.log) == Before(s.rows, m.txIndex)
  {
    hide Run, Inv, Remove;
    RunStep(cfg, states, actions, k);
    RemovableIsExact(cfg, states[k], states[k + 1], t, m);
  }

  lemma RemovableIsExact(cfg: Config, s: State, s': State, t: nat, m: PolyTx)
    requires cfg.Valid() && Inv(cfg, s) && Remove(s, s', t) && s.threads[t] == Removable(m)
    ensures m.txIndex in s.rows && s.rows[m.txIndex].key == m.key && m.txIndex !in s'.rows
    ensures s.rows[m.txIndex].smtTxPath !in s.starcoin.log
    ensures Elements(s.starcoin.log) == Before(s.rows, m.txIndex)
  {
    hide TablesOk, ThreadOk, RemovalsOk;
    RemovalIsExact(cfg, s, m);
  }

  lemma RemovalIsExact(cfg: Config, s: State, m: PolyTx)
    requires cfg.Valid() && TablesOk(cfg, s) && ThreadOk(cfg, s, Removable(m))
    ensures m.txIndex in s.rows && s.rows[m.txIndex].key == m.key && s.rows[m.txIndex].root != []
    ensures s.rows[m.txIndex].smtTxPath !in s.starcoin.log
    ensures Elements(s.starcoin.log) == Before(s.rows, m.txIndex)
  {
    hide TablesOk, ThreadOk;
    RemovableRowIsNext(cfg, s, m);
  }

  /** The first row after index `i`. */
  ghost predicate IsNext(rows: Rows, i: nat, n: nat) {
    n in rows && n > i && forall j :: j in rows && j > i ==> n <= j
  }

  /**
   In every run, once a row has been removed the proof of the row after it can be derived again, and
   its root is then exactly Starcoin's: the queue is no longer blocked.
   */
  lemma RemovalUnblocks(cfg: Config, states: seq<State>, actions: seq<Action>, k: nat, t: nat, m: PolyTx, n: nat)
    requires cfg.Valid() && Run(cfg, states, actions) && k < |actions|
    requires actions[k] == ARemove(t) && t in states[k].threads && states[k].threads[t] == Removable(m)
    requires IsNext(states[k + 1].rows, m.txIndex, n)
    ensures var s' := states[k + 1]; var pre := Previous(s'.rows, n);
      && !NeedsDeriving(pre) && Importable(s'.nodes, pre)
      && AllPaths(cfg.h, Base(s'.nodes, pre)) && |s'.rows[n].smtTxPath| == cfg.h.size
      && WithProof(cfg.h, s'.nodes, s'.rows[n], pre).root == s'.starcoin.root
  {
    hide Run, Inv, Remove;
    RunStep(cfg, states, actions, k);
    NextRowFits(cfg, states[k], states[k + 1], t, n);
  }

  lemma NextRowFits(cfg: Config, s: State, s': State, t: nat, n: nat)
    requires cfg.Valid() && Inv(cfg, s) && Inv(cfg, s') && Remove(s, s', t)
    requires IsNext(s'.rows, s.threads[t].m.txIndex, n)
    ensures var pre := Previous(s'.rows, n);
      && !NeedsDeriving(pre) && Importable(s'.nodes, pre)
      && AllPaths(cfg.h, Base(s'.nodes, pre)) && |s'.rows[n].smtTxPath| == cfg.h.size
      && WithProof(cfg.h, s'.nodes, s'.rows[n], pre).root == s'.starcoin.root
  {
    var m := s.threads[t].m;
    assert ThreadOk(cfg, s, Removable(m));
    RemovalIsExact(cfg, s, m);
    assert Sound(cfg, s', s'.rows[n]);
    PreviousHasRoot(cfg, s, s', m.txIndex, n);
    BaseIsBefore(cfg, s', n);
    assert Before(s'.rows, n) == Before(s.rows, m.txIndex) by {
      NothingBetween(s.rows, m.txIndex, n);
    }
  }

  lemma NothingBetween(rows: Rows, i: nat, n: nat)
    requires IsNext(Removed(rows, i), i, n)
    ensures Before(Removed(rows, i), n) == Before(rows, i)
  {
    var rows' := Removed(rows, i);
    forall p | p in Before(rows', n) ensures p in Before(rows, i) {
      var j :| j in rows' && j < n && rows'[j].smtTxPath == p;
      assert j < i;
    }
    forall p | p in Before(rows, i) ensures p in Before(rows', n) {
      var j :| j in rows && j < i && rows[j].smtTxPath == p;
      assert j in rows' && rows'[j].smtTxPath == p;
    }
  }

  lemma PreviousHasRoot(cfg: Config, s: State, s': State, i: nat, n: nat)
    requires RootsOk(s) && i in s.rows && s.rows[i].root != []
    requires s'.rows == Removed(s.rows, i) && s'.nodes == s.nodes && IsNext(s'.rows, i, n)
    ensures !NeedsDeriving(Previous(s'.rows, n)) && Importable(s'.nodes, Previous(s'.rows, n))
  {
    var pre := Previous(s'.rows, n);
    if pre.Some? {
      var j :| j in s'.rows && j < n && pre.value == s'.rows[j];
      assert j in s.rows && j < i && s'.rows[j] == s.rows[j];
    }
  }
}
