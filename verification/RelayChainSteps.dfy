/** Steps that involve Starcoin: submissions, executions, rejections, and removals checked against its root. */
module RelayChainSteps {
  import opened Bytes
  import opened Wrappers
  import opened SmtUpdate
  import opened PathSets
  import opened PolyTxs
  import opened PolyTxTable
  import opened Relay
  import opened RelayInvariant

  /** Only Starcoin and goroutines differ, and Starcoin has gone on. */
  ghost predicate OnlyChainChanges(s: State, s': State) {
    && s' == s.(starcoin := s'.starcoin, threads := s'.threads)
    && ChainGrows(s, s')
  }

  lemma ChainChangesOk(cfg: Config, s: State, s': State)
    requires RowsOk(cfg, s) && RootsOk(s) && NodesOk(cfg, s) && RemovedOk(cfg, s) && ProcessedOk(s)
    requires OnlyChainChanges(s, s')
    ensures RowsOk(cfg, s') && RootsOk(s') && NodesOk(cfg, s') && RemovedOk(cfg, s')
    ensures s'.starcoin.log == s.starcoin.log ==> ProcessedOk(s')
  {
    hide AbsenceProof, ProvesAbsent, RootProved;
    forall i | i in s.rows ensures Sound(cfg, s', s.rows[i]) {
      SoundKept(cfg, s, s', s.rows[i]);
    }
    forall id | id in s.removed ensures Sound(cfg, s', ToPolyTx(s.removed[id])) {
      SoundKept(cfg, s, s', ToPolyTx(s.removed[id]));
    }
  }

  lemma ChainChangesGrow(s: State, s': State)
    requires OnlyChainChanges(s, s')
    requires s'.starcoin.root == s.starcoin.root || forall t :: t in s.threads ==> !s.threads[t].Removable?
    ensures Grows(s, s')
  {
  }

  // ---------- submission ----------

  lemma SubmitOk(cfg: Config, s: State, s': State, t: nat, hash: string)
    requires Inv(cfg, s) && Submit(s, s', t, hash)
    ensures Inv(cfg, s')
  {
    hide Inv, ThreadOk, TablesOk, Grows, OnlyThread;
    var m := s.threads[t].m;
    HeldOk(cfg, s, t);
    SubmitterOk(cfg, s, s', t, hash);
    SubmittedTablesOk(cfg, s, s', t, hash);
    SubmittedOthersOk(cfg, s, s', t, hash);
  }

  lemma SubmittedOthersOk(cfg: Config, s: State, s': State, t: nat, hash: string)
    requires Inv(cfg, s) && Submit(s, s', t, hash) && TablesOk(cfg, s') && Grows(s, s') && OnlyThread(s, s', t)
    requires ThreadOk(cfg, s', s'.threads[t])
    ensures Inv(cfg, s')
  {
    hide TablesOk, ThreadOk, Grows, OnlyThread, RemovalsOk, PutsOk, Submit;
    assert t in s'.threads ==> ThreadOk(cfg, s', s'.threads[t]);
    ThreadsKept(cfg, s, s', t);
    SubmittedRemovalsOk(cfg, s, s', t, hash);
    SubmittedPutsOk(cfg, s, s', t, hash);
  }

  lemma SubmitterOk(cfg: Config, s: State, s': State, t: nat, hash: string)
    requires Submit(s, s', t, hash) && ThreadOk(cfg, s, s.threads[t])
    ensures ThreadOk(cfg, s', s'.threads[t]) && OnlyThread(s, s', t)
  {
    hide RootProved, ProvesAbsent, Placed;
  }

  lemma SubmittedTablesOk(cfg: Config, s: State, s': State, t: nat, hash: string)
    requires TablesOk(cfg, s) && Submit(s, s', t, hash) && ThreadOk(cfg, s, Queued(s.threads[t].m))
    ensures TablesOk(cfg, s') && Grows(s, s')
  {
    hide RowsOk, RootsOk, NodesOk, RemovedOk, ChainOk, TxsOk, ProcessedOk, ThreadOk;
    var m := s.threads[t].m;
    assert OnlyChainChanges(s, s');
    ChainChangesOk(cfg, s, s');
    ChainChangesGrow(s, s');
    SubmittedPendingOk(cfg, s, s', m, hash);
    SubmittedTxsOk(cfg, s, s', m, hash);
  }

  /** What was held in place is in place once submitted. */
  lemma SubmittedPendingOk(cfg: Config, s: State, s': State, m: PolyTx, hash: string)
    requires RowsOk(cfg, s) && ThreadOk(cfg, s, Queued(m)) && m.sideNodes.Some? && hash !in s.starcoin.txs
    requires s' == s.(starcoin := Received(s.starcoin, hash, m), threads := s'.threads)
    ensures PendingOk(cfg, s', s'.starcoin.txs[hash])
  {
    hide AbsenceProof, ProvesAbsent, InPlace;
    if m.root != [] {
      assert Held(s, Queued(m)) == Some(m) && Placed(s, m);
      RowOfSnapshot(cfg, s, m);
      assert m.smtTxPath in PathSet(s.rows);
      assert InPlace(s', m.txIndex, m.root) by {
        SameInPlace(s, s', m.txIndex, m.root);
      }
    }
  }

  lemma SameInPlace(s: State, s': State, i: nat, root: Bytes)
    requires s'.rows == s.rows && s'.nodes == s.nodes
    ensures InPlace(s', i, root) <==> InPlace(s, i, root)
  {
  }

  lemma SubmittedTxsOk(cfg: Config, s: State, s': State, m: PolyTx, hash: string)
    requires ChainOk(cfg, s) && TxsOk(cfg, s) && m.sideNodes.Some? && hash !in s.starcoin.txs
    requires s' == s.(starcoin := Received(s.starcoin, hash, m), threads := s'.threads)
    requires PendingOk(cfg, s', s'.starcoin.txs[hash])
    ensures TxsOk(cfg, s') && ChainOk(cfg, s')
  {
    hide AbsenceProof, SetRoot;
    forall x | TxIs(s', x, Pending) ensures PendingOk(cfg, s', s'.starcoin.txs[x]) {
      if x != hash {
        assert TxIs(s, x, Pending);
      }
    }
    forall x | TxIs(s', x, Executed) ensures s'.starcoin.txs[x].path in s'.starcoin.log {
      assert TxIs(s, x, Executed);
    }
  }

  lemma SubmittedRemovalsOk(cfg: Config, s: State, s': State, t: nat, hash: string)
    requires Inv(cfg, s) && Submit(s, s', t, hash)
    ensures RemovalsOk(s')
  {
    hide TablesOk, ThreadsOk, ThreadOk, PutsOk;
    var m := s.threads[t].m;
    HeldOk(cfg, s, t);
    forall u | u in s'.threads && s'.threads[u].Removable?
      ensures Quiescent(s', s'.threads[u].m.key, s'.threads[u].m.smtTxPath)
    {
      var r := s.threads[u].m;
      assert Quiescent(s, r.key, r.smtTxPath);
      HeldOk(cfg, s, u);
      if m.root != [] {
        assert Holds(s.threads[t]) == Some(m.key);
        SubmittedIsOther(cfg, s, m, r);
      }
    }
  }

  lemma SubmittedIsOther(cfg: Config, s: State, m: PolyTx, r: PolyTx)
    requires TablesOk(cfg, s) && ThreadOk(cfg, s, Queued(m)) && ThreadOk(cfg, s, Removable(r)) && m.root != []
    requires m.key != r.key
    ensures m.smtTxPath != r.smtTxPath
  {
    hide RootsOk, NodesOk, RemovedOk, ChainOk, TxsOk, ProcessedOk, InPlace, RootProved, ProvesAbsent;
    assert Held(s, Queued(m)) == Some(m);
    assert Sound(cfg, s, s.rows[m.txIndex]) && Sound(cfg, s, s.rows[r.txIndex]);
  }

  lemma SubmittedPutsOk(cfg: Config, s: State, s': State, t: nat, hash: string)
    requires Inv(cfg, s) && Submit(s, s', t, hash)
    ensures PutsOk(s')
  {
    hide TablesOk, ThreadsOk, RemovalsOk, PutsOk, Counted, ThreadOk;
    HeldOk(cfg, s, t);
    forall path, i: nat | Counted(s', path, i) ensures Counted(s, path, i) || path in PathSet(s'.rows) {
      SubmittedCounts(cfg, s, s', t, hash, path, i);
    }
    PutsStay(s, s');
  }

  lemma SubmittedCounts(cfg: Config, s: State, s': State, t: nat, hash: string, path: Bytes, i: nat)
    requires TablesOk(cfg, s) && Submit(s, s', t, hash) && ThreadOk(cfg, s, s.threads[t]) && Counted(s', path, i)
    ensures Counted(s, path, i)
  {
    hide RootsOk, NodesOk, RemovedOk, ChainOk, TxsOk, ProcessedOk, InPlace, Sound;
    if u: nat :| u in s'.threads && HeldCounts(s', s'.threads[u], path, i) {
      assert HeldCounts(s, s.threads[u], path, i);
    } else {
      var x :| PendingCounts(s', x, path, i);
      if x == hash {
        SubmittedRow(cfg, s, s.threads[t].m, i);
        assert HeldCounts(s, s.threads[t], path, i);
      } else {
        assert PendingCounts(s, x, path, i);
      }
    }
  }

  lemma SubmittedRow(cfg: Config, s: State, m: PolyTx, i: nat)
    requires RowsOk(cfg, s) && ThreadOk(cfg, s, Queued(m)) && m.root != [] && i in s.rows
    requires s.rows[i].smtTxPath == m.smtTxPath
    ensures m.txIndex == i
  {
    assert Held(s, Queued(m)) == Some(m);
    RowOfSnapshot(cfg, s, m);
    hide Sound, InPlace;
  }

  lemma RowOfSnapshot(cfg: Config, s: State, m: PolyTx)
    requires RowsOk(cfg, s) && Sound(cfg, s, m) && m.txIndex in s.rows && s.rows[m.txIndex].key == m.key
    ensures s.rows[m.txIndex].smtTxPath == m.smtTxPath
  {
    hide RootProved, ProvesAbsent;
    assert Sound(cfg, s, s.rows[m.txIndex]);
  }

  // ---------- execution ----------

  /** A root equal to the contract's stands for exactly the paths executed. */
  lemma MatchingRoot(cfg: Config, s: State, root: Bytes)
    requires cfg.Valid() && ChainOk(cfg, s) && NodesOk(cfg, s) && root == s.starcoin.root
    requires (root != [] ==> root in s.nodes)
    ensures root in s.nodes && s.nodes[root] == Elements(s.starcoin.log)
  {
    SetRootSize(cfg.h, Elements(s.starcoin.log));
    SameRootSameSet(cfg.h, cfg.trees, s.nodes[root], Elements(s.starcoin.log));
  }

  /** Executed rows stand before each row that is not. */
  lemma ExecutedAreBefore(cfg: Config, s: State, i: nat)
    requires ChainOk(cfg, s) && i in s.rows && s.rows[i].smtTxPath !in Elements(s.starcoin.log)
    ensures Elements(s.starcoin.log) <= Before(s.rows, i)
  {
    hide SetRoot, AllPaths;
    forall p | p in Elements(s.starcoin.log) ensures p in Before(s.rows, i) {
      var j :| j in s.rows && s.rows[j].smtTxPath == p;
      assert j < i;
    }
  }

  lemma PendingWithRoot(cfg: Config, s: State, hash: string) returns (i: nat)
    requires cfg.Valid() && TxsOk(cfg, s) && NodesOk(cfg, s) && ChainOk(cfg, s)
    requires TxIs(s, hash, Pending) && s.starcoin.txs[hash].root == s.starcoin.root
    ensures var tx := s.starcoin.txs[hash];
      && i in s.rows && s.rows[i].smtTxPath == tx.path && InPlace(s, i, tx.root)
      && tx.root != [] && tx.root in s.nodes && s.nodes[tx.root] == Elements(s.starcoin.log)
      && Elements(s.starcoin.log) + {tx.path} in cfg.trees
      && AbsenceProof(cfg.h, Elements(s.starcoin.log), tx.path, tx.sideNodes, tx.leafData)
  {
    hide AbsenceProof, InPlace;
    var tx := s.starcoin.txs[hash];
    assert PendingOk(cfg, s, tx);
    SetRootSize(cfg.h, Elements(s.starcoin.log));
    MatchingRoot(cfg, s, tx.root);
    i :| i in s.rows && s.rows[i].smtTxPath == tx.path;
  }

  /** A transaction that can execute comes from the first row not executed yet. */
  lemma ExecutableRow(cfg: Config, s: State, hash: string) returns (i: nat)
    requires cfg.Valid() && TablesOk(cfg, s) && TxIs(s, hash, Pending) && s.starcoin.txs[hash].root == s.starcoin.root
    ensures i in s.rows && s.rows[i].smtTxPath == s.starcoin.txs[hash].path && s.rows[i].root != []
    ensures Before(s.rows, i) == Elements(s.starcoin.log)
    ensures Elements(s.starcoin.log) + {s.starcoin.txs[hash].path} in cfg.trees
    ensures var tx := s.starcoin.txs[hash];
      AbsenceProof(cfg.h, Elements(s.starcoin.log), tx.path, tx.sideNodes, tx.leafData)
  {
    hide RowsOk, RootsOk, NodesOk, RemovedOk, ChainOk, TxsOk, ProcessedOk;
    i := PendingWithRoot(cfg, s, hash);
    ExecutedAreBefore(cfg, s, i);
  }

  lemma RemovableRowIsNext(cfg: Config, s: State, m: PolyTx)
    requires cfg.Valid() && TablesOk(cfg, s) && ThreadOk(cfg, s, Removable(m))
    ensures m.root == s.starcoin.root != [] && m.root in s.nodes && s.nodes[m.root] == Elements(s.starcoin.log)
    ensures m.txIndex in s.rows && s.rows[m.txIndex].key == m.key && s.rows[m.txIndex].smtTxPath == m.smtTxPath
    ensures s.rows[m.txIndex].root == m.root
    ensures m.smtTxPath !in Elements(s.starcoin.log) && Before(s.rows, m.txIndex) == Elements(s.starcoin.log)
  {
    hide RowsOk, RootsOk, NodesOk, RemovedOk, ChainOk, TxsOk, ProcessedOk, Sound;
    RemovableRoot(cfg, s, m);
    RowOfSnapshot(cfg, s, m);
    AbsentFromOwnRoot(cfg, s, m);
    RootIsBefore(s, m.txIndex);
  }

  lemma RemovableRoot(cfg: Config, s: State, m: PolyTx)
    requires cfg.Valid() && ChainOk(cfg, s) && NodesOk(cfg, s) && ThreadOk(cfg, s, Removable(m))
    ensures m.root == s.starcoin.root != [] && m.root in s.nodes && s.nodes[m.root] == Elements(s.starcoin.log)
  {
    hide AbsenceProof, ProvesAbsent;
    SetRootSize(cfg.h, Elements(s.starcoin.log));
    MatchingRoot(cfg, s, m.root);
  }

  lemma RootIsBefore(s: State, i: nat)
    requires RootsOk(s) && i in s.rows && s.rows[i].root != []
    ensures s.rows[i].root in s.nodes && s.nodes[s.rows[i].root] == Before(s.rows, i)
  {
  }

  lemma AbsentFromOwnRoot(cfg: Config, s: State, m: PolyTx)
    requires Sound(cfg, s, m) && m.root != []
    ensures m.root in s.nodes && m.smtTxPath !in s.nodes[m.root]
  {
  }

  /** Nothing but its own row could execute while a row whose root matched waits to be removed. */
  lemma ExecutableIsRemovable(cfg: Config, s: State, hash: string, m: PolyTx)
    requires cfg.Valid() && TablesOk(cfg, s) && TxIs(s, hash, Pending) && s.starcoin.txs[hash].root == s.starcoin.root
    requires ThreadOk(cfg, s, Removable(m))
    ensures s.starcoin.txs[hash].path == m.smtTxPath
  {
    hide TablesOk, ThreadOk;
    var i := ExecutableRow(cfg, s, hash);
    ProvedAbsent(cfg, s, hash);
    RemovableRowIsNext(cfg, s, m);
    SameNextRow(s, i, m.txIndex);
  }

  lemma ProvedAbsent(cfg: Config, s: State, hash: string)
    requires TxIs(s, hash, Pending)
    requires var tx := s.starcoin.txs[hash];
      AbsenceProof(cfg.h, Elements(s.starcoin.log), tx.path, tx.sideNodes, tx.leafData)
    ensures s.starcoin.txs[hash].path !in Elements(s.starcoin.log)
  {
  }

  lemma NoExecutionBesideRemovable(cfg: Config, s: State, hash: string)
    requires cfg.Valid() && Inv(cfg, s) && TxIs(s, hash, Pending) && s.starcoin.txs[hash].root == s.starcoin.root
    ensures forall t :: t in s.threads ==> !s.threads[t].Removable?
  {
    hide TablesOk, ThreadsOk, ThreadOk, PutsOk;
    forall t | t in s.threads && s.threads[t].Removable?
      ensures s.starcoin.txs[hash].path == s.threads[t].m.smtTxPath && s.starcoin.root != []
    {
      HeldOk(cfg, s, t);
      ExecutableIsRemovable(cfg, s, hash, s.threads[t].m);
      RemovableRowIsNext(cfg, s, s.threads[t].m);
    }
  }

  lemma EarlierInBefore(rows: Rows)
    ensures forall i, j :: i in rows && j in rows && i < j ==> rows[i].smtTxPath in Before(rows, j)
  {
  }

  lemma SameNextRow(s: State, i: nat, j: nat)
    requires i in s.rows && j in s.rows
    requires s.rows[i].smtTxPath !in Elements(s.starcoin.log) && s.rows[j].smtTxPath !in Elements(s.starcoin.log)
    requires Before(s.rows, i) <= Elements(s.starcoin.log) && Before(s.rows, j) <= Elements(s.starcoin.log)
    ensures i == j
  {
    EarlierInBefore(s.rows);
  }

  lemma ExecuteOk(cfg: Config, s: State, s': State, hash: string)
    requires cfg.Valid() && Inv(cfg, s) && Execute(cfg.h, s, s', hash)
    ensures Inv(cfg, s')
  {
    hide TablesOk, ThreadsOk, RemovalsOk, PutsOk;
    ExecutedTablesOk(cfg, s, s', hash);
    ThreadsUndisturbed(cfg, s, s');
  }

  lemma ExecutedTablesOk(cfg: Config, s: State, s': State, hash: string)
    requires cfg.Valid() && Inv(cfg, s) && Execute(cfg.h, s, s', hash)
    ensures TablesOk(cfg, s') && Grows(s, s') && NoNewPending(s, s')
  {
    hide RowsOk, RootsOk, NodesOk, RemovedOk, ChainOk, TxsOk, ProcessedOk, ThreadsOk, RemovalsOk, PutsOk, UpdatedRoot;
    NoExecutionBesideRemovable(cfg, s, hash);
    assert OnlyChainChanges(s, s');
    ChainChangesGrow(s, s');
    ChainChangesOk(cfg, s, s');
    SettledTxsOk(cfg, s, s', hash, s.starcoin.txs[hash].(state := Executed));
    var i := ExecutedRow(cfg, s, s', hash);
    ExtendedChainOk(cfg, s, s', i);
  }

  /** Starcoin has executed row `i`, exactly the rows before it being executed, and keeps the root of the larger set. */
  ghost predicate Extended(cfg: Config, s: State, s': State, i: nat) {
    && i in s.rows && s'.rows == s.rows && s.rows[i].root != []
    && Before(s.rows, i) == Elements(s.starcoin.log) && s.rows[i].smtTxPath !in Elements(s.starcoin.log)
    && s'.starcoin.log == s.starcoin.log + [s.rows[i].smtTxPath]
    && AllPaths(cfg.h, Elements(s.starcoin.log) + {s.rows[i].smtTxPath})
    && Elements(s.starcoin.log) + {s.rows[i].smtTxPath} in cfg.trees
    && s'.starcoin.root == SetRoot(cfg.h, Elements(s.starcoin.log) + {s.rows[i].smtTxPath})
  }

  lemma ExecutedRow(cfg: Config, s: State, s': State, hash: string) returns (i: nat)
    requires cfg.Valid() && TablesOk(cfg, s) && Execute(cfg.h, s, s', hash)
    ensures Extended(cfg, s, s', i)
  {
    hide TablesOk, AbsenceProof, UpdatedRoot, SetRoot, Before;
    var tx := s.starcoin.txs[hash];
    i := ExecutableRow(cfg, s, hash);
    ProvedAbsent(cfg, s, hash);
    InclusionRoot(cfg.h, Elements(s.starcoin.log), tx.path, tx.sideNodes, tx.leafData);
  }

  lemma ExtendedChainOk(cfg: Config, s: State, s': State, i: nat)
    requires RowsOk(cfg, s) && ChainOk(cfg, s) && ProcessedOk(s) && Extended(cfg, s, s', i)
    ensures ChainOk(cfg, s') && ProcessedOk(s')
  {
    hide SetRoot, RootProved, ProvesAbsent;
    var path := s.rows[i].smtTxPath;
    assert Elements(s'.starcoin.log) == Elements(s.starcoin.log) + {path};
    assert path in PathSet(s.rows);
    ExtendedPrefixes(cfg, s.starcoin.log, path);
    ExtendedInOrder(cfg, s, s', i);
    ExtendedNoRepeats(s.starcoin.log, path);
  }

  lemma ExtendedPrefixes(cfg: Config, log: seq<Bytes>, path: Bytes)
    requires PrefixesBuilt(cfg, log) && Elements(log) + {path} in cfg.trees
    ensures PrefixesBuilt(cfg, log + [path])
  {
    var log' := log + [path];
    assert Elements(log') == Elements(log) + {path};
    forall n | 0 <= n <= |log'| ensures Elements(log'[..n]) in cfg.trees {
      assert n <= |log| ==> log'[..n] == log[..n];
      assert n == |log'| ==> log'[..n] == log';
    }
  }

  lemma ExtendedNoRepeats(log: seq<Bytes>, path: Bytes)
    requires NoRepeats(log) && path !in Elements(log)
    ensures NoRepeats(log + [path])
  {
  }

  lemma ExtendedInOrder(cfg: Config, s: State, s': State, i: nat)
    requires RowsOk(cfg, s) && ChainOk(cfg, s) && i in s.rows && s'.rows == s.rows
    requires Before(s.rows, i) == Elements(s.starcoin.log)
    requires Elements(s'.starcoin.log) == Elements(s.starcoin.log) + {s.rows[i].smtTxPath}
    ensures InOrder(s'.rows, Elements(s'.starcoin.log))
  {
    hide Sound;
    forall a, b | a in s.rows && b in s.rows && a < b && s.rows[b].smtTxPath in Elements(s'.starcoin.log)
      ensures s.rows[a].smtTxPath in Elements(s'.starcoin.log)
    {
      if b == i {
        assert s.rows[a].smtTxPath in Before(s.rows, i);
      }
    }
  }

  /** One pending transaction is settled; the others stay as they were. */
  lemma SettledTxsOk(cfg: Config, s: State, s': State, hash: string, tx: Submission)
    requires TxsOk(cfg, s) && s' == s.(starcoin := s'.starcoin) && TxIs(s, hash, Pending)
    requires s.starcoin.log <= s'.starcoin.log
    requires s'.starcoin.txs == s.starcoin.txs[hash := tx] && tx.state != Pending
    requires TxIs(s', hash, Executed) ==> s'.starcoin.txs[hash].path in s'.starcoin.log
    ensures TxsOk(cfg, s') && NoNewPending(s, s')
  {
    hide AbsenceProof;
    forall x | TxIs(s', x, Pending) ensures PendingOk(cfg, s', s'.starcoin.txs[x]) {
      assert TxIs(s, x, Pending);
    }
    forall x | TxIs(s', x, Executed) ensures s'.starcoin.txs[x].path in s'.starcoin.log {
      if x != hash {
        assert TxIs(s, x, Executed);
      }
    }
  }

  lemma RejectOk(cfg: Config, s: State, s': State, hash: string)
    requires Inv(cfg, s) && Reject(s, s', hash)
    ensures Inv(cfg, s')
  {
    hide RowsOk, RootsOk, NodesOk, RemovedOk, TxsOk, ProcessedOk, ThreadsOk, RemovalsOk, PutsOk, SetRoot, AllPaths;
    assert OnlyChainChanges(s, s');
    ChainChangesOk(cfg, s, s');
    SettledTxsOk(cfg, s, s', hash, s.starcoin.txs[hash].(state := Rejected));
    ThreadsUndisturbed(cfg, s, s');
  }
}
