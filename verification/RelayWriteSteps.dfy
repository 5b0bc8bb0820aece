/** Steps that write to rows already queued: conditional updates, sweeps, derivations, operator marks. */
module RelayWriteSteps {
  import opened Wrappers
  import opened PathSets
  import opened PolyTxs
  import opened PolyTxTable
  import opened Relay
  import opened RelayInvariant
  import opened RelayLocalSteps

  /** A row rewritten at `stamp`: proofs kept, the hash one of its own, processed only if executed. */
  ghost predicate Rewrites(s: State, r: PolyTx, r': PolyTx, stamp: nat) {
    && RowGrows(r, r', s.clock)
    && r'.root == r.root && r'.sideNodes == r.sideNodes && r'.leafData == r.leafData
    && (r'.updatedAt == r.updatedAt || r'.updatedAt == stamp)
    && (r'.starcoinTxHash != "" ==> TxFor(s, r'.starcoinTxHash, r.smtTxPath))
    && (r'.status in {Processed, Confirmed} ==> r.smtTxPath in s.starcoin.log)
  }

  /** Same rows at the same places, each rewritten or as it was. */
  ghost predicate RowsRewritten(s: State, s': State) {
    && s'.rows.Keys == s.rows.Keys
    && (forall i :: i in s.rows ==> Rewrites(s, s.rows[i], s'.rows[i], s'.clock))
    && s'.removed == s.removed && s'.nextRemovedId == s.nextRemovedId && s'.nodes == s.nodes
    && s'.starcoin == s.starcoin
    && s.clock <= s'.clock
  }

  lemma SameBefore(s: State, s': State)
    requires RowsRewritten(s, s')
    ensures PathSet(s'.rows) == PathSet(s.rows) && forall i: nat :: Before(s'.rows, i) == Before(s.rows, i)
  {
    forall p | p in PathSet(s'.rows) ensures p in PathSet(s.rows) {
      var j :| j in s'.rows && s'.rows[j].smtTxPath == p;
      assert j in s.rows;
    }
    forall p | p in PathSet(s.rows) ensures p in PathSet(s'.rows) {
      var j :| j in s.rows && s.rows[j].smtTxPath == p;
      assert j in s'.rows;
    }
    forall i: nat ensures Before(s'.rows, i) == Before(s.rows, i) {
      forall p | p in Before(s'.rows, i) ensures p in Before(s.rows, i) {
        var j :| j in s'.rows && j < i && s'.rows[j].smtTxPath == p;
        assert j in s.rows;
      }
      forall p | p in Before(s.rows, i) ensures p in Before(s'.rows, i) {
        var j :| j in s.rows && j < i && s.rows[j].smtTxPath == p;
        assert j in s'.rows;
      }
    }
  }

  lemma RewrittenRowsOk(cfg: Config, s: State, s': State)
    requires RowsOk(cfg, s) && RowsRewritten(s, s')
    ensures RowsOk(cfg, s')
  {
    hide ProvesAbsent, AbsenceProof;
    forall i | i in s'.rows ensures Sound(cfg, s', s'.rows[i]) {
      assert i in s.rows && Sound(cfg, s, s.rows[i]);
    }
    forall i | i in s'.rows ensures 0 < s'.rows[i].updatedAt <= s'.clock {
      assert i in s.rows;
    }
  }

  lemma RewrittenRootsOk(s: State, s': State)
    requires RootsOk(s) && ProcessedOk(s) && RowsRewritten(s, s')
    ensures RootsOk(s') && ProcessedOk(s')
  {
    SameBefore(s, s');
  }

  lemma RewrittenRestOk(cfg: Config, s: State, s': State)
    requires NodesOk(cfg, s) && RemovedOk(cfg, s) && ChainOk(cfg, s) && TxsOk(cfg, s) && RowsRewritten(s, s')
    ensures NodesOk(cfg, s') && RemovedOk(cfg, s') && ChainOk(cfg, s') && TxsOk(cfg, s')
    ensures Grows(s, s') && NoNewPending(s, s')
  {
    SameBefore(s, s');
    forall id | id in s.removed ensures Sound(cfg, s', ToPolyTx(s.removed[id])) {
      SoundKept(cfg, s, s', ToPolyTx(s.removed[id]));
    }
    forall x | TxIs(s', x, Pending) ensures PendingOk(cfg, s', s'.starcoin.txs[x]) {
      assert TxIs(s, x, Pending);
    }
    forall x | TxIs(s', x, Executed) ensures s'.starcoin.txs[x].path in s'.starcoin.log {
      assert TxIs(s, x, Executed);
    }
  }

  /** Rewriting rows keeps the invariant when hashes stay theirs and only executed rows become processed. */
  lemma RewriteOk(cfg: Config, s: State, s': State, t: nat)
    requires Inv(cfg, s) && RowsRewritten(s, s') && OnlyThread(s, s', t) && HoldsNoMore(s, s', t)
    requires t in s'.threads ==>
      ThreadOk(cfg, s', s'.threads[t]) && !IsRemoval(s'.threads[t]) && !s'.threads[t].Inserting?
    ensures Inv(cfg, s')
  {
    hide Inv, RowsRewritten, ThreadOk, HoldsNoMore, OnlyThread, Grows, NoNewPending;
    RewrittenTablesOk(cfg, s, s');
    OthersKept(cfg, s, s', t);
  }

  lemma RewrittenTablesOk(cfg: Config, s: State, s': State)
    requires Inv(cfg, s) && RowsRewritten(s, s')
    ensures TablesOk(cfg, s') && Grows(s, s') && NoNewPending(s, s')
  {
    hide RowsOk, RootsOk, NodesOk, RemovedOk, ChainOk, TxsOk, ProcessedOk, ThreadsOk, RemovalsOk, PutsOk;
    hide RowsRewritten, Grows, NoNewPending;
    RewrittenRowsOk(cfg, s, s');
    RewrittenRootsOk(s, s');
    RewrittenRestOk(cfg, s, s');
  }

  // ---------- the conditional update ----------

  lemma WriteOk(cfg: Config, s: State, s': State, t: nat)
    requires Inv(cfg, s) && Write(s, s', t)
    ensures Inv(cfg, s')
  {
    hide Inv, RowsRewritten, AfterWrite, Affects, ThreadOk, HoldsNoMore, OnlyThread, OptimisticUpdate;
    var Writing(op, px) := s.threads[t];
    WriteRewrites(cfg, s, s', t);
    WrittenThread(cfg, s, s', t, op, px);
    RewriteOk(cfg, s, s', t);
  }

  lemma WriteRewrites(cfg: Config, s: State, s': State, t: nat)
    requires Inv(cfg, s) && Write(s, s', t)
    ensures RowsRewritten(s, s')
  {
    hide Inv, Rewrites, Affects, AfterWrite, OptimisticUpdate, ThreadOk;
    var Writing(op, px) := s.threads[t];
    HeldOk(cfg, s, t);
    UpdatedKeys(s.rows, px, op.Expected(), op.Update(), s.clock + 1);
    forall i | i in s.rows ensures Rewrites(s, s.rows[i], s'.rows[i], s'.clock) {
      UpdatedRow(cfg, s, op, px, i);
    }
  }

  lemma UpdatedKeys(rows: Rows, px: PolyTx, expected: Status, fields: Fields, now: nat)
    ensures OptimisticUpdate(rows, px, expected, fields, now).Keys == rows.Keys
  {
  }

  /** What the conditional update may do to one row. */
  lemma UpdatedRow(cfg: Config, s: State, op: Op, px: PolyTx, i: nat)
    requires TablesOk(cfg, s) && ThreadOk(cfg, s, Writing(op, px)) && i in s.rows
    ensures Rewrites(s, s.rows[i], OptimisticUpdate(s.rows, px, op.Expected(), op.Update(), s.clock + 1)[i],
      s.clock + 1)
  {
    hide RowsOk, RootsOk, NodesOk, RemovedOk, ChainOk, TxsOk, ProcessedOk, ThreadOk, Rewrites, Unchanged, Patch;
    KeptRow(cfg, s, i);
    if Unchanged(s.rows[i], px, op.Expected()) {
      WriterOk(cfg, s, op, px);
      PatchedRow(cfg, s, op, px, i);
    }
  }

  lemma WriterOk(cfg: Config, s: State, op: Op, px: PolyTx)
    requires ThreadOk(cfg, s, Writing(op, px))
    ensures OpOk(cfg, s, op) && px.key == op.KeyOf()
  {
    hide Placed, Sound;
  }

  lemma PatchedRow(cfg: Config, s: State, op: Op, px: PolyTx, i: nat)
    requires RowsOk(cfg, s) && OpOk(cfg, s, op) && px.key == op.KeyOf() && i in s.rows
    requires Unchanged(s.rows[i], px, op.Expected())
    ensures Rewrites(s, s.rows[i], Patch(s.rows[i], op.Update(), px.retryCount + 1, s.clock + 1), s.clock + 1)
  {
    hide ProvesAbsent, RootProved;
    assert Sound(cfg, s, s.rows[i]);
  }

  lemma WrittenThread(cfg: Config, s: State, s': State, t: nat, op: Op, px: PolyTx)
    requires Inv(cfg, s) && RowsRewritten(s, s')
    requires t in s.threads && s.threads[t] == Writing(op, px)
    requires s'.threads == AfterWrite(s.threads, t, op, px, Affects(s.rows, px, op.Expected()))
    ensures OnlyThread(s, s', t) && HoldsNoMore(s, s', t)
    ensures t in s'.threads ==>
      ThreadOk(cfg, s', s'.threads[t]) && !IsRemoval(s'.threads[t]) && !s'.threads[t].Inserting?
  {
    hide Inv, ThreadOk, Affects, RowsRewritten, Fresh;
    HeldOk(cfg, s, t);
    if t in s'.threads {
      WrittenFollowUp(cfg, s, s', op, px, s'.threads[t]);
      if s'.threads[t].Deriving? {
        ClaimedIsNotRemoved(cfg, s, op, px);
      }
    }
  }

  lemma WrittenFollowUp(cfg: Config, s: State, s': State, op: Op, px: PolyTx, thr: Thread)
    requires ThreadOk(cfg, s, Writing(op, px)) && RowsRewritten(s, s')
    requires
      || (op.MarkProcessed? && thr == Sweeping(px.txIndex))
      || (op.Claim? && thr == Deriving(op.m) && Affects(s.rows, px, op.Expected()))
      || (op.RecordHash? && thr == Waiting(op.key, op.starcoinTxHash))
    ensures ThreadOk(cfg, s', thr)
    ensures Held(s', thr).Some? ==> Held(s', thr) == Held(s, Writing(op, px))
  {
    RewrittenGrow(s, s');
    match op
    case Claim(m) => ClaimedFollowUp(cfg, s, s', m, px);
    case MarkProcessed(key, _, _) =>
      hide Sound, Placed, InPlace;
      var i := px.txIndex;
      assert i in s.rows && RowGrows(s.rows[i], s'.rows[i], s.clock);
    case _ =>
  }

  lemma RewrittenGrow(s: State, s': State)
    requires RowsRewritten(s, s')
    ensures RowsGrow(s, s') && NodesGrow(s, s') && ChainGrows(s, s')
  {
  }

  lemma ClaimedFollowUp(cfg: Config, s: State, s': State, m: PolyTx, px: PolyTx)
    requires ThreadOk(cfg, s, Writing(Claim(m), px)) && Affects(s.rows, px, m.status)
    requires RowsGrow(s, s') && NodesGrow(s, s') && ChainGrows(s, s')
    ensures ThreadOk(cfg, s', Deriving(m))
    ensures Held(s', Deriving(m)).Some? ==> Held(s', Deriving(m)) == Held(s, Writing(Claim(m), px))
  {
    SoundKept(cfg, s, s', m);
    hide ProvesAbsent, AbsenceProof, InPlace, ChainGrows;
    if m.root != [] {
      AppliesToFresh(s.rows, s, px, m.status);
      assert Held(s, Writing(Claim(m), px)) == Some(m);
      InPlaceKept(s, s', m.txIndex, m.root);
    }
  }

  lemma AppliesToFresh(rows: Rows, s: State, px: PolyTx, expected: Status)
    requires rows == s.rows && Affects(rows, px, expected) && px.updatedAt > 0
    ensures Fresh(s, px)
  {
  }

  /** A row that has just been claimed is not the one being removed. */
  lemma ClaimedIsNotRemoved(cfg: Config, s: State, op: Op, px: PolyTx)
    requires Inv(cfg, s) && ThreadOk(cfg, s, Writing(op, px)) && op.Claim? && Affects(s.rows, px, op.Expected())
    ensures forall u :: u in s.threads && s.threads[u].Removable? ==> s.threads[u].m.key != op.m.key
  {
    var i :| i in s.rows && Unchanged(s.rows[i], px, op.Expected());
    hide TablesOk, ThreadsOk, RemovalsOk, PutsOk, Placed, Sound, Held;
    forall u | u in s.threads && s.threads[u].Removable? ensures s.threads[u].m.key != op.m.key {
      if s.threads[u].m.key == op.m.key {
        RemovableRow(cfg, s, u, i);
      }
    }
  }

  // ---------- sweeps and marks ----------

  lemma SweepOk(cfg: Config, s: State, s': State, t: nat, targets: set<nat>)
    requires Inv(cfg, s) && Sweep(s, s', t, targets)
    ensures Inv(cfg, s')
  {
    SweepRewrites(cfg, s, s', t, targets);
    assert s'.threads == s.threads - {t};
    hide Inv, Sweep, RowsRewritten;
    RewriteOk(cfg, s, s', t);
  }

  lemma SweepRewrites(cfg: Config, s: State, s': State, t: nat, targets: set<nat>)
    requires Inv(cfg, s) && Sweep(s, s', t, targets)
    ensures RowsRewritten(s, s')
  {
    hide Inv, TablesOk, ThreadOk, Rewrites, Sweepable, Swept;
    SweepStarts(s, s', t, targets);
    HeldOk(cfg, s, t);
    AllSwept(cfg, s, targets, s.threads[t].index);
    hide Sweep;
  }

  lemma SweepStarts(s: State, s': State, t: nat, targets: set<nat>)
    requires Sweep(s, s', t, targets)
    ensures t in s.threads && s.threads[t] == Sweeping(s.threads[t].index)
    ensures forall j :: j in targets ==> Sweepable(s.rows, s.threads[t].index, j)
    ensures s' == s.(rows := Swept(s.rows, targets, s.clock + 1), clock := s.clock + 1, threads := s'.threads)
  {
    hide Sweepable, Swept;
  }

  lemma AllSwept(cfg: Config, s: State, targets: set<nat>, index: nat)
    requires Inv(cfg, s) && ThreadOk(cfg, s, Sweeping(index))
    requires forall j :: j in targets ==> Sweepable(s.rows, index, j)
    ensures Swept(s.rows, targets, s.clock + 1).Keys == s.rows.Keys
    ensures forall i :: i in s.rows ==> Rewrites(s, s.rows[i], Swept(s.rows, targets, s.clock + 1)[i], s.clock + 1)
  {
    hide Inv, ThreadOk, Rewrites, Sweepable, Swept;
    SweptKeys(s.rows, targets, s.clock + 1);
    forall i | i in s.rows ensures Rewrites(s, s.rows[i], Swept(s.rows, targets, s.clock + 1)[i], s.clock + 1) {
      SweptRow(cfg, s, targets, index, i);
    }
  }

  lemma SweptKeys(rows: Rows, targets: set<nat>, now: nat)
    ensures Swept(rows, targets, now).Keys == rows.Keys
  {
  }

  /** The sweep marks only executed rows. */
  lemma SweptRow(cfg: Config, s: State, targets: set<nat>, index: nat, i: nat)
    requires Inv(cfg, s) && i in s.rows && ThreadOk(cfg, s, Sweeping(index))
    requires forall j :: j in targets ==> Sweepable(s.rows, index, j)
    ensures i in targets ==> s.rows[i].smtTxPath in s.starcoin.log
    ensures Rewrites(s, s.rows[i], Swept(s.rows, targets, s.clock + 1)[i], s.clock + 1)
  {
    hide Rewrites, RowsOk, RootsOk, NodesOk, RemovedOk, ChainOk, TxsOk, ProcessedOk, ThreadsOk, RemovalsOk;
    KeptRow(cfg, s, i);
    if i in targets {
      assert Sweepable(s.rows, index, i);
      RowsBeforeExecuted(cfg, s, index, i);
      MarkedRow(cfg, s, i);
    }
  }

  lemma KeptRow(cfg: Config, s: State, i: nat)
    requires RowsOk(cfg, s) && ProcessedOk(s) && i in s.rows
    ensures Rewrites(s, s.rows[i], s.rows[i], s.clock + 1)
  {
    hide RootProved, ProvesAbsent;
    assert Sound(cfg, s, s.rows[i]);
  }

  lemma MarkedRow(cfg: Config, s: State, i: nat)
    requires RowsOk(cfg, s) && i in s.rows && s.rows[i].smtTxPath in s.starcoin.log && s.rows[i].status != ToBeRemoved
    ensures Rewrites(s, s.rows[i], s.rows[i].(status := Processed, updatedAt := s.clock + 1), s.clock + 1)
  {
    hide RootProved, ProvesAbsent;
    assert Sound(cfg, s, s.rows[i]);
  }

  lemma RowsBeforeExecuted(cfg: Config, s: State, index: nat, i: nat)
    requires ChainOk(cfg, s) && i in s.rows && index in s.rows && s.rows[index].smtTxPath in s.starcoin.log
    ensures i < index ==> s.rows[i].smtTxPath in s.starcoin.log
  {
    assert s.rows[index].smtTxPath in Elements(s.starcoin.log);
  }

  lemma MarkForRemovalOk(cfg: Config, s: State, s': State, i: nat)
    requires Inv(cfg, s) && MarkForRemoval(s, s', i)
    ensures Inv(cfg, s')
  {
    hide Inv, Rewrites, Grows, NoNewPending;
    HeldTablesOk(cfg, s);
    forall j | j in s.rows ensures Rewrites(s, s.rows[j], s'.rows[j], s'.clock) {
      MarkedByOperator(cfg, s, j);
    }
    RewrittenTablesOk(cfg, s, s');
    ThreadsUndisturbed(cfg, s, s');
  }

  lemma MarkedByOperator(cfg: Config, s: State, j: nat)
    requires TablesOk(cfg, s) && j in s.rows
    ensures Rewrites(s, s.rows[j], s.rows[j], s.clock)
    ensures Rewrites(s, s.rows[j], s.rows[j].(status := ToBeRemoved), s.clock)
  {
    hide RootsOk, NodesOk, RemovedOk, ChainOk, TxsOk, ProvesAbsent, RootProved;
    assert Sound(cfg, s, s.rows[j]);
  }
}
