/** Steps that put rows into the queue and derive their proofs. */
module RelayQueueSteps {
  import opened Bytes
  import opened Wrappers
  import opened SparseMerkle
  import opened PathSets
  import opened PolyTxs
  import opened PolyTxTable
  import opened Relay
  import opened RelayInvariant
  import opened RelayLocalSteps

  /** Recording one more version of the tree. */
  lemma VersionOk(cfg: Config, s: State, base: set<Bytes>, nodes': Nodes)
    requires cfg.Valid() && NodesOk(cfg, s) && base in cfg.trees && AllPaths(cfg.h, base)
    requires nodes' == s.nodes[SetRoot(cfg.h, base) := base]
    ensures NodesOk(cfg, s.(nodes := nodes')) && NodesGrow(s, s.(nodes := nodes'))
    ensures SetRoot(cfg.h, base) != []
  {
    var r := SetRoot(cfg.h, base);
    SetRootSize(cfg.h, base);
    if r in s.nodes {
      SameRootSameSet(cfg.h, cfg.trees, s.nodes[r], base);
    }
  }

  /** One write to the queue: only rows and node store differ, and the stamp is the next one. */
  ghost predicate OnlyQueueChanges(s: State, s': State) {
    s'.removed == s.removed && s'.nextRemovedId == s.nextRemovedId && s'.starcoin == s.starcoin
      && s.clock <= s'.clock <= s.clock + 1
  }

  /** New contents of rows and new versions of the tree leave removed rows and pending transactions sound. */
  lemma GrowthOk(cfg: Config, s: State, s': State)
    requires RemovedOk(cfg, s) && TxsOk(cfg, s) && RowsGrow(s, s') && NodesGrow(s, s') && OnlyQueueChanges(s, s')
    ensures RemovedOk(cfg, s') && TxsOk(cfg, s') && Grows(s, s') && NoNewPending(s, s')
  {
    hide Sound, PendingOk, RowsGrow;
    forall id | id in s.removed ensures Sound(cfg, s', ToPolyTx(s.removed[id])) {
      SoundKept(cfg, s, s', ToPolyTx(s.removed[id]));
    }
    forall x | TxIs(s', x, Pending) ensures PendingOk(cfg, s', s'.starcoin.txs[x]) {
      assert TxIs(s, x, Pending);
      PendingKept(cfg, s, s', s.starcoin.txs[x]);
    }
    forall x | TxIs(s', x, Executed) ensures s'.starcoin.txs[x].path in s'.starcoin.log {
      assert TxIs(s, x, Executed);
    }
  }

  lemma PendingKept(cfg: Config, s: State, s': State, tx: Submission)
    requires PendingOk(cfg, s, tx) && RowsGrow(s, s') && NodesGrow(s, s')
    ensures PendingOk(cfg, s', tx)
  {
    hide AbsenceProof, InPlace;
    PathsKept(s, s');
    if tx.root != [] {
      forall i | i in s'.rows && s'.rows[i].smtTxPath == tx.path ensures InPlace(s', i, tx.root) {
        assert i in s.rows && RowGrows(s.rows[i], s'.rows[i], s.clock);
        InPlaceKept(s, s', i, tx.root);
      }
    }
  }

  // ---------- derivation ----------

  /** The tree a row is proved absent from holds exactly the rows before it. */
  lemma BaseIsBefore(cfg: Config, s: State, n: nat)
    requires RowsOk(cfg, s) && RootsOk(s) && !NeedsDeriving(Previous(s.rows, n))
    ensures Base(s.nodes, Previous(s.rows, n)) == Before(s.rows, n)
    ensures AllPaths(cfg.h, Before(s.rows, n))
    ensures forall j :: j in s.rows && j < n ==> s.rows[j].root != []
  {
    BeforePrevious(s.rows, n);
    forall p | p in Before(s.rows, n) ensures |p| == cfg.h.size {
      var j :| j in s.rows && j < n && s.rows[j].smtTxPath == p;
      assert Sound(cfg, s, s.rows[j]);
    }
  }

  lemma NotBeforeItself(cfg: Config, s: State, i: nat)
    requires RowsOk(cfg, s) && i in s.rows
    ensures s.rows[i].smtTxPath !in Before(s.rows, i)
  {
  }

  /** A row with its proof derived against `base`. */
  lemma ProvedRowSound(cfg: Config, s: State, s': State, tx: PolyTx, tx': PolyTx, pre: Option<PolyTx>)
    requires Sound(cfg, s, tx) && NodesGrow(s, s') && ChainGrows(s, s')
    requires TreesFor(s.nodes, pre, tx.smtTxPath) <= cfg.trees
    requires AllPaths(cfg.h, Base(s.nodes, pre)) && |tx.smtTxPath| == cfg.h.size
    requires tx.smtTxPath !in Base(s.nodes, pre)
    requires s'.nodes == WithVersion(cfg.h, s.nodes, pre)
    requires tx' == WithProof(cfg.h, s.nodes, tx, pre).(updatedAt := tx'.updatedAt)
    ensures Sound(cfg, s', tx') && tx'.root in s'.nodes && s'.nodes[tx'.root] == Base(s.nodes, pre)
  {
    assert AbsenceProof(cfg.h, Base(s.nodes, pre), tx.smtTxPath, tx'.sideNodes.value, tx'.leafData);
  }

  lemma DeriveOk(cfg: Config, s: State, s': State, t: nat)
    requires cfg.Valid() && Inv(cfg, s) && Derive(cfg.h, s, s', t) && Built(cfg.h, s, ADerive(t)) <= cfg.trees
    ensures Inv(cfg, s')
  {
    hide Inv, Derived, TablesOk;
    var m := s.threads[t].m;
    HeldTablesOk(cfg, s);
    DeriveIsDerived(cfg, s, s', t, m);
    DerivedOk(cfg, s, s', t, m);
  }

  lemma DerivedOk(cfg: Config, s: State, s': State, t: nat, m: PolyTx)
    requires cfg.Valid() && Inv(cfg, s) && Derived(cfg, s, s', m.txIndex)
    requires t in s.threads && s.threads[t] == Deriving(m) && s'.threads == s.threads[t := Refetching(m)]
    ensures Inv(cfg, s')
  {
    hide Inv, Derived, TablesOk, ThreadOk, Grows, NoNewPending;
    HeldOk(cfg, s, t);
    DerivedTablesOk(cfg, s, s', m.txIndex);
    ThreadKept(cfg, s, s', Deriving(m));
    DerivesThenRefetches(cfg, s', m);
    OthersKept(cfg, s, s', t);
  }

  lemma DeriveIsDerived(cfg: Config, s: State, s': State, t: nat, m: PolyTx)
    requires Derive(cfg.h, s, s', t) && s.threads[t].m == m && Built(cfg.h, s, ADerive(t)) <= cfg.trees
    requires cfg.Valid() && TablesOk(cfg, s)
    ensures t in s.threads && s.threads[t] == Deriving(m) && s'.threads == s.threads[t := Refetching(m)]
    ensures Derived(cfg, s, s', m.txIndex)
  {
    hide TablesOk, SetRoot, WithProof, WithVersion, Importable, Base, NeedsDeriving, Previous, CollisionFree, AllPaths;
    HasRoot(cfg, s, Previous(s.rows, m.txIndex));
  }

  /** A row without a root has no tree that could be imported. */
  lemma HasRoot(cfg: Config, s: State, pre: Option<PolyTx>)
    requires cfg.Valid() && TablesOk(cfg, s) && Importable(s.nodes, pre)
    ensures !NeedsDeriving(pre)
  {
    hide RowsOk, RootsOk, RemovedOk, ChainOk, TxsOk, ProcessedOk, SetRoot;
    if pre.Some? {
      SetRootSize(cfg.h, s.nodes[pre.value.root]);
    }
  }

  lemma DerivesThenRefetches(cfg: Config, s: State, m: PolyTx)
    requires ThreadOk(cfg, s, Deriving(m))
    ensures ThreadOk(cfg, s, Refetching(m)) && Holds(Refetching(m)) == Holds(Deriving(m))
  {
    hide Sound, Placed;
  }

  /** The tables after the proof of row `i` is derived again. */
  ghost predicate Derived(cfg: Config, s: State, s': State, i: nat) {
    var pre := Previous(s.rows, i);
    && i in s.rows && !NeedsDeriving(pre) && TreesFor(s.nodes, pre, s.rows[i].smtTxPath) <= cfg.trees
    && Importable(s.nodes, pre) && AllPaths(cfg.h, Base(s.nodes, pre)) && |s.rows[i].smtTxPath| == cfg.h.size
    && s'.rows == s.rows[i := WithProof(cfg.h, s.nodes, s.rows[i], pre).(updatedAt := s.clock + 1)]
    && s'.nodes == WithVersion(cfg.h, s.nodes, pre)
    && OnlyQueueChanges(s, s') && s'.clock == s.clock + 1
  }

  /** Row `i` has been given the root of exactly the rows before it; nothing else in the table changed. */
  ghost predicate RootedAt(cfg: Config, s: State, s': State, i: nat) {
    && i in s.rows && i in s'.rows && s'.rows == s.rows[i := s'.rows[i]]
    && Sound(cfg, s', s'.rows[i]) && s'.rows[i].root != []
    && s'.rows[i].root in s'.nodes && s'.nodes[s'.rows[i].root] == Before(s.rows, i)
    && RowGrows(s.rows[i], s'.rows[i], s.clock) && s'.rows[i].updatedAt == s'.clock
    && s'.rows[i].status == s.rows[i].status
    && (forall j :: j in s.rows && j < i ==> s.rows[j].root != [])
  }

  lemma DerivedRow(cfg: Config, s: State, s': State, i: nat)
    requires cfg.Valid() && TablesOk(cfg, s) && Derived(cfg, s, s', i)
    ensures NodesOk(cfg, s') && NodesGrow(s, s') && RootedAt(cfg, s, s', i)
  {
    var pre := Previous(s.rows, i);
    var base := Base(s.nodes, pre);
    BaseIsBefore(cfg, s, i);
    NotBeforeItself(cfg, s, i);
    VersionOk(cfg, s, base, s'.nodes);
    ProvedRowSound(cfg, s, s', s.rows[i], s'.rows[i], pre);
  }

  lemma DerivedTablesOk(cfg: Config, s: State, s': State, i: nat)
    requires cfg.Valid() && TablesOk(cfg, s) && Derived(cfg, s, s', i)
    ensures TablesOk(cfg, s') && Grows(s, s') && NoNewPending(s, s')
  {
    hide TablesOk, RootedAt, Derived, Grows, NoNewPending;
    DerivedRow(cfg, s, s', i);
    DerivedQueueOnly(cfg, s, s', i);
    RootedTablesOk(cfg, s, s', i);
  }

  lemma DerivedQueueOnly(cfg: Config, s: State, s': State, i: nat)
    requires Derived(cfg, s, s', i)
    ensures OnlyQueueChanges(s, s')
  {
    hide WithProof, WithVersion, SetRoot, Base;
  }

  lemma RootedTablesOk(cfg: Config, s: State, s': State, i: nat)
    requires TablesOk(cfg, s) && OnlyQueueChanges(s, s') && NodesOk(cfg, s') && NodesGrow(s, s')
    requires RootedAt(cfg, s, s', i)
    ensures TablesOk(cfg, s') && Grows(s, s') && NoNewPending(s, s')
  {
    hide RowsOk, NodesOk, RootsOk, ChainOk, TxsOk, RemovedOk, ProcessedOk, RootedAt, RowsGrow, NodesGrow;
    hide Grows, NoNewPending;
    RootedGrows(cfg, s, s', i);
    GrowthOk(cfg, s, s');
    DerivedRowsOk(cfg, s, s', i);
    DerivedRootsOk(cfg, s, s', i);
    SamePathsChainOk(cfg, s, s');
  }

  lemma RootedGrows(cfg: Config, s: State, s': State, i: nat)
    requires RowsOk(cfg, s) && RootedAt(cfg, s, s', i) && OnlyQueueChanges(s, s')
    ensures RowsGrow(s, s') && SameStatuses(s, s') && ChainGrows(s, s')
  {
    hide Sound;
  }

  ghost predicate SameStatuses(s: State, s': State) {
    forall i :: i in s.rows && i in s'.rows ==> s'.rows[i].status == s.rows[i].status
  }

  lemma DerivedRowsOk(cfg: Config, s: State, s': State, i: nat)
    requires RowsOk(cfg, s) && NodesGrow(s, s') && ChainGrows(s, s') && s.clock <= s'.clock
    requires RootedAt(cfg, s, s', i)
    ensures RowsOk(cfg, s')
  {
    hide AbsenceProof, ProvesAbsent, RootProved;
    forall j | j in s'.rows ensures Sound(cfg, s', s'.rows[j]) {
      if j != i {
        SoundKept(cfg, s, s', s.rows[j]);
      }
    }
  }

  lemma DerivedRootsOk(cfg: Config, s: State, s': State, i: nat)
    requires RootsOk(s) && NodesGrow(s, s') && RowsGrow(s, s')
    requires RootedAt(cfg, s, s', i)
    ensures RootsOk(s')
  {
    hide Sound;
    forall j | j in s.rows ensures Before(s'.rows, j) == Before(s.rows, j) {
      BeforeKept(s, s', j);
    }
  }

  lemma SamePathsChainOk(cfg: Config, s: State, s': State)
    requires ChainOk(cfg, s) && ProcessedOk(s) && RowsGrow(s, s') && s'.starcoin == s.starcoin && SameStatuses(s, s')
    ensures ChainOk(cfg, s') && ProcessedOk(s')
  {
    PathsKept(s, s');
  }

  // ---------- preparing a row ----------

  lemma BaseIsAll(cfg: Config, s: State)
    requires RowsOk(cfg, s) && RootsOk(s) && !NeedsDeriving(LastRow(s.rows))
    ensures Base(s.nodes, LastRow(s.rows)) == PathSet(s.rows)
    ensures forall j :: j in s.rows ==> s.rows[j].root != []
  {
    BeforeNext(s.rows);
  }

  lemma PathsSized(cfg: Config, s: State)
    requires RowsOk(cfg, s)
    ensures AllPaths(cfg.h, PathSet(s.rows))
  {
    forall p | p in PathSet(s.rows) ensures |p| == cfg.h.size {
      var j :| j in s.rows && s.rows[j].smtTxPath == p;
      assert Sound(cfg, s, s.rows[j]);
    }
  }

  /** Only the node store and one new goroutine differ. */
  ghost predicate Prepared(cfg: Config, s: State, s': State, n: nat, tx: PolyTx, origin: Option<nat>) {
    && Prepare(cfg.h, s, s', n, tx, origin) && TreesOfPut(s, tx.smtTxPath) <= cfg.trees
    && Sound(cfg, s, tx) && tx.root == []
    && (origin.Some? ==> origin.value in s.removed && s.removed[origin.value].key == tx.key)
  }

  lemma PreparedOk(cfg: Config, s: State, s': State, n: nat, tx: PolyTx, origin: Option<nat>)
    requires cfg.Valid() && Inv(cfg, s) && Prepared(cfg, s, s', n, tx, origin)
    ensures Inv(cfg, s')
  {
    hide Inv, TablesOk, ThreadOk, Prepared, Grows, NoNewPending, Sound;
    HeldTablesOk(cfg, s);
    PreparedTablesOk(cfg, s, s', n, tx, origin);
    PreparedThreadOk(cfg, s, s', n, tx, origin);
    BehindAll(s.rows, s'.threads[n].row.txIndex);
    NewPutOk(cfg, s, s', n, s'.threads[n]);
  }

  lemma BehindAll(rows: Rows, n: nat)
    requires n == LastIndex(rows) + 1
    ensures forall i :: i in rows ==> i < n
  {
  }

  /** A put opens whose row goes behind all others. */
  lemma NewPutOk(cfg: Config, s: State, s': State, n: nat, thr: Thread)
    requires Inv(cfg, s) && TablesOk(cfg, s') && Grows(s, s') && NoNewPending(s, s')
    requires n !in s.threads && s'.threads == s.threads[n := thr] && thr.Inserting? && ThreadOk(cfg, s', thr)
    requires s'.rows == s.rows && forall i :: i in s.rows ==> i < thr.row.txIndex
    ensures Inv(cfg, s')
  {
    hide TablesOk, ThreadOk, Grows, NoNewPending, PutsOk, Counted;
    ThreadsKept(cfg, s, s', n);
    RemovalsKept(s, s', n);
    GrowsRows(s, s');
    forall path, i: nat | Counted(s', path, i) ensures Counted(s, path, i) || path in PathSet(s'.rows) {
      CountedNoMore(cfg, s, s', n, path, i);
    }
    forall i: nat | Counted(s', thr.row.smtTxPath, i) ensures i < thr.row.txIndex {
      CountedIsQueued(cfg, s', thr.row.smtTxPath, i);
    }
    PutsStay(s, s');
  }

  lemma GrowsRows(s: State, s': State)
    requires Grows(s, s')
    ensures RowsGrow(s, s') && NodesGrow(s, s')
  {
  }

  lemma CountedIsQueued(cfg: Config, s: State, path: Bytes, i: nat)
    requires ThreadsOk(cfg, s) && Counted(s, path, i)
    ensures i in s.rows
  {
    hide Counts;
    if t: nat :| t in s.threads && HeldCounts(s, s.threads[t], path, i) {
      assert ThreadOk(cfg, s, s.threads[t]);
      hide Sound, InPlace;
    }
  }

  /** The version of the tree recorded while preparing a row is that of all rows queued. */
  lemma PreparedNodes(cfg: Config, s: State, s': State, n: nat, tx: PolyTx, origin: Option<nat>)
    requires cfg.Valid() && NodesOk(cfg, s) && Prepare(cfg.h, s, s', n, tx, origin)
    requires TreesOfPut(s, tx.smtTxPath) <= cfg.trees
    ensures NodesOk(cfg, s') && NodesGrow(s, s')
  {
    hide SetRoot, NewRow, LastRow, Base, Importable;
    var pre := LastRow(s.rows);
    if !NeedsDeriving(pre) {
      assert Base(s.nodes, pre) in TreesFor(s.nodes, pre, tx.smtTxPath);
      VersionOk(cfg, s, Base(s.nodes, pre), s'.nodes);
      OnlyNodesMatter(cfg, s, s');
    }
  }

  lemma OnlyNodesMatter(cfg: Config, s: State, s': State)
    requires NodesOk(cfg, s.(nodes := s'.nodes)) && NodesGrow(s, s.(nodes := s'.nodes))
    ensures NodesOk(cfg, s') && NodesGrow(s, s')
  {
  }

  lemma PreparedTablesOk(cfg: Config, s: State, s': State, n: nat, tx: PolyTx, origin: Option<nat>)
    requires cfg.Valid() && TablesOk(cfg, s) && Prepared(cfg, s, s', n, tx, origin)
    ensures TablesOk(cfg, s') && Grows(s, s') && NoNewPending(s, s') && NodesGrow(s, s')
  {
    hide RowsOk, RootsOk, NodesOk, RemovedOk, ChainOk, TxsOk, ProcessedOk, Sound, NodesAfterPut, NewRow;
    PreparedNodes(cfg, s, s', n, tx, origin);
    RowsUnchanged(s, s');
    MoreNodesOk(cfg, s, s');
    GrowthOk(cfg, s, s');
  }

  lemma RowsUnchanged(s: State, s': State)
    requires s'.rows == s.rows
    ensures RowsGrow(s, s')
  {
  }

  lemma MoreNodesOk(cfg: Config, s: State, s': State)
    requires RowsOk(cfg, s) && RootsOk(s) && ChainOk(cfg, s) && ProcessedOk(s)
    requires NodesGrow(s, s') && s'.rows == s.rows && s'.starcoin == s.starcoin && s'.clock == s.clock
    ensures RowsOk(cfg, s') && RootsOk(s') && ChainOk(cfg, s') && ProcessedOk(s')
  {
    hide AbsenceProof, ProvesAbsent, SetRoot;
    forall i | i in s.rows ensures Sound(cfg, s', s.rows[i]) {
      SoundKept(cfg, s, s', s.rows[i]);
    }
  }

  lemma PreparedThreadOk(cfg: Config, s: State, s': State, n: nat, tx: PolyTx, origin: Option<nat>)
    requires cfg.Valid() && TablesOk(cfg, s) && NodesGrow(s, s') && Prepared(cfg, s, s', n, tx, origin)
    ensures n !in s.threads && n in s'.threads && s'.threads == s.threads[n := s'.threads[n]] && s'.rows == s.rows
    ensures s'.threads[n].Inserting? && ThreadOk(cfg, s', s'.threads[n])
    ensures s'.threads[n].row.txIndex == LastIndex(s.rows) + 1
  {
    hide RowsOk, RootsOk, NodesOk, RemovedOk, ChainOk, TxsOk, ProcessedOk, NewRow, NodesAfterPut, LastIndex;
    hide InsertingOk;
    var row := NewRow(cfg.h, s.rows, s.nodes, tx);
    NewRowSound(cfg, s, s', n, tx, origin, row);
    NewRowKeeps(cfg.h, s.rows, s.nodes, tx);
    NewRowInserting(cfg, s, s', tx, origin, row);
  }

  lemma NewRowKeeps(h: Hasher, rows: Rows, nodes: Nodes, tx: PolyTx)
    requires |tx.smtTxPath| == h.size && AllPaths(h, Base(nodes, LastRow(rows)))
    ensures var row := NewRow(h, rows, nodes, tx);
      row.key == tx.key && row.smtTxPath == tx.smtTxPath && row.status == Created && row.txIndex == LastIndex(rows) + 1
  {
  }

  lemma NewRowInserting(cfg: Config, s: State, s': State, tx: PolyTx, origin: Option<nat>, row: PolyTx)
    requires RemovedOk(cfg, s) && s'.removed == s.removed && s'.nextRemovedId == s.nextRemovedId && Sound(cfg, s, tx)
    requires row.key == tx.key && row.smtTxPath == tx.smtTxPath && row.status == Created && row.txIndex > 0
    requires Sound(cfg, s', row) || (row.root in s'.nodes && row.smtTxPath in s'.nodes[row.root])
    requires origin.Some? ==> origin.value in s.removed && s.removed[origin.value].key == tx.key
    ensures InsertingOk(cfg, s', row, origin)
  {
    hide RootProved, ProvesAbsent;
  }

  lemma NewRowSound(cfg: Config, s: State, s': State, n: nat, tx: PolyTx, origin: Option<nat>, row: PolyTx)
    requires cfg.Valid() && RowsOk(cfg, s) && RootsOk(s) && NodesGrow(s, s') && Prepared(cfg, s, s', n, tx, origin)
    requires row == NewRow(cfg.h, s.rows, s.nodes, tx)
    ensures Sound(cfg, s', row) || (row.root in s'.nodes && row.smtTxPath in s'.nodes[row.root])
  {
    var pre := LastRow(s.rows);
    var placed := tx.(txIndex := row.txIndex, status := Created);
    PlacedSound(cfg, s, s', tx, placed);
    if !NeedsDeriving(pre) {
      BaseIsAll(cfg, s);
      PathsSized(cfg, s);
      hide RowsOk, RootsOk, Sound, SetRoot;
      if tx.smtTxPath !in PathSet(s.rows) {
        ProvedRowSound(cfg, s, s', placed, row, pre);
      }
    }
  }

  lemma PlacedSound(cfg: Config, s: State, s': State, tx: PolyTx, placed: PolyTx)
    requires Sound(cfg, s, tx) && placed == tx.(txIndex := placed.txIndex, status := placed.status)
    requires NodesGrow(s, s') && ChainGrows(s, s')
    ensures Sound(cfg, s, placed) && Sound(cfg, s', placed)
  {
    hide AbsenceProof, ProvesAbsent;
  }

  lemma NewTxSound(cfg: Config, s: State, key: Key, payload: string)
    requires cfg.Valid()
    ensures Sound(cfg, s, NewPolyTx(cfg.h, key, payload))
  {
  }

  lemma PutOk(cfg: Config, s: State, s': State, n: nat, key: Key, payload: string)
    requires cfg.Valid() && Inv(cfg, s) && Put(cfg.h, s, s', n, key, payload)
    requires Built(cfg.h, s, APut(n, key, payload)) <= cfg.trees
    ensures Inv(cfg, s')
  {
    hide Inv, Sound, Prepare;
    var tx := NewPolyTx(cfg.h, key, payload);
    NewTxSound(cfg, s, key, payload);
    assert Prepared(cfg, s, s', n, tx, None);
    PreparedOk(cfg, s, s', n, tx, None);
  }

  lemma PushBackOk(cfg: Config, s: State, s': State, n: nat, id: nat)
    requires cfg.Valid() && Inv(cfg, s) && PushBack(cfg.h, s, s', n, id)
    requires Built(cfg.h, s, APushBack(n, id)) <= cfg.trees
    ensures Inv(cfg, s')
  {
    hide Inv, Sound, Prepare;
    ReturnedSound(cfg, s, id);
    assert Prepared(cfg, s, s', n, ToPolyTx(s.removed[id]), Some(id));
    PreparedOk(cfg, s, s', n, ToPolyTx(s.removed[id]), Some(id));
  }

  lemma ReturnedSound(cfg: Config, s: State, id: nat)
    requires Inv(cfg, s) && id in s.removed
    ensures Sound(cfg, s, ToPolyTx(s.removed[id])) && ToPolyTx(s.removed[id]).root == []
  {
    hide Sound, ThreadsOk, RemovalsOk, PutsOk, RowsOk, RootsOk, NodesOk, ChainOk, TxsOk, ProcessedOk;
  }

  // ---------- the table of removed rows ----------

  /** Rows leave the table of removed rows, or get a new status there. */
  ghost predicate RemovedShrinks(s: State, s': State) {
    && s' == s.(removed := s'.removed, threads := s'.threads)
    && (forall id :: id in s'.removed ==>
       id in s.removed && s'.removed[id] == s.removed[id].(status := s'.removed[id].status))
  }

  lemma RemovedShrinksOk(cfg: Config, s: State, s': State)
    requires TablesOk(cfg, s) && RemovedShrinks(s, s')
    ensures TablesOk(cfg, s') && Grows(s, s') && NoNewPending(s, s')
  {
    hide RowsOk, RootsOk, NodesOk, ChainOk, TxsOk, ProcessedOk, Sound;
    var mid := s.(threads := s'.threads);
    TablesKept(cfg, s, mid);
    assert s' == mid.(removed := s'.removed);
    ShrunkRemovedOk(cfg, mid, s');
    OtherTablesKept(cfg, mid, s');
  }

  lemma ShrunkRemovedOk(cfg: Config, s: State, s': State)
    requires RemovedOk(cfg, s) && RemovedShrinks(s, s')
    ensures RemovedOk(cfg, s')
  {
    hide AbsenceProof, ProvesAbsent;
    forall id | id in s'.removed ensures id < s'.nextRemovedId && Sound(cfg, s', ToPolyTx(s'.removed[id])) {
      assert Sound(cfg, s, ToPolyTx(s.removed[id]));
    }
  }

  /** The rest of the invariant does not look at the table of removed rows. */
  lemma OtherTablesKept(cfg: Config, s: State, s': State)
    requires RowsOk(cfg, s) && RootsOk(s) && NodesOk(cfg, s) && ChainOk(cfg, s) && TxsOk(cfg, s) && ProcessedOk(s)
    requires s' == s.(removed := s'.removed)
    ensures RowsOk(cfg, s') && RootsOk(s') && NodesOk(cfg, s') && ChainOk(cfg, s') && TxsOk(cfg, s') && ProcessedOk(s')
  {
    hide AbsenceProof, ProvesAbsent, RootProved, SetRoot;
    forall i | i in s.rows ensures Sound(cfg, s', s.rows[i]) {
      assert Sound(cfg, s, s.rows[i]);
    }
    forall x | TxIs(s', x, Pending) ensures PendingOk(cfg, s', s'.starcoin.txs[x]) {
      assert TxIs(s, x, Pending);
    }
    forall x | TxIs(s', x, Executed) ensures s'.starcoin.txs[x].path in s'.starcoin.log {
      assert TxIs(s, x, Executed);
    }
  }

  lemma DeleteRemovedOk(cfg: Config, s: State, s': State, t: nat)
    requires Inv(cfg, s) && DeleteRemoved(s, s', t)
    ensures Inv(cfg, s')
  {
    hide TablesOk, ThreadsOk, RemovalsOk, PutsOk;
    RemovedShrinksOk(cfg, s, s');
    OthersKept(cfg, s, s', t);
  }

  lemma MarkForReturnOk(cfg: Config, s: State, s': State, id: nat)
    requires Inv(cfg, s) && MarkForReturn(s, s', id)
    ensures Inv(cfg, s')
  {
    hide TablesOk, ThreadsOk, RemovalsOk, PutsOk;
    RemovedShrinksOk(cfg, s, s');
    ThreadsUndisturbed(cfg, s, s');
  }
}
