/**
 The insertion of a row prepared earlier, whatever has happened to the queue in between: it keeps the
 roots right exactly when the row still fits.
 */
module RelayInsertion {
  import opened Bytes
  import opened Wrappers
  import opened SparseMerkle
  import opened PathSets
  import opened PolyTxs
  import opened PolyTxTable
  import opened Relay
  import opened RelayInvariant

  // ---------- inclusion roots of rows ----------

  lemma RowProof(cfg: Config, s: State, i: nat)
    requires RowsOk(cfg, s) && RootsOk(s) && i in s.rows && s.rows[i].root != []
    ensures s.rows[i].root in s.nodes && s.nodes[s.rows[i].root] == Before(s.rows, i) && s.rows[i].sideNodes.Some?
    ensures Before(s.rows, i) + {s.rows[i].smtTxPath} in cfg.trees
    ensures AbsenceProof(cfg.h, Before(s.rows, i), s.rows[i].smtTxPath, s.rows[i].sideNodes.value, s.rows[i].leafData)
  {
    hide AbsenceProof, ProvesAbsent;
    assert Sound(cfg, s, s.rows[i]);
  }

  lemma RowInclusionRoot(cfg: Config, s: State, i: nat)
    requires cfg.Valid() && RowsOk(cfg, s) && RootsOk(s) && i in s.rows && s.rows[i].root != []
    ensures var with := Base(s.nodes, Some(s.rows[i]));
      && with == Before(s.rows, i) + {s.rows[i].smtTxPath} && with in cfg.trees && AllPaths(cfg.h, with)
      && InclusionRootOf(cfg.h, s.rows[i]) == Some(SetRoot(cfg.h, with))
  {
    hide RowsOk, RootsOk, AbsenceProof, InclusionRootOf, SetRoot;
    RowProof(cfg, s, i);
    StoredProofRoot(cfg.h, Before(s.rows, i), s.rows[i]);
  }

  lemma StoredProofRoot(h: Hasher, paths: set<Bytes>, row: PolyTx)
    requires h.Valid() && row.sideNodes.Some?
    requires AbsenceProof(h, paths, row.smtTxPath, row.sideNodes.value, row.leafData)
    ensures AllPaths(h, paths + {row.smtTxPath})
    ensures InclusionRootOf(h, row) == Some(SetRoot(h, paths + {row.smtTxPath}))
  {
    InclusionRoot(h, paths, row.smtTxPath, row.sideNodes.value, row.leafData);
  }

  // ---------- what fitting means ----------

  /** Rows before index `n` all have roots, and `root` stands for exactly these rows. */
  ghost predicate RootOfEarlier(s: State, n: nat, root: Bytes) {
    && root in s.nodes && s.nodes[root] == Before(s.rows, n)
    && (forall j :: j in s.rows && j < n ==> s.rows[j].root != [])
  }

  lemma EmptyRoot(h: Hasher)
    ensures AllPaths(h, {}) && SetRoot(h, {}) == h.Placeholder()
  {
    assert Tree({}) == map[];
  }

  /** The row before an index, if any, is a row of the table. */
  lemma PreviousIsRow(rows: Rows, n: nat) returns (i: nat)
    requires Previous(rows, n).Some?
    ensures i in rows && i < n && Previous(rows, n) == Some(rows[i])
    ensures Before(rows, n) == Before(rows, i) + {rows[i].smtTxPath}
    ensures forall j :: j in rows && j < n ==> j <= i
  {
    i :| i in rows && i < n && Previous(rows, n).value == rows[i] && forall j :: j in rows && j < n ==> j <= i;
    BeforeIncludes(rows, n, i);
  }

  /** A root follows on the row before index `n` exactly if it stands for the rows before that index. */
  lemma FollowsIsRootOfEarlier(cfg: Config, s: State, n: nat, root: Bytes)
    requires cfg.Valid() && RowsOk(cfg, s) && RootsOk(s) && NodesOk(cfg, s) && root in s.nodes
    ensures Follows(cfg.h, Previous(s.rows, n), root) <==> RootOfEarlier(s, n, root)
  {
    hide RowsOk, RootsOk, InclusionRootOf, SetRoot, Previous, AllPaths;
    if Previous(s.rows, n) == None {
      FollowsNothing(cfg, s, n, root);
    } else {
      FollowsRow(cfg, s, n, root);
    }
  }

  lemma FollowsNothing(cfg: Config, s: State, n: nat, root: Bytes)
    requires cfg.Valid() && NodesOk(cfg, s) && root in s.nodes && Previous(s.rows, n) == None
    ensures Before(s.rows, n) == {} && forall j :: j in s.rows ==> j >= n
    ensures root == cfg.h.Placeholder() <==> s.nodes[root] == {}
  {
    hide Previous, SetRoot;
    NothingBefore(s.rows, n);
    EmptyRoot(cfg.h);
    SameRootSameSet(cfg.h, cfg.trees, s.nodes[root], {});
  }

  lemma FollowsRow(cfg: Config, s: State, n: nat, root: Bytes)
    requires cfg.Valid() && RowsOk(cfg, s) && RootsOk(s) && NodesOk(cfg, s) && root in s.nodes
    requires Previous(s.rows, n).Some?
    ensures Follows(cfg.h, Previous(s.rows, n), root) <==> RootOfEarlier(s, n, root)
  {
    hide Previous, SetRoot, InclusionRootOf, RowsOk, RootsOk, AllPaths;
    var i := PreviousIsRow(s.rows, n);
    if s.rows[i].root != [] {
      EarlierRooted(s, n, i);
      RowInclusionRoot(cfg, s, i);
      SameRootSameSet(cfg.h, cfg.trees, s.nodes[root], Before(s.rows, n));
      hide NodesOk, Before;
      assert SetRoot(cfg.h, s.nodes[root]) == root by {
        NodeRoot(cfg, s, root);
      }
    }
  }

  lemma NodeRoot(cfg: Config, s: State, root: Bytes)
    requires NodesOk(cfg, s) && root in s.nodes
    ensures s.nodes[root] in cfg.trees && AllPaths(cfg.h, s.nodes[root]) && SetRoot(cfg.h, s.nodes[root]) == root
  {
  }

  lemma EarlierRooted(s: State, n: nat, i: nat)
    requires RootsOk(s) && i in s.rows && s.rows[i].root != [] && forall j :: j in s.rows && j < n ==> j <= i
    ensures forall j :: j in s.rows && j < n ==> s.rows[j].root != []
  {
  }

  // ---------- the insertion as the code performs it ----------

  /** Row `n` has been added to the table, its path not queued before. */
  ghost predicate Added(s: State, s': State, n: nat) {
    && n !in s.rows && n in s'.rows && s'.rows == s.rows[n := s'.rows[n]]
    && s'.rows[n].smtTxPath !in PathSet(s.rows)
    && s'.rows[n].txIndex == n && s'.rows[n].updatedAt == s'.clock && s'.clock == s.clock + 1
    && s' == s.(rows := s'.rows, clock := s'.clock, threads := s'.threads)
  }

  lemma InsertAdds(s: State, s': State, t: nat)
    requires InsertAnyhow(s, s', t)
    ensures Added(s, s', s.threads[t].row.txIndex)
    ensures s'.rows[s.threads[t].row.txIndex] == s.threads[t].row.(updatedAt := s'.clock)
  {
    var row := s.threads[t].row;
    forall p | p in PathSet(s.rows) ensures p != row.smtTxPath {
      var i :| i in s.rows && s.rows[i].smtTxPath == p;
    }
  }

  lemma BeforeAdded(s: State, s': State, n: nat, i: nat)
    requires Added(s, s', n)
    ensures i <= n ==> Before(s'.rows, i) == Before(s.rows, i)
    ensures i > n ==> Before(s'.rows, i) == Before(s.rows, i) + {s'.rows[n].smtTxPath}
    ensures s'.rows[n].smtTxPath !in Before(s.rows, i)
  {
    forall p | p in Before(s.rows, i) ensures p in Before(s'.rows, i) && p in PathSet(s.rows) {
      var j :| j in s.rows && j < i && s.rows[j].smtTxPath == p;
      assert j in s'.rows && s'.rows[j] == s.rows[j];
    }
    forall p | p in Before(s'.rows, i) ensures p in Before(s.rows, i) || (n < i && p == s'.rows[n].smtTxPath) {
      var j :| j in s'.rows && j < i && s'.rows[j].smtTxPath == p;
      assert j == n || (j in s.rows && s'.rows[j] == s.rows[j]);
    }
  }

  /** No row behind the new one has a root, and a root of its own stands for the rows before it. */
  ghost predicate AddedFits(s: State, s': State, n: nat) {
    && Added(s, s', n)
    && (forall j :: j in s.rows && j > n ==> s.rows[j].root == [])
    && (s'.rows[n].root != [] ==> RootOfEarlier(s, n, s'.rows[n].root))
  }

  lemma AddedRootsOk(s: State, s': State, n: nat)
    requires RootsOk(s) && Added(s, s', n)
    ensures RootsOk(s') <==> AddedFits(s, s', n)
  {
    if AddedFits(s, s', n) {
      FittingRootsOk(s, s', n);
    }
    if RootsOk(s') {
      RootsOkFits(s, s', n);
    }
  }

  lemma FittingRootsOk(s: State, s': State, n: nat)
    requires RootsOk(s) && AddedFits(s, s', n)
    ensures RootsOk(s')
  {
    hide Before;
    forall i | i in s'.rows && s'.rows[i].root != []
      ensures s'.rows[i].root in s'.nodes && s'.nodes[s'.rows[i].root] == Before(s'.rows, i)
    {
      BeforeAdded(s, s', n, i);
    }
  }

  lemma RootsOkFits(s: State, s': State, n: nat)
    requires RootsOk(s) && Added(s, s', n) && RootsOk(s')
    ensures AddedFits(s, s', n)
  {
    hide Before;
    BeforeAdded(s, s', n, n);
    forall j | j in s.rows && j > n ensures s.rows[j].root == [] {
      BeforeAdded(s, s', n, j);
      assert s'.rows[j] == s.rows[j];
    }
    forall j | j in s.rows && j < n && s'.rows[n].root != [] ensures s.rows[j].root != [] {
      assert s'.rows[j] == s.rows[j];
    }
  }

  lemma FitsIsAddedFits(cfg: Config, s: State, s': State, t: nat)
    requires cfg.Valid() && TablesOk(cfg, s) && InsertAnyhow(s, s', t)
    requires s.threads[t].row.root != [] ==> s.threads[t].row.root in s.nodes
    ensures Added(s, s', s.threads[t].row.txIndex)
    ensures Fits(cfg.h, s.rows, s.threads[t].row) <==> AddedFits(s, s', s.threads[t].row.txIndex)
  {
    hide RowsOk, RootsOk, NodesOk, RemovedOk, ChainOk, TxsOk, ProcessedOk, Follows, RootOfEarlier, Added;
    var row := s.threads[t].row;
    InsertAdds(s, s', t);
    if row.root != [] {
      FollowsIsRootOfEarlier(cfg, s, row.txIndex, row.root);
    }
  }

  lemma InsertingRootKnown(cfg: Config, s: State, row: PolyTx, origin: Option<nat>)
    requires ThreadOk(cfg, s, Inserting(row, origin))
    ensures row.root != [] ==> row.root in s.nodes
  {
    hide AbsenceProof, ProvesAbsent;
  }

  /**
   In every state the relay can be in, an insertion keeps the roots right exactly when no row behind it
   has a root and a root of its own is the inclusion root of the row now before it.
   */
  lemma InsertKeepsRoots(cfg: Config, s: State, s': State, t: nat)
    requires cfg.Valid() && Inv(cfg, s) && InsertAnyhow(s, s', t)
    ensures RootsOk(s') <==> Fits(cfg.h, s.rows, s.threads[t].row)
  {
    hide Inv, TablesOk, ThreadOk, Fits, AddedFits, RootsOk, InsertAnyhow;
    InsertOpen(s, s', t);
    HeldOk(cfg, s, t);
    InsertingRootKnown(cfg, s, s.threads[t].row, s.threads[t].origin);
    FitsIsAddedFits(cfg, s, s', t);
    TablesRoots(cfg, s);
    AddedRootsOk(s, s', s.threads[t].row.txIndex);
  }

  /**
   In particular a row fits as long as no row behind it has a root and the row before it is still the
   one its root was derived from, as it was read.
   */
  lemma FitsWhileAsRead(cfg: Config, s: State, s1: State, n: nat, tx: PolyTx, origin: Option<nat>, rows: Rows)
    requires cfg.Valid() && TablesOk(cfg, s) && Prepare(cfg.h, s, s1, n, tx, origin) && tx.root == []
    requires forall j :: j in rows && j > s1.threads[n].row.txIndex ==> rows[j].root == []
    requires s1.threads[n].row.root != [] ==> Previous(rows, s1.threads[n].row.txIndex) == LastRow(s.rows)
    ensures Fits(cfg.h, rows, s1.threads[n].row)
  {
    hide RowsOk, RootsOk, NodesOk, RemovedOk, ChainOk, TxsOk, ProcessedOk, Previous, InclusionRootOf, SetRoot;
    hide LastIndex;
    if s.rows == map[] {
      EmptyRoot(cfg.h);
    } else if !NeedsDeriving(LastRow(s.rows)) {
      RowInclusionRoot(cfg, s, LastIndex(s.rows));
    }
  }

  lemma InsertOpen(s: State, s': State, t: nat)
    requires InsertAnyhow(s, s', t)
    ensures t in s.threads && s.threads[t] == Inserting(s.threads[t].row, s.threads[t].origin)
    ensures s'.threads == s.threads[t := AfterInsert(s.threads[t].row.(updatedAt := s'.clock), s.threads[t].origin)]
    ensures !Duplicate(s.rows, s.threads[t].row)
  {
    hide Duplicate;
  }

  lemma TablesRoots(cfg: Config, s: State)
    requires TablesOk(cfg, s)
    ensures RootsOk(s)
  {
    hide RowsOk, RootsOk, NodesOk, RemovedOk, ChainOk, TxsOk, ProcessedOk;
  }

  lemma TablesNodes(cfg: Config, s: State)
    requires TablesOk(cfg, s)
    ensures NodesOk(cfg, s)
  {
    hide RowsOk, RootsOk, NodesOk, RemovedOk, ChainOk, TxsOk, ProcessedOk;
  }

  // ---------- the tables ----------

  lemma SoundSame(cfg: Config, s: State, s': State, m: PolyTx)
    requires s'.nodes == s.nodes && s'.starcoin == s.starcoin
    ensures Sound(cfg, s', m) <==> Sound(cfg, s, m)
  {
    hide AbsenceProof, ProvesAbsent;
  }

  lemma AddedRowSound(cfg: Config, s: State, s': State, row: PolyTx, origin: Option<nat>)
    requires cfg.Valid() && NodesOk(cfg, s) && ThreadOk(cfg, s, Inserting(row, origin)) && AddedFits(s, s', row.txIndex)
    requires s'.rows[row.txIndex] == row.(updatedAt := s'.clock)
    ensures Sound(cfg, s', s'.rows[row.txIndex]) && row.txIndex > 0 && row.status == Created
  {
    BeforeAdded(s, s', row.txIndex, row.txIndex);
    if !Sound(cfg, s, row) {
      NodeRoot(cfg, s, row.root);
      SetRootSize(cfg.h, s.nodes[row.root]);
    }
    StampedSound(cfg, s, s', row);
    hide Sound, NodesOk, Before, PathSet;
  }

  lemma StampedSound(cfg: Config, s: State, s': State, m: PolyTx)
    requires s'.nodes == s.nodes && s'.starcoin == s.starcoin
    ensures Sound(cfg, s', m.(updatedAt := s'.clock)) <==> Sound(cfg, s, m)
  {
    hide AbsenceProof, ProvesAbsent;
  }

  lemma AddedRowsOk(cfg: Config, s: State, s': State, n: nat)
    requires RowsOk(cfg, s) && RemovedOk(cfg, s) && Added(s, s', n) && n > 0 && Sound(cfg, s', s'.rows[n])
    ensures RowsOk(cfg, s') && RemovedOk(cfg, s')
  {
    hide ProvesAbsent, RootProved;
    forall j | j in s'.rows
      ensures Sound(cfg, s', s'.rows[j]) && j > 0 && s'.rows[j].txIndex == j && 0 < s'.rows[j].updatedAt <= s'.clock
    {
      if j != n {
        assert j in s.rows;
        SoundSame(cfg, s, s', s.rows[j]);
      }
    }
    assert forall j :: j in s.rows ==> s.rows[j].smtTxPath in PathSet(s.rows);
    forall id | id in s'.removed ensures Sound(cfg, s', ToPolyTx(s'.removed[id])) {
      SoundSame(cfg, s, s', ToPolyTx(s.removed[id]));
    }
  }

  lemma AddedChainOk(cfg: Config, s: State, s': State, n: nat)
    requires ChainOk(cfg, s) && ProcessedOk(s) && AddedFits(s, s', n) && s'.rows[n].status == Created
    ensures ChainOk(cfg, s') && ProcessedOk(s')
  {
    hide SetRoot, AllPaths, RootOfEarlier;
    forall p | p in PathSet(s.rows) ensures p in PathSet(s'.rows) {
      var j :| j in s.rows && s.rows[j].smtTxPath == p;
      assert j in s'.rows && s'.rows[j].smtTxPath == p;
    }
    assert s'.rows[n].smtTxPath !in Elements(s.starcoin.log);
    forall i, j | i in s'.rows && j in s'.rows && i < j && s'.rows[j].smtTxPath in Elements(s.starcoin.log)
      ensures s'.rows[i].smtTxPath in Elements(s.starcoin.log)
    {
      assert s.rows[j].smtTxPath in s.starcoin.log;
    }
  }

  /** The put was open, and submissions of rows behind do not count its path: none of them stands for too few rows. */
  lemma InPlaceAfterInsertion(s: State, s': State, n: nat, i: nat, root: Bytes)
    requires AddedFits(s, s', n) && i in s.rows && InPlace(s, i, root)
    requires i > n ==> !Counts(s, s'.rows[n].smtTxPath, root)
    ensures InPlace(s', i, root)
  {
    hide RootOfEarlier, PathSet;
    BeforeAdded(s, s', n, i);
    hide Before;
  }

  lemma NotCounted(s: State, t: nat, i: nat, path: Bytes)
    requires PutsOk(s) && t in s.threads && s.threads[t].Inserting? && s.threads[t].row.smtTxPath == path
    requires path !in PathSet(s.rows)
    requires i >= s.threads[t].row.txIndex
    ensures !Counted(s, path, i)
  {
    hide Counted;
  }

  lemma PendingAfterInsertion(cfg: Config, s: State, s': State, t: nat, n: nat, x: string)
    requires TxsOk(cfg, s) && PutsOk(s) && AddedFits(s, s', n) && TxIs(s, x, Pending)
    requires t in s.threads && s.threads[t].Inserting? && s.threads[t].row.txIndex == n
    requires s.threads[t].row.smtTxPath == s'.rows[n].smtTxPath
    ensures PendingOk(cfg, s', s.starcoin.txs[x])
  {
    hide PutsOk, InPlace, AbsenceProof, RootOfEarlier, Counts;
    var tx := s.starcoin.txs[x];
    assert PendingOk(cfg, s, tx);
    if tx.root != [] {
      var k :| k in s.rows && s.rows[k].smtTxPath == tx.path;
      assert k in s'.rows && s'.rows[k].smtTxPath == tx.path;
      forall i | i in s'.rows && s'.rows[i].smtTxPath == tx.path ensures InPlace(s', i, tx.root) {
        assert i != n && s'.rows[i] == s.rows[i];
        if i > n && Counts(s, s'.rows[n].smtTxPath, tx.root) {
          assert PendingCounts(s, x, s'.rows[n].smtTxPath, i);
          NotCounted(s, t, i, s'.rows[n].smtTxPath);
        }
        InPlaceAfterInsertion(s, s', n, i, tx.root);
      }
    }
  }

  lemma AddedTxsOk(cfg: Config, s: State, s': State, t: nat, n: nat)
    requires TxsOk(cfg, s) && PutsOk(s) && AddedFits(s, s', n)
    requires t in s.threads && s.threads[t].Inserting? && s.threads[t].row.txIndex == n
    requires s.threads[t].row.smtTxPath == s'.rows[n].smtTxPath
    ensures TxsOk(cfg, s')
  {
    hide PutsOk, PendingOk, RootOfEarlier;
    forall x | TxIs(s', x, Pending) ensures PendingOk(cfg, s', s'.starcoin.txs[x]) {
      assert TxIs(s, x, Pending);
      PendingAfterInsertion(cfg, s, s', t, n, x);
    }
    forall x | TxIs(s', x, Executed) ensures s'.starcoin.txs[x].path in s'.starcoin.log {
      assert TxIs(s, x, Executed);
    }
  }

  // ---------- goroutines ----------

  lemma FreshAfterInsertion(s: State, s': State, n: nat, px: PolyTx)
    requires Added(s, s', n) && px.updatedAt <= s.clock
    ensures Fresh(s', px) <==> Fresh(s, px)
  {
    if Fresh(s, px) {
      var i :| i in s.rows && s.rows[i].key == px.key && s.rows[i].updatedAt == px.updatedAt;
      assert s'.rows[i] == s.rows[i];
    }
  }

  lemma HeldSame(cfg: Config, s: State, s': State, n: nat, thr: Thread)
    requires Added(s, s', n) && ThreadOk(cfg, s, thr)
    ensures Held(s', thr) == Held(s, thr)
  {
    hide Placed, Sound, Fresh;
    if thr.Writing? {
      FreshAfterInsertion(s, s', n, thr.px);
    }
  }

  lemma HeldAfterInsertion(cfg: Config, s: State, s': State, t: nat, n: nat, u: nat)
    requires ThreadsOk(cfg, s) && PutsOk(s) && AddedFits(s, s', n)
    requires t in s.threads && s.threads[t].Inserting? && s.threads[t].row.txIndex == n
    requires s.threads[t].row.smtTxPath == s'.rows[n].smtTxPath
    requires u in s.threads && Held(s, s.threads[u]).Some?
    ensures Placed(s', Held(s, s.threads[u]).value)
  {
    assert ThreadOk(cfg, s, s.threads[u]);
    hide ThreadsOk, ThreadOk, PutsOk, InPlace, RootOfEarlier, Counts;
    var m := Held(s, s.threads[u]).value;
    if m.txIndex > n && Counts(s, s'.rows[n].smtTxPath, m.root) {
      assert HeldCounts(s, s.threads[u], s'.rows[n].smtTxPath, m.txIndex);
      NotCounted(s, t, m.txIndex, s'.rows[n].smtTxPath);
    }
    InPlaceAfterInsertion(s, s', n, m.txIndex, m.root);
  }

  lemma ReadAfterInsertion(cfg: Config, s: State, s': State, n: nat, op: Op, px: PolyTx)
    requires Added(s, s', n) && ReadOk(cfg, s, op, px)
    ensures ReadOk(cfg, s', op, px)
  {
    forall i | i in s'.rows && s'.rows[i].key == px.key && s'.rows[i].updatedAt == px.updatedAt
      ensures s'.rows[i].starcoinTxHash == px.starcoinTxHash && s'.rows[i].status in {px.status, ToBeRemoved}
    {
      assert i in s.rows;
    }
  }

  lemma RestAfterInsertion(cfg: Config, s: State, s': State, n: nat, thr: Thread)
    requires Added(s, s', n) && ThreadOk(cfg, s, thr) && (Held(s', thr).Some? ==> Placed(s', Held(s', thr).value))
    ensures ThreadOk(cfg, s', thr)
  {
    hide Sound, Placed, ReadOk, Held, Before;
    match thr
    case Reading(op) => if op.Claim? { SoundSame(cfg, s, s', op.m); }
    case Writing(op, px) => if op.Claim? { SoundSame(cfg, s, s', op.m); } ReadAfterInsertion(cfg, s, s', n, op, px);
    case Checking(m, _) => SoundSame(cfg, s, s', m);
    case Deriving(m) => SoundSame(cfg, s, s', m);
    case Refetching(m) => SoundSame(cfg, s, s', m);
    case Queued(m) => SoundSame(cfg, s, s', m);
    case Listed(m) => SoundSame(cfg, s, s', m);
    case Matching(m, r) => SoundSame(cfg, s, s', m);
    case Removing(m) => SoundSame(cfg, s, s', m);
    case Removable(m) => SoundSame(cfg, s, s', m);
    case Inserting(row, _) => SoundSame(cfg, s, s', row);
    case PushedBack(id) => KeysAfterInsertion(s, s', n);
    case _ =>
  }

  lemma KeysAfterInsertion(s: State, s': State, n: nat)
    requires Added(s, s', n)
    ensures Keys(s.rows) <= Keys(s'.rows) && s'.rows[n].key in Keys(s'.rows) && PathSet(s.rows) <= PathSet(s'.rows)
  {
    forall key | key in Keys(s.rows) ensures key in Keys(s'.rows) {
      var j :| j in s.rows && s.rows[j].key == key;
      assert s'.rows[j].key == key;
    }
    forall p | p in PathSet(s.rows) ensures p in PathSet(s'.rows) {
      var j :| j in s.rows && s.rows[j].smtTxPath == p;
      assert s'.rows[j].smtTxPath == p;
    }
  }

  /** The goroutine that inserted goes on. */
  lemma InserterOk(cfg: Config, s: State, s': State, row: PolyTx, origin: Option<nat>)
    requires ThreadOk(cfg, s, Inserting(row, origin)) && AddedFits(s, s', row.txIndex)
    requires s'.rows[row.txIndex] == row.(updatedAt := s'.clock) && Sound(cfg, s', s'.rows[row.txIndex])
    ensures var thr := AfterInsert(row.(updatedAt := s'.clock), origin); ThreadOk(cfg, s', thr) && !IsRemoval(thr)
  {
    hide Sound, RootOfEarlier;
    KeysAfterInsertion(s, s', row.txIndex);
    InserterPlaced(s, s', row.txIndex);
  }

  lemma InserterPlaced(s: State, s': State, n: nat)
    requires AddedFits(s, s', n)
    ensures Placed(s', s'.rows[n])
    ensures s'.rows[n].root != [] ==> s'.rows[n].root in s'.nodes && s'.nodes[s'.rows[n].root] <= PathSet(s'.rows)
  {
    BeforeAdded(s, s', n, n);
    forall p | p in Before(s'.rows, n) ensures p in PathSet(s'.rows) {
      var j :| j in s'.rows && j < n && s'.rows[j].smtTxPath == p;
    }
  }

  // ---------- the step ----------

  lemma InsertOk(cfg: Config, s: State, s': State, t: nat)
    requires cfg.Valid() && Inv(cfg, s) && Insert(cfg.h, s, s', t)
    ensures Inv(cfg, s')
  {
    hide Inv, TablesOk, ThreadOk, Fits, AddedFits, InsertAnyhow, Added;
    InsertOpen(s, s', t);
    var row := s.threads[t].row;
    InsertAdds(s, s', t);
    HeldOk(cfg, s, t);
    InsertingRootKnown(cfg, s, row, s.threads[t].origin);
    FitsIsAddedFits(cfg, s, s', t);
    InsertedOk(cfg, s, s', t, row, s.threads[t].origin);
  }

  lemma InsertedOk(cfg: Config, s: State, s': State, t: nat, row: PolyTx, origin: Option<nat>)
    requires cfg.Valid() && Inv(cfg, s) && AddedFits(s, s', row.txIndex) && !Duplicate(s.rows, row)
    requires t in s.threads && s.threads[t] == Inserting(row, origin)
    requires s'.rows[row.txIndex] == row.(updatedAt := s'.clock)
    requires s'.threads == s.threads[t := AfterInsert(row.(updatedAt := s'.clock), origin)]
    ensures Inv(cfg, s')
  {
    hide TablesOk, ThreadsOk, ThreadOk, RemovalsOk, PutsOk, RootOfEarlier, NodesOk, Sound;
    HeldOk(cfg, s, t);
    TablesNodes(cfg, s);
    AddedRowSound(cfg, s, s', row, origin);
    InserterOk(cfg, s, s', row, origin);
    AddedTablesOk(cfg, s, s', t, row);
    OtherThreadsOk(cfg, s, s', t, row);
    InsertedRemovalsOk(cfg, s, s', t, row);
    InsertedPutsOk(cfg, s, s', t, row);
  }

  lemma AddedTablesOk(cfg: Config, s: State, s': State, t: nat, row: PolyTx)
    requires TablesOk(cfg, s) && PutsOk(s) && AddedFits(s, s', row.txIndex) && row.txIndex > 0 && row.status == Created
    requires Sound(cfg, s', s'.rows[row.txIndex]) && s'.rows[row.txIndex] == row.(updatedAt := s'.clock)
    requires t in s.threads && s.threads[t].Inserting? && s.threads[t].row == row
    ensures TablesOk(cfg, s')
  {
    hide RowsOk, RootsOk, NodesOk, RemovedOk, ChainOk, TxsOk, ProcessedOk, PutsOk, Sound, RootOfEarlier;
    AddedRowsOk(cfg, s, s', row.txIndex);
    FittingRootsOk(s, s', row.txIndex);
    AddedChainOk(cfg, s, s', row.txIndex);
    AddedTxsOk(cfg, s, s', t, row.txIndex);
    SameNodesOk(cfg, s, s');
  }

  lemma SameNodesOk(cfg: Config, s: State, s': State)
    requires NodesOk(cfg, s) && s'.nodes == s.nodes
    ensures NodesOk(cfg, s')
  {
  }

  lemma OtherThreadsOk(cfg: Config, s: State, s': State, t: nat, row: PolyTx)
    requires ThreadsOk(cfg, s) && PutsOk(s) && AddedFits(s, s', row.txIndex)
    requires t in s.threads && s.threads[t].Inserting? && s.threads[t].row == row
    requires s'.rows[row.txIndex] == row.(updatedAt := s'.clock)
    requires t in s'.threads && s'.threads == s.threads[t := s'.threads[t]] && ThreadOk(cfg, s', s'.threads[t])
    ensures ThreadsOk(cfg, s')
  {
    hide PutsOk, ThreadOk, RootOfEarlier, Held, Placed;
    forall u | u in s'.threads ensures ThreadOk(cfg, s', s'.threads[u]) {
      if u != t {
        HeldSame(cfg, s, s', row.txIndex, s.threads[u]);
        if Held(s, s.threads[u]).Some? {
          HeldAfterInsertion(cfg, s, s', t, row.txIndex, u);
        }
        RestAfterInsertion(cfg, s, s', row.txIndex, s.threads[u]);
      }
    }
  }

  lemma InsertedRemovalsOk(cfg: Config, s: State, s': State, t: nat, row: PolyTx)
    requires Inv(cfg, s) && Added(s, s', row.txIndex) && !Duplicate(s.rows, row)
    requires t in s.threads && s.threads[t].Inserting? && s.threads[t].row == row
    requires s'.threads == s.threads[t := AfterInsert(row.(updatedAt := s'.clock), s.threads[t].origin)]
    ensures RemovalsOk(s')
  {
    hide TablesOk, ThreadsOk, ThreadOk, RemovalsOk, PutsOk;
    forall u | u in s.threads && s.threads[u].Removable? ensures s.threads[u].m.key != row.key {
      HeldOk(cfg, s, u);
      RemovableQueued(cfg, s, s.threads[u].m);
    }
    RemovalsKept(s, s', t);
  }

  lemma RemovableQueued(cfg: Config, s: State, m: PolyTx)
    requires ThreadOk(cfg, s, Removable(m))
    ensures m.txIndex in s.rows && s.rows[m.txIndex].key == m.key
  {
    hide Sound;
  }

  lemma InsertedPutsOk(cfg: Config, s: State, s': State, t: nat, row: PolyTx)
    requires Inv(cfg, s) && AddedFits(s, s', row.txIndex)
    requires t in s.threads && s.threads[t].Inserting? && s.threads[t].row == row
    requires s'.rows[row.txIndex] == row.(updatedAt := s'.clock)
    requires s'.threads == s.threads[t := AfterInsert(row.(updatedAt := s'.clock), s.threads[t].origin)]
    ensures PutsOk(s')
  {
    hide TablesOk, ThreadsOk, ThreadOk, RemovalsOk, PutsOk, Counted, RootOfEarlier;
    KeysAfterInsertion(s, s', row.txIndex);
    forall path, i: nat | Counted(s', path, i) ensures Counted(s, path, i) || path in PathSet(s'.rows) {
      CountedAfterInsertion(cfg, s, s', t, row, path, i);
    }
    PutsStay(s, s');
  }

  lemma CountedAfterInsertion(cfg: Config, s: State, s': State, t: nat, row: PolyTx, path: Bytes, i: nat)
    requires Inv(cfg, s) && AddedFits(s, s', row.txIndex) && Counted(s', path, i)
    requires t in s.threads && s.threads[t].Inserting? && s.threads[t].row == row
    requires s'.rows[row.txIndex] == row.(updatedAt := s'.clock)
    requires s'.threads == s.threads[t := AfterInsert(row.(updatedAt := s'.clock), s.threads[t].origin)]
    ensures Counted(s, path, i) || path in PathSet(s'.rows)
  {
    hide TablesOk, ThreadsOk, ThreadOk, RemovalsOk, PutsOk, RootOfEarlier, HeldCounts, PendingCounts, Added;
    if u: nat :| u in s'.threads && HeldCounts(s', s'.threads[u], path, i) {
      if u == t {
        InserterPlaced(s, s', row.txIndex);
        InserterCounts(s', s'.threads[t], row.(updatedAt := s'.clock), s.threads[t].origin, path, i);
      } else {
        HeldOk(cfg, s, u);
        HeldCountsSame(cfg, s, s', row.txIndex, s.threads[u], path, i);
        assert HeldCounts(s, s.threads[u], path, i);
      }
    } else {
      var x :| PendingCounts(s', x, path, i);
      PendingCountsSame(cfg, s, s', row.txIndex, x, path, i);
    }
  }

  lemma InserterCounts(s: State, thr: Thread, row: PolyTx, origin: Option<nat>, path: Bytes, i: nat)
    requires thr == AfterInsert(row, origin) && HeldCounts(s, thr, path, i)
    requires row.root != [] ==> row.root in s.nodes && s.nodes[row.root] <= PathSet(s.rows)
    ensures path in PathSet(s.rows)
  {
    hide PathSet;
  }

  lemma HeldCountsSame(cfg: Config, s: State, s': State, n: nat, thr: Thread, path: Bytes, i: nat)
    requires Added(s, s', n) && ThreadOk(cfg, s, thr) && HeldCounts(s', thr, path, i)
    ensures HeldCounts(s, thr, path, i)
  {
    hide ThreadOk, Held;
    HeldSame(cfg, s, s', n, thr);
  }

  lemma PendingCountsSame(cfg: Config, s: State, s': State, n: nat, x: string, path: Bytes, i: nat)
    requires TablesOk(cfg, s) && Added(s, s', n) && PendingCounts(s', x, path, i)
    ensures Counted(s, path, i)
  {
    hide RowsOk, RootsOk, NodesOk, RemovedOk, ChainOk, ProcessedOk, InPlace, AbsenceProof;
    assert TxIs(s, x, Pending) && PendingOk(cfg, s, s.starcoin.txs[x]);
    assert PendingCounts(s, x, path, i);
  }
}
