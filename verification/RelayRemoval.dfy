/** The removal of a row whose root matched the on-chain root. */
module RelayRemoval {
  import opened Bytes
  import opened Wrappers
  import opened PathSets
  import opened PolyTxs
  import opened PolyTxTable
  import opened Relay
  import opened RelayInvariant
  import opened RelayLocalSteps
  import opened RelayChainSteps

  lemma BeforeAfterRemoval(rows: Rows, index: nat, i: nat)
    ensures Before(Removed(rows, index), i) <= Before(rows, i)
    ensures i <= index ==> Before(Removed(rows, index), i) == Before(rows, i)
  {
    var rows' := Removed(rows, index);
    forall p | p in Before(rows', i) ensures p in Before(rows, i) {
      var j :| j in rows' && j < i && rows'[j].smtTxPath == p;
      assert j in rows;
    }
    forall p | p in Before(rows, i) && i <= index ensures p in Before(rows', i) {
      var j :| j in rows && j < i && rows[j].smtTxPath == p;
      assert j in rows' && rows'[j].smtTxPath == p;
    }
  }

  lemma OtherPathsRemain(rows: Rows, index: nat, i: nat)
    requires i in rows && i != index
    ensures i in Removed(rows, index) && rows[i].smtTxPath in PathSet(Removed(rows, index))
    ensures rows[i].key in Keys(Removed(rows, index))
  {
    var rows' := Removed(rows, index);
    assert rows'[i].smtTxPath == rows[i].smtTxPath && rows'[i].key == rows[i].key;
  }

  /** The tables after the row of snapshot `m` is removed, exactly the rows before it being executed. */
  ghost predicate RemovedFrom(cfg: Config, s: State, s': State, m: PolyTx) {
    && m.txIndex in s.rows && s.rows[m.txIndex].key == m.key && s.rows[m.txIndex].smtTxPath == m.smtTxPath
    && Sound(cfg, s, m)
    && m.smtTxPath !in Elements(s.starcoin.log) && Before(s.rows, m.txIndex) == Elements(s.starcoin.log)
    && (forall x :: TxIs(s, x, Pending) && s.starcoin.txs[x].root != [] ==> s.starcoin.txs[x].path != m.smtTxPath)
    && (forall id :: id in s.removed ==> s.removed[id].key != m.key)
    && s' == s.(rows := Removed(s.rows, m.txIndex),
                removed := s.removed[s.nextRemovedId := ToRemovedPolyTx(m, s.nextRemovedId)],
                nextRemovedId := s.nextRemovedId + 1,
                threads := s'.threads)
  }

  /** A row stays sound when its root is cleared. */
  lemma EmptiedRowSound(cfg: Config, s: State, s': State)
    requires s'.nodes == s.nodes && s'.starcoin == s.starcoin
    ensures forall row: PolyTx {:trigger Sound(cfg, s, row)} ::
      Sound(cfg, s, row) ==> Sound(cfg, s', row) && Sound(cfg, s', row.(root := []))
  {
    hide AbsenceProof, ProvesAbsent;
  }

  lemma RemovedRowsOk(cfg: Config, s: State, s': State, m: PolyTx)
    requires RowsOk(cfg, s) && RemovedOk(cfg, s) && RemovedFrom(cfg, s, s', m)
    ensures RowsOk(cfg, s') && RemovedOk(cfg, s')
  {
    RowsStayOk(cfg, s, s', m);
    RemovedStaysOk(cfg, s, s', m);
  }

  /** The rows left are as they were, but for cleared roots. */
  lemma RowsStayOk(cfg: Config, s: State, s': State, m: PolyTx)
    requires RowsOk(cfg, s) && RemovedFrom(cfg, s, s', m)
    ensures RowsOk(cfg, s')
  {
    hide ProvesAbsent, RootProved;
    EmptiedRowSound(cfg, s, s');
    forall i | i in s'.rows ensures i > 0 && s'.rows[i].txIndex == i && Sound(cfg, s', s'.rows[i]) {
      assert i in s.rows && Sound(cfg, s, s.rows[i]);
    }
  }

  lemma RemovedStaysOk(cfg: Config, s: State, s': State, m: PolyTx)
    requires RemovedOk(cfg, s) && RemovedFrom(cfg, s, s', m)
    ensures RemovedOk(cfg, s')
  {
    hide ProvesAbsent, RootProved;
    EmptiedRowSound(cfg, s, s');
    forall id | id in s'.removed ensures id < s'.nextRemovedId && Sound(cfg, s', ToPolyTx(s'.removed[id])) {
      if id != s.nextRemovedId {
        assert Sound(cfg, s, ToPolyTx(s.removed[id]));
      }
    }
  }

  lemma RemovedRootsOk(cfg: Config, s: State, s': State, m: PolyTx)
    requires RowsOk(cfg, s) && RootsOk(s) && NodesOk(cfg, s) && ProcessedOk(s) && RemovedFrom(cfg, s, s', m)
    ensures RootsOk(s') && NodesOk(cfg, s') && ProcessedOk(s')
  {
    hide Sound, SetRoot, ToRemovedPolyTx, AllPaths;
    forall i | i in s'.rows && s'.rows[i].root != []
      ensures s'.rows[i].root in s'.nodes && s'.nodes[s'.rows[i].root] == Before(s'.rows, i)
    {
      BeforeAfterRemoval(s.rows, m.txIndex, i);
    }
    forall i | i in s'.rows && s'.rows[i].smtTxPath in s'.starcoin.log ensures s'.rows[i].root != [] {
      ExecutedBeforeRemoved(cfg, s, s', m, i);
    }
  }

  lemma ExecutedBeforeRemoved(cfg: Config, s: State, s': State, m: PolyTx, i: nat)
    requires RowsOk(cfg, s) && RemovedFrom(cfg, s, s', m) && i in s.rows && s.rows[i].smtTxPath in s.starcoin.log
    ensures i < m.txIndex
  {
    hide Sound;
    assert s.rows[i].smtTxPath in Elements(s.starcoin.log);
    var j :| j in s.rows && j < m.txIndex && s.rows[j].smtTxPath == s.rows[i].smtTxPath;
  }

  lemma RemovedChainOk(cfg: Config, s: State, s': State, m: PolyTx)
    requires RowsOk(cfg, s) && ChainOk(cfg, s) && TxsOk(cfg, s) && RemovedFrom(cfg, s, s', m)
    ensures ChainOk(cfg, s') && TxsOk(cfg, s')
  {
    hide Sound, SetRoot, AbsenceProof, PendingOk, RowsOk;
    forall p | p in PathSet(s.rows) && p != m.smtTxPath ensures p in PathSet(s'.rows) {
      var i :| i in s.rows && s.rows[i].smtTxPath == p;
      OtherPathsRemain(s.rows, m.txIndex, i);
    }
    assert Elements(s.starcoin.log) <= PathSet(s'.rows);
    forall x | TxIs(s', x, Pending) ensures PendingOk(cfg, s', s'.starcoin.txs[x]) {
      assert TxIs(s, x, Pending);
      RemovedPendingOk(cfg, s, s', m, s.starcoin.txs[x]);
    }
    forall x | TxIs(s', x, Executed) ensures s'.starcoin.txs[x].path in s'.starcoin.log {
      assert TxIs(s, x, Executed);
    }
  }

  /** A submission of another row that stood for the rows before it counts the removed row in, and is dead. */
  lemma InPlaceAfterRemoval(cfg: Config, s: State, s': State, m: PolyTx, i: nat, root: Bytes)
    requires RowsOk(cfg, s) && RemovedFrom(cfg, s, s', m) && i in s.rows && i != m.txIndex && InPlace(s, i, root)
    ensures InPlace(s', i, root)
  {
    hide Sound;
    BeforeAfterRemoval(s.rows, m.txIndex, i);
    if i > m.txIndex {
      assert m.smtTxPath in Before(s.rows, i);
      RemovedNotBefore(cfg, s, s', m, i);
    }
  }

  lemma RemovedNotBefore(cfg: Config, s: State, s': State, m: PolyTx, i: nat)
    requires RowsOk(cfg, s) && RemovedFrom(cfg, s, s', m)
    ensures m.smtTxPath !in Before(s'.rows, i)
  {
    hide Sound;
    forall j | j in s'.rows && j < i ensures s'.rows[j].smtTxPath != m.smtTxPath {
      assert j in s.rows && j != m.txIndex;
    }
  }

  lemma RemovedPendingOk(cfg: Config, s: State, s': State, m: PolyTx, tx: Submission)
    requires RowsOk(cfg, s) && PendingOk(cfg, s, tx) && RemovedFrom(cfg, s, s', m)
    requires (tx.root != [] ==> tx.path != m.smtTxPath)
    ensures PendingOk(cfg, s', tx)
  {
    hide Sound, AbsenceProof, InPlace, RowsOk;
    if tx.root != [] {
      var i :| i in s.rows && s.rows[i].smtTxPath == tx.path;
      OtherPathsRemain(s.rows, m.txIndex, i);
      forall j | j in s'.rows && s'.rows[j].smtTxPath == tx.path ensures InPlace(s', j, tx.root) {
        assert j in s.rows && s.rows[j].smtTxPath == tx.path && j != m.txIndex;
        InPlaceAfterRemoval(cfg, s, s', m, j, tx.root);
      }
    }
  }

  // ---------- goroutines of other rows ----------

  lemma SoundAfterRemoval(cfg: Config, s: State, s': State, m: PolyTx, other: PolyTx)
    requires RemovedFrom(cfg, s, s', m) && Sound(cfg, s, other)
    ensures Sound(cfg, s', other)
  {
    SoundKept(cfg, s, s', other);
  }

  /** A row read before its removal is never fresh again, not even when it has been pushed back. */
  lemma FreshAfterRemoval(cfg: Config, s: State, s': State, m: PolyTx, px: PolyTx)
    requires RowsOk(cfg, s) && RemovedFrom(cfg, s, s', m) && Fresh(s', px)
    ensures Fresh(s, px) && px.key != m.key
  {
    hide Sound;
    var i :| i in s'.rows && s'.rows[i].key == px.key && s'.rows[i].updatedAt == px.updatedAt;
    assert i in s.rows && i != m.txIndex && s.rows[i].key == px.key && s.rows[i].updatedAt == px.updatedAt;
    if px.key == m.key {
      SameKeySameRow(cfg, s, i, m.txIndex);
    }
  }

  lemma HeldAfterRemoval(cfg: Config, s: State, s': State, m: PolyTx, thr: Thread)
    requires RowsOk(cfg, s) && RemovedFrom(cfg, s, s', m) && ThreadOk(cfg, s, thr) && Holds(thr) != Some(m.key)
    requires Held(s', thr).Some?
    ensures Held(s, thr) == Held(s', thr) && Placed(s', Held(s', thr).value)
  {
    hide Sound, InPlace, RowsOk, Fresh;
    var o := Held(s', thr).value;
    if thr.Writing? {
      FreshAfterRemoval(cfg, s, s', m, thr.px);
    }
    assert Held(s, thr) == Some(o) && o.key != m.key;
    InPlaceAfterRemoval(cfg, s, s', m, o.txIndex, o.root);
  }

  lemma OpAfterRemoval(cfg: Config, s: State, s': State, m: PolyTx, op: Op)
    requires RemovedFrom(cfg, s, s', m) && OpOk(cfg, s, op)
    ensures OpOk(cfg, s', op)
  {
    if op.Claim? {
      SoundAfterRemoval(cfg, s, s', m, op.m);
    }
  }

  lemma ReadAfterRemoval(cfg: Config, s: State, s': State, m: PolyTx, op: Op, px: PolyTx)
    requires RemovedFrom(cfg, s, s', m) && OpOk(cfg, s, op) && ReadOk(cfg, s, op, px)
    ensures ReadOk(cfg, s', op, px)
  {
    hide Sound;
    forall i | i in s'.rows && s'.rows[i].key == px.key && s'.rows[i].updatedAt == px.updatedAt
      ensures s'.rows[i].starcoinTxHash == px.starcoinTxHash && s'.rows[i].status in {px.status, ToBeRemoved}
    {
      assert i in s.rows && s.rows[i].updatedAt == px.updatedAt;
    }
    if op.MarkProcessed? {
      assert s.rows[px.txIndex].smtTxPath in Elements(s.starcoin.log);
    }
  }

  lemma InsertingAfterRemoval(cfg: Config, s: State, s': State, m: PolyTx, row: PolyTx, origin: Option<nat>)
    requires RemovedFrom(cfg, s, s', m) && InsertingOk(cfg, s, row, origin)
    ensures InsertingOk(cfg, s', row, origin)
  {
    hide Sound, InsertingOk;
    InsertingKept(cfg, s, s', row, origin);
  }

  lemma ThreadAfterRemoval(cfg: Config, s: State, s': State, m: PolyTx, thr: Thread)
    requires RowsOk(cfg, s) && RemovedFrom(cfg, s, s', m) && ThreadOk(cfg, s, thr)
    requires !IsRemoval(thr) && Holds(thr) != Some(m.key)
    ensures ThreadOk(cfg, s', thr)
  {
    hide RowsOk, Sound, Placed, OpOk, ReadOk, InsertingOk;
    if Held(s', thr).Some? {
      HeldAfterRemoval(cfg, s, s', m, thr);
    }
    match thr
    case Reading(op) => OpAfterRemoval(cfg, s, s', m, op);
    case Writing(op, px) => OpAfterRemoval(cfg, s, s', m, op); ReadAfterRemoval(cfg, s, s', m, op, px);
    case Checking(o, resend) => SoundAfterRemoval(cfg, s, s', m, o);
    case Deriving(o) => SoundAfterRemoval(cfg, s, s', m, o);
    case Refetching(o) => SoundAfterRemoval(cfg, s, s', m, o);
    case Queued(o) => SoundAfterRemoval(cfg, s, s', m, o);
    case Waiting(key, hash) =>
    case Sweeping(index) => assert s.rows[index].smtTxPath in Elements(s.starcoin.log);
    case Listed(o) => SoundAfterRemoval(cfg, s, s', m, o);
    case Matching(o, r) => SoundAfterRemoval(cfg, s, s', m, o); PastRootKept(cfg, s, s', r);
    case Inserting(row, origin) => InsertingAfterRemoval(cfg, s, s', m, row, origin);
    case PushedBack(id) => PushedBackAfterRemoval(cfg, s, s', m, id);
  }

  lemma PushedBackAfterRemoval(cfg: Config, s: State, s': State, m: PolyTx, id: nat)
    requires RemovedFrom(cfg, s, s', m) && ThreadOk(cfg, s, PushedBack(id))
    ensures ThreadOk(cfg, s', PushedBack(id))
  {
    hide Sound;
    if id in s'.removed {
      assert id in s.removed;
      var i :| i in s.rows && s.rows[i].key == s.removed[id].key;
      OtherPathsRemain(s.rows, m.txIndex, i);
    }
  }

  // ---------- the step ----------

  lemma RemoveIsRemoval(cfg: Config, s: State, s': State, t: nat)
    requires cfg.Valid() && Inv(cfg, s) && TakeOut(s, s', t)
    ensures RemovedFrom(cfg, s, s', s.threads[t].m)
  {
    hide TablesOk, ThreadsOk, PutsOk, ThreadOk;
    var m := s.threads[t].m;
    HeldOk(cfg, s, t);
    RemovableRowIsNext(cfg, s, m);
    RemovableSound(cfg, s, m);
    assert Quiescent(s, m.key, m.smtTxPath);
  }

  lemma RemovableSound(cfg: Config, s: State, m: PolyTx)
    requires ThreadOk(cfg, s, Removable(m))
    ensures Sound(cfg, s, m)
  {
    hide Sound;
  }

  lemma RemoveOk(cfg: Config, s: State, s': State, t: nat)
    requires cfg.Valid() && Inv(cfg, s) && Remove(s, s', t)
    ensures Inv(cfg, s')
  {
    hide Inv, TakeOut, PutsBehind;
    RemovalKeepsInvariant(cfg, s, s', t);
  }

  /**
   A removal keeps the invariant exactly when each open put of the same transaction goes behind every
   row a submission of which counts that transaction among those executed before.
   */
  lemma RemovalKeepsInvariant(cfg: Config, s: State, s': State, t: nat)
    requires cfg.Valid() && Inv(cfg, s) && TakeOut(s, s', t)
    ensures Inv(cfg, s') <==> PutsBehind(s, s.threads[t].m.smtTxPath)
  {
    hide RowsOk, RootsOk, NodesOk, RemovedOk, ChainOk, TxsOk, ProcessedOk, ThreadsOk, RemovalsOk, PutsOk, RemovedFrom;
    var m := s.threads[t].m;
    RemoveIsRemoval(cfg, s, s', t);
    RemovedRowsOk(cfg, s, s', m);
    RemovedRootsOk(cfg, s, s', m);
    RemovedChainOk(cfg, s, s', m);
    ThreadsAfterRemoval(cfg, s, s', t);
    PutsAfterRemoval(cfg, s, s', t);
  }

  lemma ThreadsAfterRemoval(cfg: Config, s: State, s': State, t: nat)
    requires RowsOk(cfg, s) && ThreadsOk(cfg, s) && RemovalsOk(s) && TakeOut(s, s', t)
    requires RemovedFrom(cfg, s, s', s.threads[t].m)
    ensures ThreadsOk(cfg, s') && RemovalsOk(s')
  {
    var m := s.threads[t].m;
    hide RowsOk, ThreadOk, RemovedFrom;
    forall u | u in s'.threads ensures ThreadOk(cfg, s', s'.threads[u]) {
      assert u != t && s'.threads[u] == s.threads[u];
      ThreadAfterRemoval(cfg, s, s', m, s.threads[u]);
    }
  }

  lemma PutsAfterRemoval(cfg: Config, s: State, s': State, t: nat)
    requires RowsOk(cfg, s) && ThreadsOk(cfg, s) && TxsOk(cfg, s) && RemovalsOk(s) && PutsOk(s)
    requires TakeOut(s, s', t) && RemovedFrom(cfg, s, s', s.threads[t].m)
    ensures PutsOk(s') <==> PutsBehind(s, s.threads[t].m.smtTxPath)
  {
    if PutsBehind(s, s.threads[t].m.smtTxPath) {
      PutsStayOk(cfg, s, s', t);
    }
    if PutsOk(s') {
      PutsWereBehind(cfg, s, s', t);
    }
  }

  lemma PutsStayOk(cfg: Config, s: State, s': State, t: nat)
    requires RowsOk(cfg, s) && ThreadsOk(cfg, s) && RemovalsOk(s) && PutsOk(s)
    requires TakeOut(s, s', t) && RemovedFrom(cfg, s, s', s.threads[t].m)
    requires PutsBehind(s, s.threads[t].m.smtTxPath)
    ensures PutsOk(s')
  {
    hide Counted, RowsOk, ThreadsOk, RemovalsOk, RemovedFrom;
    var m := s.threads[t].m;
    forall u: nat, i: nat |
        && u in s'.threads && s'.threads[u].Inserting? && Counted(s', s'.threads[u].row.smtTxPath, i)
        && s'.threads[u].row.smtTxPath !in PathSet(s'.rows)
      ensures i < s'.threads[u].row.txIndex
    {
      var row := s'.threads[u].row;
      assert u in s.threads && s.threads[u] == s'.threads[u];
      CountedAfterRemoval(cfg, s, s', t, row.smtTxPath, i);
      if row.smtTxPath != m.smtTxPath && row.smtTxPath in PathSet(s.rows) {
        OtherPathStays(cfg, s, s', m, row.smtTxPath);
      }
    }
  }

  lemma PutsWereBehind(cfg: Config, s: State, s': State, t: nat)
    requires RowsOk(cfg, s) && ThreadsOk(cfg, s) && TxsOk(cfg, s) && RemovalsOk(s)
    requires TakeOut(s, s', t) && RemovedFrom(cfg, s, s', s.threads[t].m) && PutsOk(s')
    ensures PutsBehind(s, s.threads[t].m.smtTxPath)
  {
    hide Counted, RowsOk, ThreadsOk, TxsOk, RemovalsOk, RemovedFrom;
    var path := s.threads[t].m.smtTxPath;
    forall u: nat, i: nat |
        u in s.threads && s.threads[u].Inserting? && s.threads[u].row.smtTxPath == path && Counted(s, path, i)
      ensures i < s.threads[u].row.txIndex
    {
      assert u in s'.threads && s'.threads[u] == s.threads[u];
      StillCounted(cfg, s, s', t, i);
      RemovedNotQueued(cfg, s, s', t);
    }
  }

  lemma RemovedNotQueued(cfg: Config, s: State, s': State, t: nat)
    requires RowsOk(cfg, s) && TakeOut(s, s', t) && RemovedFrom(cfg, s, s', s.threads[t].m)
    ensures s.threads[t].m.smtTxPath !in PathSet(s'.rows)
  {
    hide Sound;
  }

  /** Submissions that count the removed path are of other rows, and stay. */
  lemma StillCounted(cfg: Config, s: State, s': State, t: nat, i: nat)
    requires RowsOk(cfg, s) && ThreadsOk(cfg, s) && TxsOk(cfg, s)
    requires TakeOut(s, s', t) && RemovedFrom(cfg, s, s', s.threads[t].m)
    requires Counted(s, s.threads[t].m.smtTxPath, i)
    ensures Counted(s', s.threads[t].m.smtTxPath, i)
  {
    hide RowsOk, ThreadsOk, TxsOk, HeldCounts, PendingCounts, RemovedFrom;
    var path := s.threads[t].m.smtTxPath;
    if u: nat :| u in s.threads && HeldCounts(s, s.threads[u], path, i) {
      HeldStillCounts(cfg, s, s', t, u, i);
    } else {
      var x :| PendingCounts(s, x, path, i);
      PendingStillCounts(cfg, s, s', t, x, i);
    }
  }

  lemma HeldStillCounts(cfg: Config, s: State, s': State, t: nat, u: nat, i: nat)
    requires RowsOk(cfg, s) && ThreadsOk(cfg, s) && TakeOut(s, s', t) && RemovedFrom(cfg, s, s', s.threads[t].m)
    requires u in s.threads && HeldCounts(s, s.threads[u], s.threads[t].m.smtTxPath, i)
    ensures u in s'.threads && HeldCounts(s', s'.threads[u], s.threads[t].m.smtTxPath, i)
  {
    hide RowsOk, ThreadOk, RemovedFrom, Held, Sound;
    var m, thr := s.threads[t].m, s.threads[u];
    assert ThreadOk(cfg, s, thr);
    HeldSound(cfg, s, thr);
    OwnPathAbsent(cfg, s, Held(s, thr).value);
    RemovedPath(cfg, s, s', t);
    HeldElsewhere(cfg, s, s', m, thr);
  }

  lemma HeldElsewhere(cfg: Config, s: State, s': State, m: PolyTx, thr: Thread)
    requires RemovedFrom(cfg, s, s', m) && Held(s, thr).Some?
    requires thr.Writing? ==> thr.px.key != m.key
    ensures Held(s', thr) == Held(s, thr) && s'.nodes == s.nodes
  {
    hide Sound, Fresh;
    if thr.Writing? {
      StillFreshElsewhere(cfg, s, s', m, thr.px);
    }
  }

  lemma HeldSound(cfg: Config, s: State, thr: Thread)
    requires ThreadOk(cfg, s, thr) && Held(s, thr).Some?
    ensures Sound(cfg, s, Held(s, thr).value) && Held(s, thr).value.root != []
    ensures !IsRemoval(thr) && (thr.Writing? ==> thr.px.key == Held(s, thr).value.key)
  {
    hide Sound, Placed;
  }

  lemma RemovedPath(cfg: Config, s: State, s': State, t: nat)
    requires TakeOut(s, s', t) && RemovedFrom(cfg, s, s', s.threads[t].m)
    ensures s.threads[t].m.smtTxPath == PathOf(cfg.h, s.threads[t].m.key)
  {
    hide RootProved, ProvesAbsent;
  }

  lemma OwnPathAbsent(cfg: Config, s: State, m: PolyTx)
    requires Sound(cfg, s, m)
    ensures m.smtTxPath == PathOf(cfg.h, m.key) && !Counts(s, m.smtTxPath, m.root)
  {
    hide ProvesAbsent;
  }

  lemma StillFreshElsewhere(cfg: Config, s: State, s': State, m: PolyTx, px: PolyTx)
    requires RemovedFrom(cfg, s, s', m) && Fresh(s, px) && px.key != m.key
    ensures Fresh(s', px)
  {
    hide Sound;
    var i :| i in s.rows && s.rows[i].key == px.key && s.rows[i].updatedAt == px.updatedAt;
    assert i in s'.rows && s'.rows[i].key == px.key && s'.rows[i].updatedAt == px.updatedAt;
  }

  lemma PendingStillCounts(cfg: Config, s: State, s': State, t: nat, x: string, i: nat)
    requires TxsOk(cfg, s) && TakeOut(s, s', t) && RemovedFrom(cfg, s, s', s.threads[t].m)
    requires PendingCounts(s, x, s.threads[t].m.smtTxPath, i)
    ensures PendingCounts(s', x, s.threads[t].m.smtTxPath, i)
  {
    hide Sound, InPlace;
    assert PendingOk(cfg, s, s.starcoin.txs[x]);
    assert i != s.threads[t].m.txIndex;
  }

  lemma OtherPathStays(cfg: Config, s: State, s': State, m: PolyTx, p: Bytes)
    requires RemovedFrom(cfg, s, s', m) && p in PathSet(s.rows) && p != m.smtTxPath
    ensures p in PathSet(s'.rows)
  {
    hide Sound;
    var i :| i in s.rows && s.rows[i].smtTxPath == p;
    OtherPathsRemain(s.rows, m.txIndex, i);
  }

  lemma CountedAfterRemoval(cfg: Config, s: State, s': State, t: nat, path: Bytes, i: nat)
    requires RowsOk(cfg, s) && ThreadsOk(cfg, s) && RemovalsOk(s)
    requires TakeOut(s, s', t) && RemovedFrom(cfg, s, s', s.threads[t].m) && Counted(s', path, i)
    ensures Counted(s, path, i)
  {
    hide RowsOk, Sound, Before;
    if u: nat :| u in s'.threads && HeldCounts(s', s'.threads[u], path, i) {
      assert u in s.threads && s.threads[u] == s'.threads[u] && u != t;
      assert ThreadOk(cfg, s, s.threads[u]);
      HeldAfterRemoval(cfg, s, s', s.threads[t].m, s.threads[u]);
      hide ThreadOk, Placed, RemovedFrom, Held;
      assert HeldCounts(s, s.threads[u], path, i);
    } else {
      var x :| PendingCounts(s', x, path, i);
      assert PendingCounts(s, x, path, i);
    }
  }
}
