/** Steps in which a goroutine appears, moves on or ends without writing, and the passing of time. */
module RelayLocalSteps {
  import opened Bytes
  import opened Wrappers
  import opened PathSets
  import opened PolyTxs
  import opened PolyTxTable
  import opened Relay
  import opened RelayInvariant

  /** Only goroutines and the clock differ. */
  ghost predicate SameTables(s: State, s': State) {
    && s'.rows == s.rows && s'.removed == s.removed && s'.nextRemovedId == s.nextRemovedId
    && s'.nodes == s.nodes && s'.starcoin == s.starcoin && s.clock <= s'.clock
  }

  lemma SameRowsOk(cfg: Config, s: State, s': State)
    requires RowsOk(cfg, s) && RootsOk(s) && RemovedOk(cfg, s) && SameTables(s, s')
    ensures RowsOk(cfg, s') && RootsOk(s') && RemovedOk(cfg, s')
  {
    hide ProvesAbsent, RootProved;
    forall i | i in s.rows ensures Sound(cfg, s', s.rows[i]) {
      SoundKept(cfg, s, s', s.rows[i]);
    }
    forall id | id in s.removed ensures Sound(cfg, s', ToPolyTx(s.removed[id])) {
      SoundKept(cfg, s, s', ToPolyTx(s.removed[id]));
    }
  }

  lemma TablesKept(cfg: Config, s: State, s': State)
    requires TablesOk(cfg, s) && SameTables(s, s')
    ensures TablesOk(cfg, s') && Grows(s, s') && NoNewPending(s, s')
  {
    hide Sound, RowsOk, RemovedOk, RootsOk, SetRoot, AllPaths;
    SameRowsOk(cfg, s, s');
    forall x | TxIs(s', x, Pending) ensures PendingOk(cfg, s', s'.starcoin.txs[x]) {
      assert TxIs(s, x, Pending);
    }
    forall x | TxIs(s', x, Executed) ensures s'.starcoin.txs[x].path in s'.starcoin.log {
      assert TxIs(s, x, Executed);
    }
  }

  /** The root of a row stands for queued paths. */
  lemma RowCountsQueued(cfg: Config, s: State, i: nat)
    requires TablesOk(cfg, s) && i in s.rows
    ensures s.rows[i].root != [] ==> s.rows[i].root in s.nodes && s.nodes[s.rows[i].root] <= PathSet(s.rows)
  {
    hide RowsOk, NodesOk, RemovedOk, ChainOk, TxsOk, ProcessedOk;
    forall p | p in Before(s.rows, i) ensures p in PathSet(s.rows) {
      var j :| j in s.rows && j < i && s.rows[j].smtTxPath == p;
    }
  }

  lemma RowPlaced(cfg: Config, s: State, i: nat)
    requires RowsOk(cfg, s) && RootsOk(s) && i in s.rows
    ensures Sound(cfg, s, s.rows[i]) && Placed(s, s.rows[i]) && s.rows[i].txIndex == i
  {
    hide ProvesAbsent, RootProved;
  }

  lemma SameKeySameRow(cfg: Config, s: State, i: nat, j: nat)
    requires RowsOk(cfg, s) && i in s.rows && j in s.rows && s.rows[i].key == s.rows[j].key
    ensures i == j
  {
    assert Sound(cfg, s, s.rows[i]) && Sound(cfg, s, s.rows[j]);
  }

  lemma InitOk(cfg: Config)
    requires cfg.Valid()
    ensures Inv(cfg, Init(cfg.h))
  {
    var s := Init(cfg.h);
    assert Elements([]) == {};
    assert Tree({}) == map[];
    assert SetRoot(cfg.h, {}) == cfg.h.Placeholder();
  }

  lemma TickOk(cfg: Config, s: State, s': State, millis: nat)
    requires Inv(cfg, s) && Tick(s, s', millis)
    ensures Inv(cfg, s')
  {
    hide TablesOk, ThreadsOk, RemovalsOk, PutsOk;
    TablesKept(cfg, s, s');
    ThreadsUndisturbed(cfg, s, s');
  }

  lemma FinishOk(cfg: Config, s: State, s': State, t: nat)
    requires Inv(cfg, s) && Finish(s, s', t)
    ensures Inv(cfg, s')
  {
    hide TablesOk, ThreadsOk, RemovalsOk, PutsOk;
    TablesKept(cfg, s, s');
    OthersKept(cfg, s, s', t);
  }

  /** A goroutine takes up `thr`, sound as things stand; nothing else changes. */
  lemma TakeUp(cfg: Config, s: State, s': State, t: nat, thr: Thread)
    requires Inv(cfg, s) && s' == s.(threads := s.threads[t := thr])
    requires ThreadOk(cfg, s, thr) && OnlyThread(s, s', t) && HoldsNoMore(s, s', t) && !thr.Inserting?
    ensures TablesOk(cfg, s') && ThreadsOk(cfg, s') && PutsOk(s')
    ensures !IsRemoval(thr) ==> Inv(cfg, s')
  {
    hide TablesOk, ThreadOk, HoldsNoMore;
    TablesKept(cfg, s, s');
    ThreadKept(cfg, s, s', thr);
    ThreadsKept(cfg, s, s', t);
    PutsKept(cfg, s, s', t);
    if !IsRemoval(thr) {
      RemovalsKept(s, s', t);
    }
  }

  // ---------- monitors pick rows ----------

  lemma PickedOk(cfg: Config, s: State, i: nat, thr: Thread)
    requires Inv(cfg, s) && Picked(s, i, thr)
    ensures ThreadOk(cfg, s, thr)
    ensures Holds(thr) == None || (Holds(thr) == Some(s.rows[i].key) && s.rows[i].status != ToBeRemoved)
    ensures Held(s, thr) == None || (Held(s, thr) == Some(s.rows[i]) && s.rows[i].root != [])
    ensures !thr.Inserting?
  {
    hide Sound, Placed, RowsOk, RootsOk, NodesOk, RemovedOk, ChainOk, TxsOk, ProcessedOk, ThreadsOk;
    hide RemovalsOk, PutsOk, LastIndex;
    RowPlaced(cfg, s, i);
  }

  /** A removal that is about to take its row has it marked in the table. */
  lemma RemovableRow(cfg: Config, s: State, u: nat, i: nat)
    requires Inv(cfg, s) && u in s.threads && s.threads[u].Removable?
    requires i in s.rows && s.rows[i].key == s.threads[u].m.key
    ensures i == s.threads[u].m.txIndex && s.rows[i].status == ToBeRemoved
  {
    assert ThreadOk(cfg, s, s.threads[u]);
    SameKeySameRow(cfg, s, i, s.threads[u].m.txIndex);
  }

  lemma SpawnOk(cfg: Config, s: State, s': State, n: nat, thr: Thread)
    requires Inv(cfg, s) && Spawn(s, s', n, thr)
    ensures Inv(cfg, s')
  {
    hide TablesOk, ThreadsOk, ThreadOk, PutsOk;
    var i :| Picked(s, i, thr);
    PickedOk(cfg, s, i, thr);
    RowCountsQueued(cfg, s, i);
    forall u | u in s.threads && s.threads[u].Removable? ensures Holds(thr) != Some(s.threads[u].m.key) {
      if s.rows[i].key == s.threads[u].m.key {
        RemovableRow(cfg, s, u, i);
      }
    }
    TakeUp(cfg, s, s', n, thr);
    if IsRemoval(thr) {
      OnlyRemoval(s, s', n, thr);
    }
  }

  lemma OnlyRemoval(s: State, s': State, n: nat, thr: Thread)
    requires RemovalsOk(s) && s' == s.(threads := s.threads[n := thr]) && thr.Removing?
    requires forall t :: t in s.threads ==> !IsRemoval(s.threads[t])
    ensures RemovalsOk(s')
  {
  }

  // ---------- goroutines move on ----------

  lemma ReadRow(cfg: Config, s: State, op: Op, i: nat)
    requires TablesOk(cfg, s) && ThreadOk(cfg, s, Reading(op))
    requires i in s.rows && s.rows[i].key == op.KeyOf() && op.Allowed(s.rows[i], s.clock)
    ensures ThreadOk(cfg, s, Writing(op, s.rows[i]))
    ensures Held(s, Writing(op, s.rows[i])) == None || Held(s, Writing(op, s.rows[i])) == Held(s, Reading(op))
  {
    hide ThreadOk, Held, ReadOk, RootsOk, NodesOk, RemovedOk, ChainOk, TxsOk, ProcessedOk;
    RowAsRead(cfg, s, op, i);
    ReadThenWrites(cfg, s, op, s.rows[i]);
  }

  lemma ReadThenWrites(cfg: Config, s: State, op: Op, px: PolyTx)
    requires ThreadOk(cfg, s, Reading(op)) && ReadOk(cfg, s, op, px)
    ensures ThreadOk(cfg, s, Writing(op, px))
    ensures Held(s, Writing(op, px)) == None || Held(s, Writing(op, px)) == Held(s, Reading(op))
  {
    hide OpOk, ReadOk, Placed, Fresh;
  }

  lemma RowAsRead(cfg: Config, s: State, op: Op, i: nat)
    requires RowsOk(cfg, s) && i in s.rows && s.rows[i].key == op.KeyOf() && op.Allowed(s.rows[i], s.clock)
    ensures ReadOk(cfg, s, op, s.rows[i])
  {
    hide ProvesAbsent, RootProved;
    forall j | j in s.rows && s.rows[j].key == s.rows[i].key ensures j == i {
      SameKeySameRow(cfg, s, i, j);
    }
    assert Sound(cfg, s, s.rows[i]);
  }

  lemma Refetched(cfg: Config, s: State, m: PolyTx, i: nat)
    requires TablesOk(cfg, s) && i in s.rows && s.rows[i].key == m.key
    ensures ThreadOk(cfg, s, Queued(s.rows[i]))
    ensures Held(s, Queued(s.rows[i])) == None
      || (s.rows[i].root in s.nodes && s.nodes[s.rows[i].root] <= PathSet(s.rows))
  {
    RowPlaced(cfg, s, i);
    RowCountsQueued(cfg, s, i);
    hide TablesOk, Sound, Placed;
  }

  /** A row whose inclusion root is a root the contract has kept was executed. */
  lemma MatchMeansExecuted(cfg: Config, s: State, m: PolyTx, r: Bytes)
    requires cfg.Valid() && ChainOk(cfg, s) && Sound(cfg, s, m) && PastRoot(cfg, s, r)
    requires InclusionRootOf(cfg.h, m) == Some(r)
    ensures m.smtTxPath in s.starcoin.log
  {
    var n :| 0 <= n <= |s.starcoin.log|
      && AllPaths(cfg.h, Elements(s.starcoin.log[..n])) && r == SetRoot(cfg.h, Elements(s.starcoin.log[..n]));
    var paths :| paths in cfg.trees && paths + {m.smtTxPath} in cfg.trees
      && AbsenceProof(cfg.h, paths, m.smtTxPath, m.sideNodes.value, m.leafData);
    InclusionRoot(cfg.h, paths, m.smtTxPath, m.sideNodes.value, m.leafData);
    assert Elements(s.starcoin.log[..n]) <= Elements(s.starcoin.log);
    SameRootSameSet(cfg.h, cfg.trees, paths + {m.smtTxPath}, Elements(s.starcoin.log[..n]));
    assert m.smtTxPath in Elements(s.starcoin.log[..n]);
  }

  lemma MatchedOk(cfg: Config, s: State, m: PolyTx, r: Bytes)
    requires cfg.Valid() && ChainOk(cfg, s) && ThreadOk(cfg, s, Matching(m, r)) && IncludedAt(cfg.h, s, m, r)
    ensures ThreadOk(cfg, s, Reading(MarkProcessed(m.key, m.status, m.starcoinTxHash)))
  {
    hide InclusionRootOf, ChainOk, ProvesAbsent, RootProved, PastRoot;
    MatchMeansExecuted(cfg, s, m, r);
  }

  lemma WaitedOk(cfg: Config, s: State, key: Key, hash: string, to: Thread)
    requires TxsOk(cfg, s) && ThreadOk(cfg, s, Waiting(key, hash)) && Moves(cfg.h, s, Waiting(key, hash), to)
    ensures ThreadOk(cfg, s, to)
  {
    hide PendingOk;
  }

  lemma ChainRootIsPast(cfg: Config, s: State)
    requires ChainOk(cfg, s)
    ensures PastRoot(cfg, s, s.starcoin.root)
  {
    assert s.starcoin.log[..|s.starcoin.log|] == s.starcoin.log;
  }

  /** What a goroutine moving on may submit: nothing, what it could submit before, or a row as it stands. */
  ghost predicate HoldsAsBefore(s: State, from: Thread, to: Thread) {
    Held(s, to).Some? ==>
      || Held(s, from) == Held(s, to)
      || (var root := Held(s, to).value.root; root in s.nodes && s.nodes[root] <= PathSet(s.rows))
  }

  lemma MovedOk(cfg: Config, s: State, from: Thread, to: Thread)
    requires cfg.Valid() && TablesOk(cfg, s) && ThreadOk(cfg, s, from) && Moves(cfg.h, s, from, to)
    ensures ThreadOk(cfg, s, to) && HoldsAsBefore(s, from, to) && !to.Inserting?
    ensures Holds(to) == None || Holds(to) == Holds(from)
  {
    hide Sound, Placed, RowsOk, RootsOk, NodesOk, RemovedOk, ChainOk, TxsOk, ProcessedOk, OpOk, ReadOk;
    hide PastRoot, Quiescent, IncludedAt, AfterCheck, PathSet;
    match from
    case Reading(op) =>
      var i :| i in s.rows && s.rows[i].key == op.KeyOf() && op.Allowed(s.rows[i], s.clock)
        && to == Writing(op, s.rows[i]);
      ReadRow(cfg, s, op, i);
    case Refetching(m) =>
      var i :| i in s.rows && s.rows[i].key == m.key && to == Queued(s.rows[i]);
      Refetched(cfg, s, m, i);
    case Listed(m) =>
      ChainRootIsPast(cfg, s);
    case Waiting(key, hash) =>
      WaitedOk(cfg, s, key, hash, to);
    case Matching(m, r) =>
      MatchedOk(cfg, s, m, r);
    case Checking(m, resend) =>
      CheckedOk(cfg, s, m, resend, to);
    case _ =>
  }

  /**
   A row checked because it is old is not sent again from there: the wait before sending is over as well. It is
   marked processed only if its transaction was executed, and failed only if that was rejected or the row is old.
   */
  lemma CheckedOk(cfg: Config, s: State, m: PolyTx, resend: bool, to: Thread)
    requires TablesOk(cfg, s) && ThreadOk(cfg, s, Checking(m, resend)) && AfterCheck(s, m, resend, to)
    ensures ThreadOk(cfg, s, to) && to.Reading? && !to.op.Claim? && to.op.KeyOf() == m.key
    ensures m.starcoinTxHash == "" <==> to.op == MarkStatus(m.key, m.status, UnknownError)
    ensures to.op.MarkProcessed? ==>
      to.op == MarkProcessed(m.key, m.status, m.starcoinTxHash) && TxIs(s, m.starcoinTxHash, Executed)
    ensures m.starcoinTxHash != "" && !to.op.MarkProcessed? ==>
      && to.op == MarkStatus(m.key, m.status, Failed)
      && (TxIs(s, m.starcoinTxHash, Rejected) || m.updatedAt + 120_000 < s.clock)
  {
    hide RootProved, ProvesAbsent, RowsOk, RootsOk, NodesOk, RemovedOk, ChainOk, PendingOk, ProcessedOk;
  }

  lemma MoveOk(cfg: Config, s: State, s': State, t: nat, thr: Thread)
    requires cfg.Valid() && Inv(cfg, s) && Move(cfg.h, s, s', t, thr)
    ensures Inv(cfg, s')
  {
    hide Inv, TablesOk, ThreadOk, Moves, Quiescent, PathSet, Held, PutsOk;
    HeldOk(cfg, s, t);
    MovedOk(cfg, s, s.threads[t], thr);
    HoldsNoMoreAfter(s, s', t, thr);
    TakeUp(cfg, s, s', t, thr);
    if IsRemoval(thr) {
      RemovalMoves(cfg, s, s', t, thr);
      InvOf(cfg, s');
    }
  }

  lemma HoldsNoMoreAfter(s: State, s': State, t: nat, thr: Thread)
    requires t in s.threads && s' == s.(threads := s.threads[t := thr]) && HoldsAsBefore(s, s.threads[t], thr)
    ensures HoldsNoMore(s, s', t)
  {
  }

  lemma InvOf(cfg: Config, s: State)
    requires TablesOk(cfg, s) && ThreadsOk(cfg, s) && RemovalsOk(s) && PutsOk(s)
    ensures Inv(cfg, s)
  {
  }

  lemma RemovalMoves(cfg: Config, s: State, s': State, t: nat, thr: Thread)
    requires Inv(cfg, s) && Move(cfg.h, s, s', t, thr) && IsRemoval(thr)
    ensures RemovalsOk(s')
  {
    hide TablesOk, ThreadsOk, RemovalsOk, PutsOk, Quiescent, Moves;
    MovesToRemovable(cfg, s, s.threads[t], thr);
    RemovalsAfterMove(s, s', t, thr);
  }

  lemma MovesToRemovable(cfg: Config, s: State, from: Thread, to: Thread)
    requires Moves(cfg.h, s, from, to) && IsRemoval(to)
    ensures from.Removing? && to == Removable(from.m) && Quiescent(s, to.m.key, to.m.smtTxPath)
  {
    hide Quiescent, IncludedAt;
  }

  lemma RemovalsAfterMove(s: State, s': State, t: nat, thr: Thread)
    requires RemovalsOk(s) && t in s.threads && s.threads[t].Removing? && s' == s.(threads := s.threads[t := thr])
    requires thr == Removable(s.threads[t].m) && Quiescent(s, thr.m.key, thr.m.smtTxPath)
    ensures RemovalsOk(s')
  {
  }
}
