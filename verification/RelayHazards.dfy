/**
 Removals as the code runs them, whatever else is going on: what exactly can then be executed of the
 row removed.
 */
module RelayHazards {
  import opened SmtUpdate
  import opened PathSets
  import opened PolyTxs
  import opened PolyTxTable
  import opened Relay
  import opened RelayInvariant
  import opened RelayChainSteps
  import opened RelayInsertion
  import opened RelayRuns

  /** `RemovePolyTx` as the code runs it, whatever else is going on. */
  predicate RemovedAnyhow(s: State, s': State, m: PolyTx) {
    && m.status == ToBeRemoved
    && s' == s.(rows := Removed(s.rows, m.txIndex),
                removed := s.removed[s.nextRemovedId := ToRemovedPolyTx(m, s.nextRemovedId)],
                nextRemovedId := s.nextRemovedId + 1)
  }

  /** The removal of row `m` is about to be made: its root has been found to be Starcoin's. */
  ghost predicate AboutToRemove(cfg: Config, s: State, m: PolyTx) {
    Inv(cfg, s) && ThreadOk(cfg, s, Removing(m)) && m.root == s.starcoin.root
  }

  /** Something executed on Starcoin is no longer queued. */
  ghost predicate ExecutedUnqueued(s: State) {
    !(Elements(s.starcoin.log) <= PathSet(s.rows))
  }

  /** A submission of row `m`, with the root it has, waits on Starcoin. */
  predicate Waits(s: State, m: PolyTx, hash: string) {
    TxIs(s, hash, Pending) && s.starcoin.txs[hash].path == m.smtTxPath && s.starcoin.txs[hash].root == m.root
  }

  lemma RemovableToo(cfg: Config, s: State, m: PolyTx)
    requires AboutToRemove(cfg, s, m)
    ensures TablesOk(cfg, s) && ThreadOk(cfg, s, Removable(m))
  {
    hide RemovalOk, TablesOk, ThreadsOk, RemovalsOk, PutsOk;
  }

  lemma NotQueuedAnyMore(cfg: Config, s: State, s1: State, m: PolyTx)
    requires cfg.Valid() && AboutToRemove(cfg, s, m) && RemovedAnyhow(s, s1, m)
    ensures m.smtTxPath !in PathSet(s1.rows)
  {
    hide AboutToRemove, TablesOk, ThreadOk;
    RemovableToo(cfg, s, m);
    RemovableRowIsNext(cfg, s, m);
    OnePathOneRow(cfg, s, m.txIndex);
  }

  lemma OnePathOneRow(cfg: Config, s: State, i: nat)
    requires TablesOk(cfg, s) && i in s.rows
    ensures s.rows[i].smtTxPath !in PathSet(Removed(s.rows, i))
  {
    hide RootsOk, NodesOk, RemovedOk, ChainOk, TxsOk, ProcessedOk, Sound;
  }

  // ---------- a submission pending ----------

  /** What is executed next after the removal is a submission of the row removed. */
  lemma ExecutesRemoved(cfg: Config, s: State, s1: State, s2: State, m: PolyTx, hash: string)
    requires cfg.Valid() && AboutToRemove(cfg, s, m) && RemovedAnyhow(s, s1, m) && Execute(cfg.h, s1, s2, hash)
    ensures Waits(s, m, hash) && ExecutedUnqueued(s2)
  {
    hide AboutToRemove, TablesOk, ThreadOk, UpdatedRoot;
    RemovableToo(cfg, s, m);
    ExecutableIsRemovable(cfg, s, hash, m);
    RemovableRowIsNext(cfg, s, m);
    NotQueuedAnyMore(cfg, s, s1, m);
    assert s2.starcoin.log[|s.starcoin.log|] == m.smtTxPath;
  }

  lemma WaitingExecutes(cfg: Config, s: State, s1: State, m: PolyTx, hash: string) returns (s2: State)
    requires cfg.Valid() && AboutToRemove(cfg, s, m) && RemovedAnyhow(s, s1, m) && Waits(s, m, hash)
    ensures Execute(cfg.h, s1, s2, hash)
  {
    hide AboutToRemove, TablesOk, ThreadOk, UpdatedRoot;
    RemovableToo(cfg, s, m);
    RemovableRowIsNext(cfg, s, m);
    var i := ExecutableRow(cfg, s, hash);
    s2 := ExecuteRow(cfg, s1, hash);
  }

  /**
   When a row is removed whose root is Starcoin's, something can be executed next exactly if a
   submission of this row, with this root, is pending, and whatever is executed next is then no longer
   queued.
   */
  lemma PendingOutlivesRemoval(cfg: Config, s: State, s1: State, m: PolyTx)
    requires cfg.Valid() && AboutToRemove(cfg, s, m) && RemovedAnyhow(s, s1, m)
    ensures (exists hash, s2 :: Execute(cfg.h, s1, s2, hash)) <==> (exists hash :: Waits(s, m, hash))
    ensures forall hash, s2 :: Execute(cfg.h, s1, s2, hash) ==> ExecutedUnqueued(s2)
  {
    hide AboutToRemove, RemovedAnyhow, Execute, Waits, ExecutedUnqueued;
    forall hash, s2 | Execute(cfg.h, s1, s2, hash) ensures Waits(s, m, hash) && ExecutedUnqueued(s2) {
      ExecutesRemoved(cfg, s, s1, s2, m, hash);
    }
    if hash :| Waits(s, m, hash) {
      var s2 := WaitingExecutes(cfg, s, s1, m, hash);
    }
  }

  // ---------- a submission about to be made ----------

  /** Goroutine `t` submits what it holds and Starcoin executes it. */
  ghost predicate SentAndExecuted(cfg: Config, s: State, s2: State, s3: State, t: nat, hash: string) {
    Submit(s, s2, t, hash) && Execute(cfg.h, s2, s3, hash)
  }

  lemma SendsRemoved(cfg: Config, s: State, s1: State, s2: State, s3: State, m: PolyTx, t: nat, hash: string)
    requires cfg.Valid() && AboutToRemove(cfg, s, m) && RemovedAnyhow(s, s1, m)
    requires t in s.threads && s.threads[t].Queued? && s.threads[t].m.key == m.key
    requires SentAndExecuted(cfg, s1, s2, s3, t, hash)
    ensures s.threads[t].m.root == m.root && ExecutedUnqueued(s3)
  {
    hide AboutToRemove, Sound, SentAndExecuted;
    SentAsHeld(cfg, s1, s2, s3, t, hash);
    QueuedPath(cfg, s, m, t);
    NotQueuedAnyMore(cfg, s, s1, m);
    MatchesRoot(cfg, s, m);
  }

  lemma MatchesRoot(cfg: Config, s: State, m: PolyTx)
    requires AboutToRemove(cfg, s, m)
    ensures m.root == s.starcoin.root
  {
    hide Inv, ThreadOk;
  }

  lemma SentAsHeld(cfg: Config, s1: State, s2: State, s3: State, t: nat, hash: string)
    requires SentAndExecuted(cfg, s1, s2, s3, t, hash)
    ensures t in s1.threads && s1.threads[t].Queued? && s1.threads[t].m.root == s1.starcoin.root
    ensures s3.rows == s1.rows && s1.threads[t].m.smtTxPath in Elements(s3.starcoin.log)
  {
    hide UpdatedRoot;
    assert s3.starcoin.log[|s1.starcoin.log|] == s1.threads[t].m.smtTxPath;
  }

  lemma QueuedPath(cfg: Config, s: State, m: PolyTx, t: nat)
    requires AboutToRemove(cfg, s, m) && t in s.threads && s.threads[t].Queued? && s.threads[t].m.key == m.key
    ensures Sound(cfg, s, s.threads[t].m) && s.threads[t].m.smtTxPath == m.smtTxPath
  {
    hide TablesOk, ThreadsOk, RemovalsOk, PutsOk, Placed, RootProved, ProvesAbsent;
    HeldOk(cfg, s, t);
  }

  lemma QueuedExecutes(cfg: Config, s: State, s1: State, m: PolyTx, t: nat) returns (hash: string, s2: State, s3: State)
    requires cfg.Valid() && AboutToRemove(cfg, s, m) && RemovedAnyhow(s, s1, m)
    requires t in s.threads && s.threads[t].Queued? && s.threads[t].m.key == m.key && s.threads[t].m.root == m.root
    ensures SentAndExecuted(cfg, s1, s2, s3, t, hash)
  {
    hide AboutToRemove, TablesOk, ThreadOk, UpdatedRoot, Sound;
    var q := s.threads[t].m;
    RemovableToo(cfg, s, m);
    RemovableRowIsNext(cfg, s, m);
    QueuedPath(cfg, s, m, t);
    OwnProof(cfg, s, q);
    hash := UnusedHash(s.starcoin.txs.Keys);
    s2 := s1.(starcoin := Received(s.starcoin, hash, q), threads := s1.threads[t := Reading(RecordHash(q.key, hash))]);
    s3 := ExecuteRow(cfg, s2, hash);
  }

  lemma OwnProof(cfg: Config, s: State, q: PolyTx)
    requires Sound(cfg, s, q) && q.root != []
    ensures q.root in s.nodes && q.sideNodes.Some?
    ensures AbsenceProof(cfg.h, s.nodes[q.root], q.smtTxPath, q.sideNodes.value, q.leafData)
  {
    hide AbsenceProof, ProvesAbsent;
  }

  /**
   When a row is removed whose root is Starcoin's and a goroutine holds it, ready to be sent, what that
   goroutine submits can be executed exactly if it holds the row with this root, and is then no longer
   queued.
   */
  lemma QueuedOutlivesRemoval(cfg: Config, s: State, s1: State, m: PolyTx, t: nat)
    requires cfg.Valid() && AboutToRemove(cfg, s, m) && RemovedAnyhow(s, s1, m)
    requires t in s.threads && s.threads[t].Queued? && s.threads[t].m.key == m.key
    ensures (exists hash, s2, s3 :: SentAndExecuted(cfg, s1, s2, s3, t, hash)) <==> s.threads[t].m.root == m.root
    ensures forall hash, s2, s3 :: SentAndExecuted(cfg, s1, s2, s3, t, hash) ==> ExecutedUnqueued(s3)
  {
    hide AboutToRemove, RemovedAnyhow, SentAndExecuted, ExecutedUnqueued;
    forall hash, s2, s3 | SentAndExecuted(cfg, s1, s2, s3, t, hash)
      ensures s.threads[t].m.root == m.root && ExecutedUnqueued(s3)
    {
      SendsRemoved(cfg, s, s1, s2, s3, m, t, hash);
    }
    if s.threads[t].m.root == m.root {
      var hash, s2, s3 := QueuedExecutes(cfg, s, s1, m, t);
    }
  }

  // ---------- a goroutine that comes to hold the row ----------

  /** The goroutine gets from here to holding row `m`, with the root it has, ready to be sent. */
  predicate MayQueue(m: PolyTx, thr: Thread) {
    match thr
    case Deriving(held) => held.key == m.key && (held.root == m.root || (held.root == [] && held.txIndex == m.txIndex))
    case Refetching(held) => held.key == m.key
    case _ => false
  }

  /** Goroutine `u` is about to remove row `m`, and `t` holds it with its root, ready to be sent. */
  ghost predicate RemovedWhileQueued(cfg: Config, s: State, u: nat, m: PolyTx, t: nat) {
    && AboutToRemove(cfg, s, m) && u in s.threads && s.threads[u] == Removing(m)
    && t in s.threads && s.threads[t].Queued? && s.threads[t].m.key == m.key && s.threads[t].m.root == m.root
  }

  lemma HolderQueues(cfg: Config, s: State, u: nat, m: PolyTx, t: nat) returns (s': State)
    requires cfg.Valid() && AboutToRemove(cfg, s, m) && u in s.threads && s.threads[u] == Removing(m)
    requires t in s.threads && MayQueue(m, s.threads[t])
    ensures Reaches(cfg, s, s') && RemovedWhileQueued(cfg, s', u, m, t)
  {
    hide Inv, TablesOk, ThreadOk, Reaches;
    RemovableToo(cfg, s, m);
    RemovableRowIsNext(cfg, s, m);
    match s.threads[t]
    case Deriving(held) =>
      if held.root == [] {
        RootsBefore(cfg, s, m.txIndex);
        var s1 := DeriveClaimed(cfg, s, t, held);
        RemovalStays(cfg, s1, u, m);
        s' := RefetchQueues(cfg, s1, u, m, t);
        ReachesOn(cfg, s, s1, s');
      } else {
        TakeUpRow(cfg, s, t, held);
        s' := s.(threads := s.threads[t := Queued(held)]);
        ReachesOk(cfg, s, s');
        RemovalStays(cfg, s', u, m);
      }
    case Refetching(held) =>
      s' := RefetchQueues(cfg, s, u, m, t);
  }

  lemma RemovalStays(cfg: Config, s: State, u: nat, m: PolyTx)
    requires Inv(cfg, s) && u in s.threads && s.threads[u] == Removing(m) && m.root == s.starcoin.root
    ensures AboutToRemove(cfg, s, m)
  {
    hide ThreadOk;
    HeldOk(cfg, s, u);
  }

  lemma RootsBefore(cfg: Config, s: State, i: nat)
    requires TablesOk(cfg, s) && i in s.rows && s.rows[i].root != []
    ensures forall j :: j in s.rows && j < i ==> s.rows[j].root != []
    ensures CanBuild(cfg, Before(s.rows, i), s.rows[i].smtTxPath)
  {
    hide RowsOk, NodesOk, RemovedOk, ChainOk, TxsOk, ProcessedOk, AbsenceProof, Before;
    RowProof(cfg, s, i);
    NodeRoot(cfg, s, s.rows[i].root);
  }

  lemma RefetchQueues(cfg: Config, s: State, u: nat, m: PolyTx, t: nat) returns (s': State)
    requires cfg.Valid() && AboutToRemove(cfg, s, m) && u in s.threads && s.threads[u] == Removing(m)
    requires t in s.threads && s.threads[t].Refetching? && s.threads[t].m.key == m.key
    ensures Reaches(cfg, s, s') && RemovedWhileQueued(cfg, s', u, m, t)
  {
    hide Inv, TablesOk, ThreadOk, Reaches;
    RemovableToo(cfg, s, m);
    RemovableRowIsNext(cfg, s, m);
    RefetchRow(cfg, s, t, s.threads[t].m, m.txIndex);
    s' := s.(threads := s.threads[t := Queued(s.rows[m.txIndex])]);
    ReachesOk(cfg, s, s');
    RemovalStays(cfg, s', u, m);
  }

  /**
   A goroutine that has claimed the row, or has derived its proof and is to read it again, gets on to
   hold it with its root; removed then, the row can still be submitted and executed.
   */
  lemma HolderOutlivesRemoval(cfg: Config, s: State, u: nat, m: PolyTx, t: nat)
    requires cfg.Valid() && AboutToRemove(cfg, s, m) && u in s.threads && s.threads[u] == Removing(m)
    requires t in s.threads && MayQueue(m, s.threads[t])
    ensures exists s', s1, s2, s3, hash ::
      && Reaches(cfg, s, s') && AboutToRemove(cfg, s', m) && RemovedAnyhow(s', s1, m)
      && SentAndExecuted(cfg, s1, s2, s3, t, hash) && ExecutedUnqueued(s3)
  {
    hide AboutToRemove, Reaches, SentAndExecuted, ExecutedUnqueued, Removed;
    var s' := HolderQueues(cfg, s, u, m, t);
    MarkedForRemoval(cfg, s', m);
    var s1 := s'.(rows := Removed(s'.rows, m.txIndex),
                  removed := s'.removed[s'.nextRemovedId := ToRemovedPolyTx(m, s'.nextRemovedId)],
                  nextRemovedId := s'.nextRemovedId + 1);
    var hash, s2, s3 := QueuedExecutes(cfg, s', s1, m, t);
    SendsRemoved(cfg, s', s1, s2, s3, m, t, hash);
  }

  lemma MarkedForRemoval(cfg: Config, s: State, m: PolyTx)
    requires AboutToRemove(cfg, s, m)
    ensures m.status == ToBeRemoved
  {
    hide Inv, Sound;
  }
}
