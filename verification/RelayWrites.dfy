/**
 What the conditional updates leave in the rows, in every run and whatever the digest does: the Starcoin
 hashes they carry are those of submissions of the row's own path.
 */
module RelayWrites {
  import opened Wrappers
  import opened SparseMerkle
  import opened SmtUpdate
  import opened PathSets
  import opened PolyTxs
  import opened PolyTxTable
  import opened Relay
  import opened RelayLedger
  import opened RelayUpdates

  // ---------- hashes ----------

  /** A submission of the transaction with this key. */
  ghost predicate Carries(h: Hasher, s: State, hash: string, key: Key) {
    hash in s.starcoin.txs && s.starcoin.txs[hash].path == PathOf(h, key)
  }

  /** A row, wherever it is held: the path is that of its key, and so is what its hash submits. */
  ghost predicate Truthful(h: Hasher, s: State, m: PolyTx) {
    m.smtTxPath == PathOf(h, m.key) && (m.starcoinTxHash != "" ==> Carries(h, s, m.starcoinTxHash, m.key))
  }

  /** The submission was executed, or it was rejected and the row was found to be on the chain all the same. */
  ghost predicate Settles(h: Hasher, s: State, op: Op)
    requires op.MarkProcessed?
  {
    && Carries(h, s, op.starcoinTxHash, op.key)
    && (TxIs(s, op.starcoinTxHash, Executed)
        || (TxIs(s, op.starcoinTxHash, Rejected) && op.oldStatus in {TimedOut, Failed}))
  }

  ghost predicate OpTruthful(h: Hasher, s: State, op: Op) {
    match op
    case Claim(m) => Truthful(h, s, m)
    case RecordHash(key, hash) => hash != "" && Carries(h, s, hash, key)
    case MarkProcessed(_, _, _) => Settles(h, s, op)
    case MarkStatus(_, _, newStatus) => newStatus in {Failed, TimedOut, UnknownError}
  }

  ghost predicate ThreadTruthful(h: Hasher, s: State, thr: Thread) {
    match thr
    case Reading(op) => OpTruthful(h, s, op)
    case Writing(op, px) => OpTruthful(h, s, op)
    case Checking(m, _) => Truthful(h, s, m)
    case Deriving(m) => Truthful(h, s, m)
    case Refetching(m) => Truthful(h, s, m)
    case Queued(m) => Truthful(h, s, m)
    case Waiting(key, hash) => hash != "" && Carries(h, s, hash, key)
    case Sweeping(_) => true
    case Listed(m) => Truthful(h, s, m) && m.status in {TimedOut, Failed}
    case Matching(m, _) => Truthful(h, s, m) && m.status in {TimedOut, Failed}
    case Removing(m) => Truthful(h, s, m)
    case Removable(m) => Truthful(h, s, m)
    case Inserting(row, _) => Truthful(h, s, row)
    case PushedBack(_) => true
  }

  ghost predicate RowsTruthful(h: Hasher, s: State) {
    && (forall i :: i in s.rows ==> Truthful(h, s, s.rows[i]))
    && (forall id :: id in s.removed ==> Truthful(h, s, ToPolyTx(s.removed[id])))
  }

  ghost predicate Hashes(h: Hasher, s: State) {
    RowsTruthful(h, s) && forall t :: t in s.threads ==> ThreadTruthful(h, s, s.threads[t])
  }

  /** Submissions stay, and so does what became of them. */
  ghost predicate TxsStay(s: State, s': State) {
    forall x :: x in s.starcoin.txs ==>
      && x in s'.starcoin.txs && s'.starcoin.txs[x].path == s.starcoin.txs[x].path
      && (s.starcoin.txs[x].state == Pending || s'.starcoin.txs[x].state == s.starcoin.txs[x].state)
  }

  lemma ThreadStaysTruthful(h: Hasher, s: State, s': State, thr: Thread)
    requires TxsStay(s, s') && ThreadTruthful(h, s, thr)
    ensures ThreadTruthful(h, s', thr)
  {
  }

  /** Rows have the keys, paths and hashes they had, apart from those that have a truthful one now. */
  lemma KeepsHashes(h: Hasher, s: State, s': State, t: nat)
    requires Hashes(h, s) && TxsStay(s, s') && RowsTruthful(h, s')
    requires forall u :: u in s'.threads && u != t ==> u in s.threads && s'.threads[u] == s.threads[u]
    requires t in s'.threads ==> ThreadTruthful(h, s', s'.threads[t])
    ensures Hashes(h, s')
  {
    hide TxsStay, ThreadTruthful, RowsTruthful;
    forall u | u in s'.threads ensures ThreadTruthful(h, s', s'.threads[u]) {
      if u != t {
        ThreadStaysTruthful(h, s, s', s.threads[u]);
      }
    }
  }

  /** Each row comes from one that was there, with the same key, path and hash. */
  ghost predicate SameHashes(s: State, s': State) {
    && (forall i :: i in s'.rows ==>
         && i in s.rows && s'.rows[i].key == s.rows[i].key && s'.rows[i].smtTxPath == s.rows[i].smtTxPath
         && s'.rows[i].starcoinTxHash == s.rows[i].starcoinTxHash)
    && (forall id :: id in s'.removed ==>
         && id in s.removed && s'.removed[id].key == s.removed[id].key
         && s'.removed[id].smtTxPath == s.removed[id].smtTxPath
         && s'.removed[id].starcoinTxHash == s.removed[id].starcoinTxHash)
  }

  lemma RowsStayTruthful(h: Hasher, s: State, s': State)
    requires RowsTruthful(h, s) && TxsStay(s, s') && SameHashes(s, s')
    ensures RowsTruthful(h, s')
  {
    forall i | i in s'.rows ensures Truthful(h, s', s'.rows[i]) {
      assert Truthful(h, s, s.rows[i]);
    }
    forall id | id in s'.removed ensures Truthful(h, s', ToPolyTx(s'.removed[id])) {
      assert Truthful(h, s, ToPolyTx(s.removed[id]));
    }
  }

  lemma Undisturbed(h: Hasher, s: State, s': State, t: nat)
    requires Hashes(h, s) && TxsStay(s, s') && SameHashes(s, s')
    requires forall u :: u in s'.threads && u != t ==> u in s.threads && s'.threads[u] == s.threads[u]
    requires t in s'.threads ==> ThreadTruthful(h, s', s'.threads[t])
    ensures Hashes(h, s')
  {
    RowsStayTruthful(h, s, s');
    hide TxsStay, SameHashes, ThreadTruthful, RowsTruthful;
    KeepsHashes(h, s, s', t);
  }

  // ---------- goroutines ----------

  lemma MovedTruthful(h: Hasher, s: State, from: Thread, to: Thread)
    requires RowsTruthful(h, s) && ThreadTruthful(h, s, from) && Moves(h, s, from, to)
    ensures ThreadTruthful(h, s, to)
  {
    hide Quiescent, InclusionRootOf, PathOf;
  }

  lemma PickedTruthful(h: Hasher, s: State, i: nat, thr: Thread)
    requires RowsTruthful(h, s) && Picked(s, i, thr)
    ensures ThreadTruthful(h, s, thr)
  {
    hide LastIndex, PathOf;
  }

  lemma PreparedTruthful(h: Hasher, s: State, s': State, n: nat, tx: PolyTx, origin: Option<nat>)
    requires Hashes(h, s) && Prepare(h, s, s', n, tx, origin) && Truthful(h, s, tx)
    ensures Hashes(h, s')
  {
    hide LastRow, LastIndex, WithProof, Base, Importable, AllPaths, NodesAfterPut, PathOf, Hashes;
    NewRowTruthful(h, s, tx);
    assert s'.rows == s.rows && s'.removed == s.removed && s'.starcoin == s.starcoin;
    ThreadStaysTruthful(h, s, s', s'.threads[n]);
    hide NewRow;
    Undisturbed(h, s, s', n);
  }

  lemma NewRowTruthful(h: Hasher, s: State, tx: PolyTx)
    requires |tx.smtTxPath| == h.size && AllPaths(h, Base(s.nodes, LastRow(s.rows))) && Truthful(h, s, tx)
    ensures Truthful(h, s, NewRow(h, s.rows, s.nodes, tx))
  {
    hide LastRow, LastIndex, Base;
  }

  lemma PutTruthful(h: Hasher, s: State, s': State, n: nat, key: Key, payload: string)
    requires Hashes(h, s) && Put(h, s, s', n, key, payload)
    ensures Hashes(h, s')
  {
    hide Prepare, Hashes;
    PreparedTruthful(h, s, s', n, NewPolyTx(h, key, payload), None);
  }

  lemma PushBackTruthful(h: Hasher, s: State, s': State, n: nat, id: nat)
    requires Hashes(h, s) && PushBack(h, s, s', n, id)
    ensures Hashes(h, s')
  {
    hide Prepare, ThreadTruthful, PathOf;
    PreparedTruthful(h, s, s', n, ToPolyTx(s.removed[id]), Some(id));
  }

  lemma InsertTruthful(h: Hasher, s: State, s': State, t: nat)
    requires Hashes(h, s) && InsertAnyhow(s, s', t)
    ensures Hashes(h, s')
  {
    assert ThreadTruthful(h, s, s.threads[t]);
    assert TxsStay(s, s');
    assert RowsTruthful(h, s') by {
      InsertedTruthful(h, s, s', t);
    }
    assert t in s'.threads ==> ThreadTruthful(h, s', s'.threads[t]);
    hide Hashes, ThreadTruthful, RowsTruthful, TxsStay, Duplicate;
    KeepsHashes(h, s, s', t);
  }

  lemma InsertedTruthful(h: Hasher, s: State, s': State, t: nat)
    requires RowsTruthful(h, s) && InsertAnyhow(s, s', t) && ThreadTruthful(h, s, s.threads[t])
    ensures RowsTruthful(h, s')
  {
    hide Duplicate, PathOf;
  }

  lemma WriteTruthful(h: Hasher, s: State, s': State, t: nat)
    requires Ledger(s) && Hashes(h, s) && Write(s, s', t)
    ensures Hashes(h, s')
  {
    assert ThreadTruthful(h, s, s.threads[t]) && ThreadFits(s, s.threads[t]);
    WrittenTruthful(h, s, s', t);
    assert t in s'.threads ==> ThreadTruthful(h, s', s'.threads[t]);
    assert TxsStay(s, s');
    hide Ledger, Hashes, ThreadTruthful, RowsTruthful, TxsStay, ThreadFits, OptimisticUpdate, Affects;
    KeepsHashes(h, s, s', t);
  }

  lemma WrittenTruthful(h: Hasher, s: State, s': State, t: nat)
    requires RowsTruthful(h, s) && Write(s, s', t)
    requires ThreadTruthful(h, s, s.threads[t]) && ThreadFits(s, s.threads[t])
    ensures RowsTruthful(h, s')
  {
    hide PathOf, Affects, AfterWrite;
    var Writing(op, px) := s.threads[t];
    forall i | i in s'.rows ensures Truthful(h, s', s'.rows[i]) {
      assert Truthful(h, s, s.rows[i]);
    }
    forall id | id in s'.removed ensures Truthful(h, s', ToPolyTx(s'.removed[id])) {
      assert Truthful(h, s, ToPolyTx(s.removed[id]));
    }
  }

  lemma DeriveTruthful(h: Hasher, s: State, s': State, t: nat)
    requires Hashes(h, s) && Derive(h, s, s', t)
    ensures Hashes(h, s')
  {
    assert ThreadTruthful(h, s, s.threads[t]);
    assert SameHashes(s, s') by {
      DerivedSame(h, s, s', t);
    }
    ThreadStaysTruthful(h, s, s', s'.threads[t]);
    hide Hashes, ThreadTruthful, SameHashes, WithProof, WithVersion, Previous, Base, AllPaths;
    Undisturbed(h, s, s', t);
  }

  lemma DerivedSame(h: Hasher, s: State, s': State, t: nat)
    requires Derive(h, s, s', t)
    ensures SameHashes(s, s')
  {
    hide SetRoot, Base, AllPaths, Previous, WithVersion;
  }

  lemma SubmitTruthful(h: Hasher, s: State, s': State, t: nat, hash: string)
    requires Hashes(h, s) && Submit(s, s', t, hash)
    ensures Hashes(h, s')
  {
    assert ThreadTruthful(h, s, s.threads[t]);
    assert TxsStay(s, s') && SameHashes(s, s');
    assert ThreadTruthful(h, s', s'.threads[t]);
    hide Hashes, ThreadTruthful, SameHashes, TxsStay;
    Undisturbed(h, s, s', t);
  }

  lemma RemoveTruthful(h: Hasher, s: State, s': State, t: nat)
    requires Hashes(h, s) && TakeOut(s, s', t)
    ensures Hashes(h, s')
  {
    assert ThreadTruthful(h, s, s.threads[t]);
    TakenTruthful(h, s, s', t);
    assert TxsStay(s, s');
    hide Hashes, ThreadTruthful, RowsTruthful, TxsStay;
    KeepsHashes(h, s, s', t);
  }

  lemma TakenTruthful(h: Hasher, s: State, s': State, t: nat)
    requires RowsTruthful(h, s) && TakeOut(s, s', t) && ThreadTruthful(h, s, s.threads[t])
    ensures RowsTruthful(h, s')
  {
    hide PathOf;
  }

  lemma SpawnTruthful(h: Hasher, s: State, s': State, n: nat, thr: Thread)
    requires Hashes(h, s) && Spawn(s, s', n, thr)
    ensures Hashes(h, s')
  {
    hide Picked, RowsTruthful, ThreadTruthful;
    var i :| Picked(s, i, thr);
    PickedTruthful(h, s, i, thr);
    ThreadStaysTruthful(h, s, s', thr);
    hide Hashes;
    Undisturbed(h, s, s', n);
  }

  lemma MoveTruthful(h: Hasher, s: State, s': State, t: nat, thr: Thread)
    requires Hashes(h, s) && Move(h, s, s', t, thr)
    ensures Hashes(h, s')
  {
    hide Moves, RowsTruthful, ThreadTruthful;
    MovedTruthful(h, s, s.threads[t], thr);
    ThreadStaysTruthful(h, s, s', thr);
    hide Hashes;
    Undisturbed(h, s, s', t);
  }

  lemma SweepTruthful(h: Hasher, s: State, s': State, t: nat, targets: set<nat>)
    requires Hashes(h, s) && Sweep(s, s', t, targets)
    ensures Hashes(h, s')
  {
    assert SameHashes(s, s');
    hide Hashes, SameHashes, Swept, Sweepable;
    Undisturbed(h, s, s', t);
  }

  /** Nothing but marks, removed rows, Starcoin or the clock changes, or a goroutine ends. */
  lemma LittleTruthful(h: Hasher, s: State, s': State, t: nat)
    requires Hashes(h, s) && TxsStay(s, s') && SameHashes(s, s') && s'.threads == s.threads - {t}
    ensures Hashes(h, s')
  {
    hide Hashes, TxsStay, SameHashes, ThreadTruthful;
    Undisturbed(h, s, s', t);
  }

  lemma SameThreadsTruthful(h: Hasher, s: State, s': State)
    requires Hashes(h, s) && TxsStay(s, s') && SameHashes(s, s') && s'.threads == s.threads
    ensures Hashes(h, s')
  {
    RowsStayTruthful(h, s, s');
    hide TxsStay, SameHashes, ThreadTruthful, RowsTruthful;
    forall u | u in s'.threads ensures ThreadTruthful(h, s', s'.threads[u]) {
      ThreadStaysTruthful(h, s, s', s.threads[u]);
    }
  }

  lemma FinishTruthful(h: Hasher, s: State, s': State, t: nat)
    requires Hashes(h, s) && Finish(s, s', t)
    ensures Hashes(h, s')
  {
    hide Hashes;
    LittleTruthful(h, s, s', t);
  }

  lemma DeleteTruthful(h: Hasher, s: State, s': State, t: nat)
    requires Hashes(h, s) && DeleteRemoved(s, s', t)
    ensures Hashes(h, s')
  {
    hide Hashes;
    LittleTruthful(h, s, s', t);
  }

  lemma MarkTruthful(h: Hasher, s: State, s': State, i: nat)
    requires Hashes(h, s) && MarkForRemoval(s, s', i)
    ensures Hashes(h, s')
  {
    hide Hashes;
    SameThreadsTruthful(h, s, s');
  }

  lemma ReturnTruthful(h: Hasher, s: State, s': State, id: nat)
    requires Hashes(h, s) && MarkForReturn(s, s', id)
    ensures Hashes(h, s')
  {
    hide Hashes;
    SameThreadsTruthful(h, s, s');
  }

  lemma ExecuteTruthful(h: Hasher, s: State, s': State, hash: string)
    requires Hashes(h, s) && Execute(h, s, s', hash)
    ensures Hashes(h, s')
  {
    hide Hashes, UpdatedRoot;
    SameThreadsTruthful(h, s, s');
  }

  lemma RejectTruthful(h: Hasher, s: State, s': State, hash: string)
    requires Hashes(h, s) && Reject(s, s', hash)
    ensures Hashes(h, s')
  {
    hide Hashes;
    SameThreadsTruthful(h, s, s');
  }

  lemma TickTruthful(h: Hasher, s: State, s': State, millis: nat)
    requires Hashes(h, s) && Tick(s, s', millis)
    ensures Hashes(h, s')
  {
    hide Hashes;
    SameThreadsTruthful(h, s, s');
  }

  /** Every step keeps the hashes truthful, whatever the digest does. */
  lemma HashesStep(h: Hasher, s: State, a: Action, s': State)
    requires Ledger(s) && Hashes(h, s) && Step(h, s, a, s')
    ensures Hashes(h, s')
  {
    hide Ledger, Hashes, Prepare, InsertAnyhow, Fits, Spawn, Move, Write, Derive, Submit, Sweep, TakeOut, PutsBehind;
    hide PushBack, ThreadTruthful, Put, Finish, DeleteRemoved, MarkForRemoval, MarkForReturn, Execute, Reject, Tick;
    match a
    case APut(n, key, payload) => PutTruthful(h, s, s', n, key, payload);
    case AInsert(t) => InsertTruthful(h, s, s', t);
    case ASpawn(n, thr) => SpawnTruthful(h, s, s', n, thr);
    case AMove(t, thr) => MoveTruthful(h, s, s', t, thr);
    case AFinish(t) => FinishTruthful(h, s, s', t);
    case AWrite(t) => WriteTruthful(h, s, s', t);
    case ADerive(t) => DeriveTruthful(h, s, s', t);
    case ASubmit(t, hash) => SubmitTruthful(h, s, s', t, hash);
    case ASweep(t, targets) => SweepTruthful(h, s, s', t, targets);
    case ARemove(t) => RemoveTruthful(h, s, s', t);
    case APushBack(n, id) => PushBackTruthful(h, s, s', n, id);
    case ADeleteRemoved(t) => DeleteTruthful(h, s, s', t);
    case AMarkForRemoval(i) => MarkTruthful(h, s, s', i);
    case AMarkForReturn(id) => ReturnTruthful(h, s, s', id);
    case AExecute(hash) => ExecuteTruthful(h, s, s', hash);
    case AReject(hash) => RejectTruthful(h, s, s', hash);
    case ATick(millis) => TickTruthful(h, s, s', millis);
  }

  lemma {:induction false} HashesOk(h: Hasher, states: seq<State>, actions: seq<Action>, k: nat)
    requires AnyRun(h, states, actions) && k < |states|
    ensures Hashes(h, states[k])
  {
    hide Step;
    if k > 0 {
      hide Hashes, Ledger;
      HashesOk(h, states, actions, k - 1);
      LedgerOk(h, states, actions, k - 1);
      assert Step(h, states[k - 1], actions[k - 1], states[k - 1 + 1]);
      HashesStep(h, states[k - 1], actions[k - 1], states[k]);
    }
  }

  // ---------- what a write leaves ----------

  /** The row, and where the goroutine stands, after an update that took effect. */
  ghost predicate Leaves(h: Hasher, s: State, s': State, t: nat, op: Op, row: PolyTx, row': PolyTx) {
    match op
    case Claim(m) =>
      && row.status == m.status && row.status !in {Processed, Confirmed, ToBeRemoved}
      && row' == row.(status := Processing, starcoinTxHash := "", retryCount := row.retryCount + 1,
                      updatedAt := s.clock + 1)
      && t in s'.threads && s'.threads[t] == Deriving(m)
    case RecordHash(key, hash) =>
      && row.status == Processing && hash != "" && Carries(h, s, hash, row.key)
      && row' == row.(starcoinTxHash := hash, updatedAt := s.clock + 1)
      && t in s'.threads && s'.threads[t] == Waiting(key, hash)
    case MarkProcessed(_, oldStatus, hash) =>
      && row.status == oldStatus && Carries(h, s, hash, row.key)
      && (TxIs(s, hash, Executed) || (TxIs(s, hash, Rejected) && row.status in {TimedOut, Failed}))
      && row' == row.(status := Processed, starcoinTxHash := hash, updatedAt := s.clock + 1)
      && t in s'.threads && s'.threads[t] == Sweeping(row.txIndex)
    case MarkStatus(_, oldStatus, newStatus) =>
      && row.status == oldStatus && newStatus in {Failed, TimedOut, UnknownError}
      && row' == row.(status := newStatus, updatedAt := s.clock + 1)
      && t !in s'.threads
  }

  lemma WriteLeaves(h: Hasher, s: State, s': State, t: nat, i: nat)
    requires Ledger(s) && Hashes(h, s) && AboutToApply(s, t, i) && Write(s, s', t)
    ensures i in s'.rows && s.rows[i].key == s.threads[t].op.KeyOf() && s'.rows == s.rows[i := s'.rows[i]]
    ensures Leaves(h, s, s', t, s.threads[t].op, s.rows[i], s'.rows[i])
  {
    assert ThreadTruthful(h, s, s.threads[t]) && ThreadFits(s, s.threads[t]);
    OneRowWritten(s, s', t, i);
    hide Ledger, Hashes, OptimisticUpdate, PathOf;
  }

  lemma OneRowWritten(s: State, s': State, t: nat, i: nat)
    requires Ledger(s) && AboutToApply(s, t, i) && Write(s, s', t)
    ensures var Writing(op, px) := s.threads[t];
      && i in s'.rows && s'.rows == s.rows[i := s'.rows[i]] && Affects(s.rows, px, op.Expected())
      && s'.rows[i] == Patch(s.rows[i], op.Update(), s.rows[i].retryCount + 1, s.clock + 1)
      && px.txIndex == i
  {
    assert ThreadFits(s, s.threads[t]);
  }

  /**
   In every run, whatever update takes effect: one row is rewritten, and how. A row becomes processed with the
   hash of a submission of its own path that was executed, or of a rejected one after a matching root; a hash
   recorded is that of a submission of the path; a claim counts as one more try.
   */
  lemma AppliedWrite(h: Hasher, states: seq<State>, actions: seq<Action>, k: nat, i: nat)
    requires AnyRun(h, states, actions) && k < |actions| && actions[k].AWrite?
    requires AboutToApply(states[k], actions[k].t, i)
    ensures var s, s', t := states[k], states[k + 1], actions[k].t;
      && i in s'.rows && s.rows[i].key == s.threads[t].op.KeyOf() && s'.rows == s.rows[i := s'.rows[i]]
      && Leaves(h, s, s', t, s.threads[t].op, s.rows[i], s'.rows[i])
  {
    hide Ledger, Hashes, AboutToApply, Write, Leaves;
    LedgerAround(h, states, actions, k);
    HashesOk(h, states, actions, k);
    WriteLeaves(h, states[k], states[k + 1], actions[k].t, i);
  }

  /**
   In every run, an update that finds its row changed leaves all rows as they are. The goroutine ends, unless it was
   to mark the row processed: then it goes on to sweep all the same.
   */
  lemma FailedWrite(h: Hasher, states: seq<State>, actions: seq<Action>, k: nat, t: nat)
    requires AnyRun(h, states, actions) && k < |actions| && actions[k] == AWrite(t)
    requires forall i :: i in states[k].rows ==> !AboutToApply(states[k], t, i)
    ensures var s, s' := states[k], states[k + 1];
      && s'.rows == s.rows && t in s.threads && s.threads[t].Writing?
      && s'.threads == if s.threads[t].op.MarkProcessed? then s.threads[t := Sweeping(s.threads[t].px.txIndex)]
                       else s.threads - {t}
  {
    assert Step(h, states[k], actions[k], states[k + 1]);
    hide Patch, Unchanged;
  }

  // ---------- from claim to submission ----------

  /** Goroutine `t` takes a step of its own or ends. */
  lemma OwnStep(h: Hasher, s: State, a: Action, s': State, t: nat)
    requires Step(h, s, a, s') && t in s.threads && t in s'.threads && s'.threads[t] != s.threads[t]
    requires s.threads[t].Deriving? || s.threads[t].Refetching?
    ensures (a.AMove? && a.t == t) || a == ADerive(t)
  {
    hide SetRoot, Quiescent, Moves, Picked, AllPaths, Fits, PutsBehind, NewRow, NodesAfterPut, WithVersion, Sweepable;
    hide OptimisticUpdate, Swept, Removed, WithProof, Duplicate, AfterInsert, ToRemovedPolyTx, UpdatedRoot, Readable;
  }

  /**
   In every run, a row claimed without a root is not sent before its proof has been derived against the row now
   before it and the row has been read again; a row claimed with a root is sent as it was claimed.
   */
  lemma ClaimedGoesOn(h: Hasher, states: seq<State>, actions: seq<Action>, k: nat, t: nat)
    requires AnyRun(h, states, actions) && k < |actions| && t in states[k].threads && t in states[k + 1].threads
    requires states[k + 1].threads[t] != states[k].threads[t]
    ensures var s, s', from, to := states[k], states[k + 1], states[k].threads[t], states[k + 1].threads[t];
      && (from.Deriving? && from.m.root != [] ==> to == Queued(from.m))
      && (from.Deriving? && from.m.root == [] ==>
           && to == Refetching(from.m) && from.m.txIndex in s.rows
           && var i, pre := from.m.txIndex, Previous(s.rows, from.m.txIndex);
             && Importable(s.nodes, pre) && AllPaths(h, Base(s.nodes, pre)) && |s.rows[i].smtTxPath| == h.size
             && s'.rows == s.rows[i := WithProof(h, s.nodes, s.rows[i], pre).(updatedAt := s.clock + 1)])
      && (from.Refetching? ==> exists i :: i in s.rows && s.rows[i].key == from.m.key && to == Queued(s.rows[i]))
  {
    var s, a, s' := states[k], actions[k], states[k + 1];
    assert Step(h, s, a, s');
    hide Previous, WithProof, WithVersion, Base, AllPaths, Quiescent, AfterCheck, IncludedAt;
    if s.threads[t].Deriving? || s.threads[t].Refetching? {
      OwnStep(h, s, a, s', t);
    }
  }

  // ---------- sweeps ----------

  /** A sweep may mark any ten rows among the fifty before its index that are not settled, and only those. */
  lemma SweepExactly(s: State, t: nat, targets: set<nat>)
    requires t in s.threads && s.threads[t].Sweeping?
    ensures (exists s' :: Sweep(s, s', t, targets)) <==>
      && |targets| <= 10
      && forall i :: i in targets ==> var index := s.threads[t].index;
           && i in s.rows && 1 <= i < index <= i + 50 && s.rows[i].status in {Processing, Failed, TimedOut}
    ensures forall s' :: Sweep(s, s', t, targets) ==>
      && s'.rows.Keys == s.rows.Keys && t !in s'.threads
      && forall i :: i in s.rows ==>
          s'.rows[i] == if i in targets then s.rows[i].(status := Processed, updatedAt := s.clock + 1) else s.rows[i]
  {
    var s1 := s.(rows := Swept(s.rows, targets, s.clock + 1), clock := s.clock + 1, threads := s.threads - {t});
    assert (forall i :: i in targets ==> Sweepable(s.rows, s.threads[t].index, i)) && |targets| <= SWEEP_LIMIT
      <==> Sweep(s, s1, t, targets);
  }

  /** In every state of every run, a hash in a row is that of a submission of the row's own path. */
  lemma RecordedHashes(h: Hasher, states: seq<State>, actions: seq<Action>, k: nat, i: nat)
    requires AnyRun(h, states, actions) && k < |states| && i in states[k].rows
    ensures var row := states[k].rows[i];
      && row.smtTxPath == PathOf(h, row.key)
      && (row.starcoinTxHash != "" ==> Carries(h, states[k], row.starcoinTxHash, row.key))
  {
    hide ThreadTruthful;
    HashesOk(h, states, actions, k);
  }
}
