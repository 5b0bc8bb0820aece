/**
 What holds of rows, stamps, keys and goroutines in every run, whatever the digest does: nothing here
 looks at a root, a proof or Starcoin.
 */
module RelayLedger {
  import opened Wrappers
  import opened SparseMerkle
  import opened SmtUpdate
  import opened PathSets
  import opened PolyTxs
  import opened PolyTxTable
  import opened Relay

  /** Statuses no update is conditional on. */
  predicate Settled(status: Status) {
    status in {Processed, Confirmed, ToBeRemoved}
  }

  /** What was read is old: a row with the same stamp has not been written since, save by the operator. */
  ghost predicate ReadBefore(s: State, op: Op, px: PolyTx) {
    && px.key == op.KeyOf() && 0 < px.updatedAt <= s.clock
    && (forall i :: i in s.rows && s.rows[i].key == px.key && s.rows[i].updatedAt == px.updatedAt ==>
          && px.txIndex == i
          && s.rows[i].starcoinTxHash == px.starcoinTxHash && s.rows[i].retryCount == px.retryCount
          && s.rows[i].status in {px.status, ToBeRemoved})
    && (op.Claim? && px.status == Processing && px.starcoinTxHash == "" ==>
       px.updatedAt + MAX_PROCESSING_MILLIS < s.clock)
  }

  /** The row is still where it was picked, with the operator's mark. */
  ghost predicate StillMarked(s: State, m: PolyTx) {
    && m.txIndex in s.rows && s.rows[m.txIndex].key == m.key
    && m.status == ToBeRemoved && s.rows[m.txIndex].status == ToBeRemoved
  }

  /** A row put back has the key of the removed row it came from, if that is still there. */
  ghost predicate ComesFrom(s: State, row: PolyTx, origin: Option<nat>) {
    && (origin.Some? ==> origin.value < s.nextRemovedId)
    && (origin.Some? && origin.value in s.removed ==> s.removed[origin.value].key == row.key)
  }

  /** The removed row has been put back into the queue. */
  ghost predicate BackInQueue(s: State, id: nat) {
    id < s.nextRemovedId && (id in s.removed ==> s.removed[id].key in Keys(s.rows))
  }

  ghost predicate OneRemoval(s: State) {
    forall t, u :: t in s.threads && u in s.threads && IsRemoval(s.threads[t]) && IsRemoval(s.threads[u]) ==> t == u
  }

  ghost predicate ThreadFits(s: State, thr: Thread) {
    match thr
    case Reading(op) => !Settled(op.Expected())
    case Writing(op, px) => !Settled(op.Expected()) && ReadBefore(s, op, px)
    case Checking(m, _) => !Settled(m.status)
    case Listed(m) => !Settled(m.status)
    case Matching(m, _) => !Settled(m.status)
    case Removing(m) => StillMarked(s, m)
    case Removable(m) => StillMarked(s, m)
    case Inserting(row, origin) => row.status == Created && ComesFrom(s, row, origin)
    case PushedBack(id) => BackInQueue(s, id)
    case _ => true
  }

  ghost predicate KeysApart(rows: Rows) {
    forall i, j :: i in rows && j in rows && rows[i].key == rows[j].key ==> i == j
  }

  ghost predicate RowsListed(s: State) {
    && (forall i :: i in s.rows ==> s.rows[i].txIndex == i && 0 < s.rows[i].updatedAt <= s.clock)
    && KeysApart(s.rows)
  }

  ghost predicate RemovedListed(s: State) {
    && (forall id :: id in s.removed ==> id < s.nextRemovedId)
    && (forall a, b :: a in s.removed && b in s.removed && s.removed[a].key == s.removed[b].key ==> a == b)
  }

  ghost predicate Ledger(s: State) {
    && RowsListed(s) && RemovedListed(s) && OneRemoval(s)
    && forall t :: t in s.threads ==> ThreadFits(s, s.threads[t])
  }

  // ---------- steps that keep all rows ----------

  /** A later version of a row: a new stamp, or the same contents but for the operator's mark. */
  ghost predicate RowAges(r: PolyTx, r': PolyTx, clock: nat) {
    && r'.key == r.key && r'.txIndex == r.txIndex
    && (|| r'.updatedAt > clock
        || (r'.updatedAt == r.updatedAt && r'.starcoinTxHash == r.starcoinTxHash && r'.retryCount == r.retryCount
           && r'.status in {r.status, ToBeRemoved}))
    && (r.status == ToBeRemoved ==> r'.status == ToBeRemoved)
  }

  /** Rows age where they are, and removed rows at most leave their table. */
  ghost predicate Ages(s: State, s': State) {
    && s'.rows.Keys == s.rows.Keys && s.clock <= s'.clock && s.nextRemovedId == s'.nextRemovedId
    && (forall i :: i in s.rows ==> RowAges(s.rows[i], s'.rows[i], s.clock) && s'.rows[i].updatedAt <= s'.clock)
    && (forall id :: id in s'.removed ==> id in s.removed && s'.removed[id].key == s.removed[id].key)
  }

  lemma KeysStay(s: State, s': State)
    requires Ages(s, s')
    ensures Keys(s.rows) <= Keys(s'.rows)
  {
    forall key | key in Keys(s.rows) ensures key in Keys(s'.rows) {
      var i :| i in s.rows && s.rows[i].key == key;
      assert RowAges(s.rows[i], s'.rows[i], s.clock);
    }
  }

  lemma ThreadStays(s: State, s': State, thr: Thread)
    requires Ages(s, s') && ThreadFits(s, thr)
    ensures ThreadFits(s', thr)
  {
    KeysStay(s, s');
    if thr.Writing? {
      var px := thr.px;
      forall i | i in s'.rows && s'.rows[i].key == px.key && s'.rows[i].updatedAt == px.updatedAt
        ensures px.txIndex == i
        ensures s'.rows[i].starcoinTxHash == px.starcoinTxHash && s'.rows[i].retryCount == px.retryCount
        ensures s'.rows[i].status in {px.status, ToBeRemoved}
      {
        assert RowAges(s.rows[i], s'.rows[i], s.clock);
      }
    } else if IsRemoval(thr) {
      assert RowAges(s.rows[thr.m.txIndex], s'.rows[thr.m.txIndex], s.clock);
    }
  }

  /** Only goroutine `t` moves, and becomes a removal only if it was one or there is none. */
  ghost predicate OneMoves(s: State, s': State, t: nat) {
    && (forall u :: u in s'.threads && u != t ==> u in s.threads && s'.threads[u] == s.threads[u])
    && (t in s'.threads && IsRemoval(s'.threads[t]) ==>
          || (t in s.threads && IsRemoval(s.threads[t]))
          || (forall u :: u in s.threads ==> !IsRemoval(s.threads[u])))
  }

  lemma AgesKeeps(s: State, s': State, t: nat)
    requires Ledger(s) && Ages(s, s') && OneMoves(s, s', t)
    requires t in s'.threads ==> ThreadFits(s', s'.threads[t])
    ensures Ledger(s')
  {
    hide ThreadFits;
    AgedRowsListed(s, s');
    forall u | u in s'.threads ensures ThreadFits(s', s'.threads[u]) {
      if u != t {
        ThreadStays(s, s', s.threads[u]);
      }
    }
  }

  lemma AgedRowsListed(s: State, s': State)
    requires RowsListed(s) && RemovedListed(s) && Ages(s, s')
    ensures RowsListed(s') && RemovedListed(s')
  {
    forall i | i in s'.rows ensures s'.rows[i].txIndex == i && 0 < s'.rows[i].updatedAt <= s'.clock {
      assert RowAges(s.rows[i], s'.rows[i], s.clock);
    }
    forall i, j | i in s'.rows && j in s'.rows && s'.rows[i].key == s'.rows[j].key ensures i == j {
      assert RowAges(s.rows[i], s'.rows[i], s.clock) && RowAges(s.rows[j], s'.rows[j], s.clock);
    }
  }

  lemma SameRowsAge(s: State, s': State)
    requires Ledger(s) && s'.rows == s.rows && s'.removed == s.removed && s'.nextRemovedId == s.nextRemovedId
    requires s.clock <= s'.clock
    ensures Ages(s, s')
  {
    hide ThreadFits;
  }

  // ---------- goroutines ----------

  lemma MovedFits(h: Hasher, s: State, from: Thread, to: Thread)
    requires Ledger(s) && ThreadFits(s, from) && Moves(h, s, from, to)
    ensures ThreadFits(s, to) && (IsRemoval(to) ==> IsRemoval(from))
  {
    hide Quiescent, IncludedAt, RemovedListed, OneRemoval;
    if from.Reading? {
      var i :| i in s.rows && s.rows[i].key == from.op.KeyOf() && from.op.Allowed(s.rows[i], s.clock)
        && to == Writing(from.op, s.rows[i]);
      assert forall j :: j in s.rows && s.rows[j].key == s.rows[i].key ==> j == i;
    }
  }

  lemma PickedFits(s: State, i: nat, thr: Thread)
    requires RowsListed(s) && Picked(s, i, thr)
    ensures ThreadFits(s, thr) && (IsRemoval(thr) ==> forall u :: u in s.threads ==> !IsRemoval(s.threads[u]))
  {
    hide LastIndex;
  }

  lemma ThreadsOnly(s: State, s': State, t: nat)
    requires Ledger(s) && s'.rows == s.rows && s'.removed == s.removed && s'.nextRemovedId == s.nextRemovedId
    requires s.clock <= s'.clock && OneMoves(s, s', t) && (t in s'.threads ==> ThreadFits(s, s'.threads[t]))
    ensures Ledger(s')
  {
    hide ThreadFits, Ledger, Ages, OneMoves;
    SameRowsAge(s, s');
    if t in s'.threads {
      ThreadStays(s, s', s'.threads[t]);
    }
    AgesKeeps(s, s', t);
  }

  lemma PrepareFits(h: Hasher, s: State, s': State, n: nat, tx: PolyTx, origin: Option<nat>)
    requires Ledger(s) && Prepare(h, s, s', n, tx, origin) && ComesFrom(s, tx, origin)
    ensures Ledger(s')
  {
    hide Ledger, LastRow, LastIndex, WithProof, Base, Importable, AllPaths, NodesAfterPut;
    var row := NewRow(h, s.rows, s.nodes, tx);
    assert row.status == Created && row.key == tx.key by {
      NewRowKeepsKey(h, s.rows, s.nodes, tx);
    }
    ThreadsOnly(s, s', n);
  }

  lemma NewRowKeepsKey(h: Hasher, rows: Rows, nodes: Nodes, tx: PolyTx)
    requires |tx.smtTxPath| == h.size && AllPaths(h, Base(nodes, LastRow(rows)))
    ensures NewRow(h, rows, nodes, tx).status == Created && NewRow(h, rows, nodes, tx).key == tx.key
  {
  }

  lemma PushBackFits(h: Hasher, s: State, s': State, n: nat, id: nat)
    requires Ledger(s) && PushBack(h, s, s', n, id)
    ensures Ledger(s')
  {
    hide Prepare;
    PrepareFits(h, s, s', n, ToPolyTx(s.removed[id]), Some(id));
  }

  // ---------- rows rewritten ----------

  lemma WriteFits(s: State, s': State, t: nat)
    requires Ledger(s) && Write(s, s', t)
    ensures Ledger(s')
  {
    var Writing(op, px) := s.threads[t];
    UpdatedAge(s, s', op, px);
    assert t in s'.threads ==> ThreadFits(s', s'.threads[t]);
    hide Ledger, Ages, ThreadFits, OptimisticUpdate, Affects;
    AgesKeeps(s, s', t);
  }

  lemma UpdatedAge(s: State, s': State, op: Op, px: PolyTx)
    requires RowsListed(s) && !Settled(op.Expected())
    requires s'.rows == OptimisticUpdate(s.rows, px, op.Expected(), op.Update(), s.clock + 1) && s'.clock == s.clock + 1
    requires s'.removed == s.removed && s'.nextRemovedId == s.nextRemovedId
    ensures Ages(s, s')
  {
  }

  lemma DeriveFits(h: Hasher, s: State, s': State, t: nat)
    requires Ledger(s) && Derive(h, s, s', t)
    ensures Ledger(s')
  {
    DerivedAge(h, s, s', t);
    hide Ledger, Ages, WithProof, WithVersion, Previous, Base, AllPaths;
    AgesKeeps(s, s', t);
  }

  lemma DerivedAge(h: Hasher, s: State, s': State, t: nat)
    requires RowsListed(s) && Derive(h, s, s', t)
    ensures Ages(s, s')
  {
    hide SetRoot, Base, AllPaths, Previous, WithVersion;
  }

  lemma SweepFits(s: State, s': State, t: nat, targets: set<nat>)
    requires Ledger(s) && Sweep(s, s', t, targets)
    ensures Ledger(s')
  {
    SweptAge(s, s', t, targets);
    hide Ledger, Ages, Swept, Sweepable;
    AgesKeeps(s, s', t);
  }

  lemma SweptAge(s: State, s': State, t: nat, targets: set<nat>)
    requires RowsListed(s) && Sweep(s, s', t, targets)
    ensures Ages(s, s')
  {
  }

  lemma MarkFits(s: State, s': State, i: nat)
    requires Ledger(s) && MarkForRemoval(s, s', i)
    ensures Ledger(s')
  {
    assert Ages(s, s');
    hide Ledger, Ages, ThreadFits;
    SameThreads(s, s');
  }

  lemma SameThreads(s: State, s': State)
    requires Ledger(s) && Ages(s, s') && s'.threads == s.threads
    ensures Ledger(s')
  {
    hide ThreadFits;
    AgedRowsListed(s, s');
    forall u | u in s'.threads ensures ThreadFits(s', s'.threads[u]) {
      ThreadStays(s, s', s.threads[u]);
    }
  }

  lemma ReturnFits(s: State, s': State, id: nat)
    requires Ledger(s) && MarkForReturn(s, s', id)
    ensures Ledger(s')
  {
    assert Ages(s, s');
    hide Ledger, Ages, ThreadFits;
    SameThreads(s, s');
  }

  lemma DeleteFits(s: State, s': State, t: nat)
    requires Ledger(s) && DeleteRemoved(s, s', t)
    ensures Ledger(s')
  {
    assert Ages(s, s');
    hide Ledger, Ages, ThreadFits;
    AgesKeeps(s, s', t);
  }

  // ---------- insertion and removal ----------

  lemma InsertFits(s: State, s': State, t: nat)
    requires Ledger(s) && InsertAnyhow(s, s', t)
    ensures Ledger(s')
  {
    InsertedListed(s, s', t);
    forall u | u in s'.threads ensures ThreadFits(s', s'.threads[u]) {
      if u != t {
        FitsBesideInsertion(s, s', t, s.threads[u]);
      } else {
        InserterFits(s, s', t);
      }
    }
    hide ThreadFits, Duplicate;
  }

  lemma InsertedListed(s: State, s': State, t: nat)
    requires Ledger(s) && InsertAnyhow(s, s', t)
    ensures RowsListed(s') && RemovedListed(s')
  {
    hide ThreadFits;
  }

  lemma QueuedKeysStay(s: State, s': State, t: nat)
    requires InsertAnyhow(s, s', t)
    ensures Keys(s.rows) <= Keys(s'.rows) && s.threads[t].row.key in Keys(s'.rows)
  {
    hide Duplicate;
    forall key | key in Keys(s.rows) ensures key in Keys(s'.rows) {
      var i :| i in s.rows && s.rows[i].key == key;
      assert s'.rows[i] == s.rows[i];
    }
    assert s'.rows[s.threads[t].row.txIndex].key == s.threads[t].row.key;
  }

  lemma FitsBesideInsertion(s: State, s': State, t: nat, thr: Thread)
    requires InsertAnyhow(s, s', t) && ThreadFits(s, thr)
    ensures ThreadFits(s', thr)
  {
    QueuedKeysStay(s, s', t);
    hide Duplicate;
  }

  lemma InserterFits(s: State, s': State, t: nat)
    requires InsertAnyhow(s, s', t) && ThreadFits(s, s.threads[t])
    ensures ThreadFits(s', s'.threads[t]) && !IsRemoval(s'.threads[t])
  {
    QueuedKeysStay(s, s', t);
    hide Duplicate;
  }

  lemma RemoveFits(s: State, s': State, t: nat)
    requires Ledger(s) && TakeOut(s, s', t)
    ensures Ledger(s')
  {
    var m := s.threads[t].m;
    assert StillMarked(s, m);
    TakenListed(s, s', t);
    forall u | u in s'.threads ensures ThreadFits(s', s'.threads[u]) {
      FitsBesideRemoval(s, s', t, s.threads[u]);
    }
    hide ThreadFits;
  }

  lemma TakenListed(s: State, s': State, t: nat)
    requires Ledger(s) && TakeOut(s, s', t)
    ensures RowsListed(s') && RemovedListed(s')
  {
    hide ThreadFits;
  }

  lemma FitsBesideRemoval(s: State, s': State, t: nat, thr: Thread)
    requires TakeOut(s, s', t) && StillMarked(s, s.threads[t].m) && ThreadFits(s, thr) && !IsRemoval(thr)
    ensures ThreadFits(s', thr)
  {
    if thr.PushedBack? && thr.id in s'.removed {
      var i :| i in s.rows && s.rows[i].key == s.removed[thr.id].key;
      assert i in s'.rows && s'.rows[i].key == s.rows[i].key;
    }
  }

  // ---------- runs ----------

  lemma SpawnFits(s: State, s': State, n: nat, thr: Thread)
    requires Ledger(s) && Spawn(s, s', n, thr)
    ensures Ledger(s')
  {
    hide Picked, ThreadFits, RemovedListed;
    var i :| Picked(s, i, thr);
    PickedFits(s, i, thr);
    ThreadsOnly(s, s', n);
  }

  lemma MoveFits(h: Hasher, s: State, s': State, t: nat, thr: Thread)
    requires Ledger(s) && Move(h, s, s', t, thr)
    ensures Ledger(s')
  {
    hide Moves, ThreadFits, RowsListed, RemovedListed;
    MovedFits(h, s, s.threads[t], thr);
    ThreadsOnly(s, s', t);
  }

  lemma FinishFits(s: State, s': State, t: nat)
    requires Ledger(s) && Finish(s, s', t)
    ensures Ledger(s')
  {
    hide Ledger, ThreadFits;
    ThreadsOnly(s, s', t);
  }

  lemma SubmitFits(s: State, s': State, t: nat, hash: string)
    requires Ledger(s) && Submit(s, s', t, hash)
    ensures Ledger(s')
  {
    hide Ledger;
    ThreadsOnly(s, s', t);
  }

  /** Starcoin or the clock moves on. */
  lemma Elsewhere(s: State, s': State)
    requires Ledger(s) && s' == s.(starcoin := s'.starcoin, clock := s'.clock) && s.clock <= s'.clock
    ensures Ledger(s')
  {
    hide ThreadFits, Ages;
    SameRowsAge(s, s');
    SameThreads(s, s');
  }

  lemma ExecuteFits(h: Hasher, s: State, s': State, hash: string)
    requires Ledger(s) && Execute(h, s, s', hash)
    ensures Ledger(s')
  {
    hide Ledger, UpdatedRoot;
    Elsewhere(s, s');
  }

  /** Every step keeps the ledger, whatever trees it builds and whatever they collide with. */
  lemma LedgerStep(h: Hasher, s: State, a: Action, s': State)
    requires Ledger(s) && Step(h, s, a, s')
    ensures Ledger(s')
  {
    hide Ledger, Prepare, InsertAnyhow, Fits, Spawn, Move, Finish, Write, Derive, Submit, Sweep, TakeOut, PutsBehind;
    hide PushBack, DeleteRemoved, MarkForRemoval, MarkForReturn, Execute, ThreadFits;
    match a
    case APut(n, key, payload) => PrepareFits(h, s, s', n, NewPolyTx(h, key, payload), None);
    case AInsert(t) => InsertFits(s, s', t);
    case ASpawn(n, thr) => SpawnFits(s, s', n, thr);
    case AMove(t, thr) => MoveFits(h, s, s', t, thr);
    case AFinish(t) => FinishFits(s, s', t);
    case AWrite(t) => WriteFits(s, s', t);
    case ADerive(t) => DeriveFits(h, s, s', t);
    case ASubmit(t, hash) => SubmitFits(s, s', t, hash);
    case ASweep(t, targets) => SweepFits(s, s', t, targets);
    case ARemove(t) => RemoveFits(s, s', t);
    case APushBack(n, id) => PushBackFits(h, s, s', n, id);
    case ADeleteRemoved(t) => DeleteFits(s, s', t);
    case AMarkForRemoval(i) => MarkFits(s, s', i);
    case AMarkForReturn(id) => ReturnFits(s, s', id);
    case AExecute(hash) => ExecuteFits(h, s, s', hash);
    case AReject(hash) => Elsewhere(s, s');
    case ATick(millis) => Elsewhere(s, s');
  }

  lemma {:induction false} LedgerOk(h: Hasher, states: seq<State>, actions: seq<Action>, k: nat)
    requires AnyRun(h, states, actions) && k < |states|
    ensures Ledger(states[k])
  {
    hide Step;
    if k > 0 {
      hide Ledger;
      LedgerOk(h, states, actions, k - 1);
      assert Step(h, states[k - 1], actions[k - 1], states[k - 1 + 1]);
      LedgerStep(h, states[k - 1], actions[k - 1], states[k]);
    }
  }

  lemma LedgerAround(h: Hasher, states: seq<State>, actions: seq<Action>, k: nat)
    requires AnyRun(h, states, actions) && k < |actions|
    ensures |states| == |actions| + 1
    ensures Ledger(states[k]) && Step(h, states[k], actions[k], states[k + 1]) && Ledger(states[k + 1])
  {
    LedgerOk(h, states, actions, k);
    LedgerOk(h, states, actions, k + 1);
    hide Ledger, Step;
  }
}
