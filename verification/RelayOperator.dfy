/** The operator's part: rows are removed, and put back, only if marked for it. */
module RelayOperator {
  import opened SparseMerkle
  import opened PathSets
  import opened PolyTxs
  import opened PolyTxTable
  import opened Relay
  import opened RelayLedger
  import opened RelayWrites

  /** One of the first `k` actions of the run. */
  ghost predicate Happened(actions: seq<Action>, k: nat, a: Action) {
    exists j :: 0 <= j < k && j < |actions| && actions[j] == a
  }

  lemma MarkedByWrite(h: Hasher, s: State, s': State, t: nat, i: nat)
    requires Hashes(h, s) && Write(s, s', t) && i in s'.rows && s'.rows[i].status == ToBeRemoved
    ensures i in s.rows && s.rows[i].status == ToBeRemoved
  {
    assert ThreadTruthful(h, s, s.threads[t]);
    hide Hashes, AfterWrite, Affects, Unchanged;
  }

  lemma MarkedByInsertion(s: State, s': State, t: nat, i: nat)
    requires Ledger(s) && InsertAnyhow(s, s', t) && i in s'.rows && s'.rows[i].status == ToBeRemoved
    ensures i in s.rows && s.rows[i].status == ToBeRemoved
  {
    assert ThreadFits(s, s.threads[t]);
    hide Ledger, Duplicate, AfterInsert;
  }

  /** Only a mark gives a queued row this status. */
  lemma MarkedByStep(h: Hasher, s: State, a: Action, s': State, i: nat)
    requires Ledger(s) && Hashes(h, s) && Step(h, s, a, s')
    requires i in s'.rows && s'.rows[i].status == ToBeRemoved
    ensures a == AMarkForRemoval(i) || (i in s.rows && s.rows[i].status == ToBeRemoved)
  {
    hide Ledger, Hashes, SetRoot, Quiescent, Moves, Picked, AllPaths, Fits, PutsBehind, WithVersion, Sweepable, Write;
    hide Put, PushBack, Execute, InsertAnyhow, ToRemovedPolyTx, Importable, Base;
    match a
    case AWrite(t) => MarkedByWrite(h, s, s', t, i);
    case AInsert(t) => MarkedByInsertion(s, s', t, i);
    case APut(_, _, _) => QueueAsBefore(h, s, a, s');
    case APushBack(_, _) => QueueAsBefore(h, s, a, s');
    case AExecute(_) => QueueAsBefore(h, s, a, s');
    case _ =>
  }

  lemma QueueAsBefore(h: Hasher, s: State, a: Action, s': State)
    requires Step(h, s, a, s') && (a.APut? || a.APushBack? || a.AExecute?)
    ensures s'.rows == s.rows && s'.removed == s.removed
  {
    hide NewRow, NodesAfterPut, Base, LastRow, AllPaths, Importable;
  }

  /** Only a mark gives a removed row this status. */
  lemma ReturnedByStep(h: Hasher, s: State, a: Action, s': State, id: nat)
    requires Step(h, s, a, s') && id in s'.removed && s'.removed[id].status == ToBePushedBack
    ensures a == AMarkForReturn(id) || (id in s.removed && s.removed[id].status == ToBePushedBack)
  {
    hide SetRoot, Quiescent, Moves, Picked, AllPaths, Fits, PutsBehind, OptimisticUpdate, Affects, Swept, Removed;
    hide NewRow, NodesAfterPut, WithProof, WithVersion, Sweepable, Duplicate, AfterWrite, AfterInsert, Prepare, Execute;
    if a.APut? || a.APushBack? || a.AExecute? {
      QueueAsBefore(h, s, a, s');
    }
  }

  lemma {:induction false} MarkedRows(h: Hasher, states: seq<State>, actions: seq<Action>, k: nat)
    requires AnyRun(h, states, actions) && k < |states|
    ensures forall i :: i in states[k].rows && states[k].rows[i].status == ToBeRemoved ==>
      Happened(actions, k, AMarkForRemoval(i))
    ensures forall id :: id in states[k].removed && states[k].removed[id].status == ToBePushedBack ==>
      Happened(actions, k, AMarkForReturn(id))
  {
    hide Step, Ledger, Hashes;
    if k > 0 {
      var s, a, s' := states[k - 1], actions[k - 1], states[k];
      MarkedRows(h, states, actions, k - 1);
      LedgerOk(h, states, actions, k - 1);
      HashesOk(h, states, actions, k - 1);
      assert Step(h, s, a, states[k - 1 + 1]);
      forall i | i in s'.rows && s'.rows[i].status == ToBeRemoved ensures Happened(actions, k, AMarkForRemoval(i)) {
        MarkedByStep(h, s, a, s', i);
        HappenedStill(actions, k - 1, AMarkForRemoval(i));
      }
      forall id | id in s'.removed && s'.removed[id].status == ToBePushedBack
        ensures Happened(actions, k, AMarkForReturn(id))
      {
        ReturnedByStep(h, s, a, s', id);
        HappenedStill(actions, k - 1, AMarkForReturn(id));
      }
    }
  }

  lemma HappenedStill(actions: seq<Action>, k: nat, a: Action)
    requires k < |actions| && (actions[k] == a || Happened(actions, k, a))
    ensures Happened(actions, k + 1, a)
  {
  }

  /** In every run, a row is removed only after the operator has marked it, and is then the row at its index. */
  lemma RemovedWasMarked(h: Hasher, states: seq<State>, actions: seq<Action>, k: nat, t: nat)
    requires AnyRun(h, states, actions) && k < |actions| && actions[k] == ARemove(t)
    ensures t in states[k].threads && states[k].threads[t].Removable?
    ensures var m := states[k].threads[t].m;
      && m.txIndex in states[k].rows && states[k].rows[m.txIndex].key == m.key
      && Happened(actions, k, AMarkForRemoval(m.txIndex))
  {
    LedgerAround(h, states, actions, k);
    MarkedRows(h, states, actions, k);
    assert ThreadFits(states[k], states[k].threads[t]);
    hide Ledger, Fits, PutsBehind, Removed;
  }

  /** In every run, a removed row is put back only after the operator has marked it. */
  lemma ReturnedWasMarked(h: Hasher, states: seq<State>, actions: seq<Action>, k: nat, n: nat, id: nat)
    requires AnyRun(h, states, actions) && k < |actions| && actions[k] == APushBack(n, id)
    ensures id in states[k].removed && Happened(actions, k, AMarkForReturn(id))
  {
    hide Prepare;
    assert Step(h, states[k], actions[k], states[k + 1]);
    MarkedRows(h, states, actions, k);
  }
}
