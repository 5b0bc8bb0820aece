/** Keys over whole runs: none is lost, and each move between the tables leaves it in one of them. */
module RelayKeys {
  import opened SparseMerkle
  import opened PathSets
  import opened PolyTxs
  import opened PolyTxTable
  import opened Relay
  import opened RelayLedger

  ghost function AllKeys(s: State): set<Key> {
    KeysOf(s.rows, s.removed)
  }

  /** Every key stays in one of the two tables over any step, the deletion of a pushed-back row included. */
  lemma KeysStep(h: Hasher, s: State, a: Action, s': State)
    requires Ledger(s) && Step(h, s, a, s')
    ensures AllKeys(s) <= AllKeys(s')
  {
    forall key | key in AllKeys(s) ensures key in AllKeys(s') {
      if key in Keys(s.rows) {
        QueuedKeyStays(h, s, a, s', key);
      } else {
        RemovedKeyStays(h, s, a, s', key);
      }
    }
  }

  lemma QueuedKeyStays(h: Hasher, s: State, a: Action, s': State, key: Key)
    requires Ledger(s) && Step(h, s, a, s') && key in Keys(s.rows)
    ensures key in AllKeys(s')
  {
    hide Ledger, Remove;
    var i :| i in s.rows && s.rows[i].key == key;
    if a.ARemove? {
      TakenKeyStays(s, s', a.t, i);
    } else {
      assert i in s'.rows && s'.rows[i].key == key by {
        KeyInPlace(h, s, a, s', i);
      }
    }
  }

  lemma TakenKeyStays(s: State, s': State, t: nat, i: nat)
    requires Ledger(s) && Remove(s, s', t) && i in s.rows
    ensures s.rows[i].key in AllKeys(s')
  {
    var m := s.threads[t].m;
    assert ThreadFits(s, s.threads[t]);
    assert s'.removed[s.nextRemovedId].key == m.key;
    assert i == m.txIndex || (i in s'.rows && s'.rows[i].key == s.rows[i].key);
  }

  lemma KeyInPlace(h: Hasher, s: State, a: Action, s': State, i: nat)
    requires Step(h, s, a, s') && i in s.rows && !a.ARemove?
    ensures i in s'.rows && s'.rows[i].key == s.rows[i].key
  {
    hide SetRoot, Quiescent, Moves, Picked, AllPaths;
  }

  lemma RemovedKeyStays(h: Hasher, s: State, a: Action, s': State, key: Key)
    requires Ledger(s) && Step(h, s, a, s') && key in RemovedKeys(s.removed)
    ensures key in AllKeys(s')
  {
    hide SetRoot;
    hide Quiescent, Moves, Picked, AllPaths;
    var id :| id in s.removed && s.removed[id].key == key;
    if a.ADeleteRemoved? {
      assert ThreadFits(s, s.threads[a.t]);
      if s.threads[a.t].id == id {
        var i :| i in s.rows && s.rows[i].key == key;
        assert i in s'.rows;
      } else {
        assert id in s'.removed;
      }
    } else {
      RemovedRowStays(h, s, a, s', id);
    }
  }

  lemma RemovedRowStays(h: Hasher, s: State, a: Action, s': State, id: nat)
    requires RemovedListed(s) && Step(h, s, a, s') && id in s.removed && !a.ADeleteRemoved?
    ensures id in s'.removed && s'.removed[id].key == s.removed[id].key
  {
    hide SetRoot, Quiescent, Moves, Picked, AllPaths, Fits, Affects, OptimisticUpdate, Swept, Removed;
    hide NewRow, NodesAfterPut, WithProof, WithVersion, Sweepable, Duplicate, AfterWrite, AfterInsert, ToRemovedPolyTx;
  }

  /** In every run, a key that was ever queued is in the queue or among the removed rows. */
  lemma {:induction false} KeysNeverLost(h: Hasher, states: seq<State>, actions: seq<Action>, j: nat, k: nat)
    requires AnyRun(h, states, actions) && j <= k < |states|
    ensures AllKeys(states[j]) <= AllKeys(states[k])
  {
    hide Ledger, Step, AllKeys;
    if j < k {
      KeysNeverLost(h, states, actions, j, k - 1);
      LedgerOk(h, states, actions, k - 1);
      assert Step(h, states[k - 1], actions[k - 1], states[k - 1 + 1]);
      KeysStep(h, states[k - 1], actions[k - 1], states[k]);
    }
  }

  /** In every run, a removal leaves the key in exactly one table. */
  lemma RemovalMovesKey(h: Hasher, states: seq<State>, actions: seq<Action>, k: nat, t: nat, m: PolyTx)
    requires AnyRun(h, states, actions) && k < |actions|
    requires actions[k] == ARemove(t) && t in states[k].threads && states[k].threads[t] == Removable(m)
    ensures m.key in Keys(states[k].rows) && m.key !in RemovedKeys(states[k].removed)
    ensures m.key !in Keys(states[k + 1].rows) && m.key in RemovedKeys(states[k + 1].removed)
  {
    hide AnyRun, Ledger, Remove;
    LedgerAround(h, states, actions, k);
    RemoveMovesKey(states[k], states[k + 1], t);
  }

  /** In every run, a push-back whose last deletion succeeds leaves the key in exactly one table, the queue. */
  lemma ReturnMovesKey(h: Hasher, states: seq<State>, actions: seq<Action>, k: nat, t: nat, id: nat)
    requires AnyRun(h, states, actions) && k < |actions|
    requires actions[k] == ADeleteRemoved(t) && t in states[k].threads && states[k].threads[t] == PushedBack(id)
    requires id in states[k].removed
    ensures states[k].removed[id].key in Keys(states[k + 1].rows)
    ensures states[k].removed[id].key !in RemovedKeys(states[k + 1].removed)
  {
    hide AnyRun, Ledger, DeleteRemoved;
    LedgerAround(h, states, actions, k);
    DeleteMovesKey(states[k], states[k + 1], t);
  }

  lemma RemoveMovesKey(s: State, s': State, t: nat)
    requires Ledger(s) && Remove(s, s', t)
    ensures s.threads[t].m.key in Keys(s.rows) && s.threads[t].m.key !in RemovedKeys(s.removed)
    ensures s.threads[t].m.key !in Keys(s'.rows) && s.threads[t].m.key in RemovedKeys(s'.removed)
  {
    hide SetRoot;
    var m := s.threads[t].m;
    assert ThreadFits(s, s.threads[t]);
    assert forall i :: i in s.rows && s.rows[i].key == m.key ==> i == m.txIndex;
    assert s'.removed[s.nextRemovedId].key == m.key;
  }

  lemma DeleteMovesKey(s: State, s': State, t: nat)
    requires Ledger(s) && DeleteRemoved(s, s', t) && s.threads[t].id in s.removed
    ensures var key := s.removed[s.threads[t].id].key; key in Keys(s'.rows) && key !in RemovedKeys(s'.removed)
  {
    hide SetRoot;
    assert ThreadFits(s, s.threads[t]);
  }
}
