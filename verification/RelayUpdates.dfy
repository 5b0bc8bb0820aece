/** Conditional updates racing each other: claims, stale reads, settled statuses. */
module RelayUpdates {
  import opened SparseMerkle
  import opened PathSets
  import opened PolyTxs
  import opened PolyTxTable
  import opened Relay
  import opened RelayLedger

  /** Goroutine `t` is about to write and its WHERE clause holds of row `i`. */
  ghost predicate AboutToApply(s: State, t: nat, i: nat) {
    t in s.threads && s.threads[t].Writing? && i in s.rows
      && Unchanged(s.rows[i], s.threads[t].px, s.threads[t].op.Expected())
  }

  // ---------- claims ----------

  lemma ClaimIsLate(s: State, s': State, t: nat, i: nat)
    requires Ledger(s) && AboutToApply(s, t, i) && s.threads[t].op.Claim? && Write(s, s', t)
    requires s.rows[i].status == Processing && s.rows[i].starcoinTxHash == ""
    ensures s'.rows[i].updatedAt > s.rows[i].updatedAt + 120_000
  {
    assert ThreadFits(s, s.threads[t]);
  }

  /**
   In every run, a claim that succeeds on a row already being processed, but without a Starcoin hash, stamps it
   more than two minutes after the row was last written.
   */
  lemma ReclaimsAreApart(h: Hasher, states: seq<State>, actions: seq<Action>, k: nat, i: nat)
    requires AnyRun(h, states, actions) && k < |actions| && actions[k].AWrite?
    requires AboutToApply(states[k], actions[k].t, i) && states[k].threads[actions[k].t].op.Claim?
    requires states[k].rows[i].status == Processing && states[k].rows[i].starcoinTxHash == ""
    ensures i in states[k + 1].rows
    ensures states[k + 1].rows[i].updatedAt > states[k].rows[i].updatedAt + 120_000
    ensures states[k + 1].threads[actions[k].t] == Deriving(states[k].threads[actions[k].t].op.m)
  {
    hide Ledger;
    LedgerAround(h, states, actions, k);
    ClaimIsLate(states[k], states[k + 1], actions[k].t, i);
  }

  // ---------- stale reads ----------

  /** The row with this key has been written, or is gone, since `px` was read. */
  ghost predicate Outdated(s: State, px: PolyTx) {
    && 0 < px.updatedAt <= s.clock
    && forall i :: i in s.rows && s.rows[i].key == px.key ==> s.rows[i].updatedAt > px.updatedAt
  }

  /** Once an update has been applied, every other one that had read the row before finds it changed. */
  lemma AppliedOutdatesOthers(s: State, s': State, t: nat, i: nat, u: nat)
    requires Ledger(s) && AboutToApply(s, t, i) && Write(s, s', t)
    requires u in s.threads && s.threads[u].Writing? && s.threads[u].px.key == s.rows[i].key
    ensures Outdated(s', s.threads[u].px)
  {
    assert ThreadFits(s, s.threads[u]) && ThreadFits(s, s.threads[t]);
    var px := s.threads[u].px;
    forall j | j in s'.rows && s'.rows[j].key == px.key ensures s'.rows[j].updatedAt > px.updatedAt {
      assert i == j;
    }
  }

  lemma OutdatedFails(s: State, px: PolyTx, expected: Status)
    requires Outdated(s, px)
    ensures !Affects(s.rows, px, expected)
  {
  }

  /** A row read before the last write stays outdated, whatever happens to the queue. */
  lemma OutdatedStays(h: Hasher, s: State, a: Action, s': State, px: PolyTx)
    requires Ledger(s) && Step(h, s, a, s') && Outdated(s, px)
    ensures Outdated(s', px)
  {
    hide SetRoot, AllPaths, Prepare;
    forall i | i in s'.rows && s'.rows[i].key == px.key ensures s'.rows[i].updatedAt > px.updatedAt {
      StampGrows(h, s, a, s', i);
    }
    ClockGrows(h, s, a, s');
  }

  lemma ClockGrows(h: Hasher, s: State, a: Action, s': State)
    requires Step(h, s, a, s')
    ensures s.clock <= s'.clock
  {
  }

  lemma StampGrows(h: Hasher, s: State, a: Action, s': State, i: nat)
    requires Ledger(s) && Step(h, s, a, s') && i in s'.rows
    ensures
      || (i in s.rows && s'.rows[i].key == s.rows[i].key && s'.rows[i].updatedAt >= s.rows[i].updatedAt)
      || s'.rows[i].updatedAt > s.clock
  {
    hide SetRoot, ThreadFits, RemovedListed, OneRemoval, Moves, Picked, AllPaths;
  }

  lemma {:induction false} OutdatedForGood(h: Hasher, states: seq<State>, actions: seq<Action>, j: nat, k: nat,
                                           px: PolyTx)
    requires AnyRun(h, states, actions) && j <= k < |states| && Outdated(states[j], px)
    ensures Outdated(states[k], px)
  {
    hide Ledger, Outdated, Step;
    if j < k {
      OutdatedForGood(h, states, actions, j, k - 1, px);
      LedgerOk(h, states, actions, k - 1);
      assert Step(h, states[k - 1], actions[k - 1], states[k - 1 + 1]);
      OutdatedStays(h, states[k - 1], actions[k - 1], states[k], px);
    }
  }

  /**
   In every run, of several updates that read a row before one of them wrote it, no other one takes
   effect, at whatever later point of the run it gets to its write.
   */
  lemma OneWinner(h: Hasher, states: seq<State>, actions: seq<Action>, k: nat, i: nat, u: nat, later: nat)
    requires AnyRun(h, states, actions) && k < later < |states|
    requires actions[k].AWrite? && AboutToApply(states[k], actions[k].t, i)
    requires u in states[k].threads && states[k].threads[u].Writing?
    requires states[k].threads[u].px.key == states[k].rows[i].key
    ensures forall expected :: !Affects(states[later].rows, states[k].threads[u].px, expected)
  {
    hide Ledger, Outdated, AboutToApply, Write, Affects;
    var px := states[k].threads[u].px;
    LedgerAround(h, states, actions, k);
    AppliedOutdatesOthers(states[k], states[k + 1], actions[k].t, i, u);
    OutdatedForGood(h, states, actions, k + 1, later, px);
    forall expected ensures !Affects(states[later].rows, px, expected) {
      OutdatedFails(states[later], px, expected);
    }
  }

  // ---------- settled statuses ----------

  lemma SettledWrite(s: State, s': State, t: nat, i: nat)
    requires Ledger(s) && Write(s, s', t)
    requires i in s.rows && s.rows[i].status in {Processed, Confirmed}
    ensures i in s'.rows && s'.rows[i] == s.rows[i]
  {
    assert ThreadFits(s, s.threads[t]);
  }

  lemma SettledRemove(s: State, s': State, t: nat, i: nat)
    requires Ledger(s) && Remove(s, s', t)
    requires i in s.rows && s.rows[i].status in {Processed, Confirmed}
    ensures i in s'.rows && s'.rows[i].key == s.rows[i].key && s'.rows[i].status == s.rows[i].status
  {
    assert ThreadFits(s, s.threads[t]);
  }

  lemma SettledSweep(s: State, s': State, t: nat, targets: set<nat>, i: nat)
    requires Sweep(s, s', t, targets) && i in s.rows && s.rows[i].status in {Processed, Confirmed}
    ensures i in s'.rows && s'.rows[i] == s.rows[i]
  {
    assert i in targets ==> Sweepable(s.rows, s.threads[t].index, i);
  }

  /** The other steps leave each row where it is, with its key and status. */
  lemma RowStays(h: Hasher, s: State, a: Action, s': State, i: nat)
    requires Step(h, s, a, s') && i in s.rows
    requires !a.AWrite? && !a.ARemove? && !a.ASweep? && a != AMarkForRemoval(i)
    ensures i in s'.rows && s'.rows[i].key == s.rows[i].key && s'.rows[i].status == s.rows[i].status
  {
    hide SetRoot, Quiescent, Moves, Picked, AllPaths;
  }

  /** No step but the operator's mark changes a processed or confirmed row's status or takes the row away. */
  lemma SettledStep(h: Hasher, s: State, a: Action, s': State, i: nat)
    requires Ledger(s) && Step(h, s, a, s')
    requires i in s.rows && s.rows[i].status in {Processed, Confirmed} && a != AMarkForRemoval(i)
    ensures i in s'.rows && s'.rows[i].key == s.rows[i].key && s'.rows[i].status == s.rows[i].status
  {
    hide ThreadFits, RowsListed, RemovedListed, OneRemoval, Write, Remove, Sweepable;
    match a
    case AWrite(t) => SettledWrite(s, s', t, i);
    case ARemove(t) => SettledRemove(s, s', t, i);
    case ASweep(t, targets) => SettledSweep(s, s', t, targets, i);
    case _ => RowStays(h, s, a, s', i);
  }

  /** In every run, a processed or confirmed row keeps its place and its status unless the operator marks it. */
  lemma {:induction false} SettledForGood(h: Hasher, states: seq<State>, actions: seq<Action>, j: nat, k: nat, i: nat)
    requires AnyRun(h, states, actions) && j <= k < |states|
    requires i in states[j].rows && states[j].rows[i].status in {Processed, Confirmed}
    requires forall n :: j <= n < k ==> actions[n] != AMarkForRemoval(i)
    ensures i in states[k].rows && states[k].rows[i].key == states[j].rows[i].key
    ensures states[k].rows[i].status == states[j].rows[i].status
  {
    hide Ledger, Step;
    if j < k {
      SettledForGood(h, states, actions, j, k - 1, i);
      LedgerOk(h, states, actions, k - 1);
      assert Step(h, states[k - 1], actions[k - 1], states[k - 1 + 1]);
      SettledStep(h, states[k - 1], actions[k - 1], states[k], i);
    }
  }

  // ---------- which rows are picked ----------

  /** Two minutes on. */
  function Later(s: State): State {
    s.(clock := s.clock + 120_001)
  }

  /** The row is among the last fifty-one indices. */
  ghost predicate Recent(rows: Rows, i: nat) {
    LastIndex(rows) <= i + 50
  }

  /**
   In every state of every run, what the monitors may do with a row that is left alone for two minutes, exactly:
   send one not settled again, or check its transaction, unless it has been claimed ten times; check one timed
   out; compare one that failed or timed out of late with the chain; remove one that is marked.
   */
  lemma PickedRows(h: Hasher, states: seq<State>, actions: seq<Action>, k: nat, i: nat)
    requires AnyRun(h, states, actions) && k < |states| && i in states[k].rows && i > 0
    ensures var s, row := Later(states[k]), states[k].rows[i];
      && (Picked(s, i, Reading(Claim(row))) <==>
           && row.retryCount < 10
           && (row.status in {Created, Failed, UnknownError, ToBePushedBack}
               || (row.status == Processing && row.starcoinTxHash == "")))
      && (Picked(s, i, Checking(row, true)) <==>
           row.retryCount < 10 && row.status == Processing && row.starcoinTxHash != "")
      && (Picked(s, i, Checking(row, false)) <==> row.status == TimedOut)
      && (Picked(s, i, Listed(row)) <==> row.status in {TimedOut, Failed} && Recent(s.rows, i))
      && (Picked(s, i, Removing(row)) <==>
           row.status == ToBeRemoved && forall t :: t in s.threads ==> !IsRemoval(s.threads[t]))
  {
    LedgerOk(h, states, actions, k);
    hide ThreadFits, LastIndex;
    var s := Later(states[k]);
    assert s.rows[i].updatedAt + 120_000 < s.clock;
    LastIsBehind(s.rows, i);
  }

  lemma LastIsBehind(rows: Rows, i: nat)
    requires i in rows
    ensures i <= LastIndex(rows)
  {
  }

  /** Before two minutes have passed since a row was written, it is neither sent again nor checked. */
  lemma NotPickedEarly(s: State, i: nat, thr: Thread)
    requires Picked(s, i, thr) && (thr.Reading? || thr.Checking?)
    ensures s.clock > s.rows[i].updatedAt + 120_000
  {
  }
}
