/** Stretches of runs: several steps that together put, derive, send, execute or remove a row. */
module RelayRuns {
  import opened Bytes
  import opened Wrappers
  import opened SparseMerkle
  import opened SmtUpdate
  import opened PathSets
  import opened PolyTxs
  import opened PolyTxTable
  import opened Relay
  import opened RelayInvariant
  import opened RelayLocalSteps
  import opened RelayQueueSteps
  import opened RelayInsertion
  import opened RelayTheorems

  lemma ReachesItself(cfg: Config, s: State)
    ensures Reaches(cfg, s, s)
  {
    hide Next;
    assert Steps(cfg, [s], []);
  }

  lemma StepReaches(cfg: Config, s: State, a: Action, s': State)
    requires Next(cfg, s, a, s')
    ensures Reaches(cfg, s, s')
  {
    hide Next;
    assert Steps(cfg, [s, s'], [a]);
  }

  lemma ReachesOn(cfg: Config, s: State, s1: State, s2: State)
    requires Reaches(cfg, s, s1) && Reaches(cfg, s1, s2)
    ensures Reaches(cfg, s, s2)
  {
    hide Next;
    var states1, actions1 :| Steps(cfg, states1, actions1) && states1[0] == s && states1[|actions1|] == s1;
    var states2, actions2 :| Steps(cfg, states2, actions2) && states2[0] == s1 && states2[|actions2|] == s2;
    Joined(cfg, states1, actions1, states2, actions2);
  }

  /** One stretch of steps after another. */
  lemma Joined(cfg: Config, states1: seq<State>, actions1: seq<Action>, states2: seq<State>, actions2: seq<Action>)
    requires Steps(cfg, states1, actions1) && Steps(cfg, states2, actions2) && states1[|actions1|] == states2[0]
    ensures var states, actions := states1 + states2[1..], actions1 + actions2;
      Steps(cfg, states, actions) && states[0] == states1[0] && states[|actions|] == states2[|actions2|]
  {
    hide Next;
    var n := |actions1|;
    var states, actions := states1 + states2[1..], actions1 + actions2;
    forall k | 0 <= k < |actions| ensures Next(cfg, states[k], actions[k], states[k + 1]) {
      if k < n {
        assert Next(cfg, states1[k], actions1[k], states1[k + 1]);
      } else {
        assert Next(cfg, states2[k - n], actions2[k - n], states2[k - n + 1]);
      }
    }
  }

  lemma {:induction false} StepsOk(cfg: Config, states: seq<State>, actions: seq<Action>, k: nat)
    requires cfg.Valid() && Steps(cfg, states, actions) && Inv(cfg, states[0]) && k < |states|
    ensures Inv(cfg, states[k])
  {
    hide Inv, Next;
    if k > 0 {
      StepsOk(cfg, states, actions, k - 1);
      assert Next(cfg, states[k - 1], actions[k - 1], states[k - 1 + 1]);
      NextOk(cfg, states[k - 1], actions[k - 1], states[k]);
    }
  }

  lemma ReachesOk(cfg: Config, s: State, s': State)
    requires cfg.Valid() && Inv(cfg, s) && Reaches(cfg, s, s')
    ensures Inv(cfg, s')
  {
    hide Inv, Next;
    var states, actions :| Steps(cfg, states, actions) && states[0] == s && states[|actions|] == s';
    StepsOk(cfg, states, actions, |actions|);
  }

  /** One more step. */
  lemma Onward(cfg: Config, s: State, s1: State, a: Action, s2: State)
    requires Reaches(cfg, s, s1) && Next(cfg, s1, a, s2)
    ensures Reaches(cfg, s, s2)
  {
    hide Next, Reaches;
    StepReaches(cfg, s1, a, s2);
    ReachesOn(cfg, s, s1, s2);
  }

  // ---------- putting a row ----------

  /** Goroutine `t` has prepared `row` for the end of the queue; unless the last row lacks a root, it has one. */
  ghost predicate Opened(cfg: Config, s: State, s': State, t: nat, key: Key, row: PolyTx) {
    && s' == s.(nodes := s'.nodes, threads := s.threads[t := Inserting(row, None)])
    && row.key == key && row.smtTxPath == PathOf(cfg.h, key) && row.txIndex == LastIndex(s.rows) + 1
    && row.status == Created && row.starcoinTxHash == "" && row.retryCount == 0
    && Sound(cfg, s', row)
    && if NeedsDeriving(LastRow(s.rows)) then row.root == [] else RootOf(s', row.root, PathSet(s.rows))
  }

  /** The root stands for these paths. */
  ghost predicate RootOf(s: State, root: Bytes, paths: set<Bytes>) {
    root != [] && root in s.nodes && s.nodes[root] == paths
  }

  /** The family holds the trees that deriving a proof of `path` against `paths` builds. */
  ghost predicate CanBuild(cfg: Config, paths: set<Bytes>, path: Bytes) {
    paths in cfg.trees && paths + {path} in cfg.trees
  }

  /** The transaction is not queued, and the family holds the trees that putting it builds. */
  ghost predicate CanPut(cfg: Config, s: State, key: Key) {
    && PathOf(cfg.h, key) !in PathSet(s.rows)
    && (NeedsDeriving(LastRow(s.rows)) || CanBuild(cfg, PathSet(s.rows), PathOf(cfg.h, key)))
  }

  lemma OpenPut(cfg: Config, s: State, t: nat, key: Key) returns (s': State, row: PolyTx)
    requires cfg.Valid() && Inv(cfg, s) && t !in s.threads
    requires CanPut(cfg, s, key)
    ensures Inv(cfg, s') && Reaches(cfg, s, s') && Opened(cfg, s, s', t, key, row)
  {
    hide Inv, Prepare, Sound, RootOf, SetRoot, LastIndex, NewRow, NodesAfterPut;
    var tx := NewPolyTx(cfg.h, key, "");
    CanPrepare(cfg, s, tx);
    row := NewRow(cfg.h, s.rows, s.nodes, tx);
    s' := s.(nodes := NodesAfterPut(cfg.h, s.rows, s.nodes), threads := s.threads[t := Inserting(row, None)]);
    assert Put(cfg.h, s, s', t, key, "") by {
      Prepares(cfg, s, s', t, tx, row);
    }
    assert Built(cfg.h, s, APut(t, key, "")) <= cfg.trees;
    StepReaches(cfg, s, APut(t, key, ""), s');
    PutOk(cfg, s, s', t, key, "");
    RowPrepared(cfg, s, s', t, tx, row);
  }

  lemma CanPrepare(cfg: Config, s: State, tx: PolyTx)
    requires cfg.Valid() && Inv(cfg, s)
    ensures AllPaths(cfg.h, Base(s.nodes, LastRow(s.rows)))
    ensures NeedsDeriving(LastRow(s.rows)) || Importable(s.nodes, LastRow(s.rows))
    ensures !NeedsDeriving(LastRow(s.rows)) ==> Base(s.nodes, LastRow(s.rows)) == PathSet(s.rows)
  {
    hide RemovedOk, ChainOk, TxsOk, ProcessedOk, ThreadsOk, RemovalsOk, PutsOk, ProvesAbsent, AbsenceProof, SetRoot;
    if NeedsDeriving(LastRow(s.rows)) {
      assert Sound(cfg, s, s.rows[LastIndex(s.rows)]);
    } else {
      BaseIsAll(cfg, s);
      PathsSized(cfg, s);
    }
  }

  lemma Prepares(cfg: Config, s: State, s': State, t: nat, tx: PolyTx, row: PolyTx)
    requires |tx.smtTxPath| == cfg.h.size && AllPaths(cfg.h, Base(s.nodes, LastRow(s.rows)))
    requires NeedsDeriving(LastRow(s.rows)) || Importable(s.nodes, LastRow(s.rows))
    requires t !in s.threads && row == NewRow(cfg.h, s.rows, s.nodes, tx)
    requires s' == s.(nodes := NodesAfterPut(cfg.h, s.rows, s.nodes), threads := s.threads[t := Inserting(row, None)])
    ensures Prepare(cfg.h, s, s', t, tx, None)
  {
    hide NewRow, NodesAfterPut, LastRow;
  }

  lemma RowPrepared(cfg: Config, s: State, s': State, t: nat, tx: PolyTx, row: PolyTx)
    requires cfg.Valid() && Inv(cfg, s') && s'.threads == s.threads[t := Inserting(row, None)]
    requires |tx.smtTxPath| == cfg.h.size && AllPaths(cfg.h, Base(s.nodes, LastRow(s.rows)))
    requires row == NewRow(cfg.h, s.rows, s.nodes, tx) && s'.nodes == NodesAfterPut(cfg.h, s.rows, s.nodes)
    requires tx == NewPolyTx(cfg.h, tx.key, "") && tx.smtTxPath !in PathSet(s.rows)
    requires !NeedsDeriving(LastRow(s.rows)) ==> Base(s.nodes, LastRow(s.rows)) == PathSet(s.rows)
    ensures Sound(cfg, s', row) && row.status == Created && row.starcoinTxHash == "" && row.retryCount == 0
    ensures row.key == tx.key && row.smtTxPath == tx.smtTxPath && row.txIndex == LastIndex(s.rows) + 1
    ensures if NeedsDeriving(LastRow(s.rows)) then row.root == [] else RootOf(s', row.root, PathSet(s.rows))
  {
    hide Inv, TablesOk, Sound, NodesOk, PathSet, SetRoot, Base;
    HeldOk(cfg, s', t);
    TablesNodes(cfg, s');
    if row.root in s'.nodes {
      NodeRoot(cfg, s', row.root);
      SetRootSize(cfg.h, s'.nodes[row.root]);
    }
    if !NeedsDeriving(LastRow(s.rows)) {
      SetRootSize(cfg.h, Base(s.nodes, LastRow(s.rows)));
    }
  }

  /** The tables after goroutine `t` has inserted `row`. */
  function WithRow(s: State, t: nat, row: PolyTx): State {
    var placed := row.(updatedAt := s.clock + 1);
    s.(rows := s.rows[row.txIndex := placed], clock := s.clock + 1, threads := s.threads[t := Reading(Claim(placed))])
  }

  lemma NotDuplicate(cfg: Config, s: State, row: PolyTx)
    requires RowsOk(cfg, s) && row.smtTxPath == PathOf(cfg.h, row.key) && row.smtTxPath !in PathSet(s.rows)
    ensures !Duplicate(s.rows, row)
  {
    hide RootProved, ProvesAbsent;
    forall i | i in s.rows ensures s.rows[i].key != row.key && s.rows[i].smtTxPath != row.smtTxPath {
      assert Sound(cfg, s, s.rows[i]) && s.rows[i].smtTxPath in PathSet(s.rows);
    }
  }

  lemma FitsEnd(cfg: Config, s: State, row: PolyTx)
    requires cfg.Valid() && Inv(cfg, s) && row.txIndex == LastIndex(s.rows) + 1
    requires if NeedsDeriving(LastRow(s.rows)) then row.root == [] else RootOf(s, row.root, PathSet(s.rows))
    ensures Fits(cfg.h, s.rows, row) && row.txIndex !in s.rows
  {
    hide RemovedOk, ChainOk, TxsOk, ProcessedOk, ThreadsOk, RemovalsOk, PutsOk, Follows, RowsOk, NodesOk, RootsOk;
    BeforeNext(s.rows);
    if row.root != [] {
      BaseIsAll(cfg, s);
      FollowsIsRootOfEarlier(cfg, s, row.txIndex, row.root);
    }
  }

  /** A row put at the end of the queue. */
  ghost predicate PutAt(cfg: Config, s: State, s': State, threads: map<nat, Thread>, key: Key, row: PolyTx) {
    && row.txIndex == LastIndex(s.rows) + 1 && row.txIndex !in s.rows
    && s' == s.(rows := s.rows[row.txIndex := row], nodes := s'.nodes, clock := s.clock + 1, threads := threads)
    && row.key == key && row.smtTxPath == PathOf(cfg.h, key)
    && row.status == Created && row.starcoinTxHash == "" && row.retryCount == 0
    && (row.root == [] <==> NeedsDeriving(LastRow(s.rows)))
  }

  lemma PutRow(cfg: Config, s: State, t: nat, key: Key) returns (s': State, row: PolyTx)
    requires cfg.Valid() && Inv(cfg, s) && t !in s.threads
    requires CanPut(cfg, s, key)
    ensures Inv(cfg, s') && Reaches(cfg, s, s') && PutAt(cfg, s, s', s.threads[t := Reading(Claim(row))], key, row)
  {
    hide Inv, Opened, Reaches, Fits, PutAt;
    var s1, prepared := OpenPut(cfg, s, t, key);
    OpenedFits(cfg, s, s1, t, key, prepared);
    s', row := WithRow(s1, t, prepared), prepared.(updatedAt := s1.clock + 1);
    ReachesOn(cfg, s, s1, s');
    ReachesOk(cfg, s1, s');
    OpenedIsPut(cfg, s, s1, t, key, prepared);
  }

  lemma OpenedFits(cfg: Config, s: State, s1: State, t: nat, key: Key, row: PolyTx)
    requires cfg.Valid() && Inv(cfg, s1) && Opened(cfg, s, s1, t, key, row) && PathOf(cfg.h, key) !in PathSet(s.rows)
    ensures Reaches(cfg, s1, WithRow(s1, t, row)) && row.txIndex !in s.rows
  {
    hide Inv, TablesOk, Sound, Reaches, Fits, LastIndex, PathSet, RootOf, WithRow;
    FitsEnd(cfg, s1, row);
    HeldTablesOk(cfg, s1);
    CanInsert(cfg, s1, t, row);
  }

  lemma OpenedIsPut(cfg: Config, s: State, s1: State, t: nat, key: Key, row: PolyTx)
    requires Opened(cfg, s, s1, t, key, row) && row.txIndex !in s.rows
    ensures var placed := row.(updatedAt := s1.clock + 1);
      PutAt(cfg, s, WithRow(s1, t, row), s.threads[t := Reading(Claim(placed))], key, placed)
  {
    hide Sound, LastIndex, PathSet;
    var thr := Reading(Claim(row.(updatedAt := s1.clock + 1)));
    assert s1.threads[t := thr] == s.threads[t := thr];
  }

  lemma CanInsert(cfg: Config, s: State, t: nat, row: PolyTx)
    requires TablesOk(cfg, s) && Sound(cfg, s, row) && row.smtTxPath !in PathSet(s.rows) && row.txIndex !in s.rows
    requires t in s.threads && s.threads[t] == Inserting(row, None)
    ensures InsertAnyhow(s, WithRow(s, t, row), t)
    ensures Fits(cfg.h, s.rows, row) ==>
      Next(cfg, s, AInsert(t), WithRow(s, t, row)) && Reaches(cfg, s, WithRow(s, t, row))
  {
    hide RootsOk, NodesOk, RemovedOk, ChainOk, TxsOk, ProcessedOk, RowsOk, PathSet, Fits, Duplicate, Reaches;
    hide RootProved, ProvesAbsent;
    NotDuplicate(cfg, s, row);
    if Fits(cfg.h, s.rows, row) {
      StepReaches(cfg, s, AInsert(t), WithRow(s, t, row));
    }
  }

  /** Goroutine `t` ends. */
  lemma Stop(cfg: Config, s0: State, s: State, t: nat) returns (s': State)
    requires cfg.Valid() && Inv(cfg, s) && Reaches(cfg, s0, s) && t in s.threads
    ensures Inv(cfg, s') && Reaches(cfg, s0, s') && s' == s.(threads := s.threads - {t})
  {
    hide Inv, Reaches;
    s' := s.(threads := s.threads - {t});
    StepReaches(cfg, s, AFinish(t), s');
    ReachesOk(cfg, s, s');
    ReachesOn(cfg, s0, s, s');
  }

  /** A row is put, and the goroutine that put it ends. */
  lemma PutIdle(cfg: Config, s: State, t: nat, key: Key) returns (s': State, row: PolyTx)
    requires cfg.Valid() && Inv(cfg, s) && t !in s.threads
    requires CanPut(cfg, s, key)
    ensures Inv(cfg, s') && Reaches(cfg, s, s') && PutAt(cfg, s, s', s.threads, key, row)
  {
    hide Inv, Reaches, LastIndex, LastRow, PathSet;
    var s1: State;
    s1, row := PutRow(cfg, s, t, key);
    s' := Stop(cfg, s, s1, t);
    assert s'.threads == s.threads;
  }

  // ---------- sending a row ----------

  lemma UnusedHash(used: set<string>) returns (hash: string)
    ensures hash != "" && hash !in used
  {
    hash := "x";
    var rest := used;
    while rest != {}
      invariant rest <= used && hash != "" && forall x :: x in used && x !in rest ==> |x| < |hash|
      decreases |rest|
    {
      var x :| x in rest;
      if |x| >= |hash| {
        hash := x + "x";
      }
      rest := rest - {x};
    }
  }

  /** Rows keep their places, keys, paths and roots. */
  ghost predicate SameQueue(rows: Rows, rows': Rows) {
    && rows'.Keys == rows.Keys
    && forall i :: i in rows ==>
        && rows'[i].key == rows[i].key && rows'[i].smtTxPath == rows[i].smtTxPath
        && rows'[i].root == rows[i].root && rows'[i].txIndex == rows[i].txIndex
  }

  /** The tables after goroutine `t` has claimed the row it read as `px`. */
  function Claimed(s: State, t: nat, m: PolyTx, px: PolyTx): State {
    s.(rows := OptimisticUpdate(s.rows, px, m.status, Fields(Processing, Some(""), true), s.clock + 1),
       clock := s.clock + 1, threads := s.threads[t := Deriving(m)])
  }

  lemma ClaimRow(cfg: Config, s: State, t: nat, m: PolyTx, i: nat)
    requires t in s.threads && s.threads[t] == Reading(Claim(m)) && i in s.rows && s.rows[i].key == m.key
    requires m.status == s.rows[i].status == Created
    ensures Reaches(cfg, s, Claimed(s, t, m, s.rows[i])) && SameQueue(s.rows, Claimed(s, t, m, s.rows[i]).rows)
  {
    hide Reaches;
    var px := s.rows[i];
    var s1 := s.(threads := s.threads[t := Writing(Claim(m), px)]);
    ReadsToClaim(cfg, s, t, m, i);
    assert Unchanged(s1.rows[i], px, m.status);
    assert s1.threads[t := Deriving(m)] == s.threads[t := Deriving(m)];
    assert Write(s1, Claimed(s, t, m, px), t);
    Onward(cfg, s, s1, AWrite(t), Claimed(s, t, m, px));
  }

  lemma ReadsToClaim(cfg: Config, s: State, t: nat, m: PolyTx, i: nat)
    requires t in s.threads && s.threads[t] == Reading(Claim(m)) && i in s.rows && s.rows[i].key == m.key
    requires m.status == s.rows[i].status == Created
    ensures Reaches(cfg, s, s.(threads := s.threads[t := Writing(Claim(m), s.rows[i])]))
  {
    hide Reaches, AfterCheck, IncludedAt, Quiescent;
    var thr := Writing(Claim(m), s.rows[i]);
    assert Moves(cfg.h, s, s.threads[t], thr);
    StepReaches(cfg, s, AMove(t, thr), s.(threads := s.threads[t := thr]));
  }

  /** The goroutine has submitted what it held. */
  function Sent(s: State, t: nat, m: PolyTx, hash: string): State
    requires m.sideNodes.Some?
  {
    s.(starcoin := Received(s.starcoin, hash, m), threads := s.threads[t := Reading(RecordHash(m.key, hash))])
  }

  lemma SubmitRow(cfg: Config, s: State, t: nat, m: PolyTx, hash: string)
    requires t in s.threads && s.threads[t] == Queued(m) && m.sideNodes.Some? && hash != "" && hash !in s.starcoin.txs
    ensures Reaches(cfg, s, Sent(s, t, m, hash))
  {
    hide Reaches;
    assert Submit(s, Sent(s, t, m, hash), t, hash);
    StepReaches(cfg, s, ASubmit(t, hash), Sent(s, t, m, hash));
  }

  lemma TakeUpRow(cfg: Config, s: State, t: nat, m: PolyTx)
    requires t in s.threads && s.threads[t] == Deriving(m) && m.root != []
    ensures Reaches(cfg, s, s.(threads := s.threads[t := Queued(m)]))
  {
    hide Reaches, AfterCheck, IncludedAt, Quiescent;
    StepReaches(cfg, s, AMove(t, Queued(m)), s.(threads := s.threads[t := Queued(m)]));
  }

  lemma RefetchRow(cfg: Config, s: State, t: nat, m: PolyTx, i: nat)
    requires t in s.threads && s.threads[t] == Refetching(m) && i in s.rows && s.rows[i].key == m.key
    ensures Reaches(cfg, s, s.(threads := s.threads[t := Queued(s.rows[i])]))
  {
    hide Reaches, AfterCheck, IncludedAt, Quiescent;
    var thr := Queued(s.rows[i]);
    assert Moves(cfg.h, s, s.threads[t], thr);
    StepReaches(cfg, s, AMove(t, thr), s.(threads := s.threads[t := thr]));
  }

  /** Goroutine `t` reads the row again and submits it. */
  lemma RefetchAndSubmit(cfg: Config, s: State, t: nat, m: PolyTx, i: nat, hash: string) returns (s': State)
    requires t in s.threads && s.threads[t] == Refetching(m) && i in s.rows && s.rows[i].key == m.key
    requires s.rows[i].sideNodes.Some? && hash != "" && hash !in s.starcoin.txs
    ensures Reaches(cfg, s, s') && s' == Sent(s, t, s.rows[i], hash)
  {
    hide Reaches;
    RefetchRow(cfg, s, t, m, i);
    var s1 := s.(threads := s.threads[t := Queued(s.rows[i])]);
    SubmitRow(cfg, s1, t, s.rows[i], hash);
    s' := Sent(s1, t, s.rows[i], hash);
    ReachesOn(cfg, s, s1, s');
    assert s'.threads == Sent(s, t, s.rows[i], hash).threads;
  }

  /** Goroutine `t` claims and submits the row it put. */
  lemma SendRow(cfg: Config, s: State, t: nat, m: PolyTx, i: nat, hash: string) returns (s': State)
    requires t in s.threads && s.threads[t] == Reading(Claim(m)) && i in s.rows && s.rows[i].key == m.key
    requires m.status == s.rows[i].status == Created
    requires m.root != [] && m.sideNodes.Some? && hash != "" && hash !in s.starcoin.txs
    ensures Reaches(cfg, s, s') && SameQueue(s.rows, s'.rows)
    ensures s' == Sent(s, t, m, hash).(rows := s'.rows, clock := s'.clock)
  {
    hide Reaches, SameQueue, OptimisticUpdate;
    ClaimRow(cfg, s, t, m, i);
    var s1 := Claimed(s, t, m, s.rows[i]);
    TakeUpRow(cfg, s1, t, m);
    var s2 := s1.(threads := s1.threads[t := Queued(m)]);
    SubmitRow(cfg, s2, t, m, hash);
    s' := Sent(s2, t, m, hash);
    ReachesOn(cfg, s, s1, s2);
    ReachesOn(cfg, s, s2, s');
    assert s2.threads[t := Reading(RecordHash(m.key, hash))] == s.threads[t := Reading(RecordHash(m.key, hash))];
  }

  /** A pending transaction with Starcoin's root and a proof against what has been executed is executed. */
  lemma ExecuteRow(cfg: Config, s: State, hash: string) returns (s': State)
    requires cfg.Valid() && TxIs(s, hash, Pending) && s.starcoin.txs[hash].root == s.starcoin.root
    requires var tx := s.starcoin.txs[hash];
      AbsenceProof(cfg.h, Elements(s.starcoin.log), tx.path, tx.sideNodes, tx.leafData)
    ensures Execute(cfg.h, s, s', hash) && Reaches(cfg, s, s') && s' == s.(starcoin := s'.starcoin)
    ensures var tx := s.starcoin.txs[hash];
      && s'.starcoin.log == s.starcoin.log + [tx.path]
      && s'.starcoin.txs == s.starcoin.txs[hash := tx.(state := Executed)]
      && AllPaths(cfg.h, Elements(s.starcoin.log) + {tx.path})
      && s'.starcoin.root == SetRoot(cfg.h, Elements(s.starcoin.log) + {tx.path})
  {
    hide UpdatedRoot, SetRoot, Reaches, AbsenceProof;
    var tx := s.starcoin.txs[hash];
    InclusionRoot(cfg.h, Elements(s.starcoin.log), tx.path, tx.sideNodes, tx.leafData);
    var root := UpdatedRoot(cfg.h, tx.path, EXISTS_VALUE, Present(tx.sideNodes), tx.leafData);
    s' := s.(starcoin := Starcoin(root, s.starcoin.log + [tx.path], s.starcoin.txs[hash := tx.(state := Executed)]));
    assert Execute(cfg.h, s, s', hash);
    StepReaches(cfg, s, AExecute(hash), s');
  }

  // ---------- deriving a row again ----------

  /** A new row without a root, every row before it having one. */
  ghost predicate Derivable(s: State, i: nat) {
    && i in s.rows && s.rows[i].root == [] && s.rows[i].status == Created && s.rows[i].retryCount == 0
    && forall j :: j in s.rows && j < i ==> s.rows[j].root != []
  }

  lemma PickRow(cfg: Config, s: State, t: nat, i: nat) returns (s': State)
    requires cfg.Valid() && Inv(cfg, s) && t !in s.threads && Derivable(s, i)
    ensures Reaches(cfg, s, s')
    ensures s' == s.(clock := s'.clock, threads := s.threads[t := Reading(Claim(s.rows[i]))])
  {
    hide Inv, Reaches, RecentlyStuck;
    var s1 := s.(clock := s.clock + MAX_PROCESSING_MILLIS + 1);
    StampsPast(cfg, s, i);
    var thr := Reading(Claim(s.rows[i]));
    s' := s1.(threads := s.threads[t := thr]);
    StepReaches(cfg, s, ATick(MAX_PROCESSING_MILLIS + 1), s1);
    assert Picked(s1, i, thr);
    Onward(cfg, s, s1, ASpawn(t, thr), s');
  }

  lemma StampsPast(cfg: Config, s: State, i: nat)
    requires Inv(cfg, s) && i in s.rows
    ensures 0 < s.rows[i].updatedAt <= s.clock
  {
    hide RootsOk, NodesOk, RemovedOk, ChainOk, TxsOk, ProcessedOk, ThreadsOk, RemovalsOk, PutsOk, Sound;
  }

  /** Row `i` derived again. */
  ghost predicate Rederived(s: State, s': State, threads: map<nat, Thread>, i: nat) {
    && i in s.rows && i in s'.rows
    && s' == s.(rows := s.rows[i := s'.rows[i]], nodes := s'.nodes, clock := s'.clock, threads := threads)
    && s'.rows[i].key == s.rows[i].key && s'.rows[i].smtTxPath == s.rows[i].smtTxPath
    && s'.rows[i].txIndex == s.rows[i].txIndex && s'.rows[i].root != []
  }

  lemma DeriveRow(cfg: Config, s: State, t: nat, i: nat) returns (s': State)
    requires cfg.Valid() && Inv(cfg, s) && t !in s.threads && Derivable(s, i)
    requires CanBuild(cfg, Before(s.rows, i), s.rows[i].smtTxPath)
    ensures Inv(cfg, s') && Reaches(cfg, s, s') && Rederived(s, s', s.threads[t := Refetching(s.rows[i])], i)
  {
    hide Inv, Reaches, OptimisticUpdate, Rederived, Before, SameQueue;
    var s1 := PickRow(cfg, s, t, i);
    var m := s.rows[i];
    ClaimRow(cfg, s1, t, m, i);
    var s2 := Claimed(s1, t, m, m);
    ReachesOn(cfg, s, s1, s2);
    ReachesOk(cfg, s, s2);
    ClaimsOnly(cfg, s, s1, t, i);
    RowIndex(cfg, s, i);
    BeforeChangedRow(s.rows, i, s2.rows[i]);
    s' := DeriveClaimed(cfg, s2, t, m);
    ReachesOn(cfg, s, s2, s');
    DerivedAfterClaim(s, s1, s2, s', t, i);
  }

  lemma BeforeChangedRow(rows: Rows, i: nat, row: PolyTx)
    ensures Before(rows[i := row], i) == Before(rows, i)
  {
    forall p | p in Before(rows, i) ensures p in Before(rows[i := row], i) {
      var j :| j in rows && j < i && rows[j].smtTxPath == p;
      assert rows[i := row][j] == rows[j];
    }
  }

  lemma DeriveIdle(cfg: Config, s: State, t: nat, i: nat) returns (s': State)
    requires cfg.Valid() && Inv(cfg, s) && t !in s.threads && Derivable(s, i)
    requires CanBuild(cfg, Before(s.rows, i), s.rows[i].smtTxPath)
    ensures Inv(cfg, s') && Reaches(cfg, s, s') && Rederived(s, s', s.threads, i)
  {
    hide Inv, Reaches;
    var s1 := DeriveRow(cfg, s, t, i);
    s' := Stop(cfg, s, s1, t);
    assert s'.threads == s.threads;
  }

  lemma DerivedAfterClaim(s: State, s1: State, s2: State, s': State, t: nat, i: nat)
    requires i in s.rows && s1 == s.(clock := s1.clock, threads := s.threads[t := Reading(Claim(s.rows[i]))])
    requires i in s2.rows
    requires s2 == s1.(rows := s.rows[i := s2.rows[i]], clock := s2.clock,
      threads := s1.threads[t := Deriving(s.rows[i])])
    requires s2.rows[i].key == s.rows[i].key && s2.rows[i].smtTxPath == s.rows[i].smtTxPath
    requires s2.rows[i].txIndex == s.rows[i].txIndex
    requires Rederives(s2, s', t, s.rows[i], i)
    ensures Rederived(s, s', s.threads[t := Refetching(s.rows[i])], i)
  {
    assert s2.rows[i := s'.rows[i]] == s.rows[i := s'.rows[i]];
    assert s2.threads[t := Refetching(s.rows[i])] == s.threads[t := Refetching(s.rows[i])];
  }

  lemma RowIndex(cfg: Config, s: State, i: nat)
    requires Inv(cfg, s) && i in s.rows
    ensures s.rows[i].txIndex == i && s.rows[i].smtTxPath == PathOf(cfg.h, s.rows[i].key)
    ensures |s.rows[i].smtTxPath| == cfg.h.size
  {
    hide RootsOk, NodesOk, RemovedOk, ChainOk, TxsOk, ProcessedOk, ThreadsOk, RemovalsOk, PutsOk, RootProved;
    hide ProvesAbsent;
    assert Sound(cfg, s, s.rows[i]);
  }

  /** The claim changes row `i` alone. */
  lemma ClaimsOnly(cfg: Config, s: State, s1: State, t: nat, i: nat)
    requires Inv(cfg, s) && i in s.rows && s1.rows == s.rows && s.rows[i].status == Created
    ensures var s2 := Claimed(s1, t, s.rows[i], s.rows[i]);
      && i in s2.rows && s2.rows == s.rows[i := s2.rows[i]]
      && s2.rows[i] == s.rows[i].(status := Processing, starcoinTxHash := "", retryCount := s.rows[i].retryCount + 1,
         updatedAt := s1.clock + 1)
  {
    hide Inv, TablesOk;
    HeldTablesOk(cfg, s);
    forall j | j in s.rows && j != i ensures s.rows[j].key != s.rows[i].key {
      if s.rows[j].key == s.rows[i].key {
        KeyOfOneRow(cfg, s, i, j);
      }
    }
  }

  lemma KeyOfOneRow(cfg: Config, s: State, i: nat, j: nat)
    requires TablesOk(cfg, s) && i in s.rows && j in s.rows && s.rows[i].key == s.rows[j].key
    ensures i == j
  {
    hide RowsOk, RootsOk, NodesOk, RemovedOk, ChainOk, TxsOk, ProcessedOk;
    SameKeySameRow(cfg, s, i, j);
  }

  ghost predicate Rederives(s: State, s': State, t: nat, m: PolyTx, i: nat) {
    && i in s.rows && i in s'.rows
    && s' == s.(rows := s.rows[i := s'.rows[i]], nodes := s'.nodes, clock := s'.clock,
       threads := s.threads[t := Refetching(m)])
    && s'.rows[i].key == s.rows[i].key && s'.rows[i].smtTxPath == s.rows[i].smtTxPath
    && s'.rows[i].txIndex == s.rows[i].txIndex && s'.rows[i].root != []
    && s'.rows[i].status == s.rows[i].status
  }

  /** A goroutine about to derive the proof of its row does so. */
  lemma DeriveClaimed(cfg: Config, s: State, t: nat, m: PolyTx) returns (s': State)
    requires cfg.Valid() && Inv(cfg, s) && t in s.threads && s.threads[t] == Deriving(m) && m.root == []
    requires m.txIndex in s.rows && forall j :: j in s.rows && j < m.txIndex ==> s.rows[j].root != []
    requires CanBuild(cfg, Before(s.rows, m.txIndex), s.rows[m.txIndex].smtTxPath)
    ensures Inv(cfg, s') && Reaches(cfg, s, s') && Rederives(s, s', t, m, m.txIndex)
  {
    hide Inv, Reaches, WithProof, WithVersion, Base, Importable;
    var i, pre := m.txIndex, Previous(s.rows, m.txIndex);
    CanDerive(cfg, s, i);
    s' := s.(rows := s.rows[i := WithProof(cfg.h, s.nodes, s.rows[i], pre).(updatedAt := s.clock + 1)],
             nodes := WithVersion(cfg.h, s.nodes, pre), clock := s.clock + 1, threads := s.threads[t := Refetching(m)]);
    assert Derive(cfg.h, s, s', t) && Built(cfg.h, s, ADerive(t)) <= cfg.trees;
    StepReaches(cfg, s, ADerive(t), s');
    DeriveOk(cfg, s, s', t);
    ProofKeeps(cfg.h, s.nodes, s.rows[i], pre);
  }

  lemma ProofKeeps(h: Hasher, nodes: Nodes, tx: PolyTx, pre: Option<PolyTx>)
    requires h.Valid() && AllPaths(h, Base(nodes, pre)) && |tx.smtTxPath| == h.size
    ensures var tx' := WithProof(h, nodes, tx, pre);
      tx'.root != [] && tx' == tx.(root := tx'.root, sideNodes := tx'.sideNodes, leafData := tx'.leafData)
  {
    SetRootSize(h, Base(nodes, pre));
  }

  lemma CanDerive(cfg: Config, s: State, i: nat)
    requires cfg.Valid() && Inv(cfg, s) && i in s.rows && forall j :: j in s.rows && j < i ==> s.rows[j].root != []
    ensures var pre := Previous(s.rows, i);
      && !NeedsDeriving(pre) && Importable(s.nodes, pre) && AllPaths(cfg.h, Base(s.nodes, pre))
      && |s.rows[i].smtTxPath| == cfg.h.size && Base(s.nodes, pre) == Before(s.rows, i)
  {
    hide NodesOk, RemovedOk, ChainOk, TxsOk, ProcessedOk, ThreadsOk, RemovalsOk, PutsOk, Sound;
    BaseIsBefore(cfg, s, i);
    RowIndex(cfg, s, i);
  }

  // ---------- removing a row ----------

  /** Row `i` with the operator's mark. */
  function Marked(s: State, i: nat): PolyTx
    requires i in s.rows
  {
    s.rows[i].(status := ToBeRemoved)
  }

  /** Goroutine `t` has picked row `i`, marked by the operator. */
  function ForRemoval(s: State, t: nat, i: nat): State
    requires i in s.rows
  {
    s.(rows := s.rows[i := Marked(s, i)], threads := s.threads[t := Removing(Marked(s, i))])
  }

  lemma PickForRemoval(cfg: Config, s: State, t: nat, i: nat)
    requires i in s.rows && t !in s.threads && forall u :: u in s.threads ==> !IsRemoval(s.threads[u])
    ensures Reaches(cfg, s, ForRemoval(s, t, i))
  {
    hide Reaches, RecentlyStuck, FailedLongAgo, TimedOutLongAgo;
    var m := Marked(s, i);
    var s1 := s.(rows := s.rows[i := m]);
    StepReaches(cfg, s, AMarkForRemoval(i), s1);
    assert Picked(s1, i, Removing(m));
    Onward(cfg, s, s1, ASpawn(t, Removing(m)), ForRemoval(s, t, i));
  }

  /** Goroutine `t` has compared the root of row `i` with Starcoin's. */
  function Compared(s: State, t: nat, i: nat): State
    requires i in s.rows
  {
    s.(rows := s.rows[i := Marked(s, i)], threads := s.threads[t := Removable(Marked(s, i))])
  }

  lemma CompareRoots(cfg: Config, s: State, t: nat, i: nat)
    requires i in s.rows && t !in s.threads && forall u :: u in s.threads ==> !IsRemoval(s.threads[u])
    requires s.rows[i].root == s.starcoin.root && Quiescent(s, s.rows[i].key, s.rows[i].smtTxPath)
    ensures Reaches(cfg, s, Compared(s, t, i))
  {
    hide Reaches, AfterCheck, IncludedAt;
    PickForRemoval(cfg, s, t, i);
    var s1, m := ForRemoval(s, t, i), Marked(s, i);
    assert s1.threads[t := Removable(m)] == s.threads[t := Removable(m)];
    Onward(cfg, s, s1, AMove(t, Removable(m)), Compared(s, t, i));
  }

  /** Nothing speaks against taking row `i` out of the queue. */
  ghost predicate Idle(s: State, i: nat) {
    && i in s.rows && s.rows[i].root == s.starcoin.root && Quiescent(s, s.rows[i].key, s.rows[i].smtTxPath)
    && (forall u :: u in s.threads ==> !IsRemoval(s.threads[u]))
    && (forall u :: u in s.threads && s.threads[u].Inserting? ==> s.threads[u].row.smtTxPath != s.rows[i].smtTxPath)
    && (forall id :: id in s.removed ==>
       s.removed[id].key != s.rows[i].key && s.removed[id].smtTxPath != s.rows[i].smtTxPath)
  }

  lemma RemoveRow(cfg: Config, s: State, t: nat, i: nat) returns (s': State)
    requires cfg.Valid() && Inv(cfg, s) && t !in s.threads && Idle(s, i)
    ensures Inv(cfg, s') && Reaches(cfg, s, s')
    ensures s' == s.(rows := Removed(s.rows, i),
                     removed := s.removed[s.nextRemovedId := ToRemovedPolyTx(Marked(s, i), s.nextRemovedId)],
                     nextRemovedId := s.nextRemovedId + 1)
  {
    hide Inv, Reaches, Quiescent, Compared, Removed;
    CompareRoots(cfg, s, t, i);
    RowIndex(cfg, s, i);
    s' := TakeRow(cfg, s, t, i);
    Onward(cfg, s, Compared(s, t, i), ARemove(t), s');
    ReachesOk(cfg, s, s');
  }

  lemma TakeRow(cfg: Config, s: State, t: nat, i: nat) returns (s': State)
    requires t !in s.threads && Idle(s, i) && s.rows[i].txIndex == i
    ensures Next(cfg, Compared(s, t, i), ARemove(t), s')
    ensures s' == s.(rows := Removed(s.rows, i),
                     removed := s.removed[s.nextRemovedId := ToRemovedPolyTx(Marked(s, i), s.nextRemovedId)],
                     nextRemovedId := s.nextRemovedId + 1)
  {
    hide Quiescent, ToRemovedPolyTx;
    var s1 := Compared(s, t, i);
    s' := s.(rows := Removed(s.rows, i),
             removed := s.removed[s.nextRemovedId := ToRemovedPolyTx(Marked(s, i), s.nextRemovedId)],
             nextRemovedId := s.nextRemovedId + 1);
    assert Removed(s1.rows, i) == Removed(s.rows, i);
    assert s1.threads - {t} == s.threads;
    assert Remove(s1, s', t);
  }

  // ---------- executing a row ----------

  lemma RootMatches(cfg: Config, s: State, i: nat)
    requires cfg.Valid() && Inv(cfg, s) && i in s.rows && s.rows[i].root != []
    requires Before(s.rows, i) == Elements(s.starcoin.log)
    ensures s.rows[i].root == s.starcoin.root && s.rows[i].sideNodes.Some?
    ensures AbsenceProof(cfg.h, Elements(s.starcoin.log), s.rows[i].smtTxPath, s.rows[i].sideNodes.value,
      s.rows[i].leafData)
  {
    hide RowsOk, RemovedOk, TxsOk, ProcessedOk, ThreadsOk, RemovalsOk, PutsOk, AbsenceProof, SetRoot;
    RowProof(cfg, s, i);
  }

  /** Goroutine `t` claims and submits the row as it holds it, and it is executed. */
  lemma RunHeld(cfg: Config, s: State, t: nat, m: PolyTx, i: nat, hash: string) returns (s': State)
    requires cfg.Valid() && t in s.threads && s.threads[t] == Reading(Claim(m)) && i in s.rows && s.rows[i].key == m.key
    requires m.status == s.rows[i].status == Created && hash != "" && hash !in s.starcoin.txs
    requires m.root == s.starcoin.root && m.root != [] && m.sideNodes.Some?
    requires AbsenceProof(cfg.h, Elements(s.starcoin.log), m.smtTxPath, m.sideNodes.value, m.leafData)
    ensures Reaches(cfg, s, s') && SameQueue(s.rows, s'.rows)
    ensures s' == s.(rows := s'.rows, clock := s'.clock, starcoin := s'.starcoin,
                     threads := s.threads[t := Reading(RecordHash(m.key, hash))])
    ensures s'.starcoin.log == s.starcoin.log + [m.smtTxPath]
    ensures AllPaths(cfg.h, Elements(s.starcoin.log) + {m.smtTxPath})
    ensures s'.starcoin.root == SetRoot(cfg.h, Elements(s.starcoin.log) + {m.smtTxPath})
    ensures var tx := Submission(m.smtTxPath, m.root, m.sideNodes.value, m.leafData, Executed);
      s'.starcoin.txs == s.starcoin.txs[hash := tx]
  {
    hide Reaches, SameQueue, AbsenceProof, SetRoot, CollisionFree, Execute;
    var s1 := SendRow(cfg, s, t, m, i, hash);
    s' := ExecuteRow(cfg, s1, hash);
    ReachesOn(cfg, s, s1, s');
  }

  /** The row that goroutine `t` put is the next one: it is sent and executed. */
  lemma RunRow(cfg: Config, s: State, t: nat, i: nat, hash: string) returns (s': State)
    requires cfg.Valid() && Inv(cfg, s) && i in s.rows && s.rows[i].root != [] && s.rows[i].status == Created
    requires t in s.threads && s.threads[t] == Reading(Claim(s.rows[i]))
    requires Before(s.rows, i) == Elements(s.starcoin.log) && hash != "" && hash !in s.starcoin.txs
    ensures Inv(cfg, s') && Reaches(cfg, s, s') && SameQueue(s.rows, s'.rows)
    ensures s' == s.(rows := s'.rows, clock := s'.clock, starcoin := s'.starcoin,
                     threads := s.threads[t := Reading(RecordHash(s.rows[i].key, hash))])
    ensures s'.starcoin.log == s.starcoin.log + [s.rows[i].smtTxPath]
    ensures s'.starcoin.txs.Keys == s.starcoin.txs.Keys + {hash}
  {
    hide Inv, Reaches, SameQueue, AbsenceProof, SetRoot;
    RootMatches(cfg, s, i);
    s' := RunHeld(cfg, s, t, s.rows[i], i, hash);
    ReachesOk(cfg, s, s');
  }

  /** A root once known stands for the same paths as long as it is known. */
  lemma RootStays(cfg: Config, s: State, s': State, root: Bytes, paths: set<Bytes>)
    requires cfg.Valid() && Inv(cfg, s) && Inv(cfg, s') && RootOf(s, root, paths) && root in s'.nodes
    ensures RootOf(s', root, paths)
  {
    hide Inv, SetRoot, NodesOk, TablesOk;
    HeldTablesOk(cfg, s);
    HeldTablesOk(cfg, s');
    TablesNodes(cfg, s);
    TablesNodes(cfg, s');
    NodeRoot(cfg, s, root);
    NodeRoot(cfg, s', root);
    SameRootSameSet(cfg.h, cfg.trees, s.nodes[root], s'.nodes[root]);
  }
}
