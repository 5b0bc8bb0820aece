/**
 Runs that show what the conditions left open by the code are needed for. Each of them keeps to the steps of
 `Next` but for one insertion or one removal, made as the code makes it.
 */
module RelayWitness {
  import opened Bytes
  import opened Wrappers
  import opened SmtUpdate
  import opened PathSets
  import opened PolyTxs
  import opened PolyTxTable
  import opened Relay
  import opened RelayInvariant
  import opened RelayLocalSteps
  import opened RelayInsertion
  import opened RelayHazards
  import opened RelayRuns

  /** The family holds all trees made of these paths. */
  ghost predicate Covers(cfg: Config, paths: set<Bytes>) {
    forall t: set<Bytes> :: t <= paths ==> t in cfg.trees
  }

  /** The keys have different paths, and the family holds the trees made of them. */
  ghost predicate Distinct(cfg: Config, k: Key, b: Key) {
    PathOf(cfg.h, k) != PathOf(cfg.h, b) && Covers(cfg, {PathOf(cfg.h, k), PathOf(cfg.h, b)})
  }

  lemma CoveredPut(cfg: Config, s: State, paths: set<Bytes>, key: Key)
    requires Covers(cfg, paths) && PathSet(s.rows) <= paths
    requires PathOf(cfg.h, key) in paths && PathOf(cfg.h, key) !in PathSet(s.rows)
    ensures CanPut(cfg, s, key)
  {
    hide PathSet;
    assert PathSet(s.rows) + {PathOf(cfg.h, key)} <= paths;
  }

  /** A state reached from the empty tables. */
  ghost predicate Reached(cfg: Config, s: State) {
    Reaches(cfg, Init(cfg.h), s) && Inv(cfg, s)
  }

  lemma Start(cfg: Config)
    requires cfg.Valid()
    ensures Reached(cfg, Init(cfg.h))
  {
    hide Reaches, Inv;
    InitOk(cfg);
    ReachesItself(cfg, Init(cfg.h));
  }

  lemma ReachedOn(cfg: Config, s: State, s': State)
    requires cfg.Valid() && Reached(cfg, s) && Reaches(cfg, s, s')
    ensures Reached(cfg, s')
  {
    hide Reaches, Inv;
    ReachesOn(cfg, Init(cfg.h), s, s');
    ReachesOk(cfg, s, s');
  }

  /** The first row, put by goroutine 0. */
  ghost predicate First(cfg: Config, s: State, key: Key, row: PolyTx) {
    && s == Init(cfg.h).(rows := map[1 := row], nodes := s.nodes, clock := s.clock,
       threads := map[0 := Reading(Claim(row))])
    && row.key == key && row.smtTxPath == PathOf(cfg.h, key) && row.txIndex == 1
    && row.status == Created && row.retryCount == 0 && row.starcoinTxHash == ""
    && row.root == s.starcoin.root && row.root != [] && row.sideNodes.Some?
    && AbsenceProof(cfg.h, {}, row.smtTxPath, row.sideNodes.value, row.leafData)
  }

  lemma PutFirst(cfg: Config, key: Key) returns (s: State, row: PolyTx)
    requires cfg.Valid() && {PathOf(cfg.h, key)} in cfg.trees
    ensures Reached(cfg, s) && First(cfg, s, key, row)
  {
    hide Reaches, Inv, AbsenceProof;
    Start(cfg);
    assert PathSet(Init(cfg.h).rows) == {} && {} + {PathOf(cfg.h, key)} == {PathOf(cfg.h, key)};
    s, row := PutRow(cfg, Init(cfg.h), 0, key);
    ReachedOn(cfg, Init(cfg.h), s);
    assert s.rows == map[1 := row] && s.threads == map[0 := Reading(Claim(row))];
    assert Before(s.rows, 1) == {} == Elements(s.starcoin.log);
    RootMatches(cfg, s, 1);
  }

  // ---------- a removed row that is executed ----------

  /** Goroutine `t` is about to remove row `m`, whose root is Starcoin's. */
  ghost predicate Removes(s: State, t: nat, m: PolyTx) {
    t in s.threads && s.threads[t] == Removing(m) && m.root == s.starcoin.root
  }

  lemma RemovesNow(cfg: Config, s: State, t: nat, m: PolyTx)
    requires Inv(cfg, s) && Removes(s, t, m)
    ensures AboutToRemove(cfg, s, m) && m.status == ToBeRemoved
  {
    hide TablesOk, RemovalsOk, PutsOk, Sound;
    HeldOk(cfg, s, t);
  }

  lemma PickedWhilePending(cfg: Config, key: Key, hash: string) returns (s: State, m: PolyTx)
    requires cfg.Valid() && {PathOf(cfg.h, key)} in cfg.trees && hash != ""
    ensures Reached(cfg, s) && Removes(s, 1, m) && m.txIndex == 1 && s.rows == map[1 := m] && Waits(s, m, hash)
  {
    hide Reached, Reaches;
    var s1, row := PutFirst(cfg, key);
    var s2 := SendRow(cfg, s1, 0, row, 1, hash);
    PickForRemoval(cfg, s2, 1, 1);
    m, s := Marked(s2, 1), ForRemoval(s2, 1, 1);
    ReachedOn(cfg, s1, s2);
    ReachedOn(cfg, s2, s);
    assert s.rows == map[1 := m];
  }

  /** A row is removed beside a pending transaction of its own: it is gone from the queue, and then executed. */
  lemma RemovedRowExecutes(cfg: Config, key: Key, hash: string)
    requires cfg.Valid() && {PathOf(cfg.h, key)} in cfg.trees && hash != ""
    ensures exists s, s1, s2, m ::
      && Reached(cfg, s) && Removes(s, 1, m) && RemovedAnyhow(s, s1, m) && Execute(cfg.h, s1, s2, hash)
      && s2.rows == map[] && ExecutedUnqueued(s2)
  {
    hide Inv, AboutToRemove, Waits, Execute, Reaches, ExecutedUnqueued;
    var s, m := PickedWhilePending(cfg, key, hash);
    RemovesNow(cfg, s, 1, m);
    var s1 := s.(rows := Removed(s.rows, 1),
      removed := s.removed[s.nextRemovedId := ToRemovedPolyTx(m, s.nextRemovedId)],
                 nextRemovedId := s.nextRemovedId + 1);
    assert s1.rows == map[];
    var s2 := WaitingExecutes(cfg, s, s1, m, hash);
    ExecutesRemoved(cfg, s, s1, s2, m, hash);
    assert s2.rows == map[] by {
      ExecuteKeepsRows(cfg, s1, s2, hash);
    }
  }

  lemma ExecuteKeepsRows(cfg: Config, s: State, s': State, hash: string)
    requires Execute(cfg.h, s, s', hash)
    ensures s'.rows == s.rows
  {
    hide UpdatedRoot;
  }

  // ---------- a removed row that comes back ----------

  /**
   Goroutine 1 is about to remove the first of two rows. Nothing has been submitted; goroutine 0 has
   yet to read the first row again before it claims it.
   */
  ghost predicate HeldUnread(cfg: Config, s: State, k: Key, b: Key, row: PolyTx, m: PolyTx) {
    && Removes(s, 1, m) && m == row.(status := ToBeRemoved) && s.rows.Keys == {1, 2} && s.rows[1] == m
    && s.rows[2].key == b && s.rows[2].smtTxPath == PathOf(cfg.h, b) && s.rows[2].txIndex == 2
    && s.threads.Keys == {0, 1, 2} && s.threads[0] == Reading(Claim(row)) && s.threads[2] == Reading(Claim(s.rows[2]))
    && s.removed == map[] && s.nextRemovedId == 0 && s.starcoin == Init(cfg.h).starcoin
    && row.key == k && row.smtTxPath == PathOf(cfg.h, k) && row.txIndex == 1 && row.status == Created
    && row.root == s.starcoin.root && row.root != [] && row.sideNodes.Some?
    && AbsenceProof(cfg.h, {}, row.smtTxPath, row.sideNodes.value, row.leafData)
  }

  lemma PickedUnread(cfg: Config, k: Key, b: Key) returns (s: State, row: PolyTx, m: PolyTx)
    requires cfg.Valid() && Distinct(cfg, k, b)
    ensures Reached(cfg, s) && HeldUnread(cfg, s, k, b, row, m)
  {
    hide Reached, Reaches, AbsenceProof, Inv, First, PutAt, HeldUnread;
    var s1: State;
    s1, row := PutFirst(cfg, k);
    ReachedOk(cfg, s1);
    FirstAlone(cfg, s1, k, row);
    CoveredPut(cfg, s1, {PathOf(cfg.h, k), PathOf(cfg.h, b)}, b);
    var s2, second := PutRow(cfg, s1, 2, b);
    TwoRows(cfg, s1, s2, k, b, row, second);
    PickForRemoval(cfg, s2, 1, 1);
    m, s := Marked(s2, 1), ForRemoval(s2, 1, 1);
    ReachedOn(cfg, s1, s2);
    ReachedOn(cfg, s2, s);
  }

  lemma FirstAlone(cfg: Config, s: State, key: Key, row: PolyTx)
    requires First(cfg, s, key, row)
    ensures PathSet(s.rows) == {PathOf(cfg.h, key)} && s.threads.Keys == {0}
    ensures LastIndex(s.rows) == 1 && LastRow(s.rows) == Some(row)
  {
    hide AbsenceProof;
    assert s.rows[1].smtTxPath in PathSet(s.rows);
  }

  lemma TwoRows(cfg: Config, s1: State, s2: State, k: Key, b: Key, row: PolyTx, second: PolyTx)
    requires First(cfg, s1, k, row) && PutAt(cfg, s1, s2, s1.threads[2 := Reading(Claim(second))], b, second)
    requires LastIndex(s1.rows) == 1
    ensures 1 in s2.rows && 1 !in s2.threads && forall u :: u in s2.threads ==> !IsRemoval(s2.threads[u])
    ensures HeldUnread(cfg, ForRemoval(s2, 1, 1), k, b, row, Marked(s2, 1))
  {
    hide AbsenceProof, LastIndex, LastRow;
  }

  lemma ReachedOk(cfg: Config, s: State)
    requires Reached(cfg, s)
    ensures Inv(cfg, s)
  {
  }

  /** The first row has been removed and put back behind the other one. */
  ghost predicate CameBack(s: State, k: Key, b: Key, pk: Bytes, pb: Bytes) {
    && s.rows.Keys == {2, 3} && s.rows[2].smtTxPath == pb
    && s.rows[3].key == k && s.rows[3].smtTxPath == pk && s.rows[3].status == Created
  }

  lemma ComesBack(cfg: Config, s: State, s1: State, k: Key, b: Key, row: PolyTx, m: PolyTx) returns (s2: State)
    requires cfg.Valid() && Inv(cfg, s) && HeldUnread(cfg, s, k, b, row, m) && RemovedAnyhow(s, s1, m)
    requires PathOf(cfg.h, k) != PathOf(cfg.h, b)
    ensures Reaches(cfg, s1, s2) && CameBack(s2, k, b, PathOf(cfg.h, k), PathOf(cfg.h, b))
    ensures 0 in s2.threads && s2.threads[0] == Reading(Claim(row)) && s2.starcoin == s.starcoin
  {
    hide Inv, Reaches, HeldUnread, RemovedAnyhow;
    SecondLeft(cfg, s, s1, k, b, row, m);
    var returned := ToPolyTx(ToRemovedPolyTx(m, 0)).(txIndex := 3, status := Created);
    var open := ReturnOpens(cfg, s, s1, returned, m);
    s2 := ReturnInserted(cfg, open, returned, b);
    Onward(cfg, s1, open, AInsert(3), s2);
  }

  lemma ReturnOpens(cfg: Config, s: State, s1: State, returned: PolyTx, m: PolyTx) returns (open: State)
    requires cfg.Valid() && Inv(cfg, s) && s1.nodes == s.nodes && 3 !in s1.threads
    requires s1.rows.Keys == {2} && {1, 2} <= s.rows.Keys && s1.rows[2] == s.rows[2].(root := [])
    requires s1.removed == map[0 := ToRemovedPolyTx(m, 0)] && m.smtTxPath == s.rows[1].smtTxPath
    requires returned == ToPolyTx(ToRemovedPolyTx(m, 0)).(txIndex := 3, status := Created)
    ensures Reaches(cfg, s1, open)
    ensures open == s1.(removed := open.removed, threads := s1.threads[3 := Inserting(returned, Some(0))])
  {
    hide Inv, Reaches, PushBack;
    var back := s1.(removed := s1.removed[0 := s1.removed[0].(status := ToBePushedBack)]);
    StepReaches(cfg, s1, AMarkForReturn(0), back);
    open := back.(threads := back.threads[3 := Inserting(returned, Some(0))]);
    ReturnPrepared(cfg, s, back, returned);
    Onward(cfg, s1, back, APushBack(3, 0), open);
  }

  lemma SecondLeft(cfg: Config, s: State, s1: State, k: Key, b: Key, row: PolyTx, m: PolyTx)
    requires HeldUnread(cfg, s, k, b, row, m) && RemovedAnyhow(s, s1, m)
    ensures s1.rows.Keys == {2} && {1, 2} <= s.rows.Keys && s1.rows[2] == s.rows[2].(root := [])
    ensures s.rows[2].key == b && s.rows[2].smtTxPath == PathOf(cfg.h, b)
    ensures s1.removed == map[0 := ToRemovedPolyTx(m, 0)] && s1.nodes == s.nodes && s1.starcoin == s.starcoin
    ensures m.key == k && m.smtTxPath == s.rows[1].smtTxPath == PathOf(cfg.h, k)
    ensures 3 !in s1.threads && 0 in s1.threads && s1.threads[0] == Reading(Claim(row))
  {
    hide AbsenceProof;
  }

  lemma ReturnInserted(cfg: Config, open: State, returned: PolyTx, b: Key) returns (s2: State)
    requires open.rows.Keys == {2} && open.rows[2].key == b && returned.key != b
    requires returned.smtTxPath != open.rows[2].smtTxPath
    requires 3 in open.threads && open.threads[3] == Inserting(returned, Some(0)) && returned.txIndex == 3
    requires returned.root == []
    ensures Next(cfg, open, AInsert(3), s2)
    ensures s2 == open.(rows := open.rows[3 := returned.(updatedAt := open.clock + 1)], clock := open.clock + 1,
                        threads := open.threads[3 := PushedBack(0)])
  {
    s2 := open.(rows := open.rows[3 := returned.(updatedAt := open.clock + 1)], clock := open.clock + 1,
                threads := open.threads[3 := PushedBack(0)]);
    assert InsertAnyhow(open, s2, 3) && Fits(cfg.h, open.rows, returned);
  }

  /** Behind a row without a root, a returning row is prepared without one. */
  lemma ReturnPrepared(cfg: Config, s: State, back: State, returned: PolyTx)
    requires cfg.Valid() && Inv(cfg, s) && back.nodes == s.nodes && 3 !in back.threads
    requires back.rows.Keys == {2} && 2 in s.rows && back.rows[2] == s.rows[2].(root := [])
    requires 0 in back.removed && back.removed[0].status == ToBePushedBack
    requires 1 in s.rows && back.removed[0].smtTxPath == s.rows[1].smtTxPath
    requires returned == ToPolyTx(back.removed[0]).(txIndex := 3, status := Created)
    ensures PushBack(cfg.h, back, back.(threads := back.threads[3 := Inserting(returned, Some(0))]), 3, 0)
  {
    hide Inv, WithProof, WithVersion, SetRoot;
    RowIndex(cfg, s, 1);
    AnyBaseOk(cfg, s, 2);
    assert LastIndex(back.rows) == 2 && LastRow(back.rows) == Some(back.rows[2]);
    hide LastIndex, LastRow, Base;
  }

  /** All paths have the digest's size, and so has a tree with one of them. */
  lemma AnyBaseOk(cfg: Config, s: State, i: nat)
    requires cfg.Valid() && Inv(cfg, s) && i in s.rows
    ensures AllPaths(cfg.h, Base(s.nodes, Some(s.rows[i].(root := []))))
    ensures |s.rows[i].smtTxPath| == cfg.h.size
  {
    hide Inv, TablesOk, NodesOk, SetRoot;
    RowIndex(cfg, s, i);
    HeldTablesOk(cfg, s);
    TablesNodes(cfg, s);
    if [] in s.nodes {
      NodeRoot(cfg, s, []);
    }
  }

  /**
   A removal while a goroutine has yet to read the row again: the row is put back behind another one,
   the goroutine claims it there and submits it as it was, and it is executed before the other one.
   */
  lemma ReturnedRowOvertakes(cfg: Config, k: Key, b: Key, hash: string)
    requires cfg.Valid() && Distinct(cfg, k, b) && hash != ""
    ensures exists s, s1, s2, m ::
      && Reached(cfg, s) && Removes(s, 1, m) && s.starcoin.txs == map[]
      && (forall t :: t in s.threads && Holds(s.threads[t]) == Some(m.key) ==> s.threads[t].Reading?)
      && RemovedAnyhow(s, s1, m) && Reaches(cfg, s1, s2)
      && !InOrder(s2.rows, Elements(s2.starcoin.log))
  {
    hide Inv, Reaches, AbsenceProof, Reached, Removed, CameBack, InOrder;
    var s, row, m := PickedUnread(cfg, k, b);
    ReachedOk(cfg, s);
    var s1 := s.(rows := Removed(s.rows, 1), removed := s.removed[0 := ToRemovedPolyTx(m, 0)], nextRemovedId := 1);
    assert RemovedAnyhow(s, s1, m);
    var back := ComesBack(cfg, s, s1, k, b, row, m);
    var s2 := Overtakes(cfg, back, k, b, row, hash);
    ReachesOn(cfg, s1, back, s2);
  }

  lemma Overtakes(cfg: Config, back: State, k: Key, b: Key, row: PolyTx, hash: string) returns (s2: State)
    requires cfg.Valid() && CameBack(back, k, b, PathOf(cfg.h, k), PathOf(cfg.h, b))
    requires PathOf(cfg.h, k) != PathOf(cfg.h, b)
    requires 0 in back.threads && back.threads[0] == Reading(Claim(row)) && back.starcoin == Init(cfg.h).starcoin
    requires hash != ""
    requires row.key == k && row.smtTxPath == PathOf(cfg.h, k) && row.status == Created
    requires row.root == back.starcoin.root && row.root != [] && row.sideNodes.Some?
    requires AbsenceProof(cfg.h, {}, row.smtTxPath, row.sideNodes.value, row.leafData)
    ensures Reaches(cfg, back, s2) && !InOrder(s2.rows, Elements(s2.starcoin.log))
  {
    hide Reaches, AbsenceProof, SetRoot;
    assert Elements(back.starcoin.log) == {};
    s2 := RunHeld(cfg, back, 0, row, 3, hash);
    SkippedRow(s2, 2, 3);
  }

  lemma SkippedRow(s: State, i: nat, j: nat)
    requires i in s.rows && j in s.rows && i < j
    requires s.rows[j].smtTxPath in s.starcoin.log && s.rows[i].smtTxPath !in s.starcoin.log
    ensures !InOrder(s.rows, Elements(s.starcoin.log))
  {
  }
}
