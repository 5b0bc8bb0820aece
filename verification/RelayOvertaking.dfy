/**
 Runs in which transactions are executed out of queue order: one with an insertion that does not fit, one
 with a removal while the same transaction is being put again. All other steps are those of `Next`.
 */
module RelayOvertaking {
  import opened Bytes
  import opened Wrappers
  import opened PathSets
  import opened PolyTxs
  import opened PolyTxTable
  import opened Relay
  import opened RelayInvariant
  import opened RelayInsertion
  import opened RelayHazards
  import opened RelayRuns
  import opened RelayWitness

  // ---------- an insertion that does not fit ----------

  /** What a goroutine's put, open since some earlier state, relies on. */
  ghost predicate OpenPutAt(cfg: Config, s: State, t: nat, row: PolyTx, key: Key, n: nat) {
    && t in s.threads && s.threads[t] == Inserting(row, None) && row.txIndex == n
    && row.key == key && row.smtTxPath == PathOf(cfg.h, key) && row.status == Created
  }

  /** One row alone is queued, with a root, in place `n`; nothing has been submitted. */
  ghost predicate Lone(cfg: Config, s: State, n: nat, key: Key, gone: Key) {
    && s.rows.Keys == {n} && s.rows[n].key == key && s.rows[n].smtTxPath == PathOf(cfg.h, key) && s.rows[n].root != []
    && s.starcoin == Init(cfg.h).starcoin
    && forall id :: id in s.removed ==> s.removed[id].key == gone && s.removed[id].smtTxPath == PathOf(cfg.h, gone)
  }

  /** Two new rows and no goroutine. */
  ghost predicate TwoInLine(cfg: Config, s: State, g: Key, l: Key) {
    && s.rows.Keys == {1, 2} && s.rows[1].key == g && s.rows[1].smtTxPath == PathOf(cfg.h, g)
    && s.rows[2].key == l && s.rows[2].smtTxPath == PathOf(cfg.h, l)
    && s.rows[2].status == Created && s.rows[2].retryCount == 0
    && s.threads == map[] && s.removed == map[] && s.starcoin == Init(cfg.h).starcoin
    && s.rows[1].root == s.starcoin.root
  }

  lemma PutTwo(cfg: Config, g: Key, l: Key) returns (s: State)
    requires cfg.Valid() && Distinct(cfg, g, l)
    ensures Reached(cfg, s) && TwoInLine(cfg, s, g, l)
  {
    hide Reached, Reaches, Inv, First, PutAt, TwoInLine;
    var s1, first := PutFirst(cfg, g);
    ReachedOk(cfg, s1);
    FirstAlone(cfg, s1, g, first);
    ReachesItself(cfg, s1);
    var s2 := Stop(cfg, s1, s1, 0);
    ReachedOn(cfg, s1, s2);
    CoveredPut(cfg, s2, {PathOf(cfg.h, g), PathOf(cfg.h, l)}, l);
    var second: PolyTx;
    s, second := PutIdle(cfg, s2, 0, l);
    ReachedOn(cfg, s2, s);
    InLine(cfg, s1, s2, s, g, l, first, second);
  }

  lemma InLine(cfg: Config, s1: State, s2: State, s: State, g: Key, l: Key, first: PolyTx, second: PolyTx)
    requires First(cfg, s1, g, first) && s2 == s1.(threads := s1.threads - {0}) && LastIndex(s1.rows) == 1
    requires PutAt(cfg, s2, s, s2.threads, l, second)
    ensures TwoInLine(cfg, s, g, l)
  {
    hide AbsenceProof, LastIndex, LastRow;
    assert s2.threads == map[];
  }

  /** The first of two rows is removed, and the second one derived again. */
  lemma SecondAlone(cfg: Config, g: Key, l: Key) returns (s: State)
    requires cfg.Valid() && Distinct(cfg, g, l)
    ensures Reached(cfg, s) && Lone(cfg, s, 2, l, g) && s.threads == map[]
  {
    hide Reached, Reaches, Inv, Idle, Derivable, Rederived, Lone, TwoInLine;
    var s4 := PutTwo(cfg, g, l);
    ReachedOk(cfg, s4);
    FirstIdle(cfg, s4, g, l);
    var s5 := RemoveRow(cfg, s4, 0, 1);
    ReachedOn(cfg, s4, s5);
    SecondDerivable(cfg, s4, s5, g, l);
    CoveredRow(cfg, s5, 2, {PathOf(cfg.h, g), PathOf(cfg.h, l)});
    s := DeriveIdle(cfg, s5, 0, 2);
    ReachedOn(cfg, s5, s);
    SecondDerived(cfg, s4, s5, s, g, l);
  }

  lemma FirstIdle(cfg: Config, s: State, g: Key, l: Key)
    requires TwoInLine(cfg, s, g, l)
    ensures Idle(s, 1) && s.threads == map[]
  {
  }

  lemma SecondDerivable(cfg: Config, s4: State, s5: State, g: Key, l: Key)
    requires TwoInLine(cfg, s4, g, l) && s5.rows == Removed(s4.rows, 1)
    ensures Derivable(s5, 2) && Before(s5.rows, 2) == {} && s5.rows[2].smtTxPath == PathOf(cfg.h, l)
  {
  }

  lemma CoveredRow(cfg: Config, s: State, i: nat, paths: set<Bytes>)
    requires Covers(cfg, paths) && i in s.rows && Before(s.rows, i) + {s.rows[i].smtTxPath} <= paths
    ensures CanBuild(cfg, Before(s.rows, i), s.rows[i].smtTxPath)
  {
    hide Before;
  }

  lemma SecondDerived(cfg: Config, s4: State, s5: State, s: State, g: Key, l: Key)
    requires TwoInLine(cfg, s4, g, l) && Idle(s4, 1) && Rederived(s5, s, s5.threads, 2)
    requires s5 == s4.(rows := Removed(s4.rows, 1),
                       removed := s4.removed[s4.nextRemovedId := ToRemovedPolyTx(Marked(s4, 1), s4.nextRemovedId)],
                       nextRemovedId := s4.nextRemovedId + 1)
    ensures Lone(cfg, s, 2, l, g) && s.threads == map[]
  {
  }

  /**
   Two rows are queued, the first one executed. A put of a third one is open that was prepared when the
   first one alone was queued.
   */
  ghost predicate Late(cfg: Config, s: State, row: PolyTx, l: Key, j: Key, i: Key) {
    && s.rows.Keys == {1, 2} && s.rows[1].smtTxPath == PathOf(cfg.h, l) && s.rows[2].smtTxPath == PathOf(cfg.h, j)
    && OpenPutAt(cfg, s, 1, row, i, 3) && RootOf(s, row.root, {PathOf(cfg.h, l)})
    && s.starcoin.log == [PathOf(cfg.h, l)] && "2" !in s.starcoin.txs
  }

  /** Beside the lone row a put is opened. */
  ghost predicate LoneAndPut(cfg: Config, s: State, row: PolyTx, l: Key, g: Key, i: Key) {
    && Lone(cfg, s, 2, l, g) && s.threads == map[1 := Inserting(row, None)]
    && OpenPutAt(cfg, s, 1, row, i, 3) && RootOf(s, row.root, {PathOf(cfg.h, l)})
  }

  lemma OpenBesideLone(cfg: Config, g: Key, l: Key, i: Key) returns (s: State, row: PolyTx)
    requires cfg.Valid() && Distinct(cfg, g, l) && Distinct(cfg, l, i)
    ensures Reached(cfg, s) && LoneAndPut(cfg, s, row, l, g, i)
  {
    hide Reached, Reaches, Inv, Lone, Opened;
    var s0 := SecondAlone(cfg, g, l);
    ReachedOk(cfg, s0);
    LoneRow(cfg, s0, 2, l, g);
    CoveredPut(cfg, s0, {PathOf(cfg.h, l), PathOf(cfg.h, i)}, i);
    s, row := OpenPut(cfg, s0, 1, i);
    ReachedOn(cfg, s0, s);
    PutBesideLone(cfg, s0, s, row, l, g, i);
  }

  lemma LoneRow(cfg: Config, s: State, n: nat, key: Key, gone: Key)
    requires Lone(cfg, s, n, key, gone)
    ensures PathSet(s.rows) == {PathOf(cfg.h, key)} && LastIndex(s.rows) == n && !NeedsDeriving(LastRow(s.rows))
    ensures Before(s.rows, n) == {} == Elements(s.starcoin.log)
  {
    assert s.rows[n].smtTxPath in PathSet(s.rows);
  }

  lemma PutBesideLone(cfg: Config, s0: State, s: State, row: PolyTx, l: Key, g: Key, i: Key)
    requires Lone(cfg, s0, 2, l, g) && s0.threads == map[] && Opened(cfg, s0, s, 1, i, row)
    requires PathSet(s0.rows) == {PathOf(cfg.h, l)} && LastIndex(s0.rows) == 2 && !NeedsDeriving(LastRow(s0.rows))
    ensures LoneAndPut(cfg, s, row, l, g, i)
  {
    hide Sound, LastIndex, LastRow, PathSet;
  }

  lemma LoneIdle(cfg: Config, s: State, row: PolyTx, l: Key, g: Key, i: Key)
    requires cfg.Valid() && Inv(cfg, s) && LoneAndPut(cfg, s, row, l, g, i) && Distinct(cfg, g, l)
    requires Distinct(cfg, l, i)
    ensures Idle(s, 2) && Removed(s.rows, 2) == map[] && 0 !in s.threads
  {
    hide Inv, AbsenceProof, RootOf;
    LoneRow(cfg, s, 2, l, g);
    RootMatches(cfg, s, 2);
  }

  /** That row is removed, put again and executed. */
  lemma PutAgain(cfg: Config, g: Key, l: Key, i: Key) returns (s0: State, s: State, row: PolyTx)
    requires cfg.Valid() && Distinct(cfg, g, l) && Distinct(cfg, l, i)
    ensures Inv(cfg, s0) && LoneAndPut(cfg, s0, row, l, g, i)
    ensures Reached(cfg, s) && RanAgain(cfg, s, row, l)
  {
    hide Reached, Reaches, Inv, LoneAndPut, Idle, PutAt, RanAgain, Removed;
    s0, row := OpenBesideLone(cfg, g, l, i);
    ReachedOk(cfg, s0);
    LoneIdle(cfg, s0, row, l, g, i);
    var s1 := RemoveRow(cfg, s0, 0, 2);
    ReachedOn(cfg, s0, s1);
    assert PathSet(s1.rows) == {};
    CoveredPut(cfg, s1, {PathOf(cfg.h, l), PathOf(cfg.h, i)}, l);
    var s2, again := PutRow(cfg, s1, 0, l);
    ReachedOn(cfg, s1, s2);
    AgainFirst(cfg, s0, s1, s2, row, again, l, g, i);
    s := RunRow(cfg, s2, 0, 1, "1");
    ReachedOn(cfg, s2, s);
    RunAgain(cfg, s2, s, row, again, l);
  }

  /** The row alone in the first place, the put still open. */
  ghost predicate Again(cfg: Config, s: State, row: PolyTx, again: PolyTx, l: Key) {
    && s.rows == map[1 := again] && again.key == l && again.smtTxPath == PathOf(cfg.h, l)
    && again.root != [] && again.status == Created
    && s.threads == map[0 := Reading(Claim(again)), 1 := Inserting(row, None)] && s.starcoin == Init(cfg.h).starcoin
  }

  lemma AgainFirst(cfg: Config, s0: State, s1: State, s2: State, row: PolyTx, again: PolyTx, l: Key, g: Key, i: Key)
    requires LoneAndPut(cfg, s0, row, l, g, i)
    requires s1 == s0.(rows := map[], removed := s1.removed, nextRemovedId := s1.nextRemovedId)
    requires PutAt(cfg, s1, s2, s1.threads[0 := Reading(Claim(again))], l, again)
    ensures Again(cfg, s2, row, again, l) && Before(s2.rows, 1) == {} == Elements(s2.starcoin.log)
  {
    assert s2.threads == map[0 := Reading(Claim(again)), 1 := Inserting(row, None)];
  }

  /** The row has been executed. */
  ghost predicate RanAgain(cfg: Config, s: State, row: PolyTx, l: Key) {
    && s.rows.Keys == {1} && s.rows[1].smtTxPath == PathOf(cfg.h, l) && s.rows[1].root != []
    && s.threads.Keys == {0, 1} && s.threads[1] == Inserting(row, None)
    && s.starcoin.log == [PathOf(cfg.h, l)] && "2" !in s.starcoin.txs
  }

  lemma RunAgain(cfg: Config, s2: State, s: State, row: PolyTx, again: PolyTx, l: Key)
    requires Again(cfg, s2, row, again, l) && SameQueue(s2.rows, s.rows)
    requires s.threads == s2.threads[0 := Reading(RecordHash(again.key, "1"))]
    requires s.starcoin.log == s2.starcoin.log + [again.smtTxPath]
    requires s.starcoin.txs.Keys == s2.starcoin.txs.Keys + {"1"}
    ensures RanAgain(cfg, s, row, l)
  {
    assert "2" !in s2.starcoin.txs.Keys + {"1"};
  }

  lemma PutLate(cfg: Config, g: Key, l: Key, j: Key, i: Key) returns (s: State, row: PolyTx)
    requires cfg.Valid() && Distinct(cfg, g, l) && Distinct(cfg, l, i) && Distinct(cfg, l, j)
    ensures Reached(cfg, s) && Late(cfg, s, row, l, j, i)
  {
    hide Reached, Reaches, Inv, LoneAndPut, RanAgain, PutAt, Late, RootOf;
    var s0: State, s1: State;
    s0, s1, row := PutAgain(cfg, g, l, i);
    ReachedOk(cfg, s1);
    OneRan(cfg, s1, row, l);
    CoveredPut(cfg, s1, {PathOf(cfg.h, l), PathOf(cfg.h, j)}, j);
    var second: PolyTx;
    s, second := PutRow(cfg, s1, 2, j);
    ReachedOn(cfg, s1, s);
    ReachedOk(cfg, s);
    RowKept(cfg, s0, s1, s, row, second, l, g, j, i);
  }

  lemma OneRan(cfg: Config, s: State, row: PolyTx, l: Key)
    requires RanAgain(cfg, s, row, l)
    ensures PathSet(s.rows) == {PathOf(cfg.h, l)} && 2 !in s.threads && LastIndex(s.rows) == 1
  {
    assert s.rows[1].smtTxPath in PathSet(s.rows);
  }

  lemma RowKept(cfg: Config, s0: State, s1: State, s: State, row: PolyTx, second: PolyTx, l: Key, g: Key, j: Key,
                i: Key)
    requires cfg.Valid() && Inv(cfg, s0) && LoneAndPut(cfg, s0, row, l, g, i) && RanAgain(cfg, s1, row, l)
    requires LastIndex(s1.rows) == 1
    requires Inv(cfg, s) && PutAt(cfg, s1, s, s1.threads[2 := Reading(Claim(second))], j, second)
    ensures Late(cfg, s, row, l, j, i)
  {
    hide Inv, TablesOk, Sound, LastRow, LastIndex;
    HeldOk(cfg, s, 1);
    InsertingRootKnown(cfg, s, row, None);
    RootStays(cfg, s0, s, row.root, {PathOf(cfg.h, l)});
  }

  /** What is prepared is sound unless its own path was queued. */
  lemma PreparedSound(cfg: Config, s: State, t: nat, row: PolyTx)
    requires Inv(cfg, s) && t in s.threads && s.threads[t] == Inserting(row, None)
    requires row.root in s.nodes && row.smtTxPath !in s.nodes[row.root]
    ensures Sound(cfg, s, row) && TablesOk(cfg, s)
  {
    hide Inv, TablesOk, Sound;
    HeldOk(cfg, s, t);
  }

  /** Inserted behind the second row, the late row is executed before it. */
  lemma LateOvertakes(cfg: Config, s: State, row: PolyTx, l: Key, j: Key, i: Key) returns (s1: State, s2: State)
    requires cfg.Valid() && Inv(cfg, s) && Late(cfg, s, row, l, j, i)
    requires Distinct(cfg, l, i) && Distinct(cfg, l, j) && Distinct(cfg, j, i)
    ensures InsertAnyhow(s, s1, 1) && !Fits(cfg.h, s.rows, row) && Reaches(cfg, s1, s2)
    ensures !InOrder(s2.rows, Elements(s2.starcoin.log))
  {
    hide Inv, TablesOk, Sound, Fits, Reaches, InsertAnyhow, AbsenceProof, SetRoot, InOrder, SameQueue;
    hide WithRow, Duplicate;
    PreparedSound(cfg, s, 1, row);
    CanInsert(cfg, s, 1, row);
    s1 := WithRow(s, 1, row);
    LateMisfits(cfg, s, s1, row, l, j, i);
    s2 := LateRuns(cfg, s, s1, row, l, j, i);
  }

  lemma LateMisfits(cfg: Config, s: State, s1: State, row: PolyTx, l: Key, j: Key, i: Key)
    requires cfg.Valid() && Inv(cfg, s) && Late(cfg, s, row, l, j, i) && InsertAnyhow(s, s1, 1)
    requires s1 == WithRow(s, 1, row)
    requires PathOf(cfg.h, l) != PathOf(cfg.h, j)
    ensures !Fits(cfg.h, s.rows, row)
  {
    hide Inv, Fits, InsertAnyhow;
    InsertKeepsRoots(cfg, s, s1, 1);
    assert s1.rows[2].smtTxPath in Before(s1.rows, 3);
  }

  lemma LateRuns(cfg: Config, s: State, s1: State, row: PolyTx, l: Key, j: Key, i: Key) returns (s2: State)
    requires cfg.Valid() && Inv(cfg, s) && Late(cfg, s, row, l, j, i) && Sound(cfg, s, row) && s1 == WithRow(s, 1, row)
    requires PathOf(cfg.h, j) != PathOf(cfg.h, l) && PathOf(cfg.h, j) != PathOf(cfg.h, i)
    ensures Reaches(cfg, s1, s2) && !InOrder(s2.rows, Elements(s2.starcoin.log))
  {
    hide Inv, Sound, Reaches, AbsenceProof, SetRoot, InOrder, WithRow, Late;
    LateInserted(cfg, s, s1, row, l, j, i);
    OwnProof(cfg, s, row);
    LateMatches(cfg, s, row, l);
    s2 := RunHeld(cfg, s1, 1, s1.rows[3], 3, "2");
    SkippedRow(s2, 2, 3);
  }

  lemma LateInserted(cfg: Config, s: State, s1: State, row: PolyTx, l: Key, j: Key, i: Key)
    requires Late(cfg, s, row, l, j, i) && s1 == WithRow(s, 1, row)
    ensures {2, 3} <= s1.rows.Keys && s1.rows[2].smtTxPath == PathOf(cfg.h, j)
    ensures s1.rows[3] == row.(updatedAt := s1.rows[3].updatedAt) && s1.starcoin == s.starcoin
    ensures 1 in s1.threads && s1.threads[1] == Reading(Claim(s1.rows[3]))
    ensures RootOf(s, row.root, {PathOf(cfg.h, l)}) && row.smtTxPath == PathOf(cfg.h, i) && row.status == Created
    ensures s.starcoin.log == [PathOf(cfg.h, l)] && "2" !in s.starcoin.txs
  {
  }

  lemma LateMatches(cfg: Config, s: State, row: PolyTx, l: Key)
    requires Inv(cfg, s) && RootOf(s, row.root, {PathOf(cfg.h, l)}) && s.starcoin.log == [PathOf(cfg.h, l)]
    ensures row.root == s.starcoin.root && Elements(s.starcoin.log) == {PathOf(cfg.h, l)}
  {
    hide RowsOk, RootsOk, RemovedOk, TxsOk, ProcessedOk, ThreadsOk, RemovalsOk, PutsOk, SetRoot;
    assert Elements(s.starcoin.log) == {PathOf(cfg.h, l)};
  }

  /**
   A put opened while row `l` was last, which was then removed, put again and executed: inserted although
   it does not fit, behind row `j`, its transaction is executed before that of `j`.
   */
  lemma MisfitOvertakes(cfg: Config, g: Key, l: Key, j: Key, i: Key)
    requires cfg.Valid() && Distinct(cfg, g, l) && Distinct(cfg, l, i) && Distinct(cfg, l, j)
    requires Distinct(cfg, j, i)
    ensures exists s, s1, s2 ::
      && Reached(cfg, s) && InsertAnyhow(s, s1, 1) && !Fits(cfg.h, s.rows, s.threads[1].row)
      && Reaches(cfg, s1, s2) && !InOrder(s2.rows, Elements(s2.starcoin.log))
  {
    hide Reached, Inv, InsertAnyhow, Fits, Reaches, InOrder, RootOf;
    var s, row := PutLate(cfg, g, l, j, i);
    ReachedOk(cfg, s);
    var s1, s2 := LateOvertakes(cfg, s, row, l, j, i);
  }

  // ---------- a removal while the same transaction is put again ----------

  /** The queue by key. */
  ghost predicate Line(cfg: Config, s: State, keys: map<nat, Key>) {
    && s.rows.Keys == keys.Keys
    && forall n :: n in keys ==> s.rows[n].key == keys[n] && s.rows[n].smtTxPath == PathOf(cfg.h, keys[n])
  }

  /** These rows are as they were put, without a root. */
  ghost predicate Rootless(s: State, indices: set<nat>) {
    forall n :: n in indices ==>
      n in s.rows && s.rows[n].root == [] && s.rows[n].status == Created && s.rows[n].retryCount == 0
  }

  /** Nothing has been submitted, and only these keys were removed. */
  ghost predicate Untouched(cfg: Config, s: State, gone: set<Key>) {
    && s.starcoin == Init(cfg.h).starcoin
    && forall id :: id in s.removed ==>
       s.removed[id].key in gone && s.removed[id].smtTxPath == PathOf(cfg.h, s.removed[id].key)
  }

  /** Goroutine 1 puts `first` into the empty table, goroutine 2 puts `second` behind two rows. */
  ghost predicate Putting(cfg: Config, s: State, first: PolyTx, second: Option<PolyTx>, r: Key, q: Key) {
    && OpenPutAt(cfg, s, 1, first, r, 1)
    && match second
       case None => s.threads == map[1 := Inserting(first, None)]
       case Some(row) => (
         && s.threads == map[1 := Inserting(first, None), 2 := Inserting(row, None)]
         && OpenPutAt(cfg, s, 2, row, q, 3) && row.root == [])
  }

  lemma NotInLine(cfg: Config, s: State, keys: map<nat, Key>, key: Key)
    requires Line(cfg, s, keys) && forall n :: n in keys ==> PathOf(cfg.h, keys[n]) != PathOf(cfg.h, key)
    ensures PathOf(cfg.h, key) !in PathSet(s.rows)
  {
  }

  /** The first row can be removed: its root is that of the empty tree. */
  lemma FirstOfLineIdle(cfg: Config, s: State, keys: map<nat, Key>, n: nat, gone: set<Key>)
    requires cfg.Valid() && Inv(cfg, s) && Line(cfg, s, keys) && Untouched(cfg, s, gone)
    requires n in keys && s.rows[n].root != [] && forall j :: j in keys ==> n <= j
    requires forall key :: key in gone ==> PathOf(cfg.h, key) != PathOf(cfg.h, keys[n])
    requires forall u :: u in s.threads ==>
      s.threads[u].Inserting? && s.threads[u].row.smtTxPath != PathOf(cfg.h, keys[n])
    ensures Idle(s, n)
  {
    hide Inv, Quiescent, CollisionFree, ConcatKey;
    HeadMatches(cfg, s, keys, n, gone);
    NothingHeld(s, s.rows[n].key, s.rows[n].smtTxPath);
  }

  lemma NothingHeld(s: State, key: Key, path: Bytes)
    requires s.starcoin.txs == map[] && forall u :: u in s.threads ==> s.threads[u].Inserting?
    ensures Quiescent(s, key, path)
  {
  }

  lemma HeadMatches(cfg: Config, s: State, keys: map<nat, Key>, n: nat, gone: set<Key>)
    requires cfg.Valid() && Inv(cfg, s) && Line(cfg, s, keys) && Untouched(cfg, s, gone)
    requires n in keys && s.rows[n].root != [] && forall j :: j in keys ==> n <= j
    ensures s.rows[n].root == s.starcoin.root
  {
    hide Inv, AbsenceProof;
    NothingEarlier(cfg, s, keys, n);
    RootMatches(cfg, s, n);
  }

  lemma NothingEarlier(cfg: Config, s: State, keys: map<nat, Key>, n: nat)
    requires Line(cfg, s, keys) && s.starcoin == Init(cfg.h).starcoin && forall j :: j in keys ==> n <= j
    ensures Before(s.rows, n) == {} == Elements(s.starcoin.log)
  {
  }

  lemma RemoveFirst(cfg: Config, s: State, keys: map<nat, Key>, n: nat, gone: set<Key>) returns (s': State)
    requires cfg.Valid() && Inv(cfg, s) && Line(cfg, s, keys) && Untouched(cfg, s, gone) && 0 !in s.threads
    requires n in keys && s.rows[n].root != [] && forall j :: j in keys ==> n <= j
    requires forall key :: key in gone ==> PathOf(cfg.h, key) != PathOf(cfg.h, keys[n])
    requires forall u :: u in s.threads ==>
      s.threads[u].Inserting? && s.threads[u].row.smtTxPath != PathOf(cfg.h, keys[n])
    ensures Inv(cfg, s') && Reaches(cfg, s, s') && s'.threads == s.threads
    ensures Line(cfg, s', keys - {n}) && Untouched(cfg, s', gone + {keys[n]})
    ensures forall j :: j in s'.rows ==> s'.rows[j] == s.rows[j].(root := [])
  {
    hide Inv, Reaches, Idle, Line, Untouched, Marked, Removed, ToRemovedPolyTx;
    FirstOfLineIdle(cfg, s, keys, n, gone);
    s' := RemoveRow(cfg, s, 0, n);
    LineAfterRemoval(cfg, s, s', keys, n, gone);
  }

  lemma LineAfterRemoval(cfg: Config, s: State, s': State, keys: map<nat, Key>, n: nat, gone: set<Key>)
    requires Line(cfg, s, keys) && Untouched(cfg, s, gone) && n in keys && Idle(s, n)
    requires forall j :: j in keys ==> n <= j
    requires s' == s.(rows := Removed(s.rows, n),
                      removed := s.removed[s.nextRemovedId := ToRemovedPolyTx(Marked(s, n), s.nextRemovedId)],
                      nextRemovedId := s.nextRemovedId + 1)
    ensures Line(cfg, s', keys - {n}) && Untouched(cfg, s', gone + {keys[n]})
    ensures forall j :: j in s'.rows ==> s'.rows[j] == s.rows[j].(root := [])
  {
    hide Quiescent;
  }

  lemma RootlessEnd(cfg: Config, s: State, keys: map<nat, Key>, last: nat)
    requires Line(cfg, s, keys) && last in keys && (forall j :: j in keys ==> j <= last) && s.rows[last].root == []
    ensures NeedsDeriving(LastRow(s.rows))
  {
    assert LastIndex(s.rows) == last;
  }

  lemma PutInLine(cfg: Config, s: State, keys: map<nat, Key>, last: nat, key: Key, gone: set<Key>) returns (s': State)
    requires cfg.Valid() && Inv(cfg, s) && Line(cfg, s, keys) && Untouched(cfg, s, gone) && 0 !in s.threads
    requires last in keys && (forall j :: j in keys ==> j <= last)
    requires last in s.rows && (s.rows[last].root == [] || CanBuild(cfg, PathSet(s.rows), PathOf(cfg.h, key)))
    requires forall n :: n in keys ==> PathOf(cfg.h, keys[n]) != PathOf(cfg.h, key)
    ensures Inv(cfg, s') && Reaches(cfg, s, s') && s'.threads == s.threads
    ensures Line(cfg, s', keys[last + 1 := key]) && Untouched(cfg, s', gone)
    ensures (forall j :: j in s.rows ==> s'.rows[j] == s.rows[j])
    ensures s'.rows[last + 1].status == Created && s'.rows[last + 1].retryCount == 0
    ensures s'.rows[last + 1].root == [] <==> s.rows[last].root == []
  {
    hide Inv, Reaches, PathSet, Line, Untouched, PutAt;
    NotInLine(cfg, s, keys, key);
    if s.rows[last].root == [] {
      RootlessEnd(cfg, s, keys, last);
    }
    var row: PolyTx;
    s', row := PutIdle(cfg, s, 0, key);
    LineAfterPut(cfg, s, s', keys, last, key, gone, row);
  }

  lemma LineAfterPut(cfg: Config, s: State, s': State, keys: map<nat, Key>, last: nat, key: Key, gone: set<Key>,
                     row: PolyTx)
    requires Line(cfg, s, keys) && Untouched(cfg, s, gone) && last in keys && forall j :: j in keys ==> j <= last
    requires PutAt(cfg, s, s', s.threads, key, row)
    ensures Line(cfg, s', keys[last + 1 := key]) && Untouched(cfg, s', gone) && s'.threads == s.threads
    ensures last in s.rows && last + 1 in s'.rows && s.rows.Keys <= s'.rows.Keys
    ensures (forall j :: j in s.rows ==> s'.rows[j] == s.rows[j])
    ensures s'.rows[last + 1].status == Created && s'.rows[last + 1].retryCount == 0
    ensures s'.rows[last + 1].root == [] <==> s.rows[last].root == []
  {
    assert LastIndex(s.rows) == last;
    hide LastIndex;
  }

  /** The trees built for them belong to the family. */
  ghost predicate TheirTrees(cfg: Config, r: Bytes, a: Bytes, b: Bytes, i: Bytes) {
    {r} in cfg.trees && {a} in cfg.trees && {b} in cfg.trees && {a, b} in cfg.trees && {r, i} in cfg.trees
  }

  /** Five keys to be queued. */
  ghost predicate Apart(cfg: Config, r: Key, a: Key, b: Key, q: Key, i: Key) {
    && TheirTrees(cfg, PathOf(cfg.h, r), PathOf(cfg.h, a), PathOf(cfg.h, b), PathOf(cfg.h, i))
    && PathOf(cfg.h, r) !in {PathOf(cfg.h, a), PathOf(cfg.h, b), PathOf(cfg.h, q), PathOf(cfg.h, i)}
    && PathOf(cfg.h, a) !in {PathOf(cfg.h, b), PathOf(cfg.h, q), PathOf(cfg.h, i)}
    && PathOf(cfg.h, b) !in {PathOf(cfg.h, q), PathOf(cfg.h, i)} && PathOf(cfg.h, q) != PathOf(cfg.h, i)
  }

  /** Prepared for the empty table. */
  ghost predicate ForEmpty(cfg: Config, first: PolyTx) {
    && first.root == cfg.h.Placeholder() && first.root != [] && first.sideNodes.Some?
    && AbsenceProof(cfg.h, {}, first.smtTxPath, first.sideNodes.value, first.leafData)
  }

  lemma OpenFirst(cfg: Config, r: Key) returns (s: State, first: PolyTx)
    requires cfg.Valid() && {PathOf(cfg.h, r)} in cfg.trees
    ensures Reached(cfg, s) && s.rows == map[] && s.removed == map[] && s.starcoin == Init(cfg.h).starcoin
    ensures s.threads == map[1 := Inserting(first, None)] && OpenPutAt(cfg, s, 1, first, r, 1) && ForEmpty(cfg, first)
  {
    hide Inv, Reaches, AbsenceProof, SetRoot, Sound;
    Start(cfg);
    assert PathSet(Init(cfg.h).rows) == {} && {} + {PathOf(cfg.h, r)} == {PathOf(cfg.h, r)};
    s, first := OpenPut(cfg, Init(cfg.h), 1, r);
    ReachedOn(cfg, Init(cfg.h), s);
    assert PathSet(Init(cfg.h).rows) == {};
    OwnProof(cfg, s, first);
    EmptyRoot(cfg.h);
    HeldTablesOk(cfg, s);
    hide TablesOk, NodesOk;
    TablesNodes(cfg, s);
    NodeRoot(cfg, s, first.root);
  }

  lemma PutOnly(cfg: Config, s: State, key: Key) returns (s': State)
    requires cfg.Valid() && Inv(cfg, s) && s.rows == map[] && 0 !in s.threads && {PathOf(cfg.h, key)} in cfg.trees
    ensures Inv(cfg, s') && Reaches(cfg, s, s') && s' == s.(rows := s'.rows, nodes := s'.nodes, clock := s'.clock)
    ensures Line(cfg, s', map[1 := key]) && s'.rows[1].root != []
  {
    hide Inv, Reaches;
    assert PathSet(s.rows) == {} && {} + {PathOf(cfg.h, key)} == {PathOf(cfg.h, key)};
    var row: PolyTx;
    s', row := PutIdle(cfg, s, 0, key);
  }

  /** While the put of `r` is open, `a` and `b` are put. */
  lemma PutBoth(cfg: Config, r: Key, a: Key, b: Key, q: Key, i: Key) returns (s: State, first: PolyTx)
    requires cfg.Valid() && Apart(cfg, r, a, b, q, i)
    ensures Reached(cfg, s) && ForEmpty(cfg, first) && Putting(cfg, s, first, None, r, q)
    ensures Line(cfg, s, map[1 := a, 2 := b]) && Untouched(cfg, s, {}) && s.rows[1].root != []
    ensures s.rows[2].status == Created && s.rows[2].retryCount == 0
  {
    hide Inv, Reaches, Reached, ForEmpty, Line, Untouched, PathSet;
    var s1: State;
    s1, first := OpenFirst(cfg, r);
    ReachedOk(cfg, s1);
    var s2 := PutOnly(cfg, s1, a);
    ReachedOn(cfg, s1, s2);
    StillUntouched(cfg, s1, s2);
    OnlyBuilds(cfg, s2, a, b);
    hide CanBuild;
    s := PutInLine(cfg, s2, map[1 := a], 1, b, {});
    ReachedOn(cfg, s2, s);
    assert map[1 := a][2 := b] == map[1 := a, 2 := b];
    InLineRows(cfg, s, map[1 := a, 2 := b]);
  }

  lemma OnlyBuilds(cfg: Config, s: State, a: Key, b: Key)
    requires Line(cfg, s, map[1 := a])
    requires {PathOf(cfg.h, a)} in cfg.trees && {PathOf(cfg.h, a), PathOf(cfg.h, b)} in cfg.trees
    ensures s.rows.Keys == {1} && CanBuild(cfg, PathSet(s.rows), PathOf(cfg.h, b))
  {
    assert s.rows[1].smtTxPath in PathSet(s.rows);
    assert PathSet(s.rows) == {PathOf(cfg.h, a)};
    assert {PathOf(cfg.h, a)} + {PathOf(cfg.h, b)} == {PathOf(cfg.h, a), PathOf(cfg.h, b)};
  }

  /** Row `a` is removed, and the put of `q` opens. */
  lemma OpenBoth(cfg: Config, r: Key, a: Key, b: Key, q: Key, i: Key) returns (s: State, first: PolyTx, second: PolyTx)
    requires cfg.Valid() && Apart(cfg, r, a, b, q, i)
    ensures Reached(cfg, s) && ForEmpty(cfg, first) && Stalled(cfg, s, map[2 := b], {a}, first, second, r, q)
  {
    hide Inv, Reaches, Reached, ForEmpty, Line, Untouched, Putting;
    assert map[2 := b].Keys == {2};
    var s3: State;
    s3, first := PutBoth(cfg, r, a, b, q, i);
    ReachedOk(cfg, s3);
    PuttingThreads(cfg, s3, first, r, q);
    var s4 := RemoveFirst(cfg, s3, map[1 := a, 2 := b], 1, {});
    ReachedOn(cfg, s3, s4);
    assert map[1 := a, 2 := b] - {1} == map[2 := b] && {} + {a} == {a};
    InLineRows(cfg, s4, map[2 := b]);
    SamePutting(cfg, s3, s4, first, None, r, q);
    s, second := OpenSecond(cfg, s4, first, r, a, b, q);
    ReachedOn(cfg, s4, s);
  }

  lemma PuttingThreads(cfg: Config, s: State, first: PolyTx, r: Key, q: Key)
    requires Putting(cfg, s, first, None, r, q)
    ensures 0 !in s.threads && forall u :: u in s.threads ==> s.threads[u] == Inserting(first, None)
    ensures first.smtTxPath == PathOf(cfg.h, r)
  {
  }

  lemma SamePutting(cfg: Config, s: State, s': State, first: PolyTx, second: Option<PolyTx>, r: Key, q: Key)
    requires Putting(cfg, s, first, second, r, q) && s'.threads == s.threads
    ensures Putting(cfg, s', first, second, r, q)
  {
  }

  lemma StillUntouched(cfg: Config, s: State, s': State)
    requires s.removed == map[] && s.starcoin == Init(cfg.h).starcoin && s'.removed == s.removed
    requires s'.starcoin == s.starcoin
    ensures Untouched(cfg, s', {})
  {
  }

  lemma InLineRows(cfg: Config, s: State, keys: map<nat, Key>)
    requires Line(cfg, s, keys)
    ensures s.rows.Keys == keys.Keys
  {
  }

  lemma OpenSecond(cfg: Config, s: State, first: PolyTx, r: Key, a: Key, b: Key, q: Key)
    returns (s': State, second: PolyTx)
    requires cfg.Valid() && Inv(cfg, s) && PathOf(cfg.h, q) != PathOf(cfg.h, b)
    requires Line(cfg, s, map[2 := b]) && Untouched(cfg, s, {a}) && Rootless(s, map[2 := b].Keys)
    requires Putting(cfg, s, first, None, r, q)
    ensures Inv(cfg, s') && Reaches(cfg, s, s') && Putting(cfg, s', first, Some(second), r, q)
    ensures Line(cfg, s', map[2 := b]) && Untouched(cfg, s', {a}) && Rootless(s', {2})
  {
    hide Inv, Reaches, PathSet, Line, Untouched, Rootless, Opened;
    assert map[2 := b].Keys == {2};
    NotInLine(cfg, s, map[2 := b], q);
    LastIsRootless(s, map[2 := b], 2);
    RootlessEnd(cfg, s, map[2 := b], 2);
    s', second := OpenPut(cfg, s, 2, q);
    BehindStalled(cfg, s, s', first, second, r, a, b, q);
  }

  lemma BehindStalled(cfg: Config, s: State, s': State, first: PolyTx, second: PolyTx, r: Key, a: Key, b: Key, q: Key)
    requires Line(cfg, s, map[2 := b]) && Untouched(cfg, s, {a}) && Rootless(s, {2})
    requires Putting(cfg, s, first, None, r, q) && Opened(cfg, s, s', 2, q, second)
    ensures Putting(cfg, s', first, Some(second), r, q)
    ensures Line(cfg, s', map[2 := b]) && Untouched(cfg, s', {a}) && Rootless(s', {2})
  {
    hide Sound, RootOf;
    assert LastIndex(s.rows) == 2;
    assert s'.threads == map[1 := Inserting(first, None), 2 := Inserting(second, None)];
  }

  lemma DeriveInLine(cfg: Config, s: State, keys: map<nat, Key>, n: nat, gone: set<Key>) returns (s': State)
    requires cfg.Valid() && Inv(cfg, s) && Line(cfg, s, keys) && Untouched(cfg, s, gone) && 0 !in s.threads
    requires Derivable(s, n)
    requires CanBuild(cfg, Before(s.rows, n), s.rows[n].smtTxPath)
    ensures Inv(cfg, s') && Reaches(cfg, s, s') && s'.threads == s.threads && Line(cfg, s', keys)
    ensures Untouched(cfg, s', gone)
    ensures s'.rows.Keys == s.rows.Keys && s'.rows[n].root != []
    ensures forall j :: j in s.rows && j != n ==> s'.rows[j] == s.rows[j]
  {
    hide Inv, Reaches, Derivable, CanBuild, Rederived, Line, Untouched;
    s' := DeriveIdle(cfg, s, 0, n);
    LineAfterDerivation(cfg, s, s', keys, n, gone);
  }

  lemma LineAfterDerivation(cfg: Config, s: State, s': State, keys: map<nat, Key>, n: nat, gone: set<Key>)
    requires Line(cfg, s, keys) && Untouched(cfg, s, gone) && Rederived(s, s', s.threads, n)
    ensures Line(cfg, s', keys) && Untouched(cfg, s', gone) && s'.threads == s.threads
    ensures s'.rows.Keys == s.rows.Keys && n in s.rows && s'.rows[n].root != []
    ensures forall j :: j in s.rows && j != n ==> s'.rows[j] == s.rows[j]
  {
  }

  /** Rows `r` and `i` are put, row `b` is derived and removed. */
  lemma BothRootless(cfg: Config, r: Key, a: Key, b: Key, q: Key, i: Key)
    returns (s: State, first: PolyTx, second: PolyTx)
    requires cfg.Valid() && Apart(cfg, r, a, b, q, i)
    ensures Reached(cfg, s) && ForEmpty(cfg, first) && Stalled(cfg, s, map[3 := r, 4 := i], {a, b}, first, second, r, q)
  {
    hide Inv, Reaches, Reached, ForEmpty, Stalled;
    var s1: State;
    s1, first, second := OpenBoth(cfg, r, a, b, q, i);
    ReachedOk(cfg, s1);
    var s3 := PutTwoMore(cfg, s1, first, second, r, a, b, q, i);
    ReachedOn(cfg, s1, s3);
    s := RemoveStalled(cfg, s3, map[2 := b, 3 := r, 4 := i], 2, {a}, first, second, r, q);
    assert map[2 := b, 3 := r, 4 := i] - {2} == map[3 := r, 4 := i] && {a} + {b} == {a, b};
    ReachedOn(cfg, s3, s);
  }

  lemma BothPutting(cfg: Config, s: State, first: PolyTx, second: PolyTx, r: Key, q: Key)
    requires Putting(cfg, s, first, Some(second), r, q)
    ensures 0 !in s.threads && 3 !in s.threads && first.smtTxPath == PathOf(cfg.h, r)
    ensures second.smtTxPath == PathOf(cfg.h, q)
    ensures forall u :: u in s.threads ==> s.threads[u] in {Inserting(first, None), Inserting(second, None)}
  {
  }

  /** A line of rows without roots, behind which two puts are open. */
  ghost predicate Stalled(cfg: Config, s: State, keys: map<nat, Key>, gone: set<Key>, first: PolyTx, second: PolyTx,
                          r: Key, q: Key) {
    && Line(cfg, s, keys) && Untouched(cfg, s, gone) && Rootless(s, keys.Keys)
    && Putting(cfg, s, first, Some(second), r, q)
  }

  lemma PutStalled(cfg: Config, s: State, keys: map<nat, Key>, last: nat, key: Key, gone: set<Key>,
                   first: PolyTx, second: PolyTx, r: Key, q: Key) returns (s': State)
    requires cfg.Valid() && Inv(cfg, s) && Stalled(cfg, s, keys, gone, first, second, r, q)
    requires last in keys && (forall j :: j in keys ==> j <= last)
    requires forall n :: n in keys ==> PathOf(cfg.h, keys[n]) != PathOf(cfg.h, key)
    ensures Inv(cfg, s') && Reaches(cfg, s, s') && Stalled(cfg, s', keys[last + 1 := key], gone, first, second, r, q)
  {
    hide Inv, Reaches, Putting, Line, Untouched, Rootless;
    BothPutting(cfg, s, first, second, r, q);
    InLineRows(cfg, s, keys);
    LastIsRootless(s, keys, last);
    s' := PutInLine(cfg, s, keys, last, key, gone);
    InLineRows(cfg, s', keys[last + 1 := key]);
    RootlessAfterPut(s, s', keys, last, key);
    SamePutting(cfg, s, s', first, Some(second), r, q);
  }

  lemma LastIsRootless(s: State, keys: map<nat, Key>, last: nat)
    requires Rootless(s, keys.Keys) && last in keys
    ensures last in s.rows && s.rows[last].root == []
  {
  }

  lemma RootlessAfterPut(s: State, s': State, keys: map<nat, Key>, last: nat, key: Key)
    requires Rootless(s, keys.Keys) && s.rows.Keys == keys.Keys && s'.rows.Keys == keys[last + 1 := key].Keys
    requires forall j :: j in s.rows ==> s'.rows[j] == s.rows[j]
    requires s'.rows[last + 1].root == [] && s'.rows[last + 1].status == Created && s'.rows[last + 1].retryCount == 0
    ensures Rootless(s', keys[last + 1 := key].Keys)
  {
  }

  lemma PutTwoMore(cfg: Config, s1: State, first: PolyTx, second: PolyTx, r: Key, a: Key, b: Key, q: Key,
                   i: Key) returns (s3: State)
    requires cfg.Valid() && Inv(cfg, s1) && Apart(cfg, r, a, b, q, i)
    requires Stalled(cfg, s1, map[2 := b], {a}, first, second, r, q)
    ensures Inv(cfg, s3) && Reaches(cfg, s1, s3)
    ensures Stalled(cfg, s3, map[2 := b, 3 := r, 4 := i], {a}, first, second, r, q)
  {
    hide Inv, Reaches, Stalled;
    var s2 := PutStalled(cfg, s1, map[2 := b], 2, r, {a}, first, second, r, q);
    assert map[2 := b][3 := r] == map[2 := b, 3 := r];
    s3 := PutStalled(cfg, s2, map[2 := b, 3 := r], 3, i, {a}, first, second, r, q);
    assert map[2 := b, 3 := r][4 := i] == map[2 := b, 3 := r, 4 := i];
    ReachesOn(cfg, s1, s2, s3);
  }

  lemma RemoveStalled(cfg: Config, s: State, keys: map<nat, Key>, n: nat, gone: set<Key>,
                      first: PolyTx, second: PolyTx, r: Key, q: Key) returns (s': State)
    requires cfg.Valid() && Inv(cfg, s) && Stalled(cfg, s, keys, gone, first, second, r, q)
    requires n in keys && forall j :: j in keys ==> n <= j
    requires forall key :: key in gone + {r, q} ==> PathOf(cfg.h, key) != PathOf(cfg.h, keys[n])
    requires {PathOf(cfg.h, keys[n])} in cfg.trees
    ensures Inv(cfg, s') && Reaches(cfg, s, s') && Stalled(cfg, s', keys - {n}, gone + {keys[n]}, first, second, r, q)
  {
    hide Inv, Reaches, Putting, Line, Untouched;
    BothPutting(cfg, s, first, second, r, q);
    InLineRows(cfg, s, keys);
    HeadDerivable(cfg, s, keys, n, gone);
    var s1 := DeriveInLine(cfg, s, keys, n, gone);
    s' := RemoveFirst(cfg, s1, keys, n, gone);
    InLineRows(cfg, s', keys - {n});
    ReachesOn(cfg, s, s1, s');
    SamePutting(cfg, s, s', first, Some(second), r, q);
  }

  lemma HeadDerivable(cfg: Config, s: State, keys: map<nat, Key>, n: nat, gone: set<Key>)
    requires cfg.Valid() && Line(cfg, s, keys) && Rootless(s, keys.Keys) && Untouched(cfg, s, gone)
    requires n in keys && {PathOf(cfg.h, keys[n])} in cfg.trees && forall j :: j in keys ==> n <= j
    ensures Derivable(s, n) && CanBuild(cfg, Before(s.rows, n), s.rows[n].smtTxPath)
  {
    NothingEarlier(cfg, s, keys, n);
    assert {} + {s.rows[n].smtTxPath} == {PathOf(cfg.h, keys[n])};
  }

  /** A submission of row `i` waits that counts the path of `r` alone; both puts are still open. */
  ghost predicate CountsFirst(cfg: Config, s: State, first: PolyTx, second: PolyTx, r: Key, q: Key, i: Key) {
    && Line(cfg, s, map[3 := r, 4 := i]) && s.rows[3].root == s.starcoin.root
    && s.threads.Keys == {0, 1, 2} && s.threads[0].Reading? && !s.threads[0].op.Claim?
    && s.threads[1] == Inserting(first, None) && OpenPutAt(cfg, s, 1, first, r, 1)
    && s.threads[2] == Inserting(second, None) && OpenPutAt(cfg, s, 2, second, q, 3) && second.root == []
    && s.starcoin.root == Init(cfg.h).starcoin.root && s.starcoin.log == [] && s.starcoin.txs.Keys == {"1"}
    && ForSecond(cfg, s.starcoin.txs["1"], PathOf(cfg.h, r), PathOf(cfg.h, i))
  }

  /** A pending submission whose proof is against the one path before it. */
  ghost predicate ForSecond(cfg: Config, tx: Submission, before: Bytes, path: Bytes) {
    && tx.state == Pending && tx.path == path && AllPaths(cfg.h, {before}) && tx.root == SetRoot(cfg.h, {before})
    && AbsenceProof(cfg.h, {before}, tx.path, tx.sideNodes, tx.leafData)
  }

  lemma SubmitSecond(cfg: Config, r: Key, a: Key, b: Key, q: Key, i: Key)
    returns (s: State, first: PolyTx, second: PolyTx)
    requires cfg.Valid() && Apart(cfg, r, a, b, q, i)
    ensures Reached(cfg, s) && ForEmpty(cfg, first) && CountsFirst(cfg, s, first, second, r, q, i)
    ensures Untouched(cfg, s.(starcoin := Init(cfg.h).starcoin), {a, b})
  {
    hide Inv, Reaches, Reached, ForEmpty, Putting, Line, Untouched, Rederived, Rootless, CountsFirst, ForSecond;
    var s1: State;
    s1, first, second := BothRootless(cfg, r, a, b, q, i);
    ReachedOk(cfg, s1);
    assert map[3 := r, 4 := i].Keys == {3, 4};
    BothPutting(cfg, s1, first, second, r, q);
    HeadDerivable(cfg, s1, map[3 := r, 4 := i], 3, {a, b});
    hide Before, CanBuild, Derivable;
    var s2 := DeriveInLine(cfg, s1, map[3 := r, 4 := i], 3, {a, b});
    ReachedOn(cfg, s1, s2);
    DerivableSecond(cfg, s1, s2, r, i);
    SamePutting(cfg, s1, s2, first, Some(second), r, q);
    var s3 := DeriveRow(cfg, s2, 0, 4);
    ReachedOn(cfg, s2, s3);
    s := SendSecond(cfg, s2, s3, first, second, r, q, i, {a, b});
    ReachedOn(cfg, s3, s);
  }

  lemma DerivableSecond(cfg: Config, s1: State, s2: State, r: Key, i: Key)
    requires Line(cfg, s1, map[3 := r, 4 := i]) && Rootless(s1, {3, 4}) && s2.rows.Keys == s1.rows.Keys
    requires s2.rows[3].root != [] && Line(cfg, s2, map[3 := r, 4 := i])
    requires forall j :: j in s1.rows && j != 3 ==> s2.rows[j] == s1.rows[j]
    requires {PathOf(cfg.h, r)} in cfg.trees && {PathOf(cfg.h, r), PathOf(cfg.h, i)} in cfg.trees
    ensures Derivable(s2, 4) && CanBuild(cfg, Before(s2.rows, 4), s2.rows[4].smtTxPath)
  {
    assert s2.rows[3].smtTxPath in Before(s2.rows, 4);
    assert Before(s2.rows, 4) == {PathOf(cfg.h, r)};
    assert {PathOf(cfg.h, r)} + {PathOf(cfg.h, i)} == {PathOf(cfg.h, r), PathOf(cfg.h, i)};
  }

  lemma SendSecond(cfg: Config, s2: State, s3: State, first: PolyTx, second: PolyTx, r: Key, q: Key, i: Key,
                   gone: set<Key>)
    returns (s: State)
    requires cfg.Valid() && Inv(cfg, s3) && PathOf(cfg.h, r) != PathOf(cfg.h, i)
    requires Line(cfg, s2, map[3 := r, 4 := i]) && Untouched(cfg, s2, gone)
    requires Putting(cfg, s2, first, Some(second), r, q)
    requires s2.rows[3].root != [] && 4 in s2.rows && Rederived(s2, s3, s2.threads[0 := Refetching(s2.rows[4])], 4)
    ensures Reaches(cfg, s3, s) && CountsFirst(cfg, s, first, second, r, q, i)
    ensures Untouched(cfg, s.(starcoin := Init(cfg.h).starcoin), gone)
  {
    hide Inv, Reaches, Putting, ForSecond, Line, Untouched, Rederived, CountsFirst;
    BothPutting(cfg, s2, first, second, r, q);
    BehindDerived(cfg, s2, s3, r, i, gone);
    SecondProved(cfg, s3, r, i);
    var m := s3.rows[4];
    s := RefetchAndSubmit(cfg, s3, 0, s2.rows[4], 4, "1");
    assert s.threads == s2.threads[0 := Reading(RecordHash(m.key, "1"))];
    SameLine(cfg, s3, s, map[3 := r, 4 := i], gone);
    SecondSent(cfg, s2, s, first, second, r, q, i);
  }

  lemma BehindDerived(cfg: Config, s2: State, s3: State, r: Key, i: Key, gone: set<Key>)
    requires Line(cfg, s2, map[3 := r, 4 := i]) && Untouched(cfg, s2, gone) && s2.rows[3].root != []
    requires 4 in s2.rows && Rederived(s2, s3, s2.threads[0 := Refetching(s2.rows[4])], 4)
    ensures Line(cfg, s3, map[3 := r, 4 := i]) && Untouched(cfg, s3, gone) && s3.rows.Keys == {3, 4}
    ensures s3.rows[3].root != [] && s3.rows[4].root != [] && s3.rows[4].key == s2.rows[4].key
    ensures s3.threads == s2.threads[0 := Refetching(s2.rows[4])] && s3.starcoin == Init(cfg.h).starcoin
  {
  }

  lemma SameLine(cfg: Config, s3: State, s: State, keys: map<nat, Key>, gone: set<Key>)
    requires Line(cfg, s3, keys) && Untouched(cfg, s3, gone) && s.rows == s3.rows && s.removed == s3.removed
    ensures Line(cfg, s, keys) && Untouched(cfg, s.(starcoin := Init(cfg.h).starcoin), gone)
  {
  }

  lemma SecondProved(cfg: Config, s: State, r: Key, i: Key)
    requires cfg.Valid() && Inv(cfg, s) && Line(cfg, s, map[3 := r, 4 := i]) && s.starcoin == Init(cfg.h).starcoin
    requires s.rows[3].root != [] && s.rows[4].root != [] && PathOf(cfg.h, r) != PathOf(cfg.h, i)
    ensures s.rows[3].root == s.starcoin.root && s.rows[4].sideNodes.Some?
    ensures ForSecond(cfg,
      Submission(s.rows[4].smtTxPath, s.rows[4].root, s.rows[4].sideNodes.value, s.rows[4].leafData, Pending),
                      PathOf(cfg.h, r), PathOf(cfg.h, i))
  {
    hide Inv, AbsenceProof, SetRoot;
    assert Before(s.rows, 3) == {} == Elements(s.starcoin.log);
    RootMatches(cfg, s, 3);
    assert s.rows[3].smtTxPath in Before(s.rows, 4);
    assert Before(s.rows, 4) == {PathOf(cfg.h, r)};
    HeldTablesOk(cfg, s);
    ProofOfRow(cfg, s, 4);
  }

  lemma ProofOfRow(cfg: Config, s: State, n: nat)
    requires TablesOk(cfg, s) && n in s.rows && s.rows[n].root != []
    ensures s.rows[n].sideNodes.Some? && AllPaths(cfg.h, Before(s.rows, n))
    ensures s.rows[n].root == SetRoot(cfg.h, Before(s.rows, n))
    ensures AbsenceProof(cfg.h, Before(s.rows, n), s.rows[n].smtTxPath, s.rows[n].sideNodes.value, s.rows[n].leafData)
  {
    hide RowsOk, RootsOk, NodesOk, RemovedOk, ChainOk, TxsOk, ProcessedOk, SetRoot, AbsenceProof;
    RowProof(cfg, s, n);
    NodeRoot(cfg, s, s.rows[n].root);
  }

  lemma SecondSent(cfg: Config, s2: State, s: State, first: PolyTx, second: PolyTx, r: Key, q: Key, i: Key)
    requires Putting(cfg, s2, first, Some(second), r, q) && Line(cfg, s, map[3 := r, 4 := i])
    requires s.rows[3].root == s.starcoin.root
    requires exists key, hash :: s.threads == s2.threads[0 := Reading(RecordHash(key, hash))]
    requires s.starcoin.root == Init(cfg.h).starcoin.root && s.starcoin.log == [] && s.starcoin.txs.Keys == {"1"}
    requires ForSecond(cfg, s.starcoin.txs["1"], PathOf(cfg.h, r), PathOf(cfg.h, i))
    ensures CountsFirst(cfg, s, first, second, r, q, i)
  {
    hide ForSecond;
  }

  /** Row `r` can be removed but for the put of it that is open. */
  lemma CompareFirst(cfg: Config, s: State, first: PolyTx, second: PolyTx, r: Key, q: Key, i: Key)
    requires cfg.Valid() && CountsFirst(cfg, s, first, second, r, q, i) && PathOf(cfg.h, r) != PathOf(cfg.h, i)
    ensures Reaches(cfg, s, Compared(s, 3, 3))
  {
    hide Reaches, AbsenceProof, SetRoot;
    CompareRoots(cfg, s, 3, 3);
  }

  /** Row `r` is gone; its put is still open. */
  ghost predicate FirstGone(cfg: Config, s: State, first: PolyTx, second: PolyTx, r: Key, q: Key, i: Key) {
    && Line(cfg, s, map[4 := i]) && s.rows[4].root == []
    && 1 in s.threads && s.threads[1] == Inserting(first, None) && OpenPutAt(cfg, s, 1, first, r, 1)
    && 2 in s.threads && s.threads[2] == Inserting(second, None) && OpenPutAt(cfg, s, 2, second, q, 3)
    && second.root == []
    && s.starcoin.root == Init(cfg.h).starcoin.root && s.starcoin.log == [] && s.starcoin.txs.Keys == {"1"}
    && ForSecond(cfg, s.starcoin.txs["1"], PathOf(cfg.h, r), PathOf(cfg.h, i))
  }

  lemma FirstTaken(cfg: Config, s: State, s1: State, first: PolyTx, second: PolyTx, r: Key, q: Key, i: Key)
    requires CountsFirst(cfg, s, first, second, r, q, i) && s.rows[3].txIndex == 3
    requires RemovedAnyhow(Compared(s, 3, 3), s1, Marked(s, 3))
    ensures FirstGone(cfg, s1, first, second, r, q, i)
  {
    hide ForSecond;
  }

  /** Both puts are inserted, and both fit. */
  ghost predicate BothIn(cfg: Config, s: State, first: PolyTx, r: Key, q: Key, i: Key) {
    && Line(cfg, s, map[1 := r, 3 := q, 4 := i]) && s.rows[1].status == Created
    && 1 in s.threads && s.threads[1].Reading? && s.threads[1] == Reading(Claim(s.rows[1]))
    && s.rows[1] == first.(updatedAt := s.rows[1].updatedAt)
    && s.starcoin.root == Init(cfg.h).starcoin.root && s.starcoin.log == [] && s.starcoin.txs.Keys == {"1"}
    && ForSecond(cfg, s.starcoin.txs["1"], PathOf(cfg.h, r), PathOf(cfg.h, i))
  }

  lemma InsertBoth(cfg: Config, s: State, first: PolyTx, second: PolyTx, r: Key, a: Key, b: Key, q: Key,
                   i: Key) returns (s2: State)
    requires FirstGone(cfg, s, first, second, r, q, i) && Apart(cfg, r, a, b, q, i) && first.root == cfg.h.Placeholder()
    ensures Reaches(cfg, s, s2) && BothIn(cfg, s2, first, r, q, i)
  {
    hide Reaches, FirstGone, BothIn, Apart, WithRow, Insert;
    var s1 := WithRow(s, 1, first);
    FirstFits(cfg, s, first, second, r, a, b, q, i);
    StepReaches(cfg, s, AInsert(1), s1);
    s2 := WithRow(s1, 2, second);
    SecondFits(cfg, s, first, second, r, a, b, q, i);
    BothAreIn(cfg, s, first, second, r, q, i);
    Onward(cfg, s, s1, AInsert(2), s2);
  }

  lemma SecondFits(cfg: Config, s: State, first: PolyTx, second: PolyTx, r: Key, a: Key, b: Key, q: Key, i: Key)
    requires FirstGone(cfg, s, first, second, r, q, i) && Apart(cfg, r, a, b, q, i)
    ensures var s1 := WithRow(s, 1, first); Insert(cfg.h, s1, WithRow(s1, 2, second), 2)
  {
    hide ForSecond;
  }

  lemma BothAreIn(cfg: Config, s: State, first: PolyTx, second: PolyTx, r: Key, q: Key, i: Key)
    requires FirstGone(cfg, s, first, second, r, q, i)
    ensures BothIn(cfg, WithRow(WithRow(s, 1, first), 2, second), first, r, q, i)
  {
    hide ForSecond;
  }

  lemma FirstFits(cfg: Config, s: State, first: PolyTx, second: PolyTx, r: Key, a: Key, b: Key, q: Key, i: Key)
    requires FirstGone(cfg, s, first, second, r, q, i) && Apart(cfg, r, a, b, q, i) && first.root == cfg.h.Placeholder()
    ensures Insert(cfg.h, s, WithRow(s, 1, first), 1)
  {
    hide ForSecond;
    assert Previous(s.rows, 1) == None;
  }

  /** Row `r` is executed, then the submission of row `i` that counts it. */
  lemma ExecuteBoth(cfg: Config, s: State, first: PolyTx, r: Key, q: Key, i: Key) returns (s2: State)
    requires cfg.Valid() && BothIn(cfg, s, first, r, q, i) && ForEmpty(cfg, first)
    requires first.smtTxPath == PathOf(cfg.h, r)
    requires PathOf(cfg.h, q) != PathOf(cfg.h, r) && PathOf(cfg.h, q) != PathOf(cfg.h, i)
    ensures Reaches(cfg, s, s2) && !InOrder(s2.rows, Elements(s2.starcoin.log))
  {
    hide Reaches, AbsenceProof, SetRoot, InOrder, BothIn, ForEmpty;
    var s1 := ExecuteFirst(cfg, s, first, r, q, i);
    s2 := ExecuteRow(cfg, s1, "1");
    ReachesOn(cfg, s, s1, s2);
    SkippedRow(s2, 3, 4);
  }

  lemma ExecuteFirst(cfg: Config, s: State, first: PolyTx, r: Key, q: Key, i: Key) returns (s1: State)
    requires cfg.Valid() && BothIn(cfg, s, first, r, q, i) && ForEmpty(cfg, first)
    requires first.smtTxPath == PathOf(cfg.h, r)
    ensures Reaches(cfg, s, s1) && "1" in s1.starcoin.txs
    ensures ForSecond(cfg, s1.starcoin.txs["1"], PathOf(cfg.h, r), PathOf(cfg.h, i))
    ensures s1.starcoin.log == [PathOf(cfg.h, r)] && Elements(s1.starcoin.log) == {PathOf(cfg.h, r)}
    ensures AllPaths(cfg.h, {PathOf(cfg.h, r)}) && s1.starcoin.root == SetRoot(cfg.h, {PathOf(cfg.h, r)})
    ensures {3, 4} <= s1.rows.Keys
    ensures s1.rows[3].smtTxPath == PathOf(cfg.h, q) && s1.rows[4].smtTxPath == PathOf(cfg.h, i)
  {
    hide Reaches, AbsenceProof, SetRoot, SameQueue, Line, ForSecond;
    BothInRows(cfg, s, first, r, q, i);
    s1 := RunHeld(cfg, s, 1, s.rows[1], 1, "2");
    assert {} + {first.smtTxPath} == {first.smtTxPath} == Elements(s1.starcoin.log);
    QueueKept(s, s1, 3, 4);
  }

  lemma BothInRows(cfg: Config, s: State, first: PolyTx, r: Key, q: Key, i: Key)
    requires BothIn(cfg, s, first, r, q, i)
    ensures Elements(s.starcoin.log) == {} && {1, 3, 4} <= s.rows.Keys
    ensures s.rows[3].smtTxPath == PathOf(cfg.h, q) && s.rows[4].smtTxPath == PathOf(cfg.h, i)
  {
    hide ForSecond;
  }

  lemma QueueKept(s: State, s': State, i: nat, j: nat)
    requires SameQueue(s.rows, s'.rows) && i in s.rows && j in s.rows
    ensures i in s'.rows && j in s'.rows && s'.rows[i].smtTxPath == s.rows[i].smtTxPath
    ensures s'.rows[j].smtTxPath == s.rows[j].smtTxPath
  {
  }

  /**
   A row is removed while its transaction is being put again, all puts fitting when they are inserted:
   a submission that counts it stays alive, and is executed before a row put in between.
   */
  lemma PutAgainOvertakes(cfg: Config, r: Key, a: Key, b: Key, q: Key, i: Key)
    requires cfg.Valid() && Apart(cfg, r, a, b, q, i)
    ensures exists s, s1, s2, t, m ::
      && Reached(cfg, s) && t in s.threads && s.threads[t] == Removable(m) && RemovedAnyhow(s, s1, m)
      && (exists u :: u in s.threads && s.threads[u].Inserting? && s.threads[u].row.smtTxPath == m.smtTxPath)
      && Reaches(cfg, s1, s2) && !InOrder(s2.rows, Elements(s2.starcoin.log))
  {
    hide Inv, Reaches, Reached, ForEmpty, CountsFirst, FirstGone, BothIn, InOrder, Removed, Untouched;
    var s0, first, second := SubmitSecond(cfg, r, a, b, q, i);
    ReachedOk(cfg, s0);
    CountsFirstRow(cfg, s0, first, second, r, q, i);
    RowIndex(cfg, s0, 3);
    CompareFirst(cfg, s0, first, second, r, q, i);
    var s, m := Compared(s0, 3, 3), Marked(s0, 3);
    ReachedOn(cfg, s0, s);
    var s1 := s.(rows := Removed(s.rows, 3),
      removed := s.removed[s.nextRemovedId := ToRemovedPolyTx(m, s.nextRemovedId)],
                 nextRemovedId := s.nextRemovedId + 1);
    FirstTaken(cfg, s0, s1, first, second, r, q, i);
    EmptyPlaceholder(cfg, first);
    var in2 := InsertBoth(cfg, s1, first, second, r, a, b, q, i);
    var s2 := ExecuteBoth(cfg, in2, first, r, q, i);
    ReachesOn(cfg, s1, in2, s2);
    assert s.threads[3] == Removable(m) && s.threads[1].Inserting?;
  }

  lemma EmptyPlaceholder(cfg: Config, first: PolyTx)
    requires ForEmpty(cfg, first)
    ensures first.root == cfg.h.Placeholder()
  {
    hide AbsenceProof;
  }

  lemma CountsFirstRow(cfg: Config, s: State, first: PolyTx, second: PolyTx, r: Key, q: Key, i: Key)
    requires CountsFirst(cfg, s, first, second, r, q, i)
    ensures 3 in s.rows && s.rows[3].smtTxPath == PathOf(cfg.h, r) && 3 !in s.threads
    ensures 1 in s.threads && s.threads[1] == Inserting(first, None) && first.smtTxPath == PathOf(cfg.h, r)
  {
    hide ForSecond;
  }
}
