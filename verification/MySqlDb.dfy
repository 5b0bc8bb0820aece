/**
 The MySQL-backed store of the relay (db/mysqldb.go), its tables as fields the methods update in
 place. A method's new state is given by the functions of PolyTxTable, which the relay run is made of;
 where the statements of one call run undisturbed, its effect is also stated outright.
 */
module MySqlDb {
  import opened Bytes
  import opened Wrappers
  import opened SparseMerkle
  import opened PathSets
  import opened PolyTxs
  import opened PolyTxTable

  datatype Error =
    | NotFound
    | AlreadySettled
    | StillProcessing
    | EmptyHash
    | OptimisticLock
    | Duplicate
    | NotToBeRemoved
    | NoSuchRoot
    | StatementFailed

  datatype Outcome = Ok | Err(error: Error)

  // ---------- tables ----------

  /** Primary and unique keys, and paths as wide as digests. */
  ghost predicate WellFormed(h: Hasher, rows: Rows) {
    && (forall i :: i in rows ==> rows[i].txIndex == i && |rows[i].smtTxPath| == h.size)
    && (forall i, j :: i in rows && j in rows && rows[i].key == rows[j].key ==> i == j)
    && (forall i, j :: i in rows && j in rows && rows[i].smtTxPath == rows[j].smtTxPath ==> i == j)
  }

  ghost predicate NodesWellFormed(h: Hasher, nodes: Nodes) {
    forall r :: r in nodes ==> AllPaths(h, nodes[r])
  }

  ghost predicate RemovedWellFormed(h: Hasher, removed: RemovedRows, nextId: nat) {
    && (forall id :: id in removed ==> id < nextId && |removed[id].smtTxPath| == h.size)
    && (forall a, b :: a in removed && b in removed && removed[a].key == removed[b].key ==> a == b)
  }

  /** The removed row keeps everything, its place and root included. */
  predicate TakenFrom(tx: PolyTx, o: RemovedPolyTx) {
    && o.originTxIndex == tx.txIndex && o.key == tx.key && o.payload == tx.payload && o.smtTxPath == tx.smtTxPath
    && o.root == tx.root && o.sideNodes == tx.sideNodes && o.leafData == tx.leafData
    && o.status == tx.status && o.starcoinTxHash == tx.starcoinTxHash && o.retryCount == tx.retryCount
  }

  lemma MoreRemovedWellFormed(h: Hasher, removed: RemovedRows, nextId: nat, tx: PolyTx)
    requires RemovedWellFormed(h, removed, nextId) && !RemovedDuplicate(removed, tx) && |tx.smtTxPath| == h.size
    ensures nextId !in removed && RemovedWellFormed(h, removed[nextId := ToRemovedPolyTx(tx, nextId)], nextId + 1)
    ensures removed[nextId := ToRemovedPolyTx(tx, nextId)] - {nextId} == removed
    ensures RemovedWellFormed(h, removed, nextId + 1)
  {
  }

  lemma RowAt(h: Hasher, rows: Rows, key: Key, i: nat)
    requires WellFormed(h, rows) && At(rows, key, i)
    ensures key in Keys(rows) && rows[i].txIndex == i && forall j :: At(rows, key, j) ==> j == i
  {
  }

  ghost predicate At(rows: Rows, key: Key, i: nat) {
    i in rows && rows[i].key == key
  }

  /** A conditional update of the row just read, nothing written in between, changes that row alone or nothing. */
  lemma UpdateHitsOne(h: Hasher, rows: Rows, i: nat, oldStatus: Status, fields: Fields, now: nat)
    requires WellFormed(h, rows) && i in rows
    ensures Affects(rows, rows[i], oldStatus) <==> rows[i].status == oldStatus
    ensures OptimisticUpdate(rows, rows[i], oldStatus, fields, now)
      == if rows[i].status == oldStatus then rows[i := Patch(rows[i], fields, rows[i].retryCount + 1, now)] else rows
  {
    assert rows[i].status == oldStatus <==> Unchanged(rows[i], rows[i], oldStatus);
    assert forall j :: j in rows && j != i ==> !Unchanged(rows[j], rows[i], oldStatus);
    hide Unchanged, Patch;
  }

  /** The rows the update is conditional on. */
  lemma WhereClause(rows: Rows, px: PolyTx, oldStatus: Status)
    ensures forall i :: i in rows ==>
      (Unchanged(rows[i], px, oldStatus) <==>
        && rows[i].key == px.key && rows[i].status == oldStatus && rows[i].starcoinTxHash == px.starcoinTxHash
        && (px.updatedAt == 0 || rows[i].updatedAt == px.updatedAt))
  {
  }

  lemma UpdateWellFormed(h: Hasher, rows: Rows, px: PolyTx, oldStatus: Status, fields: Fields, now: nat)
    requires WellFormed(h, rows)
    ensures WellFormed(h, OptimisticUpdate(rows, px, oldStatus, fields, now))
  {
    RewrittenWellFormed(h, rows, OptimisticUpdate(rows, px, oldStatus, fields, now));
  }

  lemma InsertedWellFormed(h: Hasher, rows: Rows, row: PolyTx)
    requires WellFormed(h, rows) && row.txIndex !in rows && |row.smtTxPath| == h.size
    requires !PolyTxTable.Duplicate(rows, row)
    ensures WellFormed(h, rows[row.txIndex := row])
  {
  }

  lemma LastRowWellFormed(h: Hasher, rows: Rows, nodes: Nodes)
    requires WellFormed(h, rows) && NodesWellFormed(h, nodes)
    ensures AllPaths(h, Base(nodes, LastRow(rows))) && LastIndex(rows) + 1 !in rows
    ensures LastRow(rows).Some? ==> |LastRow(rows).value.smtTxPath| == h.size
  {
  }

  lemma PreparedRow(h: Hasher, rows: Rows, nodes: Nodes, tx: PolyTx, row: PolyTx, now: nat)
    requires |tx.smtTxPath| == h.size && AllPaths(h, Base(nodes, LastRow(rows)))
    requires row == (
      if NeedsDeriving(LastRow(rows)) then tx.(txIndex := LastIndex(rows) + 1)
      else WithProof(h, nodes, tx.(txIndex := LastIndex(rows) + 1), LastRow(rows)))
    ensures var placed := row.(status := Created, updatedAt := now);
      && placed == NewRow(h, rows, nodes, tx).(updatedAt := now)
      && placed.txIndex == LastIndex(rows) + 1 && placed.key == tx.key && placed.smtTxPath == tx.smtTxPath
  {
  }

  lemma RewrittenWellFormed(h: Hasher, rows: Rows, rows': Rows)
    requires WellFormed(h, rows) && rows'.Keys <= rows.Keys
    requires forall i :: i in rows' ==>
      rows'[i].txIndex == rows[i].txIndex && rows'[i].key == rows[i].key && rows'[i].smtTxPath == rows[i].smtTxPath
    ensures WellFormed(h, rows')
  {
  }

  function Indices(list: seq<PolyTx>): set<nat> {
    set v | v in list :: v.txIndex
  }

  lemma SavedMore(list: seq<PolyTx>, v: PolyTx, failing: set<nat>)
    ensures Indices(list + [v]) - failing ==
      if v.txIndex in failing then Indices(list) - failing else Indices(list) - failing + {v.txIndex}
  {
    assert Indices(list + [v]) == Indices(list) + {v.txIndex};
  }

  lemma NothingSwept(rows: Rows, failing: set<nat>, now: nat)
    ensures Swept(rows, Indices([]) - failing, now) == rows
  {
  }

  lemma SweptWellFormed(h: Hasher, rows: Rows, targets: set<nat>, now: nat)
    requires WellFormed(h, rows)
    ensures WellFormed(h, Swept(rows, targets, now))
  {
    RewrittenWellFormed(h, rows, Swept(rows, targets, now));
  }

  lemma SweptMore(rows: Rows, targets: set<nat>, i: nat, now: nat)
    requires i in rows
    ensures Swept(rows, targets, now)[i := rows[i].(status := Processed, updatedAt := now)]
      == Swept(rows, targets + {i}, now)
  {
  }

  predicate RemovedDuplicate(removed: RemovedRows, tx: PolyTx) {
    exists id :: id in removed && (removed[id].key == tx.key || removed[id].smtTxPath == tx.smtTxPath)
  }

  lemma KeyGone(h: Hasher, rows: Rows, index: nat)
    requires WellFormed(h, rows) && index in rows
    ensures rows[index].key !in Keys(Removed(rows, index))
  {
  }

  /** The rows left have the keys they had. */
  lemma KeysLeft(rows: Rows, index: nat)
    requires index in rows
    ensures Keys(Removed(rows, index)) + {rows[index].key} == Keys(rows)
  {
    var rows' := Removed(rows, index);
    forall key | key in Keys(rows) && key != rows[index].key ensures key in Keys(rows') {
      var i :| i in rows && rows[i].key == key;
      assert rows'[i].key == key;
    }
    forall key | key in Keys(rows') ensures key in Keys(rows) {
      var i :| i in rows' && rows'[i].key == key;
      assert rows[i].key == key;
    }
  }

  lemma RemovedAddsKey(removed: RemovedRows, id: nat, tx: RemovedPolyTx)
    requires id !in removed
    ensures RemovedKeys(removed[id := tx]) == RemovedKeys(removed) + {tx.key}
  {
    var removed' := removed[id := tx];
    assert removed'[id].key == tx.key;
    forall key | key in RemovedKeys(removed) ensures key in RemovedKeys(removed') {
      var n :| n in removed && removed[n].key == key;
      assert removed'[n].key == key;
    }
  }

  lemma RemovalKeepsKeys(h: Hasher, rows: Rows, removed: RemovedRows, index: nat, id: nat)
    requires WellFormed(h, rows) && index in rows && id !in removed
    ensures var removed' := removed[id := ToRemovedPolyTx(rows[index], id)];
      && KeysOf(Removed(rows, index), removed') == KeysOf(rows, removed)
      && rows[index].key !in Keys(Removed(rows, index)) && rows[index].key in RemovedKeys(removed')
  {
    KeyGone(h, rows, index);
    KeysLeft(rows, index);
    RemovedAddsKey(removed, id, ToRemovedPolyTx(rows[index], id));
    hide WellFormed, Keys, RemovedKeys, Removed;
  }

  lemma InsertionAddsKey(rows: Rows, removed: RemovedRows, n: nat, row: PolyTx)
    requires n !in rows
    ensures Keys(rows[n := row]) == Keys(rows) + {row.key}
    ensures KeysOf(rows[n := row], removed) == KeysOf(rows, removed) + {row.key}
  {
    var rows' := rows[n := row];
    assert rows'[n].key == row.key;
    forall key | key in Keys(rows) ensures key in Keys(rows') {
      var i :| i in rows && rows[i].key == key;
      assert rows'[i].key == key;
    }
  }

  lemma RemovedKeyCounts(rows: Rows, removed: RemovedRows, id: nat)
    requires id in removed
    ensures removed[id].key in RemovedKeys(removed) && removed[id].key in KeysOf(rows, removed)
  {
  }

  /** Inserting a removed row again and then deleting it from the removed ones moves its key back. */
  lemma ReturnKeepsKeys(rows: Rows, removed: RemovedRows, n: nat, row: PolyTx, id: nat)
    requires n !in rows && id in removed && removed[id].key == row.key
    requires forall a, b :: a in removed && b in removed && removed[a].key == removed[b].key ==> a == b
    ensures KeysOf(rows[n := row], removed - {id}) == KeysOf(rows, removed)
    ensures row.key in Keys(rows[n := row]) && row.key !in RemovedKeys(removed - {id})
  {
    InsertionAddsKey(rows, removed, n, row);
    var removed' := removed - {id};
    forall key | key in RemovedKeys(removed) && key != row.key ensures key in RemovedKeys(removed') {
      var a :| a in removed && removed[a].key == key;
      assert a in removed';
    }
    assert RemovedKeys(removed') <= RemovedKeys(removed);
  }

  lemma RestAfterRemoval(rows: Rows, index: nat)
    ensures var rest := Removed(rows, index);
      && rest.Keys == rows.Keys - {index}
      && forall j :: j in rest ==> rest[j] == if j > index then rows[j].(root := []) else rows[j]
  {
  }

  /** The removing statements together. */
  lemma DeletedThenReset(h: Hasher, rows: Rows, index: nat)
    requires WellFormed(h, rows)
    ensures var rest := rows - {index};
      (map i | i in rest :: if i > index then rest[i].(root := []) else rest[i]) == Removed(rows, index)
    ensures WellFormed(h, Removed(rows, index))
  {
    RemovedStaysWellFormed(h, rows, index);
    hide WellFormed;
  }

  lemma RemovedStaysWellFormed(h: Hasher, rows: Rows, index: nat)
    requires WellFormed(h, rows)
    ensures WellFormed(h, Removed(rows, index))
  {
    RewrittenWellFormed(h, rows, Removed(rows, index));
  }

  /** A removed row can be put again: its key and its path are not queued, and a proof can be derived if need be. */
  ghost predicate Returnable(rows: Rows, removed: RemovedRows, nodes: Nodes, id: nat) {
    && id in removed
    && (forall i :: i in rows ==> rows[i].key != removed[id].key && rows[i].smtTxPath != removed[id].smtTxPath)
    && (NeedsDeriving(LastRow(rows)) || Importable(nodes, LastRow(rows)))
  }

  /**
   The row is newly created at the end of the queue and, unless the last row there has no root, proved absent
   from the tree of all before it; without a proof of its own it keeps the one it came with.
   */
  ghost predicate AtEnd(h: Hasher, rows: Rows, nodes: Nodes, sideNodes: Option<seq<Bytes>>, leafData: Bytes,
                        row: PolyTx) {
    && row.status == Created && row.txIndex == LastIndex(rows) + 1
    && if NeedsDeriving(LastRow(rows)) then row.sideNodes == sideNodes && row.leafData == leafData
       else
         && row.sideNodes.Some? && AllPaths(h, Base(nodes, LastRow(rows)))
         && row.root == SetRoot(h, Base(nodes, LastRow(rows)))
         && (row.smtTxPath !in Base(nodes, LastRow(rows)) ==>
              AbsenceProof(h, Base(nodes, LastRow(rows)), row.smtTxPath, row.sideNodes.value, row.leafData))
  }

  /** The row has all that the one to be put has. */
  ghost predicate PutAtEnd(h: Hasher, rows: Rows, nodes: Nodes, tx: PolyTx, row: PolyTx) {
    && row.key == tx.key && row.payload == tx.payload && row.smtTxPath == tx.smtTxPath
    && row.starcoinTxHash == tx.starcoinTxHash && row.retryCount == tx.retryCount
    && AtEnd(h, rows, nodes, tx.sideNodes, tx.leafData, row) && (NeedsDeriving(LastRow(rows)) ==> row.root == tx.root)
  }

  /** The row has all that the removed one had, but for its place, its root and its proof. */
  ghost predicate GivenBack(h: Hasher, rows: Rows, nodes: Nodes, o: RemovedPolyTx, row: PolyTx) {
    && row.key == o.key && row.payload == o.payload && row.smtTxPath == o.smtTxPath
    && row.starcoinTxHash == o.starcoinTxHash && row.retryCount == o.retryCount
    && AtEnd(h, rows, nodes, o.sideNodes, o.leafData, row) && (NeedsDeriving(LastRow(rows)) ==> row.root == [])
  }

  lemma NoDuplicate(rows: Rows, removed: RemovedRows, nodes: Nodes, id: nat)
    requires id in removed
    ensures Returnable(rows, removed, nodes, id) <==>
      !PolyTxTable.Duplicate(rows, ToPolyTx(removed[id]))
        && (NeedsDeriving(LastRow(rows)) || Importable(nodes, LastRow(rows)))
  {
    hide LastRow;
  }

  lemma NotThere(rows: Rows, removed: RemovedRows, nodes: Nodes, id: nat)
    requires id !in removed
    ensures !Returnable(rows, removed, nodes, id)
  {
  }

  lemma NewRowAtEnd(h: Hasher, rows: Rows, nodes: Nodes, tx: PolyTx, now: nat)
    requires |tx.smtTxPath| == h.size && AllPaths(h, Base(nodes, LastRow(rows)))
    ensures PutAtEnd(h, rows, nodes, tx, NewRow(h, rows, nodes, tx).(updatedAt := now))
  {
    hide LastIndex, LastRow, Base, SetRoot;
  }

  lemma RowGivenBack(h: Hasher, rows: Rows, nodes: Nodes, o: RemovedPolyTx, row: PolyTx)
    requires PutAtEnd(h, rows, nodes, ToPolyTx(o), row)
    ensures GivenBack(h, rows, nodes, o, row)
  {
    hide AtEnd;
  }

  /** A removal followed by a push-back gives the row back at the end of the queue. */
  lemma RemovedAndGivenBack(h: Hasher, rows: Rows, nodes: Nodes, i: nat, id: nat, now: nat)
    requires WellFormed(h, rows) && i in rows && AllPaths(h, Base(nodes, LastRow(Removed(rows, i))))
    ensures var rest, o := Removed(rows, i), ToRemovedPolyTx(rows[i], id);
      var row := NewRow(h, rest, nodes, ToPolyTx(o)).(updatedAt := now);
      && row.key == rows[i].key && row.payload == rows[i].payload && row.smtTxPath == rows[i].smtTxPath
      && row.starcoinTxHash == rows[i].starcoinTxHash && row.retryCount == rows[i].retryCount && row.status == Created
      && GivenBack(h, rest, nodes, o, row) && row.txIndex !in rest
      && (Returnable(rest, map[id := o], nodes, id) <==>
           NeedsDeriving(LastRow(rest)) || Importable(nodes, LastRow(rest)))
  {
    var rest, o := Removed(rows, i), ToRemovedPolyTx(rows[i], id);
    NewRowAtEnd(h, rest, nodes, ToPolyTx(o), now);
    RowGivenBack(h, rest, nodes, o, NewRow(h, rest, nodes, ToPolyTx(o)).(updatedAt := now));
    assert forall j :: j in rest ==> rest[j].key != o.key && rest[j].smtTxPath != o.smtTxPath;
    hide NewRow, AtEnd, Base, LastRow;
  }

  class MySqlDB {
    const h: Hasher
    var polyTx: Rows
    var removedPolyTx: RemovedRows
    var nextRemovedId: nat
    var smtNodes: Nodes

    ghost predicate Valid()
      reads this
    {
      h.Valid() && WellFormed(h, polyTx) && NodesWellFormed(h, smtNodes)
        && RemovedWellFormed(h, removedPolyTx, nextRemovedId)
    }

    constructor (h: Hasher)
      requires h.Valid()
      ensures Valid() && this.h == h && polyTx == map[] && removedPolyTx == map[]
      ensures smtNodes == map[h.Placeholder() := {}]
    {
      this.h := h;
      polyTx := map[];
      removedPolyTx := map[];
      nextRemovedId := 0;
      smtNodes := map[h.Placeholder() := {}];
    }

    // ---------- queries ----------

    method GetPolyTx(key: Key) returns (px: Option<PolyTx>)
      ensures px.Some? ==> exists i :: At(polyTx, key, i) && px.value == polyTx[i]
      ensures px == None ==> key !in Keys(polyTx) && forall i :: !At(polyTx, key, i)
    {
      if exists i :: i in polyTx && polyTx[i].key == key {
        var i :| i in polyTx && polyTx[i].key == key;
        px := Some(polyTx[i]);
      } else {
        px := None;
      }
    }

    method GetLastPolyTx() returns (lastIndex: nat, lastTx: Option<PolyTx>)
      ensures lastIndex == LastIndex(polyTx) && lastTx == LastRow(polyTx)
    {
      if polyTx == map[] {
        lastIndex, lastTx := 0, None;
      } else {
        LastExists(polyTx, polyTx.Keys);
        lastIndex :| lastIndex in polyTx && forall j :: j in polyTx ==> j <= lastIndex;
        lastTx := Some(polyTx[lastIndex]);
      }
    }

    // ---------- conditional updates ----------

    /** One UPDATE; rows other than the one it names never match, and it fails when none does. */
    method OptimisticUpdatePolyTx(px: PolyTx, oldStatus: Status, fields: Fields, now: nat) returns (r: Outcome)
      requires Valid()
      modifies this`polyTx
      ensures Valid()
      ensures polyTx == OptimisticUpdate(old(polyTx), px, oldStatus, fields, now)
      ensures r == if Affects(old(polyTx), px, oldStatus) then Ok else Err(OptimisticLock)
      ensures forall i :: i in old(polyTx) ==> var row := old(polyTx)[i];
        if row.key == px.key && row.status == oldStatus && row.starcoinTxHash == px.starcoinTxHash
           && (px.updatedAt == 0 || row.updatedAt == px.updatedAt)
        then r.Ok? && polyTx[i] == Patch(row, fields, px.retryCount + 1, now)
        else polyTx[i] == row
    {
      hide Unchanged, Patch, WellFormed, NodesWellFormed, RemovedWellFormed;
      var rowsAffected := set i | i in polyTx && Unchanged(polyTx[i], px, oldStatus);
      polyTx := map i | i in polyTx ::
        if i in rowsAffected then Patch(polyTx[i], fields, px.retryCount + 1, now) else polyTx[i];
      assert polyTx == OptimisticUpdate(old(polyTx), px, oldStatus, fields, now);
      WhereClause(old(polyTx), px, oldStatus);
      UpdateWellFormed(h, old(polyTx), px, oldStatus, fields, now);
      assert forall i :: i in old(polyTx) && Unchanged(old(polyTx)[i], px, oldStatus) ==> i in rowsAffected;
      if rowsAffected == {} {
        return Err(OptimisticLock);
      }
      assert exists i :: i in rowsAffected;
      r := Ok;
    }

    method SetPolyTxStatus(key: Key, oldStatus: Status, status: Status, now: nat) returns (r: Outcome)
      requires Valid()
      modifies this`polyTx
      ensures Valid()
      ensures r == Err(NotFound) <==> key !in Keys(old(polyTx))
      ensures !r.Ok? ==> polyTx == old(polyTx)
      ensures forall i :: At(old(polyTx), key, i) ==> var row := old(polyTx)[i];
        && (r.Ok? <==> row.status == oldStatus)
        && (r.Ok? ==> polyTx == old(polyTx)[i := row.(status := status, updatedAt := now)])
    {
      var px := GetPolyTx(key);
      hide WellFormed, NodesWellFormed, RemovedWellFormed, OptimisticUpdate, Affects, Keys;
      if px == None {
        return Err(NotFound);
      }
      ghost var i :| At(polyTx, key, i) && px.value == polyTx[i];
      RowAt(h, polyTx, key, i);
      var op := MarkStatus(key, oldStatus, status);
      UpdateHitsOne(h, polyTx, i, oldStatus, op.Update(), now);
      r := OptimisticUpdatePolyTx(px.value, oldStatus, op.Update(), now);
    }

    /**
     A claim: one of a row already being processed succeeds only without a hash, and only after the maximal
     processing time.
     */
    method SetPolyTxStatusProcessing(key: Key, oldStatus: Status, now: nat) returns (r: Outcome)
      requires Valid()
      modifies this`polyTx
      ensures Valid()
      ensures r == Err(NotFound) <==> key !in Keys(old(polyTx))
      ensures !r.Ok? ==> polyTx == old(polyTx)
      ensures forall i :: At(old(polyTx), key, i) ==> var row := old(polyTx)[i];
        && (r == Err(AlreadySettled) <==> row.status in {Confirmed, Processed})
        && (r == Err(StillProcessing) <==>
              row.status == Processing && row.starcoinTxHash == "" && now <= row.updatedAt + 120_000)
        && (r.Ok? <==>
              && row.status == oldStatus && row.status !in {Confirmed, Processed}
              && (row.status == Processing && row.starcoinTxHash == "" ==> now > row.updatedAt + 120_000))
        && (Claim(row).Allowed(row, now) <==> r !in {Err(AlreadySettled), Err(StillProcessing)})
        && (r.Ok? ==>
              polyTx == old(polyTx)[i := row.(status := Processing, starcoinTxHash := "",
                                              retryCount := row.retryCount + 1, updatedAt := now)])
    {
      var px := GetPolyTx(key);
      hide WellFormed, NodesWellFormed, RemovedWellFormed, OptimisticUpdate, Affects, Keys;
      if px == None {
        return Err(NotFound);
      }
      ghost var i :| At(polyTx, key, i) && px.value == polyTx[i];
      RowAt(h, polyTx, key, i);
      if px.value.status == Confirmed || px.value.status == Processed {
        return Err(AlreadySettled);
      }
      if px.value.status == Processing {
        if px.value.starcoinTxHash == "" {
          if !(px.value.updatedAt < now - MAX_PROCESSING_MILLIS) {
            return Err(StillProcessing);
          }
        }
      }
      var op := Claim(px.value);
      assert op.Allowed(px.value, now);
      UpdateHitsOne(h, polyTx, i, oldStatus, op.Update(), now);
      r := OptimisticUpdatePolyTx(px.value, oldStatus, op.Update(), now);
    }

    method SetProcessingPolyTxStarcoinTxHash(key: Key, starcoinTxHash: string, now: nat) returns (r: Outcome)
      requires Valid()
      modifies this`polyTx
      ensures Valid()
      ensures r == Err(NotFound) <==> key !in Keys(old(polyTx))
      ensures !r.Ok? ==> polyTx == old(polyTx)
      ensures forall i :: At(old(polyTx), key, i) ==> var row := old(polyTx)[i];
        && (r.Ok? <==> row.status == Processing && starcoinTxHash != "")
        && (RecordHash(key, starcoinTxHash).Allowed(row, now) <==> r !in {Err(AlreadySettled), Err(EmptyHash)})
        && (r.Ok? ==> polyTx == old(polyTx)[i := row.(starcoinTxHash := starcoinTxHash, updatedAt := now)])
    {
      var px := GetPolyTx(key);
      hide WellFormed, NodesWellFormed, RemovedWellFormed, OptimisticUpdate, Affects, Keys;
      if px == None {
        return Err(NotFound);
      }
      ghost var i :| At(polyTx, key, i) && px.value == polyTx[i];
      RowAt(h, polyTx, key, i);
      if px.value.status == Confirmed || px.value.status == Processed {
        return Err(AlreadySettled);
      }
      if starcoinTxHash == "" {
        return Err(EmptyHash);
      }
      var op := RecordHash(key, starcoinTxHash);
      UpdateHitsOne(h, polyTx, i, op.Expected(), op.Update(), now);
      r := OptimisticUpdatePolyTx(px.value, op.Expected(), op.Update(), now);
    }

    /** `sweepFrom` is the index whose earlier rows are then swept, whether or not the update took effect. */
    method SetPolyTxStatusProcessed(key: Key, oldStatus: Status, starcoinTxHash: string, now: nat)
      returns (r: Outcome, sweepFrom: Option<nat>)
      requires Valid()
      modifies this`polyTx
      ensures Valid()
      ensures r == Err(NotFound) <==> key !in Keys(old(polyTx))
      ensures sweepFrom == None <==> r == Err(NotFound)
      ensures !r.Ok? ==> polyTx == old(polyTx)
      ensures forall i :: At(old(polyTx), key, i) ==> var row := old(polyTx)[i];
        && sweepFrom == Some(i)
        && (r.Ok? <==> row.status == oldStatus)
        && (r.Ok? ==>
          polyTx == old(polyTx)[i := row.(status := Processed, starcoinTxHash := starcoinTxHash, updatedAt := now)])
    {
      var px := GetPolyTx(key);
      hide WellFormed, NodesWellFormed, RemovedWellFormed, OptimisticUpdate, Affects, Keys;
      if px == None {
        return Err(NotFound), None;
      }
      ghost var i :| At(polyTx, key, i) && px.value == polyTx[i];
      RowAt(h, polyTx, key, i);
      var op := MarkProcessed(key, oldStatus, starcoinTxHash);
      UpdateHitsOne(h, polyTx, i, oldStatus, op.Update(), now);
      r := OptimisticUpdatePolyTx(px.value, oldStatus, op.Update(), now);
      sweepFrom := Some(px.value.txIndex);
    }

    /**
     The sweep: `list` is the answer of its query, at most ten sweepable rows, and `failing` the
     indices whose save reports an error, which is ignored. A save writes the whole row as it was read.
     */
    method UpdatePolyTransactionsToProcessedBeforeIndex(index: nat, list: seq<PolyTx>, failing: set<nat>, now: nat)
      requires Valid() && |list| <= 10
      requires forall v :: v in list ==> Sweepable(polyTx, index, v.txIndex) && polyTx[v.txIndex] == v
      modifies this`polyTx
      ensures Valid()
      ensures polyTx == Swept(old(polyTx), Indices(list) - failing, now)
    {
      hide Swept, WellFormed, NodesWellFormed, RemovedWellFormed;
      ghost var rows := polyTx;
      NothingSwept(rows, failing, now);
      assert list[..0] == [];
      var n := 0;
      while n < |list|
        invariant 0 <= n <= |list|
        invariant polyTx == Swept(rows, Indices(list[..n]) - failing, now)
      {
        var v := list[n];
        assert v in list && list[..n + 1] == list[..n] + [v];
        SweptMore(rows, Indices(list[..n]) - failing, v.txIndex, now);
        SavedMore(list[..n], v, failing);
        if v.txIndex !in failing {
          polyTx := polyTx[v.txIndex := v.(status := Processed, updatedAt := now)];
        }
        n := n + 1;
      }
      assert list[..n] == list;
      SweptWellFormed(h, rows, Indices(list) - failing, now);
    }

    // ---------- the queue ----------

    /** `setPolyTxNonMembershipProof`: the row with its proof against the tree of the previous row. */
    method SetPolyTxNonMembershipProof(tx: PolyTx, preTx: Option<PolyTx>) returns (r: Outcome, proved: PolyTx)
      requires Valid() && |tx.smtTxPath| == h.size && (preTx.Some? ==> |preTx.value.smtTxPath| == h.size)
      modifies this`smtNodes
      ensures Valid() && AllPaths(h, Base(old(smtNodes), preTx))
      ensures r == if Importable(old(smtNodes), preTx) then Ok else Err(NoSuchRoot)
      ensures r.Ok? ==>
        proved == WithProof(h, old(smtNodes), tx, preTx) && smtNodes == WithVersion(h, old(smtNodes), preTx)
      ensures !r.Ok? ==> proved == tx && smtNodes == old(smtNodes)
      ensures r.Ok? && tx.smtTxPath !in Base(old(smtNodes), preTx) ==>
        && proved.sideNodes.Some?
        && AbsenceProof(h, Base(old(smtNodes), preTx), proved.smtTxPath, proved.sideNodes.value, proved.leafData)
    {
      var paths: set<Bytes> := {};
      if preTx.Some? {
        if preTx.value.root !in smtNodes {
          return Err(NoSuchRoot), tx;
        }
        paths := smtNodes[preTx.value.root] + {preTx.value.smtTxPath};
      }
      var leafData := if tx.smtTxPath in paths then [] else SlotLeaf(h, Tree(paths), tx.smtTxPath, 0);
      proved := tx.(root := SetRoot(h, paths), sideNodes := Some(Siblings(h, Tree(paths), tx.smtTxPath, 0)),
        leafData := leafData);
      smtNodes := smtNodes[SetRoot(h, paths) := paths];
      r := Ok;
    }

    /** Puts `tx` at the end; whatever fails leaves the queue as it was. */
    method PutPolyTx(tx: PolyTx, now: nat) returns (index: nat, r: Outcome)
      requires Valid() && |tx.smtTxPath| == h.size
      modifies this`polyTx, this`smtNodes
      ensures Valid() && AllPaths(h, Base(old(smtNodes), LastRow(old(polyTx))))
      ensures r.Ok? <==>
        !PolyTxTable.Duplicate(old(polyTx), tx)
          && (NeedsDeriving(LastRow(old(polyTx))) || Importable(old(smtNodes), LastRow(old(polyTx))))
      ensures r.Ok? ==>
        && index == LastIndex(old(polyTx)) + 1 && index !in old(polyTx) && index in polyTx
        && polyTx[index].key == tx.key
        && polyTx == old(polyTx)[index := NewRow(h, old(polyTx), old(smtNodes), tx).(updatedAt := now)]
        && smtNodes == NodesAfterPut(h, old(polyTx), old(smtNodes))
      ensures r.Ok? ==>
        PutAtEnd(h, old(polyTx), old(smtNodes), tx, polyTx[index]) && polyTx[index].updatedAt == now
      ensures !r.Ok? ==> polyTx == old(polyTx) && r.error in {NoSuchRoot, Error.Duplicate}
      ensures r == Err(NoSuchRoot) ==> smtNodes == old(smtNodes)
      ensures r == Err(Error.Duplicate) ==> smtNodes == NodesAfterPut(h, old(polyTx), old(smtNodes))
    {
      hide WellFormed, RemovedWellFormed, NodesWellFormed, WithProof, WithVersion, LastIndex, PutAtEnd;
      var lastIndex, lastTx := GetLastPolyTx();
      ghost var nodes := smtNodes;
      LastRowWellFormed(h, polyTx, nodes);
      var row := tx.(txIndex := lastIndex + 1);
      index := 0;
      if lastTx.Some? && lastTx.value.root == [] {
      } else {
        r, row := SetPolyTxNonMembershipProof(row, lastTx);
        if r.Err? {
          return;
        }
      }
      PreparedRow(h, polyTx, nodes, tx, row, now);
      NewRowAtEnd(h, polyTx, nodes, tx, now);
      row := row.(status := Created, updatedAt := now);
      if PolyTxTable.Duplicate(polyTx, row) {
        return 0, Err(Error.Duplicate);
      }
      index, r := row.txIndex, Ok;
      InsertedWellFormed(h, polyTx, row);
      polyTx := polyTx[index := row];
    }

    /** Derives the proof of a queued row again and saves the whole row. */
    method UpdatePolyTxNonMembershipProofByIndex(idx: nat, now: nat) returns (r: Outcome)
      requires Valid()
      modifies this`polyTx, this`smtNodes
      ensures Valid() && AllPaths(h, Base(old(smtNodes), Previous(old(polyTx), idx)))
      ensures r.Ok? <==> idx in old(polyTx) && Importable(old(smtNodes), Previous(old(polyTx), idx))
      ensures r.Ok? ==>
        && (var proved := WithProof(h, old(smtNodes), old(polyTx)[idx], Previous(old(polyTx), idx));
            polyTx == old(polyTx)[idx := proved.(updatedAt := now)])
        && smtNodes == WithVersion(h, old(smtNodes), Previous(old(polyTx), idx))
      ensures !r.Ok? ==> polyTx == old(polyTx) && smtNodes == old(smtNodes)
    {
      var preTx := Previous(polyTx, idx);
      if idx !in polyTx {
        return Err(NotFound);
      }
      var tx;
      r, tx := SetPolyTxNonMembershipProof(polyTx[idx], preTx);
      if r.Ok? {
        polyTx := polyTx[idx := tx.(updatedAt := now)];
      }
    }

    /** The statements of the removing transaction that may fail. */
    method RemovePolyTx(tx: PolyTx, saveFails: bool, deleteFails: bool, resetFails: bool) returns (r: Outcome)
      requires Valid() && tx.txIndex in polyTx && polyTx[tx.txIndex].key == tx.key && |tx.smtTxPath| == h.size
      modifies this`polyTx, this`removedPolyTx, this`nextRemovedId
      ensures Valid()
      ensures r.Ok? <==>
        tx.status == ToBeRemoved && !saveFails && !RemovedDuplicate(old(removedPolyTx), tx) && !deleteFails
          && !resetFails
      ensures r.Ok? ==>
        && polyTx == Removed(old(polyTx), tx.txIndex)
        && removedPolyTx == old(removedPolyTx)[old(nextRemovedId) := ToRemovedPolyTx(tx, old(nextRemovedId))]
        && tx.key !in Keys(polyTx) && tx.key in RemovedKeys(removedPolyTx)
      ensures r.Ok? ==>
        && polyTx.Keys == old(polyTx).Keys - {tx.txIndex}
        && (forall j :: j in polyTx ==>
             polyTx[j] == if j > tx.txIndex then old(polyTx)[j].(root := []) else old(polyTx)[j])
        && TakenFrom(tx, removedPolyTx[old(nextRemovedId)])
      ensures !r.Ok? ==> polyTx == old(polyTx) && removedPolyTx == old(removedPolyTx)
      ensures KeysOf(polyTx, removedPolyTx) == KeysOf(old(polyTx), old(removedPolyTx))
    {
      hide WellFormed, RemovedWellFormed, NodesWellFormed, RemovedDuplicate, Removed, KeysOf;
      if tx.status != ToBeRemoved {
        return Err(NotToBeRemoved);
      }
      var polyTx0, removed0 := polyTx, removedPolyTx;
      if saveFails || RemovedDuplicate(removedPolyTx, tx) {
        return Err(StatementFailed);
      }
      var id := nextRemovedId;
      MoreRemovedWellFormed(h, removedPolyTx, id, tx);
      removedPolyTx, nextRemovedId := removedPolyTx[id := ToRemovedPolyTx(tx, id)], id + 1;
      if deleteFails {
        removedPolyTx := removed0;
        return Err(StatementFailed);
      }
      polyTx := polyTx - {tx.txIndex};
      if resetFails {
        polyTx, removedPolyTx := polyTx0, removed0;
        return Err(StatementFailed);
      }
      polyTx := map i | i in polyTx :: if i > tx.txIndex then polyTx[i].(root := []) else polyTx[i];
      DeletedThenReset(h, polyTx0, tx.txIndex);
      RestAfterRemoval(polyTx0, tx.txIndex);
      SameKeyMoves(h, polyTx0, removed0, tx, id);
      r := Ok;
    }

    /**
     Puts a removed row back. The insertion is not part of the transaction, so when the deletion fails
     the row stays among the removed ones as well.
     */
    method PushBackRemovePolyTx(id: nat, now: nat, deleteFails: bool) returns (r: Outcome)
      requires Valid()
      modifies this`polyTx, this`removedPolyTx, this`smtNodes
      ensures Valid()
      ensures r == Err(NotFound) <==> id !in old(removedPolyTx)
      ensures KeysOf(polyTx, removedPolyTx) == KeysOf(old(polyTx), old(removedPolyTx))
      ensures r.Ok? <==> !deleteFails && Returnable(old(polyTx), old(removedPolyTx), old(smtNodes), id)
      // the queue, whether or not the deletion then fails
      ensures Returnable(old(polyTx), old(removedPolyTx), old(smtNodes), id) ==>
        var n := LastIndex(old(polyTx)) + 1;
        && n !in old(polyTx) && n in polyTx && polyTx == old(polyTx)[n := polyTx[n]]
        && GivenBack(h, old(polyTx), old(smtNodes), old(removedPolyTx)[id], polyTx[n]) && polyTx[n].updatedAt == now
        && smtNodes == NodesAfterPut(h, old(polyTx), old(smtNodes))
      ensures !Returnable(old(polyTx), old(removedPolyTx), old(smtNodes), id) ==> polyTx == old(polyTx)
      ensures r.Ok? ==>
        && old(removedPolyTx)[id].key in Keys(polyTx) && old(removedPolyTx)[id].key !in RemovedKeys(removedPolyTx)
        && LastIndex(old(polyTx)) + 1 in polyTx && polyTx[LastIndex(old(polyTx)) + 1].key == old(removedPolyTx)[id].key
        && removedPolyTx == old(removedPolyTx) - {id}
      ensures !r.Ok? ==> removedPolyTx == old(removedPolyTx)
      ensures !r.Ok? && polyTx != old(polyTx) ==>
        && deleteFails && id in old(removedPolyTx)
        && old(removedPolyTx)[id].key in Keys(polyTx) && old(removedPolyTx)[id].key in RemovedKeys(removedPolyTx)
    {
      hide WellFormed, NodesWellFormed, NewRow, NodesAfterPut, LastIndex, PolyTxTable.Duplicate, Base, AllPaths, KeysOf;
      hide GivenBack, PutAtEnd, Returnable, NeedsDeriving, Importable, LastRow;
      if id !in removedPolyTx {
        NotThere(polyTx, removedPolyTx, smtNodes, id);
        return Err(NotFound);
      }
      var p := ToPolyTx(removedPolyTx[id]);
      ghost var rows, nodes := polyTx, smtNodes;
      NoDuplicate(rows, removedPolyTx, nodes, id);
      var idx;
      idx, r := PutPolyTx(p, now);
      if r.Err? {
        return;
      }
      RowGivenBack(h, rows, nodes, removedPolyTx[id], polyTx[idx]);
      InsertionAddsKey(rows, removedPolyTx, idx, polyTx[idx]);
      RemovedKeyCounts(rows, removedPolyTx, id);
      if deleteFails {
        return Err(StatementFailed);
      }
      ReturnKeepsKeys(rows, removedPolyTx, idx, polyTx[idx], id);
      removedPolyTx := removedPolyTx - {id};
    }

    /** `computePloyTxInclusionRootHash`: the tree's answer, and the one the stored proof gives. */
    method ComputePolyTxInclusionRootHash(tx: PolyTx) returns (r: Option<Bytes>)
      requires Valid() && |tx.smtTxPath| == h.size
      ensures r.Some? <==> tx.root in smtNodes
      ensures r.Some? ==> var with := smtNodes[tx.root] + {tx.smtTxPath};
        AllPaths(h, with) && r.value == SetRoot(h, with)
      ensures r.Some? && tx.sideNodes.Some? ==>
        AbsenceProof(h, smtNodes[tx.root], tx.smtTxPath, tx.sideNodes.value, tx.leafData) ==>
        r == InclusionRootOf(h, tx)
    {
      if tx.root !in smtNodes {
        return None;
      }
      var paths := smtNodes[tx.root] + {tx.smtTxPath};
      r := Some(SetRoot(h, paths));
      if tx.sideNodes.Some? && AbsenceProof(h, smtNodes[tx.root], tx.smtTxPath, tx.sideNodes.value, tx.leafData) {
        InclusionRoot(h, smtNodes[tx.root], tx.smtTxPath, tx.sideNodes.value, tx.leafData);
      }
    }
  }

  lemma SameKeyMoves(h: Hasher, rows: Rows, removed: RemovedRows, tx: PolyTx, id: nat)
    requires WellFormed(h, rows) && tx.txIndex in rows && rows[tx.txIndex].key == tx.key && id !in removed
    ensures var removed' := removed[id := ToRemovedPolyTx(tx, id)];
      && KeysOf(Removed(rows, tx.txIndex), removed') == KeysOf(rows, removed)
      && tx.key !in Keys(Removed(rows, tx.txIndex)) && tx.key in RemovedKeys(removed')
  {
    var removed0, removed1 := removed[id := ToRemovedPolyTx(rows[tx.txIndex], id)],
      removed[id := ToRemovedPolyTx(tx, id)];
    RemovalKeepsKeys(h, rows, removed, tx.txIndex, id);
    assert forall n :: n in removed0 ==> removed1[n].key == removed0[n].key;
    assert RemovedKeys(removed0) == RemovedKeys(removed1);
  }
}
