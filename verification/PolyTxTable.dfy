/**
 The `poly_tx` table as a value, and what each statement of db/mysqldb.go does to it. The class
 MySqlDb performs these changes in place; the relay run interleaves them.
 */
module PolyTxTable {
  import opened Bytes
  import opened Wrappers
  import opened SparseMerkle
  import opened SmtUpdate
  import opened PathSets
  import opened PolyTxs

  /** Rows by `tx_index`. */
  type Rows = map<nat, PolyTx>

  /**
   The node store of the external `csmt` trees: the version of the tree each root stands for. Its
   `Delete` does nothing, so versions are only ever added.
   */
  type Nodes = map<Bytes, set<Bytes>>

  const MAX_PROCESSING_MILLIS := 120 * 1000
  const MAX_RETRY_COUNT := 10
  const INDEX_DIFF_LIMIT := 50
  const SWEEP_LIMIT := 10

  ghost function PathSet(rows: Rows): set<Bytes> {
    set i | i in rows :: rows[i].smtTxPath
  }

  ghost function Keys(rows: Rows): set<Key> {
    set i | i in rows :: rows[i].key
  }

  /** The `removed_poly_tx` table. */
  type RemovedRows = map<nat, RemovedPolyTx>

  ghost function RemovedKeys(removed: RemovedRows): set<Key> {
    set id | id in removed :: removed[id].key
  }

  /** Keys in either table. */
  ghost function KeysOf(rows: Rows, removed: RemovedRows): set<Key> {
    Keys(rows) + RemovedKeys(removed)
  }

  /** Paths of all rows queued before index `n`. */
  ghost function Before(rows: Rows, n: nat): set<Bytes> {
    set i | i in rows && i < n :: rows[i].smtTxPath
  }

  // ---------- neighbours ----------

  ghost predicate IsLast(rows: Rows, i: nat) {
    i in rows && forall j :: j in rows ==> j <= i
  }

  lemma LastExists(rows: Rows, keys: set<nat>)
    requires keys != {} && keys <= rows.Keys
    ensures exists i :: i in keys && forall j :: j in keys ==> j <= i
  {
    var k :| k in keys;
    if keys != {k} {
      LastExists(rows, keys - {k});
      var i :| i in keys - {k} && forall j :: j in keys - {k} ==> j <= i;
      var m := if i < k then k else i;
      assert m in keys;
      forall j | j in keys ensures j <= m {
        assert j == k || j in keys - {k};
      }
    }
  }

  /** Index of the last row, 0 when the table is empty. */
  ghost function LastIndex(rows: Rows): (n: nat)
    ensures rows == map[] ==> n == 0
    ensures rows != map[] ==> IsLast(rows, n)
  {
    if rows == map[] then 0
    else
      LastExists(rows, rows.Keys);
      var i :| i in rows.Keys && forall j :: j in rows.Keys ==> j <= i;
      i
  }

  /** The row before index `n`: `GetPreviousePolyTx`. */
  function Previous(rows: Rows, n: nat): (r: Option<PolyTx>)
    ensures r == None ==> forall j :: j in rows ==> j >= n
    ensures r.Some? ==>
      exists i :: i in rows && i < n && r.value == rows[i] && forall j :: j in rows && j < n ==> j <= i
  {
    if n == 0 then None
    else if n - 1 in rows then Some(rows[n - 1])
    else Previous(rows, n - 1)
  }

  // ---------- deriving a non-membership proof ----------

  /** Contents of the tree a row is proved absent from: the tree of the previous row with that row put in. */
  function Base(nodes: Nodes, pre: Option<PolyTx>): set<Bytes> {
    match pre
    case None => {}
    case Some(p) => (if p.root in nodes then nodes[p.root] else {}) + {p.smtTxPath}
  }

  /** The tree of the previous row can be imported. */
  predicate Importable(nodes: Nodes, pre: Option<PolyTx>) {
    pre.Some? ==> pre.value.root in nodes
  }

  /** `setPolyTxNonMembershipProof`. */
  function WithProof(h: Hasher, nodes: Nodes, tx: PolyTx, pre: Option<PolyTx>): PolyTx
    requires AllPaths(h, Base(nodes, pre)) && |tx.smtTxPath| == h.size
  {
    var base := Base(nodes, pre);
    tx.(root := SetRoot(h, base),
        sideNodes := Some(Siblings(h, Tree(base), tx.smtTxPath, 0)),
        leafData := if tx.smtTxPath in base then [] else SlotLeaf(h, Tree(base), tx.smtTxPath, 0))
  }

  function WithVersion(h: Hasher, nodes: Nodes, pre: Option<PolyTx>): Nodes
    requires AllPaths(h, Base(nodes, pre))
  {
    nodes[SetRoot(h, Base(nodes, pre)) := Base(nodes, pre)]
  }

  /** `ComputePloyTxInclusionSmtRootHash`: the root with the row put in, from its stored proof alone. */
  function InclusionRootOf(h: Hasher, tx: PolyTx): Option<Bytes> {
    if tx.sideNodes == None || |tx.smtTxPath| != h.size || !Readable(h, tx.leafData) then None
    else Some(UpdatedRoot(h, tx.smtTxPath, EXISTS_VALUE, Present(tx.sideNodes.value), tx.leafData))
  }

  // ---------- statements ----------

  /** `UPDATE` of selected fields: absent ones keep their value. */
  datatype Fields = Fields(status: Status, starcoinTxHash: Option<string>, countRetry: bool)

  function Patch(row: PolyTx, fields: Fields, retryCount: nat, now: nat): PolyTx {
    row.(status := fields.status,
         starcoinTxHash := if fields.starcoinTxHash.Some? then fields.starcoinTxHash.value else row.starcoinTxHash,
         retryCount := if fields.countRetry then retryCount else row.retryCount,
         updatedAt := now)
  }

  /** The WHERE clause of `optimisticUpdatePolyTx`, `px` being the row read before. */
  predicate Unchanged(row: PolyTx, px: PolyTx, oldStatus: Status) {
    && row.key == px.key
    && row.status == oldStatus
    && row.starcoinTxHash == px.starcoinTxHash
    && (px.updatedAt > 0 ==> row.updatedAt == px.updatedAt)
  }

  predicate Affects(rows: Rows, px: PolyTx, oldStatus: Status) {
    exists i :: i in rows && Unchanged(rows[i], px, oldStatus)
  }

  /** `optimisticUpdatePolyTx`; it reports an error when no row is affected. */
  function OptimisticUpdate(rows: Rows, px: PolyTx, oldStatus: Status, fields: Fields, now: nat): Rows {
    map i | i in rows ::
      if Unchanged(rows[i], px, oldStatus) then Patch(rows[i], fields, px.retryCount + 1, now) else rows[i]
  }

  /** The row PutPolyTx inserts; its proof is left out when the last row has no root. */
  ghost function NewRow(h: Hasher, rows: Rows, nodes: Nodes, tx: PolyTx): PolyTx
    requires |tx.smtTxPath| == h.size && AllPaths(h, Base(nodes, LastRow(rows)))
  {
    var placed := tx.(txIndex := LastIndex(rows) + 1, status := Created);
    if NeedsDeriving(LastRow(rows)) then placed else WithProof(h, nodes, placed, LastRow(rows))
  }

  ghost function NodesAfterPut(h: Hasher, rows: Rows, nodes: Nodes): Nodes
    requires AllPaths(h, Base(nodes, LastRow(rows)))
  {
    if NeedsDeriving(LastRow(rows)) then nodes else WithVersion(h, nodes, LastRow(rows))
  }

  /**
   What a query just before the INSERT could check: no row behind the index has a root, and a root
   that was derived is the inclusion root of the row now before it.
   */
  predicate Fits(h: Hasher, rows: Rows, row: PolyTx) {
    && (forall j :: j in rows && j > row.txIndex ==> rows[j].root == [])
    && (row.root != [] ==> Follows(h, Previous(rows, row.txIndex), row.root))
  }

  predicate Follows(h: Hasher, pre: Option<PolyTx>, root: Bytes) {
    match pre
    case None => root == h.Placeholder()
    case Some(p) => p.root != [] && InclusionRootOf(h, p) == Some(root)
  }

  predicate NeedsDeriving(last: Option<PolyTx>) {
    last.Some? && last.value.root == []
  }

  ghost function LastRow(rows: Rows): Option<PolyTx> {
    if rows == map[] then None else Some(rows[LastIndex(rows)])
  }

  /** Unique indexes on the key and on the path. */
  predicate Duplicate(rows: Rows, tx: PolyTx) {
    exists i :: i in rows && (rows[i].key == tx.key || rows[i].smtTxPath == tx.smtTxPath)
  }

  /** Deletes a row and clears the roots of all later ones. */
  function Removed(rows: Rows, index: nat): Rows {
    map i | i in rows && i != index :: if i > index then rows[i].(root := []) else rows[i]
  }

  /** Rows `updatePolyTransactionsToProcessedBeforeIndex` may pick. */
  predicate Sweepable(rows: Rows, index: nat, i: nat) {
    && i in rows
    && (if index > INDEX_DIFF_LIMIT then index - INDEX_DIFF_LIMIT else 1) <= i < index
    && rows[i].status in {Processing, Failed, TimedOut}
  }

  function Swept(rows: Rows, targets: set<nat>, now: nat): Rows {
    map i | i in rows :: if i in targets then rows[i].(status := Processed, updatedAt := now) else rows[i]
  }

  // ---------- selectors ----------

  /** `GetFirstFailedPolyTx`. */
  predicate FailedLongAgo(row: PolyTx, now: nat) {
    && row.retryCount < MAX_RETRY_COUNT
    && row.status !in {Processed, Confirmed, TimedOut, ToBeRemoved}
    && row.updatedAt + MAX_PROCESSING_MILLIS < now
  }

  /** `GetFirstTimedOutPolyTx`. */
  predicate TimedOutLongAgo(row: PolyTx, now: nat) {
    row.status == TimedOut && row.updatedAt + MAX_PROCESSING_MILLIS < now
  }

  /** `GetTimedOutOrFailedPolyTxList`. */
  ghost predicate RecentlyStuck(rows: Rows, i: nat) {
    && i in rows
    && (if LastIndex(rows) > INDEX_DIFF_LIMIT then LastIndex(rows) - INDEX_DIFF_LIMIT else 1) <= i <= LastIndex(rows)
    && rows[i].status in {TimedOut, Failed}
  }

  /** The checks of `SetPolyTxStatusProcessing` on the row it read. */
  predicate Claimable(px: PolyTx, now: nat) {
    && px.status !in {Confirmed, Processed}
    && (px.status == Processing && px.starcoinTxHash == "" ==> px.updatedAt + MAX_PROCESSING_MILLIS < now)
  }

  // ---------- conditional updates ----------

  /** Updates made of a read step and a conditional write step. */
  datatype Op =
    | Claim(m: PolyTx)                                                          // SetPolyTxStatusProcessing
    | RecordHash(key: Key, starcoinTxHash: string)                              // SetProcessingPolyTxStarcoinTxHash
    | MarkProcessed(key: Key, oldStatus: Status, starcoinTxHash: string)        // SetPolyTxStatusProcessed
    | MarkStatus(key: Key, oldStatus: Status, newStatus: Status)                // SetPolyTxStatus
  {
    function KeyOf(): Key {
      if Claim? then m.key else key
    }

    /** The status the update is conditional on. */
    function Expected(): Status {
      match this
      case Claim(m) => m.status
      case RecordHash(_, _) => Processing
      case MarkProcessed(_, oldStatus, _) => oldStatus
      case MarkStatus(_, oldStatus, _) => oldStatus
    }

    function Update(): Fields {
      match this
      case Claim(_) => Fields(Processing, Some(""), true)
      case RecordHash(_, hash) => Fields(Processing, Some(hash), false)
      case MarkProcessed(_, _, hash) => Fields(Processed, Some(hash), false)
      case MarkStatus(_, _, newStatus) => Fields(newStatus, None, false)
    }

    /** Checks on the row read, before writing. */
    predicate Allowed(px: PolyTx, now: nat) {
      match this
      case Claim(_) => Claimable(px, now)
      case RecordHash(_, hash) => px.status !in {Confirmed, Processed} && hash != ""
      case MarkProcessed(_, _, _) => true
      case MarkStatus(_, _, _) => true
    }
  }

  // ---------- lemmas ----------

  lemma BeforePrevious(rows: Rows, n: nat)
    ensures Previous(rows, n) == None ==> Before(rows, n) == {}
    ensures Previous(rows, n).Some? ==>
      (exists i :: i in rows && i < n && Previous(rows, n).value == rows[i]
                   && Before(rows, n) == Before(rows, i) + {rows[i].smtTxPath})
  {
    var pre := Previous(rows, n);
    hide Previous, Before;
    if pre.Some? {
      var i :| i in rows && i < n && pre.value == rows[i] && forall j :: j in rows && j < n ==> j <= i;
      BeforeIncludes(rows, n, i);
    } else {
      NothingBefore(rows, n);
    }
  }

  lemma NothingBefore(rows: Rows, n: nat)
    requires forall j :: j in rows ==> j >= n
    ensures Before(rows, n) == {}
  {
  }

  lemma BeforeIncludes(rows: Rows, n: nat, i: nat)
    requires i in rows && i < n && forall j :: j in rows && j < n ==> j <= i
    ensures Before(rows, n) == Before(rows, i) + {rows[i].smtTxPath}
  {
    forall p | p in Before(rows, n) ensures p in Before(rows, i) + {rows[i].smtTxPath} {
      var j :| j in rows && j < n && rows[j].smtTxPath == p;
      assert j == i || j < i;
    }
  }

  /** Everything queued lies before the index the next row will get. */
  lemma BeforeNext(rows: Rows)
    ensures Before(rows, LastIndex(rows) + 1) == PathSet(rows)
    ensures rows != map[] ==>
      Before(rows, LastIndex(rows) + 1) == Before(rows, LastIndex(rows)) + {rows[LastIndex(rows)].smtTxPath}
  {
    forall p | p in PathSet(rows) ensures p in Before(rows, LastIndex(rows) + 1) {
      var j :| j in rows && rows[j].smtTxPath == p;
    }
    if rows != map[] {
      forall p | p in PathSet(rows) ensures p in Before(rows, LastIndex(rows)) + {rows[LastIndex(rows)].smtTxPath} {
        var j :| j in rows && rows[j].smtTxPath == p;
        assert j == LastIndex(rows) || j < LastIndex(rows);
      }
    }
  }
}
