/**
 What every reachable state of the relay satisfies, and the facts about goroutines that survive
 whatever the others do.
 */
module RelayInvariant {
  import opened Bytes
  import opened Wrappers
  import opened PathSets
  import opened PolyTxs
  import opened PolyTxTable
  import opened Relay
  import opened RelayLedger

  // ---------- rows and snapshots ----------

  /** The stored proof shows the path absent from some set of queued paths. */
  ghost predicate ProvesAbsent(cfg: Config, path: Bytes, sideNodes: Option<seq<Bytes>>, leafData: Bytes) {
    sideNodes.Some? ==> exists paths {:trigger AbsenceProof(cfg.h, paths, path, sideNodes.value, leafData)} ::
      && paths in cfg.trees && paths + {path} in cfg.trees
      && AbsenceProof(cfg.h, paths, path, sideNodes.value, leafData)
  }

  /** The transaction carries the path. */
  ghost predicate TxFor(s: State, hash: string, path: Bytes) {
    hash in s.starcoin.txs && s.starcoin.txs[hash].path == path
  }

  /** A root with the proof of absence that goes with it. */
  ghost predicate RootProved(cfg: Config, nodes: Nodes, path: Bytes, root: Bytes, sideNodes: Option<seq<Bytes>>,
                             leafData: Bytes) {
    root != [] ==>
      && root in nodes && nodes[root] + {path} in cfg.trees
      && sideNodes.Some? && AbsenceProof(cfg.h, nodes[root], path, sideNodes.value, leafData)
  }

  /** A row, wherever it is held: its path, its proofs, its transaction. */
  ghost predicate Sound(cfg: Config, s: State, m: PolyTx) {
    && m.smtTxPath == PathOf(cfg.h, m.key) && |m.smtTxPath| == cfg.h.size
    && RootProved(cfg, s.nodes, m.smtTxPath, m.root, m.sideNodes, m.leafData)
    && ProvesAbsent(cfg, m.smtTxPath, m.sideNodes, m.leafData)
    && (m.starcoinTxHash != "" ==> TxFor(s, m.starcoinTxHash, m.smtTxPath))
  }

  /**
   A submission of row `i` with root `root` leaves out no row before it: if the root stands for some
   of those rows at all, it stands for all of them, and the row has a root.
   */
  ghost predicate InPlace(s: State, i: nat, root: Bytes) {
    i in s.rows && root != [] && root in s.nodes && s.nodes[root] <= Before(s.rows, i) ==>
      s.nodes[root] == Before(s.rows, i) && s.rows[i].root != []
  }

  /** The row is still where it was read, and a submission of what was read leaves no row out. */
  ghost predicate Placed(s: State, m: PolyTx) {
    && m.txIndex in s.rows && s.rows[m.txIndex].key == m.key
    && InPlace(s, m.txIndex, m.root)
  }

  ghost predicate RowsOk(cfg: Config, s: State) {
    && (forall i :: i in s.rows ==> i > 0 && s.rows[i].txIndex == i && Sound(cfg, s, s.rows[i]))
    && (forall i :: i in s.rows ==> 0 < s.rows[i].updatedAt <= s.clock)
    && (forall i, j :: i in s.rows && j in s.rows && s.rows[i].smtTxPath == s.rows[j].smtTxPath ==> i == j)
  }

  /** Rows with a root come first, and each root stands for exactly the rows before it. */
  ghost predicate RootsOk(s: State) {
    && (forall i :: i in s.rows && s.rows[i].root != [] ==>
          s.rows[i].root in s.nodes && s.nodes[s.rows[i].root] == Before(s.rows, i))
    && (forall i, j :: i in s.rows && j in s.rows && j < i && s.rows[i].root != [] ==> s.rows[j].root != [])
  }

  ghost predicate NodesOk(cfg: Config, s: State) {
    forall r :: r in s.nodes ==>
      s.nodes[r] in cfg.trees && AllPaths(cfg.h, s.nodes[r]) && SetRoot(cfg.h, s.nodes[r]) == r
  }

  ghost predicate RemovedOk(cfg: Config, s: State) {
    && (forall id :: id in s.removed ==> id < s.nextRemovedId && Sound(cfg, s, ToPolyTx(s.removed[id])))
    && (forall a, b :: a in s.removed && b in s.removed && s.removed[a].key == s.removed[b].key ==> a == b)
  }

  // ---------- Starcoin ----------

  ghost predicate NoRepeats(log: seq<Bytes>) {
    forall a, b :: 0 <= a < b < |log| ==> log[a] != log[b]
  }

  /** No row is executed before the rows queued ahead of it. */
  ghost predicate InOrder(rows: Rows, executed: set<Bytes>) {
    forall i, j :: i in rows && j in rows && i < j && rows[j].smtTxPath in executed ==> rows[i].smtTxPath in executed
  }

  /** The trees the contract has kept the roots of belong to the family. */
  ghost predicate PrefixesBuilt(cfg: Config, log: seq<Bytes>) {
    && Elements(log) in cfg.trees
    && forall n {:trigger log[..n]} :: 0 <= n <= |log| ==> Elements(log[..n]) in cfg.trees
  }

  ghost predicate ChainOk(cfg: Config, s: State) {
    && Elements(s.starcoin.log) <= PathSet(s.rows) && PrefixesBuilt(cfg, s.starcoin.log)
    && AllPaths(cfg.h, Elements(s.starcoin.log)) && s.starcoin.root == SetRoot(cfg.h, Elements(s.starcoin.log))
    && NoRepeats(s.starcoin.log)
    && InOrder(s.rows, Elements(s.starcoin.log))
  }

  /** A pending transaction with a root comes from a row still queued, and leaves out no row before it. */
  ghost predicate PendingOk(cfg: Config, s: State, tx: Submission) {
    tx.root != [] ==>
      && tx.path in PathSet(s.rows)
      && RootProved(cfg, s.nodes, tx.path, tx.root, Some(tx.sideNodes), tx.leafData)
      && (forall i :: i in s.rows && s.rows[i].smtTxPath == tx.path ==> InPlace(s, i, tx.root))
  }

  ghost predicate TxsOk(cfg: Config, s: State) {
    && (forall x :: TxIs(s, x, Executed) ==> s.starcoin.txs[x].path in s.starcoin.log)
    && (forall x :: TxIs(s, x, Pending) ==> PendingOk(cfg, s, s.starcoin.txs[x]))
  }

  /** Processed rows have been executed, and executed rows have a root. */
  ghost predicate ProcessedOk(s: State) {
    && (forall i :: i in s.rows && s.rows[i].status in {Processed, Confirmed} ==> s.rows[i].smtTxPath in s.starcoin.log)
    && (forall i :: i in s.rows && s.rows[i].smtTxPath in s.starcoin.log ==> s.rows[i].root != [])
  }

  // ---------- goroutines ----------

  ghost predicate OpOk(cfg: Config, s: State, op: Op) {
    && !Settled(op.Expected())
    && match op
       case Claim(m) => Sound(cfg, s, m)
       case RecordHash(key, hash) => TxFor(s, hash, PathOf(cfg.h, key))
       case MarkProcessed(key, _, hash) => PathOf(cfg.h, key) in s.starcoin.log && TxFor(s, hash, PathOf(cfg.h, key))
       case MarkStatus(_, _, newStatus) => newStatus in {Failed, TimedOut, UnknownError}
  }

  ghost predicate ReadOk(cfg: Config, s: State, op: Op, px: PolyTx) {
    && ReadBefore(s, op, px)
    && (op.MarkProcessed? ==> px.txIndex in s.rows && s.rows[px.txIndex].smtTxPath == PathOf(cfg.h, px.key))
  }

  /** A root the contract has kept at some time. */
  ghost predicate PastRoot(cfg: Config, s: State, r: Bytes) {
    exists n {:trigger s.starcoin.log[..n]} :: 0 <= n <= |s.starcoin.log|
      && AllPaths(cfg.h, Elements(s.starcoin.log[..n])) && r == SetRoot(cfg.h, Elements(s.starcoin.log[..n]))
  }

  ghost predicate RemovalOk(cfg: Config, s: State, m: PolyTx) {
    && Sound(cfg, s, m) && StillMarked(s, m)
    && (m.root != [] ==> s.rows[m.txIndex].root == m.root)
  }

  /** The row to be inserted is sound, unless its own path was queued when its proof was derived. */
  ghost predicate InsertingOk(cfg: Config, s: State, row: PolyTx, origin: Option<nat>) {
    && row.status == Created && row.txIndex > 0
    && row.smtTxPath == PathOf(cfg.h, row.key) && |row.smtTxPath| == cfg.h.size
    && (Sound(cfg, s, row) || (row.root in s.nodes && row.smtTxPath in s.nodes[row.root]))
    && ComesFrom(s, row, origin)
  }

  ghost predicate ThreadOk(cfg: Config, s: State, thr: Thread) {
    && (Held(s, thr).Some? ==> Placed(s, Held(s, thr).value))
    && match thr
       case Reading(op) => OpOk(cfg, s, op)
       case Writing(op, px) => OpOk(cfg, s, op) && ReadOk(cfg, s, op, px)
       case Checking(m, resend) => Sound(cfg, s, m) && !Settled(m.status)
         && (resend ==> m.updatedAt + MAX_PROCESSING_MILLIS < s.clock)
       case Deriving(m) => Sound(cfg, s, m)
       case Refetching(m) => Sound(cfg, s, m)
       case Queued(m) => Sound(cfg, s, m)
       case Waiting(key, hash) => TxFor(s, hash, PathOf(cfg.h, key))
       case Sweeping(index) => index in s.rows && s.rows[index].smtTxPath in s.starcoin.log
       case Listed(m) => Sound(cfg, s, m) && !Settled(m.status)
       case Matching(m, r) => Sound(cfg, s, m) && !Settled(m.status) && PastRoot(cfg, s, r)
       case Removing(m) => RemovalOk(cfg, s, m)
       case Removable(m) => RemovalOk(cfg, s, m) && m.root == s.starcoin.root
       case Inserting(row, origin) => InsertingOk(cfg, s, row, origin)
       case PushedBack(id) => BackInQueue(s, id)
  }

  ghost predicate ThreadsOk(cfg: Config, s: State) {
    forall t :: t in s.threads ==> ThreadOk(cfg, s, s.threads[t])
  }

  /** One removal at a time, and nothing on its way to execute the row once its root has matched. */
  ghost predicate RemovalsOk(s: State) {
    && OneRemoval(s)
    && (forall t :: t in s.threads && s.threads[t].Removable? ==>
       Quiescent(s, s.threads[t].m.key, s.threads[t].m.smtTxPath))
  }

  /** A put of a path that is not queued goes behind every row a submission of which counts that path. */
  ghost predicate PutsOk(s: State) {
    forall t: nat, i: nat :: t in s.threads && s.threads[t].Inserting? && Counted(s, s.threads[t].row.smtTxPath, i) ==>
      s.threads[t].row.smtTxPath in PathSet(s.rows) || i < s.threads[t].row.txIndex
  }

  /** The part of the invariant that is about the tables and Starcoin. */
  ghost predicate TablesOk(cfg: Config, s: State) {
    && RowsOk(cfg, s) && RootsOk(s) && NodesOk(cfg, s) && RemovedOk(cfg, s)
    && ChainOk(cfg, s) && TxsOk(cfg, s) && ProcessedOk(s)
  }

  ghost predicate Inv(cfg: Config, s: State) {
    TablesOk(cfg, s) && ThreadsOk(cfg, s) && RemovalsOk(s) && PutsOk(s)
  }

  lemma HeldOk(cfg: Config, s: State, t: nat)
    requires Inv(cfg, s) && t in s.threads
    ensures ThreadOk(cfg, s, s.threads[t]) && TablesOk(cfg, s)
  {
    hide ThreadOk, TablesOk, RemovalsOk, PutsOk;
  }

  lemma HeldTablesOk(cfg: Config, s: State)
    requires Inv(cfg, s)
    ensures TablesOk(cfg, s)
  {
    hide TablesOk, ThreadsOk, RemovalsOk, PutsOk;
  }

  // ---------- growth ----------

  /** A later version of a row, which keeps its root. */
  ghost predicate RowGrows(r: PolyTx, r': PolyTx, clock: nat) {
    RowAges(r, r', clock) && r'.smtTxPath == r.smtTxPath && (r.root != [] ==> r'.root == r.root)
  }

  ghost predicate RowsGrow(s: State, s': State) {
    && s'.rows.Keys == s.rows.Keys
    && (forall i :: i in s.rows ==> RowGrows(s.rows[i], s'.rows[i], s.clock))
  }

  ghost predicate NodesGrow(s: State, s': State) {
    forall r :: r in s.nodes ==> r in s'.nodes && s'.nodes[r] == s.nodes[r]
  }

  ghost predicate ChainGrows(s: State, s': State) {
    && s.starcoin.log <= s'.starcoin.log
    && (forall x :: x in s.starcoin.txs ==> x in s'.starcoin.txs && s'.starcoin.txs[x].path == s.starcoin.txs[x].path)
  }

  /** Everything a step other than an insertion or a removal may change. */
  ghost predicate Grows(s: State, s': State) {
    && RowsGrow(s, s') && NodesGrow(s, s') && ChainGrows(s, s') && s.clock <= s'.clock
    && s.nextRemovedId <= s'.nextRemovedId
    && (forall id :: id in s'.removed ==> id in s.removed && s'.removed[id].key == s.removed[id].key)
    && (s'.starcoin.root == s.starcoin.root || forall t :: t in s.threads ==> !s.threads[t].Removable?)
  }

  lemma BeforeKept(s: State, s': State, i: nat)
    requires RowsGrow(s, s')
    ensures Before(s'.rows, i) == Before(s.rows, i)
  {
    forall p | p in Before(s.rows, i) ensures p in Before(s'.rows, i) {
      var j :| j in s.rows && j < i && s.rows[j].smtTxPath == p;
      assert j in s'.rows;
    }
    forall p | p in Before(s'.rows, i) ensures p in Before(s.rows, i) {
      var j :| j in s'.rows && j < i && s'.rows[j].smtTxPath == p;
      assert j in s.rows;
    }
  }

  lemma PathsKept(s: State, s': State)
    requires RowsGrow(s, s')
    ensures PathSet(s'.rows) == PathSet(s.rows) && Keys(s.rows) <= Keys(s'.rows)
  {
    forall p | p in PathSet(s.rows) ensures p in PathSet(s'.rows) {
      var j :| j in s.rows && s.rows[j].smtTxPath == p;
      assert j in s'.rows && s'.rows[j].smtTxPath == p;
    }
    forall p | p in PathSet(s'.rows) ensures p in PathSet(s.rows) {
      var j :| j in s'.rows && s'.rows[j].smtTxPath == p;
      assert j in s.rows && s.rows[j].smtTxPath == p;
    }
    forall k | k in Keys(s.rows) ensures k in Keys(s'.rows) {
      var j :| j in s.rows && s.rows[j].key == k;
      assert j in s'.rows && s'.rows[j].key == k;
    }
  }

  lemma SoundKept(cfg: Config, s: State, s': State, m: PolyTx)
    requires NodesGrow(s, s') && ChainGrows(s, s') && Sound(cfg, s, m)
    ensures Sound(cfg, s', m)
  {
  }

  lemma InPlaceKept(s: State, s': State, i: nat, root: Bytes)
    requires RowsGrow(s, s') && NodesGrow(s, s') && root in s.nodes && InPlace(s, i, root)
    ensures InPlace(s', i, root)
  {
    BeforeKept(s, s', i);
  }

  /** What a goroutine may submit it could submit before the step, and it is still in place. */
  lemma HeldKept(cfg: Config, s: State, s': State, thr: Thread)
    requires RowsGrow(s, s') && NodesGrow(s, s') && ThreadOk(cfg, s, thr) && Held(s', thr).Some?
    ensures Held(s, thr) == Held(s', thr) && Placed(s', Held(s', thr).value)
    ensures Held(s', thr).value.root in s.nodes
  {
    var m := Held(s', thr).value;
    StillFresh(cfg, s, s', thr);
    hide ProvesAbsent, AbsenceProof, InPlace;
    assert Held(s, thr) == Some(m) && Placed(s, m) && m.root in s.nodes;
    InPlaceKept(s, s', m.txIndex, m.root);
  }

  lemma StillFresh(cfg: Config, s: State, s': State, thr: Thread)
    requires RowsGrow(s, s') && ThreadOk(cfg, s, thr)
    ensures thr.Writing? && Fresh(s', thr.px) ==> Fresh(s, thr.px)
  {
    hide Sound, Placed;
    if thr.Writing? && Fresh(s', thr.px) {
      var i :| i in s'.rows && s'.rows[i].key == thr.px.key && s'.rows[i].updatedAt == thr.px.updatedAt;
      assert RowGrows(s.rows[i], s'.rows[i], s.clock);
    }
  }

  lemma PastRootKept(cfg: Config, s: State, s': State, r: Bytes)
    requires ChainGrows(s, s') && PastRoot(cfg, s, r)
    ensures PastRoot(cfg, s', r)
  {
    var n :| 0 <= n <= |s.starcoin.log|
      && AllPaths(cfg.h, Elements(s.starcoin.log[..n])) && r == SetRoot(cfg.h, Elements(s.starcoin.log[..n]));
    assert s'.starcoin.log[..n] == s.starcoin.log[..n];
  }

  lemma OpKept(cfg: Config, s: State, s': State, op: Op)
    requires NodesGrow(s, s') && ChainGrows(s, s') && OpOk(cfg, s, op)
    ensures OpOk(cfg, s', op)
  {
    if op.Claim? {
      SoundKept(cfg, s, s', op.m);
    }
  }

  lemma ReadKept(cfg: Config, s: State, s': State, op: Op, px: PolyTx)
    requires RowsGrow(s, s') && s.clock <= s'.clock && ReadOk(cfg, s, op, px)
    ensures ReadOk(cfg, s', op, px)
  {
    forall i | i in s'.rows && s'.rows[i].key == px.key && s'.rows[i].updatedAt == px.updatedAt
      ensures s'.rows[i].starcoinTxHash == px.starcoinTxHash && s'.rows[i].status in {px.status, ToBeRemoved}
    {
      assert i in s.rows;
    }
  }

  lemma InsertingKept(cfg: Config, s: State, s': State, row: PolyTx, origin: Option<nat>)
    requires NodesGrow(s, s') && ChainGrows(s, s') && s.nextRemovedId <= s'.nextRemovedId
    requires InsertingOk(cfg, s, row, origin)
    requires forall id :: id in s'.removed && id < s.nextRemovedId ==>
      id in s.removed && s'.removed[id].key == s.removed[id].key
    ensures InsertingOk(cfg, s', row, origin)
  {
    if Sound(cfg, s, row) {
      SoundKept(cfg, s, s', row);
    }
    hide Sound;
  }

  lemma RemovalKept(cfg: Config, s: State, s': State, m: PolyTx)
    requires RowsGrow(s, s') && NodesGrow(s, s') && ChainGrows(s, s') && RemovalOk(cfg, s, m)
    ensures RemovalOk(cfg, s', m)
  {
    SoundKept(cfg, s, s', m);
    hide Sound;
  }

  /** What a goroutine relies on is not disturbed by the steps of others. */
  lemma ThreadKept(cfg: Config, s: State, s': State, thr: Thread)
    requires Grows(s, s') && ThreadOk(cfg, s, thr)
    requires thr.Removable? ==> s'.starcoin.root == s.starcoin.root
    ensures ThreadOk(cfg, s', thr)
  {
    hide Sound, Placed, OpOk, ReadOk, RemovalOk, InsertingOk, TxFor, BackInQueue, PastRoot;
    hide RowsGrow, NodesGrow, ChainGrows;
    if Held(s', thr).Some? {
      HeldKept(cfg, s, s', thr);
    }
    match thr
    case Reading(op) => OpKept(cfg, s, s', op);
    case Writing(op, px) => OpKept(cfg, s, s', op); ReadKept(cfg, s, s', op, px);
    case Checking(m, resend) => SoundKept(cfg, s, s', m);
    case Deriving(m) => SoundKept(cfg, s, s', m);
    case Refetching(m) => SoundKept(cfg, s, s', m);
    case Queued(m) => SoundKept(cfg, s, s', m);
    case Waiting(key, hash) => LaterKept(cfg, s, s', thr);
    case Sweeping(index) => LaterKept(cfg, s, s', thr);
    case Listed(m) => SoundKept(cfg, s, s', m);
    case Matching(m, r) => SoundKept(cfg, s, s', m); PastRootKept(cfg, s, s', r);
    case Removing(m) => RemovalKept(cfg, s, s', m);
    case Removable(m) => RemovalKept(cfg, s, s', m);
    case Inserting(row, origin) => InsertingKept(cfg, s, s', row, origin);
    case PushedBack(id) => LaterKept(cfg, s, s', thr);
  }

  /** The same for a goroutine whose row has been submitted, executed or put back. */
  lemma LaterKept(cfg: Config, s: State, s': State, thr: Thread)
    requires Grows(s, s') && ThreadOk(cfg, s, thr) && (thr.Waiting? || thr.Sweeping? || thr.PushedBack?)
    ensures ThreadOk(cfg, s', thr)
  {
    hide Placed, NodesGrow;
    PathsKept(s, s');
  }

  // ---------- goroutines over a step ----------

  /**
   The step changes only goroutine `t`, and the row it holds afterwards is either the one it held or
   one no removal is about to take.
   */
  ghost predicate OnlyThread(s: State, s': State, t: nat) {
    && (forall u :: u in s'.threads && u != t ==> u in s.threads && s'.threads[u] == s.threads[u])
    && (t in s'.threads ==>
          || Holds(s'.threads[t]) == None
          || (t in s.threads && Holds(s'.threads[t]) == Holds(s.threads[t]))
          || (forall u :: u in s.threads && s.threads[u].Removable? ==>
             Holds(s'.threads[t]) != Some(s.threads[u].m.key)))
  }

  lemma ThreadsKept(cfg: Config, s: State, s': State, t: nat)
    requires ThreadsOk(cfg, s) && Grows(s, s') && OnlyThread(s, s', t)
    requires t in s'.threads ==> ThreadOk(cfg, s', s'.threads[t])
    ensures ThreadsOk(cfg, s')
  {
    forall u | u in s'.threads ensures ThreadOk(cfg, s', s'.threads[u]) {
      if u != t {
        ThreadKept(cfg, s, s', s.threads[u]);
      }
    }
  }

  /** Pending transactions were pending before. */
  ghost predicate NoNewPending(s: State, s': State) {
    forall x :: TxIs(s', x, Pending) ==> TxIs(s, x, Pending) && s'.starcoin.txs[x] == s.starcoin.txs[x]
  }

  lemma RemovalsKept(s: State, s': State, t: nat)
    requires RemovalsOk(s) && OnlyThread(s, s', t) && NoNewPending(s, s')
    requires t in s'.threads ==> !IsRemoval(s'.threads[t])
    ensures RemovalsOk(s')
  {
    forall u | u in s'.threads && s'.threads[u].Removable?
      ensures Quiescent(s', s'.threads[u].m.key, s'.threads[u].m.smtTxPath)
    {
      assert u in s.threads && s.threads[u] == s'.threads[u];
      var m := s.threads[u].m;
      forall v | v in s'.threads ensures Holds(s'.threads[v]) != Some(m.key) {
        assert v != t ==> s'.threads[v] == s.threads[v];
      }
    }
  }

  // ---------- open puts over a step ----------

  /** Of a path not queued, submissions count nothing they did not count before. */
  ghost predicate CountsNoMore(s: State, s': State) {
    forall path, i: nat :: Counted(s', path, i) ==> Counted(s, path, i) || path in PathSet(s'.rows)
  }

  /** Puts open after the step were open before, their path being queued if it was, or go behind all rows. */
  ghost predicate PutsAsBefore(s: State, s': State) {
    forall t :: t in s'.threads && s'.threads[t].Inserting? ==>
      var row := s'.threads[t].row;
      || (t in s.threads && s.threads[t] == s'.threads[t]
         && (row.smtTxPath in PathSet(s.rows) ==> row.smtTxPath in PathSet(s'.rows)))
      || (forall i: nat :: Counted(s', row.smtTxPath, i) ==> i < row.txIndex)
  }

  lemma PutsStay(s: State, s': State)
    requires PutsOk(s) && CountsNoMore(s, s') && PutsAsBefore(s, s')
    ensures PutsOk(s')
  {
    hide Counted;
  }

  /** What goroutine `t` may submit after the step it could before, or it counts only queued paths. */
  ghost predicate HoldsNoMore(s: State, s': State, t: nat) {
    t in s'.threads && Held(s', s'.threads[t]).Some? ==>
      || (t in s.threads && Held(s, s.threads[t]) == Held(s', s'.threads[t]))
      || (var root := Held(s', s'.threads[t]).value.root; root in s'.nodes && s'.nodes[root] <= PathSet(s'.rows))
  }

  lemma HeldCountsNoMore(cfg: Config, s: State, s': State, t: nat, path: Bytes, i: nat, u: nat)
    requires ThreadsOk(cfg, s) && RowsGrow(s, s') && NodesGrow(s, s') && OnlyThread(s, s', t) && HoldsNoMore(s, s', t)
    requires u in s'.threads && HeldCounts(s', s'.threads[u], path, i)
    ensures Counted(s, path, i) || path in PathSet(s'.rows)
  {
    hide Placed, PathSet;
    if u != t {
      assert ThreadOk(cfg, s, s.threads[u]);
      HeldKept(cfg, s, s', s.threads[u]);
      hide ThreadOk;
      assert HeldCounts(s, s.threads[u], path, i);
    } else if t in s.threads && Held(s, s.threads[t]) == Held(s', s'.threads[t]) {
      HeldRootKnown(cfg, s, t);
      hide ThreadOk;
      assert HeldCounts(s, s.threads[t], path, i);
    }
  }

  lemma HeldRootKnown(cfg: Config, s: State, t: nat)
    requires ThreadsOk(cfg, s) && t in s.threads && Held(s, s.threads[t]).Some?
    ensures Held(s, s.threads[t]).value.root in s.nodes
  {
    assert ThreadOk(cfg, s, s.threads[t]);
    hide Placed, ProvesAbsent, AbsenceProof;
  }

  lemma PendingCountsNoMore(cfg: Config, s: State, s': State, x: string, path: Bytes, i: nat)
    requires TxsOk(cfg, s) && RowsGrow(s, s') && NodesGrow(s, s') && NoNewPending(s, s')
    requires PendingCounts(s', x, path, i)
    ensures Counted(s, path, i)
  {
    assert PendingOk(cfg, s, s.starcoin.txs[x]);
    hide InPlace, AbsenceProof;
    assert PendingCounts(s, x, path, i);
  }

  lemma PutsKept(cfg: Config, s: State, s': State, t: nat)
    requires Inv(cfg, s) && RowsGrow(s, s') && NodesGrow(s, s') && NoNewPending(s, s')
    requires OnlyThread(s, s', t) && HoldsNoMore(s, s', t)
    requires t in s'.threads && s'.threads[t].Inserting? ==> t in s.threads && s.threads[t] == s'.threads[t]
    ensures PutsOk(s')
  {
    forall path, i | Counted(s', path, i) ensures Counted(s, path, i) || path in PathSet(s'.rows) {
      CountedNoMore(cfg, s, s', t, path, i);
    }
    PathsKept(s, s');
    hide Counted, TablesOk, ThreadsOk, RemovalsOk, HoldsNoMore, Held, Holds;
    PutsStay(s, s');
  }

  lemma CountedNoMore(cfg: Config, s: State, s': State, t: nat, path: Bytes, i: nat)
    requires Inv(cfg, s) && RowsGrow(s, s') && NodesGrow(s, s') && NoNewPending(s, s')
    requires OnlyThread(s, s', t) && HoldsNoMore(s, s', t) && Counted(s', path, i)
    ensures Counted(s, path, i) || path in PathSet(s'.rows)
  {
    hide ThreadsOk, HeldCounts, PendingCounts, HoldsNoMore, OnlyThread, NoNewPending, RowsGrow, NodesGrow;
    hide RowsOk, RootsOk, NodesOk;
    hide RemovedOk, ChainOk, TxsOk, ProcessedOk, RemovalsOk, PutsOk, Held;
    if u: nat :| u in s'.threads && HeldCounts(s', s'.threads[u], path, i) {
      HeldCountsNoMore(cfg, s, s', t, path, i, u);
    } else {
      var x :| PendingCounts(s', x, path, i);
      PendingCountsNoMore(cfg, s, s', x, path, i);
    }
  }

  /** The other goroutines are undisturbed by a step of `t` that inserts, removes and submits nothing. */
  lemma OthersKept(cfg: Config, s: State, s': State, t: nat)
    requires Inv(cfg, s) && TablesOk(cfg, s') && Grows(s, s') && NoNewPending(s, s') && OnlyThread(s, s', t)
    requires HoldsNoMore(s, s', t)
    requires t in s'.threads ==> ThreadOk(cfg, s', s'.threads[t]) && !IsRemoval(s'.threads[t])
    requires t in s'.threads && s'.threads[t].Inserting? ==> t in s.threads && s.threads[t] == s'.threads[t]
    ensures Inv(cfg, s')
  {
    hide TablesOk, ThreadOk, HoldsNoMore;
    ThreadsKept(cfg, s, s', t);
    RemovalsKept(s, s', t);
    PutsKept(cfg, s, s', t);
  }

  /** No goroutine moves. */
  lemma ThreadsUndisturbed(cfg: Config, s: State, s': State)
    requires Inv(cfg, s) && TablesOk(cfg, s')
    requires s'.threads == s.threads && Grows(s, s') && NoNewPending(s, s')
    ensures Inv(cfg, s')
  {
    hide TablesOk, ThreadOk;
    var t := UnusedThread(s.threads.Keys);
    forall u | u in s.threads ensures ThreadOk(cfg, s', s.threads[u]) {
      assert u in s.threads && ThreadOk(cfg, s, s.threads[u]);
      ThreadKept(cfg, s, s', s.threads[u]);
    }
    RemovalsKept(s, s', t);
    PutsKept(cfg, s, s', t);
  }

  lemma UnusedThread(used: set<nat>) returns (t: nat)
    ensures t !in used && forall u :: u in used ==> u < t
  {
    t := 0;
    var rest := used;
    while rest != {}
      invariant rest <= used && forall u :: u in used && u !in rest ==> u < t
      decreases |rest|
    {
      var u :| u in rest;
      if u >= t {
        t := u + 1;
      }
      rest := rest - {u};
    }
  }
}
