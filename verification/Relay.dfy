/**
 The run of the Poly-to-Starcoin relay (manager/polymanager.go): goroutines that each read a row and
 later write it back under a condition, interleaved freely, next to the Starcoin chain, the operator
 who marks rows, and the clock. Every write gets a stamp of its own.
 */
module Relay {
  import opened Bytes
  import opened Wrappers
  import opened SparseMerkle
  import opened SmtUpdate
  import opened PathSets
  import opened PolyTxs
  import opened PolyTxTable

  /** The digest, and a finite family of trees, each given by the paths in it, that holds those a run builds. */
  datatype Config = Config(h: Hasher, trees: set<set<Bytes>>) {
    ghost predicate Valid() {
      h.Valid() && {} in trees && CollisionFree(h, trees)
    }
  }

  // ---------- Starcoin ----------

  datatype TxState = Pending | Executed | Rejected

  /** A submitted transaction: a snapshot of path, root and proof. */
  datatype Submission = Submission(path: Bytes, root: Bytes, sideNodes: seq<Bytes>, leafData: Bytes, state: TxState)

  /** `log` lists the paths executed, in order; `root` is the root the contract keeps. */
  datatype Starcoin = Starcoin(root: Bytes, log: seq<Bytes>, txs: map<string, Submission>)

  // ---------- goroutines ----------

  /** Where a goroutine stands, with the row it holds in memory. */
  datatype Thread =
    | Reading(op: Op)                          // about to SELECT the row
    | Writing(op: Op, px: PolyTx)              // about to UPDATE it
    | Checking(m: PolyTx, resend: bool)        // asking Starcoin about the row's transaction
    | Deriving(m: PolyTx)                      // claimed, proof to be looked at
    | Refetching(m: PolyTx)                    // proof derived, row to be read again
    | Queued(m: PolyTx)                        // payload built, in the sender's channel
    | Waiting(key: Key, starcoinTxHash: string)
    | Sweeping(index: nat)
    | Listed(m: PolyTx)                        // picked for the on-chain root check
    | Matching(m: PolyTx, chainRoot: Bytes)
    | Removing(m: PolyTx)
    | Removable(m: PolyTx)                     // its root matched the on-chain root
    | Inserting(row: PolyTx, origin: Option<nat>)  // last row read, proof derived from it, about to INSERT
    | PushedBack(id: nat)                      // inserted again, removed row to be deleted

  /**
   The row, by key, that a goroutine may get executed although it is being removed: it holds the row
   with a root, or is about to read it again without looking at its status.
   */
  function Holds(thr: Thread): Option<Key> {
    match thr
    case Reading(op) => if op.Claim? && op.m.root != [] then Some(op.m.key) else None
    case Deriving(m) => Some(m.key)
    case Refetching(m) => Some(m.key)
    case Queued(m) => if m.root != [] then Some(m.key) else None
    case _ => None
  }

  predicate IsRemoval(thr: Thread) {
    thr.Removing? || thr.Removable?
  }

  datatype State = State(
    rows: Rows,
    removed: RemovedRows,
    nextRemovedId: nat,
    nodes: Nodes,
    starcoin: Starcoin,
    threads: map<nat, Thread>,
    clock: nat)

  function Init(h: Hasher): State {
    State(map[], map[], 0, map[h.Placeholder() := {}], Starcoin(h.Placeholder(), [], map[]), map[], 0)
  }

  // ---------- submissions that count a path ----------

  /** The row read is there as it was read. */
  ghost predicate Fresh(s: State, px: PolyTx) {
    exists i :: i in s.rows && s.rows[i].key == px.key && s.rows[i].updatedAt == px.updatedAt
  }

  /** What a goroutine may yet submit. */
  ghost function Held(s: State, thr: Thread): Option<PolyTx> {
    match thr
    case Reading(op) => if op.Claim? && op.m.root != [] then Some(op.m) else None
    case Writing(op, px) => if op.Claim? && op.m.root != [] && Fresh(s, px) then Some(op.m) else None
    case Deriving(m) => if m.root != [] then Some(m) else None
    case Queued(m) => if m.root != [] then Some(m) else None
    case _ => None
  }

  ghost predicate Counts(s: State, path: Bytes, root: Bytes) {
    root != [] && root in s.nodes && path in s.nodes[root]
  }

  ghost predicate HeldCounts(s: State, thr: Thread, path: Bytes, i: nat) {
    Held(s, thr).Some? && Held(s, thr).value.txIndex == i && Counts(s, path, Held(s, thr).value.root)
  }

  ghost predicate PendingCounts(s: State, x: string, path: Bytes, i: nat) {
    TxIs(s, x, Pending) && i in s.rows && s.rows[i].smtTxPath == s.starcoin.txs[x].path
      && Counts(s, path, s.starcoin.txs[x].root)
  }

  /** A submission of row `i`, held or pending, counts the path among those executed before. */
  ghost predicate Counted(s: State, path: Bytes, i: nat) {
    || (exists t :: t in s.threads && HeldCounts(s, s.threads[t], path, i))
    || (exists x :: PendingCounts(s, x, path, i))
  }

  /** Open puts of the path go behind every row a submission of which counts it. */
  ghost predicate PutsBehind(s: State, path: Bytes) {
    forall u: nat, i: nat ::
      u in s.threads && s.threads[u].Inserting? && s.threads[u].row.smtTxPath == path && Counted(s, path, i) ==>
      i < s.threads[u].row.txIndex
  }

  // ---------- steps ----------

  /** No goroutine is about to submit the row, and no submission of it with a root is pending. */
  ghost predicate Quiescent(s: State, key: Key, path: Bytes) {
    && (forall t :: t in s.threads ==> Holds(s.threads[t]) != Some(key))
    && (forall x :: TxIs(s, x, Pending) && s.starcoin.txs[x].root != [] ==> s.starcoin.txs[x].path != path)
  }

  /** `PutPolyTx` up to its INSERT: the last row is read and the proof derived from it. */
  ghost predicate Prepare(h: Hasher, s: State, s': State, n: nat, tx: PolyTx, origin: Option<nat>) {
    && n !in s.threads
    && |tx.smtTxPath| == h.size && AllPaths(h, Base(s.nodes, LastRow(s.rows)))
    && (NeedsDeriving(LastRow(s.rows)) || Importable(s.nodes, LastRow(s.rows)))
    && s' == s.(nodes := NodesAfterPut(h, s.rows, s.nodes),
                threads := s.threads[n := Inserting(NewRow(h, s.rows, s.nodes, tx), origin)])
  }

  ghost predicate Put(h: Hasher, s: State, s': State, n: nat, key: Key, payload: string) {
    var tx := NewPolyTx(h, key, payload);
    Prepare(h, s, s', n, tx, None)
  }

  /** The INSERT; here the row still fits the place it was prepared for. */
  predicate Insert(h: Hasher, s: State, s': State, t: nat) {
    InsertAnyhow(s, s', t) && Fits(h, s.rows, s.threads[t].row)
  }

  /**
   The INSERT as the code performs it, refused when the index, the key or the path is taken. The
   sender that put a row goes on to send it.
   */
  predicate InsertAnyhow(s: State, s': State, t: nat) {
    && t in s.threads && s.threads[t].Inserting?
    && var Inserting(row, origin) := s.threads[t];
      && row.txIndex !in s.rows && !Duplicate(s.rows, row)
      && var placed := row.(updatedAt := s.clock + 1);
        s' == s.(rows := s.rows[row.txIndex := placed], clock := s.clock + 1,
                 threads := s.threads[t := AfterInsert(placed, origin)])
  }

  function AfterInsert(row: PolyTx, origin: Option<nat>): Thread {
    if origin.Some? then PushedBack(origin.value) else Reading(Claim(row))
  }

  /** A monitor picks row `i`. One goroutine runs the removals, one at a time. */
  ghost predicate Picked(s: State, i: nat, thr: Thread) {
    && i in s.rows
    && var row := s.rows[i];
       || (FailedLongAgo(row, s.clock) && thr == FailedThread(row))
       || (TimedOutLongAgo(row, s.clock) && thr == Checking(row, false))
       || (RecentlyStuck(s.rows, i) && thr == Listed(row))
       || (row.status == ToBeRemoved && thr == Removing(row) && forall t :: t in s.threads ==> !IsRemoval(s.threads[t]))
  }

  /** `handleFailedPolyTx`: what is being processed with a hash may just have timed out. */
  function FailedThread(row: PolyTx): Thread {
    if row.status == Processing && row.starcoinTxHash != "" then Checking(row, true) else Reading(Claim(row))
  }

  ghost predicate Spawn(s: State, s': State, n: nat, thr: Thread) {
    && n !in s.threads
    && s' == s.(threads := s.threads[n := thr])
    && exists i :: Picked(s, i, thr)
  }

  /** What a goroutine may do next on its own, having looked at the table, Starcoin or the clock. */
  ghost predicate Moves(h: Hasher, s: State, from: Thread, to: Thread) {
    match from
    case Reading(op) =>
      exists i :: i in s.rows && s.rows[i].key == op.KeyOf() && op.Allowed(s.rows[i], s.clock)
        && to == Writing(op, s.rows[i])
    case Writing(_, _) => false
    case Checking(m, resend) => AfterCheck(s, m, resend, to)
    case Deriving(m) => m.root != [] && to == Queued(m)
    case Refetching(m) => exists i :: i in s.rows && s.rows[i].key == m.key && to == Queued(s.rows[i])
    case Queued(_) => false
    case Waiting(key, hash) =>
      || (TxIs(s, hash, Executed) && to == Reading(MarkProcessed(key, Processing, hash)))
      || (TxIs(s, hash, Rejected) && to == Reading(MarkStatus(key, Processing, Failed)))
      || to == Reading(MarkStatus(key, Processing, TimedOut))
    case Sweeping(_) => false
    case Listed(m) => to == Matching(m, s.starcoin.root)
    case Matching(m, chainRoot) => IncludedAt(h, s, m, chainRoot)
      && to == Reading(MarkProcessed(m.key, m.status, m.starcoinTxHash))
    case Removing(m) => m.root == s.starcoin.root && Quiescent(s, m.key, m.smtTxPath) && to == Removable(m)
    case Removable(_) => false
    case Inserting(_, _) => false
    case PushedBack(_) => false
  }

  predicate TxIs(s: State, hash: string, state: TxState) {
    hash in s.starcoin.txs && s.starcoin.txs[hash].state == state
  }

  /** `handleTimedOutPolyTx`, and going on to send again when `handleFailedPolyTx` called it in vain. */
  predicate AfterCheck(s: State, m: PolyTx, resend: bool, to: Thread) {
    if m.starcoinTxHash == "" then to == Reading(MarkStatus(m.key, m.status, UnknownError))
    else
      || (TxIs(s, m.starcoinTxHash, Executed) && to == Reading(MarkProcessed(m.key, m.status, m.starcoinTxHash)))
      || (TxIs(s, m.starcoinTxHash, Rejected) && to == Reading(MarkStatus(m.key, m.status, Failed)))
      // the node knows nothing of the transaction
      || (m.updatedAt + MAX_PROCESSING_MILLIS < s.clock && to == Reading(MarkStatus(m.key, m.status, Failed)))
      || (m.updatedAt + MAX_PROCESSING_MILLIS >= s.clock && resend && to == Reading(Claim(m)))
  }

  /** `setPolyTxProcessedIfOnChainSmtRootMatched`, the number of confirmations left open. */
  predicate IncludedAt(h: Hasher, s: State, m: PolyTx, chainRoot: Bytes) {
    && m.starcoinTxHash != "" && m.starcoinTxHash in s.starcoin.txs
    && s.starcoin.txs[m.starcoinTxHash].state != Pending
    && InclusionRootOf(h, m) == Some(chainRoot)
  }

  /** A goroutine moves on without writing. */
  ghost predicate Move(h: Hasher, s: State, s': State, t: nat, thr: Thread) {
    && t in s.threads && Moves(h, s, s.threads[t], thr)
    && s' == s.(threads := s.threads[t := thr])
  }

  /** A goroutine ends: its work is done, an error made it return, or the process stopped. */
  predicate Finish(s: State, s': State, t: nat) {
    && t in s.threads
    && s' == s.(threads := s.threads - {t})
  }

  /** The conditional UPDATE; marking a row processed starts a sweep whether or not it took effect. */
  predicate Write(s: State, s': State, t: nat) {
    && t in s.threads && s.threads[t].Writing?
    && var Writing(op, px) := s.threads[t];
      var now := s.clock + 1;
      var applied := Affects(s.rows, px, op.Expected());
      s' == s.(rows := OptimisticUpdate(s.rows, px, op.Expected(), op.Update(), now),
               clock := now,
               threads := AfterWrite(s.threads, t, op, px, applied))
  }

  function AfterWrite(threads: map<nat, Thread>, t: nat, op: Op, px: PolyTx, applied: bool): map<nat, Thread> {
    if op.MarkProcessed? then threads[t := Sweeping(px.txIndex)]
    else if op.Claim? && applied then threads[t := Deriving(op.m)]
    else if op.RecordHash? && applied then threads[t := Waiting(op.key, op.starcoinTxHash)]
    else threads - {t}
  }

  /**
   `UpdatePolyTxNonMembershipProofByIndex`, its read and its save of the whole row taken as one step.
   The tree of the previous row can be imported, which a row without a root rules out.
   */
  predicate Derive(h: Hasher, s: State, s': State, t: nat) {
    && t in s.threads && s.threads[t].Deriving? && s.threads[t].m.root == []
    && var m := s.threads[t].m;
      var pre := Previous(s.rows, m.txIndex);
      && m.txIndex in s.rows
      && Importable(s.nodes, pre) && AllPaths(h, Base(s.nodes, pre)) && |s.rows[m.txIndex].smtTxPath| == h.size
      && var derived := WithProof(h, s.nodes, s.rows[m.txIndex], pre);
        s' == s.(rows := s.rows[m.txIndex := derived.(updatedAt := s.clock + 1)],
                 nodes := WithVersion(h, s.nodes, pre),
                 clock := s.clock + 1,
                 threads := s.threads[t := Refetching(m)])
  }

  function Received(starcoin: Starcoin, hash: string, m: PolyTx): Starcoin
    requires m.sideNodes.Some?
  {
    starcoin.(txs := starcoin.txs[hash := Submission(m.smtTxPath, m.root, m.sideNodes.value, m.leafData, Pending)])
  }

  /** `sendTxToStarcoin` up to the submission; the payload carries the root and proof held in memory. */
  predicate Submit(s: State, s': State, t: nat, hash: string) {
    && t in s.threads && s.threads[t].Queued? && s.threads[t].m.sideNodes.Some?
    && hash != "" && hash !in s.starcoin.txs
    && var m := s.threads[t].m;
      s' == s.(starcoin := Received(s.starcoin, hash, m),
               threads := s.threads[t := Reading(RecordHash(m.key, hash))])
  }

  /** `updatePolyTransactionsToProcessedBeforeIndex`, its reads and saves taken as one step. */
  predicate Sweep(s: State, s': State, t: nat, targets: set<nat>) {
    && t in s.threads && s.threads[t].Sweeping?
    && |targets| <= SWEEP_LIMIT && (forall i :: i in targets ==> Sweepable(s.rows, s.threads[t].index, i))
    && s' == s.(rows := Swept(s.rows, targets, s.clock + 1), clock := s.clock + 1, threads := s.threads - {t})
  }

  /** The removal; here open puts of the same transaction go behind every row a submission of which counts it. */
  ghost predicate Remove(s: State, s': State, t: nat) {
    TakeOut(s, s', t) && PutsBehind(s, s.threads[t].m.smtTxPath)
  }

  /** `RemovePolyTx`, one transaction of the database. */
  predicate TakeOut(s: State, s': State, t: nat) {
    && t in s.threads && s.threads[t].Removable?
    && var m := s.threads[t].m;
      && m.status == ToBeRemoved
      && (forall id :: id in s.removed ==> s.removed[id].key != m.key && s.removed[id].smtTxPath != m.smtTxPath)
      && s' == s.(rows := Removed(s.rows, m.txIndex),
                  removed := s.removed[s.nextRemovedId := ToRemovedPolyTx(m, s.nextRemovedId)],
                  nextRemovedId := s.nextRemovedId + 1,
                  threads := s.threads - {t})
  }

  /** `PushBackRemovePolyTx` up to the insertion, which is not part of its transaction. */
  ghost predicate PushBack(h: Hasher, s: State, s': State, n: nat, id: nat) {
    && id in s.removed && s.removed[id].status == ToBePushedBack
    && Prepare(h, s, s', n, ToPolyTx(s.removed[id]), Some(id))
  }

  predicate DeleteRemoved(s: State, s': State, t: nat) {
    && t in s.threads && s.threads[t].PushedBack?
    && s' == s.(removed := s.removed - {s.threads[t].id}, threads := s.threads - {t})
  }

  /** The operator marks a row for removal, or a removed one for coming back. */
  predicate MarkForRemoval(s: State, s': State, i: nat) {
    i in s.rows && s' == s.(rows := s.rows[i := s.rows[i].(status := ToBeRemoved)])
  }

  predicate MarkForReturn(s: State, s': State, id: nat) {
    id in s.removed && s' == s.(removed := s.removed[id := s.removed[id].(status := ToBePushedBack)])
  }

  /** Starcoin executes a transaction whose root is its own, and computes its next root from the proof. */
  predicate Execute(h: Hasher, s: State, s': State, hash: string) {
    && TxIs(s, hash, Pending)
    && var tx := s.starcoin.txs[hash];
      && tx.root == s.starcoin.root && |tx.path| == h.size && Readable(h, tx.leafData)
      && s' == s.(starcoin := Starcoin(UpdatedRoot(h, tx.path, EXISTS_VALUE, Present(tx.sideNodes), tx.leafData),
                                       s.starcoin.log + [tx.path],
                                       s.starcoin.txs[hash := tx.(state := Executed)]))
  }

  predicate Reject(s: State, s': State, hash: string) {
    && TxIs(s, hash, Pending)
    && s' == s.(starcoin := s.starcoin.(txs := s.starcoin.txs[hash := s.starcoin.txs[hash].(state := Rejected)]))
  }

  predicate Tick(s: State, s': State, millis: nat) {
    s' == s.(clock := s.clock + millis)
  }

  // ---------- runs ----------

  datatype Action =
    | APut(n: nat, key: Key, payload: string)
    | AInsert(t: nat)
    | ASpawn(n: nat, thr: Thread)
    | AMove(t: nat, thr: Thread)
    | AFinish(t: nat)
    | AWrite(t: nat)
    | ADerive(t: nat)
    | ASubmit(t: nat, hash: string)
    | ASweep(t: nat, targets: set<nat>)
    | ARemove(t: nat)
    | APushBack(n: nat, id: nat)
    | ADeleteRemoved(t: nat)
    | AMarkForRemoval(i: nat)
    | AMarkForReturn(id: nat)
    | AExecute(hash: string)
    | AReject(hash: string)
    | ATick(millis: nat)

  ghost predicate Step(h: Hasher, s: State, a: Action, s': State) {
    match a
    case APut(n, key, payload) => Put(h, s, s', n, key, payload)
    case AInsert(t) => Insert(h, s, s', t)
    case ASpawn(n, thr) => Spawn(s, s', n, thr)
    case AMove(t, thr) => Move(h, s, s', t, thr)
    case AFinish(t) => Finish(s, s', t)
    case AWrite(t) => Write(s, s', t)
    case ADerive(t) => Derive(h, s, s', t)
    case ASubmit(t, hash) => Submit(s, s', t, hash)
    case ASweep(t, targets) => Sweep(s, s', t, targets)
    case ARemove(t) => Remove(s, s', t)
    case APushBack(n, id) => PushBack(h, s, s', n, id)
    case ADeleteRemoved(t) => DeleteRemoved(s, s', t)
    case AMarkForRemoval(i) => MarkForRemoval(s, s', i)
    case AMarkForReturn(id) => MarkForReturn(s, s', id)
    case AExecute(hash) => Execute(h, s, s', hash)
    case AReject(hash) => Reject(s, s', hash)
    case ATick(millis) => Tick(s, s', millis)
  }

  /** The tree a proof is derived from, and the same tree with the row's own path in it. */
  ghost function TreesFor(nodes: Nodes, pre: Option<PolyTx>, path: Bytes): set<set<Bytes>> {
    {Base(nodes, pre), Base(nodes, pre) + {path}}
  }

  /** The trees that putting a row with this path builds. */
  ghost function TreesOfPut(s: State, path: Bytes): set<set<Bytes>> {
    if NeedsDeriving(LastRow(s.rows)) then {} else TreesFor(s.nodes, LastRow(s.rows), path)
  }

  /** The trees a step builds: only deriving a proof does. */
  ghost function Built(h: Hasher, s: State, a: Action): set<set<Bytes>> {
    match a
    case APut(_, key, _) => TreesOfPut(s, PathOf(h, key))
    case APushBack(_, id) => if id in s.removed then TreesOfPut(s, s.removed[id].smtTxPath) else {}
    case ADerive(t) =>
      if t in s.threads && s.threads[t].Deriving? && s.threads[t].m.txIndex in s.rows then
        var i := s.threads[t].m.txIndex;
        TreesFor(s.nodes, Previous(s.rows, i), s.rows[i].smtTxPath)
      else {}
    case _ => {}
  }

  /** A step whose trees belong to the family. */
  ghost predicate Next(cfg: Config, s: State, a: Action, s': State) {
    Step(cfg.h, s, a, s') && Built(cfg.h, s, a) <= cfg.trees
  }

  /** States one after the other and the steps between them. */
  ghost predicate Steps(cfg: Config, states: seq<State>, actions: seq<Action>) {
    && |states| == |actions| + 1
    && forall k :: 0 <= k < |actions| ==> Next(cfg, states[k], actions[k], states[k + 1])
  }

  /** Steps from the empty tables on. */
  ghost predicate Run(cfg: Config, states: seq<State>, actions: seq<Action>) {
    Steps(cfg, states, actions) && states[0] == Init(cfg.h)
  }

  /** Some steps lead from the one state to the other. */
  ghost predicate Reaches(cfg: Config, s: State, s': State) {
    exists states, actions :: Steps(cfg, states, actions) && states[0] == s && states[|actions|] == s'
  }

  // ---------- runs of any kind ----------

  /** A run, whatever trees it builds. */
  ghost predicate AnyRun(h: Hasher, states: seq<State>, actions: seq<Action>) {
    && |states| == |actions| + 1 && states[0] == Init(h)
    && forall k :: 0 <= k < |actions| ==> Step(h, states[k], actions[k], states[k + 1])
  }

  /** The trees a run builds, the empty one among them. */
  ghost function TreesOf(h: Hasher, states: seq<State>, actions: seq<Action>): set<set<Bytes>>
    requires |states| == |actions| + 1
  {
    if actions == [] then {{}}
    else
      var n := |actions| - 1;
      TreesOf(h, states[..n + 1], actions[..n]) + Built(h, states[n], actions[n])
  }
}
