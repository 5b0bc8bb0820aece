/** The relay does relay: any sequence of transactions can be put, claimed, submitted and executed in turn. */
module RelayProgress {
  import opened Bytes
  import opened Wrappers
  import opened SparseMerkle
  import opened PathSets
  import opened PolyTxs
  import opened PolyTxTable
  import opened Relay
  import opened RelayInvariant
  import opened RelayLocalSteps
  import opened RelayTheorems
  import opened RelayRuns

  // ---------- updates made without disturbance ----------

  /** The tables after goroutine `t` has made its update of row `i`. */
  function Updated(s: State, t: nat, op: Op, i: nat): State
    requires i in s.rows
  {
    s.(rows := s.rows[i := Patch(s.rows[i], op.Update(), s.rows[i].retryCount + 1, s.clock + 1)],
       clock := s.clock + 1, threads := AfterWrite(s.threads, t, op, s.rows[i], true))
  }

  /** A goroutine reads the row and writes it back, nobody else writing it in between. */
  lemma UpdateRow(cfg: Config, s: State, t: nat, op: Op, i: nat)
    requires cfg.Valid() && Inv(cfg, s) && t in s.threads && s.threads[t] == Reading(op) && i in s.rows
    requires s.rows[i].key == op.KeyOf() && s.rows[i].status == op.Expected() && op.Allowed(s.rows[i], s.clock)
    ensures Inv(cfg, Updated(s, t, op, i)) && Reaches(cfg, s, Updated(s, t, op, i))
  {
    hide Inv, Reaches, OptimisticUpdate, Claimable;
    var px := s.rows[i];
    var s1 := s.(threads := s.threads[t := Writing(op, px)]);
    ReadsRow(cfg, s, t, op, i);
    RowIndex(cfg, s, i);
    OnlyThatRow(cfg, s, op, i);
    SameAfterWrite(s.threads, t, op, px);
    assert Write(s1, Updated(s, t, op, i), t);
    Onward(cfg, s, s1, AWrite(t), Updated(s, t, op, i));
    ReachesOk(cfg, s, Updated(s, t, op, i));
  }

  lemma ReadsRow(cfg: Config, s: State, t: nat, op: Op, i: nat)
    requires t in s.threads && s.threads[t] == Reading(op) && i in s.rows && s.rows[i].key == op.KeyOf()
    requires op.Allowed(s.rows[i], s.clock)
    ensures Reaches(cfg, s, s.(threads := s.threads[t := Writing(op, s.rows[i])]))
  {
    hide Reaches, AfterCheck, IncludedAt, Quiescent, Claimable;
    var thr := Writing(op, s.rows[i]);
    assert Moves(cfg.h, s, s.threads[t], thr);
    StepReaches(cfg, s, AMove(t, thr), s.(threads := s.threads[t := thr]));
  }

  lemma OnlyThatRow(cfg: Config, s: State, op: Op, i: nat)
    requires Inv(cfg, s) && i in s.rows && s.rows[i].status == op.Expected()
    ensures Affects(s.rows, s.rows[i], op.Expected())
    ensures OptimisticUpdate(s.rows, s.rows[i], op.Expected(), op.Update(), s.clock + 1)
      == s.rows[i := Patch(s.rows[i], op.Update(), s.rows[i].retryCount + 1, s.clock + 1)]
  {
    hide Inv, TablesOk, Patch;
    HeldTablesOk(cfg, s);
    assert Unchanged(s.rows[i], s.rows[i], op.Expected());
    forall j | j in s.rows && j != i ensures s.rows[j].key != s.rows[i].key {
      if s.rows[j].key == s.rows[i].key {
        KeyOfOneRow(cfg, s, i, j);
      }
    }
  }

  lemma SameAfterWrite(threads: map<nat, Thread>, t: nat, op: Op, px: PolyTx)
    requires t in threads
    ensures AfterWrite(threads[t := Writing(op, px)], t, op, px, true) == AfterWrite(threads, t, op, px, true)
  {
  }

  // ---------- one attempt ----------

  /** Goroutine 0, the only one, is about to claim row `i`, newly put or failed before. */
  ghost predicate AboutToSend(s: State, i: nat) {
    && i in s.rows && s.rows[i].status in {Created, Failed} && s.rows[i].root != [] && s.rows[i].sideNodes.Some?
    && s.threads == map[0 := Reading(Claim(s.rows[i]))]
  }

  /** Only row `i` has been written, and no submission there was has changed. */
  ghost predicate OnlyRow(s: State, s': State, i: nat) {
    && i in s.rows && i in s'.rows && s'.rows == s.rows[i := s'.rows[i]]
    && s'.rows[i].key == s.rows[i].key && s'.rows[i].smtTxPath == s.rows[i].smtTxPath
    && s'.rows[i].root == s.rows[i].root && s'.rows[i].sideNodes == s.rows[i].sideNodes
    && s'.nodes == s.nodes && s'.removed == s.removed
    && s'.starcoin.log == s.starcoin.log && s'.starcoin.root == s.starcoin.root
    && forall x :: x in s.starcoin.txs ==> x in s'.starcoin.txs && s'.starcoin.txs[x] == s.starcoin.txs[x]
  }

  /** The row has been submitted once more, with its hash recorded, and the goroutine waits. */
  ghost predicate SentOnce(s: State, s': State, i: nat, hash: string) {
    && OnlyRow(s, s', i) && hash !in s.starcoin.txs && hash != ""
    && s'.rows[i].status == Processing && s'.rows[i].starcoinTxHash == hash
    && s'.rows[i].retryCount == s.rows[i].retryCount + 1
    && s'.threads == map[0 := Waiting(s.rows[i].key, hash)]
    && hash in s'.starcoin.txs && s.rows[i].sideNodes.Some?
    && s'.starcoin.txs[hash] ==
       Submission(s.rows[i].smtTxPath, s.rows[i].root, s.rows[i].sideNodes.value, s.rows[i].leafData, Pending)
  }

  lemma Attempt(cfg: Config, s: State, i: nat, hash: string) returns (s': State)
    requires cfg.Valid() && Inv(cfg, s) && AboutToSend(s, i) && hash != "" && hash !in s.starcoin.txs
    ensures Inv(cfg, s') && Reaches(cfg, s, s') && SentOnce(s, s', i, hash)
  {
    hide Inv, Reaches, SentOnce, OnlyRow, CollisionFree;
    var m := s.rows[i];
    UpdateRow(cfg, s, 0, Claim(m), i);
    var s1 := Updated(s, 0, Claim(m), i);
    TakeUpRow(cfg, s1, 0, m);
    var s2 := s1.(threads := s1.threads[0 := Queued(m)]);
    ReachesOn(cfg, s, s1, s2);
    SubmitRow(cfg, s2, 0, m, hash);
    var s3 := Sent(s2, 0, m, hash);
    ReachesOn(cfg, s, s2, s3);
    ReachesOk(cfg, s, s3);
    UpdateRow(cfg, s3, 0, RecordHash(m.key, hash), i);
    s' := Updated(s3, 0, RecordHash(m.key, hash), i);
    ReachesOn(cfg, s, s3, s');
    AttemptMade(s, s', i, hash);
  }

  lemma AttemptMade(s: State, s': State, i: nat, hash: string)
    requires AboutToSend(s, i) && hash != "" && hash !in s.starcoin.txs && i in s'.rows
    requires
      var tries := s.rows[i].retryCount + 1;
      s'.rows == s.rows[i := s.rows[i].(status := Processing, starcoinTxHash := hash, retryCount := tries,
                                        updatedAt := s'.rows[i].updatedAt)]
    requires s'.nodes == s.nodes && s'.removed == s.removed && s'.threads == map[0 := Waiting(s.rows[i].key, hash)]
    requires s'.starcoin == Received(s.starcoin, hash, s.rows[i])
    ensures SentOnce(s, s', i, hash)
  {
  }

  // ---------- learning what became of a submission ----------

  /**
   How the relay comes to know: the sender sees it; the sender gives up waiting, and the row timed out is checked;
   the process stops, and the row is checked before it would be sent again; or the row timed out is compared with
   the chain.
   */
  datatype Watch = Waits | TimesOut | Restarts | Compares

  /** Goroutine 0, the only one, waits for the submission of row `i`. */
  ghost predicate WaitingFor(s: State, i: nat, hash: string) {
    && i in s.rows && s.rows[i].status == Processing && s.rows[i].starcoinTxHash == hash && hash != ""
    && s.threads == map[0 := Waiting(s.rows[i].key, hash)] && hash in s.starcoin.txs
  }

  /** Row `i` has this status now; apart from that, only the clock and the goroutines have moved on. */
  ghost predicate Meanwhile(s: State, s': State, i: nat, status: Status) {
    && i in s.rows && i in s'.rows
    && s' == s.(rows := s.rows[i := s.rows[i].(status := status, updatedAt := s'.rows[i].updatedAt)],
                clock := s'.clock, threads := s'.threads)
  }

  /** What is done about a row whose submission was executed, or was not. */
  function Verdict(row: PolyTx, executed: bool): Op {
    if executed then MarkProcessed(row.key, row.status, row.starcoinTxHash) else MarkStatus(row.key, row.status, Failed)
  }

  lemma SeeFate(cfg: Config, s: State, i: nat, hash: string) returns (s': State)
    requires cfg.Valid() && Inv(cfg, s) && WaitingFor(s, i, hash) && s.starcoin.txs[hash].state != Pending
    ensures Inv(cfg, s') && Reaches(cfg, s, s')
    ensures s' == s.(threads := map[0 := Reading(Verdict(s.rows[i], TxIs(s, hash, Executed)))])
  {
    hide Inv, Reaches, AfterCheck, IncludedAt, Quiescent;
    var thr := Reading(Verdict(s.rows[i], TxIs(s, hash, Executed)));
    s' := s.(threads := s.threads[0 := thr]);
    StepReaches(cfg, s, AMove(0, thr), s');
    ReachesOk(cfg, s, s');
  }

  /** The sender gives up waiting. */
  lemma TimeOut(cfg: Config, s: State, i: nat, hash: string) returns (s': State)
    requires cfg.Valid() && Inv(cfg, s) && WaitingFor(s, i, hash)
    ensures Inv(cfg, s') && Reaches(cfg, s, s') && Meanwhile(s, s', i, TimedOut) && s'.threads == map[]
  {
    hide Inv, Reaches, AfterCheck, IncludedAt, Quiescent, CollisionFree;
    var op := MarkStatus(s.rows[i].key, Processing, TimedOut);
    var s1 := s.(threads := s.threads[0 := Reading(op)]);
    StepReaches(cfg, s, AMove(0, Reading(op)), s1);
    ReachesOk(cfg, s, s1);
    UpdateRow(cfg, s1, 0, op, i);
    s' := Updated(s1, 0, op, i);
    ReachesOn(cfg, s, s1, s');
  }

  /** Two minutes later a monitor picks the row. */
  lemma PickLater(cfg: Config, s: State, i: nat, thr: Thread) returns (s': State)
    requires cfg.Valid() && Inv(cfg, s) && i in s.rows && s.threads == map[]
    requires
      || (s.rows[i].status == TimedOut && thr == Checking(s.rows[i], false))
      || (s.rows[i].status == Processing && s.rows[i].starcoinTxHash != "" && s.rows[i].retryCount < 10
          && thr == Checking(s.rows[i], true))
      || (s.rows[i].status == Failed && s.rows[i].retryCount < 10 && thr == Reading(Claim(s.rows[i])))
    ensures Inv(cfg, s') && Reaches(cfg, s, s') && s' == s.(clock := s'.clock, threads := map[0 := thr])
    ensures s.rows[i].updatedAt + MAX_PROCESSING_MILLIS < s'.clock
  {
    hide Inv, Reaches, RecentlyStuck;
    var s1 := s.(clock := s.clock + 120_001);
    StampsPast(cfg, s, i);
    StepReaches(cfg, s, ATick(120_001), s1);
    s' := s1.(threads := s1.threads[0 := thr]);
    assert Picked(s1, i, thr);
    Onward(cfg, s, s1, ASpawn(0, thr), s');
    ReachesOk(cfg, s, s');
  }

  /** The row is checked: Starcoin's node knows what became of the submission, or it knows nothing of it. */
  lemma CheckRow(cfg: Config, s: State, i: nat, resend: bool) returns (s': State)
    requires cfg.Valid() && Inv(cfg, s) && i in s.rows && s.threads == map[] && s.rows[i].starcoinTxHash != ""
    requires s.rows[i].status == (if resend then Processing else TimedOut) && (resend ==> s.rows[i].retryCount < 10)
    ensures Inv(cfg, s') && Reaches(cfg, s, s')
    ensures s' == s.(clock := s'.clock,
                     threads := map[0 := Reading(Verdict(s.rows[i], TxIs(s, s.rows[i].starcoinTxHash, Executed)))])
  {
    hide Inv, Reaches, IncludedAt, Quiescent;
    var s1 := PickLater(cfg, s, i, Checking(s.rows[i], resend));
    var thr := Reading(Verdict(s.rows[i], TxIs(s, s.rows[i].starcoinTxHash, Executed)));
    s' := s1.(threads := s1.threads[0 := thr]);
    Onward(cfg, s, s1, AMove(0, thr), s');
    ReachesOk(cfg, s, s');
  }

  /** The row is compared with the chain: it is the last one executed. */
  lemma CompareRow(cfg: Config, s: State, i: nat) returns (s': State)
    requires cfg.Valid() && Inv(cfg, s) && i in s.rows && s.threads == map[] && s.rows[i].status == TimedOut
    requires TxIs(s, s.rows[i].starcoinTxHash, Executed) && s.rows[i].starcoinTxHash != ""
    requires LastIndex(s.rows) <= i + 50
    requires InclusionRootOf(cfg.h, s.rows[i]) == Some(s.starcoin.root)
    ensures Inv(cfg, s') && Reaches(cfg, s, s')
    ensures s' == s.(threads := map[0 := Reading(Verdict(s.rows[i], true))])
  {
    hide Inv, Reaches, AfterCheck, Quiescent, InclusionRootOf, FailedLongAgo, TimedOutLongAgo;
    var m := s.rows[i];
    PositiveIndex(cfg, s, i);
    var s1 := s.(threads := s.threads[0 := Listed(m)]);
    assert Picked(s, i, Listed(m));
    StepReaches(cfg, s, ASpawn(0, Listed(m)), s1);
    var s2 := s1.(threads := s1.threads[0 := Matching(m, s.starcoin.root)]);
    Onward(cfg, s, s1, AMove(0, Matching(m, s.starcoin.root)), s2);
    var thr := Reading(Verdict(m, true));
    s' := s2.(threads := s2.threads[0 := thr]);
    Onward(cfg, s, s2, AMove(0, thr), s');
    ReachesOk(cfg, s, s');
  }

  lemma PositiveIndex(cfg: Config, s: State, i: nat)
    requires Inv(cfg, s) && i in s.rows
    ensures 0 < i <= LastIndex(s.rows)
  {
    hide RootsOk, NodesOk, RemovedOk, ChainOk, TxsOk, ProcessedOk, ThreadsOk, RemovalsOk, PutsOk, Sound;
  }

  /** In each of the ways the relay is about to act on what became of the submission. */
  lemma Learn(cfg: Config, s: State, i: nat, hash: string, watch: Watch) returns (s': State, status: Status)
    requires cfg.Valid() && Inv(cfg, s) && WaitingFor(s, i, hash)
    requires watch == Waits ==> s.starcoin.txs[hash].state != Pending
    requires watch == Restarts ==> s.rows[i].retryCount < 10
    requires watch == Compares ==>
      && TxIs(s, hash, Executed) && LastIndex(s.rows) <= i + 50
      && InclusionRootOf(cfg.h, s.rows[i]) == Some(s.starcoin.root)
    ensures Inv(cfg, s') && Reaches(cfg, s, s') && Meanwhile(s, s', i, status)
    ensures s'.threads == map[0 := Reading(Verdict(s.rows[i].(status := status), TxIs(s, hash, Executed)))]
  {
    hide Inv, Reaches, InclusionRootOf, CollisionFree, LastIndex;
    status := if watch in {Waits, Restarts} then Processing else TimedOut;
    match watch
    case Waits =>
      s' := SeeFate(cfg, s, i, hash);
    case Restarts =>
      ReachesItself(cfg, s);
      var s1 := Stop(cfg, s, s, 0);
      s' := CheckRow(cfg, s1, i, true);
      ReachesOn(cfg, s, s1, s');
    case TimesOut =>
      var s1 := TimeOut(cfg, s, i, hash);
      s' := CheckRow(cfg, s1, i, false);
      ReachesOn(cfg, s, s1, s');
    case Compares =>
      var s1 := TimeOut(cfg, s, i, hash);
      StillComparable(cfg, s, s1, i);
      s' := CompareRow(cfg, s1, i);
      ReachesOn(cfg, s, s1, s');
  }

  /** And acts on it. */
  lemma Conclude(cfg: Config, s: State, i: nat, hash: string, watch: Watch) returns (s': State)
    requires cfg.Valid() && Inv(cfg, s) && WaitingFor(s, i, hash)
    requires watch == Waits ==> s.starcoin.txs[hash].state != Pending
    requires watch == Restarts ==> s.rows[i].retryCount < 10
    requires watch == Compares ==>
      && TxIs(s, hash, Executed) && LastIndex(s.rows) <= i + 50
      && InclusionRootOf(cfg.h, s.rows[i]) == Some(s.starcoin.root)
    ensures Inv(cfg, s') && Reaches(cfg, s, s')
    ensures Meanwhile(s, s', i, if TxIs(s, hash, Executed) then Processed else Failed)
    ensures s'.threads == if TxIs(s, hash, Executed) then map[0 := Sweeping(s.rows[i].txIndex)] else map[]
  {
    hide Inv, Reaches, InclusionRootOf, CollisionFree, LastIndex;
    var s1, status := Learn(cfg, s, i, hash, watch);
    var op := Verdict(s1.rows[i], TxIs(s, hash, Executed));
    UpdateRow(cfg, s1, 0, op, i);
    s' := Updated(s1, 0, op, i);
    ReachesOn(cfg, s, s1, s');
  }

  lemma StillComparable(cfg: Config, s: State, s1: State, i: nat)
    requires Meanwhile(s, s1, i, TimedOut)
    ensures LastIndex(s1.rows) == LastIndex(s.rows)
    ensures InclusionRootOf(cfg.h, s1.rows[i]) == InclusionRootOf(cfg.h, s.rows[i])
  {
    assert s1.rows.Keys == s.rows.Keys;
    assert IsLast(s.rows, LastIndex(s.rows)) && IsLast(s1.rows, LastIndex(s1.rows));
  }

  // ---------- a submission that fails ----------

  /** It is rejected, or Starcoin's node knows nothing of it when the row is checked. */
  datatype Failure = Failure(rejected: bool, watch: Watch)

  predicate Noticeable(failure: Failure) {
    failure.watch != Compares && (failure.watch == Waits ==> failure.rejected)
  }

  /** The row as after a failed attempt. */
  ghost predicate Again(s: State, s': State, i: nat) {
    && OnlyRow(s, s', i) && AboutToSend(s', i)
    && s'.rows[i].status == Failed && s'.rows[i].retryCount == s.rows[i].retryCount + 1
  }

  lemma FailOnce(cfg: Config, s: State, i: nat, failure: Failure) returns (s': State)
    requires cfg.Valid() && Inv(cfg, s) && AboutToSend(s, i) && s.rows[i].retryCount < 9 && Noticeable(failure)
    ensures Inv(cfg, s') && Reaches(cfg, s, s') && Again(s, s', i)
  {
    hide Inv, Reaches, SentOnce;
    var hash := UnusedHash(s.starcoin.txs.Keys);
    var s1 := Attempt(cfg, s, i, hash);
    var s2 := GiveUp(cfg, s, s1, i, hash, failure);
    ReachesOn(cfg, s, s1, s2);
    s' := PickLater(cfg, s2, i, Reading(Claim(s2.rows[i])));
    ReachesOn(cfg, s, s2, s');
    PickedAgain(s, s2, s', i);
  }

  lemma PickedAgain(s: State, s2: State, s': State, i: nat)
    requires OnlyRow(s, s2, i) && s2.rows[i].status == Failed && s2.rows[i].retryCount == s.rows[i].retryCount + 1
    requires AboutToSend(s', i) && s' == s2.(clock := s'.clock, threads := s'.threads)
    ensures Again(s, s', i)
  {
  }

  /** The failed submission is noticed, and the row marked failed. */
  lemma GiveUp(cfg: Config, s: State, s1: State, i: nat, hash: string, failure: Failure) returns (s': State)
    requires cfg.Valid() && Inv(cfg, s1) && SentOnce(s, s1, i, hash) && Noticeable(failure)
    requires s.rows[i].root != [] && s.rows[i].retryCount < 9
    ensures Inv(cfg, s') && Reaches(cfg, s1, s')
    ensures OnlyRow(s, s', i) && s'.threads == map[] && s'.rows[i].root == s.rows[i].root && s'.rows[i].sideNodes.Some?
    ensures s'.rows[i].status == Failed && s'.rows[i].retryCount == s.rows[i].retryCount + 1
  {
    hide Inv, Reaches, OnlyRow, CollisionFree, InclusionRootOf, LastIndex;
    SentOnceOnly(s, s1, i, hash);
    var s2 := RejectIf(cfg, s1, hash, failure.rejected);
    s' := Conclude(cfg, s2, i, hash, failure.watch);
    ReachesOn(cfg, s1, s2, s');
    FailedAgain(s, s1, s', i, hash);
  }

  lemma RejectIf(cfg: Config, s: State, hash: string, rejected: bool) returns (s': State)
    requires cfg.Valid() && Inv(cfg, s) && TxIs(s, hash, Pending)
    ensures Inv(cfg, s') && Reaches(cfg, s, s') && s' == s.(starcoin := s.starcoin.(txs := s'.starcoin.txs))
    ensures s'.starcoin.txs ==
      s.starcoin.txs[hash := s.starcoin.txs[hash].(state := if rejected then Rejected else Pending)]
  {
    hide Inv, Reaches;
    if rejected {
      s' := s.(starcoin := s.starcoin.(txs := s.starcoin.txs[hash := s.starcoin.txs[hash].(state := Rejected)]));
      StepReaches(cfg, s, AReject(hash), s');
      ReachesOk(cfg, s, s');
    } else {
      s' := s;
      ReachesItself(cfg, s);
    }
  }

  lemma SentOnceOnly(s: State, s1: State, i: nat, hash: string)
    requires SentOnce(s, s1, i, hash)
    ensures i in s.rows && WaitingFor(s1, i, hash) && s1.rows[i].key == s.rows[i].key && TxIs(s1, hash, Pending)
    ensures s1.rows[i].retryCount == s.rows[i].retryCount + 1
  {
  }

  lemma FailedAgain(s: State, s1: State, s': State, i: nat, hash: string)
    requires SentOnce(s, s1, i, hash) && i in s'.rows && s'.threads == map[] && s'.nodes == s1.nodes
    requires s'.removed == s1.removed && s'.starcoin == s1.starcoin.(txs := s'.starcoin.txs)
    requires hash in s'.starcoin.txs && s'.starcoin.txs == s1.starcoin.txs[hash := s'.starcoin.txs[hash]]
    requires s'.rows == s1.rows[i := s1.rows[i].(status := Failed, updatedAt := s'.rows[i].updatedAt)]
    ensures OnlyRow(s, s', i) && s'.rows[i].status == Failed && s'.rows[i].retryCount == s.rows[i].retryCount + 1
    ensures s'.rows[i].root == s.rows[i].root && s'.rows[i].sideNodes.Some?
  {
    assert s'.rows == s.rows[i := s'.rows[i]];
  }

  /** Several submissions fail, one after the other. */
  lemma {:induction false} FailTimes(cfg: Config, s: State, i: nat, failures: seq<Failure>) returns (s': State)
    requires cfg.Valid() && Inv(cfg, s) && AboutToSend(s, i) && s.rows[i].retryCount + |failures| <= 9
    requires forall f :: f in failures ==> Noticeable(f)
    ensures Inv(cfg, s') && Reaches(cfg, s, s') && OnlyRow(s, s', i) && AboutToSend(s', i)
    ensures s'.rows[i].retryCount == s.rows[i].retryCount + |failures|
    decreases |failures|
  {
    hide Inv, Reaches;
    if failures == [] {
      s' := s;
      ReachesItself(cfg, s);
    } else {
      var s1 := FailOnce(cfg, s, i, failures[0]);
      s' := FailTimes(cfg, s1, i, failures[1..]);
      ReachesOn(cfg, s, s1, s');
    }
  }

  // ---------- a submission that is executed ----------

  /** Row `i` has been executed, and is processed with the hash of the submission executed. */
  ghost predicate Done(s: State, s': State, i: nat) {
    && i in s.rows && i in s'.rows && s'.rows == s.rows[i := s'.rows[i]] && s'.threads == map[]
    && s'.rows[i].key == s.rows[i].key && s'.rows[i].smtTxPath == s.rows[i].smtTxPath
    && s'.rows[i].root == s.rows[i].root && s'.rows[i].retryCount == s.rows[i].retryCount + 1
    && ProcessedBy(s', i)
    && s'.starcoin.log == s.starcoin.log + [s.rows[i].smtTxPath]
    && forall x :: x in s.starcoin.txs ==> x in s'.starcoin.txs && s'.starcoin.txs[x] == s.starcoin.txs[x]
  }

  /** The row is processed, and its hash is that of the submission that executed its path. */
  ghost predicate ProcessedBy(s: State, i: nat) {
    && i in s.rows && s.rows[i].status == Processed
    && TxIs(s, s.rows[i].starcoinTxHash, Executed)
    && s.starcoin.txs[s.rows[i].starcoinTxHash].path == s.rows[i].smtTxPath
  }

  lemma Succeed(cfg: Config, s: State, i: nat, watch: Watch) returns (s': State)
    requires cfg.Valid() && Inv(cfg, s) && AboutToSend(s, i) && Before(s.rows, i) == Elements(s.starcoin.log)
    requires LastIndex(s.rows) <= i + 50 && (watch == Restarts ==> s.rows[i].retryCount < 9)
    ensures Inv(cfg, s') && Reaches(cfg, s, s') && Done(s, s', i)
  {
    hide Inv, Reaches, AbsenceProof, SetRoot, SentOnce, Done, ProcessedBy, Before, LastIndex, CollisionFree;
    var hash := UnusedHash(s.starcoin.txs.Keys);
    var s1 := Attempt(cfg, s, i, hash);
    RootMatches(cfg, s, i);
    var s2 := GoThrough(cfg, s, s1, i, hash);
    ReachesOn(cfg, s, s1, s2);
    ReachesOk(cfg, s, s2);
    s' := Confirm(cfg, s, s1, s2, i, hash, watch);
    ReachesOn(cfg, s, s2, s');
    ReachesOk(cfg, s, s');
  }

  /** Starcoin executes the submission. */
  lemma GoThrough(cfg: Config, s: State, s1: State, i: nat, hash: string) returns (s': State)
    requires cfg.Valid() && SentOnce(s, s1, i, hash) && s.rows[i].root == s.starcoin.root
    requires AbsenceProof(cfg.h, Elements(s.starcoin.log), s.rows[i].smtTxPath, s.rows[i].sideNodes.value,
      s.rows[i].leafData)
    ensures Reaches(cfg, s1, s') && s' == s1.(starcoin := s'.starcoin)
    ensures s'.starcoin.log == s.starcoin.log + [s.rows[i].smtTxPath]
    ensures s'.starcoin.txs == s1.starcoin.txs[hash := s1.starcoin.txs[hash].(state := Executed)]
  {
    hide AbsenceProof, SetRoot, Reaches;
    s' := ExecuteRow(cfg, s1, hash);
  }

  /** The row is marked processed, and nothing is swept. */
  lemma Confirm(cfg: Config, s: State, s1: State, s2: State, i: nat, hash: string, watch: Watch) returns (s': State)
    requires cfg.Valid() && Inv(cfg, s2) && SentOnce(s, s1, i, hash) && s2 == s1.(starcoin := s2.starcoin)
    requires s2.starcoin.log == s.starcoin.log + [s.rows[i].smtTxPath]
    requires s2.starcoin.txs == s1.starcoin.txs[hash := s1.starcoin.txs[hash].(state := Executed)]
    requires Before(s.rows, i) == Elements(s.starcoin.log) && s.rows[i].root != []
    requires LastIndex(s.rows) <= i + 50 && (watch == Restarts ==> s.rows[i].retryCount < 9)
    ensures Reaches(cfg, s2, s') && Done(s, s', i)
  {
    hide Inv, Reaches, Done, Before, LastIndex, InclusionRootOf, CollisionFree;
    IsLastExecuted(cfg, s, s1, s2, i, hash);
    SentOnceOnly(s, s1, i, hash);
    var s3 := Conclude(cfg, s2, i, hash, watch);
    s' := s3.(clock := s3.clock + 1, threads := map[]);
    SweepsNothing(cfg, s3, s');
    ReachesOn(cfg, s2, s3, s');
    ConfirmedIsDone(s, s1, s2, s', i, hash);
  }

  /** The row's inclusion root is then Starcoin's. */
  lemma IsLastExecuted(cfg: Config, s: State, s1: State, s2: State, i: nat, hash: string)
    requires cfg.Valid() && Inv(cfg, s2) && SentOnce(s, s1, i, hash) && s2 == s1.(starcoin := s2.starcoin)
    requires s2.starcoin.log == s.starcoin.log + [s.rows[i].smtTxPath] && s.rows[i].root != []
    requires Before(s.rows, i) == Elements(s.starcoin.log)
    ensures InclusionRootOf(cfg.h, s2.rows[i]) == Some(s2.starcoin.root) && LastIndex(s2.rows) == LastIndex(s.rows)
  {
    hide Inv, InclusionRootOf, Before, CollisionFree;
    BeforeChangedRow(s.rows, i, s2.rows[i]);
    assert Elements(s2.starcoin.log) == Elements(s.starcoin.log) + {s.rows[i].smtTxPath};
    InclusionIsRoot(cfg, s2, i);
    assert s2.rows.Keys == s.rows.Keys;
    assert IsLast(s.rows, LastIndex(s.rows)) && IsLast(s2.rows, LastIndex(s2.rows));
  }

  lemma InclusionIsRoot(cfg: Config, s: State, i: nat)
    requires cfg.Valid() && Inv(cfg, s) && i in s.rows && s.rows[i].root != []
    requires Elements(s.starcoin.log) == Before(s.rows, i) + {s.rows[i].smtTxPath}
    ensures InclusionRootOf(cfg.h, s.rows[i]) == Some(s.starcoin.root)
  {
    hide RemovedOk, TxsOk, ProcessedOk, ThreadsOk, RemovalsOk, PutsOk, InclusionRootOf;
    RowRootCheck(cfg, s, i);
  }

  lemma SweepsNothing(cfg: Config, s: State, s': State)
    requires 0 in s.threads && s.threads.Keys == {0} && s.threads[0].Sweeping?
    requires s' == s.(clock := s.clock + 1, threads := map[])
    ensures Reaches(cfg, s, s')
  {
    hide Reaches;
    assert Swept(s.rows, {}, s.clock + 1) == s.rows && s.threads - {0} == map[];
    StepReaches(cfg, s, ASweep(0, {}), s');
  }

  lemma ConfirmedIsDone(s: State, s1: State, s2: State, s': State, i: nat, hash: string)
    requires SentOnce(s, s1, i, hash) && s2 == s1.(starcoin := s2.starcoin)
    requires s2.starcoin.log == s.starcoin.log + [s.rows[i].smtTxPath]
    requires s2.starcoin.txs == s1.starcoin.txs[hash := s1.starcoin.txs[hash].(state := Executed)]
    requires i in s'.rows && s'.threads == map[] && s'.starcoin == s2.starcoin
    requires s'.rows == s1.rows[i := s1.rows[i].(status := Processed, starcoinTxHash := hash,
                                                 updatedAt := s'.rows[i].updatedAt)]
    ensures Done(s, s', i)
  {
    assert s'.rows == s.rows[i := s'.rows[i]];
  }

  /** What one transaction goes through: failures noticed in some way, then how its execution is. */
  datatype Way = Way(failures: seq<Failure>, ending: Watch)

  /** It is claimed at most ten times, and less often if it is to be picked for another try at the end. */
  predicate Bearable(way: Way) {
    && |way.failures| <= 9 && (way.ending == Restarts ==> |way.failures| <= 8)
    && forall f :: f in way.failures ==> Noticeable(f)
  }

  // ---------- one transaction ----------

  /**
   The queue holds exactly these transactions in this order, all executed and processed after so many failures,
   and no goroutine is left.
   */
  ghost predicate Served(cfg: Config, s: State, keys: seq<Key>, ways: seq<Way>) {
    && |ways| == |keys| && s.threads == map[] && s.starcoin.log == PathsInOrder(cfg.h, keys)
    && (forall i :: i in s.rows <==> 1 <= i <= |keys|)
    && forall i :: i in s.rows ==>
        && s.rows[i].key == keys[i - 1] && s.rows[i].root != [] && s.rows[i].retryCount == |ways[i - 1].failures| + 1
        && s.rows[i].smtTxPath == PathOf(cfg.h, keys[i - 1]) && ProcessedBy(s, i)
  }

  /** One more transaction is put, sent and executed, in the given way. */
  lemma ServeOne(cfg: Config, s: State, keys: seq<Key>, ways: seq<Way>, key: Key, way: Way) returns (s': State)
    requires cfg.Valid() && Inv(cfg, s) && Served(cfg, s, keys, ways) && Bearable(way)
    requires PathOf(cfg.h, key) !in s.starcoin.log && CanBuild(cfg, Elements(s.starcoin.log), PathOf(cfg.h, key))
    ensures Inv(cfg, s') && Reaches(cfg, s, s') && Served(cfg, s', keys + [key], ways + [way])
  {
    hide Inv, Reaches, PutAt, Served, CanBuild, Elements, AboutToSend, Done, OnlyRow, Before;
    ReadyToPut(cfg, s, keys, ways, key);
    var s1, row := PutRow(cfg, s, 0, key);
    var i := row.txIndex;
    ReadyToSend(cfg, s, s1, keys, ways, key, row);
    var s2 := FailTimes(cfg, s1, i, way.failures);
    ReachesOn(cfg, s, s1, s2);
    ReadyToSucceed(s, s1, s2, i);
    s' := Succeed(cfg, s2, i, way.ending);
    ReachesOn(cfg, s, s2, s');
    StillServed(cfg, s, s1, s2, s', keys, ways, key, row, way);
  }

  lemma AllQueuedExecuted(cfg: Config, s: State, keys: seq<Key>, ways: seq<Way>)
    requires Served(cfg, s, keys, ways)
    ensures PathSet(s.rows) == Elements(s.starcoin.log) && LastIndex(s.rows) == |keys|
    ensures !NeedsDeriving(LastRow(s.rows))
  {
    PathsListed(cfg.h, keys);
    forall p | p in PathSet(s.rows) ensures p in Elements(s.starcoin.log) {
      var i :| i in s.rows && s.rows[i].smtTxPath == p;
      assert s.starcoin.log[i - 1] == p;
    }
    forall p | p in Elements(s.starcoin.log) ensures p in PathSet(s.rows) {
      var k :| 0 <= k < |s.starcoin.log| && s.starcoin.log[k] == p;
      assert k + 1 in s.rows && s.rows[k + 1].smtTxPath == p;
    }
    if keys != [] {
      assert |keys| in s.rows;
    } else {
      assert s.rows == map[];
    }
  }

  lemma {:induction false} PathsListed(h: Hasher, keys: seq<Key>)
    ensures |PathsInOrder(h, keys)| == |keys|
    ensures forall i :: 0 <= i < |keys| ==> PathsInOrder(h, keys)[i] == PathOf(h, keys[i])
  {
    if keys != [] {
      PathsListed(h, keys[..|keys| - 1]);
    }
  }

  lemma ReadyToPut(cfg: Config, s: State, keys: seq<Key>, ways: seq<Way>, key: Key)
    requires Served(cfg, s, keys, ways) && PathOf(cfg.h, key) !in s.starcoin.log
    requires CanBuild(cfg, Elements(s.starcoin.log), PathOf(cfg.h, key))
    ensures CanPut(cfg, s, key) && s.threads == map[]
  {
    AllQueuedExecuted(cfg, s, keys, ways);
    hide PathSet, LastRow;
  }

  lemma ReadyToSend(cfg: Config, s: State, s1: State, keys: seq<Key>, ways: seq<Way>, key: Key, row: PolyTx)
    requires cfg.Valid() && Inv(cfg, s1) && Served(cfg, s, keys, ways)
    requires PutAt(cfg, s, s1, s.threads[0 := Reading(Claim(row))], key, row)
    ensures AboutToSend(s1, row.txIndex) && s1.rows[row.txIndex] == row && row.retryCount == 0 && row.root != []
    ensures s1.starcoin == s.starcoin && Before(s1.rows, row.txIndex) == Elements(s1.starcoin.log)
    ensures IsLast(s1.rows, row.txIndex)
  {
    hide Inv, Before, PathSet, LastIndex, LastRow, NeedsDeriving, ProcessedBy, PathsInOrder, CollisionFree, Elements;
    AllQueuedExecuted(cfg, s, keys, ways);
    BeforeChangedRow(s.rows, row.txIndex, row);
    BeforeNext(s.rows);
    HasSideNodes(cfg, s1, row.txIndex);
  }

  lemma HasSideNodes(cfg: Config, s: State, i: nat)
    requires Inv(cfg, s) && i in s.rows && s.rows[i].root != []
    ensures s.rows[i].sideNodes.Some?
  {
    hide RootsOk, NodesOk, RemovedOk, ChainOk, TxsOk, ProcessedOk, ThreadsOk, RemovalsOk, PutsOk, ProvesAbsent;
    assert Sound(cfg, s, s.rows[i]);
  }

  lemma ReadyToSucceed(s: State, s1: State, s2: State, i: nat)
    requires OnlyRow(s1, s2, i) && Before(s1.rows, i) == Elements(s1.starcoin.log)
    ensures Before(s2.rows, i) == Elements(s2.starcoin.log)
    ensures IsLast(s1.rows, i) ==> LastIndex(s2.rows) == i
  {
    BeforeChangedRow(s1.rows, i, s2.rows[i]);
    assert s2.rows.Keys == s1.rows.Keys;
    hide Before;
  }

  lemma StillServed(cfg: Config, s: State, s1: State, s2: State, s': State, keys: seq<Key>, ways: seq<Way>,
                    key: Key, row: PolyTx, way: Way)
    requires Served(cfg, s, keys, ways)
    requires PutAt(cfg, s, s1, s.threads[0 := Reading(Claim(row))], key, row) && s1.starcoin == s.starcoin
    requires s1.rows[row.txIndex] == row && row.retryCount == 0 && row.root != []
    requires OnlyRow(s1, s2, row.txIndex) && s2.rows[row.txIndex].retryCount == |way.failures|
    requires Done(s2, s', row.txIndex)
    ensures Served(cfg, s', keys + [key], ways + [way])
  {
    AllQueuedExecuted(cfg, s, keys, ways);
    assert s'.rows == s.rows[row.txIndex := s'.rows[row.txIndex]];
    hide NeedsDeriving, LastRow, LastIndex, ProcessedBy, Served;
    OneMoreServed(cfg, s, s2, s', keys, ways, key, row.txIndex, way);
  }

  lemma OneMoreServed(cfg: Config, s: State, s2: State, s': State, keys: seq<Key>, ways: seq<Way>, key: Key,
                      i: nat, way: Way)
    requires Served(cfg, s, keys, ways) && i == |keys| + 1 && i in s'.rows
    requires s'.rows == s.rows[i := s'.rows[i]] && s'.threads == map[]
    requires s'.rows[i].key == key && s'.rows[i].smtTxPath == PathOf(cfg.h, key) && s'.rows[i].root != []
    requires s'.rows[i].retryCount == |way.failures| + 1 && ProcessedBy(s', i)
    requires s'.starcoin.log == s.starcoin.log + [PathOf(cfg.h, key)]
    requires forall x :: x in s.starcoin.txs ==> x in s2.starcoin.txs && s2.starcoin.txs[x] == s.starcoin.txs[x]
    requires forall x :: x in s2.starcoin.txs ==> x in s'.starcoin.txs && s'.starcoin.txs[x] == s2.starcoin.txs[x]
    ensures Served(cfg, s', keys + [key], ways + [way])
  {
    hide ProcessedBy, PathOf;
    var all := keys + [key];
    assert all[..|all| - 1] == keys;
    forall j | j in s'.rows && j != i ensures ProcessedBy(s', j) {
      StaysProcessed(s, s2, s', j);
    }
  }

  lemma StaysProcessed(s: State, s2: State, s': State, j: nat)
    requires ProcessedBy(s, j) && j in s'.rows && s'.rows[j] == s.rows[j]
    requires forall x :: x in s.starcoin.txs ==> x in s2.starcoin.txs && s2.starcoin.txs[x] == s.starcoin.txs[x]
    requires forall x :: x in s2.starcoin.txs ==> x in s'.starcoin.txs && s'.starcoin.txs[x] == s2.starcoin.txs[x]
    ensures ProcessedBy(s', j)
  {
  }

  // ---------- any number of transactions ----------

  function PathsInOrder(h: Hasher, keys: seq<Key>): seq<Bytes> {
    if keys == [] then [] else PathsInOrder(h, keys[..|keys| - 1]) + [PathOf(h, keys[|keys| - 1])]
  }

  /** No path twice, and the trees of the first ones, however many, belong to the family. */
  ghost predicate Servable(cfg: Config, keys: seq<Key>) {
    && NoRepeats(PathsInOrder(cfg.h, keys))
    && forall n :: 0 <= n <= |keys| ==> Elements(PathsInOrder(cfg.h, keys[..n])) in cfg.trees
  }

  /**
   Any transactions can be executed, in any order, each after up to nine failures, noticed in whatever way: in the
   end every row is processed, with the hash of the submission that executed its path.
   */
  lemma {:induction false} AllExecute(cfg: Config, keys: seq<Key>, ways: seq<Way>) returns (s: State)
    requires cfg.Valid() && Servable(cfg, keys) && AllBearable(keys, ways)
    ensures Inv(cfg, s) && Reaches(cfg, Init(cfg.h), s) && Served(cfg, s, keys, ways)
  {
    hide Inv, Reaches, Served, Servable, PathsInOrder, CanBuild, Bearable, AllBearable, CollisionFree, Elements, PathOf;
    FewerBearable(keys, ways);
    if keys == [] {
      s := Init(cfg.h);
      InitOk(cfg);
      ReachesItself(cfg, s);
      NothingYet(cfg);
    } else {
      var init, last := keys[..|keys| - 1], keys[|keys| - 1];
      var fewer, way := ways[..|keys| - 1], ways[|keys| - 1];
      FewerServable(cfg, keys);
      var s1 := AllExecute(cfg, init, fewer);
      ServedLog(cfg, s1, init, fewer);
      s := ServeOne(cfg, s1, init, fewer, last, way);
      ReachesOn(cfg, Init(cfg.h), s1, s);
      assert keys == init + [last] && ways == fewer + [way];
    }
  }

  ghost predicate AllBearable(keys: seq<Key>, ways: seq<Way>) {
    |ways| == |keys| && forall k :: 0 <= k < |keys| ==> Bearable(ways[k])
  }

  lemma FewerBearable(keys: seq<Key>, ways: seq<Way>)
    requires AllBearable(keys, ways)
    ensures |ways| == |keys|
    ensures keys != [] ==> Bearable(ways[|keys| - 1]) && AllBearable(keys[..|keys| - 1], ways[..|keys| - 1])
  {
  }

  lemma NothingYet(cfg: Config)
    ensures Served(cfg, Init(cfg.h), [], [])
  {
  }

  lemma ServedLog(cfg: Config, s: State, keys: seq<Key>, ways: seq<Way>)
    requires Served(cfg, s, keys, ways)
    ensures s.starcoin.log == PathsInOrder(cfg.h, keys)
  {
  }

  lemma FewerServable(cfg: Config, keys: seq<Key>)
    requires Servable(cfg, keys) && keys != []
    ensures var init, p := keys[..|keys| - 1], PathOf(cfg.h, keys[|keys| - 1]);
      && Servable(cfg, init) && p !in PathsInOrder(cfg.h, init)
      && CanBuild(cfg, Elements(PathsInOrder(cfg.h, init)), p)
  {
    var init, p := keys[..|keys| - 1], PathOf(cfg.h, keys[|keys| - 1]);
    var log := PathsInOrder(cfg.h, init);
    assert keys[..|keys|] == keys;
    assert Elements(log + [p]) == Elements(log) + {p};
    forall n | 0 <= n <= |init| ensures Elements(PathsInOrder(cfg.h, init[..n])) in cfg.trees {
      assert init[..n] == keys[..n];
    }
    assert init == keys[..|init|];
    NoRepeatsBefore(log, p);
  }

  lemma NoRepeatsBefore(log: seq<Bytes>, p: Bytes)
    requires NoRepeats(log + [p])
    ensures NoRepeats(log) && p !in log
  {
    var all := log + [p];
    forall a, b | 0 <= a < b < |log| ensures log[a] != log[b] {
      assert all[a] != all[b];
    }
    forall a | 0 <= a < |log| ensures log[a] != p {
      assert all[a] != all[|log|];
    }
  }

  lemma RunTo(cfg: Config, s: State)
    requires Reaches(cfg, Init(cfg.h), s)
    ensures exists states: seq<State>, actions: seq<Action> :: Run(cfg, states, actions) && states[|actions|] == s
  {
    hide Next;
  }
}
