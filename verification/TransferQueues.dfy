/**
 Starcoin-to-Poly transfers on their way (manager/starcoinmanager.go): fetched ones wait in the retry
 table, submitted ones in the check table, until they are done on Poly. The work on one entry, its
 insertion and deletion together, is one step; steps of the two monitors and of Poly come in any order.
 */
module TransferQueues {
  import opened Bytes

  /** A serialised cross-chain transfer with its event. */
  type Transfer = Bytes

  /** The retry table is keyed by the transfer, the check table by the Poly transaction that carries it. */
  datatype Queues = Queues(
    retry: set<Transfer>,
    check: map<string, Transfer>,
    carried: map<string, Transfer>,
    done: set<Transfer>)
  {
    /** The check table says which transfer a transaction carries. */
    ghost predicate Valid() {
      forall k :: k in check ==> k in carried && carried[k] == check[k]
    }

    /** Transfers that are not lost. */
    ghost function Tracked(): set<Transfer> {
      retry + check.Values + done
    }
  }

  datatype PutReply = Stored | PutFailed

  /** What submitting the proof of a transfer comes to. */
  datatype SubmitReply = Submitted(polyTx: string) | AlreadyDone | SubmitError

  datatype EventReply = NoEvent | Succeeded | NotSucceeded

  datatype Step =
    | Fetch(t: Transfer, put: PutReply)
    | Handle(v: Transfer, submit: SubmitReply, put: PutReply, deleteFails: bool)
    | Check(k: string, event: EventReply, put: PutReply, deleteFails: bool)
    | Execute(polyTx: string)

  /** Entries are worked on while they are there, and Poly answers truthfully. */
  predicate Possible(q: Queues, step: Step) {
    match step
    case Fetch(_, _) => true
    case Handle(v, submit, _, _) =>
      && v in q.retry
      && (submit.Submitted? && submit.polyTx in q.carried ==> q.carried[submit.polyTx] == v)
      && (submit == AlreadyDone ==> v in q.done)
    case Check(k, event, _, _) => k in q.check && (event == Succeeded ==> k in q.carried && q.carried[k] in q.done)
    case Execute(polyTx) => polyTx in q.carried
  }

  function After(q: Queues, step: Step): Queues
    requires Possible(q, step)
  {
    match step
    case Fetch(t, put) => if put == Stored then q.(retry := q.retry + {t}) else q
    case Handle(v, submit, put, deleteFails) =>
      var rest := if submit == SubmitError || deleteFails then q.retry else q.retry - {v};
      if submit.Submitted? then
        q.(retry := rest,
           check := if put == Stored && submit.polyTx !in q.check then q.check[submit.polyTx := v] else q.check,
           carried := q.carried[submit.polyTx := v])
      else q.(retry := rest)
    case Check(k, event, put, deleteFails) =>
      q.(retry := if event == NotSucceeded && put == Stored then q.retry + {q.check[k]} else q.retry,
         check := if event == NoEvent || deleteFails then q.check else q.check - {k})
    case Execute(polyTx) => q.(done := q.done + {q.carried[polyTx]})
  }

  // ---------- nothing is lost ----------

  /** The transfer a step loses: its insertion failed for want of anything but a duplicate, and it is nowhere else. */
  ghost function Lost(q: Queues, step: Step): set<Transfer>
    requires Possible(q, step)
  {
    match step
    case Handle(v, submit, put, deleteFails) =>
      if submit.Submitted? && put == PutFailed && !deleteFails then {v} - q.check.Values - q.done else {}
    case Check(k, event, put, deleteFails) =>
      if event == NotSucceeded && put == PutFailed && !deleteFails
      then {q.check[k]} - q.retry - (q.check - {k}).Values - q.done
      else {}
    case _ => {}
  }

  /** The transfers a step adds. */
  function Gained(q: Queues, step: Step): set<Transfer>
    requires Possible(q, step)
  {
    match step
    case Fetch(t, put) => if put == Stored then {t} else {}
    case Execute(polyTx) => {q.carried[polyTx]}
    case _ => {}
  }

  lemma ValuesOfInsertion(m: map<string, Transfer>, k: string, v: Transfer)
    requires k !in m
    ensures m[k := v].Values == m.Values + {v}
  {
    var m' := m[k := v];
    assert m'[k] == v;
    forall x | x in m.Values ensures x in m'.Values {
      var j :| j in m && m[j] == x;
      assert m'[j] == x;
    }
  }

  lemma ValuesOfDeletion(m: map<string, Transfer>, k: string)
    requires k in m
    ensures m.Values == (m - {k}).Values + {m[k]}
  {
    forall x | x in m.Values ensures x in (m - {k}).Values + {m[k]} {
      var j :| j in m && m[j] == x;
      assert j == k || (j in m - {k} && (m - {k})[j] == x);
    }
  }

  lemma HandleTracks(q: Queues, step: Step)
    requires q.Valid() && Possible(q, step) && step.Handle?
    ensures After(q, step).Valid() && After(q, step).Tracked() == q.Tracked() - Lost(q, step)
  {
    var Handle(v, submit, put, deleteFails) := step;
    if submit.Submitted? {
      if submit.polyTx in q.check {
        assert q.check[submit.polyTx] in q.check.Values;
      } else if put == Stored {
        ValuesOfInsertion(q.check, submit.polyTx, v);
      }
    }
  }

  lemma CheckTracks(q: Queues, step: Step)
    requires q.Valid() && Possible(q, step) && step.Check?
    ensures After(q, step).Valid() && After(q, step).Tracked() == q.Tracked() - Lost(q, step)
  {
    ValuesOfDeletion(q.check, step.k);
  }

  /** What every step does to the transfers that are not lost, exactly. */
  lemma StepTracks(q: Queues, step: Step)
    requires q.Valid() && Possible(q, step)
    ensures After(q, step).Valid() && After(q, step).Tracked() == q.Tracked() + Gained(q, step) - Lost(q, step)
  {
    match step
    case Handle(_, _, _, _) => HandleTracks(q, step);
    case Check(_, _, _, _) => CheckTracks(q, step);
    case _ =>
  }

  ghost predicate Run(states: seq<Queues>, steps: seq<Step>) {
    && |states| == |steps| + 1 && states[0].Valid()
    && forall k :: 0 <= k < |steps| ==> Possible(states[k], steps[k]) && states[k + 1] == After(states[k], steps[k])
  }

  /** The insertion a step makes into the other table fails, and its deletion from the one table does not. */
  predicate FailsAndDeletes(step: Step) {
    match step
    case Handle(_, submit, put, deleteFails) => submit.Submitted? && put == PutFailed && !deleteFails
    case Check(_, event, put, deleteFails) => event == NotSucceeded && put == PutFailed && !deleteFails
    case _ => false
  }

  /**
   In every run, a transfer once fetched is in the retry table, in the check table or done on Poly, as
   long as insertions that are followed by a successful deletion fail only as duplicates.
   */
  lemma {:induction false} NothingLost(states: seq<Queues>, steps: seq<Step>, j: nat, k: nat, t: Transfer)
    requires Run(states, steps) && j <= k < |states| && t in states[j].Tracked()
    requires forall n :: j <= n < k ==> !FailsAndDeletes(steps[n])
    ensures states[k].Valid() && t in states[k].Tracked()
  {
    AlwaysValid(states, steps, k);
    if j < k {
      NothingLost(states, steps, j, k - 1, t);
      StepTracks(states[k - 1], steps[k - 1]);
      OnlyFailedPutsLose(states[k - 1], steps[k - 1]);
      assert states[k - 1 + 1] == After(states[k - 1], steps[k - 1]);
    }
  }

  /** Otherwise a transfer can be lost: fetched, submitted, not recorded for checking, and deleted. */
  lemma FailedPutLoses(t: Transfer, polyTx: string)
    ensures exists states: seq<Queues>, steps: seq<Step> ::
      && Run(states, steps) && |steps| == 2 && states[0] == Queues({}, map[], map[], {}) && FailsAndDeletes(steps[1])
      && t in states[1].Tracked() && t !in states[2].Tracked()
  {
    var fetched := Queues({t}, map[], map[], {});
    var submitted := Queues({}, map[], map[polyTx := t], {});
    var steps := [Fetch(t, Stored), Handle(t, Submitted(polyTx), PutFailed, false)];
    var states := [Queues({}, map[], map[], {}), fetched, submitted];
    assert After(states[0], steps[0]) == states[1] && After(states[1], steps[1]) == states[2];
    assert Run(states, steps);
  }

  lemma {:induction false} AlwaysValid(states: seq<Queues>, steps: seq<Step>, k: nat)
    requires Run(states, steps) && k < |states|
    ensures states[k].Valid()
  {
    if k > 0 {
      AlwaysValid(states, steps, k - 1);
      StepTracks(states[k - 1], steps[k - 1]);
      assert states[k - 1 + 1] == After(states[k - 1], steps[k - 1]);
    }
  }

  /** Insertions that fail only as duplicates lose nothing. */
  lemma OnlyFailedPutsLose(q: Queues, step: Step)
    requires Possible(q, step)
    ensures Lost(q, step) != {} ==> FailsAndDeletes(step)
  {
  }

  // ---------- where a transfer is ----------

  /** Which table holds a transfer after the work on its entry of the retry table. */
  lemma HandledIsWhere(q: Queues, v: Transfer, submit: SubmitReply, put: PutReply, deleteFails: bool)
    requires q.Valid() && Possible(q, Handle(v, submit, put, deleteFails))
    ensures var q' := After(q, Handle(v, submit, put, deleteFails));
      && (v in q'.retry <==> submit == SubmitError || deleteFails) && q'.retry - {v} == q.retry - {v}
      && (submit.Submitted? ==> submit.polyTx in q'.carried && q'.carried[submit.polyTx] == v)
      && (submit.Submitted? && put == Stored ==> submit.polyTx in q'.check && q'.check[submit.polyTx] == v)
      && (!submit.Submitted? ==> q'.check == q.check && q'.carried == q.carried)
      && (submit.Submitted? && put == PutFailed ==> q'.check == q.check)
      && (forall k :: k in q.check ==> k in q'.check && q'.check[k] == q.check[k])
      && (forall k :: k in q'.check && k !in q.check ==> submit == Submitted(k) && put == Stored)
      && q'.done == q.done
  {
  }

  /** The same after the work on an entry of the check table. */
  lemma CheckedIsWhere(q: Queues, k: string, event: EventReply, put: PutReply, deleteFails: bool)
    requires q.Valid() && Possible(q, Check(k, event, put, deleteFails))
    ensures var q', v := After(q, Check(k, event, put, deleteFails)), q.check[k];
      && (k in q'.check <==> event == NoEvent || deleteFails) && q'.check - {k} == q.check - {k}
      && (event != NotSucceeded ==> q'.retry == q.retry)
      && (event == NotSucceeded && put == Stored ==> v in q'.retry) && q'.retry - {v} == q.retry - {v}
      && (v in q'.retry ==> v in q.retry || (event == NotSucceeded && put == Stored))
      && q'.carried == q.carried && q'.done == q.done
  {
  }

  /** The Poly transactions that carry a transfer, and those of them still to be checked. */
  function Carriers(q: Queues, t: Transfer): set<string> {
    set k | k in q.carried && q.carried[k] == t
  }

  function Unchecked(q: Queues, t: Transfer): set<string> {
    set k | k in q.check && q.check[k] == t
  }

  /** Fetched and not submitted. */
  ghost predicate ToSubmit(q: Queues, t: Transfer) {
    t in q.retry && Carriers(q, t) == {} && Unchecked(q, t) == {} && t !in q.done
  }

  /** Submitted in the one transaction `k` and not checked. */
  ghost predicate ToCheck(q: Queues, t: Transfer, k: string) {
    t !in q.retry && Carriers(q, t) == {k} && Unchecked(q, t) == {k}
  }

  /** Done on Poly by the one transaction `k`, and checked. */
  ghost predicate Finished(q: Queues, t: Transfer, k: string) {
    t !in q.retry && Carriers(q, t) == {k} && Unchecked(q, t) == {} && t in q.done
  }

  ghost predicate NotSeen(q: Queues, t: Transfer) {
    t !in q.retry && Carriers(q, t) == {} && Unchecked(q, t) == {} && t !in q.done
  }

  /** How often the steps submit a transfer, and how often they fetch it. */
  function Submissions(steps: seq<Step>, t: Transfer): nat {
    if steps == [] then 0
    else
      var last := steps[|steps| - 1];
      Submissions(steps[..|steps| - 1], t) + if last.Handle? && last.v == t && last.submit.Submitted? then 1 else 0
  }

  function Fetches(steps: seq<Step>, t: Transfer): nat {
    if steps == [] then 0
    else
      var last := steps[|steps| - 1];
      Fetches(steps[..|steps| - 1], t) + if last.Fetch? && last.t == t && last.put == Stored then 1 else 0
  }

  /** No statement on the tables fails, and no transaction turns out not to have succeeded. */
  predicate Smooth(step: Step) {
    match step
    case Fetch(_, _) => true
    case Handle(_, submit, put, deleteFails) => !deleteFails && (submit.Submitted? ==> put == Stored)
    case Check(_, event, _, deleteFails) => !deleteFails && event != NotSucceeded
    case Execute(_) => true
  }

  /** What of the transfer has happened so far: it has been fetched and submitted so many times. */
  ghost predicate Progress(q: Queues, t: Transfer, fetches: nat, submissions: nat) {
    || (NotSeen(q, t) && fetches == 0 && submissions == 0)
    || (ToSubmit(q, t) && fetches == 1 && submissions == 0)
    || ((exists k :: ToCheck(q, t, k) || Finished(q, t, k)) && fetches == 1 && submissions == 1)
  }

  lemma ProgressHandled(q: Queues, t: Transfer, step: Step, n: nat)
    requires q.Valid() && Possible(q, step) && Smooth(step) && step.Handle? && Progress(q, t, 1, n)
    ensures Progress(After(q, step), t, 1, if step.v == t && step.submit.Submitted? then n + 1 else n)
  {
    var q' := After(q, step);
    if step.v == t && step.submit.Submitted? {
      var k := step.submit.polyTx;
      assert k !in q.carried by {
        assert k in q.carried ==> k in Carriers(q, t);
      }
      assert ToCheck(q', t, k);
    } else {
      assert step.v == t ==> step.submit == SubmitError;
      assert Carriers(q', t) == Carriers(q, t) && Unchecked(q', t) == Unchecked(q, t) by {
        OtherSubmitted(q, t, step);
      }
      PlaceKept(q, q', t);
    }
  }

  /** A transfer submitted before is where it was, if its transactions, its checks and its retry are as before. */
  lemma PlaceKept(q: Queues, q': Queues, t: Transfer)
    requires Carriers(q', t) == Carriers(q, t) && Unchecked(q', t) == Unchecked(q, t)
    requires (t in q'.retry <==> t in q.retry) && (t in q.done ==> t in q'.done)
    ensures forall k :: (ToCheck(q, t, k) ==> ToCheck(q', t, k)) && (Finished(q, t, k) ==> Finished(q', t, k))
  {
  }

  lemma OtherSubmitted(q: Queues, t: Transfer, step: Step)
    requires q.Valid() && Possible(q, step) && step.Handle? && (step.v == t ==> !step.submit.Submitted?)
    ensures Carriers(After(q, step), t) == Carriers(q, t) && Unchecked(After(q, step), t) == Unchecked(q, t)
  {
    if step.submit.Submitted? {
      var k := step.submit.polyTx;
      assert k in q.carried ==> q.carried[k] != t;
      assert k in q.check ==> q.check[k] != t;
    }
  }

  lemma ProgressChecked(q: Queues, t: Transfer, step: Step, m: nat, n: nat)
    requires q.Valid() && Possible(q, step) && Smooth(step) && step.Check? && Progress(q, t, m, n)
    ensures Progress(After(q, step), t, m, n)
  {
    var q' := After(q, step);
    assert Carriers(q', t) == Carriers(q, t);
    if q.check[step.k] == t {
      assert step.k in Unchecked(q, t);
      assert ToCheck(q, t, step.k);
      if step.event == Succeeded {
        assert Unchecked(q', t) == {};
        assert Finished(q', t, step.k);
      }
    } else {
      assert Unchecked(q', t) == Unchecked(q, t);
      PlaceKept(q, q', t);
    }
  }

  lemma ProgressOtherwise(q: Queues, t: Transfer, step: Step, m: nat, n: nat)
    requires q.Valid() && Possible(q, step) && (step.Execute? || step.Fetch?) && Progress(q, t, m, n)
    requires step.Fetch? && step.t == t && step.put == Stored ==> m == 0
    ensures Progress(After(q, step), t, if step.Fetch? && step.t == t && step.put == Stored then m + 1 else m, n)
  {
    var q' := After(q, step);
    assert Carriers(q', t) == Carriers(q, t) && Unchecked(q', t) == Unchecked(q, t);
    if step.Execute? && q.carried[step.polyTx] == t {
      assert step.polyTx in Carriers(q, t);
    }
    if n > 0 {
      PlaceKept(q, q', t);
    }
  }

  lemma HandledWasFetched(q: Queues, t: Transfer, step: Step, m: nat, n: nat)
    requires Possible(q, step) && step.Handle? && Progress(q, t, m, n) && m == 0
    ensures step.v != t
  {
  }

  /**
   In every run from the empty tables in which no statement fails and every transaction succeeds, a transfer
   fetched once is in exactly one place: to be submitted, never submitted so far; to be checked, submitted
   once; or done and in neither table, submitted once.
   */
  lemma {:induction false} ExactlyOnce(states: seq<Queues>, steps: seq<Step>, k: nat, t: Transfer)
    requires Run(states, steps) && states[0] == Queues({}, map[], map[], {}) && k < |states|
    requires (forall n :: 0 <= n < k ==> Smooth(steps[n])) && Fetches(steps[..k], t) <= 1
    ensures Progress(states[k], t, Fetches(steps[..k], t), Submissions(steps[..k], t))
  {
    if k > 0 {
      var q, step := states[k - 1], steps[k - 1];
      assert steps[..k][..k - 1] == steps[..k - 1];
      ExactlyOnce(states, steps, k - 1, t);
      AlwaysValid(states, steps, k - 1);
      assert states[k - 1 + 1] == After(q, step) && Smooth(step);
      var m, n := Fetches(steps[..k - 1], t), Submissions(steps[..k - 1], t);
      hide Progress;
      OneMoreStep(q, t, step, m, n);
    }
  }

  lemma OneMoreStep(q: Queues, t: Transfer, step: Step, m: nat, n: nat)
    requires q.Valid() && Possible(q, step) && Smooth(step) && Progress(q, t, m, n) && m <= 1
    requires step.Fetch? && step.t == t && step.put == Stored ==> m == 0
    ensures Progress(After(q, step), t, if step.Fetch? && step.t == t && step.put == Stored then m + 1 else m,
                     if step.Handle? && step.v == t && step.submit.Submitted? then n + 1 else n)
  {
    hide After, Smooth;
    match step
    case Handle(_, _, _, _) =>
      if m == 0 {
        HandledWasFetched(q, t, step, m, n);
        NotSeenHandled(q, t, step);
      } else {
        ProgressHandled(q, t, step, n);
      }
    case Check(_, _, _, _) => ProgressChecked(q, t, step, m, n);
    case _ => ProgressOtherwise(q, t, step, m, n);
  }

  lemma NotSeenHandled(q: Queues, t: Transfer, step: Step)
    requires q.Valid() && Possible(q, step) && step.Handle? && step.v != t && NotSeen(q, t)
    ensures NotSeen(After(q, step), t)
  {
    OtherSubmitted(q, t, step);
  }

  // ---------- the manager ----------

  class StarcoinManager {
    var retryTx: set<Transfer>
    var checkTx: map<string, Transfer>
    /** Poly's side: what its transactions carry, and what is done. */
    ghost var carried: map<string, Transfer>
    ghost var done: set<Transfer>

    ghost function View(): Queues
      reads this
    {
      Queues(retryTx, checkTx, carried, done)
    }

    constructor ()
      ensures View() == Queues({}, map[], map[], {})
    {
      retryTx, checkTx, carried, done := {}, map[], map[], {};
    }

    /** `PutStarcoinTxRetry` of a fetched event; a duplicate is an error, and the block is fetched again. */
    method FetchLockDepositEvent(t: Transfer, put: PutReply) returns (ok: bool)
      modifies this`retryTx
      ensures View() == After(old(View()), Fetch(t, put))
      ensures ok <==> put == Stored && t !in old(retryTx)
    {
      if t in retryTx || put == PutFailed {
        return false;
      }
      retryTx := retryTx + {t};
      ok := true;
    }

    /** One entry of the retry table. */
    method HandleLockDepositEvent(v: Transfer, submit: SubmitReply, put: PutReply, deleteFails: bool)
      requires Possible(View(), Handle(v, submit, put, deleteFails))
      modifies this`retryTx, this`checkTx, this`carried
      ensures View() == After(old(View()), Handle(v, submit, put, deleteFails))
    {
      if submit == SubmitError {
        return;
      }
      if submit.Submitted? {
        carried := carried[submit.polyTx := v];
        if put == Stored && submit.polyTx !in checkTx {
          checkTx := checkTx[submit.polyTx := v];
        }
      }
      if !deleteFails {
        retryTx := retryTx - {v};
      }
    }

    /** One entry of the check table: a transaction that did not succeed sends its transfer back to be retried. */
    method CheckLockDepositEvent(k: string, event: EventReply, put: PutReply, deleteFails: bool)
      requires Possible(View(), Check(k, event, put, deleteFails))
      modifies this`retryTx, this`checkTx
      ensures View() == After(old(View()), Check(k, event, put, deleteFails))
    {
      if event == NoEvent {
        return;
      }
      if event == NotSucceeded {
        if put == Stored {
          retryTx := retryTx + {checkTx[k]};
        }
      }
      if !deleteFails {
        checkTx := checkTx - {k};
      }
    }
  }
}
