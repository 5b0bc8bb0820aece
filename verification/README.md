# Poly–Starcoin relayer: model and proofs

The relayer carries transactions between Poly and Starcoin. This project models three connected
pieces of it in Dafny, with four smaller ones beside them, and proves what they promise.

**The sparse Merkle tree** (`Bytes`, `SparseMerkle`, `SmtUpdate`, `SmtUnique`, `PathSets`). The tree of
a finite map of paths is defined by recursion on path bits. `UpdateRootByPath`, which climbs from a leaf
through a list of side nodes and never sees the tree, is proved to return the root of the updated
tree. The digest is a parameter: any function of fixed width that never gives the all-zero
placeholder. No function of fixed width is injective, and none is assumed to be: two different trees with
equal roots are shown to contain two different inputs with the same digest. What the run theorems
suppose about collisions is stated below; it concerns only the trees a run builds.

**The queue** (`PolyTxs`, `PolyTxTable`, `MySqlDb`). Rows of `poly_tx` in the order of `tx_index`,
each with the root of the tree of all earlier rows and a proof that its own path is absent from it. The class
`MySqlDB` changes the tables in place, statement by statement. The external `csmt` trees are represented
by the set of paths each root stands for.

**The run** (`Relay` and the `Relay…` modules). Goroutines that read a row and later write it back under a
condition, the Starcoin chain, the operator and the clock, interleaved in any order. `RelayInvariant` says
what every reachable state satisfies of roots, proofs and the chain, the `…Steps` modules, `RelayInsertion` and
`RelayRemoval` show that every step keeps it, and the theorems follow in `RelayTheorems` and `RelayQueue`.
`RelayLedger` says what holds of rows, stamps, keys and goroutines whatever the digest does, and
`RelayUpdates`, `RelayKeys`, `RelayWrites` and `RelayOperator` draw the consequences. `RelayAnyRun` restates the
theorems for every run with no hypothesis on collisions: what they say holds, or two inputs hashed for trees of the
run collide.
`RelayHazards` says what exactly can go wrong where the code leaves a condition open, and `RelayWitness` and
`RelayOvertaking`, on top of the stretches of runs in `RelayRuns`, give runs in which it does.
`RelayProgress` builds runs in which any number of transactions is executed and processed, and `DigestTable` and
`RelayCapacity` show that the hypothesis on collisions can be met for them: for any distinct transactions, up
to as many as the column of indices has values, there is a digest of 32 bytes without a collision.

**Beside them**: the Starcoin-to-Poly header synchroniser (`HeaderSync`) and its retry and check tables
(`TransferQueues`), sequence numbers (`SeqNumManager`), the cap on gas subsidies (`GasSubsidies`),
integers in limbs (`Limbs`).

## Assumptions

Hypotheses of the theorems about runs, which the code does not enforce:

- Starcoin's contract is not part of the repository. A submitted transaction carries path, root and proof;
  it is executed only if its root is the contract's own, and the contract then computes its next root from
  that proof (the arguments are those of manager/polymanager.go:1553-1562).
- Theorems that take a `Config` suppose a family `trees` of sets of paths. It holds the empty set and, for each
  proof derived in the run (at a put, a push-back or a new derivation), two sets: the paths in the tree
  the proof is derived from, and these with the row's own path (`Relay.Built`). Nothing else need be in it; in
  particular not all subsets of the paths queued. No two different inputs hashed for trees of the family
  have the same digest (`PathSets.CollisionFree`). `RelayAnyRun.OwnTrees` takes for `trees` exactly the trees
  of the run, and `RelayAnyRun.PromisedOrCollides` turns the hypothesis into an alternative of the conclusion.
  The theorems of `RelayUpdates`, `RelayKeys`, `RelayWrites` and `RelayOperator` need neither this nor anything else
  of the digest.
- Deriving a proof again reads and saves the whole row in one step; so does a sweep
  (db/mysqldb.go:754-768, 575-601). That the previous row has a root is not supposed: a tree with an empty root
  cannot be imported (`RelayQueueSteps.HasRoot`).
- A put, which reads the last row first and inserts later, inserts its row only while it fits: no row behind it
  has a root, and a root of its own is the inclusion root of the row now before it. Any steps may lie
  between, removals included. A query just before the INSERT could check this. It is exactly what keeps
  the roots right (`RelayTheorems.InsertionKeepsRoots`); a run in which a row is inserted that does not fit
  ends with transactions executed out of queue order (`RelayOvertaking.MisfitOvertakes`).
- When a removal compares the roots, no submission of its row with a root is pending, and no goroutine is on its
  way to make one: holding the row with a root for sending, having claimed it, or about to read it again
  with a root in hand. Other goroutines may hold the row. What exactly can be executed otherwise is said by
  `RelayHazards.PendingOutlivesRemoval`, `QueuedOutlivesRemoval` and `HolderOutlivesRemoval`, and for a
  goroutine about to read the row again by the run of `RelayWitness.ReturnedRowOvertakes`.
- At the removal itself, open puts of the same transaction go behind every row a submission of which, held or
  pending, counts this transaction among those executed before (`Relay.PutsBehind`). This is exactly what
  keeps the invariant (`RelayRemoval.RemovalKeepsInvariant`); without it, execution can leave queue order
  although every put fits when it is inserted (`RelayOvertaking.PutAgainOvertakes`).
- Stamps in `updated_at` are distinct and increasing; removals are made by one goroutine.

## Model

| member | source | states |
|---|---|---|
| Bytes.CountCommonPrefix | smt/smt.go:170-180 | the loop counts the longest common bit prefix; of two paths of one length, read as big-endian numbers, the count is exactly how many leading binary digits they share, and the first digit they differ in says which is smaller |
| Bytes.BitIsBinaryDigit | smt/smt.go:182-188 | the bits read are the binary digits of the bytes as a big-endian number, most significant first |
| SmtUpdate.UpdateRootByPath | smt/smt.go:20-118 | the bottom-up loop returns the root of every tree whose slot of the path shows these side nodes and this old leaf, after the value is put there |
| SmtUpdate.UpdatedRootIsTreeRoot | smt/smt.go:20-118 | empty slot, foreign leaf and own leaf alike: the climb from a proved slot yields the recursively defined root of the updated map |
| SmtUpdate.ClimbForeign | smt/smt.go:42-112 | a foreign leaf sharing a prefix: splitting and padding with placeholders up to the split gives the subtree of both entries |
| SmtUpdate.ClimbOwn | smt/smt.go:42-112 | with an empty slot or the path's own old leaf, the climb skips levels without side nodes and gives the lone leaf |
| SmtUpdate.ClimbInner | smt/smt.go:81-112 | at an inner node one more side node is consumed, indexed from the bottom of the tree |
| SmtUnique.EqualRootsCollide | smt/smt.go:128-164 | two different maps with the same root yield two different hashed inputs with the same digest |
| SmtUnique.EqualRootsEqualContents | smt/smt.go:128-164 | without such a collision, roots are equal exactly when the maps are |
| SmtUnique.LeafAndNodeCollide | smt/smt.go:16-17 | a leaf hash equal to a node hash is a collision, because of the two prefixes |
| PathSets.SameRootSameSet | manager/polymanager.go:574-574 | comparing the roots of two trees of a family without collisions decides equality of their sets of paths |
| PathSets.RootOfOne | db/mysqldb.go:24-25 | the root of a single path is the leaf over the path and the hash of the one byte 1 |
| PathSets.InclusionRoot | db/models.go:317-337 | the root computed from a stored proof of absence is the root of the set with the path added |
| PathSets.FoldedRootIsSetRoot | smt/smt.go:20-118 | folding inserts from the empty tree gives the root of the set inserted |
| PathSets.FoldOrderIrrelevant | smt/smt.go:20-118 | the same paths inserted in any order, with any repetition, give the same root |
| PolyTxs.ConcatKeyInjective | db/models.go:293-298 | what is hashed into a path determines chain id and transaction hash, and conversely |
| PolyTxs.ConcatKeyRead | db/models.go:293-298 | chain id and transaction hash can be read back: eight bytes and a length prefix, each least significant byte first, and the hash |
| PolyTxs.VarUintPrefixFree | db/models.go:293-298 | the length prefix of variable bytes can be read back whatever follows |
| PolyTxs.ReturnedRow | db/models.go:174-218 | a removed row put back has every field it had, but for its index, its root and its stamp |
| PolyTxTable.Previous | db/mysqldb.go:305-320 | the row found is the last one before the index, and none is found only if there is none |
| RelayTheorems.NextOk | manager/polymanager.go:1443-1503 | every step of every actor keeps the invariant of the run |
| RelayAnyRun.OwnTrees | smt/smt.go:128-164 | every run is a run within the family of the trees it builds, and this family satisfies the hypothesis of the theorems unless two inputs hashed for its trees have one digest |
| RelayAnyRun.PromisedOrCollides | manager/polymanager.go:1443-1572 | in every state of every run, with no hypothesis on collisions: executed paths are those of the rows before some index, once each and in queue order, processed rows have been executed and roots are those of the earlier rows, or different inputs with one digest were hashed for trees of the run |
| RelayTheorems.ExecutedIsPrefix | manager/polymanager.go:1443-1572 | in every state of every run the executed paths are those of the rows before some index, none executed twice |
| RelayQueue.ExecutedInQueueOrder | manager/polymanager.go:1443-1572 | paths are executed in the order of their rows |
| RelayTheorems.ProcessedWasExecuted | db/mysqldb.go:420-443 | a row is marked processed only if it has been executed, whoever marks it: confirmation, timed-out check, matching root or sweep |
| RelayWriteSteps.SweptRow | db/mysqldb.go:575-601 | the sweep before an executed row marks only executed rows |
| RelayLocalSteps.MatchMeansExecuted | manager/polymanager.go:622-647 | a row whose inclusion root is a root the contract has had was executed |
| RelayTheorems.RootsDescribeQueue | db/mysqldb.go:603-656 | rows with a root come first, each root is that of exactly the earlier rows, and the stored proof shows the row's own path absent |
| RelayTheorems.InclusionRootsAgree | db/models.go:317-337 | the root recomputed from the stored proof is the tree's, that of the earlier rows and the row itself |
| RelayTheorems.RootCheckDecides | manager/polymanager.go:148-177 | the inclusion root of a row equals the contract's root exactly when this row is the last one executed |
| RelayLedger.LedgerStep | db/mysqldb.go:445-467 | every step keeps distinct keys, increasing stamps, what goroutines have read and that one removes at a time, whatever digest there is and whatever trees are built |
| RelayUpdates.ReclaimsAreApart | db/mysqldb.go:360-391 | a successful claim of a row being processed without a hash stamps it more than 120000 ms after its last write |
| RelayUpdates.NotPickedEarly | db/mysqldb.go:469-513 | a row written less than two minutes ago is neither sent again nor checked |
| RelayUpdates.OneWinner | db/mysqldb.go:445-467 | once one of several updates that had read a row has written it, none of the others ever takes effect |
| RelayUpdates.SettledForGood | db/mysqldb.go:340-467 | a processed or confirmed row keeps place and status through every run, but for the operator's mark |
| RelayWrites.AppliedWrite | db/mysqldb.go:340-443 | in every run, what an update that takes effect leaves: one row rewritten and how, a claim counted as one more try, a recorded hash of a submission of the row's path, a confirmed row processed with the hash of a submission of its path that was executed, or rejected where the roots matched |
| RelayWrites.ClaimedGoesOn | manager/polymanager.go:1443-1503 | in every run, a row claimed without a root is not sent before its proof has been derived against the row now before it and the row has been read again; one claimed with a root is sent as it was claimed |
| RelayWrites.FailedWrite | db/mysqldb.go:420-467 | in every run, an update that finds its row changed leaves all rows as they are and ends its goroutine, but one that was to mark a row processed goes on to sweep all the same |
| RelayWrites.RecordedHashes | db/mysqldb.go:393-418 | in every state of every run a row's path is that of its key, and its hash that of a submission of this path |
| RelayWrites.HashesStep | manager/polymanager.go:1443-1572 | every step keeps truthful the paths and hashes of rows, of removed rows and of what goroutines hold, whatever digest there is |
| RelayWrites.SweepExactly | db/mysqldb.go:575-601 | a sweep may mark any ten rows among the fifty before its index that are processing, failed or timed out, and it marks exactly these, as processed |
| RelayUpdates.PickedRows | db/mysqldb.go:469-573 | what the monitors may do with a row left alone for two minutes, exactly: send an unsettled one again or check it unless it was claimed ten times, check a timed-out one, compare a failed or timed-out one of the last fifty-one indices with the chain, remove a marked one |
| RelayQueue.RemovedWasNotExecuted | manager/polymanager.go:558-586 | a removed row has not been executed, and Starcoin has executed exactly the rows before it |
| RelayQueue.RemovalUnblocks | db/mysqldb.go:633-656 | after a removal the next row's proof can be derived again, and its root is then exactly Starcoin's |
| RelayOperator.RemovedWasMarked | manager/polymanager.go:558-586 | in every run a row is removed only after the operator has marked the row at its index |
| RelayOperator.ReturnedWasMarked | manager/polymanager.go:550-556 | in every run a removed row is put back only after the operator has marked it |
| RelayKeys.KeysNeverLost | db/mysqldb.go:633-681 | a key once queued stays in `poly_tx` or `removed_poly_tx` through every run |
| RelayKeys.RemovalMovesKey | db/mysqldb.go:633-656 | a removal leaves the key among the removed rows only |
| RelayKeys.ReturnMovesKey | db/mysqldb.go:658-681 | a push-back whose last deletion succeeds leaves the key in the queue only |
| RelayQueueSteps.HasRoot | db/mysqldb.go:1099-1112 | where the tree of the previous row can be imported, that row has a root: the derivation need not be guarded |
| RelayQueueSteps.DerivedRow | db/mysqldb.go:754-814 | deriving again gives the row the root and proof against exactly the rows before it |
| RelayTheorems.InsertionKeepsRoots | db/mysqldb.go:603-631 | in every state of every run, the INSERT as the code performs it keeps the roots right if and only if no row behind the new one has a root and its own root, if any, is the inclusion root of the row now before it |
| RelayInsertion.FollowsIsRootOfEarlier | db/mysqldb.go:772-814 | a root is the inclusion root of the row before an index if and only if it stands for exactly the rows before that index and all of these have roots |
| RelayInsertion.FitsWhileAsRead | db/mysqldb.go:603-631 | a prepared row fits as long as no row behind it has a root and the row before it is still the one read, as it was read |
| RelayInsertion.InsertOk | db/mysqldb.go:603-631 | the insertion of a row that fits keeps the invariant, whatever happened since it was prepared, removals included |
| RelayLocalSteps.CheckedOk | manager/polymanager.go:185-279 | every check of a row picked as failed or timed out ends in an update of its status: processed only if its transaction was executed, failed only if that was rejected or the row is old, unknown exactly without a hash; it is never sent again from there |
| RelayChainSteps.ExecutableRow | manager/polymanager.go:1505-1572 | a pending submission with the contract's root, however stale its snapshot, is of the first row not yet executed, and proves its path absent |
| RelayChainSteps.NoExecutionBesideRemovable | manager/polymanager.go:574-579 | between the root comparison and the removal nothing can be executed |
| RelayRemoval.RemoveOk | db/mysqldb.go:633-656 | the removal keeps the invariant, whatever rows other goroutines hold and whatever puts of other transactions are open |
| RelayRemoval.RemovalKeepsInvariant | db/mysqldb.go:603-656 | the removal as the code performs it keeps the invariant if and only if each open put of the same transaction goes behind every row a submission of which counts that transaction |
| RelayHazards.PendingOutlivesRemoval | manager/polymanager.go:558-586 | when a row is removed whose root is Starcoin's, something can be executed next if and only if a submission of this row with this root is pending, and whatever is executed next is no longer queued |
| RelayHazards.QueuedOutlivesRemoval | manager/polymanager.go:558-586 | what a goroutine holding the row ready for sending submits after the removal can be executed if and only if it holds this root, and is then no longer queued |
| RelayHazards.HolderOutlivesRemoval | manager/polymanager.go:1443-1503 | a goroutine that has claimed the row, or derived it and is to read it again, gets on to hold it so, and its submission is executed after the removal |
| RelayWitness.RemovedRowExecutes | manager/polymanager.go:558-586 | a run in which a row is removed while its transaction is pending, and is executed afterwards |
| RelayWitness.ReturnedRowOvertakes | manager/polymanager.go:550-586 | a run in which a row is removed while a goroutine has yet to read it again, is put back behind another row, and is executed before that row |
| RelayOvertaking.MisfitOvertakes | db/mysqldb.go:603-631 | a run in which a row is inserted that does not fit any more, and is executed before a row ahead of it |
| RelayOvertaking.PutAgainOvertakes | db/mysqldb.go:603-656 | a run in which a row is removed while its transaction is being put again: although every put fits, a row is executed before one ahead of it |
| RelayProgress.AllExecute | manager/polymanager.go:1443-1503 | from the empty tables any transactions with different paths, however many, are put, claimed, submitted and executed in the order given, each after up to nine failed submissions; whether the sender sees the outcome, times out or the process restarts, each row ends processed with the hash of the submission that executed its path |
| DigestTable.SomeDigestIsCollisionFree | smt/smt.go:128-164 | for every family of trees and every choice of inputs to get the first digests, some digest of the given width has no collision between inputs hashed for these trees, if there are enough digests |
| RelayCapacity.AnyQueueIsServed | db/models.go:293-298 | for any distinct transactions, fewer than 2 to the 64th, some digest of 32 bytes meets the hypothesis on collisions, and a run under it executes and processes all of them in order |
| RelayCapacity.AnyFiveGoWrong | manager/polymanager.go:558-586 | for any five distinct transactions some digest of 32 bytes meets all that the runs of `RelayWitness` and `RelayOvertaking` ask of it, so these runs exist |
| MySqlDb.UpdateHitsOne | db/mysqldb.go:445-467 | undisturbed, the conditional update changes the row read if it has the expected status, and nothing else |
| MySqlDb.MySqlDB.OptimisticUpdatePolyTx | db/mysqldb.go:445-467 | the whole new table, and an error exactly when no row matches |
| MySqlDb.MySqlDB.SetPolyTxStatus | db/mysqldb.go:340-356 | new table and outcome in terms of the row with the key |
| MySqlDb.MySqlDB.SetPolyTxStatusProcessing | db/mysqldb.go:360-391 | when a claim succeeds, when it is refused and why, and the row it leaves |
| MySqlDb.MySqlDB.SetProcessingPolyTxStarcoinTxHash | db/mysqldb.go:393-418 | the hash is recorded exactly for a row being processed, and never an empty one |
| MySqlDb.MySqlDB.SetPolyTxStatusProcessed | db/mysqldb.go:420-443 | new table, and the index whose earlier rows are swept even if the update failed |
| MySqlDb.MySqlDB.UpdatePolyTransactionsToProcessedBeforeIndex | db/mysqldb.go:575-601 | the loop of whole-row saves marks exactly the rows listed whose save did not fail |
| MySqlDb.MySqlDB.SetPolyTxNonMembershipProof | db/mysqldb.go:772-814 | root, side nodes and leaf against the previous row's tree with that row put in; a proof of absence unless the path is in it |
| MySqlDb.MySqlDB.PutPolyTx | db/mysqldb.go:603-631 | the new table, the fields the new row has from the one put, its place, status and proof, and success exactly without a duplicate and with an importable or absent last root |
| MySqlDb.MySqlDB.UpdatePolyTxNonMembershipProofByIndex | db/mysqldb.go:754-768 | the row saved with its proof against the row before it, nothing else changed |
| MySqlDb.MySqlDB.RemovePolyTx | db/mysqldb.go:633-656 | at every failure point both tables are as before; on success the row has moved with all its fields, later roots are cleared and nothing else is changed; no key is lost |
| MySqlDb.MySqlDB.PushBackRemovePolyTx | db/mysqldb.go:658-681 | the whole new queue: all other rows unchanged, the new one last with key, payload, path, Starcoin hash and retry count of the removed one, newly created and with the proof of its place; exactly when the result is success; no key is lost, and the row is in both tables exactly when its insertion succeeded and its deletion failed |
| MySqlDb.RemovedAndGivenBack | db/models.go:174-218 | a removal followed by a push-back gives the row back at the end of the queue in all these fields, and can do so exactly if the last row left lacks a root or has an importable one |
| MySqlDb.MySqlDB.ComputePolyTxInclusionRootHash | db/mysqldb.go:735-752 | the tree's inclusion root, equal to the one computed from the stored proof |
| MySqlDb.RemovalKeepsKeys | db/models.go:174-195 | moving a row to the removed ones keeps the set of keys |
| MySqlDb.ReturnKeepsKeys | db/models.go:197-218 | moving it back keeps the set of keys, and the key is then in the queue alone |
| HeaderSync.ResetLeavesNoGap | manager/starcoinmanager.go:139-154 | dropping an over-long buffer and going back by its length leaves no gap if and only if the 64-bit subtraction does not wrap around |
| HeaderSync.BufferLongEnough | manager/starcoinmanager.go:139-154 | a buffer covering n consecutive heights has at least n headers, duplicates or not |
| HeaderSync.MissingMeansBuffered | manager/starcoinmanager.go:376-378 | if one height is missing on Poly, all later ones up to the current height are buffered |
| HeaderSync.FailingEventsWrap | manager/starcoinmanager.go:133-161 | a run in which it does: from height 3, with one header a batch, four failing fetches of events and a reset end at the largest 64-bit height |
| HeaderSync.ForkLeavesGap | manager/starcoinmanager.go:263-313 | whatever is buffered, a reorganisation of Starcoin leaves no gap if and only if it keeps the header at the last height not buffered or all heights are buffered; the buffered headers stay Starcoin's if and only if it keeps each of them |
| HeaderSync.StarcoinManager.Init | manager/starcoinmanager.go:99-112 | the start height, and that no gap is left exactly if it is below the genesis registered with Poly or Poly's header there is Starcoin's |
| HeaderSync.StarcoinManager.HandleBlockHeader | manager/starcoinmanager.go:328-379 | the header is buffered unless Poly is seen to have the same one; a failed read counts as not having it |
| HeaderSync.StarcoinManager.HandleNewBlock | manager/starcoinmanager.go:315-326 | the buffer gains the header last unless Poly is seen to have it, and no gap is left below the reorganisations whether or not fetching events fails |
| HeaderSync.StarcoinManager.CommitHeader | manager/starcoinmanager.go:217-261 | a commit is confirmed exactly with a record that stores every buffered header that is still Starcoin's, a refused one changes nothing, an unlinked one rolls back; no gap below the reorganisations in any case |
| HeaderSync.StarcoinManager.RollBackToCommAncestor | manager/starcoinmanager.go:263-313 | ends at a common ancestor not above the start, at most one height lower per failed read, so the highest one if no read fails; if no read fails, found exactly if there is one; once found, no gap is left at all, whatever was reorganised before |
| HeaderSync.StarcoinManager.TakeUp | manager/starcoinmanager.go:133-178 | the whole new state after one iteration of a tick: the reset of an over-long buffer and when it wraps around, a block or events that cannot be fetched, a block taken up with the height one more, and a full batch confirmed, refused or unlinked |
| HeaderSync.StarcoinManager.MonitorTick | manager/starcoinmanager.go:115-196 | appends, duplicates, failures, commits, resets and rollbacks of a tick leave no gap below the reorganisations unless the height wraps around, and stay nine blocks behind the node; if every block is fetched and every commit confirmed, the tick ends nine blocks behind the node with an empty buffer and every header on Poly |
| HeaderSync.HonestGoesWell | manager/starcoinmanager.go:115-196 | that all goes well is possible: it does whenever Poly has what came before, stores what it is sent and nothing fails |
| HeaderSync.StarcoinManager.MonitorChain | manager/starcoinmanager.go:115-196 | over any sequence of ticks and reorganisations, every height below all reorganisations since the last common ancestor found is on Poly or buffered; with no reorganisation since, every height is |
| TransferQueues.NothingLost | manager/starcoinmanager.go:633-748 | in every run a transfer once fetched is in the retry table, in the check table or done on Poly, as long as insertions followed by a successful deletion fail only as duplicates |
| TransferQueues.FailedPutLoses | manager/starcoinmanager.go:633-663 | a run in which a transfer is fetched, submitted, not recorded for checking, deleted, and so lost |
| TransferQueues.StepTracks | manager/starcoinmanager.go:633-748 | the exact set of transfers kept by a step: one is lost only when its insertion fails for want of anything but a duplicate, its deletion succeeds and it is nowhere else |
| TransferQueues.HandledIsWhere | manager/starcoinmanager.go:633-663 | which table holds a transfer after the work on it: no longer to be retried exactly if it was submitted or found done and its deletion succeeded, to be checked under its transaction if it was recorded |
| TransferQueues.CheckedIsWhere | manager/starcoinmanager.go:721-748 | a transaction with an outcome leaves the check table exactly if its deletion succeeds, and its transfer is to be retried again only if it did not succeed |
| TransferQueues.ExactlyOnce | manager/starcoinmanager.go:633-748 | in every run in which no statement fails and every transaction succeeds, a transfer fetched once is in exactly one place: to be submitted and never submitted, to be checked and submitted once, or done, in neither table and submitted once |
| TransferQueues.StarcoinManager.FetchLockDepositEvent | manager/starcoinmanager.go:512-518 | the tables after a fetched transfer is put into the retry table, a duplicate being an error |
| TransferQueues.StarcoinManager.HandleLockDepositEvent | manager/starcoinmanager.go:633-663 | the tables after one entry of the retry table is submitted, found done, or left |
| TransferQueues.StarcoinManager.CheckLockDepositEvent | manager/starcoinmanager.go:721-748 | the tables after one entry of the check table is found pending, successful or failed |
| SeqNumManager.TakeReturned | tools/seqnummanager.go:55-59 | taking the first returned number keeps the partition of [first, next), and it is the smallest one |
| SeqNumManager.TakeFresh | tools/seqnummanager.go:61-76 | a fresh number is held by nobody, and the partition is kept exactly unless counting wraps around in 64 bits |
| SeqNumManager.GiveBack | tools/seqnummanager.go:79-90 | appending a held number to the returned ones and sorting keeps the partition |
| SeqNumManager.CountBack | tools/seqnummanager.go:92-100 | counting back keeps the partition exactly if the counter is above the first number and the number counted back over is not among the returned ones |
| SeqNumManager.CountsBelowFirst | tools/seqnummanager.go:92-100 | a case in which it does not: on a fresh manager one number 5 is taken and counted back twice, and the counter is 4, below the first number |
| SeqNumManager.CountsOverReturned | tools/seqnummanager.go:92-100 | another: the number 5 is taken, returned and counted back over, and is then both the counter and a returned number |
| SeqNumManager.SeqNumManager.GetAccountSeqNum | tools/seqnummanager.go:51-77 | no number is handed out that a caller holds; the smallest returned one goes first; the new state |
| SeqNumManager.SeqNumManager.ReturnSeqNum | tools/seqnummanager.go:79-90 | the returned list is sorted and gains exactly the number given back |
| SeqNumManager.SeqNumManager.DecreaseAccountSeqNum | tools/seqnummanager.go:92-100 | the new state whenever the counter is not 0; it is sound exactly if the counter was above the first number and the number counted back over is not among the returned ones |
| Limbs.Uint256Exactness | manager/polyutil.go:89-98 | never more than the value of the limbs, and equal to it exactly when every limb below a non-zero higher one has eight significant bytes |
| Limbs.ShortLimbMisread | manager/polyutil.go:89-98 | the limbs 5, 1 are read as 261 instead of 2^64 + 5 |
| Limbs.Uint128RoundTrips | tools/starcoinutil.go:368-390 | the two conversions undo each other on all limb pairs, and on an integer exactly if it fits 128 bits |
| Limbs.Uint128Limbs | tools/starcoinutil.go:375-390 | cutting the bytes eight from the end gives quotient and remainder of the integer, truncated to limbs |
| GasSubsidies.TotalCapped | manager/polymanager.go:421-427 | capped rows pay an address less than three times the largest amount in all |
| GasSubsidies.PolyManager.CreateGasSubsidies | manager/polymanager.go:369-413 | every candidate nothing fails for has its row; a new row is for such a candidate, and its amount is not zero exactly if the address is not blacklisted, has enough and has fewer than three rows, and then from a tenth of the configured amount up to below it; drawing panics exactly for configured amounts below ten and from 2 to the 63rd on, which are negative as signed numbers |
| GasSubsidies.CountsRows | manager/polymanager.go:421-427 | what is compared with three is the number of rows of the address |
| GasSubsidies.AnyAmountDrawn | manager/polymanager.go:415-419 | every amount from a tenth of the configured one up to, but not reaching, ten tenths may be drawn |
| GasSubsidies.Randomized | manager/polymanager.go:415-419 | the amount drawn is at least a tenth of the configured one and less than all of it; drawing fails exactly below ten and from 2 to the 63rd on |

## Where code and documentation disagree

- db/db.go:19 defines the status CONFIRMED, but no code writes it; the theorems treat it like PROCESSED.
- The guard against the wrap-around of a reset, manager/starcoinmanager.go:145, is commented out; the model follows the code and states when it wraps.
- The error callback at manager/polymanager.go:667-670 uses an error that is still nil. The panic is not recovered and stops the whole process; in the run, all goroutines then end (`AFinish`), and the tables are as they were.

## Left out

- RelayTheorems.ExecutedIsPrefix: rests on the assumptions above; for the relay to Starcoin, reorganisations of Starcoin are not modelled.
- RelayUpdates.SettledForGood: excludes the operator, who may mark any row for removal by hand.
- RelayUpdates.PickedRows: the queries take one matching row in no stated order; any matching row may be the one.
- HeaderSync.StarcoinManager.MonitorTick: covers a finite list of node replies per tick; after a wrap-around nothing is claimed. Starcoin reorganises between iterations, not within one or during a rollback.
- HeaderSync.StarcoinManager.RollBackToCommAncestor: the loop past height 0, where the height wraps around, is cut off.
- TransferQueues.StarcoinManager.HandleLockDepositEvent: insertion and deletion are one step; proofs, confirmations and parsing of the entry are left to the reply.
- SeqNumManager.SeqNumManager.ReturnSeqNum: callers return only numbers they hold; the lock is taken for granted.
- MySqlDb.MySqlDB.RemovePolyTx: the row passed is still queued, as it is for the one goroutine that removes.
- The handlers of manager/polymanager.go are steps of a state machine over values, not methods of a class; their order within one goroutine is kept, their logging and sleeping is not.
- The `csmt` library and SHA3-256: the tree is the mathematical one and the digest a parameter; the stored nodes are a map from root to set of paths, and `Delete` does nothing.
- The columns SmtProofSiblingData, SmtProofBitMask, Version, CreatedAt and PolyTxHash, hexadecimal and JSON encodings, quote stripping in SQL.
- Confirmations before a row is marked by a matching root: any number is allowed.
- `sort.Sort` is represented by a sorting function, big.Int by natural numbers (negative ones are not considered).
- Gas subsidies after their creation, treasury monitoring, boltdb, wallets and signatures, REST and RPC clients, event filters and fee checks, `ParseAuditpath`, the BCS encoders: input/output, foreign code, or only easy members.
- The shared hasher object of smt/smt.go: the digest is a function, so concurrent use of the object is not considered.
