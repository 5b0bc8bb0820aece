/**
 Synchronising Starcoin block headers to Poly (manager/starcoinmanager.go). Starcoin's canonical chain
 and Poly's record of it are the environment: what each call to a node answers comes in as a list of
 replies, other relayers may extend Poly's record at any time, and Starcoin may reorganise its chain.
 */
module HeaderSync {
  import opened Bytes
  import opened Wrappers

  const USEFUL_BLOCK_NUM := 9

  datatype Header = Header(height: nat, hash: Bytes)

  /** Hash of Starcoin's header at each height; Poly was registered with the one at `genesis`. */
  datatype Starcoin = Starcoin(hashAt: nat -> Bytes, genesis: nat)

  /** Poly's record of Starcoin's main chain: header hash by height. */
  type Record = map<nat, Bytes>

  predicate OnPoly(chain: Starcoin, poly: Record, height: nat) {
    height in poly && poly[height] == chain.hashAt(height)
  }

  /** Headers are linked by hash: sharing one of them with Starcoin, Poly shares all before it. */
  predicate Linked(chain: Starcoin, poly: Record) {
    forall h :: h in poly && OnPoly(chain, poly, h) ==>
      h >= chain.genesis && forall j: nat :: chain.genesis <= j <= h ==> OnPoly(chain, poly, j)
  }

  /** What Poly shares with Starcoin it keeps. */
  predicate Extends(chain: Starcoin, poly: Record, poly': Record) {
    forall h :: h in poly && OnPoly(chain, poly, h) ==> OnPoly(chain, poly', h)
  }

  /** Below every reorganisation, if there was one: up to the last height before the lowest of them. */
  predicate Within(limit: Option<nat>, height: nat) {
    limit.Some? ==> height <= limit.value
  }

  /** A confirmed commit: Poly has stored every header sent that is still Starcoin's, and kept what it shared. */
  predicate Stores(chain: Starcoin, poly: Record, buffer: seq<Header>, limit: Option<nat>, poly': Record) {
    && Linked(chain, poly') && Extends(chain, poly, poly')
    && AllOnPoly(chain, poly', buffer, limit)
  }

  predicate AllOnPoly(chain: Starcoin, poly: Record, buffer: seq<Header>, limit: Option<nat>) {
    forall k :: 0 <= k < |buffer| && buffer[k].height >= chain.genesis && Within(limit, buffer[k].height) ==>
      OnPoly(chain, poly, buffer[k].height)
  }

  ghost predicate Buffered(buffer: seq<Header>, height: nat) {
    exists k :: 0 <= k < |buffer| && buffer[k].height == height
  }

  /** Buffered headers are Starcoin's own, below every reorganisation. */
  predicate Genuine(chain: Starcoin, buffer: seq<Header>, limit: Option<nat>) {
    forall k :: 0 <= k < |buffer| && Within(limit, buffer[k].height) ==>
      buffer[k].hash == chain.hashAt(buffer[k].height)
  }

  /** Every height up to the current one is buffered or on Poly with the same hash. */
  ghost predicate NoGap(chain: Starcoin, poly: Record, buffer: seq<Header>, currentHeight: nat) {
    forall h: nat :: chain.genesis <= h <= currentHeight ==> OnPoly(chain, poly, h) || Buffered(buffer, h)
  }

  /**
   The same below every reorganisation: a height is on Poly, or it and all later ones up to the current one
   are buffered, be it with headers that are Starcoin's no longer.
   */
  ghost predicate NoGapWithin(chain: Starcoin, poly: Record, buffer: seq<Header>, currentHeight: nat,
                              limit: Option<nat>) {
    forall h: nat, k: nat :: chain.genesis <= h <= k <= currentHeight && Within(limit, h) && !OnPoly(chain, poly, h) ==>
      Buffered(buffer, k)
  }

  /** Without a reorganisation the two are the same. */
  lemma NoGapAtAll(chain: Starcoin, poly: Record, buffer: seq<Header>, currentHeight: nat)
    requires Linked(chain, poly)
    ensures NoGapWithin(chain, poly, buffer, currentHeight, None) <==> NoGap(chain, poly, buffer, currentHeight)
  {
    if NoGap(chain, poly, buffer, currentHeight) {
      forall h: nat, k: nat | chain.genesis <= h <= k <= currentHeight && !OnPoly(chain, poly, h)
        ensures Buffered(buffer, k)
      {
        MissingMeansBuffered(chain, poly, buffer, currentHeight, h);
      }
    }
    if NoGapWithin(chain, poly, buffer, currentHeight, None) {
      forall h: nat | chain.genesis <= h <= currentHeight ensures OnPoly(chain, poly, h) || Buffered(buffer, h) {
        assert h <= h;
      }
    }
  }

  // ---------- resets ----------

  /** A buffer holding each of `n` consecutive heights is at least that long, repetitions or not. */
  lemma {:induction false} BufferLongEnough(buffer: seq<Header>, from: nat, n: nat)
    requires forall h: nat :: from <= h < from + n ==> Buffered(buffer, h)
    ensures |buffer| >= n
    decreases n
  {
    if n > 0 {
      var top := from + n - 1;
      assert Buffered(buffer, top);
      var rest := Without(buffer, top);
      forall h: nat | from <= h < from + n - 1 ensures Buffered(rest, h) {
        assert Buffered(buffer, h);
        OthersRemain(buffer, top, h);
      }
      BufferLongEnough(rest, from, n - 1);
    }
  }

  /** The buffer without the headers of one height. */
  function Without(buffer: seq<Header>, height: nat): (r: seq<Header>)
    ensures |r| <= |buffer| && (Buffered(buffer, height) ==> |r| < |buffer|)
  {
    if buffer == [] then []
    else if buffer[0].height == height then
      assert |Without(buffer[1..], height)| <= |buffer[1..]|;
      Without(buffer[1..], height)
    else
      assert Buffered(buffer, height) ==> Buffered(buffer[1..], height) by {
        if Buffered(buffer, height) {
          var k :| 0 <= k < |buffer| && buffer[k].height == height;
          assert buffer[1..][k - 1] == buffer[k];
        }
      }
      [buffer[0]] + Without(buffer[1..], height)
  }

  lemma {:induction false} OthersRemain(buffer: seq<Header>, height: nat, h: nat)
    requires Buffered(buffer, h) && h != height
    ensures Buffered(Without(buffer, height), h)
  {
    var k :| 0 <= k < |buffer| && buffer[k].height == h;
    if k > 0 {
      assert buffer[1..][k - 1] == buffer[k];
      OthersRemain(buffer[1..], height, h);
      if buffer[0].height != height {
        var rest := Without(buffer[1..], height);
        var j :| 0 <= j < |rest| && rest[j].height == h;
        assert Without(buffer, height)[j + 1] == rest[j];
      }
    } else {
      assert Without(buffer, height)[0] == buffer[0];
    }
  }

  /** `currentHeight - len(header4sync)` in 64 bits. */
  function Subtract(a: nat, b: nat): (r: nat)
    ensures r < UINT64_SIZE
    ensures b <= a < UINT64_SIZE ==> r == a - b
  {
    (a - b) % UINT64_SIZE
  }

  /**
   Dropping an over-long buffer and going back by its length leaves no gap exactly when the
   subtraction does not wrap around.
   */
  lemma ResetLeavesNoGap(chain: Starcoin, poly: Record, buffer: seq<Header>, currentHeight: nat)
    requires Linked(chain, poly) && NoGap(chain, poly, buffer, currentHeight)
    requires currentHeight < UINT64_SIZE && |buffer| < UINT64_SIZE && chain.genesis <= currentHeight
    requires forall h :: h in poly ==> h < UINT64_SIZE - |buffer|
    ensures NoGap(chain, poly, [], Subtract(currentHeight, |buffer|)) <==> |buffer| <= currentHeight
  {
    var back := Subtract(currentHeight, |buffer|);
    if |buffer| <= currentHeight {
      assert back == currentHeight - |buffer|;
      NoGapAtAll(chain, poly, buffer, currentHeight);
      GoBack(chain, poly, buffer, currentHeight, None);
      NoGapAtAll(chain, poly, [], back);
    } else {
      assert back == currentHeight - |buffer| + UINT64_SIZE;
      assert back !in poly && !Buffered([], back);
    }
  }

  lemma GoBack(chain: Starcoin, poly: Record, buffer: seq<Header>, currentHeight: nat, limit: Option<nat>)
    requires NoGapWithin(chain, poly, buffer, currentHeight, limit) && |buffer| <= currentHeight
    ensures NoGapWithin(chain, poly, [], currentHeight - |buffer|, limit)
  {
    var back := currentHeight - |buffer|;
    forall h: nat | chain.genesis <= h <= back && Within(limit, h) ensures OnPoly(chain, poly, h) {
      if !OnPoly(chain, poly, h) {
        BufferLongEnough(buffer, h, currentHeight - h + 1);
      }
    }
  }

  /** Nothing is shared above a height that is not. */
  lemma SharedBelow(chain: Starcoin, poly: Record, height: nat)
    requires Linked(chain, poly) && !OnPoly(chain, poly, height)
    ensures forall h: nat :: OnPoly(chain, poly, h) ==> h >= chain.genesis && (height >= chain.genesis ==> h < height)
  {
  }

  /** If one height is missing on Poly, linkage makes all later ones missing, hence buffered. */
  lemma MissingMeansBuffered(chain: Starcoin, poly: Record, buffer: seq<Header>, currentHeight: nat, h: nat)
    requires Linked(chain, poly) && NoGap(chain, poly, buffer, currentHeight)
    requires chain.genesis <= h <= currentHeight && !OnPoly(chain, poly, h)
    ensures forall k: nat :: h <= k <= currentHeight ==> Buffered(buffer, k)
  {
    forall k: nat | h <= k <= currentHeight ensures Buffered(buffer, k) {
      assert !OnPoly(chain, poly, k);
    }
  }

  // ---------- reorganisations ----------

  /** Starcoin reorganises: its headers below height `at` stay. */
  datatype Fork = Fork(hashAt: nat -> Bytes, at: nat)

  predicate Splits(chain: Starcoin, fork: Fork) {
    fork.at > chain.genesis && forall h: nat :: h < fork.at ==> fork.hashAt(h) == chain.hashAt(h)
  }

  function Lower(limit: Option<nat>, at: nat): Option<nat>
    requires at > 0
  {
    if limit.Some? && limit.value < at then limit else Some(at - 1)
  }

  lemma ForkKeeps(chain: Starcoin, fork: Fork, poly: Record, buffer: seq<Header>, currentHeight: nat,
                  limit: Option<nat>)
    requires Splits(chain, fork)
    ensures var chain', limit' := chain.(hashAt := fork.hashAt), Lower(limit, fork.at);
      && (Genuine(chain, buffer, limit) ==> Genuine(chain', buffer, limit'))
      && (NoGapWithin(chain, poly, buffer, currentHeight, limit) ==>
         NoGapWithin(chain', poly, buffer, currentHeight, limit'))
  {
    var chain', limit' := chain.(hashAt := fork.hashAt), Lower(limit, fork.at);
    forall h: nat | Within(limit', h) ensures Within(limit, h) && chain'.hashAt(h) == chain.hashAt(h) {
    }
  }

  /** The last height up to the current one that is not buffered. */
  ghost predicate LastUnbuffered(chain: Starcoin, buffer: seq<Header>, currentHeight: nat, top: nat) {
    && chain.genesis <= top <= currentHeight && !Buffered(buffer, top)
    && forall h: nat :: top < h <= currentHeight ==> Buffered(buffer, h)
  }

  /**
   Whatever is buffered, a reorganisation leaves no gap exactly if it keeps the header at the last height
   not buffered, or there is no such height. The buffered headers stay Starcoin's exactly if it keeps
   every one of them.
   */
  lemma ForkLeavesGap(chain: Starcoin, fork: Fork, poly: Record, buffer: seq<Header>, currentHeight: nat)
    requires Splits(chain, fork) && NoGap(chain, poly, buffer, currentHeight)
    requires Linked(chain.(hashAt := fork.hashAt), poly)
    ensures var chain' := chain.(hashAt := fork.hashAt);
      && (forall top: nat :: LastUnbuffered(chain, buffer, currentHeight, top) ==>
           (NoGap(chain', poly, buffer, currentHeight) <==> fork.hashAt(top) == chain.hashAt(top)))
      && ((forall h: nat :: chain.genesis <= h <= currentHeight ==> Buffered(buffer, h)) ==>
         NoGap(chain', poly, buffer, currentHeight))
      && (Genuine(chain, buffer, None) ==>
           (Genuine(chain', buffer, None) <==>
             forall k :: 0 <= k < |buffer| ==> fork.hashAt(buffer[k].height) == chain.hashAt(buffer[k].height)))
  {
    var chain' := chain.(hashAt := fork.hashAt);
    forall top: nat | LastUnbuffered(chain, buffer, currentHeight, top)
      ensures NoGap(chain', poly, buffer, currentHeight) <==> fork.hashAt(top) == chain.hashAt(top)
    {
      assert OnPoly(chain, poly, top);
      if fork.hashAt(top) == chain.hashAt(top) {
        assert OnPoly(chain', poly, top);
      }
    }
  }

  lemma ExtensionKeeps(chain: Starcoin, poly: Record, poly': Record, buffer: seq<Header>, currentHeight: nat,
                       limit: Option<nat>)
    requires Extends(chain, poly, poly') && NoGapWithin(chain, poly, buffer, currentHeight, limit)
    ensures NoGapWithin(chain, poly', buffer, currentHeight, limit)
  {
    forall h: nat | !OnPoly(chain, poly', h) ensures !OnPoly(chain, poly, h) {
    }
  }

  lemma ExtendsOn(chain: Starcoin, poly: Record, poly1: Record, poly2: Record)
    ensures Extends(chain, poly, poly)
    ensures Extends(chain, poly, poly1) && Extends(chain, poly1, poly2) ==> Extends(chain, poly, poly2)
  {
  }

  lemma NothingBuffered(chain: Starcoin, limit: Option<nat>)
    ensures Genuine(chain, [], limit)
  {
  }

  // ---------- replies ----------

  /** One iteration of the rollback loop: the read of Poly fails, Starcoin's node fails, or neither. */
  datatype Reply = StorageError | HeaderError | Fine

  /** Fetching a block; a failing read of Poly is taken as an empty answer. */
  datatype BlockReply = HeaderFails | Block(storageFails: bool, eventsFail: bool)

  /** Block and events are there. */
  predicate Fetched(reply: BlockReply) {
    reply.Block? && !reply.eventsFail
  }

  datatype CommitReply = Unlinked | Refused | Confirmed(record: Record)

  /**
   What the nodes answer in one iteration of the monitor, Starcoin having reorganised and Poly's record having
   moved on to `seen` before.
   */
  datatype Round = Round(fork: Option<Fork>, seen: Record, block: BlockReply, commit: CommitReply, rollBack: seq<Reply>)

  /** What a tick of the monitor meets. */
  datatype Tick = NodeFails | At(nodeHeight: nat, rounds: seq<Round>, last: Round)

  /** Starcoin does not reorganise meanwhile. */
  predicate Steady(rounds: seq<Round>) {
    forall k :: 0 <= k < |rounds| ==> rounds[k].fork == None
  }

  predicate SteadyTicks(ticks: seq<Tick>) {
    forall k :: 0 <= k < |ticks| && ticks[k].At? ==> Steady(ticks[k].rounds) && ticks[k].last.fork == None
  }

  /** The first block is fetched, but not its events. */
  predicate EventsFail(rounds: seq<Round>) {
    rounds != [] && rounds[0].block.Block? && rounds[0].block.eventsFail
  }

  function Errors(replies: seq<Reply>): nat {
    if replies == [] then 0
    else (if replies[|replies| - 1] == StorageError then 1 else 0) + Errors(replies[..|replies| - 1])
  }

  lemma {:induction false} ErrorsOfPrefix(replies: seq<Reply>, n: nat)
    requires n <= |replies|
    ensures Errors(replies[..n]) <= Errors(replies)
    ensures n < |replies| ==>
      Errors(replies[..n + 1]) == Errors(replies[..n]) + (if replies[n] == StorageError then 1 else 0)
    decreases |replies| - n
  {
    if n < |replies| {
      assert replies[..n + 1][..n] == replies[..n];
      ErrorsOfPrefix(replies, n + 1);
    } else {
      assert replies[..n] == replies;
    }
  }

  /** The buffer after fetching a block: its header comes last, unless none is fetched or Poly is seen to have it. */
  function WithBlock(chain: Starcoin, poly: Record, buffer: seq<Header>, height: nat, reply: BlockReply): seq<Header> {
    if reply.HeaderFails? || (!reply.storageFails && OnPoly(chain, poly, height)) then buffer
    else buffer + [Header(height, chain.hashAt(height))]
  }

  // ---------- a tick in which all goes well ----------

  /** Poly has every header up to this height. */
  ghost predicate CoversUpTo(chain: Starcoin, poly: Record, height: nat) {
    Linked(chain, poly) && forall h: nat :: chain.genesis <= h <= height ==> OnPoly(chain, poly, h)
  }

  /** The answers to the `k`th of `m` iterations, and after them to the commit behind the loop. */
  function AnswerAt(rounds: seq<Round>, last: Round, m: nat, k: nat): Round
    requires m <= |rounds|
  {
    if k < m then rounds[k] else last
  }

  /** The record the `k`th commit is confirmed with. */
  function RecordAt(rounds: seq<Round>, last: Round, m: nat, k: nat): Record
    requires m <= |rounds|
  {
    var commit := AnswerAt(rounds, last, m, k).commit;
    if commit.Confirmed? then commit.record else map[]
  }

  /**
   Taking up `m` blocks after height `start`, every block is fetched and every commit confirmed, with records
   that have all headers so far and only grow, those of other relayers included.
   */
  ghost predicate Cooperative(chain: Starcoin, start: nat, rounds: seq<Round>, last: Round, m: nat) {
    && m <= |rounds|
    && (forall k :: 0 <= k < m ==> Fetched(rounds[k].block))
    && (forall k :: 0 <= k <= m ==> var answer := AnswerAt(rounds, last, m, k);
         && answer.fork == None && answer.commit.Confirmed?
         && CoversUpTo(chain, RecordAt(rounds, last, m, k), start + if k < m then k + 1 else m))
    && (forall j, k :: 0 <= j <= k <= m ==>
         && Extends(chain, AnswerAt(rounds, last, m, j).seen, RecordAt(rounds, last, m, k))
         && Extends(chain, RecordAt(rounds, last, m, j), RecordAt(rounds, last, m, k)))
  }

  /** The records to come have all that Poly has. */
  ghost predicate Growing(chain: Starcoin, poly: Record, rounds: seq<Round>, last: Round, m: nat, n: nat) {
    m <= |rounds| && forall k :: n <= k <= m ==> Extends(chain, poly, RecordAt(rounds, last, m, k))
  }

  ghost predicate NoneAbove(buffer: seq<Header>, height: nat) {
    forall k :: 0 <= k < |buffer| ==> buffer[k].height <= height
  }

  /** After `n` of the `m` blocks. */
  ghost predicate OnTrack(chain: Starcoin, poly: Record, buffer: seq<Header>, height: nat, start: nat,
                          rounds: seq<Round>, last: Round, m: nat, n: nat) {
    && Cooperative(chain, start, rounds, last, m) && Growing(chain, poly, rounds, last, m, n)
    && n <= m && height == start + n && NoneAbove(buffer, if n == 0 then start + 1 else height)
    && (n > 0 && buffer == [] ==> CoversUpTo(chain, poly, height))
  }

  lemma ObservedOnTrack(chain: Starcoin, poly: Record, poly': Record, buffer: seq<Header>, height: nat, start: nat,
                        rounds: seq<Round>, last: Round, m: nat, n: nat)
    requires OnTrack(chain, poly, buffer, height, start, rounds, last, m, n) && Linked(chain, poly')
    requires poly' == poly || (poly' == AnswerAt(rounds, last, m, n).seen && Extends(chain, poly, poly'))
    ensures OnTrack(chain, poly', buffer, height, start, rounds, last, m, n)
  {
    hide Linked, OnPoly, RecordAt;
    forall k | n <= k <= m ensures Extends(chain, poly', RecordAt(rounds, last, m, k)) {
    }
    if n > 0 && buffer == [] {
      ExtensionCovers(chain, poly, poly', height);
    }
  }

  lemma ExtensionCovers(chain: Starcoin, poly: Record, poly': Record, height: nat)
    requires CoversUpTo(chain, poly, height) && Linked(chain, poly') && (poly' == poly || Extends(chain, poly, poly'))
    ensures CoversUpTo(chain, poly', height)
  {
    forall h: nat | chain.genesis <= h <= height ensures OnPoly(chain, poly', h) {
      assert OnPoly(chain, poly, h);
    }
  }

  /** The next block is put into the buffer. */
  lemma TakenOnTrack(chain: Starcoin, poly: Record, buffer: seq<Header>, buffer': seq<Header>, height: nat, start: nat,
                     rounds: seq<Round>, last: Round, m: nat, n: nat)
    requires OnTrack(chain, poly, buffer, height, start, rounds, last, m, n) && n < m && Linked(chain, poly)
    requires buffer' == WithBlock(chain, poly, buffer, height + 1, rounds[n].block)
    ensures OnTrack(chain, poly, buffer', height + 1, start, rounds, last, m, n + 1)
  {
    hide Cooperative, RecordAt, Extends;
    FetchedInTurn(chain, start, rounds, last, m, n);
    if buffer' == [] {
      assert OnPoly(chain, poly, height + 1);
    }
  }

  lemma FetchedInTurn(chain: Starcoin, start: nat, rounds: seq<Round>, last: Round, m: nat, n: nat)
    requires Cooperative(chain, start, rounds, last, m) && n < m
    ensures n < |rounds| && Fetched(rounds[n].block) && rounds[n].fork == None && rounds[n].commit.Confirmed?
    ensures rounds[n].commit.record == RecordAt(rounds, last, m, n)
  {
    assert AnswerAt(rounds, last, m, n) == rounds[n];
  }

  /** The commit in iteration `k`, or the one behind the loop, stores all that is buffered. */
  lemma CommitStores(chain: Starcoin, poly: Record, buffer: seq<Header>, start: nat, rounds: seq<Round>, last: Round,
                     m: nat, k: nat, limit: Option<nat>)
    requires Cooperative(chain, start, rounds, last, m) && k <= m && Growing(chain, poly, rounds, last, m, k)
    requires NoneAbove(buffer, start + if k < m then k + 1 else m)
    ensures AnswerAt(rounds, last, m, k).commit == Confirmed(RecordAt(rounds, last, m, k))
    ensures Stores(chain, poly, buffer, limit, RecordAt(rounds, last, m, k))
    ensures CoversUpTo(chain, RecordAt(rounds, last, m, k), start + if k < m then k + 1 else m)
    ensures Growing(chain, RecordAt(rounds, last, m, k), rounds, last, m, k)
  {
    hide Linked, OnPoly, Extends;
    assert AnswerAt(rounds, last, m, k).commit.Confirmed?;
  }

  /** A full batch has been committed. */
  lemma CommittedOnTrack(chain: Starcoin, poly: Record, buffer: seq<Header>, height: nat, start: nat,
                         rounds: seq<Round>, last: Round, m: nat, n: nat, limit: Option<nat>)
    requires OnTrack(chain, poly, buffer, height, start, rounds, last, m, n + 1) && n < m
    requires Growing(chain, poly, rounds, last, m, n)
    ensures rounds[n].commit.Confirmed? && Stores(chain, poly, buffer, limit, rounds[n].commit.record)
    ensures OnTrack(chain, rounds[n].commit.record, [], height, start, rounds, last, m, n + 1)
  {
    CommitStores(chain, poly, buffer, start, rounds, last, m, n, limit);
    FetchedInTurn(chain, start, rounds, last, m, n);
    hide Cooperative, Stores, CoversUpTo;
  }

  /** All goes well in a tick that has something to do: the buffer is short and `Cooperative` answers come. */
  ghost predicate GoesWell(nodeHeight: nat, chain: Starcoin, poly: Record, buffer: seq<Header>, height: nat, batch: nat,
                           rounds: seq<Round>, last: Round) {
    && height + 9 < nodeHeight && |buffer| <= 3 * batch && NoneAbove(buffer, height + 1) && Linked(chain, poly)
    && Cooperative(chain, height, rounds, last, nodeHeight - 9 - height)
    && Growing(chain, poly, rounds, last, nodeHeight - 9 - height, 0)
  }

  /** Starcoin's headers up to a height. */
  function UpTo(chain: Starcoin, height: nat): Record {
    map h: nat | chain.genesis <= h <= height :: chain.hashAt(h)
  }

  /** A round in which Poly stores exactly what it is sent. */
  function HonestRound(chain: Starcoin, seen: Record, height: nat): Round {
    Round(None, seen, Block(false, false), Confirmed(UpTo(chain, height)), [])
  }

  /** All goes well when Poly has what came before, stores what it is sent and nothing fails. */
  lemma HonestGoesWell(nodeHeight: nat, chain: Starcoin, height: nat, batch: nat, rounds: seq<Round>, last: Round)
    requires chain.genesis <= height && height + 9 < nodeHeight && |rounds| == nodeHeight - 9 - height
    requires forall k :: 0 <= k < |rounds| ==>
      rounds[k] == HonestRound(chain, UpTo(chain, height), height + k + 1)
    requires last == HonestRound(chain, UpTo(chain, height), nodeHeight - 9)
    ensures GoesWell(nodeHeight, chain, UpTo(chain, height), [], height, batch, rounds, last)
  {
    var m := |rounds|;
    hide Linked, Extends, CoversUpTo, UpTo;
    forall k | 0 <= k <= m
      ensures RecordAt(rounds, last, m, k) == UpTo(chain, height + if k < m then k + 1 else m)
    {
    }
    forall low: nat, high: nat | chain.genesis <= low <= high
      ensures CoversUpTo(chain, UpTo(chain, high), high) && Linked(chain, UpTo(chain, low))
      ensures Extends(chain, UpTo(chain, low), UpTo(chain, high))
    {
      HonestRecord(chain, low, high);
    }
  }

  lemma HonestRecord(chain: Starcoin, low: nat, high: nat)
    requires chain.genesis <= low <= high
    ensures CoversUpTo(chain, UpTo(chain, high), high) && Linked(chain, UpTo(chain, low))
    ensures Extends(chain, UpTo(chain, low), UpTo(chain, high))
  {
  }

  lemma StartsOnTrack(nodeHeight: nat, chain: Starcoin, poly: Record, buffer: seq<Header>, height: nat, batch: nat,
                      rounds: seq<Round>, last: Round)
    requires GoesWell(nodeHeight, chain, poly, buffer, height, batch, rounds, last)
    ensures height + 9 < nodeHeight && |buffer| <= 3 * batch
    ensures OnTrack(chain, poly, buffer, height, height, rounds, last, nodeHeight - 9 - height, 0)
  {
  }

  lemma MoreToDo(chain: Starcoin, poly: Record, buffer: seq<Header>, height: nat, start: nat, rounds: seq<Round>,
                 last: Round, m: nat, n: nat)
    requires OnTrack(chain, poly, buffer, height, start, rounds, last, m, n) && height < start + m
    ensures n < m <= |rounds| && Fetched(rounds[n].block) && rounds[n].fork == None && rounds[n].commit.Confirmed?
  {
    FetchedInTurn(chain, start, rounds, last, m, n);
  }

  /** One iteration, whether or not its block fills the batch. */
  lemma NextOnTrack(chain: Starcoin, before: Record, poly: Record, buffer: seq<Header>, height: nat, start: nat,
                    rounds: seq<Round>, last: Round, m: nat, n: nat, limit: Option<nat>)
    requires OnTrack(chain, before, buffer, height, start, rounds, last, m, n) && n < m <= |rounds|
    requires Linked(chain, poly) && (poly == before || (poly == rounds[n].seen && Extends(chain, before, poly)))
    ensures var buffer' := WithBlock(chain, poly, buffer, height + 1, rounds[n].block);
      && OnTrack(chain, poly, buffer', height + 1, start, rounds, last, m, n + 1)
      && rounds[n].commit.Confirmed? && Stores(chain, poly, buffer', limit, rounds[n].commit.record)
      && OnTrack(chain, rounds[n].commit.record, [], height + 1, start, rounds, last, m, n + 1)
  {
    ObservedOnTrack(chain, before, poly, buffer, height, start, rounds, last, m, n);
    var buffer' := WithBlock(chain, poly, buffer, height + 1, rounds[n].block);
    TakenOnTrack(chain, poly, buffer, buffer', height, start, rounds, last, m, n);
    assert Growing(chain, poly, rounds, last, m, n);
    hide OnTrack, WithBlock, Growing;
    CommittedOnTrack(chain, poly, buffer', height + 1, start, rounds, last, m, n, limit);
  }

  lemma AllTaken(chain: Starcoin, poly: Record, buffer: seq<Header>, height: nat, start: nat, rounds: seq<Round>,
                 last: Round, m: nat, n: nat)
    requires OnTrack(chain, poly, buffer, height, start, rounds, last, m, n) && (height >= start + m || n == m) && m > 0
    ensures n == m && height == start + m && last.fork == None && last.commit.Confirmed?
    ensures buffer == [] ==> CoversUpTo(chain, poly, height)
  {
    assert AnswerAt(rounds, last, m, m) == last;
  }

  lemma LastOnTrack(chain: Starcoin, before: Record, poly: Record, buffer: seq<Header>, height: nat, start: nat,
                    rounds: seq<Round>, last: Round, m: nat, limit: Option<nat>)
    requires OnTrack(chain, before, buffer, height, start, rounds, last, m, m) && m > 0
    requires Linked(chain, poly) && (poly == before || (poly == last.seen && Extends(chain, before, poly)))
    ensures last.commit.Confirmed? && Stores(chain, poly, buffer, limit, last.commit.record)
    ensures CoversUpTo(chain, last.commit.record, height)
  {
    assert AnswerAt(rounds, last, m, m) == last;
    ObservedOnTrack(chain, before, poly, buffer, height, start, rounds, last, m, m);
    CommitStores(chain, poly, buffer, start, rounds, last, m, m, limit);
    hide Cooperative, Growing, Stores, CoversUpTo;
  }

  // ---------- the manager ----------

  class StarcoinManager {
    const headersPerBatch: nat
    var header4sync: seq<Header>
    var currentHeight: nat
    /**
     The environment: Starcoin's canonical chain, Poly's storage as read by GetStorage, and the height
     below the lowest reorganisation since the two were last found to agree.
     */
    var chain: Starcoin
    var poly: Record
    var limit: Option<nat>

    ghost predicate Valid()
      reads this
    {
      Linked(chain, poly) && Genuine(chain, header4sync, limit) && |header4sync| <= 3 * headersPerBatch + 1
    }

    ghost predicate Gapless()
      reads this
    {
      NoGapWithin(chain, poly, header4sync, currentHeight, limit)
    }

    constructor (chain: Starcoin, headersPerBatch: nat, poly: Record)
      requires Linked(chain, poly)
      ensures Valid() && header4sync == [] && this.chain == chain && this.poly == poly && limit == None
      ensures this.headersPerBatch == headersPerBatch
    {
      this.chain, this.headersPerBatch, this.poly := chain, headersPerBatch, poly;
      header4sync, currentHeight, limit := [], 0, None;
    }

    /**
     Starts from Poly's height or an earlier forced one: without a gap exactly if Poly's header there is
     Starcoin's.
     */
    method Init(latestHeight: nat, forceHeight: nat) returns (ok: bool)
      requires Valid() && header4sync == [] && limit == None
      modifies this`currentHeight
      ensures Valid()
      ensures ok <==> latestHeight != 0
      ensures ok ==> currentHeight == if 0 < forceHeight < latestHeight then forceHeight else latestHeight
      ensures ok ==> (Gapless() <==> currentHeight < chain.genesis || OnPoly(chain, poly, currentHeight))
    {
      if latestHeight == 0 {
        return false;
      }
      if forceHeight > 0 && forceHeight < latestHeight {
        currentHeight := forceHeight;
      } else {
        currentHeight := latestHeight;
      }
      assert !Buffered([], currentHeight);
      ok := true;
    }

    /**
     Starcoin reorganises and others extend Poly's record; answers that do not fit what is linked by hash
     do not occur. Below the reorganisation nothing gets lost.
     */
    method Observe(fork: Option<Fork>, seen: Record)
      requires Valid()
      modifies this`chain, this`poly, this`limit
      ensures Valid() && (poly == old(poly) || poly == seen) && Extends(chain, old(poly), poly)
      ensures fork == None ==> chain == old(chain) && limit == old(limit)
      ensures (chain == old(chain) && limit == old(limit)) ||
        (fork.Some? && fork.value.at > 0 && chain == old(chain).(hashAt := fork.value.hashAt)
          && limit == Lower(old(limit), fork.value.at))
      ensures old(Gapless()) ==> Gapless()
    {
      hide NoGapWithin, Genuine;
      if fork.Some? && Splits(chain, fork.value) && Linked(chain.(hashAt := fork.value.hashAt), poly) {
        ForkKeeps(chain, fork.value, poly, header4sync, currentHeight, limit);
        chain := chain.(hashAt := fork.value.hashAt);
        limit := Lower(limit, fork.value.at);
      }
      if Linked(chain, seen) && Extends(chain, poly, seen) {
        if NoGapWithin(chain, poly, header4sync, currentHeight, limit) {
          ExtensionKeeps(chain, poly, seen, header4sync, currentHeight, limit);
        }
        poly := seen;
      }
    }

    /** The header is buffered unless Poly is seen to have it; a header buffered before may come a second time. */
    method HandleBlockHeader(height: nat, reply: BlockReply) returns (ok: bool)
      modifies this`header4sync
      ensures ok <==> reply != HeaderFails
      ensures !ok ==> header4sync == old(header4sync)
      ensures ok ==>
        header4sync == old(header4sync)
          + if !reply.storageFails && OnPoly(chain, poly, height) then [] else [Header(height, chain.hashAt(height))]
    {
      if reply.HeaderFails? {
        return false;
      }
      var hdr := Header(height, chain.hashAt(height));
      var raw := if !reply.storageFails && height in poly then Some(poly[height]) else None;
      if raw == None || raw.value != hdr.hash {
        header4sync := header4sync + [hdr];
      }
      ok := true;
    }

    method HandleNewBlock(height: nat, reply: BlockReply) returns (ok: bool)
      requires Valid() && Gapless() && |header4sync| <= 3 * headersPerBatch && height == currentHeight + 1
      modifies this`header4sync
      ensures Valid() && Gapless() && old(header4sync) <= header4sync
      ensures header4sync == WithBlock(chain, poly, old(header4sync), height, reply)
      ensures ok <==> reply.Block? && !reply.eventsFail
      ensures ok ==> NoGapWithin(chain, poly, header4sync, height, limit)
      ensures reply.Block? && !OnPoly(chain, poly, height) ==> |header4sync| == |old(header4sync)| + 1
    {
      var ret := HandleBlockHeader(height, reply);
      ghost var buffer := old(header4sync);
      forall h | Buffered(buffer, h) ensures Buffered(header4sync, h) {
        var k :| 0 <= k < |buffer| && buffer[k].height == h;
        assert header4sync[k].height == h;
      }
      if !ret {
        return false;
      }
      assert header4sync == WithBlock(chain, poly, buffer, height, reply);
      if !OnPoly(chain, poly, height) {
        assert header4sync[|buffer|].height == height;
      } else {
        // all earlier heights are on Poly too
        assert forall h: nat :: chain.genesis <= h <= height ==> OnPoly(chain, poly, h);
      }
      ok := !reply.eventsFail;
    }

    /**
     Goes back until Poly and Starcoin share the header; retries a height whose header cannot be
     fetched. Each failing read of Poly costs at most one height. A common ancestor found makes every earlier
     reorganisation irrelevant. `found` is false when the loop would pass height 0 and wrap around.
     */
    method RollBackToCommAncestor(replies: seq<Reply>) returns (found: bool)
      requires Valid()
      modifies this`currentHeight, this`header4sync, this`limit
      ensures Valid()
      ensures found ==> header4sync == [] && currentHeight <= old(currentHeight) && OnPoly(chain, poly, currentHeight)
      ensures found ==> limit == None && Gapless() && NoGap(chain, poly, header4sync, currentHeight)
      ensures forall h: nat :: h <= old(currentHeight) && OnPoly(chain, poly, h) ==>
        if found then h <= currentHeight + Errors(replies) else h < chain.genesis + Errors(replies)
      ensures found && replies != [] && replies[0] == StorageError ==> currentHeight < old(currentHeight)
      ensures Errors(replies) == 0 ==> (found <==> exists h: nat :: h <= old(currentHeight) && OnPoly(chain, poly, h))
    {
      var n := 0;
      assert replies[..0] == [];
      while true
        invariant 0 <= n <= |replies| && currentHeight <= old(currentHeight)
        invariant header4sync == old(header4sync) && limit == old(limit)
        invariant n > 0 && replies[0] == StorageError ==> currentHeight < old(currentHeight)
        invariant n == 0 && replies != [] ==> currentHeight == old(currentHeight)
        invariant forall h: nat :: h <= old(currentHeight) && OnPoly(chain, poly, h) ==>
          if currentHeight >= chain.genesis then h <= currentHeight + Errors(replies[..n])
          else h < chain.genesis + Errors(replies[..n])
        decreases currentHeight, |replies| - n
      {
        var reply := if n < |replies| then replies[n] else Fine;
        ErrorsOfPrefix(replies, n);
        if n < |replies| {
          n := n + 1;
        }
        if reply != StorageError && currentHeight in poly {
          if reply == HeaderError {
            continue;
          }
          if chain.hashAt(currentHeight) == poly[currentHeight] {
            assert OnPoly(chain, poly, currentHeight);
            header4sync := [];
            limit := None;
            ErrorsOfPrefix(replies, n);
            return true;
          }
        }
        if reply != StorageError {
          SharedBelow(chain, poly, currentHeight);
        }
        if currentHeight == 0 {
          ErrorsOfPrefix(replies, n);
          return false;
        }
        currentHeight := currentHeight - 1;
      }
    }

    /** `wrapped` when a rollback ran past height 0. */
    method CommitHeader(reply: CommitReply, replies: seq<Reply>) returns (code: nat, wrapped: bool)
      requires Valid() && Gapless()
      modifies this`header4sync, this`currentHeight, this`poly, this`limit
      ensures Valid() && Extends(chain, old(poly), poly)
      ensures !wrapped ==> Gapless() && currentHeight <= old(currentHeight) && limit in {None, old(limit)}
      ensures code == 0 && !wrapped ==> header4sync == []
      ensures code == 0 && !wrapped && reply == Unlinked ==> limit == None && OnPoly(chain, poly, currentHeight)
      ensures code != 0 ==>
        !wrapped && header4sync == old(header4sync) && currentHeight == old(currentHeight) && limit == old(limit)
      ensures reply == Unlinked ==> code == 0 && poly == old(poly)
      ensures reply == Unlinked && !wrapped ==>
        forall h: nat :: h <= old(currentHeight) && OnPoly(chain, poly, h) ==> h <= currentHeight + Errors(replies)
      ensures reply == Refused ==> code != 0 && poly == old(poly)
      ensures reply.Confirmed? ==>
        && !wrapped && currentHeight == old(currentHeight) && limit == old(limit)
        && (code == 0 <==> Stores(chain, old(poly), old(header4sync), limit, reply.record))
        && poly == if code == 0 then reply.record else old(poly)
    {
      wrapped := false;
      match reply
      case Unlinked =>
        var found := RollBackToCommAncestor(replies);
        code, wrapped := 0, !found;
      case Refused =>
        code := 1;
      case Confirmed(record) =>
        if !Stores(chain, poly, header4sync, limit, record) {
          return 1, false;
        }
        forall h: nat | chain.genesis <= h <= currentHeight && Within(limit, h) ensures OnPoly(chain, record, h) {
          if !OnPoly(chain, poly, h) {
            assert h <= h;
            assert Buffered(header4sync, h);
          }
        }
        poly := record;
        header4sync := [];
        code := 0;
    }

    /** The node is far enough ahead for a tick to take up a block. */
    predicate Behind(nodeHeight: nat)
      reads this
    {
      Subtract(nodeHeight, currentHeight) > USEFUL_BLOCK_NUM && currentHeight < Subtract(nodeHeight, USEFUL_BLOCK_NUM)
    }

    /**
     One iteration of a tick: an over-long buffer is dropped, or the next block is taken up and a full batch
     committed.
     */
    method TakeUp(round: Round) returns (handled: bool, wrapped: bool)
      requires Valid() && Gapless() && currentHeight < UINT64_SIZE
      modifies this`header4sync, this`currentHeight, this`poly, this`limit
      ensures Valid() && Extends(chain, old(poly), poly)
      ensures !wrapped ==> Gapless() && currentHeight <= old(currentHeight) + 1 && limit in {None, old(limit)}
      ensures |old(header4sync)| > 3 * headersPerBatch ==>
        && !handled && header4sync == [] && currentHeight == Subtract(old(currentHeight), |old(header4sync)|)
        && (wrapped <==> |old(header4sync)| > old(currentHeight))
      ensures |old(header4sync)| > 3 * headersPerBatch ==> poly == old(poly) && limit == old(limit)
      // a block that cannot be fetched, or not its events, leaves the height where it is
      ensures |old(header4sync)| <= 3 * headersPerBatch && !Fetched(round.block) ==>
        && !handled && !wrapped && currentHeight == old(currentHeight) && poly == old(poly) && limit == old(limit)
        && header4sync == WithBlock(chain, poly, old(header4sync), currentHeight + 1, round.block)
      // otherwise the height is one more, and a full batch is committed
      ensures |old(header4sync)| <= 3 * headersPerBatch && Fetched(round.block) ==>
        var buffer := WithBlock(chain, old(poly), old(header4sync), old(currentHeight) + 1, round.block);
        if |buffer| < headersPerBatch then
          && handled && !wrapped && currentHeight == old(currentHeight) + 1 && header4sync == buffer
          && poly == old(poly) && limit == old(limit)
        else match round.commit
          case Confirmed(record) =>
            && !wrapped && currentHeight == old(currentHeight) + 1 && limit == old(limit)
            && (handled <==> Stores(chain, old(poly), buffer, limit, record))
            && header4sync == (if handled then [] else buffer) && poly == (if handled then record else old(poly))
          case Refused =>
            && !handled && !wrapped && currentHeight == old(currentHeight) + 1 && header4sync == buffer
            && poly == old(poly) && limit == old(limit)
          case Unlinked =>
            && handled && poly == old(poly)
            && (!wrapped ==>
                 && header4sync == [] && limit == None && OnPoly(chain, poly, currentHeight)
                 && forall h: nat :: h <= old(currentHeight) + 1 && OnPoly(chain, poly, h) ==>
                      h <= currentHeight + Errors(round.rollBack))
      ensures handled ==> Fetched(round.block)
    {
      hide NoGapWithin, Genuine, Linked, Extends, OnPoly, Within, Stores;
      ExtendsOn(chain, poly, poly, poly);
      wrapped := false;
      if |header4sync| > 3 * headersPerBatch {
        if |header4sync| <= currentHeight {
          GoBack(chain, poly, header4sync, currentHeight, limit);
        }
        wrapped := |header4sync| > currentHeight;
        currentHeight := Subtract(currentHeight, |header4sync|);
        header4sync := [];
        NothingBuffered(chain, limit);
        return false, wrapped;
      }
      handled := HandleNewBlock(currentHeight + 1, round.block);
      if !handled {
        return;
      }
      currentHeight := currentHeight + 1;
      if |header4sync| >= headersPerBatch {
        var res;
        res, wrapped := CommitHeader(round.commit, round.rollBack);
        handled := res == 0;
      }
    }

    /** What happens before an iteration of a tick, and the iteration. */
    method Iterate(rounds: seq<Round>, n: nat, ghost good: bool, ghost start: nat, ghost last: Round, ghost m: nat)
      returns (handled: bool, wrapped: bool)
      requires Valid() && Gapless() && currentHeight < UINT64_SIZE && n < |rounds|
      requires good ==>
        && n < m <= |rounds| && rounds[n].fork == None && Fetched(rounds[n].block)
        && |header4sync| <= 3 * headersPerBatch
        && OnTrack(chain, poly, header4sync, currentHeight, start, rounds, last, m, n)
      modifies this
      ensures Valid() && (!wrapped ==> Gapless() && currentHeight <= old(currentHeight) + 1)
      ensures rounds[n].fork == None ==>
        chain == old(chain) && Extends(chain, old(poly), poly) && (old(limit) == None && !wrapped ==> limit == None)
      ensures |old(header4sync)| > 3 * headersPerBatch ==>
        && !handled && header4sync == [] && currentHeight == Subtract(old(currentHeight), |old(header4sync)|)
        && (wrapped <==> |old(header4sync)| > old(currentHeight))
      ensures |old(header4sync)| <= 3 * headersPerBatch && rounds[n].block.Block? && rounds[n].block.eventsFail ==>
        && !handled && !wrapped && currentHeight == old(currentHeight) && poly in {old(poly), rounds[n].seen}
        && header4sync == WithBlock(chain, poly, old(header4sync), currentHeight + 1, rounds[n].block)
      ensures handled ==> Fetched(rounds[n].block)
      ensures good ==>
        && handled && !wrapped && |header4sync| <= 3 * headersPerBatch
        && OnTrack(chain, poly, header4sync, currentHeight, start, rounds, last, m, n + 1)
    {
      hide NoGapWithin, Genuine, Linked, Extends, OnPoly, Within, OnTrack, WithBlock, Stores;
      ghost var before := poly;
      Observe(rounds[n].fork, rounds[n].seen);
      ghost var seen := poly;
      if good {
        NextOnTrack(chain, before, poly, header4sync, currentHeight, start, rounds, last, m, n, limit);
      }
      handled, wrapped := TakeUp(rounds[n]);
      ExtendsOn(chain, before, seen, poly);
    }

    /** The commit behind the loop. */
    method CommitRest(last: Round, ghost good: bool, ghost start: nat, ghost rounds: seq<Round>, ghost m: nat)
      returns (wrapped: bool)
      requires Valid() && Gapless() && currentHeight < UINT64_SIZE
      requires good ==> m > 0 && OnTrack(chain, poly, header4sync, currentHeight, start, rounds, last, m, m)
      modifies this
      ensures Valid() && (!wrapped ==> Gapless() && currentHeight <= old(currentHeight))
      ensures last.fork == None ==>
        chain == old(chain) && Extends(chain, old(poly), poly) && (old(limit) == None && !wrapped ==> limit == None)
      ensures good ==>
        && !wrapped && chain == old(chain) && currentHeight == old(currentHeight) && header4sync == []
        && CoversUpTo(chain, poly, currentHeight)
    {
      hide NoGapWithin, Genuine, Linked, Extends, OnPoly, Within, OnTrack, CoversUpTo, Stores;
      if good {
        AllTaken(chain, poly, header4sync, currentHeight, start, rounds, last, m, m);
      }
      ghost var before := poly;
      ExtendsOn(chain, poly, poly, poly);
      Observe(last.fork, last.seen);
      ghost var seen := poly;
      if good {
        LastOnTrack(chain, before, poly, header4sync, currentHeight, start, rounds, last, m, limit);
      }
      var res;
      res, wrapped := CommitHeader(last.commit, last.rollBack);
      ExtendsOn(chain, before, seen, poly);
    }

    /**
     One tick of the monitor, with the node at `nodeHeight`, as far as `rounds` goes; `last` answers the
     commit after the loop. Unless the height wraps around in 64 bits, no gap is left below the
     reorganisations, and no header short of nine confirmations is taken up.
     */
    method MonitorTick(nodeHeight: nat, rounds: seq<Round>, last: Round) returns (wrapped: bool)
      requires Valid() && Gapless() && nodeHeight < UINT64_SIZE && currentHeight < UINT64_SIZE
      modifies this
      ensures Valid()
      ensures !wrapped ==> Gapless() && currentHeight < UINT64_SIZE
      ensures !wrapped && nodeHeight >= USEFUL_BLOCK_NUM ==>
        currentHeight <= old(currentHeight) || currentHeight <= nodeHeight - USEFUL_BLOCK_NUM
      ensures Steady(rounds) && last.fork == None ==>
        chain == old(chain) && Extends(chain, old(poly), poly) && (old(limit) == None && !wrapped ==> limit == None)
      // nothing is done less than ten blocks behind the node
      ensures Subtract(nodeHeight, old(currentHeight)) <= 9 ==>
        && !wrapped && header4sync == old(header4sync) && currentHeight == old(currentHeight)
        && chain == old(chain) && poly == old(poly) && limit == old(limit)
      // an over-long buffer is dropped at once
      ensures old(Behind(nodeHeight)) && rounds != [] && |old(header4sync)| > 3 * headersPerBatch ==>
        && header4sync == [] && currentHeight == Subtract(old(currentHeight), |old(header4sync)|)
        && (wrapped <==> |old(header4sync)| > old(currentHeight))
      // a block whose events cannot be fetched stays buffered and will be taken up again
      ensures old(Behind(nodeHeight)) && EventsFail(rounds) && |old(header4sync)| <= 3 * headersPerBatch ==>
        && !wrapped && currentHeight == old(currentHeight) && poly in {old(poly), rounds[0].seen}
        && header4sync == WithBlock(chain, poly, old(header4sync), currentHeight + 1, rounds[0].block)
      // if all goes well, Poly has every header but the last nine when the tick ends
      ensures GoesWell(nodeHeight, old(chain), old(poly), old(header4sync), old(currentHeight), headersPerBatch, rounds,
                       last) ==>
        && !wrapped && chain == old(chain) && currentHeight == nodeHeight - 9 && header4sync == []
        && CoversUpTo(chain, poly, currentHeight)
    {
      hide NoGapWithin, Genuine, Linked, Extends, OnPoly, Within, OnTrack, CoversUpTo, WithBlock, Stores, RecordAt;
      hide GoesWell, Growing, NoneAbove, Cooperative, Subtract;
      wrapped := false;
      ghost var start, good := currentHeight, GoesWell(nodeHeight, chain, poly, header4sync, currentHeight,
                                                        headersPerBatch, rounds, last);
      ghost var m := if good then nodeHeight - 9 - start else 0;
      if good {
        StartsOnTrack(nodeHeight, chain, poly, header4sync, currentHeight, headersPerBatch, rounds, last);
      }
      ExtendsOn(chain, poly, poly, poly);
      if Subtract(nodeHeight, currentHeight) <= USEFUL_BLOCK_NUM {
        return;
      }
      var confirmed := Subtract(nodeHeight, USEFUL_BLOCK_NUM);
      var handled := true;
      var n := 0;
      while currentHeight < confirmed
        invariant 0 <= n <= |rounds| && Valid() && Gapless() && !wrapped && handled
        invariant currentHeight <= old(currentHeight) || currentHeight <= confirmed
        invariant Steady(rounds) ==>
          chain == old(chain) && Extends(chain, old(poly), poly) && (old(limit) == None ==> limit == None)
        invariant n == 0 ==> chain == old(chain) && poly == old(poly) && limit == old(limit)
        invariant n == 0 ==> header4sync == old(header4sync) && currentHeight == old(currentHeight)
        invariant n > 0 ==> |old(header4sync)| <= 3 * headersPerBatch
        invariant n > 0 ==> rounds[0].block.Block? && !rounds[0].block.eventsFail
        invariant good ==>
          && |header4sync| <= 3 * headersPerBatch && chain == old(chain)
          && OnTrack(chain, poly, header4sync, currentHeight, start, rounds, last, m, n)
        decreases |rounds| - n
      {
        if good {
          MoreToDo(chain, poly, header4sync, currentHeight, start, rounds, last, m, n);
        }
        if n == |rounds| {
          return;
        }
        ghost var before := poly;
        handled, wrapped := Iterate(rounds, n, good, start, last, m);
        ExtendsOn(chain, old(poly), before, poly);
        if !handled || wrapped {
          break;
        }
        n := n + 1;
      }
      if good {
        AllTaken(chain, poly, header4sync, currentHeight, start, rounds, last, m, n);
      }
      if handled && !wrapped && |header4sync| > 0 {
        ghost var before := poly;
        wrapped := CommitRest(last, good, start, rounds, m);
        ExtendsOn(chain, old(poly), before, poly);
      }
    }

    /**
     The monitor, tick after tick, for as long as the height does not wrap around: below the
     reorganisations since the last common ancestor found there is never a gap, and without any there
     is none at all.
     */
    method MonitorChain(ticks: seq<Tick>) returns (wrapped: bool)
      requires Valid() && Gapless() && currentHeight < UINT64_SIZE
      requires forall k :: 0 <= k < |ticks| && ticks[k].At? ==> ticks[k].nodeHeight < UINT64_SIZE
      modifies this
      ensures Valid() && (!wrapped ==> Gapless())
      ensures !wrapped && limit == None ==> NoGap(chain, poly, header4sync, currentHeight)
      ensures old(limit) == None && SteadyTicks(ticks) && !wrapped ==> NoGap(chain, poly, header4sync, currentHeight)
    {
      wrapped := false;
      for n := 0 to |ticks|
        invariant Valid() && !wrapped && Gapless() && currentHeight < UINT64_SIZE
        invariant old(limit) == None && SteadyTicks(ticks) ==> limit == None
      {
        if ticks[n].At? {
          wrapped := MonitorTick(ticks[n].nodeHeight, ticks[n].rounds, ticks[n].last);
          if wrapped {
            return;
          }
        }
      }
      NoGapAtAll(chain, poly, header4sync, currentHeight);
    }
  }

  /**
   A run in which the height wraps around: started at height 3 with one header a batch, the monitor
   fails four times to fetch the events of the next block, then drops the four copies of its header.
   */
  method FailingEventsWrap(hashAt: nat -> Bytes) returns (wrapped: bool, currentHeight: nat)
    ensures wrapped && currentHeight == UINT64_SIZE - 1
  {
    hide GoesWell, CoversUpTo, Extends, NoneAbove;
    var poly := map[0 := hashAt(0), 1 := hashAt(1), 2 := hashAt(2), 3 := hashAt(3)];
    var m := new StarcoinManager(Starcoin(hashAt, 0), 1, poly);
    var ok := m.Init(3, 0);
    assert OnPoly(m.chain, m.poly, 3);
    var round := Round(None, poly, Block(false, true), Refused, []);
    for n := 0 to 4
      invariant m.Valid() && m.Gapless() && m.currentHeight == 3 && |m.header4sync| == n
      invariant m.chain == Starcoin(hashAt, 0) && m.poly == poly
    {
      wrapped := m.MonitorTick(100, [round], round);
      assert [round][0] == round;
    }
    wrapped := m.MonitorTick(100, [round], round);
    currentHeight := m.currentHeight;
  }
}
