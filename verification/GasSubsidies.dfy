/**
 Creation of gas subsidies (manager/polymanager.go): a random amount per processed transaction, capped
 by counting the rows an address already has. Only creation is modelled; later updates leave amounts alone.
 */
module GasSubsidies {
  import opened Bytes
  import opened Wrappers
  import opened PolyTxs

  const MAX_GAS_SUBSIDY_COUNT := 3

  datatype GasSubsidy = GasSubsidy(txIndex: nat, key: Key, toAddress: string, subsidyAmount: nat)

  /**
   A processed row without a subsidy, with what parsing its proof, the configuration and the database
   say about it; `enough` is absent when its amount cannot be parsed.
   */
  datatype Candidate = Candidate(
    txIndex: nat,
    key: Key,
    toAddress: string,
    parsed: bool,
    random: nat,
    blacklisted: bool,
    enough: Option<bool>,
    countFails: bool,
    putFails: bool)

  /** A duplicate by primary key or by unique index. */
  predicate HasEntry(rows: seq<GasSubsidy>, s: GasSubsidy) {
    exists k :: 0 <= k < |rows| && (rows[k].key == s.key || rows[k].txIndex == s.txIndex)
  }

  // ---------- what an address has been granted ----------

  function Count(rows: seq<GasSubsidy>, addr: string): nat {
    if rows == [] then 0
    else Count(rows[..|rows| - 1], addr) + (if rows[|rows| - 1].toAddress == addr then 1 else 0)
  }

  /** The rows of an address. */
  function RowsOf(rows: seq<GasSubsidy>, addr: string): set<nat> {
    set k: nat | k < |rows| && rows[k].toAddress == addr
  }

  lemma {:induction false} CountsRows(rows: seq<GasSubsidy>, addr: string)
    ensures Count(rows, addr) == |RowsOf(rows, addr)|
  {
    if rows != [] {
      var last := |rows| - 1;
      CountsRows(rows[..last], addr);
      assert RowsOf(rows, addr) == RowsOf(rows[..last], addr) + if rows[last].toAddress == addr then {last} else {};
    }
  }

  function Granted(rows: seq<GasSubsidy>, addr: string): (r: nat)
    ensures r <= Count(rows, addr)
  {
    if rows == [] then 0
    else
      var last := rows[|rows| - 1];
      Granted(rows[..|rows| - 1], addr) + (if last.toAddress == addr && last.subsidyAmount > 0 then 1 else 0)
  }

  function Total(rows: seq<GasSubsidy>, addr: string): nat {
    if rows == [] then 0
    else
      var last := rows[|rows| - 1];
      Total(rows[..|rows| - 1], addr) + (if last.toAddress == addr then last.subsidyAmount else 0)
  }

  /** At most three non-zero amounts per address, each below the largest configured one. */
  ghost predicate Capped(rows: seq<GasSubsidy>, largest: nat) {
    && (forall row :: row in rows ==> row.subsidyAmount < largest)
    && (forall addr :: Granted(rows, addr) <= MAX_GAS_SUBSIDY_COUNT)
  }

  lemma AppendKeepsCap(rows: seq<GasSubsidy>, row: GasSubsidy, largest: nat)
    requires Capped(rows, largest) && row.subsidyAmount < largest
    requires row.subsidyAmount > 0 ==> Count(rows, row.toAddress) < MAX_GAS_SUBSIDY_COUNT
    ensures Capped(rows + [row], largest)
  {
    assert (rows + [row])[..|rows|] == rows;
    forall addr ensures Granted(rows + [row], addr) <= MAX_GAS_SUBSIDY_COUNT {
      assert Granted(rows, addr) <= Count(rows, addr);
    }
  }

  lemma {:induction false} TotalByGrants(rows: seq<GasSubsidy>, largest: nat, addr: string)
    requires largest > 0 && forall row :: row in rows ==> row.subsidyAmount < largest
    ensures Total(rows, addr) <= Granted(rows, addr) * (largest - 1)
  {
    if rows != [] {
      TotalByGrants(rows[..|rows| - 1], largest, addr);
      assert rows[|rows| - 1] in rows;
      var granted := Granted(rows[..|rows| - 1], addr);
      assert (granted + 1) * (largest - 1) == granted * (largest - 1) + (largest - 1);
    }
  }

  /** What capped rows pay one address in all. */
  lemma TotalCapped(rows: seq<GasSubsidy>, largest: nat, addr: string)
    requires largest > 0 && Capped(rows, largest)
    ensures Total(rows, addr) < 3 * largest
  {
    TotalByGrants(rows, largest, addr);
    var n := Granted(rows, addr);
    assert n == 0 || n == 1 || n == 2 || n == 3;
  }

  /** `int64(a)` of a `uint64`. */
  function Signed(a: nat): int
    requires a < UINT64_SIZE
  {
    if a < 0x8000_0000_0000_0000 then a else a - UINT64_SIZE
  }

  /** `n / 10` of signed numbers, which truncates towards zero. */
  function Tenth(n: int): int {
    if n >= 0 then n / 10 else -(-n / 10)
  }

  /**
   The amount drawn for the configured `a`: from a tenth of it up to, but not reaching, ten tenths. Drawing
   panics below ten, and for amounts that are negative as signed numbers.
   */
  function Randomized(a: nat, random: nat): (r: Option<nat>)
    requires a < UINT64_SIZE
    ensures r == None <==> a < 10 || a >= 0x8000_0000_0000_0000
    ensures r.Some? ==> a / 10 <= r.value < a
  {
    var tenth := Tenth(Signed(a));
    if tenth * 9 <= 0 then None else Some(random % (tenth * 9) + tenth)
  }

  /** Whatever amount there is in that range may be drawn. */
  lemma AnyAmountDrawn(a: nat, amount: nat)
    requires 10 <= a < 0x8000_0000_0000_0000 && a / 10 <= amount < a / 10 * 10
    ensures exists random :: Randomized(a, random) == Some(amount)
  {
    var tenth := Tenth(Signed(a));
    assert tenth == a / 10;
    SmallRest(amount - tenth, tenth * 9);
    assert Randomized(a, amount - tenth) == Some(amount);
  }

  lemma SmallRest(n: nat, d: nat)
    requires n < d
    ensures n % d == n
  {
  }

  /** No two rows have one key or one index. */
  ghost predicate NoDuplicates(rows: seq<GasSubsidy>) {
    forall i, j :: 0 <= i < j < |rows| ==> rows[i].key != rows[j].key && rows[i].txIndex != rows[j].txIndex
  }

  /** Nothing fails for the row: its amounts parse, and the database answers. */
  predicate Creatable(c: Candidate) {
    c.parsed && c.enough.Some? && !c.countFails && !c.putFails
  }

  /** The row created for a candidate after the rows `before`: it is paid unless something speaks against it. */
  predicate CreatedFor(c: Candidate, a: nat, before: seq<GasSubsidy>, row: GasSubsidy) {
    && Creatable(c) && row.key == c.key && row.txIndex == c.txIndex && row.toAddress == c.toAddress
    && (row.subsidyAmount > 0 <==> !c.blacklisted && c.enough.value && Count(before, c.toAddress) < 3)
    && (row.subsidyAmount > 0 ==> a / 10 <= row.subsidyAmount < a)
  }

  /** Some candidate is the reason for the row. */
  ghost predicate HasReason(list: seq<Candidate>, a: nat, before: seq<GasSubsidy>, row: GasSubsidy) {
    exists c :: c in list && CreatedFor(c, a, before, row)
  }

  /** Rows from index `n` on were created for candidates. */
  ghost predicate AllCreated(list: seq<Candidate>, a: nat, rows: seq<GasSubsidy>, n: nat) {
    forall k :: n <= k < |rows| ==> HasReason(list, a, rows[..k], rows[k])
  }

  /** Every candidate nothing failed for has its row. */
  ghost predicate AllServed(list: seq<Candidate>, rows: seq<GasSubsidy>) {
    forall c :: c in list && Creatable(c) ==>
      exists k :: 0 <= k < |rows| && (rows[k].key == c.key || rows[k].txIndex == c.txIndex)
  }

  lemma MoreReasons(list: seq<Candidate>, more: seq<Candidate>, a: nat, before: seq<GasSubsidy>, row: GasSubsidy)
    requires HasReason(list, a, before, row) && list <= more
    ensures HasReason(more, a, before, row)
  {
    hide CreatedFor;
    var c :| c in list && CreatedFor(c, a, before, row);
    assert c in more;
  }

  lemma OneMoreCreated(list: seq<Candidate>, more: seq<Candidate>, a: nat, rows: seq<GasSubsidy>, n: nat,
                       c: Candidate, row: GasSubsidy)
    requires AllCreated(list, a, rows, n) && list <= more && c in more && n <= |rows|
    ensures AllCreated(more, a, rows, n)
    ensures CreatedFor(c, a, rows, row) ==> AllCreated(more, a, rows + [row], n)
  {
    hide CreatedFor;
    assert CreatedFor(c, a, rows, row) ==> HasReason(more, a, rows, row);
    hide HasReason;
    forall k | n <= k < |rows| ensures HasReason(more, a, rows[..k], rows[k]) {
      MoreReasons(list, more, a, rows[..k], rows[k]);
    }
    if CreatedFor(c, a, rows, row) {
      var all := rows + [row];
      forall k | n <= k < |all| ensures HasReason(more, a, all[..k], all[k]) {
        assert all[..k] == rows[..k];
      }
    }
  }

  lemma OneMoreServed(list: seq<Candidate>, c: Candidate, rows: seq<GasSubsidy>, rows': seq<GasSubsidy>)
    requires AllServed(list, rows) && rows <= rows'
    requires Creatable(c) ==>
      exists k :: 0 <= k < |rows'| && (rows'[k].key == c.key || rows'[k].txIndex == c.txIndex)
    ensures AllServed(list + [c], rows')
  {
    forall d | d in list + [c] && Creatable(d)
      ensures exists k :: 0 <= k < |rows'| && (rows'[k].key == d.key || rows'[k].txIndex == d.txIndex)
    {
      if d in list {
        var k :| 0 <= k < |rows| && (rows[k].key == d.key || rows[k].txIndex == d.txIndex);
        assert rows'[k] == rows[k];
      }
    }
  }

  lemma EntryThere(rows: seq<GasSubsidy>, row: GasSubsidy, rows': seq<GasSubsidy>)
    requires rows' == if HasEntry(rows, row) then rows else rows + [row]
    ensures exists k :: 0 <= k < |rows'| && (rows'[k].key == row.key || rows'[k].txIndex == row.txIndex)
  {
    if !HasEntry(rows, row) {
      assert rows'[|rows|] == row;
    }
  }

  /** What has become of the rows `before` after the candidates listed. */
  ghost predicate Outcome(list: seq<Candidate>, a: nat, largest: nat, before: seq<GasSubsidy>, rows: seq<GasSubsidy>) {
    before <= rows && Capped(rows, largest) && AllCreated(list, a, rows, |before|) && AllServed(list, rows)
  }

  lemma NothingCreated(list: seq<Candidate>, c: Candidate, a: nat, largest: nat, before: seq<GasSubsidy>,
                       rows: seq<GasSubsidy>)
    requires Outcome(list, a, largest, before, rows) && !Creatable(c)
    ensures Outcome(list + [c], a, largest, before, rows)
  {
    OneMoreServed(list, c, rows, rows);
    OneMoreCreated(list, list + [c], a, rows, |before|, c, GasSubsidy(0, c.key, "", 0));
  }

  lemma RowCreated(list: seq<Candidate>, c: Candidate, a: nat, largest: nat, before: seq<GasSubsidy>,
                   rows: seq<GasSubsidy>, row: GasSubsidy, rows': seq<GasSubsidy>)
    requires Outcome(list, a, largest, before, rows) && CreatedFor(c, a, rows, row) && 0 < a <= largest
    requires rows' == if HasEntry(rows, row) then rows else rows + [row]
    ensures Outcome(list + [c], a, largest, before, rows')
  {
    OneMoreCreated(list, list + [c], a, rows, |before|, c, row);
    EntryThere(rows, row, rows');
    OneMoreServed(list, c, rows, rows');
    AppendKeepsCap(rows, row, largest);
  }

  lemma NoneCreated(list: seq<Candidate>, a: nat, largest: nat, rows: seq<GasSubsidy>)
    requires Capped(rows, largest)
    ensures Outcome([], a, largest, rows, rows) && AllCreated(list, a, rows, |rows|)
  {
  }

  lemma OutcomeIs(list: seq<Candidate>, a: nat, largest: nat, before: seq<GasSubsidy>, rows: seq<GasSubsidy>)
    requires Outcome(list, a, largest, before, rows)
    ensures Capped(rows, largest) && before <= rows && AllCreated(list, a, rows, |before|) && AllServed(list, rows)
  {
  }

  lemma PaidUnlessBarred(c: Candidate, a: nat, rows: seq<GasSubsidy>, row: GasSubsidy)
    requires Creatable(c) && a >= 10 && row == GasSubsidy(c.txIndex, c.key, c.toAddress, row.subsidyAmount)
    requires row.subsidyAmount == 0 || a / 10 <= row.subsidyAmount < a
    requires row.subsidyAmount == 0 <==>
      c.blacklisted || !c.enough.value || Count(rows, c.toAddress) >= MAX_GAS_SUBSIDY_COUNT
    ensures CreatedFor(c, a, rows, row)
  {
  }

  class PolyManager {
    var gasSubsidies: seq<GasSubsidy>

    constructor ()
      ensures gasSubsidies == []
    {
      gasSubsidies := [];
    }

    /** Unique index on the key, primary key the index; duplicates are ignored. */
    method PutGasSubsidy(s: GasSubsidy, fails: bool) returns (ok: bool)
      modifies this
      ensures ok <==> !fails
      ensures gasSubsidies ==
        if fails || HasEntry(old(gasSubsidies), s) then old(gasSubsidies) else old(gasSubsidies) + [s]
      ensures old(NoDuplicates(gasSubsidies)) ==> NoDuplicates(gasSubsidies)
    {
      if fails {
        return false;
      }
      if !HasEntry(gasSubsidies, s) {
        gasSubsidies := gasSubsidies + [s];
      }
      ok := true;
    }

    /**
     The subsidies of one source chain with configured amount `a`; drawing an amount below ten, or from
     2 to the 63rd on, panics. Rows are only added, and the cap holds before and after, for every larger
     amount too.
     */
    method CreateGasSubsidies(polyTxList: seq<Candidate>, a: nat, ghost largest: nat) returns (panicked: bool)
      requires a < UINT64_SIZE && a <= largest && Capped(gasSubsidies, largest)
      modifies this
      ensures Capped(gasSubsidies, largest) && old(gasSubsidies) <= gasSubsidies
      ensures panicked <==> (a < 10 || a >= 0x8000_0000_0000_0000) && polyTxList != []
      ensures AllCreated(polyTxList, a, gasSubsidies, |old(gasSubsidies)|)
      ensures old(NoDuplicates(gasSubsidies)) ==> NoDuplicates(gasSubsidies)
      ensures if panicked then gasSubsidies == old(gasSubsidies) else AllServed(polyTxList, gasSubsidies)
    {
      hide Outcome, Capped, AllCreated, AllServed, CreatedFor, HasEntry, Count, Randomized, NoDuplicates;
      NoneCreated(polyTxList, a, largest, gasSubsidies);
      assert polyTxList[..0] == [];
      var n := 0;
      while n < |polyTxList|
        invariant 0 <= n <= |polyTxList| && (n > 0 ==> 10 <= a < 0x8000_0000_0000_0000)
        invariant n == 0 ==> gasSubsidies == old(gasSubsidies)
        invariant old(NoDuplicates(gasSubsidies)) ==> NoDuplicates(gasSubsidies)
        invariant Outcome(polyTxList[..n], a, largest, old(gasSubsidies), gasSubsidies)
      {
        var c := polyTxList[n];
        ghost var rows := gasSubsidies;
        assert polyTxList[..n + 1] == polyTxList[..n] + [c];
        var drawn := Randomized(a, c.random);
        if drawn == None {
          return true;
        }
        if !Creatable(c) {
          NothingCreated(polyTxList[..n], c, a, largest, old(gasSubsidies), rows);
        }
        n := n + 1;
        var amount := drawn.value;
        if !c.parsed {
          continue;
        }
        if c.blacklisted {
          amount := 0;
        }
        if c.enough == None {
          continue;
        }
        if !c.enough.value {
          amount := 0;
        }
        if c.countFails {
          continue;
        }
        if Count(gasSubsidies, c.toAddress) >= MAX_GAS_SUBSIDY_COUNT {
          amount := 0;
        }
        var row := GasSubsidy(c.txIndex, c.key, c.toAddress, amount);
        var ok := PutGasSubsidy(row, c.putFails);
        if Creatable(c) {
          PaidUnlessBarred(c, a, rows, row);
          RowCreated(polyTxList[..n - 1], c, a, largest, old(gasSubsidies), rows, row, gasSubsidies);
        }
      }
      assert polyTxList[..n] == polyTxList;
      OutcomeIs(polyTxList, a, largest, old(gasSubsidies), gasSubsidies);
      panicked := false;
    }
  }
}
