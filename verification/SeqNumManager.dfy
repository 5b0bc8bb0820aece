/**
 Sequence numbers of Starcoin accounts (tools/seqnummanager.go): handed out one by one, and handed out
 again, smallest first, once returned. What callers hold is followed in a ghost field.
 */
module SeqNumManager {
  import opened Bytes

  type Address = Bytes

  // ---------- sorting ----------

  ghost predicate Ascending(s: seq<nat>) {
    forall i, j :: 0 <= i < j < |s| ==> s[i] <= s[j]
  }

  /** `sort.Sort`. */
  function Sort(s: seq<nat>): (r: seq<nat>)
    ensures multiset(r) == multiset(s) && Ascending(r)
  {
    if s == [] then []
    else
      assert s == s[..|s| - 1] + [s[|s| - 1]];
      Insert(Sort(s[..|s| - 1]), s[|s| - 1])
  }

  function Insert(s: seq<nat>, n: nat): (r: seq<nat>)
    requires Ascending(s)
    ensures multiset(r) == multiset(s) + multiset{n} && Ascending(r)
  {
    if s == [] then [n]
    else if n <= s[0] then [n] + s
    else
      var rest := Insert(s[1..], n);
      InsertedBehind(s, n, rest);
      [s[0]] + rest
  }

  lemma InsertedBehind(s: seq<nat>, n: nat, rest: seq<nat>)
    requires s != [] && Ascending(s) && s[0] <= n && Ascending(rest) && multiset(rest) == multiset(s[1..]) + multiset{n}
    ensures Ascending([s[0]] + rest) && multiset([s[0]] + rest) == multiset(s) + multiset{n}
  {
    assert s == [s[0]] + s[1..];
    forall m | m in rest ensures s[0] <= m {
      assert m in multiset(rest);
      assert m == n || m in s[1..];
    }
    var all := [s[0]] + rest;
    forall i, j | 0 <= i < j < |all| ensures all[i] <= all[j] {
      assert all[j] == rest[j - 1];
      assert rest[j - 1] in rest;
      assert i > 0 ==> all[i] == rest[i - 1];
    }
  }

  // ---------- one account ----------

  /** Numbers held by callers and numbers returned make up [first, next), none of them twice. */
  ghost predicate Partition(first: nat, next: nat, held: set<nat>, returned: seq<nat>) {
    && Ascending(returned) && (forall i, j :: 0 <= i < j < |returned| ==> returned[i] != returned[j])
    && (forall n :: n in held ==> n !in returned)
    && (forall n :: n in held || n in returned <==> first <= n < next)
    && first <= next
  }

  lemma TakeReturned(first: nat, next: nat, held: set<nat>, returned: seq<nat>)
    requires Partition(first, next, held, returned) && returned != []
    ensures Partition(first, next, held + {returned[0]}, returned[1..])
    ensures returned[0] !in held && forall n :: n in returned ==> returned[0] <= n
  {
    forall n | n in returned ensures n == returned[0] || n in returned[1..] {
      var i :| 0 <= i < |returned| && returned[i] == n;
      assert i == 0 || returned[1..][i - 1] == n;
    }
  }

  /** A fresh number keeps the partition exactly when counting on does not wrap around. */
  lemma TakeFresh(first: nat, next: nat, held: set<nat>, returned: seq<nat>)
    requires Partition(first, next, held, returned) && next < UINT64_SIZE
    ensures next !in held && next !in returned
    ensures Partition(first, (next + 1) % UINT64_SIZE, held + {next}, returned) <==> next != UINT64_SIZE - 1
  {
    if next == UINT64_SIZE - 1 {
      assert next in held + {next};
    }
  }

  lemma GiveBack(first: nat, next: nat, held: set<nat>, returned: seq<nat>, n: nat)
    requires Partition(first, next, held, returned) && n in held
    ensures Partition(first, next, held - {n}, Sort(returned + [n]))
  {
    var sorted := Sort(returned + [n]);
    forall m ensures m in sorted <==> m in returned || m == n {
      assert m in sorted <==> m in multiset(sorted);
      assert m in returned + [n] <==> m in multiset(returned + [n]);
    }
    NoRepeats(returned, n);
    DistinctSorted(returned + [n], sorted);
  }

  lemma NoRepeats(returned: seq<nat>, n: nat)
    requires n !in returned && forall i, j :: 0 <= i < j < |returned| ==> returned[i] != returned[j]
    ensures forall m :: multiset(returned + [n])[m] <= 1
  {
    forall m ensures multiset(returned + [n])[m] <= 1 {
      Multiplicity(returned + [n], m);
    }
  }

  lemma {:induction false} Multiplicity(s: seq<nat>, m: nat)
    requires forall i, j :: 0 <= i < j < |s| ==> s[i] != s[j]
    ensures multiset(s)[m] <= 1
  {
    if s != [] {
      var init, last := s[..|s| - 1], s[|s| - 1];
      assert s == init + [last];
      Multiplicity(init, m);
      if m == last {
        assert last !in init;
        assert last !in multiset(init);
      }
    }
  }

  lemma DistinctSorted(s: seq<nat>, r: seq<nat>)
    requires multiset(r) == multiset(s) && forall m :: multiset(s)[m] <= 1
    ensures forall i, j :: 0 <= i < j < |r| ==> r[i] != r[j]
  {
    forall i, j | 0 <= i < j < |r| ensures r[i] != r[j] {
      TwicePresent(r, i, j);
    }
  }

  lemma TwicePresent(r: seq<nat>, i: nat, j: nat)
    requires i < j < |r|
    ensures r[i] == r[j] ==> multiset(r)[r[i]] >= 2
  {
    assert r == r[..j] + [r[j]] + r[j + 1..];
    assert r[i] in r[..j];
    assert r[i] in multiset(r[..j]);
  }

  /**
   Counting back instead of returning the last number: the partition is kept exactly when a number has
   been handed out at all and the last one is not already among the returned ones.
   */
  lemma CountBack(first: nat, next: nat, held: set<nat>, returned: seq<nat>)
    requires Partition(first, next, held, returned) && next > 0
    ensures Partition(first, next - 1, held - {next - 1}, returned) <==> first < next && next - 1 !in returned
  {
    if first < next {
      assert next - 1 in held || next - 1 in returned;
    }
  }

  // ---------- the manager ----------

  type Numbers = map<Address, nat>
  type Lists = map<Address, seq<nat>>
  type Sets = map<Address, set<nat>>

  function ListOf(lists: Lists, a: Address): seq<nat> {
    if a in lists then lists[a] else []
  }

  /** The partition, account by account. */
  ghost predicate AllPartitioned(first: Numbers, next: Numbers, held: Sets, returned: Lists) {
    && first.Keys == next.Keys && held.Keys == next.Keys && returned.Keys <= next.Keys
    && forall a :: a in next ==> next[a] < UINT64_SIZE && Partition(first[a], next[a], held[a], ListOf(returned, a))
  }

  lemma OneAccount(first: Numbers, next: Numbers, held: Sets, returned: Lists, a: Address, f: nat, n: nat,
                   h: set<nat>, r: seq<nat>)
    requires AllPartitioned(first, next, held, returned) && n < UINT64_SIZE && Partition(f, n, h, r)
    ensures AllPartitioned(first[a := f], next[a := n], held[a := h], returned[a := r])
    ensures r == ListOf(returned, a) ==> AllPartitioned(first[a := f], next[a := n], held[a := h], returned)
  {
    hide Partition;
  }

  lemma FreshKept(first: Numbers, next: Numbers, held: Sets, returned: Lists, a: Address, f: nat, n: nat, h: set<nat>)
    requires AllPartitioned(first, next, held, returned) && n < UINT64_SIZE && Partition(f, n, h, ListOf(returned, a))
    ensures n !in h
    ensures n != UINT64_SIZE - 1 ==>
      AllPartitioned(first[a := f], next[a := (n + 1) % UINT64_SIZE], held[a := h + {n}], returned)
    ensures a in first && first[a] == f ==> first[a := f] == first
  {
    TakeFresh(f, n, h, ListOf(returned, a));
    hide Partition;
    if n != UINT64_SIZE - 1 {
      OneAccount(first, next, held, returned, a, f, (n + 1) % UINT64_SIZE, h + {n}, ListOf(returned, a));
    }
  }

  class SeqNumManager {
    var accountSeqNum: Numbers
    var returnedSeqNum: Lists
    ghost var first: Numbers
    ghost var held: Sets

    ghost predicate Valid()
      reads this
    {
      AllPartitioned(first, accountSeqNum, held, returnedSeqNum)
    }

    constructor ()
      ensures Valid() && accountSeqNum == map[] && returnedSeqNum == map[] && first == map[] && held == map[]
    {
      accountSeqNum, returnedSeqNum, first, held := map[], map[], map[], map[];
    }

    /**
     `onChain` is the number the Starcoin node gives for an account not seen before, 0 if it fails. The
     smallest returned number goes first, and no number is handed out that a caller holds; only
     counting past the last 64-bit number breaks this.
     */
    method GetAccountSeqNum(address: Address, onChain: nat) returns (seqNum: nat)
      requires Valid() && onChain < UINT64_SIZE
      modifies this
      ensures Valid() || (ListOf(old(returnedSeqNum), address) == [] && seqNum == UINT64_SIZE - 1)
      ensures address in old(held) ==> seqNum !in old(held)[address] && first == old(first)
      ensures address !in old(held) ==> first == old(first)[address := onChain]
      ensures held == old(held)[address := (if address in old(held) then old(held)[address] else {}) + {seqNum}]
      ensures ListOf(old(returnedSeqNum), address) != [] ==>
        && seqNum in old(returnedSeqNum)[address] && (forall n :: n in old(returnedSeqNum)[address] ==> seqNum <= n)
        && returnedSeqNum == old(returnedSeqNum)[address := old(returnedSeqNum)[address][1..]]
        && accountSeqNum == old(accountSeqNum)
      ensures ListOf(old(returnedSeqNum), address) == [] ==>
        && seqNum == (if address in old(accountSeqNum) then old(accountSeqNum)[address] else onChain)
        && accountSeqNum == old(accountSeqNum)[address := (seqNum + 1) % UINT64_SIZE]
        && returnedSeqNum == old(returnedSeqNum)
    {
      hide Partition;
      if |ListOf(returnedSeqNum, address)| > 0 {
        var returned := returnedSeqNum[address];
        seqNum := returned[0];
        TakeReturned(first[address], accountSeqNum[address], held[address], returned);
        OneAccount(first, accountSeqNum, held, returnedSeqNum, address,
                   first[address], accountSeqNum[address], held[address] + {seqNum}, returned[1..]);
        SameEntry(first, address);
        SameEntry(accountSeqNum, address);
        returnedSeqNum := returnedSeqNum[address := returned[1..]];
        held := held[address := held[address] + {seqNum}];
        return;
      }
      ghost var f, h := onChain, {};
      if address in accountSeqNum {
        seqNum := accountSeqNum[address];
        f, h := first[address], held[address];
      } else {
        seqNum := onChain;
        NothingHandedOut(onChain);
      }
      FreshKept(first, accountSeqNum, held, returnedSeqNum, address, f, seqNum, h);
      var next := (seqNum + 1) % UINT64_SIZE;
      first, held := first[address := f], held[address := h + {seqNum}];
      accountSeqNum := accountSeqNum[address := next];
    }

    /** Callers return only numbers they hold. */
    method ReturnSeqNum(addr: Address, seqNum: nat)
      requires Valid() && addr in held && seqNum in held[addr]
      modifies this`returnedSeqNum, this`held
      ensures Valid()
      ensures held == old(held)[addr := old(held)[addr] - {seqNum}]
      ensures returnedSeqNum == old(returnedSeqNum)[addr := ListOf(returnedSeqNum, addr)]
      ensures Ascending(ListOf(returnedSeqNum, addr))
      ensures multiset(ListOf(returnedSeqNum, addr)) == multiset(ListOf(old(returnedSeqNum), addr)) + multiset{seqNum}
    {
      hide Partition;
      var arr := ListOf(returnedSeqNum, addr);
      GiveBack(first[addr], accountSeqNum[addr], held[addr], arr, seqNum);
      arr := Sort(arr + [seqNum]);
      OneAccount(first, accountSeqNum, held, returnedSeqNum, addr, first[addr], accountSeqNum[addr],
        held[addr] - {seqNum}, arr);
      SameEntry(first, addr);
      SameEntry(accountSeqNum, addr);
      returnedSeqNum := returnedSeqNum[addr := arr];
      held := held[addr := held[addr] - {seqNum}];
    }

    /**
     The code counts back whenever the counter is not 0. This is sound exactly when the counter is not at
     the first number yet and the number counted back over is not among the returned ones.
     */
    method DecreaseAccountSeqNum(address: Address)
      requires Valid()
      modifies this`accountSeqNum, this`held
      ensures address !in old(accountSeqNum) || old(accountSeqNum)[address] == 0 ==>
        accountSeqNum == old(accountSeqNum) && held == old(held)
      ensures address in old(accountSeqNum) && old(accountSeqNum)[address] > 0 ==>
        && accountSeqNum == old(accountSeqNum)[address := old(accountSeqNum)[address] - 1]
        && held == old(held)[address := old(held)[address] - {accountSeqNum[address]}]
      ensures address in old(accountSeqNum) && old(accountSeqNum)[address] > 0 ==>
        var next := old(accountSeqNum)[address];
        Valid() <==> (first[address] < next && next - 1 !in ListOf(returnedSeqNum, address))
    {
      hide Partition;
      if address in accountSeqNum && accountSeqNum[address] > 0 {
        var next := accountSeqNum[address] - 1;
        CountBack(first[address], accountSeqNum[address], held[address], ListOf(returnedSeqNum, address));
        if first[address] < accountSeqNum[address] && next !in ListOf(returnedSeqNum, address) {
          OneAccount(first, accountSeqNum, held, returnedSeqNum, address,
                     first[address], next, held[address] - {next}, ListOf(returnedSeqNum, address));
          SameEntry(first, address);
        }
        accountSeqNum := accountSeqNum[address := next];
        held := held[address := held[address] - {next}];
      }
    }
  }

  /** Counting back twice after one number: the counter is below the first number handed out. */
  method CountsBelowFirst(address: Address) returns (manager: SeqNumManager)
    ensures !manager.Valid()
    ensures manager.accountSeqNum == map[address := 4] && manager.first == map[address := 5]
    ensures manager.held == map[address := {}] && manager.returnedSeqNum == map[]
  {
    hide Partition, AllPartitioned;
    manager := new SeqNumManager();
    var seqNum := manager.GetAccountSeqNum(address, 5);
    manager.DecreaseAccountSeqNum(address);
    assert manager.held[address] == {};
    manager.DecreaseAccountSeqNum(address);
    assert manager.held[address] == {};
  }

  /** Counting back over a number already returned: it is to be handed out twice. */
  method CountsOverReturned(address: Address) returns (manager: SeqNumManager)
    ensures !manager.Valid()
    ensures manager.accountSeqNum == map[address := 5] && manager.returnedSeqNum == map[address := [5]]
  {
    hide Partition, AllPartitioned;
    manager := new SeqNumManager();
    var seqNum := manager.GetAccountSeqNum(address, 5);
    manager.ReturnSeqNum(address, seqNum);
    OnlyOne(ListOf(manager.returnedSeqNum, address), 5);
    manager.DecreaseAccountSeqNum(address);
  }

  lemma OnlyOne(s: seq<nat>, n: nat)
    requires multiset(s) == multiset([]) + multiset{n}
    ensures s == [n]
  {
    assert |s| == |multiset(s)|;
    assert s[0] in multiset(s);
  }

  lemma SameEntry(numbers: Numbers, a: Address)
    requires a in numbers
    ensures numbers[a := numbers[a]] == numbers
  {
  }

  lemma NothingHandedOut(first: nat)
    ensures Partition(first, first, {}, [])
  {
  }
}
