/**
 What is asked of the digest can be met for queues of any length: some digest of the real width has no
 collision between the trees of a run in which all the transactions are executed.
 */
module RelayCapacity {
  import opened Bytes
  import opened SparseMerkle
  import opened PathSets
  import opened PolyTxs
  import opened DigestTable
  import opened Relay
  import opened RelayInvariant
  import opened RelayProgress
  import opened RelayWitness
  import opened RelayOvertaking

  /** The width of SHA3-256, the digest of the relay. */
  const DIGEST_BYTES := 32

  function ConcatKeys(keys: seq<Key>): (r: seq<Bytes>)
    ensures |r| == |keys|
    ensures forall i :: 0 <= i < |keys| ==> r[i] == ConcatKey(keys[i])
  {
    seq(|keys|, i requires 0 <= i < |keys| => ConcatKey(keys[i]))
  }

  /** The first `n` digests of the table. */
  function Codes(size: nat, n: nat): set<Bytes> {
    if n == 0 then {} else Codes(size, n - 1) + {Code(size, n - 1)}
  }

  /** The trees of the first codes, up to `n` of them. */
  function CodeTrees(size: nat, n: nat): seq<set<Bytes>> {
    if n == 0 then [Codes(size, 0)] else [Codes(size, n)] + CodeTrees(size, n - 1)
  }

  lemma {:induction false} CodesBounds(size: nat, n: nat)
    ensures |Codes(size, n)| <= n && forall p :: p in Codes(size, n) ==> |p| == size
  {
    if n > 0 {
      CodesBounds(size, n - 1);
    }
  }

  lemma {:induction false} CodeTreesHold(size: nat, n: nat, k: nat)
    requires k <= n
    ensures Codes(size, k) in CodeTrees(size, n)
  {
    if k < n {
      CodeTreesHold(size, n - 1, k);
    }
  }

  lemma {:induction false} CodeTreesSized(size: nat, n: nat)
    ensures forall t, p :: t in CodeTrees(size, n) && p in t ==> |p| == size
  {
    CodesBounds(size, n);
    if n > 0 {
      CodeTreesSized(size, n - 1);
    }
  }

  lemma {:induction false} CodeTreesCost(size: nat, n: nat)
    ensures FamilyCost(size, CodeTrees(size, n)) <= (n + 1) * Cost(size, n, 0)
  {
    CodesBounds(size, n);
    CostGrows(size, |Codes(size, n)|, n);
    if n > 0 {
      CodeTreesCost(size, n - 1);
      CostGrows(size, n - 1, n);
      Times(n, Cost(size, n - 1, 0), Cost(size, n, 0));
      assert CodeTrees(size, n)[1..] == CodeTrees(size, n - 1);
      hide Cost;
      assert (n + 1) * Cost(size, n, 0) == n * Cost(size, n, 0) + Cost(size, n, 0);
    }
  }

  lemma Times(k: nat, a: nat, b: nat)
    requires a <= b
    ensures k * a <= k * b
  {
  }

  lemma CostGrows(size: nat, m: nat, n: nat)
    requires m <= n
    ensures Cost(size, m, 0) <= Cost(size, n, 0)
  {
    Times(2 * (8 * size + 1), m, n);
    assert Cost(size, m, 0) == 2 * (8 * size + 1) * m && Cost(size, n, 0) == 2 * (8 * size + 1) * n;
  }

  /** There are digests enough for `n` transactions. */
  predicate Ample(size: nat, n: nat) {
    && size > 0
    && 2 * (8 * size + 1) * (n + 1) * (n + 1) < Pow256(size)
  }

  lemma AmpleIsRoom(size: nat, n: nat)
    requires Ample(size, n)
    ensures size > 0 && n + FamilyCost(size, CodeTrees(size, n)) + 1 < Pow256(size)
  {
    hide FamilyCost, CodeTrees, Pow256;
    CodeTreesCost(size, n);
    Total(2 * (8 * size + 1), n, Cost(size, n, 0), FamilyCost(size, CodeTrees(size, n)));
  }

  lemma Total(w: nat, n: nat, c: nat, total: nat)
    requires w > 0 && c == w * n && total <= (n + 1) * c
    ensures n + total + 1 <= w * (n + 1) * (n + 1)
  {
    var m := n + 1;
    assert m * (w * n) + w * m == w * m * m;
    Times(m, 1, w);
  }

  // ---------- the run ----------

  ghost predicate DistinctKeys(keys: seq<Key>) {
    && (forall i :: 0 <= i < |keys| ==> Storable(keys[i]))
    && forall i, j :: 0 <= i < j < |keys| ==> keys[i] != keys[j]
  }

  lemma IndexIs(table: seq<Bytes>, n: nat)
    requires n < |table| && forall i :: 0 <= i < n ==> table[i] != table[n]
    ensures IndexOf(table, table[n]) == n
    decreases n
  {
    if n > 0 {
      IndexIs(table[1..], n - 1);
    }
  }

  /** The transactions get the first digests as their paths. */
  lemma PathIsCode(size: nat, keys: seq<Key>, table: seq<Bytes>, i: nat)
    requires DistinctKeys(keys) && ConcatKeys(keys) <= table && i < |keys|
    ensures PathOf(Digest(size, table), keys[i]) == Code(size, i)
  {
    forall j | 0 <= j < i ensures table[j] != table[i] {
      ConcatKeyInjective(keys[j], keys[i]);
      assert table[j] == ConcatKeys(keys)[j] && table[i] == ConcatKeys(keys)[i];
    }
    assert table[i] == ConcatKeys(keys)[i];
    IndexIs(table, i);
  }

  /** The first `n` codes, in order. */
  ghost predicate FirstCodes(size: nat, paths: seq<Bytes>, n: nat) {
    |paths| == n && (forall i :: 0 <= i < n ==> paths[i] == Code(size, i)) && Elements(paths) == Codes(size, n)
  }

  lemma OneMoreCode(size: nat, paths: seq<Bytes>, n: nat)
    requires FirstCodes(size, paths, n)
    ensures FirstCodes(size, paths + [Code(size, n)], n + 1)
  {
    hide Code;
    var p := Code(size, n);
    assert forall x :: x in paths + [p] <==> x in paths || x == p;
  }

  lemma NoCodes(h: Hasher, size: nat)
    ensures FirstCodes(size, PathsInOrder(h, []), 0)
  {
  }

  lemma {:induction false} PathsAreCodes(size: nat, keys: seq<Key>, table: seq<Bytes>, n: nat)
    requires DistinctKeys(keys) && ConcatKeys(keys) <= table && n <= |keys|
    ensures FirstCodes(size, PathsInOrder(Digest(size, table), keys[..n]), n)
  {
    hide DistinctKeys, Code, Digest, PathOf, ConcatKeys, FirstCodes, PathsInOrder;
    var h := Digest(size, table);
    if n == 0 {
      assert keys[..0] == [];
      NoCodes(h, size);
    } else {
      PathsAreCodes(size, keys, table, n - 1);
      PathIsCode(size, keys, table, n - 1);
      NextPath(h, keys, n);
      OneMoreCode(size, PathsInOrder(h, keys[..n - 1]), n - 1);
    }
  }

  lemma NextPath(h: Hasher, keys: seq<Key>, n: nat)
    requires 0 < n <= |keys|
    ensures PathsInOrder(h, keys[..n]) == PathsInOrder(h, keys[..n - 1]) + [PathOf(h, keys[n - 1])]
  {
    assert keys[..n][..n - 1] == keys[..n - 1];
  }

  /** For any distinct transactions there is a digest under which they can be served. */
  lemma SomeConfigServes(size: nat, keys: seq<Key>) returns (cfg: Config)
    requires DistinctKeys(keys) && Ample(size, |keys|)
    ensures cfg.h.size == size && cfg.Valid() && Servable(cfg, keys)
  {
    hide FamilyCost, CollisionFree, CodeTrees, Servable, Ample, DistinctKeys, Pow256;
    var n, trees := |keys|, CodeTrees(size, |keys|);
    AmpleIsRoom(size, n);
    CodeTreesSized(size, n);
    var table := SomeDigestIsCollisionFree(size, ConcatKeys(keys), trees);
    cfg := Config(Digest(size, table), set t | t in trees);
    CodeTreesHold(size, n, 0);
    CodesServable(cfg, size, keys, table);
  }

  lemma CodesServable(cfg: Config, size: nat, keys: seq<Key>, table: seq<Bytes>)
    requires DistinctKeys(keys) && Ample(size, |keys|) && ConcatKeys(keys) <= table && cfg.h == Digest(size, table)
    requires forall t :: t in CodeTrees(size, |keys|) ==> t in cfg.trees
    ensures Servable(cfg, keys)
  {
    hide Ample, DistinctKeys, Digest, Code, Codes, CodeTrees, PathsInOrder, Elements, ConcatKeys;
    var n := |keys|;
    forall k | 0 <= k <= n ensures Elements(PathsInOrder(cfg.h, keys[..k])) in cfg.trees {
      PathsAreCodes(size, keys, table, k);
      CodeTreesHold(size, n, k);
    }
    PathsAreCodes(size, keys, table, n);
    assert keys[..n] == keys;
    CodesDiffer(size, n);
  }

  lemma CodesDiffer(size: nat, n: nat)
    requires Ample(size, n)
    ensures forall i, j :: 0 <= i < j < n ==> Code(size, i) != Code(size, j)
  {
    AmpleIsRoom(size, n);
    forall i, j | 0 <= i < j < n ensures Code(size, i) != Code(size, j) {
      CodesApart(size, i, j);
    }
  }

  /** Digests of 32 bytes are enough for as many transactions as the column of indices has values. */
  lemma IndexColumnIsAmple(n: nat)
    requires n < UINT64_SIZE
    ensures Ample(DIGEST_BYTES, n)
  {
    var m, square := n + 1, UINT64_SIZE * UINT64_SIZE;
    Times(m, m, UINT64_SIZE);
    Times(UINT64_SIZE, m, UINT64_SIZE);
    assert 2 * (8 * DIGEST_BYTES + 1) * m * m == 514 * (m * m);
    PowersOf256(0);
    hide Pow256;
    assert Pow256(0) == 1;
  }

  lemma PowersOf256(n: nat)
    ensures Pow256(n + DIGEST_BYTES) == UINT64_SIZE * UINT64_SIZE * UINT64_SIZE * UINT64_SIZE * Pow256(n)
  {
    EightMore(n);
    EightMore(n + 8);
    EightMore(n + 16);
    EightMore(n + 24);
    hide Pow256;
  }

  lemma EightMore(n: nat)
    ensures Pow256(n + 8) == UINT64_SIZE * Pow256(n)
  {
    FourMore(n);
    FourMore(n + 4);
    hide Pow256;
  }

  lemma FourMore(n: nat)
    ensures Pow256(n + 4) == 0x1_0000_0000 * Pow256(n)
  {
    assert Pow256(n + 1) == 256 * Pow256(n);
    assert Pow256(n + 2) == 256 * Pow256(n + 1);
    assert Pow256(n + 3) == 256 * Pow256(n + 2);
    assert Pow256(n + 4) == 256 * Pow256(n + 3);
  }

  /**
   For any distinct transactions, as many as there are indices, some digest of 32 bytes meets what is
   asked of it, and a run from the empty tables executes and processes them all in the order given, each in
   the way given.
   */
  lemma AnyQueueIsServed(keys: seq<Key>, ways: seq<Way>) returns (cfg: Config, s: State)
    requires DistinctKeys(keys) && |keys| < UINT64_SIZE && AllBearable(keys, ways)
    ensures cfg.h.size == DIGEST_BYTES && cfg.Valid()
    ensures exists states: seq<State>, actions: seq<Action> :: Run(cfg, states, actions) && states[|actions|] == s
    ensures Served(cfg, s, keys, ways)
  {
    hide Inv, Reaches, Run, Ample, Served, Servable, AllBearable, DistinctKeys;
    IndexColumnIsAmple(|keys|);
    cfg := SomeConfigServes(DIGEST_BYTES, keys);
    s := AllExecute(cfg, keys, ways);
    RunTo(cfg, s);
  }

  // ---------- the runs that go wrong ----------

  function WithEach(trees: seq<set<Bytes>>, p: Bytes): (r: seq<set<Bytes>>)
    ensures |r| == |trees| && forall k :: 0 <= k < |trees| ==> r[k] == trees[k] + {p}
  {
    seq(|trees|, k requires 0 <= k < |trees| => trees[k] + {p})
  }

  /** All trees made of the first `n` codes. */
  function AllTrees(size: nat, n: nat): seq<set<Bytes>> {
    if n == 0 then [{}] else AllTrees(size, n - 1) + WithEach(AllTrees(size, n - 1), Code(size, n - 1))
  }

  lemma {:induction false} AllTreesHold(size: nat, n: nat, t: set<Bytes>)
    requires t <= Codes(size, n)
    ensures t in AllTrees(size, n)
  {
    if n == 0 {
      assert t == {};
    } else {
      var fewer, p := AllTrees(size, n - 1), Code(size, n - 1);
      AllTreesHold(size, n - 1, t - {p});
      if p in t {
        var k :| 0 <= k < |fewer| && fewer[k] == t - {p};
        assert WithEach(fewer, p)[k] == fewer[k] + {p} == t;
      } else {
        assert t - {p} == t;
      }
    }
  }

  lemma {:induction false} AllTreesBounds(size: nat, n: nat)
    ensures forall t :: t in AllTrees(size, n) ==> t <= Codes(size, n)
  {
    if n > 0 {
      AllTreesBounds(size, n - 1);
      var fewer, p := AllTrees(size, n - 1), Code(size, n - 1);
      forall t | t in WithEach(fewer, p) ensures t <= Codes(size, n) {
        var k :| 0 <= k < |fewer| && WithEach(fewer, p)[k] == t;
        assert fewer[k] in fewer;
      }
    }
  }

  lemma {:induction false} FamilyBound(size: nat, trees: seq<set<Bytes>>, n: nat)
    requires forall t :: t in trees ==> |t| <= n
    ensures FamilyCost(size, trees) <= |trees| * Cost(size, n, 0)
  {
    hide Cost;
    if trees != [] {
      assert trees[0] in trees;
      forall t | t in trees[1..] ensures |t| <= n {
        assert t in trees;
      }
      FamilyBound(size, trees[1..], n);
      CostGrows(size, |trees[0]|, n);
      assert |trees| * Cost(size, n, 0) == |trees[1..]| * Cost(size, n, 0) + Cost(size, n, 0);
    }
  }

  lemma SubsetSize(a: set<Bytes>, b: set<Bytes>)
    requires a <= b
    ensures |a| <= |b|
  {
    assert |b| == |a| + |b - a| by {
      assert a + (b - a) == b;
    }
  }

  /** All trees made of the paths of five transactions are few. */
  lemma FiveAreFew()
    ensures 5 + FamilyCost(DIGEST_BYTES, AllTrees(DIGEST_BYTES, 5)) + 1 < Pow256(DIGEST_BYTES)
  {
    var trees := AllTrees(DIGEST_BYTES, 5);
    AllTreesBounds(DIGEST_BYTES, 5);
    CodesBounds(DIGEST_BYTES, 5);
    forall t | t in trees ensures |t| <= 5 {
      SubsetSize(t, Codes(DIGEST_BYTES, 5));
    }
    AllTreesCount(DIGEST_BYTES, 5);
    FamilyBound(DIGEST_BYTES, trees, 5);
    PowersOf256(0);
    assert Pow256(0) == 1;
    hide Pow256, FamilyCost, AllTrees, Codes;
  }

  lemma AllTreesCount(size: nat, n: nat)
    requires n == 5
    ensures |AllTrees(size, n)| == 32
  {
    assert |AllTrees(size, n - 4)| == 2;
    assert |AllTrees(size, n - 3)| == 4;
    assert |AllTrees(size, n - 2)| == 8;
    assert |AllTrees(size, n - 1)| == 16;
  }

  lemma CodesIn(size: nat, n: nat, i: nat)
    requires i < n
    ensures Code(size, i) in Codes(size, n)
  {
  }

  lemma TwoDistinct(cfg: Config, size: nat, keys: seq<Key>, table: seq<Bytes>, i: nat, j: nat)
    requires DistinctKeys(keys) && i < |keys| && j < |keys| && i != j && |keys| + 1 < Pow256(size)
    requires ConcatKeys(keys) <= table && cfg.h == Digest(size, table)
    requires forall t :: t in AllTrees(size, |keys|) ==> t in cfg.trees
    ensures Distinct(cfg, keys[i], keys[j])
  {
    hide DistinctKeys, Digest, AllTrees, Codes, ConcatKeys;
    PathIsCode(size, keys, table, i);
    PathIsCode(size, keys, table, j);
    CodesApart(size, i, j);
    CodesIn(size, |keys|, i);
    CodesIn(size, |keys|, j);
    hide Code, PathOf;
    forall t: set<Bytes> | t <= {Code(size, i), Code(size, j)} ensures t in cfg.trees {
      AllTreesHold(size, |keys|, t);
    }
  }

  lemma PairsApart(cfg: Config, r: Key, a: Key, b: Key, q: Key, i: Key)
    requires Distinct(cfg, r, a) && Distinct(cfg, r, b) && Distinct(cfg, r, q) && Distinct(cfg, r, i)
    requires Distinct(cfg, a, b) && Distinct(cfg, a, q) && Distinct(cfg, a, i)
    requires Distinct(cfg, b, q) && Distinct(cfg, b, i) && Distinct(cfg, q, i)
    ensures Apart(cfg, r, a, b, q, i)
  {
  }

  /** The hypotheses of the runs that go wrong can be met too, for any five transactions. */
  lemma AnyFiveGoWrong(keys: seq<Key>) returns (cfg: Config)
    requires DistinctKeys(keys) && |keys| == 5
    ensures cfg.h.size == DIGEST_BYTES && cfg.Valid()
    ensures forall i, j :: 0 <= i < 5 && 0 <= j < 5 && i != j ==> Distinct(cfg, keys[i], keys[j])
    ensures Apart(cfg, keys[0], keys[1], keys[2], keys[3], keys[4])
  {
    hide FamilyCost, CollisionFree, AllTrees, Code, Codes, Pow256, DistinctKeys, Distinct, Apart;
    var size, trees := DIGEST_BYTES, AllTrees(DIGEST_BYTES, 5);
    FiveAreFew();
    AllTreesBounds(size, 5);
    CodesBounds(size, 5);
    var table := SomeDigestIsCollisionFree(size, ConcatKeys(keys), trees);
    cfg := Config(Digest(size, table), set t | t in trees);
    AllTreesHold(size, 5, {});
    forall i, j | 0 <= i < 5 && 0 <= j < 5 && i != j ensures Distinct(cfg, keys[i], keys[j]) {
      TwoDistinct(cfg, size, keys, table, i, j);
    }
    PairsApart(cfg, keys[0], keys[1], keys[2], keys[3], keys[4]);
  }
}
