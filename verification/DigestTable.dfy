/**
 Digests without collisions where it matters: for every family of trees there is a function of fixed
 width under which no two inputs hashed for these trees collide, as long as there are enough digests.
 Inputs get digests one after the other, as a table.
 */
module DigestTable {
  import opened Bytes
  import opened SparseMerkle
  import opened SmtUnique
  import opened PathSets
  import opened PolyTxs

  // ---------- the table ----------

  /** The digest of the input with index `n`; no input gets the all-zero one. */
  function Code(size: nat, n: nat): Bytes {
    LittleEndian(n + 1, size)
  }

  function IndexOf(table: seq<Bytes>, x: Bytes): (n: nat)
    requires x in table
    ensures n < |table| && table[n] == x
  {
    if table[0] == x then 0 else 1 + IndexOf(table[1..], x)
  }

  /** Inputs in the table have their own digests, all others one more. */
  function Digest(size: nat, table: seq<Bytes>): Hasher {
    Hasher(size, x => Code(size, if x in table then IndexOf(table, x) else |table|))
  }

  /** There are enough digests. */
  predicate Room(size: nat, table: seq<Bytes>) {
    size > 0 && |table| + 1 < Pow256(size)
  }

  lemma {:induction false} ZeroBytes(size: nat)
    ensures LittleEndian(0, size) == seq(size, i => 0)
  {
    if size > 0 {
      ZeroBytes(size - 1);
      var rest := seq(size - 1, i => 0 as byte);
      assert [0 as byte] + rest == seq(size, i => 0 as byte);
    }
  }

  lemma CodesApart(size: nat, m: nat, n: nat)
    requires m + 1 < Pow256(size) && n + 1 < Pow256(size)
    ensures Code(size, m) == Code(size, n) ==> m == n
    ensures Code(size, m) != seq(size, i => 0)
  {
    ZeroBytes(size);
    if Code(size, m) == Code(size, n) {
      LittleEndianInjective(m + 1, n + 1, size);
    }
    if Code(size, m) == LittleEndian(0, size) {
      LittleEndianInjective(m + 1, 0, size);
    }
  }

  lemma DigestValid(size: nat, table: seq<Bytes>)
    requires Room(size, table)
    ensures Digest(size, table).Valid()
  {
    var h := Digest(size, table);
    forall x: Bytes ensures |h.sum(x)| == size && h.sum(x) != h.Placeholder() {
      var n := if x in table then IndexOf(table, x) else |table|;
      CodesApart(size, n, n);
    }
  }

  lemma DigestApart(size: nat, table: seq<Bytes>, x: Bytes, y: Bytes)
    requires Room(size, table) && x in table && y in table && x != y
    ensures Digest(size, table).sum(x) != Digest(size, table).sum(y)
  {
    CodesApart(size, IndexOf(table, x), IndexOf(table, y));
  }

  lemma {:induction false} IndexStays(table: seq<Bytes>, table': seq<Bytes>, x: Bytes)
    requires table <= table' && x in table
    ensures IndexOf(table', x) == IndexOf(table, x)
  {
    if table[0] != x {
      IndexStays(table[1..], table'[1..], x);
    }
  }

  lemma DigestStays(size: nat, table: seq<Bytes>, table': seq<Bytes>, x: Bytes)
    requires table <= table' && x in table
    ensures Digest(size, table').sum(x) == Digest(size, table).sum(x)
  {
    IndexStays(table, table', x);
  }

  function Add(table: seq<Bytes>, x: Bytes): (r: seq<Bytes>)
    ensures table <= r && x in r && |r| <= |table| + 1
  {
    if x in table then table else table + [x]
  }

  // ---------- covering a tree ----------

  /** Everything hashed for the subtree is in the table. */
  ghost predicate Covered(size: nat, table: seq<Bytes>, m: Entries, d: nat) {
    && PathsOf(Digest(size, table), m) && d <= 8 * size
    && forall x :: x in Preimages(Digest(size, table), m, d) ==> x in table
  }

  lemma SameHalf(size: nat, table: seq<Bytes>, table': seq<Bytes>, m: Entries, d: nat, bit: bool)
    requires PathsOf(Digest(size, table), m) && d < 8 * size
    ensures Half(Digest(size, table), m, d, bit) == Half(Digest(size, table'), m, d, bit)
  {
  }

  lemma StaysLeaf(size: nat, table: seq<Bytes>, table': seq<Bytes>, m: Entries, d: nat)
    requires table <= table' && Covered(size, table, m, d) && Lone(m)
    ensures Covered(size, table', m, d)
    ensures NodeHash(Digest(size, table'), m, d) == NodeHash(Digest(size, table), m, d)
  {
    var h := Digest(size, table);
    var k := LonePath(m);
    LeafData(h, m, d);
    assert m[k] in Preimages(h, m, d) && h.LeafData(k, h.sum(m[k])) in Preimages(h, m, d);
    DigestStays(size, table, table', m[k]);
    DigestStays(size, table, table', h.LeafData(k, h.sum(m[k])));
    LeafData(Digest(size, table'), m, d);
    hide Digest, Preimages, NodeHash;
  }

  lemma LeafData(h: Hasher, m: Entries, d: nat)
    requires PathsOf(h, m) && d <= h.Depth() && Lone(m)
    ensures var k := LonePath(m); var data := h.LeafData(k, h.sum(m[k]));
      Preimages(h, m, d) == {m[k], data} && NodeHash(h, m, d) == h.sum(data)
  {
  }

  /** What is hashed for a subtree of several entries: its node, and what is hashed for the halves. */
  lemma NodeInput(h: Hasher, m: Entries, left: Entries, right: Entries, d: nat)
    requires PathsOf(h, m) && d < h.Depth() && m != map[] && !Lone(m)
    requires left == Half(h, m, d, false) && right == Half(h, m, d, true)
    ensures var data := h.NodeData(NodeHash(h, left, d + 1), NodeHash(h, right, d + 1));
      && Preimages(h, m, d) == {data} + Preimages(h, left, d + 1) + Preimages(h, right, d + 1)
      && NodeHash(h, m, d) == h.sum(data)
  {
  }

  lemma HalvesCovered(size: nat, table: seq<Bytes>, m: Entries, left: Entries, right: Entries, d: nat)
    requires Covered(size, table, m, d) && d < 8 * size && m != map[] && !Lone(m)
    requires left == Half(Digest(size, table), m, d, false) && right == Half(Digest(size, table), m, d, true)
    ensures Covered(size, table, left, d + 1) && Covered(size, table, right, d + 1)
    ensures var h := Digest(size, table); h.NodeData(NodeHash(h, left, d + 1), NodeHash(h, right, d + 1)) in table
  {
    NodeInput(Digest(size, table), m, left, right, d);
    hide Preimages, NodeHash;
  }

  lemma WholeCovered(size: nat, table: seq<Bytes>, m: Entries, left: Entries, right: Entries, d: nat)
    requires PathsOf(Digest(size, table), m) && d < 8 * size && m != map[] && !Lone(m)
    requires left == Half(Digest(size, table), m, d, false) && right == Half(Digest(size, table), m, d, true)
    requires Covered(size, table, left, d + 1) && Covered(size, table, right, d + 1)
    requires var h := Digest(size, table); h.NodeData(NodeHash(h, left, d + 1), NodeHash(h, right, d + 1)) in table
    ensures Covered(size, table, m, d)
  {
    NodeInput(Digest(size, table), m, left, right, d);
    hide Preimages, NodeHash;
  }

  /** A subtree in the table keeps its hash when the table grows. */
  lemma {:induction false} StaysCovered(size: nat, table: seq<Bytes>, table': seq<Bytes>, m: Entries, d: nat)
    requires table <= table' && Covered(size, table, m, d)
    ensures Covered(size, table', m, d)
    ensures NodeHash(Digest(size, table'), m, d) == NodeHash(Digest(size, table), m, d)
    decreases 8 * size - d
  {
    if Lone(m) {
      StaysLeaf(size, table, table', m, d);
    } else if m != map[] && d < 8 * size {
      StaysNode(size, table, table', m, d);
    }
  }

  lemma {:induction false} StaysNode(size: nat, table: seq<Bytes>, table': seq<Bytes>, m: Entries, d: nat)
    requires table <= table' && PathsOf(Digest(size, table), m) && Covered(size, table, m, d)
    requires d < 8 * size && m != map[] && !Lone(m)
    ensures Covered(size, table', m, d)
    ensures NodeHash(Digest(size, table'), m, d) == NodeHash(Digest(size, table), m, d)
    decreases 8 * size - d, 0
  {
    hide Preimages, NodeHash, Covered;
    var h, h' := Digest(size, table), Digest(size, table');
    var left, right := Half(h, m, d, false), Half(h, m, d, true);
    SameHalf(size, table, table', m, d, false);
    SameHalf(size, table, table', m, d, true);
    HalvesCovered(size, table, m, left, right, d);
    StaysCovered(size, table, table', left, d + 1);
    StaysCovered(size, table, table', right, d + 1);
    WholeCovered(size, table', m, left, right, d);
    NodeInput(h, m, left, right, d);
    NodeInput(h', m, left, right, d);
    DigestStays(size, table, table', h.NodeData(NodeHash(h, left, d + 1), NodeHash(h, right, d + 1)));
  }

  /** How many inputs a subtree of `n` entries at depth `d` has at most. */
  function Cost(size: nat, n: nat, d: nat): nat
    requires d <= 8 * size
  {
    2 * n * (8 * size - d + 1)
  }

  lemma HalvesCount(h: Hasher, m: Entries, d: nat)
    requires PathsOf(h, m) && d < h.Depth()
    ensures |Half(h, m, d, false)| + |Half(h, m, d, true)| == |m|
  {
    var left, right := Half(h, m, d, false), Half(h, m, d, true);
    assert m.Keys == left.Keys + right.Keys && left.Keys !! right.Keys;
    assert |m.Keys| == |left.Keys| + |right.Keys|;
  }

  lemma CostOfHalves(size: nat, l: nat, r: nat, d: nat)
    requires d < 8 * size && l + r >= 1
    ensures Cost(size, l, d + 1) + Cost(size, r, d + 1) + 1 <= Cost(size, l + r, d)
  {
    var w := 8 * size - d;
    assert 2 * (l + r) * (w + 1) == 2 * l * w + 2 * r * w + 2 * (l + r);
  }

  lemma CostOfOne(size: nat, d: nat)
    requires d <= 8 * size
    ensures Cost(size, 1, d) >= 2
  {
  }

  lemma LeafCovered(size: nat, table: seq<Bytes>, m: Entries, d: nat) returns (table': seq<Bytes>)
    requires PathsOf(Digest(size, table), m) && d <= 8 * size && Lone(m)
    ensures table <= table' && Covered(size, table', m, d) && |table'| <= |table| + 2
  {
    var k := LonePath(m);
    var table1 := Add(table, m[k]);
    var h1 := Digest(size, table1);
    table' := Add(table1, h1.LeafData(k, h1.sum(m[k])));
    DigestStays(size, table1, table', m[k]);
  }

  /** Grows the table by the inputs of a subtree. */
  lemma {:induction false} Cover(size: nat, table: seq<Bytes>, m: Entries, d: nat) returns (table': seq<Bytes>)
    requires PathsOf(Digest(size, table), m) && d <= 8 * size
    ensures table <= table' && Covered(size, table', m, d) && |table'| <= |table| + Cost(size, |m|, d)
    decreases 8 * size - d
  {
    hide Covered, Preimages, NodeHash, Cost;
    var h := Digest(size, table);
    if m == map[] || (d == 8 * size && !Lone(m)) {
      NothingHashed(size, table, m, d);
      table' := table;
    } else if Lone(m) {
      table' := LeafCovered(size, table, m, d);
      LoneCount(m);
      CostOfOne(size, d);
    } else {
      table' := CoverNode(size, table, m, d);
    }
  }

  lemma {:induction false} CoverNode(size: nat, table: seq<Bytes>, m: Entries, d: nat) returns (table': seq<Bytes>)
    requires PathsOf(Digest(size, table), m) && d < 8 * size && m != map[] && !Lone(m)
    ensures table <= table' && Covered(size, table', m, d) && |table'| <= |table| + Cost(size, |m|, d)
    decreases 8 * size - d, 0
  {
    hide Covered, Preimages, NodeHash, Cost, Lone;
    var h := Digest(size, table);
    var left, right := Half(h, m, d, false), Half(h, m, d, true);
    HalvesCount(h, m, d);
    CostOfHalves(size, |left|, |right|, d);
    var table1 := Cover(size, table, left, d + 1);
    assert PathsOf(Digest(size, table1), right) && PathsOf(Digest(size, table1), m);
    SameHalf(size, table, table1, m, d, false);
    SameHalf(size, table, table1, m, d, true);
    var table2 := Cover(size, table1, right, d + 1);
    table' := NodeCovered(size, table1, table2, m, left, right, d);
  }

  lemma NothingHashed(size: nat, table: seq<Bytes>, m: Entries, d: nat)
    requires PathsOf(Digest(size, table), m) && d <= 8 * size && (m == map[] || (d == 8 * size && !Lone(m)))
    ensures Covered(size, table, m, d)
  {
  }

  lemma LoneCount(m: Entries)
    requires Lone(m)
    ensures |m| == 1
  {
    var k := LonePath(m);
    assert |m.Keys| == |{k}|;
  }

  lemma NodeCovered(size: nat, table1: seq<Bytes>, table2: seq<Bytes>, m: Entries, left: Entries, right: Entries,
                    d: nat)
    returns (table': seq<Bytes>)
    requires PathsOf(Digest(size, table1), m) && d < 8 * size && m != map[] && !Lone(m)
    requires left == Half(Digest(size, table1), m, d, false) && right == Half(Digest(size, table1), m, d, true)
    requires table1 <= table2 && Covered(size, table1, left, d + 1) && Covered(size, table2, right, d + 1)
    ensures table2 <= table' && Covered(size, table', m, d) && |table'| <= |table2| + 1
  {
    hide Covered, Preimages, NodeHash;
    StaysCovered(size, table1, table2, left, d + 1);
    var h2 := Digest(size, table2);
    table' := Add(table2, h2.NodeData(NodeHash(h2, left, d + 1), NodeHash(h2, right, d + 1)));
    StaysCovered(size, table2, table', left, d + 1);
    StaysCovered(size, table2, table', right, d + 1);
    SameHalf(size, table1, table', m, d, false);
    SameHalf(size, table1, table', m, d, true);
    WholeCovered(size, table', m, left, right, d);
  }

  // ---------- covering a family ----------

  /** How many inputs a family of trees has at most. */
  function FamilyCost(size: nat, trees: seq<set<Bytes>>): nat {
    if trees == [] then 0 else Cost(size, |trees[0]|, 0) + FamilyCost(size, trees[1..])
  }

  lemma PathsOfTree(h: Hasher, paths: set<Bytes>)
    ensures AllPaths(h, paths) <==> PathsOf(h, Tree(paths))
  {
    assert forall p :: p in paths <==> p in Tree(paths);
  }

  lemma {:induction false} CoverFamily(size: nat, table: seq<Bytes>, trees: seq<set<Bytes>>)
    returns (table': seq<Bytes>)
    requires forall t :: t in trees ==> AllPaths(Digest(size, table), t)
    ensures table <= table' && |table'| <= |table| + FamilyCost(size, trees)
    ensures forall t :: t in trees ==> Covered(size, table', Tree(t), 0)
    decreases |trees|
  {
    hide Covered, Cost, Room;
    if trees == [] {
      table' := table;
    } else {
      PathsOfTree(Digest(size, table), trees[0]);
      var table1 := Cover(size, table, Tree(trees[0]), 0);
      assert |Tree(trees[0]).Keys| == |trees[0]|;
      forall t | t in trees[1..] ensures AllPaths(Digest(size, table1), t) {
        assert t in trees && AllPaths(Digest(size, table), t);
      }
      table' := CoverFamily(size, table1, trees[1..]);
      StaysCovered(size, table1, table', Tree(trees[0]), 0);
      forall t | t in trees ensures Covered(size, table', Tree(t), 0) {
        assert t == trees[0] || t in trees[1..];
      }
    }
  }

  /** What is in the table does not collide. */
  lemma CoveredApart(size: nat, table: seq<Bytes>, trees: set<set<Bytes>>)
    requires Room(size, table) && forall t :: t in trees ==> Covered(size, table, Tree(t), 0)
    ensures CollisionFree(Digest(size, table), trees)
  {
    var h := Digest(size, table);
    forall a | a in trees ensures AllPaths(h, a) {
      PathsOfTree(h, a);
    }
    forall a, b | a in trees && b in trees ensures !Collide(h, Hashed(h, a), Hashed(h, b)) {
      forall x, y | x in Hashed(h, a) && y in Hashed(h, b) && x != y ensures h.sum(x) != h.sum(y) {
        assert Covered(size, table, Tree(a), 0) && Covered(size, table, Tree(b), 0);
        DigestApart(size, table, x, y);
      }
    }
  }

  /**
   For every family of trees, whatever inputs are to have the first digests, some digest of the given
   width has no collision between inputs hashed for these trees, if there are enough digests.
   */
  lemma SomeDigestIsCollisionFree(size: nat, first: seq<Bytes>, trees: seq<set<Bytes>>) returns (table: seq<Bytes>)
    requires size > 0 && forall t, p :: t in trees && p in t ==> |p| == size
    requires |first| + FamilyCost(size, trees) + 1 < Pow256(size)
    ensures first <= table && Room(size, table) && Digest(size, table).Valid()
    ensures CollisionFree(Digest(size, table), set t | t in trees)
  {
    table := CoverFamily(size, first, trees);
    DigestValid(size, table);
    CoveredApart(size, table, set t | t in trees);
  }
}
