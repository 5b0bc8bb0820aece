/**
 `UpdateRootByPath` of smt/smt.go: the new root of a sparse Merkle tree from the slot of one path
 alone, and the proof that it is the root of the updated tree.
 */
module SmtUpdate {
  import opened Bytes
  import opened Wrappers
  import opened SparseMerkle

  // ---------- the incremental root, as a function ----------

  /** `parseLeaf`: path and value hash of a leaf. */
  function ParseLeaf(h: Hasher, data: Bytes): (Bytes, Bytes)
    requires |data| >= 1 + h.size
  {
    (data[1..1 + h.size], data[1 + h.size..])
  }

  /** Leaf data the Go code can read: absent, or long enough to be cut by `parseLeaf`. */
  predicate Readable(h: Hasher, oldLeafData: Bytes) {
    oldLeafData == [] || |oldLeafData| >= 1 + h.size
  }

  /**
   The sibling used at depth `level`: side nodes are listed from the deepest one up, a missing one is
   a placeholder above the split of two leaves and skipped otherwise.
   */
  function SiblingAt(h: Hasher, sideNodes: seq<Option<Bytes>>, common: nat, level: nat): Option<Bytes> {
    if level >= |sideNodes| || sideNodes[|sideNodes| - 1 - level] == None then
      if common != h.Depth() && common > level then Some(h.Placeholder()) else None
    else sideNodes[|sideNodes| - 1 - level]
  }

  function Ascend(h: Hasher, path: Bytes, current: Bytes, sibling: Option<Bytes>, level: nat): Bytes
    requires |path| == h.size && level < h.Depth()
  {
    match sibling
    case None => current
    case Some(node) => h.Join(Bit(path, level), current, node)
  }

  /** The hash reached at depth `level` when `start` is carried up from the bottom. */
  function Climb(h: Hasher, path: Bytes, start: Bytes, common: nat, sideNodes: seq<Option<Bytes>>, level: nat): Bytes
    requires |path| == h.size && level <= h.Depth()
    decreases h.Depth() - level
  {
    if level == h.Depth() then start
    else
      var below := Climb(h, path, start, common, sideNodes, level + 1);
      Ascend(h, path, below, SiblingAt(h, sideNodes, common, level), level)
  }

  /** Bits shared with the leaf found in the slot; the whole depth when there is none. */
  function SharedBits(h: Hasher, path: Bytes, oldLeafData: Bytes): nat
    requires |path| == h.size && Readable(h, oldLeafData)
  {
    if oldLeafData == [] || h.sum(oldLeafData) == h.Placeholder() then h.Depth()
    else CommonPrefix(path, ParseLeaf(h, oldLeafData).0, 0)
  }

  /** The new leaf, joined with a foreign old leaf where their paths part. */
  function StartHash(h: Hasher, path: Bytes, value: Bytes, oldLeafData: Bytes): Bytes
    requires |path| == h.size && Readable(h, oldLeafData)
  {
    var leaf := h.DigestLeaf(path, h.sum(value));
    var common := SharedBits(h, path, oldLeafData);
    if common < h.Depth() then h.Join(Bit(path, common), leaf, h.sum(oldLeafData)) else leaf
  }

  function UpdatedRoot(h: Hasher, path: Bytes, value: Bytes, sideNodes: seq<Option<Bytes>>, oldLeafData: Bytes): Bytes
    requires |path| == h.size && Readable(h, oldLeafData)
  {
    var common := SharedBits(h, path, oldLeafData);
    Climb(h, path, StartHash(h, path, value, oldLeafData), common, sideNodes, 0)
  }

  // ---------- what a caller passes in ----------

  function Present(nodes: seq<Bytes>): (r: seq<Option<Bytes>>)
    ensures |r| == |nodes|
    ensures forall i :: 0 <= i < |r| ==> r[i] == Some(nodes[i])
  {
    seq(|nodes|, i requires 0 <= i < |nodes| => Some(nodes[i]))
  }

  /** The side nodes and old leaf of the slot of `path` in the tree of `m`. */
  ghost predicate Proves(h: Hasher, m: Entries, path: Bytes, sideNodes: seq<Option<Bytes>>, oldLeafData: Bytes) {
    && PathsOf(h, m)
    && |path| == h.size
    && sideNodes == Present(Siblings(h, m, path, 0))
    && oldLeafData == SlotLeaf(h, m, path, 0)
  }

  // ---------- the proof ----------

  lemma {:induction false} ClimbIdle(h: Hasher, path: Bytes, start: Bytes, common: nat, sideNodes: seq<Option<Bytes>>,
                                     level: nat)
    requires |path| == h.size && |sideNodes| <= level <= h.Depth() && common <= h.Depth()
    requires common == h.Depth() || common <= level
    ensures Climb(h, path, start, common, sideNodes, level) == start
    decreases h.Depth() - level
  {
    if level < h.Depth() {
      ClimbIdle(h, path, start, common, sideNodes, level + 1);
    }
  }

  /** Above the split of two leaves the climb pads with placeholders, as the tree of the two does. */
  lemma {:induction false} ClimbPair(h: Hasher, k: Bytes, w: Bytes, p: Bytes, v: Bytes, sideNodes: seq<Option<Bytes>>,
                                     level: nat)
    requires |k| == h.size && |p| == h.size && k != p
    requires |sideNodes| <= level <= CommonPrefix(p, k, 0)
    requires CommonPrefix(p, k, 0) < h.Depth()
    ensures var common := CommonPrefix(p, k, 0);
      var start := h.Join(Bit(p, common), h.DigestLeaf(p, h.sum(v)), h.DigestLeaf(k, h.sum(w)));
      Climb(h, p, start, common, sideNodes, level) == NodeHash(h, map[k := w, p := v], level)
    decreases h.Depth() - level
  {
    hide NodeHash, CommonPrefix, Hasher.Join;
    var common := CommonPrefix(p, k, 0);
    if level == common {
      PairParted(h, k, w, p, v, level);
      var start := h.Join(Bit(p, common), h.DigestLeaf(p, h.sum(v)), h.DigestLeaf(k, h.sum(w)));
      ClimbIdle(h, p, start, common, sideNodes, level);
    } else {
      PairTogether(h, k, w, p, v, level);
      ClimbPair(h, k, w, p, v, sideNodes, level + 1);
    }
  }

  /** The slot holds the leaf of another path. */
  lemma ClimbForeign(h: Hasher, m: Entries, p: Bytes, v: Bytes, d: nat, sideNodes: seq<Option<Bytes>>)
    requires h.Valid() && PathsOf(h, m) && |p| == h.size && d <= h.Depth() && Under(h, m, p, d)
    requires Lone(m) && p !in m && |sideNodes| == d
    ensures var slot := SlotLeaf(h, m, p, d);
      Climb(h, p, StartHash(h, p, v, slot), SharedBits(h, p, slot), sideNodes, d) == NodeHash(h, m[p := v], d)
  {
    var k := LonePath(m);
    var slot := h.LeafData(k, h.sum(m[k]));
    assert ParseLeaf(h, slot).0 == k;
    var common := CommonPrefix(p, k, 0);
    if common == h.Depth() {
      PathFromBits(p, k);
    }
    assert d <= common by {
      assert Agree(p, k, d);
    }
    assert m == map[k := m[k]];
    assert m[p := v] == map[k := m[k], p := v];
    ClimbPair(h, k, m[k], p, v, sideNodes, d);
  }

  /** The slot is empty or holds the leaf of the path itself. */
  lemma ClimbOwn(h: Hasher, m: Entries, p: Bytes, v: Bytes, d: nat, sideNodes: seq<Option<Bytes>>)
    requires h.Valid() && PathsOf(h, m) && |p| == h.size && d <= h.Depth()
    requires m == map[] || (Lone(m) && p in m)
    requires |sideNodes| == d
    ensures var slot := SlotLeaf(h, m, p, d);
      Climb(h, p, StartHash(h, p, v, slot), SharedBits(h, p, slot), sideNodes, d) == NodeHash(h, m[p := v], d)
  {
    var slot := SlotLeaf(h, m, p, d);
    if m != map[] {
      assert LonePath(m) == p && ParseLeaf(h, slot).0 == p;
    }
    assert SharedBits(h, p, slot) == h.Depth();
    ClimbIdle(h, p, StartHash(h, p, v, slot), h.Depth(), sideNodes, d);
    NodeHashLone(h, m[p := v], p, d);
  }

  /** The climb agrees with the tree at every depth; `above` are the side nodes nearer the root. */
  lemma {:induction false} ClimbIsNodeHash(h: Hasher, m: Entries, p: Bytes, v: Bytes, d: nat, above: seq<Option<Bytes>>)
    requires h.Valid() && PathsOf(h, m) && |p| == h.size && d <= h.Depth() && Under(h, m, p, d)
    requires |above| == d
    ensures Readable(h, SlotLeaf(h, m, p, d))
    ensures var slot := SlotLeaf(h, m, p, d);
      var sideNodes := Present(Siblings(h, m, p, d)) + above;
      Climb(h, p, StartHash(h, p, v, slot), SharedBits(h, p, slot), sideNodes, d) == NodeHash(h, m[p := v], d)
    decreases h.Depth() - d, 1
  {
    var sideNodes := Present(Siblings(h, m, p, d)) + above;
    if m == map[] || Lone(m) {
      assert sideNodes == above;
      if m == map[] || p in m {
        ClimbOwn(h, m, p, v, d, above);
      } else {
        ClimbForeign(h, m, p, v, d, above);
      }
    } else {
      ClimbInner(h, m, p, v, d, above);
    }
  }

  lemma {:induction false} ClimbInner(h: Hasher, m: Entries, p: Bytes, v: Bytes, d: nat, above: seq<Option<Bytes>>)
    requires h.Valid() && PathsOf(h, m) && |p| == h.size && d <= h.Depth() && Under(h, m, p, d)
    requires |above| == d && m != map[] && !Lone(m)
    ensures d < h.Depth() && Readable(h, SlotLeaf(h, m, p, d))
    ensures var slot := SlotLeaf(h, m, p, d);
      var sideNodes := Present(Siblings(h, m, p, d)) + above;
      Climb(h, p, StartHash(h, p, v, slot), SharedBits(h, p, slot), sideNodes, d) == NodeHash(h, m[p := v], d)
    decreases h.Depth() - d, 0
  {
    NotLone(h, m, p, d);
    UnderHalf(h, m, p, d);
    SlotBelow(h, m, p, d, above);
    var near, far := Half(h, m, d, Bit(p, d)), Half(h, m, d, !Bit(p, d));
    var sibling := NodeHash(h, far, d + 1);
    ClimbIsNodeHash(h, near, p, v, d + 1, [Some(sibling)] + above);
    InsertedNode(h, m, p, v, d);
    hide NodeHash, Half, Siblings, SlotLeaf, Present, StartHash, SharedBits, Under, Lone, PathsOf;
  }

  /** Inserting at an inner node changes the half the path lies in, and leaves its sibling. */
  lemma InsertedNode(h: Hasher, m: Entries, p: Bytes, v: Bytes, d: nat)
    requires h.Valid() && PathsOf(h, m) && |p| == h.size && d < h.Depth() && Under(h, m, p, d)
    requires m != map[] && !Lone(m)
    ensures var near, far := Half(h, m, d, Bit(p, d)), Half(h, m, d, !Bit(p, d));
      NodeHash(h, m[p := v], d) == h.Join(Bit(p, d), NodeHash(h, near[p := v], d + 1), NodeHash(h, far, d + 1))
  {
    HalfInsert(h, m, p, v, d);
    InsertNotLone(m, p, v);
    NodeHashJoin(h, m[p := v], p, d);
  }

  /** Side nodes and leaf of a slot, seen from the half of the tree it lies in. */
  lemma SlotBelow(h: Hasher, m: Entries, p: Bytes, d: nat, above: seq<Option<Bytes>>)
    requires PathsOf(h, m) && |p| == h.size && d < h.Depth()
    requires |above| == d && m != map[] && !Lone(m)
    ensures var near, far := Half(h, m, d, Bit(p, d)), Half(h, m, d, !Bit(p, d));
      var sideNodes := Present(Siblings(h, m, p, d)) + above;
      && SlotLeaf(h, m, p, d) == SlotLeaf(h, near, p, d + 1)
      && sideNodes == Present(Siblings(h, near, p, d + 1)) + ([Some(NodeHash(h, far, d + 1))] + above)
      && |sideNodes| > d && sideNodes[|sideNodes| - 1 - d] == Some(NodeHash(h, far, d + 1))
  {
    var near, far := Half(h, m, d, Bit(p, d)), Half(h, m, d, !Bit(p, d));
    PresentAppend(Siblings(h, near, p, d + 1), NodeHash(h, far, d + 1), above);
  }

  lemma PresentAppend(nodes: seq<Bytes>, node: Bytes, above: seq<Option<Bytes>>)
    ensures Present(nodes + [node]) + above == Present(nodes) + ([Some(node)] + above)
  {
  }

  /** The root computed from the slot of a path is the root of the tree with the value put there. */
  lemma UpdatedRootIsTreeRoot(h: Hasher, m: Entries, path: Bytes, value: Bytes, sideNodes: seq<Option<Bytes>>,
                              oldLeafData: Bytes)
    requires h.Valid() && Proves(h, m, path, sideNodes, oldLeafData)
    ensures Readable(h, oldLeafData)
    ensures UpdatedRoot(h, path, value, sideNodes, oldLeafData) == Root(h, m[path := value])
  {
    ClimbIsNodeHash(h, m, path, value, 0, []);
    assert sideNodes == Present(Siblings(h, m, path, 0)) + [];
  }

  // ---------- the code ----------

  /**
   `UpdateRootByPath`. The returned root is that of every tree whose slot of `path` shows
   these side nodes and this leaf, after `value` is put there.
   */
  method UpdateRootByPath(h: Hasher, path: Bytes, value: Bytes, sideNodes: seq<Option<Bytes>>, oldLeafData: Bytes)
    returns (root: Bytes)
    requires |path| == h.size && Readable(h, oldLeafData)
    ensures root == UpdatedRoot(h, path, value, sideNodes, oldLeafData)
    ensures h.Valid() ==> forall m ::
      Proves(h, m, path, sideNodes, oldLeafData) ==> root == Root(h, m[path := value])
  {
    var pathNode0 := h.Placeholder();
    if |oldLeafData| != 0 {
      pathNode0 := h.sum(oldLeafData);
    }
    var valueHash := h.sum(value);
    var currentHash := h.DigestLeaf(path, valueHash);
    var commonPrefixCount := h.Depth();
    if pathNode0 != h.Placeholder() {
      var (actualPath, oldValueHash) := ParseLeaf(h, oldLeafData);
      commonPrefixCount := CountCommonPrefix(path, actualPath);
    }
    if commonPrefixCount != h.Depth() {
      if Bit(path, commonPrefixCount) {
        currentHash := h.DigestNode(pathNode0, currentHash);
      } else {
        currentHash := h.DigestNode(currentHash, pathNode0);
      }
    }
    assert commonPrefixCount == SharedBits(h, path, oldLeafData);
    assert currentHash == StartHash(h, path, value, oldLeafData);
    ghost var start := currentHash;
    var offsetOfSideNodes: int := h.Depth() - |sideNodes|;
    var i := 0;
    while i < h.Depth()
      invariant 0 <= i <= h.Depth()
      invariant currentHash == Climb(h, path, start, commonPrefixCount, sideNodes, h.Depth() - i)
    {
      var j := i - offsetOfSideNodes;
      var sibling: Option<Bytes> := None;
      if j < 0 || sideNodes[j] == None {
        if commonPrefixCount != h.Depth() && commonPrefixCount > h.Depth() - 1 - i {
          sibling := Some(h.Placeholder());
        }
      } else {
        sibling := sideNodes[j];
      }
      if sibling.Some? {
        if Bit(path, h.Depth() - 1 - i) {
          currentHash := h.DigestNode(sibling.value, currentHash);
        } else {
          currentHash := h.DigestNode(currentHash, sibling.value);
        }
      }
      i := i + 1;
    }
    root := currentHash;
    forall m | h.Valid() && Proves(h, m, path, sideNodes, oldLeafData)
      ensures root == Root(h, m[path := value])
    {
      UpdatedRootIsTreeRoot(h, m, path, value, sideNodes, oldLeafData);
    }
  }
}
