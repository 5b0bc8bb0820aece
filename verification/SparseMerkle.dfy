/**
 The sparse Merkle tree of a finite map, defined by recursion on the bits of its paths. An empty
 subtree hashes to the placeholder, a subtree holding one entry to that entry's leaf, any other
 subtree to a node over its two halves. This is the reference the incremental code of smt/smt.go
 is compared with; the code itself never sees the tree.
 */
module SparseMerkle {
  import opened Bytes

  /** The shared hasher: its digest width in bytes, and its digest function. */
  datatype Hasher = Hasher(size: nat, sum: Bytes -> Bytes) {

    /** All that is asked of the digest here: fixed width, and never the all-zero placeholder. */
    ghost predicate Valid() {
      && size > 0
      && (forall data: Bytes :: |sum(data)| == size && sum(data) != Placeholder())
    }

    function Depth(): nat {
      size * 8
    }

    function Placeholder(): (r: Bytes)
      ensures |r| == size && forall k :: 0 <= k < size ==> r[k] == 0
    {
      seq(size, i => 0)
    }

    /** What is hashed for a leaf: the prefix 0, the path, the hash of the value. */
    function LeafData(path: Bytes, valueHash: Bytes): (r: Bytes)
      ensures |r| == 1 + |path| + |valueHash| && r[0] == 0
      ensures r[1..1 + |path|] == path && r[1 + |path|..] == valueHash
    {
      [0] + path + valueHash
    }

    /** What is hashed for an inner node: the prefix 1 and both children. */
    function NodeData(left: Bytes, right: Bytes): (r: Bytes)
      ensures |r| == 1 + |left| + |right| && r[0] == 1
      ensures r[1..1 + |left|] == left && r[1 + |left|..] == right
    {
      [1] + left + right
    }

    function DigestLeaf(path: Bytes, valueHash: Bytes): Bytes {
      sum(LeafData(path, valueHash))
    }

    function DigestNode(left: Bytes, right: Bytes): Bytes {
      sum(NodeData(left, right))
    }

    /** The node over `current` and its sibling, `current` being on the side `bit` of the path. */
    function Join(bit: bool, current: Bytes, sibling: Bytes): Bytes {
      if bit then DigestNode(sibling, current) else DigestNode(current, sibling)
    }
  }

  /** Contents of a tree: values by path. */
  type Entries = map<Bytes, Bytes>

  predicate PathsOf(h: Hasher, m: Entries) {
    forall k :: k in m ==> |k| == h.size
  }

  /** All paths of the subtree, and `p` itself, share their first `d` bits. */
  ghost predicate Under(h: Hasher, m: Entries, p: Bytes, d: nat)
    requires PathsOf(h, m) && |p| == h.size && d <= h.Depth()
  {
    forall k :: k in m ==> Agree(p, k, d)
  }

  predicate Lone(m: Entries) {
    exists k :: k in m && m.Keys == {k}
  }

  function LonePath(m: Entries): (k: Bytes)
    requires Lone(m)
    ensures m.Keys == {k}
  {
    var k :| k in m && m.Keys == {k};
    k
  }

  /** The half of a subtree at depth `d` whose paths have `bit` at that depth. */
  function Half(h: Hasher, m: Entries, d: nat, bit: bool): (r: Entries)
    requires PathsOf(h, m) && d < h.Depth()
    ensures PathsOf(h, r)
  {
    map k | k in m && Bit(k, d) == bit :: m[k]
  }

  /** Hash of the subtree rooted at depth `d` that holds `m`. */
  function NodeHash(h: Hasher, m: Entries, d: nat): Bytes
    requires PathsOf(h, m) && d <= h.Depth()
    decreases h.Depth() - d
  {
    if m == map[] then h.Placeholder()
    else if Lone(m) then
      var k := LonePath(m);
      h.DigestLeaf(k, h.sum(m[k]))
    else if d == h.Depth() then h.Placeholder() // never a real subtree: see NotLone
    else h.DigestNode(NodeHash(h, Half(h, m, d, false), d + 1), NodeHash(h, Half(h, m, d, true), d + 1))
  }

  function Root(h: Hasher, m: Entries): Bytes
    requires PathsOf(h, m)
  {
    NodeHash(h, m, 0)
  }

  /** Siblings met on the way from depth `d` down to the slot of `p`, the deepest one first. */
  function Siblings(h: Hasher, m: Entries, p: Bytes, d: nat): seq<Bytes>
    requires PathsOf(h, m) && |p| == h.size && d <= h.Depth()
    decreases h.Depth() - d
  {
    if m == map[] || Lone(m) || d == h.Depth() then []
    else
      var bit := Bit(p, d);
      Siblings(h, Half(h, m, d, bit), p, d + 1) + [NodeHash(h, Half(h, m, d, !bit), d + 1)]
  }

  /** Data of the leaf found in the slot of `p`; empty when the slot is. */
  function SlotLeaf(h: Hasher, m: Entries, p: Bytes, d: nat): Bytes
    requires PathsOf(h, m) && |p| == h.size && d <= h.Depth()
    decreases h.Depth() - d
  {
    if m == map[] then []
    else if Lone(m) then
      var k := LonePath(m);
      h.LeafData(k, h.sum(m[k]))
    else if d == h.Depth() then []
    else SlotLeaf(h, Half(h, m, d, Bit(p, d)), p, d + 1)
  }

  // ---------- facts about the tree ----------

  lemma NodeHashSize(h: Hasher, m: Entries, d: nat)
    requires h.Valid() && PathsOf(h, m) && d <= h.Depth()
    ensures |NodeHash(h, m, d)| == h.size
  {
  }

  /** A subtree at full depth holds at most one entry. */
  lemma NotLone(h: Hasher, m: Entries, p: Bytes, d: nat)
    requires PathsOf(h, m) && |p| == h.size && d <= h.Depth()
    requires Under(h, m, p, d)
    requires m != map[] && !Lone(m)
    ensures d < h.Depth()
  {
    forall k | d == h.Depth() && k in m ensures k == p {
      PathFromBits(p, k);
    }
  }

  lemma UnderHalf(h: Hasher, m: Entries, p: Bytes, d: nat)
    requires PathsOf(h, m) && |p| == h.size && d < h.Depth()
    requires Under(h, m, p, d)
    ensures Under(h, Half(h, m, d, Bit(p, d)), p, d + 1)
  {
  }

  /** Putting a path into a subtree puts it into the half it belongs to. */
  lemma HalfInsert(h: Hasher, m: Entries, p: Bytes, v: Bytes, d: nat)
    requires PathsOf(h, m) && |p| == h.size && d < h.Depth()
    ensures PathsOf(h, m[p := v])
    ensures Half(h, m[p := v], d, Bit(p, d)) == Half(h, m, d, Bit(p, d))[p := v]
    ensures Half(h, m[p := v], d, !Bit(p, d)) == Half(h, m, d, !Bit(p, d))
  {
  }

  lemma InsertNotLone(m: Entries, p: Bytes, v: Bytes)
    requires m != map[] && !Lone(m)
    ensures m[p := v] != map[] && !Lone(m[p := v])
  {
    assert exists q :: q in m && q != p by {
      var k :| k in m;
      assert k == p ==> m.Keys != {p};
    }
    var q :| q in m && q != p;
    assert q in m[p := v] && p in m[p := v];
  }

  /** A subtree of one entry. */
  lemma NodeHashLone(h: Hasher, m: Entries, k: Bytes, d: nat)
    requires PathsOf(h, m) && d <= h.Depth() && k in m && m.Keys == {k}
    ensures NodeHash(h, m, d) == h.DigestLeaf(k, h.sum(m[k]))
  {
    assert Lone(m);
  }

  /** A subtree of several entries, seen from a path: its near half joined with the far one. */
  lemma NodeHashJoin(h: Hasher, m: Entries, p: Bytes, d: nat)
    requires PathsOf(h, m) && |p| == h.size && d < h.Depth()
    requires m != map[] && !Lone(m)
    ensures NodeHash(h, m, d) ==
      h.Join(Bit(p, d), NodeHash(h, Half(h, m, d, Bit(p, d)), d + 1), NodeHash(h, Half(h, m, d, !Bit(p, d)), d + 1))
  {
    assert !Bit(p, d) ==> Half(h, m, d, false) == Half(h, m, d, Bit(p, d));
  }

  /** A tree of two entries at the depth where their paths part: a node over the two leaves. */
  lemma PairParted(h: Hasher, k: Bytes, w: Bytes, p: Bytes, v: Bytes, d: nat)
    requires |k| == h.size && |p| == h.size && d < h.Depth() && Bit(k, d) != Bit(p, d)
    ensures NodeHash(h, map[k := w, p := v], d) ==
      h.Join(Bit(p, d), h.DigestLeaf(p, h.sum(v)), h.DigestLeaf(k, h.sum(w)))
  {
    var m := map[k := w, p := v];
    assert k != p && k in m && p in m;
    HalfIsLone(h, m, p, d);
    HalfIsLone(h, m, k, d);
    NodeHashJoin(h, m, p, d);
  }

  lemma HalfIsLone(h: Hasher, m: Entries, p: Bytes, d: nat)
    requires PathsOf(h, m) && d < h.Depth() && p in m
    requires forall k :: k in m && Bit(k, d) == Bit(p, d) ==> k == p
    ensures NodeHash(h, Half(h, m, d, Bit(p, d)), d + 1) == h.DigestLeaf(p, h.sum(m[p]))
  {
    var half := Half(h, m, d, Bit(p, d));
    assert half.Keys == {p};
    NodeHashLone(h, half, p, d + 1);
  }

  /** A tree of two entries above that depth: a node over the same two entries and a placeholder. */
  lemma PairTogether(h: Hasher, k: Bytes, w: Bytes, p: Bytes, v: Bytes, d: nat)
    requires |k| == h.size && |p| == h.size && k != p && d < h.Depth() && Bit(k, d) == Bit(p, d)
    ensures NodeHash(h, map[k := w, p := v], d) ==
      h.Join(Bit(p, d), NodeHash(h, map[k := w, p := v], d + 1), h.Placeholder())
  {
    var m := map[k := w, p := v];
    assert k in m && p in m;
    NodeHashJoin(h, m, p, d);
    assert Half(h, m, d, Bit(p, d)) == m && Half(h, m, d, !Bit(p, d)) == map[];
  }
}
