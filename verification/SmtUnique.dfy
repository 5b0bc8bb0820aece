/**
 Roots identify contents. No digest of fixed width is injective, so nothing of the kind is assumed:
 two different trees with one root give away two different inputs of the digest, both hashed while
 building the trees, with one output.
 */
module SmtUnique {
  import opened Bytes
  import opened SparseMerkle

  /** Everything hashed while building the subtree of `m` at depth `d`. */
  function Preimages(h: Hasher, m: Entries, d: nat): set<Bytes>
    requires PathsOf(h, m) && d <= h.Depth()
    decreases h.Depth() - d
  {
    if m == map[] then {}
    else if Lone(m) then
      var k := LonePath(m);
      {m[k], h.LeafData(k, h.sum(m[k]))}
    else if d == h.Depth() then {}
    else
      var left, right := Half(h, m, d, false), Half(h, m, d, true);
      {h.NodeData(NodeHash(h, left, d + 1), NodeHash(h, right, d + 1))}
        + Preimages(h, left, d + 1) + Preimages(h, right, d + 1)
  }

  /** `x` and `y` are different inputs with one digest, hashed while building `m1` and `m2`. */
  ghost predicate Collision(h: Hasher, m1: Entries, m2: Entries, d: nat, x: Bytes, y: Bytes)
    requires PathsOf(h, m1) && PathsOf(h, m2) && d <= h.Depth()
  {
    x in Preimages(h, m1, d) && y in Preimages(h, m2, d) && x != y && h.sum(x) == h.sum(y)
  }

  /** Two different inputs with the same digest. */
  ghost predicate Collide(h: Hasher, xs: set<Bytes>, ys: set<Bytes>) {
    exists x, y :: x in xs && y in ys && x != y && h.sum(x) == h.sum(y)
  }

  /** A path standing for the position of a half. */
  lemma HalfPath(h: Hasher, m: Entries, p: Bytes, d: nat, bit: bool) returns (q: Bytes)
    requires PathsOf(h, m) && |p| == h.size && d < h.Depth() && Under(h, m, p, d)
    ensures |q| == h.size && Under(h, Half(h, m, d, bit), q, d + 1)
  {
    var half := Half(h, m, d, bit);
    if half == map[] {
      q := p;
    } else {
      q :| q in half;
      forall k | k in half ensures Agree(q, k, d + 1) {
        assert Agree(p, k, d) && Agree(p, q, d);
      }
    }
  }

  lemma HalvesMakeWhole(h: Hasher, m1: Entries, m2: Entries, d: nat)
    requires PathsOf(h, m1) && PathsOf(h, m2) && d < h.Depth()
    requires Half(h, m1, d, false) == Half(h, m2, d, false) && Half(h, m1, d, true) == Half(h, m2, d, true)
    ensures m1 == m2
  {
    forall k | k in m1 ensures k in m2 && m2[k] == m1[k] {
      assert k in Half(h, m1, d, Bit(k, d));
    }
    forall k | k in m2 ensures k in m1 {
      assert k in Half(h, m2, d, Bit(k, d));
    }
  }

  /** A subtree that is neither empty nor a leaf is a proper node. */
  lemma ProperNode(h: Hasher, m: Entries, p: Bytes, d: nat)
    requires h.Valid() && PathsOf(h, m) && |p| == h.size && d <= h.Depth() && Under(h, m, p, d)
    requires m != map[] && !Lone(m)
    ensures d < h.Depth()
    ensures var left, right := NodeHash(h, Half(h, m, d, false), d + 1), NodeHash(h, Half(h, m, d, true), d + 1);
      && |left| == |right| == h.size
      && NodeHash(h, m, d) == h.DigestNode(left, right)
      && h.NodeData(left, right) in Preimages(h, m, d)
  {
    NotLone(h, m, p, d);
    NodeHashSize(h, Half(h, m, d, false), d + 1);
    NodeHashSize(h, Half(h, m, d, true), d + 1);
  }

  lemma ParseData(a: Bytes, b: Bytes, x: Bytes, y: Bytes, prefix: byte)
    requires |a| == |b| && [prefix] + a + x == [prefix] + b + y
    ensures a == b && x == y
  {
    var data := [prefix] + a + x;
    assert data[1..1 + |a|] == a && data[1..1 + |a|] == b;
    assert data[1 + |a|..] == x && data[1 + |a|..] == y;
  }

  /** Two different subtrees at depth `d`, below `p1` and `p2`, with one hash. */
  ghost predicate Twins(h: Hasher, m1: Entries, p1: Bytes, m2: Entries, p2: Bytes, d: nat) {
    && h.Valid() && PathsOf(h, m1) && PathsOf(h, m2) && d <= h.Depth()
    && |p1| == h.size && Under(h, m1, p1, d) && |p2| == h.size && Under(h, m2, p2, d)
    && m1 != m2 && NodeHash(h, m1, d) == NodeHash(h, m2, d)
  }

  lemma LeavesCollide(h: Hasher, m1: Entries, m2: Entries, d: nat) returns (x: Bytes, y: Bytes)
    requires h.Valid() && PathsOf(h, m1) && PathsOf(h, m2) && d <= h.Depth()
    requires Lone(m1) && Lone(m2) && m1 != m2
    requires NodeHash(h, m1, d) == NodeHash(h, m2, d)
    ensures Collision(h, m1, m2, d, x, y)
  {
    var k1, k2 := LonePath(m1), LonePath(m2);
    x, y := h.LeafData(k1, h.sum(m1[k1])), h.LeafData(k2, h.sum(m2[k2]));
    if x == y {
      ParseData(k1, k2, h.sum(m1[k1]), h.sum(m2[k2]), 0);
      x, y := m1[k1], m2[k2];
    }
  }

  lemma LeafAndNodeCollide(h: Hasher, m1: Entries, m2: Entries, p2: Bytes, d: nat) returns (x: Bytes, y: Bytes)
    requires h.Valid() && PathsOf(h, m1) && PathsOf(h, m2) && |p2| == h.size && d <= h.Depth() && Under(h, m2, p2, d)
    requires Lone(m1) && m2 != map[] && !Lone(m2)
    requires NodeHash(h, m1, d) == NodeHash(h, m2, d)
    ensures Collision(h, m1, m2, d, x, y)
  {
    ProperNode(h, m2, p2, d);
    var k := LonePath(m1);
    x := h.LeafData(k, h.sum(m1[k]));
    y := h.NodeData(NodeHash(h, Half(h, m2, d, false), d + 1), NodeHash(h, Half(h, m2, d, true), d + 1));
    assert x[0] == 0 && y[0] == 1;
  }

  /** Two nodes with one hash: over different children the inputs collide, otherwise the halves have one hash. */
  lemma NodeInputs(h: Hasher, m1: Entries, p1: Bytes, m2: Entries, p2: Bytes, d: nat)
    returns (x: Bytes, y: Bytes)
    requires h.Valid() && PathsOf(h, m1) && PathsOf(h, m2) && d <= h.Depth()
    requires |p1| == h.size && Under(h, m1, p1, d) && |p2| == h.size && Under(h, m2, p2, d)
    requires m1 != map[] && !Lone(m1) && m2 != map[] && !Lone(m2)
    requires NodeHash(h, m1, d) == NodeHash(h, m2, d)
    ensures x in Preimages(h, m1, d) && y in Preimages(h, m2, d) && h.sum(x) == h.sum(y)
    ensures d < h.Depth()
    ensures x == y ==> NodeHash(h, Half(h, m1, d, false), d + 1) == NodeHash(h, Half(h, m2, d, false), d + 1)
    ensures x == y ==> NodeHash(h, Half(h, m1, d, true), d + 1) == NodeHash(h, Half(h, m2, d, true), d + 1)
  {
    ProperNode(h, m1, p1, d);
    ProperNode(h, m2, p2, d);
    var left1, right1 := NodeHash(h, Half(h, m1, d, false), d + 1), NodeHash(h, Half(h, m1, d, true), d + 1);
    var left2, right2 := NodeHash(h, Half(h, m2, d, false), d + 1), NodeHash(h, Half(h, m2, d, true), d + 1);
    x, y := h.NodeData(left1, right1), h.NodeData(left2, right2);
    if x == y {
      ParseData(left1, left2, right1, right2, 1);
    }
  }

  /** Different contents under one root give two inputs that collide, one from each tree. */
  lemma {:induction false} FindCollision(h: Hasher, m1: Entries, p1: Bytes, m2: Entries, p2: Bytes,
                                         d: nat) returns (x: Bytes, y: Bytes)
    requires Twins(h, m1, p1, m2, p2, d)
    ensures Collision(h, m1, m2, d, x, y)
    decreases h.Depth() - d
  {
    if Lone(m1) && Lone(m2) {
      x, y := LeavesCollide(h, m1, m2, d);
    } else if Lone(m1) {
      assert m2 != map[];
      x, y := LeafAndNodeCollide(h, m1, m2, p2, d);
    } else if Lone(m2) {
      assert m1 != map[];
      y, x := LeafAndNodeCollide(h, m2, m1, p1, d);
    } else {
      ProperTwins(h, m1, p1, m2, p2, d);
      x, y := NodeInputs(h, m1, p1, m2, p2, d);
      if x == y {
        var bit := DifferentHalf(h, m1, m2, d);
        var q1, q2 := TwinHalves(h, m1, p1, m2, p2, d, bit);
        x, y := FindCollision(h, Half(h, m1, d, bit), q1, Half(h, m2, d, bit), q2, d + 1);
        CollisionOfHalf(h, m1, m2, d, bit, x, y);
      }
    }
  }

  lemma ProperTwins(h: Hasher, m1: Entries, p1: Bytes, m2: Entries, p2: Bytes, d: nat)
    requires Twins(h, m1, p1, m2, p2, d) && !Lone(m1) && !Lone(m2)
    ensures d < h.Depth() && m1 != map[] && m2 != map[]
  {
    if m1 != map[] {
      ProperNode(h, m1, p1, d);
    }
    if m2 != map[] {
      ProperNode(h, m2, p2, d);
    }
  }

  lemma TwinHalves(h: Hasher, m1: Entries, p1: Bytes, m2: Entries, p2: Bytes, d: nat, bit: bool)
    returns (q1: Bytes, q2: Bytes)
    requires Twins(h, m1, p1, m2, p2, d) && d < h.Depth()
    requires Half(h, m1, d, bit) != Half(h, m2, d, bit)
    requires NodeHash(h, Half(h, m1, d, bit), d + 1) == NodeHash(h, Half(h, m2, d, bit), d + 1)
    ensures Twins(h, Half(h, m1, d, bit), q1, Half(h, m2, d, bit), q2, d + 1)
  {
    q1 := HalfPath(h, m1, p1, d, bit);
    q2 := HalfPath(h, m2, p2, d, bit);
  }

  lemma CollisionOfHalf(h: Hasher, m1: Entries, m2: Entries, d: nat, bit: bool, x: Bytes, y: Bytes)
    requires PathsOf(h, m1) && PathsOf(h, m2) && d < h.Depth()
    requires m1 != map[] && !Lone(m1) && m2 != map[] && !Lone(m2)
    requires Collision(h, Half(h, m1, d, bit), Half(h, m2, d, bit), d + 1, x, y)
    ensures Collision(h, m1, m2, d, x, y)
  {
  }

  lemma DifferentHalf(h: Hasher, m1: Entries, m2: Entries, d: nat) returns (bit: bool)
    requires PathsOf(h, m1) && PathsOf(h, m2) && d < h.Depth() && m1 != m2
    ensures Half(h, m1, d, bit) != Half(h, m2, d, bit)
  {
    bit := Half(h, m1, d, true) != Half(h, m2, d, true);
    if !bit && Half(h, m1, d, false) == Half(h, m2, d, false) {
      HalvesMakeWhole(h, m1, m2, d);
    }
  }

  /** Different contents under one root are a collision of the digest between the two trees. */
  lemma EqualRootsCollide(h: Hasher, m1: Entries, m2: Entries)
    requires h.Valid() && PathsOf(h, m1) && PathsOf(h, m2)
    requires m1 != m2 && Root(h, m1) == Root(h, m2)
    ensures Collide(h, Preimages(h, m1, 0), Preimages(h, m2, 0))
  {
    var p := h.Placeholder();
    var x, y := FindCollision(h, m1, p, m2, p, 0);
  }

  /** Equal roots mean equal contents wherever the digest does not collide on the two trees. */
  lemma EqualRootsEqualContents(h: Hasher, m1: Entries, m2: Entries)
    requires h.Valid() && PathsOf(h, m1) && PathsOf(h, m2)
    requires !Collide(h, Preimages(h, m1, 0), Preimages(h, m2, 0))
    ensures Root(h, m1) == Root(h, m2) <==> m1 == m2
  {
    if m1 != m2 && Root(h, m1) == Root(h, m2) {
      EqualRootsCollide(h, m1, m2);
    }
  }
}
