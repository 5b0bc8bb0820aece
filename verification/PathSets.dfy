/**
 The trees the relay queue is about: every path present maps to the one value PolyTxExistsValue, so a
 tree is a set of paths.
 */
module PathSets {
  import opened Bytes
  import opened SparseMerkle
  import opened SmtUpdate
  import opened SmtUnique

  const EXISTS_VALUE: Bytes := [1]

  function Tree(paths: set<Bytes>): (m: Entries)
    ensures m.Keys == paths
  {
    map p | p in paths :: EXISTS_VALUE
  }

  function Elements(order: seq<Bytes>): set<Bytes> {
    set p | p in order
  }

  predicate AllPaths(h: Hasher, paths: set<Bytes>) {
    forall p :: p in paths ==> |p| == h.size
  }

  /** Root of the tree holding exactly `paths`. */
  function SetRoot(h: Hasher, paths: set<Bytes>): Bytes
    requires AllPaths(h, paths)
  {
    Root(h, Tree(paths))
  }

  /** Everything hashed while building the tree of `paths`. */
  function Hashed(h: Hasher, paths: set<Bytes>): set<Bytes>
    requires AllPaths(h, paths)
  {
    Preimages(h, Tree(paths), 0)
  }

  /** No two different inputs hashed for trees of the family have the same digest. */
  ghost predicate CollisionFree(h: Hasher, trees: set<set<Bytes>>) {
    && (forall a :: a in trees ==> AllPaths(h, a))
    && (forall a, b :: a in trees && b in trees ==> !Collide(h, Hashed(h, a), Hashed(h, b)))
  }

  lemma TreeInsert(paths: set<Bytes>, p: Bytes)
    ensures Tree(paths + {p}) == Tree(paths)[p := EXISTS_VALUE]
  {
  }

  lemma SetRootSize(h: Hasher, paths: set<Bytes>)
    requires h.Valid() && AllPaths(h, paths)
    ensures |SetRoot(h, paths)| == h.size
  {
    NodeHashSize(h, Tree(paths), 0);
  }

  /** The root of a single path: a leaf over the path and the hash of the byte 1. */
  lemma RootOfOne(h: Hasher, p: Bytes)
    requires |p| == h.size
    ensures SetRoot(h, {p}) == h.sum([0] + p + h.sum([1]))
  {
    assert p in Tree({p}) && Tree({p}).Keys == {p};
    NodeHashLone(h, Tree({p}), p, 0);
  }

  /** Within a collision-free family a root stands for one set of paths. */
  lemma SameRootSameSet(h: Hasher, trees: set<set<Bytes>>, a: set<Bytes>, b: set<Bytes>)
    requires h.Valid() && CollisionFree(h, trees) && a in trees && b in trees
    ensures AllPaths(h, a) && AllPaths(h, b)
    ensures SetRoot(h, a) == SetRoot(h, b) <==> a == b
  {
    assert !Collide(h, Hashed(h, a), Hashed(h, b));
    EqualRootsEqualContents(h, Tree(a), Tree(b));
    if Tree(a) == Tree(b) {
      assert Tree(a).Keys == Tree(b).Keys;
    }
  }

  // ---------- stored proofs ----------

  /** Side nodes and leaf are those of the slot of `path` in the tree of `paths`, where `path` is absent. */
  ghost predicate AbsenceProof(h: Hasher, paths: set<Bytes>, path: Bytes, sideNodes: seq<Bytes>, leafData: Bytes) {
    && AllPaths(h, paths) && |path| == h.size
    && path !in paths
    && sideNodes == Siblings(h, Tree(paths), path, 0)
    && leafData == SlotLeaf(h, Tree(paths), path, 0)
  }

  /** The inclusion root computed from a stored absence proof is the root with the path put in. */
  lemma InclusionRoot(h: Hasher, paths: set<Bytes>, path: Bytes, sideNodes: seq<Bytes>, leafData: Bytes)
    requires h.Valid() && AbsenceProof(h, paths, path, sideNodes, leafData)
    ensures Readable(h, leafData) && AllPaths(h, paths + {path})
    ensures UpdatedRoot(h, path, EXISTS_VALUE, Present(sideNodes), leafData) == SetRoot(h, paths + {path})
  {
    TreeInsert(paths, path);
    UpdatedRootIsTreeRoot(h, Tree(paths), path, EXISTS_VALUE, Present(sideNodes), leafData);
  }

  /**
   The root reached by putting `order` in one path after the other, each step computed by
   `UpdateRootByPath` from the slot of its path in the tree so far.
   */
  function FoldedRoot(h: Hasher, order: seq<Bytes>): Bytes
    requires h.Valid() && (forall p :: p in order ==> |p| == h.size)
  {
    if order == [] then h.Placeholder()
    else
      var last := order[|order| - 1];
      var tree := Tree(Elements(order[..|order| - 1]));
      UpdateRootIsDefined(h, tree, last);
      UpdatedRoot(h, last, EXISTS_VALUE, Present(Siblings(h, tree, last, 0)), SlotLeaf(h, tree, last, 0))
  }

  lemma UpdateRootIsDefined(h: Hasher, m: Entries, p: Bytes)
    requires h.Valid() && PathsOf(h, m) && |p| == h.size
    ensures Readable(h, SlotLeaf(h, m, p, 0))
  {
    UpdatedRootIsTreeRoot(h, m, p, EXISTS_VALUE, Present(Siblings(h, m, p, 0)), SlotLeaf(h, m, p, 0));
  }

  /** Folding inserts gives the root of the set inserted, repetitions included. */
  lemma FoldedRootIsSetRoot(h: Hasher, order: seq<Bytes>)
    requires h.Valid() && (forall p :: p in order ==> |p| == h.size)
    ensures FoldedRoot(h, order) == SetRoot(h, Elements(order))
  {
    if order != [] {
      var last := order[|order| - 1];
      var before := Elements(order[..|order| - 1]);
      assert order == order[..|order| - 1] + [last];
      assert Elements(order) == before + {last};
      TreeInsert(before, last);
      UpdatedRootIsTreeRoot(h, Tree(before), last, EXISTS_VALUE,
                            Present(Siblings(h, Tree(before), last, 0)), SlotLeaf(h, Tree(before), last, 0));
    } else {
      assert Tree(Elements(order)) == map[];
    }
  }

  /** The order of inserts does not matter. */
  lemma FoldOrderIrrelevant(h: Hasher, order1: seq<Bytes>, order2: seq<Bytes>)
    requires h.Valid() && (forall p :: p in order1 ==> |p| == h.size)
    requires forall p :: p in order1 <==> p in order2
    ensures FoldedRoot(h, order1) == FoldedRoot(h, order2)
  {
    FoldedRootIsSetRoot(h, order1);
    FoldedRootIsSetRoot(h, order2);
    assert Elements(order1) == Elements(order2);
  }
}
