/** The sparse Merkle tree: level maps that keep only nodes differing from the all-zero subtree,
    against the full binary tree they stand for. The two-to-one hash is a parameter. */
module MerkleTree {
  type Leaf = s: seq<bv8> | |s| == 32 witness
    [0, 0, 0, 0, 0, 0, 0, 0, 0, 0, 0, 0, 0, 0, 0, 0, 0, 0, 0, 0, 0, 0, 0, 0, 0, 0, 0, 0, 0, 0, 0, 0]
  type Hash2 = (Leaf, Leaf) -> Leaf

  const ZERO_LEAF: Leaf :=
    [0, 0, 0, 0, 0, 0, 0, 0, 0, 0, 0, 0, 0, 0, 0, 0, 0, 0, 0, 0, 0, 0, 0, 0, 0, 0, 0, 0, 0, 0, 0, 0]

  /** Root of an all-zero subtree (the table of zero hashes). */
  function Zero(h: Hash2, level: nat): Leaf
  { if level == 0 then ZERO_LEAF else h(Zero(h, level - 1), Zero(h, level - 1)) }

  function At(leaves: map<nat, Leaf>, index: nat): Leaf
  { if index in leaves then leaves[index] else ZERO_LEAF }

  /** The node of the full binary tree, absent leaves being zero. */
  function Node(h: Hash2, leaves: map<nat, Leaf>, level: nat, index: nat): Leaf
  {
    if level == 0 then At(leaves, index)
    else h(Node(h, leaves, level - 1, 2 * index), Node(h, leaves, level - 1, 2 * index + 1))
  }

  function Lookup(h: Hash2, level: map<nat, Leaf>, height: nat, index: nat): Leaf
  { if index in level then level[index] else Zero(h, height) }

  /** A level map refines the full tree: it holds exactly the nodes that are not zero hashes. */
  ghost predicate RefinesLevel(h: Hash2, leaves: map<nat, Leaf>, level: map<nat, Leaf>, height: nat)
  {
    && (forall i :: i in level ==> level[i] == Node(h, leaves, height, i))
    && forall i: nat :: i in level <==> Node(h, leaves, height, i) != Zero(h, height)
  }

  lemma LookupIsNode(h: Hash2, leaves: map<nat, Leaf>, level: map<nat, Leaf>, height: nat, index: nat)
    requires RefinesLevel(h, leaves, level, height)
    ensures Lookup(h, level, height, index) == Node(h, leaves, height, index)
  {}

  /** One level up: only the parents of stored nodes are computed, and a parent that hashes to the
      zero hash is dropped. */
  method BuildParents(h: Hash2, ghost leaves: map<nat, Leaf>, current: map<nat, Leaf>, height: nat)
    returns (parents: map<nat, Leaf>)
    requires RefinesLevel(h, leaves, current, height)
    ensures RefinesLevel(h, leaves, parents, height + 1)
  {
    hide Node, Zero, Lookup, RefinesLevel;
    var indices: set<nat> := set i | i in current :: i / 2;
    forall i: nat | i !in indices
      ensures Node(h, leaves, height + 1, i) == Zero(h, height + 1)
    { OrphanIsZero(h, leaves, current, height, i); }
    var pending := indices;
    parents := map[];
    while pending != {}
      invariant pending <= indices && pending !! parents.Keys
      invariant forall i :: i in parents ==> parents[i] == Node(h, leaves, height + 1, i)
      invariant forall i: nat :: i !in pending ==>
        (i in parents <==> Node(h, leaves, height + 1, i) != Zero(h, height + 1))
      decreases |pending|
    {
      var index :| index in pending;
      pending := pending - {index};
      var parent := h(Lookup(h, current, height, 2 * index), Lookup(h, current, height, 2 * index + 1));
      assert parent == Node(h, leaves, height + 1, index) by { ParentNode(h, leaves, current, height, index); }
      if parent != Zero(h, height + 1) { parents := parents[index := parent]; }
    }
    LevelIsComplete(h, leaves, parents, height + 1);
  }

  lemma LevelIsComplete(h: Hash2, leaves: map<nat, Leaf>, level: map<nat, Leaf>, height: nat)
    requires forall i :: i in level ==> level[i] == Node(h, leaves, height, i)
    requires forall i: nat :: i in level <==> Node(h, leaves, height, i) != Zero(h, height)
    ensures RefinesLevel(h, leaves, level, height)
  {}

  lemma ParentNode(h: Hash2, leaves: map<nat, Leaf>, current: map<nat, Leaf>, height: nat, index: nat)
    requires RefinesLevel(h, leaves, current, height)
    ensures h(Lookup(h, current, height, 2 * index), Lookup(h, current, height, 2 * index + 1))
         == Node(h, leaves, height + 1, index)
  {
    LookupIsNode(h, leaves, current, height, 2 * index);
    LookupIsNode(h, leaves, current, height, 2 * index + 1);
  }

  lemma OrphanIsZero(h: Hash2, leaves: map<nat, Leaf>, current: map<nat, Leaf>, height: nat, index: nat)
    requires RefinesLevel(h, leaves, current, height)
    requires index !in set i | i in current :: i / 2
    ensures Node(h, leaves, height + 1, index) == Zero(h, height + 1)
  {
    assert 2 * index / 2 == index && (2 * index + 1) / 2 == index;
    assert 2 * index !in current && 2 * index + 1 !in current;
  }

  /** The levels of the sparse tree, from the non-zero leaves up to the root level. */
  method BuildSparseLevels(h: Hash2, leaves: map<nat, Leaf>, height: nat) returns (levels: seq<map<nat, Leaf>>)
    ensures |levels| == height + 1
    ensures forall l :: 0 <= l <= height ==> RefinesLevel(h, leaves, levels[l], l)
  {
    levels := [map i | i in leaves && leaves[i] != ZERO_LEAF :: leaves[i]];
    for l := 0 to height
      invariant |levels| == l + 1
      invariant forall k :: 0 <= k <= l ==> RefinesLevel(h, leaves, levels[k], k)
    {
      var parents := BuildParents(h, leaves, levels[l], l);
      levels := levels + [parents];
    }
  }

  // ---- Proofs: folding a leaf with its siblings ----

  function Fold(h: Hash2, value: Leaf, index: nat, siblings: seq<Leaf>): Leaf
    decreases |siblings|
  {
    if siblings == [] then value
    else Fold(h, if index % 2 == 0 then h(value, siblings[0]) else h(siblings[0], value), index / 2, siblings[1..])
  }

  method MerkleRootFromProof(h: Hash2, leaf: Leaf, leafIndex: nat, siblings: seq<Leaf>) returns (value: Leaf)
    ensures value == Fold(h, leaf, leafIndex, siblings)
  {
    value := leaf;
    var index := leafIndex;
    for i := 0 to |siblings|
      invariant index >= 0
      invariant Fold(h, value, index, siblings[i..]) == Fold(h, leaf, leafIndex, siblings)
    {
      assert siblings[i..][0] == siblings[i] && siblings[i..][1..] == siblings[i + 1..];
      value := if index % 2 == 0 then h(value, siblings[i]) else h(siblings[i], value);
      index := index / 2;
    }
  }

  /** `index >> k`. */
  function Ancestor(index: nat, k: nat): nat
    decreases k
  { if k == 0 then index else Ancestor(index / 2, k - 1) }

  /** `index ^ 1`. */
  function Sibling(index: nat): nat
  { if index % 2 == 0 then index + 1 else index - 1 }

  lemma {:induction false} AncestorStep(index: nat, k: nat)
    ensures Ancestor(index, k + 1) == Ancestor(index, k) / 2
    decreases k
  {
    if k > 0 { AncestorStep(index / 2, k - 1); }
  }

  function Pow2(n: nat): (p: nat)
    ensures p > 0
  { if n == 0 then 1 else 2 * Pow2(n - 1) }

  lemma {:induction false} AncestorOfSmall(index: nat, k: nat)
    requires index < Pow2(k)
    ensures Ancestor(index, k) == 0
    decreases k
  {
    if k > 0 { AncestorOfSmall(index / 2, k - 1); }
  }

  /** `siblings` are the full tree's nodes beside the path up from node `index` of `level`. */
  ghost predicate PathSiblings(h: Hash2, leaves: map<nat, Leaf>, level: nat, index: nat, siblings: seq<Leaf>)
  {
    forall k :: 0 <= k < |siblings| ==> siblings[k] == Node(h, leaves, level + k, Sibling(Ancestor(index, k)))
  }

  lemma FoldOnce(h: Hash2, leaves: map<nat, Leaf>, level: nat, index: nat, sibling: Leaf)
    requires sibling == Node(h, leaves, level, Sibling(index))
    ensures Node(h, leaves, level + 1, index / 2)
         == if index % 2 == 0 then h(Node(h, leaves, level, index), sibling)
                              else h(sibling, Node(h, leaves, level, index))
  {}

  /** Folding a node with the siblings of its path gives its ancestor in the full tree. */
  lemma {:induction false} FoldIsAncestor(h: Hash2, leaves: map<nat, Leaf>, level: nat, index: nat, siblings: seq<Leaf>)
    requires PathSiblings(h, leaves, level, index, siblings)
    ensures Fold(h, Node(h, leaves, level, index), index, siblings)
         == Node(h, leaves, level + |siblings|, Ancestor(index, |siblings|))
    decreases |siblings|
  {
    hide Node;
    if siblings != [] {
      assert siblings[0] == Node(h, leaves, level + 0, Sibling(Ancestor(index, 0)));
      FoldOnce(h, leaves, level, index, siblings[0]);
      var rest := siblings[1..];
      forall k | 0 <= k < |rest|
        ensures rest[k] == Node(h, leaves, level + 1 + k, Sibling(Ancestor(index / 2, k)))
      {
        assert rest[k] == siblings[k + 1];
      }
      FoldIsAncestor(h, leaves, level + 1, index / 2, rest);
    }
  }

  /** Changing one leaf changes no node off the path from that leaf to the root. */
  lemma {:induction false} UpdateOffPath(h: Hash2, leaves: map<nat, Leaf>, index: nat, leaf: Leaf, level: nat, j: nat)
    requires j != Ancestor(index, level)
    ensures Node(h, leaves[index := leaf], level, j) == Node(h, leaves, level, j)
  {
    if level > 0 {
      AncestorStep(index, level - 1);
      UpdateOffPath(h, leaves, index, leaf, level - 1, 2 * j);
      UpdateOffPath(h, leaves, index, leaf, level - 1, 2 * j + 1);
    }
  }

  /** So the siblings of a leaf's path prove the leaf both before and after it is replaced. */
  lemma SiblingsSurviveUpdate(h: Hash2, leaves: map<nat, Leaf>, index: nat, leaf: Leaf, siblings: seq<Leaf>)
    requires PathSiblings(h, leaves, 0, index, siblings)
    ensures PathSiblings(h, leaves[index := leaf], 0, index, siblings)
  {
    forall k | 0 <= k < |siblings|
      ensures siblings[k] == Node(h, leaves[index := leaf], k, Sibling(Ancestor(index, k)))
    {
      UpdateOffPath(h, leaves, index, leaf, k, Sibling(Ancestor(index, k)));
    }
  }

  /** Reads the siblings of a path out of the level maps. */
  method ReadSiblings(h: Hash2, ghost leaves: map<nat, Leaf>, levels: seq<map<nat, Leaf>>, height: nat, leafIndex: nat)
    returns (siblings: seq<Leaf>)
    requires |levels| == height + 1
    requires forall l :: 0 <= l <= height ==> RefinesLevel(h, leaves, levels[l], l)
    ensures |siblings| == height
    ensures PathSiblings(h, leaves, 0, leafIndex, siblings)
  {
    siblings := [];
    var index := leafIndex;
    for l := 0 to height
      invariant index == Ancestor(leafIndex, l)
      invariant |siblings| == l
      invariant PathSiblings(h, leaves, 0, leafIndex, siblings)
    {
      LookupIsNode(h, leaves, levels[l], l, Sibling(index));
      siblings := siblings + [Lookup(h, levels[l], l, Sibling(index))];
      AncestorStep(leafIndex, l);
      index := index / 2;
    }
  }

  /** The root of the full tree of the given height. */
  function Root(h: Hash2, leaves: map<nat, Leaf>, height: nat): Leaf
  { Node(h, leaves, height, 0) }

  method ComputeSparseRoot(h: Hash2, leaves: map<nat, Leaf>, height: nat) returns (root: Leaf)
    ensures root == Root(h, leaves, height)
  {
    var levels := BuildSparseLevels(h, leaves, height);
    LookupIsNode(h, leaves, levels[height], height, 0);
    root := Lookup(h, levels[height], height, 0);
  }

  lemma ProofFoldsToRoot(h: Hash2, leaves: map<nat, Leaf>, index: nat, height: nat, siblings: seq<Leaf>)
    requires index < Pow2(height) && |siblings| == height
    requires PathSiblings(h, leaves, 0, index, siblings)
    ensures Fold(h, At(leaves, index), index, siblings) == Root(h, leaves, height)
  {
    FoldIsAncestor(h, leaves, 0, index, siblings);
    AncestorOfSmall(index, height);
  }
}
