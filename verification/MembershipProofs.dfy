/** Membership proofs of the withdrawal append tree and Merkle branches of Dogecoin blocks. */
module MembershipProofs {
  import opened Bytes
  import opened MerkleTree

  // ---- The zero-padded append tree ----

  /** Root of the perfect tree of the given height over `s` followed by zero leaves, by halving. */
  function Padded(h: Hash2, s: seq<Leaf>, height: nat): Leaf
    decreases height, |s|
  {
    if height == 0 then (if s == [] then ZERO_LEAF else s[0])
    else
      var m := Min(Pow2(height - 1), |s|);
      h(Padded(h, s[..m], height - 1), Padded(h, s[m..], height - 1))
  }

  const APPEND_HEIGHT: nat := 32

  function Min(a: nat, b: nat): nat { if a <= b then a else b }

  function LeafMap(leaves: seq<Leaf>): map<nat, Leaf>
  { map i: nat | i < |leaves| && leaves[i] != ZERO_LEAF :: leaves[i] }

  /** The leaves below node `index` of `level`. */
  function Below(s: seq<Leaf>, level: nat, index: nat): seq<Leaf>
  { Range(s, index * Pow2(level), (index + 1) * Pow2(level)) }

  lemma ChildRanges(level: nat, index: nat)
    requires level > 0
    ensures 2 * index * Pow2(level - 1) == index * Pow2(level)
    ensures (2 * index + 1) * Pow2(level - 1) == index * Pow2(level) + Pow2(level - 1)
    ensures (2 * index + 2) * Pow2(level - 1) == index * Pow2(level) + 2 * Pow2(level - 1)
    ensures (index + 1) * Pow2(level) == index * Pow2(level) + 2 * Pow2(level - 1)
  {
    var p := Pow2(level - 1);
    assert 2 * index * p == index * (2 * p);
  }

  lemma BelowHalves(s: seq<Leaf>, level: nat, index: nat)
    requires level > 0
    ensures var b := Below(s, level, index);
            var m := Min(Pow2(level - 1), |b|);
            Below(s, level - 1, 2 * index) == b[..m] && Below(s, level - 1, 2 * index + 1) == b[m..]
  {
    ChildRanges(level, index);
    hide Pow2;
    assert 2 * index + 1 + 1 == 2 * index + 2;
    var a, p := index * Pow2(level), Pow2(level - 1);
    RangeHalves(s, a, p);
  }

  function Range(s: seq<Leaf>, lo: nat, hi: nat): seq<Leaf>
  { if Min(lo, |s|) <= Min(hi, |s|) then s[Min(lo, |s|)..Min(hi, |s|)] else [] }

  lemma RangeHalves(s: seq<Leaf>, a: nat, p: nat)
    ensures var b := Range(s, a, a + 2 * p);
            var m := Min(p, |b|);
            Range(s, a, a + p) == b[..m] && Range(s, a + p, a + 2 * p) == b[m..]
  {}

  lemma BelowLeaf(s: seq<Leaf>, index: nat)
    ensures Below(s, 0, index) == if index < |s| then [s[index]] else []
  {
    assert index * Pow2(0) == index && (index + 1) * Pow2(0) == index + 1;
  }

  lemma {:induction false} NodeIsPadded(h: Hash2, leaves: seq<Leaf>, level: nat, index: nat)
    ensures Node(h, LeafMap(leaves), level, index) == Padded(h, Below(leaves, level, index), level)
    decreases level
  {
    hide Below, Pow2;
    if level > 0 {
      BelowHalves(leaves, level, index);
      NodeIsPadded(h, leaves, level - 1, 2 * index);
      NodeIsPadded(h, leaves, level - 1, 2 * index + 1);
    } else {
      BelowLeaf(leaves, index);
    }
  }

  lemma RootIsPadded(h: Hash2, leaves: seq<Leaf>, height: nat)
    requires |leaves| <= Pow2(height)
    ensures Root(h, LeafMap(leaves), height) == Padded(h, leaves, height)
  {
    NodeIsPadded(h, leaves, height, 0);
    assert Below(leaves, height, 0) == leaves;
  }

  datatype FixedMerkleProof = FixedMerkleProof(index: nat, siblings: seq<Leaf>)

  ghost predicate ProvesLeaf(h: Hash2, leaves: seq<Leaf>, root: Leaf, index: u64, p: FixedMerkleProof)
    requires index < |leaves|
  {
    && p.index == index && |p.siblings| == 32
    && Fold(h, leaves[index], index, p.siblings) == root
  }

  lemma AppendCapacity()
    ensures Pow2(APPEND_HEIGHT) == 0x1_0000_0000
  {
    assert Pow2(8) == 0x100;
    assert Pow2(16) == 0x1_0000 && Pow2(24) == 0x100_0000;
  }

  /** One proof; the comparison with the root cannot fail, not even for a zero leaf. */
  method ProveLeaf(h: Hash2, leaves: seq<Leaf>, levels: seq<map<nat, Leaf>>, root: Leaf, index: u64)
    returns (r: Result<FixedMerkleProof>)
    requires |leaves| < Pow2(APPEND_HEIGHT)
    requires |levels| == APPEND_HEIGHT + 1 && root == Root(h, LeafMap(leaves), APPEND_HEIGHT)
    requires forall l :: 0 <= l <= APPEND_HEIGHT ==> RefinesLevel(h, LeafMap(leaves), levels[l], l)
    ensures r.Ok? <==> index < |leaves|
    ensures r.Ok? ==> ProvesLeaf(h, leaves, root, index, r.value)
  {
    if index >= |leaves| { return Err; }
    hide Node, Fold, Pow2;
    var siblings := ReadSiblings(h, LeafMap(leaves), levels, APPEND_HEIGHT, index);
    ProofFoldsToRoot(h, LeafMap(leaves), index, APPEND_HEIGHT, siblings);
    var folded := MerkleRootFromProof(h, leaves[index], index, siblings);
    if folded != root { return Err; }
    return Ok(FixedMerkleProof(index, siblings));
  }

  method BuildFixedProofs(h: Hash2, leaves: seq<Leaf>, indices: seq<u64>)
    returns (r: Result<(Leaf, seq<FixedMerkleProof>)>)
    ensures r.Ok? <==> |leaves| <= 0xffff_ffff && forall k :: 0 <= k < |indices| ==> indices[k] < |leaves|
    ensures r.Ok? ==> r.value.0 == Padded(h, leaves, APPEND_HEIGHT)
    ensures r.Ok? ==> |r.value.1| == |indices|
    ensures r.Ok? ==> forall k :: 0 <= k < |indices| ==> ProvesLeaf(h, leaves, r.value.0, indices[k], r.value.1[k])
  {
    if |leaves| > 0xffff_ffff { return Err; }
    AppendCapacity();
    hide Node, Fold, Pow2, Padded;
    var levels := BuildSparseLevels(h, LeafMap(leaves), APPEND_HEIGHT);
    LookupIsNode(h, LeafMap(leaves), levels[APPEND_HEIGHT], APPEND_HEIGHT, 0);
    var root := Lookup(h, levels[APPEND_HEIGHT], APPEND_HEIGHT, 0);
    RootIsPadded(h, leaves, APPEND_HEIGHT);
    var proofs: seq<FixedMerkleProof> := [];
    for i := 0 to |indices|
      invariant |proofs| == i
      invariant forall k :: 0 <= k < i ==> indices[k] < |leaves| && ProvesLeaf(h, leaves, root, indices[k], proofs[k])
    {
      var proof :- ProveLeaf(h, leaves, levels, root, indices[i]);
      proofs := proofs + [proof];
    }
    return Ok((root, proofs));
  }

  // ---- Block Merkle branches ----

  /** Nodes of the block tree at a height, for `n` transactions. */
  function Width(n: nat, height: nat): nat
  { if height == 0 then n else (Width(n, height - 1) + 1) / 2 }

  /** The node at a position, defined from the transactions below it: a missing right child
      repeats the left one. */
  function BlockNode(h: Hash2, txids: seq<Leaf>, height: nat, pos: nat): Leaf
    requires pos < Width(|txids|, height)
  {
    if height == 0 then txids[pos]
    else
      var left := BlockNode(h, txids, height - 1, 2 * pos);
      h(left, if 2 * pos + 1 < Width(|txids|, height - 1) then BlockNode(h, txids, height - 1, 2 * pos + 1) else left)
  }

  lemma TimesMonotone(a: int, b: int, p: nat)
    requires a <= b
    ensures a * p <= b * p
  {}

  lemma CeilingStep(n: nat, w: nat, p: nat)
    requires w >= 1 && p > 0 && (w - 1) * p < n <= w * p
    ensures var v := (w + 1) / 2;
            (v - 1) * (2 * p) < n <= v * (2 * p) && (v <= 1 <==> n <= 2 * p)
  {
    var v := (w + 1) / 2;
    TimesMonotone(w, 2 * v, p);
    TimesMonotone(2 * v - 2, w - 1, p);
    assert v * (2 * p) == 2 * v * p && (v - 1) * (2 * p) == (2 * v - 2) * p;
    if v >= 2 { TimesMonotone(1, v - 1, 2 * p); }
  }

  lemma {:induction false} WidthIsCeiling(n: nat, height: nat)
    requires n > 0
    ensures Width(n, height) >= 1
    ensures Width(n, height) <= 1 <==> n <= Pow2(height)
    ensures (Width(n, height) - 1) * Pow2(height) < n <= Width(n, height) * Pow2(height)
  {
    if height > 0 {
      WidthIsCeiling(n, height - 1);
      CeilingStep(n, Width(n, height - 1), Pow2(height - 1));
    }
  }

  lemma {:induction false} FoldAppend(h: Hash2, value: Leaf, index: nat, siblings: seq<Leaf>, s: Leaf)
    ensures Fold(h, value, index, siblings + [s])
         == if Ancestor(index, |siblings|) % 2 == 0 then h(Fold(h, value, index, siblings), s)
                                                     else h(s, Fold(h, value, index, siblings))
    decreases |siblings|
  {
    if siblings == [] {
      assert [s][1..] == [] && siblings + [s] == [s];
    } else {
      var next := if index % 2 == 0 then h(value, siblings[0]) else h(siblings[0], value);
      FoldAppend(h, next, index / 2, siblings[1..], s);
      assert (siblings + [s])[1..] == siblings[1..] + [s];
    }
  }

  /** `level` holds every block node of the given height. */
  ghost predicate IsLevel(h: Hash2, txids: seq<Leaf>, height: nat, level: seq<Leaf>)
  {
    && |level| == Width(|txids|, height)
    && forall p :: 0 <= p < |level| ==> level[p] == BlockNode(h, txids, height, p)
  }

  method NextLevel(h: Hash2, ghost txids: seq<Leaf>, ghost height: nat, level: seq<Leaf>) returns (parents: seq<Leaf>)
    requires IsLevel(h, txids, height, level)
    ensures IsLevel(h, txids, height + 1, parents)
  {
    parents := [];
    var start := 0;
    while start < |level|
      invariant start == 2 * |parents| <= |level| + 1
      invariant forall p :: 0 <= p < |parents| ==>
        p < Width(|txids|, height + 1) && parents[p] == BlockNode(h, txids, height + 1, p)
    {
      var left := level[start];
      var right := if start + 1 < |level| then level[start + 1] else left;
      assert h(left, right) == BlockNode(h, txids, height + 1, |parents|);
      parents := parents + [h(left, right)];
      start := start + 2;
    }
  }

  /** The branch of one transaction: it folds to the block's root, and has exactly as many
      elements as the tree has levels above the transactions. */
  method BuildTransactionBranch(h: Hash2, txids: seq<Leaf>, target: nat) returns (r: Result<(Leaf, seq<Leaf>)>)
    ensures r.Ok? <==> target < |txids|
    ensures r.Ok? ==> var (root, branch) := r.value;
              && |txids| <= Pow2(|branch|) && (|branch| > 0 ==> Pow2(|branch| - 1) < |txids|)
              && Width(|txids|, |branch|) == 1 && root == BlockNode(h, txids, |branch|, 0)
              && Fold(h, txids[target], target, branch) == root
  {
    if txids == [] { return Err; }
    if target >= |txids| { return Err; }
    hide BlockNode, Fold, Pow2, Width, IsLevel, Ancestor, Sibling;
    var level, index := txids, target;
    var branch: seq<Leaf> := [];
    assert IsLevel(h, txids, 0, txids) && Fold(h, txids[target], target, []) == txids[target] by {
      LowestLevel(h, txids, target);
    }
    while |level| > 1
      invariant IsLevel(h, txids, |branch|, level)
      invariant index == Ancestor(target, |branch|) < |level|
      invariant Fold(h, txids[target], target, branch) == level[index]
      invariant |branch| > 0 ==> Pow2(|branch| - 1) < |txids|
      decreases |level|
    {
      var siblingIndex := if Sibling(index) < |level| then Sibling(index) else index;
      FoldAppend(h, txids[target], target, branch, level[siblingIndex]);
      var parents := NextLevel(h, txids, |branch|, level);
      WidthIsCeiling(|txids|, |branch|);
      LevelLengths(h, txids, |branch|, level, parents);
      ParentValue(h, txids, |branch|, level, parents, index, siblingIndex);
      AncestorStep(target, |branch|);
      branch := branch + [level[siblingIndex]];
      level := parents;
      index := index / 2;
    }
    WidthIsCeiling(|txids|, |branch|);
    LastLevel(h, txids, |branch|, level);
    return Ok((level[0], branch));
  }

  lemma LevelLengths(h: Hash2, txids: seq<Leaf>, height: nat, level: seq<Leaf>, parents: seq<Leaf>)
    requires IsLevel(h, txids, height, level) && IsLevel(h, txids, height + 1, parents)
    ensures |level| == Width(|txids|, height) && |parents| == (|level| + 1) / 2
  {}

  lemma LastLevel(h: Hash2, txids: seq<Leaf>, height: nat, level: seq<Leaf>)
    requires IsLevel(h, txids, height, level) && 0 < |level| <= 1
    ensures Width(|txids|, height) == 1 && level[0] == BlockNode(h, txids, height, 0)
  {}

  lemma LowestLevel(h: Hash2, txids: seq<Leaf>, target: nat)
    requires target < |txids|
    ensures IsLevel(h, txids, 0, txids)
    ensures Fold(h, txids[target], target, []) == txids[target]
  {}

  /** The parent of a node, from the node and its branch element. */
  lemma ParentValue(h: Hash2, txids: seq<Leaf>, height: nat, level: seq<Leaf>, parents: seq<Leaf>, index: nat,
                    sibling: nat)
    requires IsLevel(h, txids, height, level) && IsLevel(h, txids, height + 1, parents)
    requires index < |level|
    requires sibling == if Sibling(index) < |level| then Sibling(index) else index
    ensures index / 2 < |parents|
    ensures parents[index / 2] == if index % 2 == 0 then h(level[index], level[sibling])
            else h(level[sibling], level[index])
  {
    var p := index / 2;
    assert parents[p] == BlockNode(h, txids, height + 1, p);
  }
}
