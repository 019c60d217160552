/** Spent-output bits in the sparse tree: rebuilding the leaves, updating them, and sequential
    membership/update proofs. Bits are set and tested by masks; what that does to a leaf is stated on
    its bytes as numbers. The decoder of combined indices is external: it yields a leaf index
    below 2^45 and a bit index below 256. */
module SpentTxo {
  import opened Bytes
  import opened MerkleTree

  const HEIGHT := 45

  type Decoder = u64 -> (nat, nat)

  ghost predicate GoodDecoder(d: Decoder)
  { forall ci: u64 :: d(ci).0 < Pow2(HEIGHT) && d(ci).1 < 256 }

  // ---- Bits of a leaf ----

  /** `1 << (bit & 7)`. */
  function Mask(bit: nat): bv8
  {
    var k := bit % 8;
    if k == 0 then 1 else if k == 1 then 2 else if k == 2 then 4 else if k == 3 then 8
    else if k == 4 then 16 else if k == 5 then 32 else if k == 6 then 64 else 128
  }

  predicate HasBit(leaf: Leaf, bit: nat)
    requires bit < 256
  { leaf[bit / 8] & Mask(bit) != 0 }

  function SetBit(leaf: Leaf, bit: nat): Leaf
    requires bit < 256
  { leaf[bit / 8 := leaf[bit / 8] | Mask(bit)] }

  lemma MaskBits(x: bv8, a: nat, b: nat)
    ensures (x | Mask(a)) & Mask(b) != 0 <==> x & Mask(b) != 0 || a % 8 == b % 8
  {}

  /** Bit `bit` of a leaf read as a number, byte by byte, with bit 0 worth 1. */
  predicate IsSet(leaf: Leaf, bit: nat)
    requires bit < 256
  { (leaf[bit / 8] as int) / Pow2(bit % 8) % 2 == 1 }

  /** `after` differs from `before` at most in having the bit. */
  ghost predicate Adds(before: Leaf, after: Leaf, bit: nat)
  { forall b: nat :: b < 256 ==> (IsSet(after, b) <==> IsSet(before, b) || b == bit) }

  lemma LowestBit(x: bv8)
    ensures x & 1 != 0 <==> (x as int) % 2 == 1
  {}

  lemma ShiftsDivide(x: bv8)
    ensures (x >> 1) as int == (x as int) / 2 && (x >> 2) as int == (x as int) / 4
    ensures (x >> 3) as int == (x as int) / 8 && (x >> 4) as int == (x as int) / 16
    ensures (x >> 5) as int == (x as int) / 32 && (x >> 6) as int == (x as int) / 64
    ensures (x >> 7) as int == (x as int) / 128
  {}

  /** The number with the `k` lowest binary digits dropped. */
  function Shifted(x: bv8, k: nat): bv8
    requires k < 8
  {
    if k == 0 then x else if k == 1 then x >> 1 else if k == 2 then x >> 2 else if k == 3 then x >> 3
    else if k == 4 then x >> 4 else if k == 5 then x >> 5 else if k == 6 then x >> 6 else x >> 7
  }

  lemma ShiftedDivides(x: bv8, k: nat)
    requires k < 8
    ensures Shifted(x, k) as int == (x as int) / Pow2(k)
  {
    SmallPowers();
    hide Pow2;
    ShiftsDivide(x);
  }

  lemma MaskTestsShifted(x: bv8, k: nat)
    requires k < 8
    ensures x & Mask(k) != 0 <==> Shifted(x, k) & 1 != 0
  {}

  /** Testing a byte with the mask of bit `k` tests its binary digit `k`. */
  lemma MaskTestsDigit(x: bv8, k: nat)
    requires k < 8
    ensures x & Mask(k) != 0 <==> (x as int) / Pow2(k) % 2 == 1
  {
    hide Mask, Pow2, Shifted;
    MaskTestsShifted(x, k);
    ShiftedDivides(x, k);
    LowestBit(Shifted(x, k));
  }

  lemma SmallPowers()
    ensures Pow2(0) == 1 && Pow2(1) == 2 && Pow2(2) == 4 && Pow2(3) == 8
    ensures Pow2(4) == 16 && Pow2(5) == 32 && Pow2(6) == 64 && Pow2(7) == 128
  {
    assert Pow2(3) == 8 && Pow2(6) == 64;
  }

  lemma HasBitIsSet(leaf: Leaf, bit: nat)
    requires bit < 256
    ensures HasBit(leaf, bit) <==> IsSet(leaf, bit)
  {
    MaskTestsDigit(leaf[bit / 8], bit % 8);
  }

  lemma SetBitMasks(leaf: Leaf, a: nat, b: nat)
    requires a < 256 && b < 256
    ensures HasBit(SetBit(leaf, a), b) <==> HasBit(leaf, b) || a == b
  {
    if a / 8 == b / 8 { MaskBits(leaf[a / 8], a, b); }
  }

  /** Setting a bit sets that bit and no other. */
  lemma SetBitAdds(leaf: Leaf, a: nat)
    requires a < 256
    ensures Adds(leaf, SetBit(leaf, a), a)
  {
    hide IsSet, HasBit, SetBit;
    forall b: nat | b < 256 ensures IsSet(SetBit(leaf, a), b) <==> IsSet(leaf, b) || b == a {
      SetBitMasks(leaf, a, b);
      HasBitIsSet(leaf, b);
      HasBitIsSet(SetBit(leaf, a), b);
    }
  }

  lemma BytesByBits(x: bv8, y: bv8)
    requires forall k: nat :: k < 8 ==> ((x as int) / Pow2(k) % 2 == 1 <==> (y as int) / Pow2(k) % 2 == 1)
    ensures x == y
  {
    forall k: nat | k < 8 ensures x & Mask(k) != 0 <==> y & Mask(k) != 0 {
      MaskTestsDigit(x, k);
      MaskTestsDigit(y, k);
    }
    BytesByMasks(x, y);
  }

  lemma BytesByMasks(x: bv8, y: bv8)
    requires forall k: nat :: k < 8 ==> (x & Mask(k) != 0 <==> y & Mask(k) != 0)
    ensures x == y
  {
    assert x & Mask(0) != 0 <==> y & Mask(0) != 0;
    assert x & Mask(1) != 0 <==> y & Mask(1) != 0;
    assert x & Mask(2) != 0 <==> y & Mask(2) != 0;
    assert x & Mask(3) != 0 <==> y & Mask(3) != 0;
    assert x & Mask(4) != 0 <==> y & Mask(4) != 0;
    assert x & Mask(5) != 0 <==> y & Mask(5) != 0;
    assert x & Mask(6) != 0 <==> y & Mask(6) != 0;
    assert x & Mask(7) != 0 <==> y & Mask(7) != 0;
  }

  /** A leaf is determined by its 256 bits. */
  lemma LeavesByBits(x: Leaf, y: Leaf)
    requires forall b: nat :: b < 256 ==> (IsSet(x, b) <==> IsSet(y, b))
    ensures x == y
  {
    hide Pow2;
    forall i | 0 <= i < 32 ensures x[i] == y[i] {
      forall k: nat | k < 8 ensures (x[i] as int) / Pow2(k) % 2 == 1 <==> (y[i] as int) / Pow2(k) % 2 == 1 {
        assert IsSet(x, 8 * i + k) <==> IsSet(y, 8 * i + k);
      }
      BytesByBits(x[i], y[i]);
    }
  }

  // ---- Leaf maps ----

  function SpendOne(d: Decoder, leaves: map<nat, Leaf>, ci: u64): map<nat, Leaf>
    requires GoodDecoder(d)
  { leaves[d(ci).0 := SetBit(At(leaves, d(ci).0), d(ci).1)] }

  function SpendAll(d: Decoder, leaves: map<nat, Leaf>, cis: seq<u64>): map<nat, Leaf>
    requires GoodDecoder(d)
    decreases |cis|
  { if cis == [] then leaves else SpendAll(d, SpendOne(d, leaves, cis[0]), cis[1..]) }

  predicate Spent(d: Decoder, leaves: map<nat, Leaf>, ci: u64)
    requires GoodDecoder(d)
  { IsSet(At(leaves, d(ci).0), d(ci).1) }

  /** Each index is still unspent when its turn comes. */
  predicate CanSpend(d: Decoder, leaves: map<nat, Leaf>, cis: seq<u64>)
    requires GoodDecoder(d)
    decreases |cis|
  { cis == [] || (!Spent(d, leaves, cis[0]) && CanSpend(d, SpendOne(d, leaves, cis[0]), cis[1..])) }

  ghost function Touched(d: Decoder, cis: seq<u64>): set<nat>
  { set k | 0 <= k < |cis| :: d(cis[k]).0 }

  /** Bit `b` of leaf `i` is set exactly if some index decodes to leaf `i` and bit `b`. */
  ghost predicate HoldsExactly(d: Decoder, leaves: map<nat, Leaf>, cis: seq<u64>)
  { forall i: nat, b: nat :: b < 256 ==> (IsSet(At(leaves, i), b) <==> Decodes(d, cis, i, b)) }

  /** The leaves hold the bits that the indices decode to, and no others. */
  method RebuildLeaves(d: Decoder, cis: seq<u64>) returns (leaves: map<nat, Leaf>)
    requires GoodDecoder(d)
    ensures leaves == SpendAll(d, map[], cis)
    ensures leaves.Keys == Touched(d, cis)
    ensures HoldsExactly(d, leaves, cis)
  {
    RebuiltBits(d, cis);
    hide HoldsExactly, SetBit, Touched;
    leaves := map[];
    for i := 0 to |cis|
      invariant SpendAll(d, leaves, cis[i..]) == SpendAll(d, map[], cis)
    {
      assert cis[i..][0] == cis[i] && cis[i..][1..] == cis[i + 1..];
      var (index, bit) := d(cis[i]);
      ghost var next := SpendOne(d, leaves, cis[i]);
      if index !in leaves { leaves := leaves[index := ZERO_LEAF]; }
      leaves := leaves[index := SetBit(leaves[index], bit)];
      assert leaves == next;
    }
  }

  /** `after` has the bits of leaf `i` that it had before and those that some index decodes to. */
  ghost predicate GainsBits(d: Decoder, before: Leaf, after: Leaf, cis: seq<u64>, i: nat)
  { forall b: nat :: b < 256 ==> (IsSet(after, b) <==> IsSet(before, b) || Decodes(d, cis, i, b)) }

  ghost predicate LeavesGain(d: Decoder, before: map<nat, Leaf>, after: map<nat, Leaf>, cis: seq<u64>)
  { forall i :: i in after ==> GainsBits(d, At(before, i), after[i], cis, i) }

  /** Only the touched leaves are computed; each agrees with spending everything in order. */
  method UpdatedLeafValues(d: Decoder, cis: seq<u64>, existing: map<nat, Leaf>) returns (result: map<nat, Leaf>)
    requires GoodDecoder(d)
    ensures result.Keys == Touched(d, cis)
    ensures forall i :: i in result ==> result[i] == At(SpendAll(d, existing, cis), i)
    ensures LeavesGain(d, existing, result, cis)
  {
    hide LeavesGain, SetBit, Touched, IsSet;
    assert Touched(d, []) == {} by { TouchedNothing(d); }
    result := map[];
    ghost var all := existing;
    for i := 0 to |cis|
      invariant SpendAll(d, all, cis[i..]) == SpendAll(d, existing, cis)
      invariant result.Keys == Touched(d, cis[..i])
      invariant forall j: nat :: At(all, j) == if j in result then result[j] else At(existing, j)
    {
      assert cis[i..][0] == cis[i] && cis[i..][1..] == cis[i + 1..];
      TouchedStep(d, cis, i);
      var (index, bit) := d(cis[i]);
      if index !in result { result := result[index := At(existing, index)]; }
      assert result[index] == At(all, index);
      result := result[index := SetBit(result[index], bit)];
      assert SpendOne(d, all, cis[i]) == all[index := SetBit(At(all, index), bit)];
      all := SpendOne(d, all, cis[i]);
    }
    assert cis[..|cis|] == cis;
    UpdatedGain(d, existing, result, cis);
  }

  lemma UpdatedGain(d: Decoder, existing: map<nat, Leaf>, result: map<nat, Leaf>, cis: seq<u64>)
    requires GoodDecoder(d)
    requires forall i :: i in result ==> result[i] == At(SpendAll(d, existing, cis), i)
    ensures LeavesGain(d, existing, result, cis)
  {
    hide GainsBits, SpendAll;
    forall i | i in result ensures GainsBits(d, At(existing, i), result[i], cis, i) {
      SpentBits(d, existing, cis, i);
    }
  }

  lemma TouchedNothing(d: Decoder)
    ensures Touched(d, []) == {}
  {}

  lemma TouchedStep(d: Decoder, cis: seq<u64>, i: nat)
    requires i < |cis|
    ensures Touched(d, cis[..i + 1]) == Touched(d, cis[..i]) + {d(cis[i]).0}
  {
    var a, b := Touched(d, cis[..i + 1]), Touched(d, cis[..i]) + {d(cis[i]).0};
    forall x | x in a ensures x in b {
      var k :| 0 <= k < i + 1 && d(cis[..i + 1][k]).0 == x;
      if k < i { assert cis[..i][k] == cis[k]; }
    }
    forall x | x in b ensures x in a {
      if x == d(cis[i]).0 {
        assert cis[..i + 1][i] == cis[i];
      } else {
        var k :| 0 <= k < i && d(cis[..i][k]).0 == x;
        assert cis[..i + 1][k] == cis[k];
      }
    }
  }

  // ---- Sequential proofs ----

  datatype SpentTxoProof = SpentTxoProof(oldLeaf: Leaf, bitIndex: nat, merkleIndex: nat, siblings: seq<Leaf>,
                                         oldRoot: Leaf, newRoot: Leaf)

  /** The proof shows the leaf of `ci` under the root of `before`, with its bit unset, and under
      the root of the map in which that one bit has been set. */
  ghost predicate Proves(h: Hash2, d: Decoder, before: map<nat, Leaf>, ci: u64, p: SpentTxoProof)
    requires GoodDecoder(d)
  {
    && (p.merkleIndex, p.bitIndex) == d(ci)
    && |p.siblings| == 45
    && p.oldLeaf == At(before, p.merkleIndex) && !IsSet(p.oldLeaf, p.bitIndex)
    && p.oldRoot == Root(h, before, HEIGHT) == Fold(h, p.oldLeaf, p.merkleIndex, p.siblings)
    && exists newLeaf ::
         Adds(p.oldLeaf, newLeaf, p.bitIndex)
         && p.newRoot == Root(h, before[p.merkleIndex := newLeaf], HEIGHT)
         && p.newRoot == Fold(h, newLeaf, p.merkleIndex, p.siblings)
  }

  lemma AddsIsSetBit(before: Leaf, after: Leaf, bit: nat)
    requires bit < 256 && Adds(before, after, bit)
    ensures after == SetBit(before, bit)
  {
    SetBitAdds(before, bit);
    LeavesByBits(after, SetBit(before, bit));
  }

  lemma ProvedRoot(h: Hash2, d: Decoder, before: map<nat, Leaf>, ci: u64, p: SpentTxoProof)
    requires GoodDecoder(d) && Proves(h, d, before, ci, p)
    ensures p.newRoot == Root(h, SpendOne(d, before, ci), HEIGHT)
  {
    hide Root, Fold, SetBit, IsSet;
    var newLeaf :| Adds(p.oldLeaf, newLeaf, p.bitIndex)
                   && p.newRoot == Root(h, before[p.merkleIndex := newLeaf], HEIGHT)
                   && p.newRoot == Fold(h, newLeaf, p.merkleIndex, p.siblings);
    AddsIsSetBit(p.oldLeaf, newLeaf, p.bitIndex);
  }

  /** One proof and the updated leaves. Neither root comparison can fail. */
  method ProveSpend(h: Hash2, d: Decoder, leaves: map<nat, Leaf>, ci: u64)
    returns (r: Result<(SpentTxoProof, map<nat, Leaf>)>)
    requires GoodDecoder(d)
    ensures r.Ok? <==> !Spent(d, leaves, ci)
    ensures r.Ok? ==> Proves(h, d, leaves, ci, r.value.0) && r.value.1 == SpendOne(d, leaves, ci)
  {
    hide Node, Fold, HasBit, IsSet, SetBit;
    var (index, bit) := d(ci);
    var oldLeaf := At(leaves, index);
    HasBitIsSet(oldLeaf, bit);
    if HasBit(oldLeaf, bit) { return Err; }
    var levels := BuildSparseLevels(h, leaves, HEIGHT);
    var siblings := ReadSiblings(h, leaves, levels, HEIGHT, index);
    var oldRoot := MerkleRootFromProof(h, oldLeaf, index, siblings);
    LookupIsNode(h, leaves, levels[HEIGHT], HEIGHT, 0);
    var expectedOldRoot := Lookup(h, levels[HEIGHT], HEIGHT, 0);
    ProofFoldsToRoot(h, leaves, index, HEIGHT, siblings);
    if oldRoot != expectedOldRoot { return Err; }
    var newLeaf := SetBit(oldLeaf, bit);
    SetBitAdds(oldLeaf, bit);
    var newRoot := MerkleRootFromProof(h, newLeaf, index, siblings);
    var updated := leaves[index := newLeaf];
    SiblingsSurviveUpdate(h, leaves, index, newLeaf, siblings);
    ProofFoldsToRoot(h, updated, index, HEIGHT, siblings);
    var recomputed := ComputeSparseRoot(h, updated, HEIGHT);
    if recomputed != newRoot { return Err; }
    return Ok((SpentTxoProof(oldLeaf, bit, index, siblings, oldRoot, newRoot), updated));
  }

  lemma {:induction false} SpendAllStep(d: Decoder, leaves: map<nat, Leaf>, cis: seq<u64>, ci: u64)
    requires GoodDecoder(d)
    ensures SpendAll(d, leaves, cis + [ci]) == SpendOne(d, SpendAll(d, leaves, cis), ci)
    decreases |cis|
  {
    if cis == [] {
      assert [ci][1..] == [] && cis + [ci] == [ci];
    } else {
      SpendAllStep(d, SpendOne(d, leaves, cis[0]), cis[1..], ci);
      assert (cis + [ci])[1..] == cis[1..] + [ci];
    }
  }

  ghost predicate ProvesAll(h: Hash2, d: Decoder, leaves: map<nat, Leaf>, cis: seq<u64>, proofs: seq<SpentTxoProof>)
    requires GoodDecoder(d)
  {
    && |proofs| <= |cis|
    && forall k :: 0 <= k < |proofs| ==> Proves(h, d, SpendAll(d, leaves, cis[..k]), cis[k], proofs[k])
  }

  method BuildSequentialProofs(h: Hash2, d: Decoder, existing: map<nat, Leaf>, cis: seq<u64>)
    returns (r: Result<(seq<SpentTxoProof>, map<nat, Leaf>)>)
    requires GoodDecoder(d)
    ensures r.Ok? <==> CanSpend(d, existing, cis)
    ensures r.Ok? ==> r.value.1 == SpendAll(d, existing, cis)
    ensures r.Ok? ==> |r.value.0| == |cis| && ProvesAll(h, d, existing, cis, r.value.0)
    ensures r.Ok? ==> existing.Keys <= r.value.1.Keys && LeavesGain(d, existing, r.value.1, cis)
  {
    hide Proves, SpendOne, Spent, IsSet, LeavesGain;
    var leaves := existing;
    var proofs: seq<SpentTxoProof> := [];
    for i := 0 to |cis|
      invariant |proofs| == i && ProvesAll(h, d, existing, cis, proofs)
      invariant leaves == SpendAll(d, existing, cis[..i])
      invariant CanSpend(d, existing, cis) == CanSpend(d, leaves, cis[i..])
    {
      assert cis[i..][0] == cis[i] && cis[i..][1..] == cis[i + 1..];
      var step :- ProveSpend(h, d, leaves, cis[i]);
      SpendAllStep(d, existing, cis[..i], cis[i]);
      assert cis[..i] + [cis[i]] == cis[..i + 1];
      leaves := step.1;
      proofs := proofs + [step.0];
    }
    assert cis[..|cis|] == cis;
    UpdatedGain(d, existing, leaves, cis);
    SpendAllKeeps(d, existing, cis);
    return Ok((proofs, leaves));
  }

  lemma ProofAdvances(h: Hash2, d: Decoder, leaves: map<nat, Leaf>, cis: seq<u64>, proofs: seq<SpentTxoProof>, k: nat)
    requires GoodDecoder(d)
    requires |proofs| == |cis| && ProvesAll(h, d, leaves, cis, proofs) && k < |proofs|
    ensures proofs[k].oldRoot == Root(h, SpendAll(d, leaves, cis[..k]), HEIGHT)
    ensures proofs[k].newRoot == Root(h, SpendAll(d, leaves, cis[..k + 1]), HEIGHT)
  {
    hide Root, Fold, IsSet, SetBit, SpendOne, SpendAll, Adds;
    SpendAllStep(d, leaves, cis[..k], cis[k]);
    ProvedRoot(h, d, SpendAll(d, leaves, cis[..k]), cis[k], proofs[k]);
    assert cis[..k] + [cis[k]] == cis[..k + 1];
  }

  /** The proofs form one chain from the root of the initial leaves to that of the final ones. */
  lemma ProofsChain(h: Hash2, d: Decoder, leaves: map<nat, Leaf>, cis: seq<u64>, proofs: seq<SpentTxoProof>)
    requires GoodDecoder(d)
    requires |proofs| == |cis| > 0 && ProvesAll(h, d, leaves, cis, proofs)
    ensures proofs[0].oldRoot == Root(h, leaves, HEIGHT)
    ensures forall k :: 0 < k < |proofs| ==> proofs[k].oldRoot == proofs[k - 1].newRoot
    ensures proofs[|proofs| - 1].newRoot == Root(h, SpendAll(d, leaves, cis), HEIGHT)
  {
    hide Root, Proves, SpendOne;
    forall k | 0 < k < |proofs| ensures proofs[k].oldRoot == proofs[k - 1].newRoot {
      ProofAdvances(h, d, leaves, cis, proofs, k - 1);
      ProofAdvances(h, d, leaves, cis, proofs, k);
    }
    ProofAdvances(h, d, leaves, cis, proofs, 0);
    ProofAdvances(h, d, leaves, cis, proofs, |proofs| - 1);
    assert cis[..0] == [] && cis[..|cis|] == cis;
  }

  // ---- What can be spent, and in which order ----

  lemma SpendOneBits(d: Decoder, leaves: map<nat, Leaf>, ci: u64, i: nat, b: nat)
    requires GoodDecoder(d) && b < 256
    ensures IsSet(At(SpendOne(d, leaves, ci), i), b) <==> IsSet(At(leaves, i), b) || d(ci) == (i, b)
  {
    hide IsSet, SetBit;
    if i == d(ci).0 { SetBitAdds(At(leaves, i), d(ci).1); }
  }

  ghost predicate Decodes(d: Decoder, cis: seq<u64>, i: nat, b: nat)
  { exists k :: 0 <= k < |cis| && d(cis[k]) == (i, b) }

  lemma DecodesStep(d: Decoder, cis: seq<u64>, i: nat, b: nat)
    requires cis != []
    ensures Decodes(d, cis, i, b) <==> d(cis[0]) == (i, b) || Decodes(d, cis[1..], i, b)
  {
    if k :| 0 <= k < |cis| && d(cis[k]) == (i, b) {
      if k > 0 { assert cis[1..][k - 1] == cis[k]; }
    }
    if k :| 0 <= k < |cis[1..]| && d(cis[1..][k]) == (i, b) {
      assert cis[k + 1] == cis[1..][k];
    }
  }

  /** A bit is set after spending exactly if it was set before or some spent index decodes to it. */
  lemma {:induction false} SpendAllBits(d: Decoder, leaves: map<nat, Leaf>, cis: seq<u64>, i: nat, b: nat)
    requires GoodDecoder(d) && b < 256
    ensures IsSet(At(SpendAll(d, leaves, cis), i), b) <==> IsSet(At(leaves, i), b) || Decodes(d, cis, i, b)
    decreases |cis|
  {
    hide IsSet, SpendOne, Decodes;
    if cis == [] {
      assert !Decodes(d, [], i, b) by { DecodesNothing(d, i, b); }
    } else {
      DecodesStep(d, cis, i, b);
      SpendOneBits(d, leaves, cis[0], i, b);
      SpendAllBits(d, SpendOne(d, leaves, cis[0]), cis[1..], i, b);
    }
  }

  lemma SpentBits(d: Decoder, leaves: map<nat, Leaf>, cis: seq<u64>, i: nat)
    requires GoodDecoder(d)
    ensures GainsBits(d, At(leaves, i), At(SpendAll(d, leaves, cis), i), cis, i)
  {
    hide IsSet, SpendAll, Decodes, At;
    forall b: nat | b < 256
      ensures IsSet(At(SpendAll(d, leaves, cis), i), b) <==> IsSet(At(leaves, i), b) || Decodes(d, cis, i, b)
    {
      SpendAllBits(d, leaves, cis, i, b);
    }
  }

  lemma SpendAllKeeps(d: Decoder, leaves: map<nat, Leaf>, cis: seq<u64>)
    requires GoodDecoder(d)
    ensures leaves.Keys <= SpendAll(d, leaves, cis).Keys
  {
    hide SpendAll;
    forall i | i in leaves ensures i in SpendAll(d, leaves, cis) { SpendAllKeys(d, leaves, cis, i); }
  }

  lemma ZeroHasNoBits(b: nat)
    requires b < 256
    ensures !IsSet(ZERO_LEAF, b)
  {
    hide Pow2;
  }

  lemma RebuiltBits(d: Decoder, cis: seq<u64>)
    requires GoodDecoder(d)
    ensures HoldsExactly(d, SpendAll(d, map[], cis), cis)
    ensures SpendAll(d, map[], cis).Keys == Touched(d, cis)
  {
    hide IsSet, SpendAll, Decodes;
    forall i: nat, b: nat | b < 256 ensures IsSet(At(SpendAll(d, map[], cis), i), b) <==> Decodes(d, cis, i, b) {
      SpendAllBits(d, map[], cis, i, b);
      ZeroHasNoBits(b);
    }
    forall i: nat ensures i in SpendAll(d, map[], cis) <==> i in Touched(d, cis) { SpendAllKeys(d, map[], cis, i); }
  }

  lemma DecodesNothing(d: Decoder, i: nat, b: nat)
    ensures !Decodes(d, [], i, b)
  {}

  lemma {:induction false} SpendAllKeys(d: Decoder, leaves: map<nat, Leaf>, cis: seq<u64>, i: nat)
    requires GoodDecoder(d)
    ensures i in SpendAll(d, leaves, cis) <==> i in leaves || exists k :: 0 <= k < |cis| && d(cis[k]).0 == i
    decreases |cis|
  {
    if cis != [] {
      SpendAllKeys(d, SpendOne(d, leaves, cis[0]), cis[1..], i);
      if k :| 0 <= k < |cis| && d(cis[k]).0 == i {
        if k > 0 { assert cis[1..][k - 1] == cis[k]; }
      }
    }
  }

  ghost predicate Fresh(d: Decoder, leaves: map<nat, Leaf>, cis: seq<u64>)
    requires GoodDecoder(d)
  {
    && (forall k :: 0 <= k < |cis| ==> !Spent(d, leaves, cis[k]))
    && forall j, k :: 0 <= j < k < |cis| ==> d(cis[j]) != d(cis[k])
  }

  lemma FreshStep(d: Decoder, leaves: map<nat, Leaf>, cis: seq<u64>)
    requires GoodDecoder(d) && cis != []
    ensures Fresh(d, leaves, cis) <==>
              !Spent(d, leaves, cis[0]) && Fresh(d, SpendOne(d, leaves, cis[0]), cis[1..])
  {
    var next, rest := SpendOne(d, leaves, cis[0]), cis[1..];
    hide SpendOne, IsSet;
    forall k | 0 <= k < |rest|
      ensures Spent(d, next, rest[k]) <==> Spent(d, leaves, cis[k + 1]) || d(cis[0]) == d(cis[k + 1])
    {
      SpendOneBits(d, leaves, cis[0], d(rest[k]).0, d(rest[k]).1);
    }
    if Fresh(d, leaves, cis) {
      forall k | 0 <= k < |rest| ensures !Spent(d, next, rest[k]) {
        assert !Spent(d, leaves, cis[k + 1]) && d(cis[0]) != d(cis[k + 1]);
      }
      forall j, k | 0 <= j < k < |rest| ensures d(rest[j]) != d(rest[k]) {
        assert d(cis[j + 1]) != d(cis[k + 1]);
      }
    }
    if !Spent(d, leaves, cis[0]) && Fresh(d, next, rest) {
      forall k | 0 <= k < |cis| ensures !Spent(d, leaves, cis[k]) {
        if k > 0 { assert !Spent(d, next, rest[k - 1]); }
      }
      forall j, k | 0 <= j < k < |cis| ensures d(cis[j]) != d(cis[k]) {
        if j == 0 { assert !Spent(d, next, rest[k - 1]); } else { assert d(rest[j - 1]) != d(rest[k - 1]); }
      }
    }
  }

  /** Sequential spending succeeds exactly when the decoded bits are pairwise distinct and unset. */
  lemma {:induction false} CanSpendIffFresh(d: Decoder, leaves: map<nat, Leaf>, cis: seq<u64>)
    requires GoodDecoder(d)
    ensures CanSpend(d, leaves, cis) <==> Fresh(d, leaves, cis)
    decreases |cis|
  {
    hide SpendOne, Spent;
    if cis != [] {
      FreshStep(d, leaves, cis);
      CanSpendIffFresh(d, SpendOne(d, leaves, cis[0]), cis[1..]);
    }
  }

  /** The resulting leaves depend only on which indices are spent, not on order or repetition. */
  lemma SpendingIsOrderIndependent(d: Decoder, leaves: map<nat, Leaf>, s: seq<u64>, t: seq<u64>)
    requires GoodDecoder(d)
    requires forall ci :: ci in s <==> ci in t
    ensures SpendAll(d, leaves, s) == SpendAll(d, leaves, t)
  {
    var a, b := SpendAll(d, leaves, s), SpendAll(d, leaves, t);
    forall i: nat ensures i in a <==> i in b {
      SpendAllKeys(d, leaves, s, i);
      SpendAllKeys(d, leaves, t, i);
      if k :| 0 <= k < |s| && d(s[k]).0 == i { assert s[k] in t; }
      if k :| 0 <= k < |t| && d(t[k]).0 == i { assert t[k] in s; }
    }
    forall i | i in a ensures a[i] == b[i] {
      forall bit: nat | bit < 256 ensures IsSet(At(a, i), bit) <==> IsSet(At(b, i), bit) {
        SpendAllBits(d, leaves, s, i, bit);
        SpendAllBits(d, leaves, t, i, bit);
        if k :| 0 <= k < |s| && d(s[k]) == (i, bit) { assert s[k] in t; }
        if k :| 0 <= k < |t| && d(t[k]) == (i, bit) { assert t[k] in s; }
      }
      LeavesByBits(At(a, i), At(b, i));
    }
  }

  lemma WithoutOne(s: seq<u64>, k: nat)
    requires k < |s|
    ensures multiset(s[..k] + s[k + 1..]) == multiset(s) - multiset{s[k]}
  {
    assert s == s[..k] + [s[k]] + s[k + 1..];
  }

  /** Two positions of one order appear as two different positions of any permutation. */
  lemma PositionsUnderPermutation(s: seq<u64>, t: seq<u64>, j: nat, k: nat) returns (a: nat, b: nat)
    requires multiset(s) == multiset(t) && j < k < |t|
    ensures a < |s| && b < |s| && a != b && s[a] == t[j] && s[b] == t[k]
  {
    assert t[k] in multiset(s);
    b :| 0 <= b < |s| && s[b] == t[k];
    WithoutOne(s, b);
    WithoutOne(t, k);
    var rest, others := s[..b] + s[b + 1..], t[..k] + t[k + 1..];
    assert others[j] == t[j] && multiset(rest) == multiset(others);
    assert t[j] in multiset(rest);
    var e :| 0 <= e < |rest| && rest[e] == t[j];
    a := if e < b then e else e + 1;
  }

  lemma DistinctUnderPermutation(d: Decoder, s: seq<u64>, t: seq<u64>)
    requires multiset(s) == multiset(t)
    requires forall j, k :: 0 <= j < k < |s| ==> d(s[j]) != d(s[k])
    ensures forall j, k :: 0 <= j < k < |t| ==> d(t[j]) != d(t[k])
  {
    forall j, k | 0 <= j < k < |t| ensures d(t[j]) != d(t[k]) {
      var a, b := PositionsUnderPermutation(s, t, j, k);
      assert if a < b then d(s[a]) != d(s[b]) else d(s[b]) != d(s[a]);
    }
  }

  /** A permutation of the spent indices succeeds alike and leads to the same leaves. */
  lemma PermutationsAgree(d: Decoder, leaves: map<nat, Leaf>, s: seq<u64>, t: seq<u64>)
    requires GoodDecoder(d) && multiset(s) == multiset(t)
    ensures CanSpend(d, leaves, s) == CanSpend(d, leaves, t)
    ensures SpendAll(d, leaves, s) == SpendAll(d, leaves, t)
  {
    forall ci ensures ci in s <==> ci in t {
      assert ci in multiset(s) <==> ci in multiset(t);
    }
    SpendingIsOrderIndependent(d, leaves, s, t);
    CanSpendIffFresh(d, leaves, s);
    CanSpendIffFresh(d, leaves, t);
    if Fresh(d, leaves, s) { DistinctUnderPermutation(d, s, t); FreshTransfers(d, leaves, s, t); }
    if Fresh(d, leaves, t) { DistinctUnderPermutation(d, t, s); FreshTransfers(d, leaves, t, s); }
  }

  lemma FreshTransfers(d: Decoder, leaves: map<nat, Leaf>, s: seq<u64>, t: seq<u64>)
    requires GoodDecoder(d) && Fresh(d, leaves, s)
    requires forall ci :: ci in t ==> ci in s
    ensures forall k :: 0 <= k < |t| ==> !Spent(d, leaves, t[k])
  {
    forall k | 0 <= k < |t| ensures !Spent(d, leaves, t[k]) {
      assert t[k] in s;
      var a :| 0 <= a < |s| && s[a] == t[k];
    }
  }

  /** Spending on top of rebuilt leaves is rebuilding from the longer list. */
  lemma {:induction false} SpendingContinues(d: Decoder, leaves: map<nat, Leaf>, s: seq<u64>, t: seq<u64>)
    requires GoodDecoder(d)
    ensures SpendAll(d, SpendAll(d, leaves, s), t) == SpendAll(d, leaves, s + t)
    decreases |s|
  {
    hide SpendOne, Spent;
    if s == [] {
      assert s + t == t;
    } else {
      SpendingContinues(d, SpendOne(d, leaves, s[0]), s[1..], t);
      assert (s + t)[1..] == s[1..] + t;
    }
  }

  /** Rebuilding from a joined list is provable spend by spend exactly when rebuilding from the
      first part is, and the second part can be proved on top of it. */
  lemma {:induction false} CanSpendContinues(d: Decoder, leaves: map<nat, Leaf>, s: seq<u64>, t: seq<u64>)
    requires GoodDecoder(d)
    ensures CanSpend(d, leaves, s + t) <==> CanSpend(d, leaves, s) && CanSpend(d, SpendAll(d, leaves, s), t)
    decreases |s|
  {
    hide SpendOne, Spent;
    if s == [] {
      assert s + t == t;
    } else {
      CanSpendContinues(d, SpendOne(d, leaves, s[0]), s[1..], t);
      assert (s + t)[1..] == s[1..] + t;
    }
  }
}
