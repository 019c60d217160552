/** Legacy signature-hash preimages, scriptSig assembly, and what a preimage commits to. */
module Sighash {
  import opened Bytes
  import opened Wire
  import opened WireProofs

  const SIGHASH_ALL: u32 := 1

  function PushHeader(n: nat): (s: seq<u8>)
    ensures |s| > 0
  {
    if n <= 0x4b then [n]
    else if n <= 0xff then [0x4c, n]
    else if n <= 0xffff then [0x4d] + LE(2, n)
    else [0x4e] + LE(4, n)
  }

  /** A minimal length-prefixed data push. */
  function PushData(data: seq<u8>): (s: seq<u8>)
    ensures |s| > 0
  { PushHeader(|data|) + data }

  function PushAll(items: seq<seq<u8>>): seq<u8>
  { if items == [] then [] else PushData(items[0]) + PushAll(items[1..]) }

  /** The extra zero byte is the dummy element that CHECKMULTISIG consumes. */
  function ScriptSig(signatures: seq<seq<u8>>, redeemScript: seq<u8>): seq<u8>
  { [0x00] + PushAll(signatures) + PushData(redeemScript) }

  function ApplyScriptSig(t: Tx, index: nat, signatures: seq<seq<u8>>): Result<Tx>
  {
    if index >= |t.inputs| || index >= |t.redeemScripts| then Err
    else
      var signed := t.inputs[index].(scriptSig := ScriptSig(signatures, t.redeemScripts[index]));
      Ok(t.(inputs := t.inputs[index := signed]))
  }

  function Base(hashType: u32): nat { hashType % 32 }
  predicate AnyoneCanPay(hashType: u32) { hashType / 128 % 2 == 1 }

  function SighashInput(t: Tx, index: nat, base: nat, k: nat): TxIn
    requires index < |t.redeemScripts| && k < |t.inputs|
  {
    var sequence := if k != index && (base == 2 || base == 3) then 0 else t.inputs[k].sequence;
    TxIn(t.inputs[k].prevTxidLe, t.inputs[k].vout, if k == index then t.redeemScripts[index] else [], sequence)
  }

  function SighashInputs(t: Tx, index: nat, hashType: u32): seq<TxIn>
    requires index < |t.inputs| && index < |t.redeemScripts|
  {
    if AnyoneCanPay(hashType) then [t.inputs[index].(scriptSig := t.redeemScripts[index])]
    else seq(|t.inputs|, k requires 0 <= k < |t.inputs| => SighashInput(t, index, Base(hashType), k))
  }

  function SighashOutputs(t: Tx, index: nat, hashType: u32): seq<TxOut>
  {
    if Base(hashType) == 2 then []
    else if Base(hashType) == 3 then (if index < |t.outputs| then [t.outputs[index]] else [])
    else t.outputs
  }

  /** The bytes whose double SHA-256 is signed for input `index`. */
  function Preimage(t: Tx, index: nat, hashType: u32): Result<seq<u8>>
  {
    if index >= |t.inputs| || index >= |t.redeemScripts| then Err
    else if Base(hashType) == 3 && index >= |t.outputs| then Ok([0x01])
    else Ok(SerializeTransaction(t.version, SighashInputs(t, index, hashType),
                                 SighashOutputs(t, index, hashType), t.locktime) + LE(4, hashType))
  }

  // ---- Stability ----

  datatype ScriptSigCall = ScriptSigCall(index: nat, signatures: seq<seq<u8>>)

  /** A run of `apply_script_sig` calls; a refused call changes nothing. */
  function ApplyCalls(t: Tx, calls: seq<ScriptSigCall>): Tx
    decreases |calls|
  {
    if calls == [] then t
    else
      var r := ApplyScriptSig(t, calls[0].index, calls[0].signatures);
      ApplyCalls(if r.Ok? then r.value else t, calls[1..])
  }

  /** `u` is `t` with other scriptSigs. */
  ghost predicate SameButScriptSigs(t: Tx, u: Tx)
  {
    && |u.inputs| == |t.inputs|
    && u == t.(inputs := u.inputs)
    && forall k :: 0 <= k < |t.inputs| ==> u.inputs[k] == t.inputs[k].(scriptSig := u.inputs[k].scriptSig)
  }

  lemma ScriptSigsAreNotSigned(t: Tx, u: Tx, i: nat, hashType: u32)
    requires SameButScriptSigs(t, u)
    ensures Preimage(u, i, hashType) == Preimage(t, i, hashType)
  {
    if i < |t.inputs| && i < |t.redeemScripts| {
      assert SighashInputs(u, i, hashType) == SighashInputs(t, i, hashType);
    }
  }

  /** No sequence of scriptSig assignments changes what any input signs, for any hash type. */
  lemma {:induction false} PreimagesAreStable(t: Tx, calls: seq<ScriptSigCall>, i: nat, hashType: u32)
    ensures Preimage(ApplyCalls(t, calls), i, hashType) == Preimage(t, i, hashType)
    decreases |calls|
  {
    if calls != [] {
      var r := ApplyScriptSig(t, calls[0].index, calls[0].signatures);
      if r.Ok? { ScriptSigsAreNotSigned(t, r.value, i, hashType); }
      PreimagesAreStable(if r.Ok? then r.value else t, calls[1..], i, hashType);
    }
  }

  // ---- Injectivity of the wire format ----

  /** Every length on the wire fits its 64-bit count, as any in-memory vector's does. */
  predicate FitsIns(s: seq<TxIn>)
  { |s| < U64_LIMIT && forall k :: 0 <= k < |s| ==> |s[k].scriptSig| < U64_LIMIT }

  predicate FitsOuts(s: seq<TxOut>)
  { |s| < U64_LIMIT && forall k :: 0 <= k < |s| ==> |s[k].scriptPubkey| < U64_LIMIT }

  lemma FixedWidthInjective(n: nat, v: nat, x: seq<u8>, w: nat, y: seq<u8>)
    requires v < Pow256(n) && w < Pow256(n)
    requires LE(n, v) + x == LE(n, w) + y
    ensures v == w && x == y
  {
    SplitEqual(LE(n, v), x, LE(n, w), y);
    LEInjective(n, v, w);
  }

  /** A count-prefixed byte string determines itself and what follows it. */
  lemma CountedInjective(a: seq<u8>, x: seq<u8>, b: seq<u8>, y: seq<u8>)
    requires |a| < U64_LIMIT && |b| < U64_LIMIT
    requires Varint(|a|) + (a + x) == Varint(|b|) + (b + y)
    ensures a == b && x == y
  {
    VarintPrefixFree(|a|, a + x, |b|, b + y);
    SplitEqual(a, x, b, y);
  }

  lemma InInjective(a: TxIn, x: seq<u8>, b: TxIn, y: seq<u8>)
    requires |a.scriptSig| < U64_LIMIT && |b.scriptSig| < U64_LIMIT
    requires SerializeIn(a) + x == SerializeIn(b) + y
    ensures a == b && x == y
  {
    hide Varint;
    PowValues();
    var ea, eb := LE(4, a.sequence) + x, LE(4, b.sequence) + y;
    var da, db := Varint(|a.scriptSig|) + (a.scriptSig + ea), Varint(|b.scriptSig|) + (b.scriptSig + eb);
    assert SerializeIn(a) + x == a.prevTxidLe + (LE(4, a.vout) + da);
    assert SerializeIn(b) + y == b.prevTxidLe + (LE(4, b.vout) + db);
    SplitEqual(a.prevTxidLe, LE(4, a.vout) + da, b.prevTxidLe, LE(4, b.vout) + db);
    FixedWidthInjective(4, a.vout, da, b.vout, db);
    CountedInjective(a.scriptSig, ea, b.scriptSig, eb);
    FixedWidthInjective(4, a.sequence, x, b.sequence, y);
  }

  lemma OutInjective(a: TxOut, x: seq<u8>, b: TxOut, y: seq<u8>)
    requires |a.scriptPubkey| < U64_LIMIT && |b.scriptPubkey| < U64_LIMIT
    requires SerializeOut(a) + x == SerializeOut(b) + y
    ensures a == b && x == y
  {
    PowValues();
    var da, db := Varint(|a.scriptPubkey|) + (a.scriptPubkey + x), Varint(|b.scriptPubkey|) + (b.scriptPubkey + y);
    assert SerializeOut(a) + x == LE(8, a.value) + da;
    assert SerializeOut(b) + y == LE(8, b.value) + db;
    FixedWidthInjective(8, a.value, da, b.value, db);
    CountedInjective(a.scriptPubkey, x, b.scriptPubkey, y);
  }

  lemma {:induction false} InsInjective(a: seq<TxIn>, x: seq<u8>, b: seq<TxIn>, y: seq<u8>)
    requires FitsIns(a) && FitsIns(b) && |a| == |b|
    requires SerializeIns(a) + x == SerializeIns(b) + y
    ensures a == b && x == y
  {
    hide SerializeIn;
    if a == [] {
      assert SerializeIns(a) + x == x && SerializeIns(b) + y == y;
    } else {
      var ta, tb := SerializeIns(a[1..]) + x, SerializeIns(b[1..]) + y;
      assert SerializeIns(a) + x == SerializeIn(a[0]) + ta && SerializeIns(b) + y == SerializeIn(b[0]) + tb;
      InInjective(a[0], ta, b[0], tb);
      InsInjective(a[1..], x, b[1..], y);
      assert a == [a[0]] + a[1..] && b == [b[0]] + b[1..];
    }
  }

  lemma {:induction false} OutsInjective(a: seq<TxOut>, x: seq<u8>, b: seq<TxOut>, y: seq<u8>)
    requires FitsOuts(a) && FitsOuts(b) && |a| == |b|
    requires SerializeOuts(a) + x == SerializeOuts(b) + y
    ensures a == b && x == y
  {
    hide SerializeOut;
    if a == [] {
      assert SerializeOuts(a) + x == x && SerializeOuts(b) + y == y;
    } else {
      var ta, tb := SerializeOuts(a[1..]) + x, SerializeOuts(b[1..]) + y;
      assert SerializeOuts(a) + x == SerializeOut(a[0]) + ta && SerializeOuts(b) + y == SerializeOut(b[0]) + tb;
      OutInjective(a[0], ta, b[0], tb);
      OutsInjective(a[1..], x, b[1..], y);
      assert a == [a[0]] + a[1..] && b == [b[0]] + b[1..];
    }
  }

  /** The serialization is injective and prefix-free. */
  lemma TransactionInjective(v: u32, ai: seq<TxIn>, ao: seq<TxOut>, al: u32, x: seq<u8>,
                             w: u32, bi: seq<TxIn>, bo: seq<TxOut>, bl: u32, y: seq<u8>)
    requires FitsIns(ai) && FitsIns(bi) && FitsOuts(ao) && FitsOuts(bo)
    requires SerializeTransaction(v, ai, ao, al) + x == SerializeTransaction(w, bi, bo, bl) + y
    ensures v == w && ai == bi && ao == bo && al == bl && x == y
  {
    PowValues();
    var ra, rb := LE(4, al) + x, LE(4, bl) + y;
    var oa, ob := Varint(|ao|) + (SerializeOuts(ao) + ra), Varint(|bo|) + (SerializeOuts(bo) + rb);
    var ia, ib := Varint(|ai|) + (SerializeIns(ai) + oa), Varint(|bi|) + (SerializeIns(bi) + ob);
    Regroup(v, ai, ao, al, x);
    Regroup(w, bi, bo, bl, y);
    FixedWidthInjective(4, v, ia, w, ib);
    VarintPrefixFree(|ai|, SerializeIns(ai) + oa, |bi|, SerializeIns(bi) + ob);
    InsInjective(ai, oa, bi, ob);
    VarintPrefixFree(|ao|, SerializeOuts(ao) + ra, |bo|, SerializeOuts(bo) + rb);
    OutsInjective(ao, ra, bo, rb);
    FixedWidthInjective(4, al, x, bl, y);
  }

  lemma Regroup(v: u32, ins: seq<TxIn>, outs: seq<TxOut>, lock: u32, x: seq<u8>)
    ensures SerializeTransaction(v, ins, outs, lock) + x
         == LE(4, v) + (Varint(|ins|) + (SerializeIns(ins)
                                         + (Varint(|outs|) + (SerializeOuts(outs) + (LE(4, lock) + x)))))
  {
    assert Trailer(outs, lock) + x == Varint(|outs|) + (SerializeOuts(outs) + (LE(4, lock) + x));
  }

  // ---- What a SIGHASH_ALL preimage commits to ----

  predicate Fits(t: Tx)
  {
    && FitsIns(t.inputs) && FitsOuts(t.outputs)
    && forall k :: 0 <= k < |t.redeemScripts| ==> |t.redeemScripts[k]| < U64_LIMIT
  }

  /** Equal SIGHASH_ALL preimages come from transactions that spend the same outpoints into the
      same outputs, with the same scripts in every position. */
  lemma PreimageCommits(t: Tx, i: nat, u: Tx, j: nat)
    requires Fits(t) && Fits(u)
    requires Preimage(t, i, SIGHASH_ALL).Ok? && Preimage(t, i, SIGHASH_ALL) == Preimage(u, j, SIGHASH_ALL)
    ensures t.version == u.version && t.outputs == u.outputs && t.locktime == u.locktime
    ensures |t.inputs| == |u.inputs|
    ensures forall k :: 0 <= k < |t.inputs| ==> SighashInput(t, i, 1, k) == SighashInput(u, j, 1, k)
  {
    hide SerializeTransaction;
    var ti, ui := SighashInputs(t, i, SIGHASH_ALL), SighashInputs(u, j, SIGHASH_ALL);
    TransactionInjective(t.version, ti, t.outputs, t.locktime, LE(4, SIGHASH_ALL),
                         u.version, ui, u.outputs, u.locktime, LE(4, SIGHASH_ALL));
    forall k | 0 <= k < |t.inputs|
      ensures SighashInput(t, i, 1, k) == SighashInput(u, j, 1, k)
    {
      assert ti[k] == SighashInput(t, i, 1, k) && ui[k] == SighashInput(u, j, 1, k);
    }
  }

  /** Two different inputs of one transaction share a SIGHASH_ALL preimage exactly when both
      their redeem scripts are empty, which no script built by the redeem builder is. */
  lemma PreimagesAreInputSpecific(t: Tx, i: nat, j: nat)
    requires Fits(t) && i != j
    requires i < |t.inputs| && j < |t.inputs| && |t.redeemScripts| == |t.inputs|
    ensures Preimage(t, i, SIGHASH_ALL) == Preimage(t, j, SIGHASH_ALL) <==>
              t.redeemScripts[i] == [] && t.redeemScripts[j] == []
  {
    hide SerializeTransaction;
    if Preimage(t, i, SIGHASH_ALL) == Preimage(t, j, SIGHASH_ALL) {
      PreimageCommits(t, i, t, j);
      assert SighashInput(t, i, 1, i) == SighashInput(t, j, 1, i);
      assert SighashInput(t, i, 1, j) == SighashInput(t, j, 1, j);
    }
    if t.redeemScripts[i] == [] && t.redeemScripts[j] == [] {
      assert SighashInputs(t, i, SIGHASH_ALL) == SighashInputs(t, j, SIGHASH_ALL);
    }
  }
}
