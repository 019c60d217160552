/** The wire form of transactions written out: counts, inputs, outputs and scripts byte by byte. */
module WireLayout {
  import opened Bytes
  import opened Utx0
  import opened Wire

  /** A count in 1, 3, 5 or 9 bytes, the shortest that holds it. */
  ghost predicate IsCount(s: seq<u8>, v: nat)
  {
    || (|s| == 1 && v < 0xfd && s[0] == v)
    || (|s| == 3 && 0xfd <= v < 0x1_0000 && s[0] == 0xfd && IsLE(s[1..], v))
    || (|s| == 5 && 0x1_0000 <= v < 0x1_0000_0000 && s[0] == 0xfe && IsLE(s[1..], v))
    || (|s| == 9 && 0x1_0000_0000 <= v && s[0] == 0xff && IsLE(s[1..], v))
  }

  /** `s` is a count and then the string that it counts. */
  ghost predicate IsCounted(s: seq<u8>, data: seq<u8>)
  { |s| > |data| && IsCount(s[..|s| - |data|], |data|) && s[|s| - |data|..] == data }

  /** An input: outpoint, counted scriptSig, sequence. */
  ghost predicate IsInput(s: seq<u8>, i: TxIn)
  {
    && |s| > 40 && s[..32] == i.prevTxidLe && IsLE(s[32..36], i.vout)
    && IsCounted(s[36..|s| - 4], i.scriptSig) && IsLE(s[|s| - 4..], i.sequence)
  }

  /** An output: value, counted script. */
  ghost predicate IsOutput(s: seq<u8>, o: TxOut)
  { |s| > 8 && IsLE(s[..8], o.value) && IsCounted(s[8..], o.scriptPubkey) }

  ghost function Flat(parts: seq<seq<u8>>): seq<u8>
  { if parts == [] then [] else parts[0] + Flat(parts[1..]) }

  /** A transaction: version, counted inputs, counted outputs, lock time. */
  ghost predicate IsTransaction(s: seq<u8>, version: u32, inputs: seq<TxIn>, outputs: seq<TxOut>, locktime: u32)
  { exists parts :: IsDivided(s, version, inputs, outputs, locktime, parts) }

  datatype Parts = Parts(version: seq<u8>, inCount: seq<u8>, ins: seq<seq<u8>>, outCount: seq<u8>,
                         outs: seq<seq<u8>>, locktime: seq<u8>)

  ghost predicate IsDivided(s: seq<u8>, version: u32, inputs: seq<TxIn>, outputs: seq<TxOut>, locktime: u32, p: Parts)
  {
    && s == p.version + p.inCount + Flat(p.ins) + p.outCount + Flat(p.outs) + p.locktime
    && |p.version| == 4 && IsLE(p.version, version) && |p.locktime| == 4 && IsLE(p.locktime, locktime)
    && IsCount(p.inCount, |inputs|) && |p.ins| == |inputs|
    && (forall k :: 0 <= k < |inputs| ==> IsInput(p.ins[k], inputs[k]))
    && IsCount(p.outCount, |outputs|) && |p.outs| == |outputs|
    && (forall k :: 0 <= k < |outputs| ==> IsOutput(p.outs[k], outputs[k]))
  }

  lemma CountLayout(v: nat)
    ensures IsCount(Varint(v), v)
  {
    LEIsLE(2, v);
    LEIsLE(4, v);
    LEIsLE(8, v);
    hide LE, IsLE;
    assert ([0xfd] + LE(2, v))[1..] == LE(2, v) && ([0xfe] + LE(4, v))[1..] == LE(4, v);
    assert ([0xff] + LE(8, v))[1..] == LE(8, v);
  }

  lemma CountedLayout(data: seq<u8>)
    ensures IsCounted(Varint(|data|) + data, data)
  {
    hide Varint, IsCount;
    CountLayout(|data|);
    var s := Varint(|data|) + data;
    assert s[..|s| - |data|] == Varint(|data|) && s[|s| - |data|..] == data;
  }

  lemma InputLayout(i: TxIn)
    ensures IsInput(SerializeIn(i), i)
  {
    hide LE, IsLE, Varint, IsCounted;
    LEIsLE(4, i.vout);
    LEIsLE(4, i.sequence);
    CountedLayout(i.scriptSig);
    var s := SerializeIn(i);
    assert s[..32] == i.prevTxidLe && s[32..36] == LE(4, i.vout) && s[|s| - 4..] == LE(4, i.sequence);
    assert s[36..|s| - 4] == Varint(|i.scriptSig|) + i.scriptSig;
  }

  lemma OutputLayout(o: TxOut)
    ensures IsOutput(SerializeOut(o), o)
  {
    hide LE, IsLE, Varint, IsCounted;
    LEIsLE(8, o.value);
    CountedLayout(o.scriptPubkey);
    var s := SerializeOut(o);
    assert s[..8] == LE(8, o.value) && s[8..] == Varint(|o.scriptPubkey|) + o.scriptPubkey;
  }

  lemma {:induction false} InputParts(inputs: seq<TxIn>) returns (parts: seq<seq<u8>>)
    ensures |parts| == |inputs| && Flat(parts) == SerializeIns(inputs)
    ensures forall k :: 0 <= k < |inputs| ==> IsInput(parts[k], inputs[k])
  {
    hide SerializeIn, IsInput;
    if inputs == [] {
      parts := [];
    } else {
      InputLayout(inputs[0]);
      var rest := InputParts(inputs[1..]);
      parts := [SerializeIn(inputs[0])] + rest;
      assert parts[1..] == rest;
      assert forall k :: 1 <= k < |inputs| ==> parts[k] == rest[k - 1] && inputs[k] == inputs[1..][k - 1];
    }
  }

  lemma {:induction false} OutputParts(outputs: seq<TxOut>) returns (parts: seq<seq<u8>>)
    ensures |parts| == |outputs| && Flat(parts) == SerializeOuts(outputs)
    ensures forall k :: 0 <= k < |outputs| ==> IsOutput(parts[k], outputs[k])
  {
    hide SerializeOut, IsOutput;
    if outputs == [] {
      parts := [];
    } else {
      OutputLayout(outputs[0]);
      var rest := OutputParts(outputs[1..]);
      parts := [SerializeOut(outputs[0])] + rest;
      assert parts[1..] == rest;
      assert forall k :: 1 <= k < |outputs| ==> parts[k] == rest[k - 1] && outputs[k] == outputs[1..][k - 1];
    }
  }

  /** What the serializer writes is a transaction in the form of the wire. */
  lemma TransactionLayout(version: u32, inputs: seq<TxIn>, outputs: seq<TxOut>, locktime: u32)
    ensures IsTransaction(SerializeTransaction(version, inputs, outputs, locktime), version, inputs, outputs, locktime)
  {
    hide LE, IsLE, Varint, IsCount, IsInput, IsOutput, Flat, SerializeIns, SerializeOuts;
    LEIsLE(4, version);
    LEIsLE(4, locktime);
    CountLayout(|inputs|);
    CountLayout(|outputs|);
    var ins := InputParts(inputs);
    var outs := OutputParts(outputs);
    var s := SerializeTransaction(version, inputs, outputs, locktime);
    var p := Parts(LE(4, version), Varint(|inputs|), ins, Varint(|outputs|), outs, LE(4, locktime));
    assert s == p.version + p.inCount + Flat(p.ins) + p.outCount + Flat(p.outs) + p.locktime;
    assert IsDivided(s, version, inputs, outputs, locktime, p);
  }

  // ---- Unsigned transactions ----

  /** DUP HASH160 <hash> EQUALVERIFY CHECKSIG, or HASH160 <hash> EQUAL. */
  ghost predicate IsScriptFor(s: seq<u8>, o: Output)
  {
    match o.addressType
    case P2pkh =>
      |s| == 25 && s[0] == 0x76 && s[1] == 0xa9 && s[2] == 0x14 && s[3..23] == o.address && s[23] == 0x88
      && s[24] == 0xac
    case P2sh => |s| == 23 && s[0] == 0xa9 && s[1] == 0x14 && s[2..22] == o.address && s[22] == 0x87
  }

  /** The input names the selected outpoint, its identifier in wire order, and nothing else yet. */
  ghost predicate IsUnsignedInput(i: TxIn, u: SelectedUtxo)
  {
    && i.vout == u.vout && i.scriptSig == [] && i.sequence == 0xffff_ffff
    && forall k :: 0 <= k < 32 ==> i.prevTxidLe[k] == u.transactionId[31 - k]
  }

  /** The transaction spends the selected outputs into the given ones, and nothing is signed. */
  ghost predicate IsUnsigned(t: Tx, selected: seq<SelectedUtxo>, outputs: seq<Output>)
  {
    && t.version == 1 && t.locktime == 0 && t.logicalOutputs == outputs
    && |t.inputs| == |selected| == |t.redeemScripts| && |t.outputs| == |outputs|
    && (forall k :: 0 <= k < |selected| ==>
          IsUnsignedInput(t.inputs[k], selected[k]) && t.redeemScripts[k] == selected[k].redeemScript)
    && forall k :: 0 <= k < |outputs| ==>
         t.outputs[k].value == outputs[k].amount && IsScriptFor(t.outputs[k].scriptPubkey, outputs[k])
  }

  lemma ScriptLayout(s: seq<u8>, o: Output)
    ensures IsScriptFor(s, o) <==> s == ScriptPubkeyFor(o)
  {
    if IsScriptFor(s, o) {
      match o.addressType
      case P2pkh => assert s == s[..3] + s[3..23] + s[23..];
      case P2sh => assert s == s[..2] + s[2..22] + s[22..];
    }
    if s == ScriptPubkeyFor(o) {
      match o.addressType
      case P2pkh => assert s[3..23] == o.address;
      case P2sh => assert s[2..22] == o.address;
    }
  }

  lemma UnsignedInputLayout(i: TxIn, u: SelectedUtxo)
    ensures IsUnsignedInput(i, u) <==> i == TxIn(Reverse(u.transactionId), u.vout, [], SEQUENCE_FINAL)
  {
    if IsUnsignedInput(i, u) { assert i.prevTxidLe == Reverse(u.transactionId); }
  }

  /** There is exactly one such transaction, the one that is assembled. */
  lemma UnsignedIffAssembled(t: Tx, selected: seq<SelectedUtxo>, outputs: seq<Output>)
    ensures IsUnsigned(t, selected, outputs) <==> t == Assemble(selected, outputs)
  {
    hide IsUnsignedInput, IsScriptFor, ScriptPubkeyFor, Reverse;
    forall k | 0 <= k < |t.inputs| && k < |selected|
      ensures IsUnsignedInput(t.inputs[k], selected[k]) <==> t.inputs[k] == NewInputs(selected)[k]
    { UnsignedInputLayout(t.inputs[k], selected[k]); }
    forall k | 0 <= k < |t.outputs| && k < |outputs|
      ensures IsScriptFor(t.outputs[k].scriptPubkey, outputs[k])
              <==> t.outputs[k].scriptPubkey == ScriptPubkeyFor(outputs[k])
    { ScriptLayout(t.outputs[k].scriptPubkey, outputs[k]); }
    if IsUnsigned(t, selected, outputs) {
      assert t.inputs == NewInputs(selected);
      assert t.outputs == NewOutputs(outputs);
      assert t.redeemScripts == RedeemScripts(selected);
    }
  }
}
