/** The mutable transaction object, its cursor-based reader and its byte-pushing writer, each
    tied to the functions of `Wire` and `Sighash`. */
module Transaction {
  import opened Bytes
  import opened Utx0
  import opened Wire
  import opened WireLayout
  import opened WireProofs
  import opened Sighash

  method WriteVarint(buf: ByteVec, value: nat)
    modifies buf
    ensures buf.bytes == old(buf.bytes) + Varint(value)
  {
    hide LE;
    if value < 0xfd {
      buf.Push(value);
    } else if value <= 0xffff {
      buf.Push(0xfd);
      buf.Extend(LE(2, value));
    } else if value <= 0xffff_ffff {
      buf.Push(0xfe);
      buf.Extend(LE(4, value));
    } else {
      buf.Push(0xff);
      buf.Extend(LE(8, value));
    }
  }

  method PushDataInline(buf: ByteVec, data: seq<u8>)
    modifies buf
    ensures buf.bytes == old(buf.bytes) + PushData(data)
  {
    hide LE;
    if |data| <= 0x4b {
      buf.Push(|data|);
    } else if |data| <= 0xff {
      buf.Extend([0x4c, |data|]);
    } else if |data| <= 0xffff {
      buf.Push(0x4d);
      buf.Extend(LE(2, |data|));
    } else {
      buf.Push(0x4e);
      buf.Extend(LE(4, |data|));
    }
    assert buf.bytes == old(buf.bytes) + PushHeader(|data|);
    buf.Extend(data);
  }

  lemma {:induction false} SerializeInsAppend(s: seq<TxIn>, x: TxIn)
    ensures SerializeIns(s + [x]) == SerializeIns(s) + SerializeIn(x)
  {
    hide SerializeIn;
    if s == [] {
      assert [x][1..] == [] && s + [x] == [x];
    } else {
      SerializeInsAppend(s[1..], x);
      assert (s + [x])[1..] == s[1..] + [x];
    }
  }

  lemma {:induction false} SerializeOutsAppend(s: seq<TxOut>, x: TxOut)
    ensures SerializeOuts(s + [x]) == SerializeOuts(s) + SerializeOut(x)
  {
    hide SerializeOut;
    if s == [] {
      assert [x][1..] == [] && s + [x] == [x];
    } else {
      SerializeOutsAppend(s[1..], x);
      assert (s + [x])[1..] == s[1..] + [x];
    }
  }

  method WriteInput(buf: ByteVec, input: TxIn)
    modifies buf
    ensures buf.bytes == old(buf.bytes) + SerializeIn(input)
  {
    hide Varint, LE;
    buf.Extend(input.prevTxidLe);
    buf.Extend(LE(4, input.vout));
    WriteVarint(buf, |input.scriptSig|);
    buf.Extend(input.scriptSig);
    buf.Extend(LE(4, input.sequence));
  }

  method WriteOutput(buf: ByteVec, output: TxOut)
    modifies buf
    ensures buf.bytes == old(buf.bytes) + SerializeOut(output)
  {
    hide Varint, LE;
    buf.Extend(LE(8, output.value));
    WriteVarint(buf, |output.scriptPubkey|);
    buf.Extend(output.scriptPubkey);
  }

  method WriteInputs(buf: ByteVec, inputs: seq<TxIn>)
    modifies buf
    ensures buf.bytes == old(buf.bytes) + SerializeIns(inputs)
  {
    hide SerializeIn;
    ghost var start := buf.bytes;
    for i := 0 to |inputs|
      invariant buf.bytes == start + SerializeIns(inputs[..i])
    {
      WriteInput(buf, inputs[i]);
      SerializeInsAppend(inputs[..i], inputs[i]);
      assert inputs[..i] + [inputs[i]] == inputs[..i + 1];
    }
    assert inputs[..|inputs|] == inputs;
  }

  method WriteOutputs(buf: ByteVec, outputs: seq<TxOut>)
    modifies buf
    ensures buf.bytes == old(buf.bytes) + SerializeOuts(outputs)
  {
    hide SerializeOut;
    ghost var start := buf.bytes;
    for i := 0 to |outputs|
      invariant buf.bytes == start + SerializeOuts(outputs[..i])
    {
      WriteOutput(buf, outputs[i]);
      SerializeOutsAppend(outputs[..i], outputs[i]);
      assert outputs[..i] + [outputs[i]] == outputs[..i + 1];
    }
    assert outputs[..|outputs|] == outputs;
  }

  method WriteTransaction(version: u32, inputs: seq<TxIn>, outputs: seq<TxOut>, locktime: u32)
    returns (bytes: seq<u8>)
    ensures bytes == SerializeTransaction(version, inputs, outputs, locktime)
    ensures IsTransaction(bytes, version, inputs, outputs, locktime)
  {
    TransactionLayout(version, inputs, outputs, locktime);
    hide IsTransaction, LE, Varint, SerializeIns, SerializeOuts;
    var buf := new ByteVec();
    buf.Extend(LE(4, version));
    WriteVarint(buf, |inputs|);
    WriteInputs(buf, inputs);
    ghost var front := buf.bytes;
    WriteVarint(buf, |outputs|);
    WriteOutputs(buf, outputs);
    buf.Extend(LE(4, locktime));
    bytes := buf.bytes;
    assert bytes == front + Trailer(outputs, locktime);
    assert front == LE(4, version) + (Varint(|inputs|) + SerializeIns(inputs));
  }

  /** `n` outputs taken off `start` are `logical` followed by `m` more taken off `rest`. */
  ghost predicate Pending(start: seq<u8>, n: nat, logical: seq<Output>, rest: seq<u8>, m: nat)
  {
    TakeOutputs(start, n) == match TakeOutputs(rest, m)
                             case Err => Err
                             case Ok((tail, end)) => Ok((logical + tail, end))
  }

  lemma NewOutputsAppend(outputs: seq<Output>, o: Output)
    ensures NewOutputs(outputs + [o]) == NewOutputs(outputs) + [PaymentOut(o)]
  {}

  lemma PendingStart(start: seq<u8>, n: nat)
    ensures Pending(start, n, [], start, n)
  {
    var r := TakeOutputs(start, n);
    if r.Ok? { assert [] + r.value.0 == r.value.0; }
  }

  lemma PendingEnd(start: seq<u8>, n: nat, logical: seq<Output>, rest: seq<u8>)
    requires Pending(start, n, logical, rest, 0)
    ensures TakeOutputs(start, n) == Ok((logical, rest))
  {
    assert logical + [] == logical;
  }

  lemma PendingStep(start: seq<u8>, n: nat, logical: seq<Output>, rest: seq<u8>, m: nat)
    requires m > 0 && Pending(start, n, logical, rest, m)
    ensures TakeOutput(rest).Err? ==> TakeOutputs(start, n).Err?
    ensures TakeOutput(rest).Ok? ==>
              Pending(start, n, logical + [TakeOutput(rest).value.0], TakeOutput(rest).value.1, m - 1)
  {
    hide TakeOutput;
    if TakeOutput(rest).Ok? {
      var (o, next) := TakeOutput(rest).value;
      var tail := TakeOutputs(next, m - 1);
      if tail.Ok? { assert logical + ([o] + tail.value.0) == logical + [o] + tail.value.0; }
    }
  }

  /** A cursor over persisted bytes. */
  class TransactionReader {
    const bytes: seq<u8>
    var offset: nat

    ghost predicate Valid()
      reads this
    { offset <= |bytes| }

    /** What has not been read yet. */
    ghost function Rest(): seq<u8>
      reads this
      requires Valid()
    { bytes[offset..] }

    constructor (bytes: seq<u8>)
      ensures Valid() && this.bytes == bytes && Rest() == bytes
    {
      this.bytes := bytes;
      offset := 0;
    }

    method ReadExact(len: nat) returns (r: Result<seq<u8>>)
      requires Valid()
      modifies this
      ensures Valid()
      ensures r.Ok? == Take(old(Rest()), len).Ok?
      ensures r.Ok? ==> Take(old(Rest()), len) == Ok((r.value, Rest())) && |r.value| == len
      ensures r.Err? ==> Rest() == old(Rest())
    {
      var end := offset + len;
      if end > |bytes| { return Err; }
      var value := bytes[offset..end];
      assert value == Rest()[..len] && bytes[end..] == Rest()[len..];
      offset := end;
      return Ok(value);
    }

    method ReadU32() returns (r: Result<u32>)
      requires Valid()
      modifies this
      ensures Valid()
      ensures r.Ok? == TakeU32(old(Rest())).Ok?
      ensures r.Ok? ==> TakeU32(old(Rest())) == Ok((r.value, Rest()))
    {
      var s :- ReadExact(4);
      FromLEBound(s);
      return Ok(FromLE(s));
    }

    method ReadU64() returns (r: Result<u64>)
      requires Valid()
      modifies this
      ensures Valid()
      ensures r.Ok? == TakeU64(old(Rest())).Ok?
      ensures r.Ok? ==> TakeU64(old(Rest())) == Ok((r.value, Rest()))
    {
      var s :- ReadExact(8);
      FromLEBound(s);
      return Ok(FromLE(s));
    }

    method ReadCount() returns (r: Result<u64>)
      requires Valid()
      modifies this
      ensures Valid()
      ensures r.Ok? == TakeCount(old(Rest())).Ok?
      ensures r.Ok? ==> TakeCount(old(Rest())) == Ok((r.value, Rest()))
    {
      ghost var start := Rest();
      var first :- ReadExact(1);
      if first[0] <= 0xfc { return Ok(first[0]); }
      var width := if first[0] == 0xfd then 2 else if first[0] == 0xfe then 4 else 8;
      assert Rest() == start[1..];
      var s :- ReadExact(width);
      assert s == start[1..1 + width] && Rest() == start[1 + width..];
      FromLEBound(s);
      var value := FromLE(s);
      if first[0] == 0xfd && value < 0xfd { return Err; }
      if first[0] == 0xfe && value <= 0xffff { return Err; }
      if first[0] == 0xff && value <= 0xffff_ffff { return Err; }
      return Ok(value);
    }

    /** Reads one unsigned input and checks it against the reservation. */
    method ReadInput(selected: SelectedUtxo) returns (r: Result<TxIn>)
      requires Valid()
      modifies this
      ensures Valid()
      ensures r.Ok? == TakeInput(old(Rest()), selected).Ok?
      ensures r.Ok? ==> TakeInput(old(Rest()), selected) == Ok(Rest()) && r.value == UnsignedIn(selected)
    {
      var prev :- ReadExact(32);
      var vout :- ReadU32();
      var scriptLen :- ReadCount();
      if scriptLen != 0 { return Err; }
      var sequence :- ReadU32();
      if sequence != SEQUENCE_FINAL { return Err; }
      if prev != Reverse(selected.transactionId) || vout != selected.vout { return Err; }
      return Ok(TxIn(prev, vout, [], sequence));
    }

    method ReadOutput() returns (r: Result<(Output, TxOut)>)
      requires Valid()
      modifies this
      ensures Valid()
      ensures r.Ok? == TakeOutput(old(Rest())).Ok?
      ensures r.Ok? ==> TakeOutput(old(Rest())) == Ok((r.value.0, Rest())) && r.value.1 == PaymentOut(r.value.0)
    {
      var value :- ReadU64();
      var scriptLen :- ReadCount();
      if scriptLen > MAX_STANDARD_OUTPUT_SCRIPT_LEN { return Err; }
      var script :- ReadExact(scriptLen);
      var standard :- ParseStandardOutput(script);
      var o := Output(value, standard.0, standard.1);
      StandardOutputCanonical(script, o);
      return Ok((o, TxOut(value, script)));
    }

    method ReadInputs(selected: seq<SelectedUtxo>) returns (r: Result<seq<TxIn>>)
      requires Valid()
      modifies this
      ensures Valid()
      ensures r.Ok? == TakeInputs(old(Rest()), selected).Ok?
      ensures r.Ok? ==> TakeInputs(old(Rest()), selected) == Ok(Rest()) && r.value == NewInputs(selected)
    {
      var inputs: seq<TxIn> := [];
      for i := 0 to |selected|
        invariant Valid()
        invariant TakeInputs(old(Rest()), selected) == TakeInputs(Rest(), selected[i..])
        invariant inputs == NewInputs(selected[..i])
      {
        assert selected[i..][0] == selected[i] && selected[i..][1..] == selected[i + 1..];
        var input :- ReadInput(selected[i]);
        inputs := inputs + [input];
      }
      assert selected[..|selected|] == selected;
      return Ok(inputs);
    }

    method ReadOutputs(n: nat) returns (r: Result<(seq<Output>, seq<TxOut>)>)
      requires Valid()
      modifies this
      ensures Valid()
      ensures r.Ok? == TakeOutputs(old(Rest()), n).Ok?
      ensures r.Ok? ==> TakeOutputs(old(Rest()), n) == Ok((r.value.0, Rest())) && r.value.1 == NewOutputs(r.value.0)
    {
      var logical: seq<Output> := [];
      var outputs: seq<TxOut> := [];
      assert outputs == NewOutputs(logical);
      ghost var start := Rest();
      PendingStart(start, n);
      hide TakeOutputs, TakeOutput, Pending, NewOutputs, PaymentOut;
      for i := 0 to n
        invariant Valid()
        invariant outputs == NewOutputs(logical)
        invariant Pending(start, n, logical, Rest(), n - i)
      {
        PendingStep(start, n, logical, Rest(), n - i);
        var read :- ReadOutput();
        NewOutputsAppend(logical, read.0);
        logical := logical + [read.0];
        outputs := outputs + [read.1];
      }
      PendingEnd(start, n, logical, Rest());
      return Ok((logical, outputs));
    }

    /** The outputs and the lock time, up to the end of the bytes. */
    method ReadTrailer() returns (r: Result<(seq<Output>, seq<TxOut>)>)
      requires Valid()
      modifies this
      ensures Valid()
      ensures r.Ok? == ParseTrailer(old(Rest())).Ok?
      ensures r.Ok? ==> ParseTrailer(old(Rest())) == Ok(r.value.0) && r.value.1 == NewOutputs(r.value.0)
    {
      hide TakeU32, TakeCount, TakeOutputs, NewOutputs;
      var outputCount :- ReadCount();
      if outputCount > MAX_PERSISTED_OUTPUTS { return Err; }
      if outputCount == 0 { return Err; }
      var read :- ReadOutputs(outputCount);
      var locktime :- ReadU32();
      if locktime != 0 { return Err; }
      var _ :- Finish();
      return Ok(read);
    }

    method Finish() returns (r: Result<()>)
      requires Valid()
      ensures r.Ok? <==> Rest() == []
    {
      if offset != |bytes| { return Err; }
      return Ok(());
    }
  }

  /** What stands in the inputs of a preimage: with the ANYONECANPAY bit the signed input alone, else
      all of them, the other scriptSigs blank and, for NONE and SINGLE, the other sequences zero. */
  ghost predicate PreimageInputs(ins: seq<TxIn>, t: Tx, index: nat, hashType: u32)
    requires index < |t.inputs| && index < |t.redeemScripts|
  {
    if hashType / 128 % 2 == 1 then ins == [t.inputs[index].(scriptSig := t.redeemScripts[index])]
    else
      && |ins| == |t.inputs| && ins[index] == t.inputs[index].(scriptSig := t.redeemScripts[index])
      && forall k :: 0 <= k < |ins| && k != index ==>
           ins[k] == if hashType % 32 == 2 || hashType % 32 == 3 then t.inputs[k].(scriptSig := [], sequence := 0)
                     else t.inputs[k].(scriptSig := [])
  }

  /** A preimage: a transaction with those inputs, and with no outputs for NONE, the one at the same
      index for SINGLE and all of them otherwise; then the hash type. */
  ghost predicate IsPreimage(s: seq<u8>, t: Tx, index: nat, hashType: u32)
    requires index < |t.inputs| && index < |t.redeemScripts|
  {
    if hashType % 32 == 3 && index >= |t.outputs| then s == [0x01]
    else
      var outs := if hashType % 32 == 2 then [] else if hashType % 32 == 3 then [t.outputs[index]] else t.outputs;
      && |s| >= 4 && IsLE(s[|s| - 4..], hashType)
      && exists ins :: PreimageInputs(ins, t, index, hashType)
                       && IsTransaction(s[..|s| - 4], t.version, ins, outs, t.locktime)
  }

  lemma PreimageLayout(t: Tx, index: nat, hashType: u32)
    requires index < |t.inputs| && index < |t.redeemScripts|
    ensures IsPreimage(Preimage(t, index, hashType).value, t, index, hashType)
  {
    hide IsTransaction, SerializeTransaction, IsLE, LE;
    if !(hashType % 32 == 3 && index >= |t.outputs|) {
      var ins, outs := SighashInputs(t, index, hashType), SighashOutputs(t, index, hashType);
      var front := SerializeTransaction(t.version, ins, outs, t.locktime);
      TransactionLayout(t.version, ins, outs, t.locktime);
      LEIsLE(4, hashType);
      var s := front + LE(4, hashType);
      assert s[|s| - 4..] == LE(4, hashType) && s[..|s| - 4] == front;
      assert PreimageInputs(ins, t, index, hashType);
    }
  }

  /** A transaction under construction: inputs gain their scriptSigs in place. */
  class UnsignedTransaction {
    var version: u32
    var inputs: seq<TxIn>
    var outputs: seq<TxOut>
    var logicalOutputs: seq<Output>
    var locktime: u32
    var redeemScripts: seq<seq<u8>>

    function Value(): Tx
      reads this
    { Tx(version, inputs, outputs, logicalOutputs, locktime, redeemScripts) }

    constructor FromValue(t: Tx)
      ensures Value() == t
    {
      version, inputs, outputs := t.version, t.inputs, t.outputs;
      logicalOutputs, locktime, redeemScripts := t.logicalOutputs, t.locktime, t.redeemScripts;
    }

    static method New(selected: seq<SelectedUtxo>, outs: seq<Output>) returns (r: Result<UnsignedTransaction>)
      ensures r.Ok? == NewTransaction(selected, outs).Ok?
      ensures r.Ok? ==> fresh(r.value) && r.value.Value() == NewTransaction(selected, outs).value
      ensures r.Ok? <==> selected != [] && outs != []
      ensures r.Ok? ==> IsUnsigned(r.value.Value(), selected, outs)
    {
      hide IsUnsigned;
      UnsignedIffAssembled(Assemble(selected, outs), selected, outs);
      if selected == [] { return Err; }
      if outs == [] { return Err; }
      var ins: seq<TxIn>, redeem: seq<seq<u8>> := [], [];
      for i := 0 to |selected|
        invariant ins == NewInputs(selected[..i]) && redeem == RedeemScripts(selected[..i])
      {
        ins := ins + [TxIn(Reverse(selected[i].transactionId), selected[i].vout, [], SEQUENCE_FINAL)];
        redeem := redeem + [selected[i].redeemScript];
      }
      assert selected[..|selected|] == selected;
      var t := new UnsignedTransaction.FromValue(Tx(TX_VERSION, ins, NewOutputs(outs), outs, 0, redeem));
      return Ok(t);
    }

    /** Recovers a transaction from durable bytes and independently rebuilt inputs. The last
        check, that the recovered transaction prints back to the bytes, never fails. */
    static method FromPersistedBytes(bytes: seq<u8>, selected: seq<SelectedUtxo>)
      returns (r: Result<UnsignedTransaction>)
      ensures r.Ok? == ParsePersisted(bytes, selected).Ok?
      ensures r.Ok? ==> fresh(r.value) && r.value.Value() == ParsePersisted(bytes, selected).value
      ensures r.Ok? ==> IsUnsigned(r.value.Value(), selected, r.value.logicalOutputs)
    {
      hide IsUnsigned;
      hide TakeU32, TakeCount, TakeInputs, ParseTrailer, NewInputs, NewOutputs, RedeemScripts, TxBytes;
      if selected == [] { return Err; }
      var reader := new TransactionReader(bytes);
      var version :- reader.ReadU32();
      if version != TX_VERSION { return Err; }
      var inputCount :- reader.ReadCount();
      if inputCount > MAX_PERSISTED_INPUTS { return Err; }
      if inputCount != |selected| { return Err; }
      var inputs :- reader.ReadInputs(selected);
      var read :- reader.ReadTrailer();
      var logical, outputs := read.0, read.1;
      var redeem := RedeemScripts(selected);
      var t := new UnsignedTransaction.FromValue(Tx(version, inputs, outputs, logical, 0, redeem));
      assert ParsePersisted(bytes, selected) == Ok(t.Value());
      var printed := t.Serialize();
      PrintParsed(bytes, selected);
      UnsignedIffAssembled(t.Value(), selected, logical);
      assert printed == bytes;
      if printed != bytes { return Err; }
      return Ok(t);
    }

    method Serialize() returns (bytes: seq<u8>)
      ensures bytes == TxBytes(Value()) && IsTransaction(bytes, version, inputs, outputs, locktime)
    {
      hide IsTransaction;
      bytes := WriteTransaction(version, inputs, outputs, locktime);
    }

    /** The preimage of the signature hash of one input; the digest is its double SHA-256. */
    method SighashPreimage(index: nat, hashType: u32) returns (r: Result<seq<u8>>)
      ensures r == Preimage(Value(), index, hashType)
      ensures r.Ok? <==> index < |inputs| && index < |redeemScripts|
      ensures r.Ok? ==> IsPreimage(r.value, Value(), index, hashType)
    {
      hide IsPreimage, SerializeTransaction, IsTransaction;
      if index < |inputs| && index < |redeemScripts| { PreimageLayout(Value(), index, hashType); }
      if index >= |inputs| { return Err; }
      if index >= |redeemScripts| { return Err; }
      var base, anyoneCanPay := hashType % 32, hashType / 128 % 2 == 1;
      if base == 3 && index >= |outputs| { return Ok([0x01]); }
      var copied: seq<TxIn>;
      if anyoneCanPay {
        copied := [inputs[index]];
      } else {
        copied := seq(|inputs|, k requires 0 <= k < |inputs| reads this => inputs[k].(scriptSig := []));
      }
      var signedIndex := if anyoneCanPay then 0 else index;
      copied := copied[signedIndex := copied[signedIndex].(scriptSig := redeemScripts[index])];
      if !anyoneCanPay && (base == 2 || base == 3) {
        ghost var before := copied;
        for k := 0 to |copied|
          invariant |copied| == |before|
          invariant forall j :: 0 <= j < |copied| ==>
            copied[j] == if j < k && j != signedIndex then before[j].(sequence := 0) else before[j]
        {
          if k != signedIndex { copied := copied[k := copied[k].(sequence := 0)]; }
        }
      }
      assert copied == SighashInputs(Value(), index, hashType);
      var outs := SighashOutputs(Value(), index, hashType);
      var bytes := WriteTransaction(version, copied, outs, locktime);
      return Ok(bytes + LE(4, hashType));
    }

    method ApplyScriptSig(index: nat, signatures: seq<seq<u8>>) returns (r: Result<()>)
      modifies this
      ensures r.Ok? == Sighash.ApplyScriptSig(old(Value()), index, signatures).Ok?
      ensures Value() == if r.Ok? then Sighash.ApplyScriptSig(old(Value()), index, signatures).value else old(Value())
    {
      if index >= |inputs| { return Err; }
      if index >= |redeemScripts| { return Err; }
      var script := BuildScriptSig(signatures, redeemScripts[index]);
      inputs := inputs[index := inputs[index].(scriptSig := script)];
      return Ok(());
    }
  }

  method BuildScriptSig(signatures: seq<seq<u8>>, redeemScript: seq<u8>) returns (script: seq<u8>)
    ensures script == ScriptSig(signatures, redeemScript)
  {
    hide PushData;
    var buf := new ByteVec();
    buf.Push(0x00);
    for i := 0 to |signatures|
      invariant buf.bytes == [0x00] + PushAll(signatures[..i])
    {
      PushAllAppend(signatures[..i], signatures[i]);
      assert signatures[..i] + [signatures[i]] == signatures[..i + 1];
      PushDataInline(buf, signatures[i]);
    }
    assert signatures[..|signatures|] == signatures;
    PushDataInline(buf, redeemScript);
    script := buf.bytes;
  }

  lemma {:induction false} PushAllAppend(s: seq<seq<u8>>, x: seq<u8>)
    ensures PushAll(s + [x]) == PushAll(s) + PushData(x)
  {
    hide PushData;
    if s == [] {
      assert [x][1..] == [] && s + [x] == [x];
    } else {
      PushAllAppend(s[1..], x);
      assert (s + [x])[1..] == s[1..] + [x];
    }
  }
}
