/** Printing and parsing of persisted transactions are inverse to each other. */
module WireProofs {
  import opened Bytes
  import opened Utx0
  import opened Wire

  lemma TakeAppend(a: seq<u8>, rest: seq<u8>)
    ensures (a + rest)[..|a|] == a && (a + rest)[|a|..] == rest
    ensures Take(a + rest, |a|) == Ok((a, rest))
  {}

  lemma TakeU32Printed(v: u32, rest: seq<u8>)
    ensures TakeU32(LE(4, v) + rest) == Ok((v, rest))
  {
    PowValues();
    DecodeLE(4, v);
    TakeAppend(LE(4, v), rest);
  }

  lemma TakeU32Canonical(s: seq<u8>)
    requires TakeU32(s).Ok?
    ensures s == LE(4, TakeU32(s).value.0) + TakeU32(s).value.1
  {
    EncodeLE(s[..4]);
  }

  lemma TakeU64Printed(v: u64, rest: seq<u8>)
    ensures TakeU64(LE(8, v) + rest) == Ok((v, rest))
  {
    PowValues();
    DecodeLE(8, v);
    TakeAppend(LE(8, v), rest);
  }

  lemma TakeU64Canonical(s: seq<u8>)
    requires TakeU64(s).Ok?
    ensures s == LE(8, TakeU64(s).value.0) + TakeU64(s).value.1
  {
    EncodeLE(s[..8]);
  }

  lemma TakeCountPrinted(v: u64, rest: seq<u8>)
    ensures TakeCount(Varint(v) + rest) == Ok((v, rest))
  {
    PowValues();
    if v >= 0xfd {
      var width := if v <= 0xffff then 2 else if v <= 0xffff_ffff then 4 else 8;
      var s := Varint(v) + rest;
      assert s[1..1 + width] == LE(width, v) && s[1 + width..] == rest;
      DecodeLE(width, v);
    }
  }

  lemma WideCountCanonical(s: seq<u8>, width: nat)
    requires |s| >= 1 + width
    ensures s == [s[0]] + LE(width, FromLE(s[1..1 + width])) + s[1 + width..]
  {
    EncodeLE(s[1..1 + width]);
  }

  lemma TakeCountCanonical(s: seq<u8>)
    requires TakeCount(s).Ok?
    ensures s == Varint(TakeCount(s).value.0) + TakeCount(s).value.1
  {
    if s[0] > 0xfc {
      var width := if s[0] == 0xfd then 2 else if s[0] == 0xfe then 4 else 8;
      FromLEBound(s[1..1 + width]);
      WideCountCanonical(s, width);
      var v := FromLE(s[1..1 + width]);
      assert Varint(v) == [s[0]] + LE(width, v);
    }
  }

  /** Compact-size encodings are unique and prefix-free. */
  lemma VarintPrefixFree(v: u64, x: seq<u8>, w: u64, y: seq<u8>)
    requires Varint(v) + x == Varint(w) + y
    ensures v == w && x == y
  {
    TakeCountPrinted(v, x);
    TakeCountPrinted(w, y);
  }

  // ---- Inputs ----

  function UnsignedIn(u: SelectedUtxo): TxIn
  { TxIn(Reverse(u.transactionId), u.vout, [], SEQUENCE_FINAL) }

  lemma UnsignedInBytes(u: SelectedUtxo, rest: seq<u8>)
    ensures SerializeIn(UnsignedIn(u)) + rest
         == Reverse(u.transactionId) + (LE(4, u.vout) + (Varint(0) + (LE(4, SEQUENCE_FINAL) + rest)))
  {}

  lemma TakeInputPrinted(u: SelectedUtxo, rest: seq<u8>)
    ensures TakeInput(SerializeIn(UnsignedIn(u)) + rest, u) == Ok(rest)
  {
    UnsignedInBytes(u, rest);
    var s3 := LE(4, SEQUENCE_FINAL) + rest;
    var s2 := Varint(0) + s3;
    var s1 := LE(4, u.vout) + s2;
    TakeAppend(Reverse(u.transactionId), s1);
    TakeU32Printed(u.vout, s2);
    TakeCountPrinted(0, s3);
    TakeU32Printed(SEQUENCE_FINAL, rest);
  }

  lemma TakeInputCanonical(s: seq<u8>, u: SelectedUtxo)
    requires TakeInput(s, u).Ok?
    ensures s == SerializeIn(UnsignedIn(u)) + TakeInput(s, u).value
  {
    var s1 := Take(s, 32).value.1;
    var s2 := TakeU32(s1).value.1;
    var s3 := TakeCount(s2).value.1;
    TakeU32Canonical(s1);
    TakeCountCanonical(s2);
    TakeU32Canonical(s3);
    assert s == s[..32] + s1;
    UnsignedInBytes(u, TakeInput(s, u).value);
  }

  lemma NewInputsTail(selected: seq<SelectedUtxo>)
    requires selected != []
    ensures NewInputs(selected)[0] == UnsignedIn(selected[0])
    ensures NewInputs(selected)[1..] == NewInputs(selected[1..])
  {}

  lemma {:induction false} TakeInputsPrinted(selected: seq<SelectedUtxo>, rest: seq<u8>)
    ensures TakeInputs(SerializeIns(NewInputs(selected)) + rest, selected) == Ok(rest)
  {
    if selected == [] {
      assert SerializeIns(NewInputs(selected)) + rest == rest;
    } else {
      NewInputsTail(selected);
      var tail := SerializeIns(NewInputs(selected[1..])) + rest;
      assert SerializeIns(NewInputs(selected)) + rest == SerializeIn(UnsignedIn(selected[0])) + tail;
      TakeInputPrinted(selected[0], tail);
      TakeInputsPrinted(selected[1..], rest);
    }
  }

  lemma {:induction false} TakeInputsCanonical(s: seq<u8>, selected: seq<SelectedUtxo>)
    requires TakeInputs(s, selected).Ok?
    ensures s == SerializeIns(NewInputs(selected)) + TakeInputs(s, selected).value
  {
    if selected != [] {
      NewInputsTail(selected);
      TakeInputCanonical(s, selected[0]);
      TakeInputsCanonical(TakeInput(s, selected[0]).value, selected[1..]);
    }
  }

  // ---- Outputs ----

  function PaymentOut(o: Output): TxOut
  { TxOut(o.amount, ScriptPubkeyFor(o)) }

  lemma StandardOutputPrinted(o: Output)
    ensures |ScriptPubkeyFor(o)| <= MAX_STANDARD_OUTPUT_SCRIPT_LEN
    ensures ParseStandardOutput(ScriptPubkeyFor(o)) == Ok((o.addressType, o.address))
  {
    var s := ScriptPubkeyFor(o);
    if o.addressType.P2pkh? {
      assert s[..3] == [0x76, 0xa9, 0x14] && s[3..23] == o.address && s[23..] == [0x88, 0xac];
    } else {
      assert s[..2] == [0xa9, 0x14] && s[2..22] == o.address && s[22] == 0x87;
    }
  }

  lemma StandardOutputCanonical(script: seq<u8>, o: Output)
    requires ParseStandardOutput(script) == Ok((o.addressType, o.address))
    ensures ScriptPubkeyFor(o) == script
  {
    if |script| == 25 {
      assert script == script[..3] + script[3..23] + script[23..];
    } else {
      assert script == script[..2] + script[2..22] + [script[22]];
    }
  }

  lemma TakeOutputPrinted(o: Output, rest: seq<u8>)
    ensures TakeOutput(SerializeOut(PaymentOut(o)) + rest) == Ok((o, rest))
  {
    var script := ScriptPubkeyFor(o);
    StandardOutputPrinted(o);
    assert SerializeOut(PaymentOut(o)) + rest == LE(8, o.amount) + (Varint(|script|) + (script + rest));
    TakeU64Printed(o.amount, Varint(|script|) + (script + rest));
    TakeCountPrinted(|script|, script + rest);
    TakeAppend(script, rest);
  }

  lemma TakeOutputCanonical(s: seq<u8>)
    requires TakeOutput(s).Ok?
    ensures s == SerializeOut(PaymentOut(TakeOutput(s).value.0)) + TakeOutput(s).value.1
  {
    var s1 := TakeU64(s).value.1;
    var (n, s2) := TakeCount(s1).value;
    var script, rest := s2[..n], s2[n..];
    var o := TakeOutput(s).value.0;
    TakeU64Canonical(s);
    TakeCountCanonical(s1);
    assert s2 == script + rest;
    StandardOutputCanonical(script, o);
    assert SerializeOut(PaymentOut(o)) + rest == LE(8, o.amount) + (Varint(n) + (script + rest));
  }

  lemma NewOutputsTail(outputs: seq<Output>)
    requires outputs != []
    ensures NewOutputs(outputs)[0] == PaymentOut(outputs[0])
    ensures NewOutputs(outputs)[1..] == NewOutputs(outputs[1..])
  {}

  lemma SerializeOutsCons(head: Output, tail: seq<Output>, rest: seq<u8>)
    ensures SerializeOuts(NewOutputs([head] + tail)) + rest
         == SerializeOut(PaymentOut(head)) + (SerializeOuts(NewOutputs(tail)) + rest)
  {
    NewOutputsTail([head] + tail);
    assert ([head] + tail)[1..] == tail;
  }

  lemma {:induction false} TakeOutputsPrinted(outputs: seq<Output>, rest: seq<u8>)
    ensures TakeOutputs(SerializeOuts(NewOutputs(outputs)) + rest, |outputs|) == Ok((outputs, rest))
  {
    if outputs == [] {
      assert SerializeOuts(NewOutputs(outputs)) + rest == rest;
    } else {
      var tail := SerializeOuts(NewOutputs(outputs[1..])) + rest;
      assert [outputs[0]] + outputs[1..] == outputs;
      SerializeOutsCons(outputs[0], outputs[1..], rest);
      TakeOutputPrinted(outputs[0], tail);
      TakeOutputsPrinted(outputs[1..], rest);
    }
  }

  lemma {:induction false} TakeOutputsCanonical(s: seq<u8>, n: nat)
    requires TakeOutputs(s, n).Ok?
    ensures |TakeOutputs(s, n).value.0| == n
    ensures s == SerializeOuts(NewOutputs(TakeOutputs(s, n).value.0)) + TakeOutputs(s, n).value.1
  {
    if n > 0 {
      var s1 := TakeOutput(s).value.1;
      TakeOutputCanonical(s);
      TakeOutputsCanonical(s1, n - 1);
      SerializeOutsCons(TakeOutput(s).value.0, TakeOutputs(s1, n - 1).value.0, TakeOutputs(s, n).value.1);
    }
  }

  lemma TrailerPrinted(outputs: seq<Output>)
    requires 1 <= |outputs| <= MAX_PERSISTED_OUTPUTS
    ensures ParseTrailer(Trailer(NewOutputs(outputs), 0)) == Ok(outputs)
  {
    var lock := LE(4, 0);
    TakeCountPrinted(|outputs|, SerializeOuts(NewOutputs(outputs)) + lock);
    TakeOutputsPrinted(outputs, lock);
    assert lock + [] == lock;
    TakeU32Printed(0, []);
  }

  lemma TrailerCanonical(s: seq<u8>)
    requires ParseTrailer(s).Ok?
    ensures 1 <= |ParseTrailer(s).value| <= MAX_PERSISTED_OUTPUTS
    ensures s == Trailer(NewOutputs(ParseTrailer(s).value), 0)
  {
    var (count, s1) := TakeCount(s).value;
    var (outputs, s2) := TakeOutputs(s1, count).value;
    TakeCountCanonical(s);
    TakeOutputsCanonical(s1, count);
    TakeU32Canonical(s2);
    assert LE(4, 0) + [] == LE(4, 0);
  }

  // ---- Whole transactions ----

  /** Printing then parsing: within the persisted limits the same transaction comes back. */
  lemma ParsePrinted(selected: seq<SelectedUtxo>, outputs: seq<Output>)
    requires 1 <= |selected| <= MAX_PERSISTED_INPUTS && 1 <= |outputs| <= MAX_PERSISTED_OUTPUTS
    ensures ParsePersisted(TxBytes(Assemble(selected, outputs)), selected) == Ok(Assemble(selected, outputs))
  {
    var trailer := Trailer(NewOutputs(outputs), 0);
    var ins := SerializeIns(NewInputs(selected));
    TakeU32Printed(TX_VERSION, Varint(|selected|) + (ins + trailer));
    TakeCountPrinted(|selected|, ins + trailer);
    TakeInputsPrinted(selected, trailer);
    TrailerPrinted(outputs);
  }

  /** Parsing then printing: whatever is accepted re-serializes to the very bytes that were read. */
  lemma PrintParsed(bytes: seq<u8>, selected: seq<SelectedUtxo>)
    requires ParsePersisted(bytes, selected).Ok?
    ensures 1 <= |selected| <= MAX_PERSISTED_INPUTS
    ensures 1 <= |ParsePersisted(bytes, selected).value.logicalOutputs| <= MAX_PERSISTED_OUTPUTS
    ensures TxBytes(ParsePersisted(bytes, selected).value) == bytes
  {
    var s1 := TakeU32(bytes).value.1;
    var s2 := TakeCount(s1).value.1;
    var s3 := TakeInputs(s2, selected).value;
    TakeU32Canonical(bytes);
    TakeCountCanonical(s1);
    TakeInputsCanonical(s2, selected);
    TrailerCanonical(s3);
  }

  /** The parser accepts exactly the serializations of unsigned transactions over the selected
      inputs with 1 to 320 outputs, and nothing else. */
  lemma AcceptedIffPrinted(bytes: seq<u8>, selected: seq<SelectedUtxo>, t: Tx)
    ensures ParsePersisted(bytes, selected) == Ok(t) <==>
              && 1 <= |selected| <= 1000
              && 1 <= |t.logicalOutputs| <= 320
              && t == Assemble(selected, t.logicalOutputs)
              && bytes == TxBytes(t)
  {
    if ParsePersisted(bytes, selected) == Ok(t) {
      PrintParsed(bytes, selected);
    }
    if 1 <= |selected| <= MAX_PERSISTED_INPUTS && 1 <= |t.logicalOutputs| <= MAX_PERSISTED_OUTPUTS
       && t == Assemble(selected, t.logicalOutputs) && bytes == TxBytes(t) {
      ParsePrinted(selected, t.logicalOutputs);
    }
  }

  lemma RecoveryTransfers(bytes: seq<u8>, a: seq<SelectedUtxo>, b: seq<SelectedUtxo>)
    requires NewInputs(a) == NewInputs(b)
    requires ParsePersisted(bytes, a).Ok?
    ensures ParsePersisted(bytes, b) == Ok(Assemble(b, ParsePersisted(bytes, a).value.logicalOutputs))
  {
    var t := ParsePersisted(bytes, a).value;
    AcceptedIffPrinted(bytes, a, t);
    assert TxBytes(t) == TxBytes(Assemble(b, t.logicalOutputs));
    ParsePrinted(b, t.logicalOutputs);
  }

  /** Recovery does not depend on the redeem scripts, which are never persisted. */
  lemma RecoveryIgnoresRedeemScripts(bytes: seq<u8>, a: seq<SelectedUtxo>, b: seq<SelectedUtxo>)
    requires |a| == |b|
    requires forall k :: 0 <= k < |a| ==> a[k].transactionId == b[k].transactionId && a[k].vout == b[k].vout
    ensures ParsePersisted(bytes, a).Ok? == ParsePersisted(bytes, b).Ok?
    ensures ParsePersisted(bytes, a).Ok? ==>
              ParsePersisted(bytes, a).value.logicalOutputs == ParsePersisted(bytes, b).value.logicalOutputs
  {
    assert NewInputs(a) == NewInputs(b);
    if ParsePersisted(bytes, a).Ok? { RecoveryTransfers(bytes, a, b); }
    if ParsePersisted(bytes, b).Ok? { RecoveryTransfers(bytes, b, a); }
  }
}
