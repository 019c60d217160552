/** Values and wire format of legacy Dogecoin transactions: what the serializer writes, and
    the parsing of persisted bytes expressed on the bytes that are still unread. */
module Wire {
  import opened Bytes
  import opened Utx0

  const TX_VERSION: u32 := 1
  const SEQUENCE_FINAL: u32 := 0xffff_ffff
  const MAX_PERSISTED_INPUTS := 1_000
  const MAX_PERSISTED_OUTPUTS := 320
  const MAX_STANDARD_OUTPUT_SCRIPT_LEN := 25

  /** `transactionId` is in display order; the wire carries it reversed. */
  datatype SelectedUtxo = SelectedUtxo(transactionId: Hash32, vout: u32, redeemScript: seq<u8>)
  datatype TxIn = TxIn(prevTxidLe: Hash32, vout: u32, scriptSig: seq<u8>, sequence: u32)
  datatype TxOut = TxOut(value: u64, scriptPubkey: seq<u8>)
  datatype Tx = Tx(version: u32, inputs: seq<TxIn>, outputs: seq<TxOut>, logicalOutputs: seq<Output>,
                   locktime: u32, redeemScripts: seq<seq<u8>>)

  function P2pkhScript(hash: Hash20): seq<u8>
  { [0x76, 0xa9, 0x14] + hash + [0x88, 0xac] }

  function P2shScript(hash: Hash20): seq<u8>
  { [0xa9, 0x14] + hash + [0x87] }

  function ScriptPubkeyFor(o: Output): seq<u8>
  { match o.addressType case P2pkh => P2pkhScript(o.address) case P2sh => P2shScript(o.address) }

  // ---- Serialization ----

  function Varint(v: nat): (s: seq<u8>)
    ensures |s| > 0
  {
    if v < 0xfd then [v]
    else if v <= 0xffff then [0xfd] + LE(2, v)
    else if v <= 0xffff_ffff then [0xfe] + LE(4, v)
    else [0xff] + LE(8, v)
  }

  function SerializeIn(i: TxIn): seq<u8>
  { i.prevTxidLe + LE(4, i.vout) + Varint(|i.scriptSig|) + i.scriptSig + LE(4, i.sequence) }

  function SerializeOut(o: TxOut): seq<u8>
  { LE(8, o.value) + Varint(|o.scriptPubkey|) + o.scriptPubkey }

  function SerializeIns(s: seq<TxIn>): seq<u8>
  { if s == [] then [] else SerializeIn(s[0]) + SerializeIns(s[1..]) }

  function SerializeOuts(s: seq<TxOut>): seq<u8>
  { if s == [] then [] else SerializeOut(s[0]) + SerializeOuts(s[1..]) }

  /** The part of a transaction that follows its inputs. */
  function Trailer(outputs: seq<TxOut>, locktime: u32): seq<u8>
  { Varint(|outputs|) + (SerializeOuts(outputs) + LE(4, locktime)) }

  function SerializeTransaction(version: u32, inputs: seq<TxIn>, outputs: seq<TxOut>, locktime: u32): seq<u8>
  { LE(4, version) + (Varint(|inputs|) + (SerializeIns(inputs) + Trailer(outputs, locktime))) }

  function TxBytes(t: Tx): seq<u8>
  { SerializeTransaction(t.version, t.inputs, t.outputs, t.locktime) }

  // ---- Construction from selected inputs ----

  function NewInputs(selected: seq<SelectedUtxo>): (r: seq<TxIn>)
    ensures |r| == |selected|
  { seq(|selected|, k requires 0 <= k < |selected| =>
      TxIn(Reverse(selected[k].transactionId), selected[k].vout, [], SEQUENCE_FINAL)) }

  function NewOutputs(outputs: seq<Output>): (r: seq<TxOut>)
    ensures |r| == |outputs|
  { seq(|outputs|, k requires 0 <= k < |outputs| => TxOut(outputs[k].amount, ScriptPubkeyFor(outputs[k]))) }

  function RedeemScripts(selected: seq<SelectedUtxo>): (r: seq<seq<u8>>)
    ensures |r| == |selected|
  { seq(|selected|, k requires 0 <= k < |selected| => selected[k].redeemScript) }

  function Assemble(selected: seq<SelectedUtxo>, outputs: seq<Output>): Tx
  { Tx(TX_VERSION, NewInputs(selected), NewOutputs(outputs), outputs, 0, RedeemScripts(selected)) }

  function NewTransaction(selected: seq<SelectedUtxo>, outputs: seq<Output>): Result<Tx>
  { if selected == [] || outputs == [] then Err else Ok(Assemble(selected, outputs)) }

  // ---- Parsing: each function takes a value off the front of the unread bytes ----

  function Take(s: seq<u8>, n: nat): Result<(seq<u8>, seq<u8>)>
  { if n <= |s| then Ok((s[..n], s[n..])) else Err }

  lemma FromLEBound(s: seq<u8>)
    ensures FromLE(s) < Pow256(|s|)
    ensures |s| == 2 ==> FromLE(s) < 0x1_0000
    ensures |s| == 4 ==> FromLE(s) < 0x1_0000_0000
    ensures |s| == 8 ==> FromLE(s) < U64_LIMIT
  {
    EncodeLE(s);
    PowValues();
  }

  function TakeU32(s: seq<u8>): Result<(u32, seq<u8>)>
  { if 4 <= |s| then FromLEBound(s[..4]); Ok((FromLE(s[..4]), s[4..])) else Err }

  function TakeU64(s: seq<u8>): Result<(u64, seq<u8>)>
  { if 8 <= |s| then FromLEBound(s[..8]); Ok((FromLE(s[..8]), s[8..])) else Err }

  /** A compact-size count; encodings longer than necessary are refused. */
  function TakeCount(s: seq<u8>): Result<(u64, seq<u8>)>
  {
    if s == [] then Err
    else if s[0] <= 0xfc then Ok((s[0], s[1..]))
    else
      var width := if s[0] == 0xfd then 2 else if s[0] == 0xfe then 4 else 8;
      if |s| < 1 + width then Err
      else
        FromLEBound(s[1..1 + width]);
        var v := FromLE(s[1..1 + width]);
        var least := if width == 2 then 0xfd else if width == 4 then 0x1_0000 else 0x1_0000_0000;
        if v < least then Err else Ok((v, s[1 + width..]))
  }

  /** Reads one input and compares it with the selected UTXO; yields the bytes after it. */
  function TakeInput(s: seq<u8>, selected: SelectedUtxo): Result<seq<u8>>
  {
    var (prev, s1) :- Take(s, 32);
    var (vout, s2) :- TakeU32(s1);
    var (scriptLen, s3) :- TakeCount(s2);
    if scriptLen != 0 then Err
    else
      var (sequence, s4) :- TakeU32(s3);
      if sequence != SEQUENCE_FINAL || prev != Reverse(selected.transactionId) || vout != selected.vout
      then Err else Ok(s4)
  }

  function TakeInputs(s: seq<u8>, selected: seq<SelectedUtxo>): Result<seq<u8>>
  {
    if selected == [] then Ok(s)
    else
      var rest :- TakeInput(s, selected[0]);
      TakeInputs(rest, selected[1..])
  }

  function ParseStandardOutput(script: seq<u8>): Result<(AddressType, Hash20)>
  {
    if |script| == 25 && script[..3] == [0x76, 0xa9, 0x14] && script[23..] == [0x88, 0xac] then
      Ok((P2pkh, script[3..23]))
    else if |script| == 23 && script[..2] == [0xa9, 0x14] && script[22] == 0x87 then
      Ok((P2sh, script[2..22]))
    else Err
  }

  function TakeOutput(s: seq<u8>): Result<(Output, seq<u8>)>
  {
    var (value, s1) :- TakeU64(s);
    var (scriptLen, s2) :- TakeCount(s1);
    if scriptLen > MAX_STANDARD_OUTPUT_SCRIPT_LEN then Err
    else
      var (script, s3) :- Take(s2, scriptLen);
      var (addressType, address) :- ParseStandardOutput(script);
      Ok((Output(value, addressType, address), s3))
  }

  function TakeOutputs(s: seq<u8>, n: nat): Result<(seq<Output>, seq<u8>)>
  {
    if n == 0 then Ok(([], s))
    else
      var (head, s1) :- TakeOutput(s);
      var (tail, s2) :- TakeOutputs(s1, n - 1);
      Ok(([head] + tail, s2))
  }

  /** The outputs part of a persisted transaction; everything must be consumed. */
  function ParseTrailer(s: seq<u8>): Result<seq<Output>>
  {
    var (count, s1) :- TakeCount(s);
    if count > MAX_PERSISTED_OUTPUTS || count == 0 then Err
    else
      var (outputs, s2) :- TakeOutputs(s1, count);
      var (locktime, s3) :- TakeU32(s2);
      if locktime != 0 || s3 != [] then Err else Ok(outputs)
  }

  function ParsePersisted(bytes: seq<u8>, selected: seq<SelectedUtxo>): Result<Tx>
  {
    if selected == [] then Err
    else
      var (version, s1) :- TakeU32(bytes);
      if version != TX_VERSION then Err
      else
        var (count, s2) :- TakeCount(s1);
        if count > MAX_PERSISTED_INPUTS || count != |selected| then Err
        else
          var s3 :- TakeInputs(s2, selected);
          var outputs :- ParseTrailer(s3);
          Ok(Assemble(selected, outputs))
  }
}
