/** The outputs-only `UTX0` unlock payload, all integers big-endian. */
module Utx0 {
  import opened Bytes

  datatype AddressType = P2pkh | P2sh {
    function Code(): u32 { if P2pkh? then 0 else 1 }
  }

  datatype Output = Output(amount: u64, addressType: AddressType, address: Hash20)

  datatype Payload = Payload(destinationChain: u16, managerSetIndex: u32, outputs: seq<Output>)

  /** The chain identifier of Dogecoin. */
  const DOGECOIN: u16 := 65

  /** The ASCII bytes of "UTX0". */
  const PREFIX: seq<u8> := [0x55, 0x54, 0x58, 0x30]

  // A header is 14 bytes and an output 32 bytes.

  function SerializeOutput(o: Output): (s: seq<u8>)
    ensures |s| == 32
  { BE(8, o.amount) + BE(4, o.addressType.Code()) + o.address }

  function SerializeOutputs(os: seq<Output>): (s: seq<u8>)
    ensures |s| == 32 * |os|
  { if os == [] then [] else SerializeOutput(os[0]) + SerializeOutputs(os[1..]) }

  function Header(p: Payload): (s: seq<u8>)
    ensures |s| == 14
  { PREFIX + BE(2, p.destinationChain) + BE(4, p.managerSetIndex) + BE(4, |p.outputs|) }

  function SerializePayload(p: Payload): (r: Result<seq<u8>>)
  {
    if |p.outputs| >= 0x1_0000_0000 then Err
    else Ok(Header(p) + SerializeOutputs(p.outputs))
  }

  lemma {:induction false} SerializeOutputsAppend(os: seq<Output>, o: Output)
    ensures SerializeOutputs(os + [o]) == SerializeOutputs(os) + SerializeOutput(o)
  {
    hide SerializeOutput;
    if os == [] {
      assert os + [o] == [o];
      assert SerializeOutputs([o][1..]) == [];
    } else {
      SerializeOutputsAppend(os[1..], o);
      assert (os + [o])[1..] == os[1..] + [o];
    }
  }

  lemma ExtendHeader(p: Payload, i: nat)
    requires i < |p.outputs|
    ensures Header(p) + SerializeOutputs(p.outputs[..i]) + SerializeOutput(p.outputs[i])
         == Header(p) + SerializeOutputs(p.outputs[..i + 1])
  {
    SerializeOutputsAppend(p.outputs[..i], p.outputs[i]);
    assert p.outputs[..i] + [p.outputs[i]] == p.outputs[..i + 1];
  }

  /** Chunk `k` of the outputs: amount, address type 0 or 1, address. */
  ghost predicate IsOutputAt(s: seq<u8>, at: nat, o: Output)
    requires at + 32 <= |s|
  {
    && IsBE(s[at..at + 8], o.amount) && IsBE(s[at + 8..at + 12], if o.addressType.P2pkh? then 0 else 1)
    && s[at + 12..at + 32] == o.address
  }

  /** Every byte of a payload: the letters, destination chain, Manager set, count, and the outputs. */
  ghost predicate IsPayload(s: seq<u8>, p: Payload)
  {
    && |s| == 14 + 32 * |p.outputs|
    && (forall k :: 0 <= k < 4 ==> s[k] == "UTX0"[k] as int)
    && IsBE(s[4..6], p.destinationChain) && IsBE(s[6..10], p.managerSetIndex) && IsBE(s[10..14], |p.outputs|)
    && forall k :: 0 <= k < |p.outputs| ==> IsOutputAt(s, 14 + 32 * k, p.outputs[k])
  }

  lemma OutputLayout(o: Output)
    ensures IsOutputAt(SerializeOutput(o), 0, o)
  {
    BEIsBE(8, o.amount);
    BEIsBE(4, o.addressType.Code());
    hide BE, IsBE;
    var s := SerializeOutput(o);
    assert s[0..8] == BE(8, o.amount) && s[8..12] == BE(4, o.addressType.Code()) && s[12..32] == o.address;
  }

  lemma {:induction false} OutputsLayout(os: seq<Output>, k: nat)
    requires k < |os|
    ensures IsOutputAt(SerializeOutputs(os), 32 * k, os[k])
  {
    hide SerializeOutput, IsBE;
    var s, rest := SerializeOutputs(os), SerializeOutputs(os[1..]);
    if k == 0 {
      OutputLayout(os[0]);
      SameChunk(SerializeOutput(os[0]), 0, s, 0, os[0]);
    } else {
      OutputsLayout(os[1..], k - 1);
      SameChunk(rest, 32 * (k - 1), s, 32 * k, os[k]);
    }
  }

  lemma SameChunk(a: seq<u8>, i: nat, b: seq<u8>, j: nat, o: Output)
    requires i + 32 <= |a| && j + 32 <= |b| && a[i..i + 32] == b[j..j + 32]
    requires IsOutputAt(a, i, o)
    ensures IsOutputAt(b, j, o)
  {
    hide IsBE;
    SliceOfSlice(a, i, i + 32, 0, 8);
    SliceOfSlice(a, i, i + 32, 8, 12);
    SliceOfSlice(a, i, i + 32, 12, 32);
    SliceOfSlice(b, j, j + 32, 0, 8);
    SliceOfSlice(b, j, j + 32, 8, 12);
    SliceOfSlice(b, j, j + 32, 12, 32);
  }

  lemma PrefixLetters()
    ensures forall k :: 0 <= k < 4 ==> PREFIX[k] == "UTX0"[k] as int
  {}

  lemma HeaderLayout(p: Payload)
    ensures var s := Header(p);
            && (forall k :: 0 <= k < 4 ==> s[k] == "UTX0"[k] as int)
            && IsBE(s[4..6], p.destinationChain) && IsBE(s[6..10], p.managerSetIndex) && IsBE(s[10..14], |p.outputs|)
  {
    BEIsBE(2, p.destinationChain);
    BEIsBE(4, p.managerSetIndex);
    BEIsBE(4, |p.outputs|);
    PrefixLetters();
    hide BE, IsBE;
    var s := Header(p);
    assert forall k :: 0 <= k < 4 ==> s[k] == PREFIX[k];
    assert s[4..6] == BE(2, p.destinationChain) && s[6..10] == BE(4, p.managerSetIndex);
    assert s[10..14] == BE(4, |p.outputs|);
  }

  lemma PayloadLayout(p: Payload)
    ensures IsPayload(Header(p) + SerializeOutputs(p.outputs), p)
  {
    hide Header, SerializeOutputs, IsBE, IsOutputAt;
    HeaderLayout(p);
    var os := SerializeOutputs(p.outputs);
    var h, s := Header(p), Header(p) + os;
    assert s[4..6] == h[4..6] && s[6..10] == h[6..10] && s[10..14] == h[10..14];
    forall k | 0 <= k < |p.outputs| ensures IsOutputAt(s, 14 + 32 * k, p.outputs[k]) {
      OutputsLayout(p.outputs, k);
      assert s[14 + 32 * k..46 + 32 * k] == os[32 * k..32 * k + 32];
      SameChunk(os, 32 * k, s, 14 + 32 * k, p.outputs[k]);
    }
  }

  method Serialize(p: Payload) returns (r: Result<seq<u8>>)
    ensures r == SerializePayload(p)
    ensures r.Ok? <==> |p.outputs| < 0x1_0000_0000
    ensures r.Ok? ==> IsPayload(r.value, p)
  {
    hide IsPayload;
    PayloadLayout(p);
    if |p.outputs| >= 0x1_0000_0000 { return Err; }
    var buf := new ByteVec();
    buf.Extend(PREFIX);
    buf.Extend(BE(2, p.destinationChain));
    buf.Extend(BE(4, p.managerSetIndex));
    buf.Extend(BE(4, |p.outputs|));
    assert buf.bytes == Header(p);
    for i := 0 to |p.outputs|
      invariant buf.bytes == Header(p) + SerializeOutputs(p.outputs[..i])
    {
      ExtendHeader(p, i);
      buf.Extend(SerializeOutput(p.outputs[i]));
    }
    assert p.outputs[..|p.outputs|] == p.outputs;
    return Ok(buf.bytes);
  }

  function AddressTypeFrom(code: u32): Result<AddressType>
  { if code == 0 then Ok(P2pkh) else if code == 1 then Ok(P2sh) else Err }

  lemma FromBEBound(s: seq<u8>)
    ensures FromBE(s) < Pow256(|s|)
    ensures |s| == 2 ==> FromBE(s) < 0x1_0000
    ensures |s| == 4 ==> FromBE(s) < 0x1_0000_0000
    ensures |s| == 8 ==> FromBE(s) < U64_LIMIT
  {
    EncodeBE(s);
    PowValues();
  }

  function U16At(s: seq<u8>, k: nat): u16
    requires k + 2 <= |s|
  { FromBEBound(s[k..k + 2]); FromBE(s[k..k + 2]) }

  function U32At(s: seq<u8>, k: nat): u32
    requires k + 4 <= |s|
  { FromBEBound(s[k..k + 4]); FromBE(s[k..k + 4]) }

  function U64At(s: seq<u8>, k: nat): u64
    requires k + 8 <= |s|
  { FromBEBound(s[k..k + 8]); FromBE(s[k..k + 8]) }

  function ParseOutput(s: seq<u8>): Result<Output>
  {
    if |s| < 32 then Err
    else
      var addressType :- AddressTypeFrom(U32At(s, 8));
      Ok(Output(U64At(s, 0), addressType, s[12..32]))
  }

  /** Parses `n` consecutive 32-byte chunks. */
  function ParseOutputs(s: seq<u8>, n: nat): Result<seq<Output>>
    requires |s| == 32 * n
  {
    if n == 0 then Ok([])
    else
      var head :- ParseOutput(s[..32]);
      var tail :- ParseOutputs(s[32..], n - 1);
      Ok([head] + tail)
  }

  function Parse(s: seq<u8>): Result<Payload>
  {
    if |s| < 14 then Err
    else if s[..4] != PREFIX then Err
    else if |s| != 14 + U32At(s, 10) * 32 then Err
    else
      var outputs :- ParseOutputs(s[14..], U32At(s, 10));
      Ok(Payload(U16At(s, 4), U32At(s, 6), outputs))
  }

  lemma ParseOutputRoundTrip(o: Output)
    ensures ParseOutput(SerializeOutput(o)) == Ok(o)
  {
    PowValues();
    var s := SerializeOutput(o);
    assert s[0..8] == BE(8, o.amount) && s[8..12] == BE(4, o.addressType.Code()) && s[12..32] == o.address;
    DecodeBE(8, o.amount);
    DecodeBE(4, o.addressType.Code());
  }

  lemma ParseOutputCanonical(s: seq<u8>)
    requires |s| == 32 && ParseOutput(s).Ok?
    ensures SerializeOutput(ParseOutput(s).value) == s
  {
    EncodeBE(s[0..8]);
    EncodeBE(s[8..12]);
    assert s == s[0..8] + s[8..12] + s[12..32];
  }

  lemma ParseOutputsCons(head: seq<u8>, tail: seq<u8>, n: nat)
    requires |head| == 32 && |tail| == 32 * n
    requires ParseOutput(head).Ok? && ParseOutputs(tail, n).Ok?
    ensures ParseOutputs(head + tail, n + 1) == Ok([ParseOutput(head).value] + ParseOutputs(tail, n).value)
  {
    assert (head + tail)[..32] == head && (head + tail)[32..] == tail;
  }

  lemma {:induction false} ParseOutputsRoundTrip(os: seq<Output>)
    ensures ParseOutputs(SerializeOutputs(os), |os|) == Ok(os)
  {
    hide SerializeOutput, ParseOutput;
    if os != [] {
      ParseOutputRoundTrip(os[0]);
      ParseOutputsRoundTrip(os[1..]);
      ParseOutputsCons(SerializeOutput(os[0]), SerializeOutputs(os[1..]), |os| - 1);
      assert [os[0]] + os[1..] == os;
    }
  }

  lemma {:induction false} ParseOutputsCanonical(s: seq<u8>, n: nat)
    requires |s| == 32 * n && ParseOutputs(s, n).Ok?
    ensures |ParseOutputs(s, n).value| == n
    ensures SerializeOutputs(ParseOutputs(s, n).value) == s
  {
    if n > 0 {
      ParseOutputCanonical(s[..32]);
      ParseOutputsCanonical(s[32..], n - 1);
      var os := ParseOutputs(s, n).value;
      assert os[1..] == ParseOutputs(s[32..], n - 1).value;
      assert s == s[..32] + s[32..];
    }
  }

  lemma ParseHeader(p: Payload, s: seq<u8>)
    requires SerializePayload(p) == Ok(s)
    ensures |s| == 14 + |p.outputs| * 32
    ensures s[..4] == PREFIX && U32At(s, 10) == |p.outputs|
    ensures U16At(s, 4) == p.destinationChain && U32At(s, 6) == p.managerSetIndex
    ensures s[14..] == SerializeOutputs(p.outputs)
  {
    PowValues();
    assert s[4..6] == BE(2, p.destinationChain) && s[6..10] == BE(4, p.managerSetIndex);
    assert s[10..14] == BE(4, |p.outputs|);
    DecodeBE(2, p.destinationChain);
    DecodeBE(4, p.managerSetIndex);
    DecodeBE(4, |p.outputs|);
  }

  lemma HeaderCanonical(s: seq<u8>, p: Payload)
    requires |s| >= 14 && s[..4] == PREFIX
    requires U16At(s, 4) == p.destinationChain && U32At(s, 6) == p.managerSetIndex && U32At(s, 10) == |p.outputs|
    ensures Header(p) == s[..14]
  {
    EncodeBE(s[4..6]);
    EncodeBE(s[6..10]);
    EncodeBE(s[10..14]);
    assert s[..14] == s[..4] + s[4..6] + s[6..10] + s[10..14];
  }

  lemma ParseCanonical(s: seq<u8>)
    requires Parse(s).Ok?
    ensures SerializePayload(Parse(s).value) == Ok(s)
  {
    ParseOutputsCanonical(s[14..], U32At(s, 10));
    HeaderCanonical(s, Parse(s).value);
    assert s == s[..14] + s[14..];
  }

  /** The payload codec is a bijection: the accepted byte strings are exactly the serializations. */
  lemma ParseIffSerialized(p: Payload, s: seq<u8>)
    ensures Parse(s) == Ok(p) <==> SerializePayload(p) == Ok(s)
  {
    if SerializePayload(p) == Ok(s) {
      ParseHeader(p, s);
      ParseOutputsRoundTrip(p.outputs);
    }
    if Parse(s) == Ok(p) {
      ParseCanonical(s);
    }
  }
}
