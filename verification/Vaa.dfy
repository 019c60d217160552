/** Wormhole VAAs and delegated Manager sets as byte strings. All integers are big-endian. */
module Vaa {
  import opened Bytes
  import opened Utx0
  import opened Signing

  datatype Key = Key(emitterChain: u16, emitterAddress: Hash32, sequence: u64)

  datatype Header = Header(version: u8, guardianSetIndex: u32, key: Key, payload: seq<u8>)

  /** Offset of the body, which follows `bytes[5]` guardian signatures of 66 bytes each. */
  function BodyOffset(bytes: seq<u8>): nat
    requires |bytes| >= 6
  { var count: nat := bytes[5]; 6 + count * 66 }

  function Body(bytes: seq<u8>): Result<seq<u8>>
  {
    if |bytes| < 6 || |bytes| < BodyOffset(bytes) then Err
    else Ok(bytes[BodyOffset(bytes)..])
  }

  /** Timestamp, nonce and consistency level are skipped. */
  method ParseBytes(bytes: seq<u8>) returns (r: Result<Header>)
    ensures r == Parse(bytes)
  {
    if |bytes| < 6 { return Err; }
    var version := bytes[0];
    var guardianSetIndex := U32At(bytes, 1);
    var count: nat := bytes[5];
    var off := 6 + count * (1 + 65);
    if |bytes| < off + 4 + 4 + 2 + 32 + 8 + 1 { return Err; }
    off := off + 4;
    off := off + 4;
    var emitterChain := U16At(bytes, off);
    off := off + 2;
    var emitterAddress := bytes[off..off + 32];
    off := off + 32;
    var sequence := U64At(bytes, off);
    off := off + 8;
    off := off + 1;
    return Ok(Header(version, guardianSetIndex, Key(emitterChain, emitterAddress, sequence), bytes[off..]));
  }

  function Parse(bytes: seq<u8>): Result<Header>
  {
    if |bytes| < 6 || |bytes| < BodyOffset(bytes) + 51 then Err
    else
      var off := BodyOffset(bytes);
      Ok(Header(bytes[0], U32At(bytes, 1),
                Key(U16At(bytes, off + 8), bytes[off + 10..off + 42], U64At(bytes, off + 42)), bytes[off + 51..]))
  }

  /** The fields of a VAA that its header skips. */
  datatype Skipped = Skipped(timestamp: u32, nonce: u32, level: u8)

  /** A VAA with `count` guardian signatures, `signatures` being all their bytes. */
  function Printed(h: Header, count: u8, signatures: seq<u8>, k: Skipped): seq<u8>
  { [h.version] + BE(4, h.guardianSetIndex) + [count] + signatures + PrintedBody(h, k) }

  function PrintedBody(h: Header, k: Skipped): seq<u8>
  {
    BE(4, k.timestamp) + BE(4, k.nonce) + BE(2, h.key.emitterChain) + h.key.emitterAddress
    + BE(8, h.key.sequence) + [k.level] + h.payload
  }

  /** Whatever the signatures and the skipped fields, a VAA parses to its header, and its body is
      what the guardians signed. */
  lemma PrintedParses(h: Header, count: u8, signatures: seq<u8>, k: Skipped)
    requires |signatures| == 66 * (count as nat)
    ensures Parse(Printed(h, count, signatures, k)) == Ok(h)
    ensures Body(Printed(h, count, signatures, k)) == Ok(PrintedBody(h, k))
  {
    hide BE, FromBE, PrintedBody;
    var s, body := Printed(h, count, signatures, k), PrintedBody(h, k);
    assert s[5] == count && s[0] == h.version && s[1..5] == BE(4, h.guardianSetIndex);
    assert BodyOffset(s) == 6 + |signatures| && s[6 + |signatures|..] == body;
    BodyFields(h, k);
    var off := 6 + |signatures|;
    assert s[off + 8..off + 10] == body[8..10] && s[off + 10..off + 42] == body[10..42];
    assert s[off + 42..off + 50] == body[42..50] && s[off + 51..] == body[51..];
    PowValues();
    DecodeBE(4, h.guardianSetIndex);
    DecodeBE(2, h.key.emitterChain);
    DecodeBE(8, h.key.sequence);
  }

  lemma BodyFields(h: Header, k: Skipped)
    ensures var body := PrintedBody(h, k);
            && |body| >= 51 && body[8..10] == BE(2, h.key.emitterChain) && body[10..42] == h.key.emitterAddress
            && body[42..50] == BE(8, h.key.sequence) && body[51..] == h.payload
  {
    hide BE;
  }

  /** Only such byte strings are accepted. */
  lemma AcceptedIsPrinted(bytes: seq<u8>) returns (count: u8, signatures: seq<u8>, k: Skipped)
    requires Parse(bytes).Ok?
    ensures |signatures| == 66 * (count as nat) && bytes == Printed(Parse(bytes).value, count, signatures, k)
  {
    var off := BodyOffset(bytes);
    count, signatures := bytes[5], bytes[6..off];
    k := Skipped(U32At(bytes, off), U32At(bytes, off + 4), bytes[off + 50]);
    var h := Parse(bytes).value;
    EncodeBE(bytes[1..5]);
    EncodeBE(bytes[off..off + 4]);
    EncodeBE(bytes[off + 4..off + 8]);
    EncodeBE(bytes[off + 8..off + 10]);
    EncodeBE(bytes[off + 42..off + 50]);
    hide BE, FromBE;
    var body := bytes[off..];
    assert body == bytes[off..off + 4] + bytes[off + 4..off + 8] + bytes[off + 8..off + 10] + bytes[off + 10..off + 42]
                   + bytes[off + 42..off + 50] + [bytes[off + 50]] + bytes[off + 51..];
    assert bytes == [bytes[0]] + bytes[1..5] + [bytes[5]] + bytes[6..off] + body;
  }

  /** The VAA of a local registration: no guardian signatures, zero timestamp, nonce and level. */
  function Synthesized(key: Key, payload: seq<u8>): seq<u8>
  { Printed(Header(1, 0, key, payload), 0, [], Skipped(0, 0, 0)) }

  /** A synthesized VAA parses back to its key and payload. */
  lemma SynthesizedParses(key: Key, payload: seq<u8>)
    ensures Parse(Synthesized(key, payload)) == Ok(Header(1, 0, key, payload))
    ensures Body(Synthesized(key, payload)).Ok?
  {
    hide Printed, Parse, Body;
    PrintedParses(Header(1, 0, key, payload), 0, [], Skipped(0, 0, 0));
  }

  /** Every byte of a local VAA: version 1, no guardian set, no signatures, no timestamp or nonce, the
      emitter and its sequence, no consistency level, and the payload. */
  ghost predicate IsLocalVaa(s: seq<u8>, key: Key, payload: seq<u8>)
  {
    && |s| == 57 + |payload| && s[0] == 1 && (forall k :: 1 <= k < 14 ==> s[k] == 0)
    && IsBE(s[14..16], key.emitterChain) && s[16..48] == key.emitterAddress && IsBE(s[48..56], key.sequence)
    && s[56] == 0 && s[57..] == payload
  }

  lemma FourZeros()
    ensures BE(4, 0) == [0, 0, 0, 0]
  {
    assert LE(1, 0) == [0] && LE(2, 0) == [0, 0] && LE(3, 0) == [0, 0, 0];
  }

  lemma EmptyBody(h: Header)
    ensures var body := PrintedBody(h, Skipped(0, 0, 0));
            |body| == 51 + |h.payload| && (forall k :: 0 <= k < 8 ==> body[k] == 0) && body[50] == 0
  {
    hide BE;
    FourZeros();
  }

  lemma SynthesizedLayout(key: Key, payload: seq<u8>)
    ensures IsLocalVaa(Synthesized(key, payload), key, payload)
  {
    BEIsBE(2, key.emitterChain);
    BEIsBE(8, key.sequence);
    hide BE, IsBE, PrintedBody;
    var h, k := Header(1, 0, key, payload), Skipped(0, 0, 0);
    BodyFields(h, k);
    EmptyBody(h);
    FourZeros();
    var s, body := Synthesized(key, payload), PrintedBody(h, k);
    assert s == [1, 0, 0, 0, 0, 0] + body;
    assert s[14..16] == body[8..10] && s[16..48] == body[10..42] && s[48..56] == body[42..50] && s[57..] == body[51..];
  }

  lemma LocalVaaUnique(s: seq<u8>, key: Key, payload: seq<u8>)
    requires IsLocalVaa(s, key, payload)
    ensures s == Synthesized(key, payload)
  {
    SynthesizedLayout(key, payload);
    hide Synthesized, BE, IsBE;
    var r := Synthesized(key, payload);
    BEUnique(s[14..16], key.emitterChain);
    BEUnique(r[14..16], key.emitterChain);
    BEUnique(s[48..56], key.sequence);
    BEUnique(r[48..56], key.sequence);
    assert s == s[..14] + s[14..16] + s[16..48] + s[48..56] + [s[56]] + s[57..];
    assert r == r[..14] + r[14..16] + r[16..48] + r[48..56] + [r[56]] + r[57..];
    assert s[..14] == r[..14];
  }

  method SynthesizeLocal(key: Key, payload: seq<u8>) returns (bytes: seq<u8>)
    ensures bytes == Synthesized(key, payload)
    ensures IsLocalVaa(bytes, key, payload)
  {
    hide BE, IsLocalVaa;
    SynthesizedLayout(key, payload);
    var vaa := new ByteVec();
    vaa.Push(1);
    vaa.Extend(BE(4, 0));
    vaa.Push(0);
    assert vaa.bytes == [1] + BE(4, 0) + [0] + [];
    ghost var header := vaa.bytes;
    vaa.Extend(BE(4, 0));
    vaa.Extend(BE(4, 0));
    vaa.Extend(BE(2, key.emitterChain));
    vaa.Extend(key.emitterAddress);
    vaa.Extend(BE(8, key.sequence));
    vaa.Push(0);
    vaa.Extend(payload);
    assert vaa.bytes == header + PrintedBody(Header(1, 0, key, payload), Skipped(0, 0, 0));
    bytes := vaa.bytes;
  }

  // ---- Manager sets ----

  function KeyBytes(n: nat): nat { n * 33 }

  function KeysAt(bytes: seq<u8>, n: nat): (r: seq<PubKey>)
    requires |bytes| >= 3 + n * 33
    ensures |r| == n
  { seq(n, i requires 0 <= i < n => bytes[3 + i * 33..3 + (i + 1) * 33]) }

  /** The type byte and anything after the last key are ignored. */
  function ParseManagerSet(bytes: seq<u8>): Result<ManagerSet>
  {
    if |bytes| < 3 || |bytes| < 3 + KeyBytes(bytes[2]) then Err
    else Ok(ManagerSet(bytes[1], bytes[2], KeysAt(bytes, bytes[2])))
  }

  method ParseManagerSetBytes(bytes: seq<u8>) returns (r: Result<ManagerSet>)
    ensures r == ParseManagerSet(bytes)
  {
    if |bytes| < 3 { return Err; }
    var m := bytes[1];
    var n := bytes[2];
    if |bytes| < 3 + KeyBytes(n) { return Err; }
    var pubkeys: seq<PubKey> := [];
    for i := 0 to n
      invariant pubkeys == KeysAt(bytes, i)
    {
      pubkeys := pubkeys + [bytes[3 + i * 33..3 + (i + 1) * 33]];
    }
    return Ok(ManagerSet(m, n, pubkeys));
  }

  function Joined(keys: seq<PubKey>): (s: seq<u8>)
    ensures |s| == 33 * |keys|
  { if keys == [] then [] else Joined(keys[..|keys| - 1]) + keys[|keys| - 1] }

  function SerializeManagerSet(ms: ManagerSet): seq<u8>
  { [0, ms.m, ms.n] + Joined(ms.pubkeys) }

  /** Every byte of a Manager set: a zero, m, n, and the keys of 33 bytes. */
  ghost predicate IsManagerSet(s: seq<u8>, ms: ManagerSet)
  {
    && |s| == 3 + 33 * |ms.pubkeys| && s[0] == 0 && s[1] == ms.m && s[2] == ms.n
    && forall k :: 0 <= k < |ms.pubkeys| ==> s[3 + 33 * k..36 + 33 * k] == ms.pubkeys[k]
  }

  lemma ManagerSetLayout(ms: ManagerSet)
    ensures IsManagerSet(SerializeManagerSet(ms), ms)
  {
    var s := SerializeManagerSet(ms);
    JoinedKeys([0, ms.m, ms.n], ms.pubkeys, []);
    assert [0, ms.m, ms.n] + Joined(ms.pubkeys) + [] == s;
    forall k | 0 <= k < |ms.pubkeys| ensures s[3 + 33 * k..36 + 33 * k] == ms.pubkeys[k] {
      assert KeysAt(s, |ms.pubkeys|)[k] == s[3 + k * 33..3 + (k + 1) * 33];
    }
  }

  method WriteManagerSet(ms: ManagerSet) returns (bytes: seq<u8>)
    ensures bytes == SerializeManagerSet(ms)
    ensures IsManagerSet(bytes, ms)
  {
    hide IsManagerSet;
    ManagerSetLayout(ms);
    var buf := new ByteVec();
    buf.Push(0);
    buf.Push(ms.m);
    buf.Push(ms.n);
    for i := 0 to |ms.pubkeys|
      invariant buf.bytes == [0, ms.m, ms.n] + Joined(ms.pubkeys[..i])
    {
      assert ms.pubkeys[..i + 1][..i] == ms.pubkeys[..i];
      buf.Extend(ms.pubkeys[i]);
    }
    assert ms.pubkeys[..|ms.pubkeys|] == ms.pubkeys;
    bytes := buf.bytes;
  }

  lemma {:induction false} JoinedKeys(front: seq<u8>, keys: seq<PubKey>, rest: seq<u8>)
    requires |front| == 3
    ensures KeysAt(front + Joined(keys) + rest, |keys|) == keys
    decreases |keys|
  {
    var s := front + Joined(keys) + rest;
    if keys != [] {
      var n := |keys| - 1;
      var tail := keys[n] + rest;
      JoinedKeys(front, keys[..n], tail);
      assert s == front + Joined(keys[..n]) + tail;
      assert KeysAt(s, |keys|) == KeysAt(s, n) + [s[3 + n * 33..3 + (n + 1) * 33]];
      assert s[3 + n * 33..3 + (n + 1) * 33] == keys[n];
    }
  }

  /** A Manager set survives serialization exactly when its count matches its keys. */
  lemma ManagerSetRoundTrip(ms: ManagerSet)
    ensures ParseManagerSet(SerializeManagerSet(ms)) == Ok(ms) <==> |ms.pubkeys| == ms.n
  {
    var s := SerializeManagerSet(ms);
    assert s == [0, ms.m, ms.n] + Joined(ms.pubkeys) + [];
    if |ms.pubkeys| == ms.n { JoinedKeys([0, ms.m, ms.n], ms.pubkeys, []); }
  }
}
