/** The P2SH redeem-script builder: `<chain> <contract> 2DROP <recipient> DROP m <keys> n
    CHECKMULTISIG`, with minimal pushes for data and integers. */
module Redeem {
  import opened Bytes
  import opened Sighash
  import opened Script
  import Transaction

  const MAX_PUBKEYS := 13

  const I64_MIN: int := -0x8000_0000_0000_0000
  const I64_MAX: int := 0x7fff_ffff_ffff_ffff

  // ---- Integers ----

  /** The little-endian base-256 digits of `v`, none for zero. */
  function Digits(v: nat): seq<u8>
  { if v == 0 then [] else [v % 256] + Digits(v / 256) }

  /** The magnitude as the 128-bit value the builder works on: negating the least 64-bit integer
      wraps back to itself, and the conversion to 128 bits then extends its sign. */
  function Magnitude(v: int): nat
    requires I64_MIN <= v <= I64_MAX
  { if v == I64_MIN then 0x1_0000_0000_0000_0000_0000_0000_0000_0000 + I64_MIN else if v < 0 then -v else v }

  /** Appends the sign: a spare top bit carries it, otherwise an extra byte does. */
  function WithSign(digits: seq<u8>, negative: bool): seq<u8>
    requires digits != []
  {
    var top := digits[|digits| - 1];
    if top >= 0x80 then digits + [if negative then 0x80 else 0x00]
    else if negative then digits[|digits| - 1 := top + 0x80]
    else digits
  }

  lemma {:induction false} DigitsProperties(v: nat)
    ensures FromLE(Digits(v)) == v
    ensures v > 0 ==> Digits(v) != [] && Digits(v)[|Digits(v)| - 1] != 0
  {
    if v > 0 {
      DigitsProperties(v / 256);
      assert Digits(v)[1..] == Digits(v / 256);
      if v / 256 > 0 {
        assert Digits(v)[|Digits(v)| - 1] == Digits(v / 256)[|Digits(v / 256)| - 1];
      }
    }
  }

  function NumberBytes(v: int): seq<u8>
    requires I64_MIN <= v <= I64_MAX && v != 0
  {
    DigitsProperties(Magnitude(v));
    WithSign(Digits(Magnitude(v)), v < 0)
  }

  function PushInt(v: int): (s: seq<u8>)
    requires I64_MIN <= v <= I64_MAX
  {
    if v == 0 then [0x00]
    else if v == -1 then [0x4f]
    else if 1 <= v <= 16 then [0x50 + v]
    else PushData(NumberBytes(v))
  }

  lemma DigitsUnfold(v: nat)
    ensures Digits(v) == if v == 0 then [] else [v % 256] + Digits(v / 256)
  {}

  /** The digit loop. The padding of an empty result and the stripping of high zero digits that
      follow it in the source are never reached. */
  method WriteDigits(v: nat) returns (bytes: seq<u8>)
    requires v > 0
    ensures bytes == Digits(v)
  {
    hide Digits, FromLE;
    DigitsProperties(v);
    bytes := [];
    var tmp := v;
    assert [] + Digits(v) == Digits(v);
    while tmp != 0
      invariant bytes + Digits(tmp) == Digits(v)
    {
      DigitsUnfold(tmp);
      bytes := bytes + [tmp % 256];
      tmp := tmp / 256;
    }
    DigitsUnfold(0);
    assert bytes + [] == bytes;
    if bytes == [] { assert false; }
    if |bytes| > 1 && bytes[|bytes| - 1] == 0 { assert false; }
  }

  lemma MagnitudePositive(v: int)
    requires I64_MIN <= v <= I64_MAX
    ensures v != 0 ==> Magnitude(v) > 0
  {}

  method AppendInt(buf: ByteVec, v: int)
    requires I64_MIN <= v <= I64_MAX
    modifies buf
    ensures buf.bytes == old(buf.bytes) + PushInt(v)
  {
    MagnitudePositive(v);
    if v == 0 { buf.Push(0x00); return; }
    if v == -1 { buf.Push(0x4f); return; }
    if v >= 1 && v <= 16 { buf.Push(0x51 + v - 1); return; }
    hide Digits, Magnitude, FromLE, PushData, WithSign;
    var bytes := WriteDigits(Magnitude(v));
    DigitsProperties(Magnitude(v));
    bytes := AppendSign(bytes, v < 0);
    Transaction.PushDataInline(buf, bytes);
  }

  method AppendSign(digits: seq<u8>, negative: bool) returns (bytes: seq<u8>)
    requires digits != []
    ensures bytes == WithSign(digits, negative)
  {
    bytes := digits;
    var top := bytes[|bytes| - 1];
    if top >= 0x80 {
      bytes := bytes + [if negative then 0x80 else 0x00];
    } else if negative {
      bytes := bytes[|bytes| - 1 := top + 0x80];
    }
  }

  lemma {:induction false} FromLEAppend(s: seq<u8>, b: u8)
    ensures FromLE(s + [b]) == FromLE(s) + b * Pow256(|s|)
  {
    if s == [] {
      assert s + [b] == [b] && [b][1..] == [];
    } else {
      FromLEAppend(s[1..], b);
      assert (s + [b])[1..] == s[1..] + [b];
      assert 256 * (b * Pow256(|s| - 1)) == b * Pow256(|s|);
    }
  }

  function Signed(magnitude: int, negative: bool): int { if negative then -magnitude else magnitude }

  lemma ExtraSignByteDecodes(digits: seq<u8>, negative: bool)
    ensures ScriptNum(digits + [if negative then 0x80 else 0x00]) == Signed(FromLE(digits), negative)
  {
    hide FromLE;
    FromLEAppend(digits, 0);
    assert 0 * Pow256(|digits|) == 0;
    if negative {
      assert (digits + [0x80])[|digits| := 0] == digits + [0];
    }
  }

  lemma SpareSignBitDecodes(digits: seq<u8>)
    requires digits != [] && digits[|digits| - 1] < 0x80
    ensures ScriptNum(digits) == FromLE(digits)
    ensures ScriptNum(digits[|digits| - 1 := digits[|digits| - 1] + 0x80]) == Signed(FromLE(digits), true)
  {
    hide FromLE;
    var top := digits[|digits| - 1];
    assert digits[|digits| - 1 := top + 0x80][|digits| - 1 := top] == digits;
  }

  /** Reading a signed digit string as a script number gives back magnitude and sign, minimally. */
  lemma WithSignDecodes(digits: seq<u8>, negative: bool)
    requires digits != [] && digits[|digits| - 1] != 0
    ensures ScriptNum(WithSign(digits, negative)) == Signed(FromLE(digits), negative)
    ensures MinimalNum(WithSign(digits, negative))
  {
    WithSignMinimal(digits, negative);
    hide ScriptNum, FromLE, MinimalNum;
    if digits[|digits| - 1] >= 0x80 {
      ExtraSignByteDecodes(digits, negative);
    } else {
      SpareSignBitDecodes(digits);
    }
  }

  lemma WithSignMinimal(digits: seq<u8>, negative: bool)
    requires digits != [] && digits[|digits| - 1] != 0
    ensures MinimalNum(WithSign(digits, negative))
  {}

  lemma {:induction false} DigitsLength(v: nat, n: nat)
    requires v < Pow256(n)
    ensures |Digits(v)| <= n
  {
    if v > 0 { DigitsLength(v / 256, n - 1); }
  }

  lemma MagnitudeLength(v: int)
    requires I64_MIN <= v <= I64_MAX
    ensures |Digits(Magnitude(v))| <= 16
  {
    PowValues();
    assert Pow256(9) == 256 * Pow256(8) && Pow256(10) == 256 * Pow256(9) && Pow256(11) == 256 * Pow256(10);
    assert Pow256(12) == 256 * Pow256(11) && Pow256(13) == 256 * Pow256(12) && Pow256(14) == 256 * Pow256(13);
    assert Pow256(15) == 256 * Pow256(14) && Pow256(16) == 256 * Pow256(15);
    DigitsLength(Magnitude(v), 16);
  }

  /** An integer push, once executed, leaves a minimal script number on the stack. It is the
      intended number for every 64-bit integer except the least one. */
  lemma PushIntDecodes(v: int, rest: seq<u8>)
    requires I64_MIN <= v <= I64_MAX
    ensures PushStep(PushInt(v) + rest).Some?
    ensures PushStep(PushInt(v) + rest).value.1 == rest
    ensures MinimalNum(PushStep(PushInt(v) + rest).value.0)
    ensures ScriptNum(PushStep(PushInt(v) + rest).value.0) == v <==> v != I64_MIN
  {
    if -1 <= v <= 16 {
      SmallIntStep(v, rest);
    } else {
      DigitsProperties(Magnitude(v));
      WithSignDecodes(Digits(Magnitude(v)), v < 0);
      MagnitudeLength(v);
      PushStepData(NumberBytes(v), rest);
    }
  }

  lemma SmallIntStep(v: int, rest: seq<u8>)
    requires -1 <= v <= 16
    ensures PushStep(PushInt(v) + rest).Some?
    ensures PushStep(PushInt(v) + rest).value.1 == rest
    ensures MinimalNum(PushStep(PushInt(v) + rest).value.0)
    ensures ScriptNum(PushStep(PushInt(v) + rest).value.0) == v
  {
    var s := PushInt(v) + rest;
    assert s[1..] == rest;
    if v == -1 {
      SmallNum(1);
      assert [0x81][0 := 1] == [1];
    } else if v > 0 {
      SmallNum(v);
    } else {
      assert s[1..1] == [];
    }
  }

  // ---- The redeem script ----

  function AfterRecipient(m: u8, keys: seq<PubKey>): seq<u8>
    requires |keys| < 256
  { PushInt(m) + (PushAll(keys) + (PushInt(|keys|) + [0xae])) }

  function RedeemBytes(chain: u16, contract: Hash32, recipient: Hash32, m: u8, keys: seq<PubKey>): seq<u8>
    requires |keys| < 256
  {
    PushData(BE(2, chain)) + (PushData(contract)
                              + ([0x6d] + (PushData(recipient) + ([0x75] + AfterRecipient(m, keys)))))
  }

  predicate ValidMultisig(m: nat, n: nat) { 1 <= m <= n <= MAX_PUBKEYS }

  function BuildRedeemScript(chain: u16, contract: Hash32, recipient: Hash32, m: u8, keys: seq<PubKey>): Result<seq<u8>>
  {
    if !ValidMultisig(m, |keys|) then Err else Ok(RedeemBytes(chain, contract, recipient, m, keys))
  }

  /** Every byte of a redeem script: the chain and the 32-byte contract, dropped by 2DROP; the 32-byte
      recipient, dropped by DROP; m, the keys of 33 bytes, n and CHECKMULTISIG. */
  ghost predicate IsRedeemScript(s: seq<u8>, chain: u16, contract: Hash32, recipient: Hash32, m: u8, keys: seq<PubKey>)
  {
    && |s| == 74 + 34 * |keys|
    && s[0] == 0x02 && s[1] == chain / 0x100 && s[2] == chain % 0x100
    && s[3] == 0x20 && s[4..36] == contract && s[36] == 0x6d
    && s[37] == 0x20 && s[38..70] == recipient && s[70] == 0x75
    && s[71] == 0x50 + m
    && (forall k {:trigger keys[k]} :: 0 <= k < |keys| ==>
          s[72 + 34 * k] == 0x21 && s[73 + 34 * k..106 + 34 * k] == keys[k])
    && s[72 + 34 * |keys|] == 0x50 + |keys| && s[73 + 34 * |keys|] == 0xae
  }

  lemma TwoBytes(v: u16)
    ensures BE(2, v) == [v / 0x100, v % 0x100]
  {
    assert LE(1, v / 256) == [v / 256] && LE(2, v) == [v % 256, v / 256];
  }

  lemma {:induction false} PushAllKeysLength(keys: seq<PubKey>)
    ensures |PushAll(keys)| == 34 * |keys|
  {
    if keys != [] { PushAllKeysLength(keys[1..]); }
  }

  lemma {:induction false} KeyPushes(keys: seq<PubKey>, k: nat)
    requires k < |keys|
    ensures |PushAll(keys)| == 34 * |keys| >= 34 * k + 34
    ensures PushAll(keys)[34 * k] == 0x21 && PushAll(keys)[34 * k + 1..34 * k + 34] == keys[k]
  {
    PushAllKeysLength(keys);
    var rest := PushAll(keys[1..]);
    assert PushAll(keys) == [0x21] + keys[0] + rest;
    if k > 0 {
      KeyPushes(keys[1..], k - 1);
      var s := PushAll(keys);
      assert s[34..|s|] == rest && s[34 * k] == rest[34 * (k - 1)];
      SliceOfSlice(s, 34, |s|, 34 * (k - 1) + 1, 34 * (k - 1) + 34);
    }
  }

  lemma RedeemPrefix(chain: u16, contract: Hash32, recipient: Hash32, m: u8, keys: seq<PubKey>)
    requires |keys| < 256
    ensures RedeemBytes(chain, contract, recipient, m, keys)
         == [0x02, chain / 0x100, chain % 0x100] + ([0x20] + contract + [0x6d])
            + ([0x20] + recipient + [0x75]) + AfterRecipient(m, keys)
  {
    hide PushData, BE, AfterRecipient;
    TwoBytes(chain);
    ShortPush(BE(2, chain));
    ShortPush(contract);
    ShortPush(recipient);
    Regrouped(PushData(BE(2, chain)), PushData(contract), PushData(recipient), AfterRecipient(m, keys));
    hide RedeemBytes;
    assert [0x02] + [chain / 0x100, chain % 0x100] == [0x02, chain / 0x100, chain % 0x100];
  }

  lemma Regrouped(a: seq<u8>, b: seq<u8>, c: seq<u8>, tail: seq<u8>)
    ensures a + (b + ([0x6d] + (c + ([0x75] + tail)))) == a + (b + [0x6d]) + (c + [0x75]) + tail
  {}

  lemma RedeemSuffix(m: u8, keys: seq<PubKey>)
    requires ValidMultisig(m, |keys|)
    ensures AfterRecipient(m, keys) == [0x50 + m] + PushAll(keys) + [0x50 + |keys|, 0xae]
  {
    hide PushAll;
  }

  lemma ShortPush(data: seq<u8>)
    requires |data| <= 0x4b
    ensures PushData(data) == [|data|] + data
  {}

  /** What the builder's bytes are, position by position. */
  lemma RedeemLayout(chain: u16, contract: Hash32, recipient: Hash32, m: u8, keys: seq<PubKey>)
    requires ValidMultisig(m, |keys|)
    ensures IsRedeemScript(RedeemBytes(chain, contract, recipient, m, keys), chain, contract, recipient, m, keys)
  {
    hide RedeemBytes, AfterRecipient, PushAll;
    RedeemPrefix(chain, contract, recipient, m, keys);
    RedeemSuffix(m, keys);
    PushAllKeysLength(keys);
    var s := RedeemBytes(chain, contract, recipient, m, keys);
    assert s[72..72 + 34 * |keys|] == PushAll(keys);
    forall k | 0 <= k < |keys|
      ensures s[72 + 34 * k] == 0x21 && s[73 + 34 * k..106 + 34 * k] == keys[k]
    {
      KeyPushes(keys, k);
      var p := PushAll(keys);
      assert s[72 + 34 * k] == p[34 * k];
      assert s[73 + 34 * k..106 + 34 * k] == p[34 * k + 1..34 * k + 34];
    }
  }

  /** No other bytes have that layout. */
  lemma RedeemUnique(s: seq<u8>, chain: u16, contract: Hash32, recipient: Hash32, m: u8, keys: seq<PubKey>)
    requires ValidMultisig(m, |keys|) && IsRedeemScript(s, chain, contract, recipient, m, keys)
    ensures s == RedeemBytes(chain, contract, recipient, m, keys)
  {
    hide RedeemBytes;
    var r := RedeemBytes(chain, contract, recipient, m, keys);
    RedeemLayout(chain, contract, recipient, m, keys);
    forall j | 0 <= j < |s| ensures s[j] == r[j] {
      if 4 <= j < 36 {
        assert s[j] == s[4..36][j - 4] && r[j] == r[4..36][j - 4];
      } else if 38 <= j < 70 {
        assert s[j] == s[38..70][j - 38] && r[j] == r[38..70][j - 38];
      } else if 72 <= j < 72 + 34 * |keys| {
        var k := (j - 72) / 34;
        KeyPushUnique(s, r, 72 + 34 * k, keys[k], j);
      }
    }
  }

  lemma KeyPushUnique(s: seq<u8>, r: seq<u8>, at: nat, key: PubKey, j: nat)
    requires at <= j < at + 34 <= |s| && |r| == |s| && s[at] == r[at]
    requires s[at + 1..at + 34] == key && r[at + 1..at + 34] == key
    ensures s[j] == r[j]
  {
    if j > at { assert s[j] == s[at + 1..at + 34][j - at - 1] && r[j] == r[at + 1..at + 34][j - at - 1]; }
  }

  method BuildRedeem(chain: u16, contract: Hash32, recipient: Hash32, m: u8, keys: seq<PubKey>)
    returns (r: Result<seq<u8>>)
    ensures r == BuildRedeemScript(chain, contract, recipient, m, keys)
    ensures r.Ok? <==> 1 <= m <= |keys| <= 13
    ensures r.Ok? ==> IsRedeemScript(r.value, chain, contract, recipient, m, keys)
  {
    hide PushData, PushInt, PushAll, BE, IsRedeemScript;
    if ValidMultisig(m, |keys|) { RedeemLayout(chain, contract, recipient, m, keys); }
    if |keys| > MAX_PUBKEYS { return Err; }
    var n: u8 := |keys|;
    if m < 1 || m > n { return Err; }
    var buf := new ByteVec();
    Transaction.PushDataInline(buf, BE(2, chain));
    Transaction.PushDataInline(buf, contract);
    buf.Push(0x6d);
    Transaction.PushDataInline(buf, recipient);
    buf.Push(0x75);
    ghost var front := buf.bytes;
    assert front == PushData(BE(2, chain)) + (PushData(contract) + ([0x6d] + (PushData(recipient) + [0x75])));
    AppendInt(buf, m);
    PushKeys(buf, keys);
    AppendInt(buf, n);
    buf.Push(0xae);
    assert buf.bytes == front + AfterRecipient(m, keys);
    RedeemRegroup(chain, contract, recipient, AfterRecipient(m, keys));
    return Ok(buf.bytes);
  }

  method PushKeys(buf: ByteVec, keys: seq<PubKey>)
    modifies buf
    ensures buf.bytes == old(buf.bytes) + PushAll(keys)
  {
    hide PushData;
    for i := 0 to |keys|
      invariant buf.bytes == old(buf.bytes) + PushAll(keys[..i])
    {
      Transaction.PushAllAppend(keys[..i], keys[i]);
      assert keys[..i] + [keys[i]] == keys[..i + 1];
      Transaction.PushDataInline(buf, keys[i]);
    }
    assert keys[..|keys|] == keys;
  }

  lemma RedeemRegroup(chain: u16, contract: Hash32, recipient: Hash32, tail: seq<u8>)
    ensures PushData(BE(2, chain)) + (PushData(contract) + ([0x6d] + (PushData(recipient) + [0x75]))) + tail
         == PushData(BE(2, chain)) + (PushData(contract) + ([0x6d] + (PushData(recipient) + ([0x75] + tail))))
  {
    hide PushData;
  }

  /** A built script has 74 + 34n bytes, so with at most 13 keys it never exceeds the limit of
      BIP 16, section "520-byte limitation on serialized script size". */
  lemma RedeemLength(chain: u16, contract: Hash32, recipient: Hash32, m: u8, keys: seq<PubKey>)
    requires ValidMultisig(m, |keys|)
    ensures |RedeemBytes(chain, contract, recipient, m, keys)| == 74 + 34 * |keys|
    ensures |RedeemBytes(chain, contract, recipient, m, keys)| <= 516 < MAX_ELEMENT_SIZE
  {
    PushAllKeysLength(keys);
  }

  lemma {:induction false} PushAllKeysInjective(a: seq<PubKey>, b: seq<PubKey>)
    requires |a| == |b| && PushAll(a) == PushAll(b)
    ensures a == b
  {
    if a != [] {
      SplitEqual(PushData(a[0]), PushAll(a[1..]), PushData(b[0]), PushAll(b[1..]));
      SplitEqual(PushHeader(33), a[0], PushHeader(33), b[0]);
      PushAllKeysInjective(a[1..], b[1..]);
      assert a == [a[0]] + a[1..] && b == [b[0]] + b[1..];
    }
  }

  lemma PushSameLengthInjective(a: seq<u8>, x: seq<u8>, b: seq<u8>, y: seq<u8>)
    requires |a| == |b| && PushData(a) + x == PushData(b) + y
    ensures a == b && x == y
  {
    SplitEqual(PushData(a), x, PushData(b), y);
    SplitEqual(PushHeader(|a|), a, PushHeader(|b|), b);
  }

  lemma AfterRecipientInjective(m: u8, keys: seq<PubKey>, m': u8, keys': seq<PubKey>)
    requires ValidMultisig(m, |keys|) && ValidMultisig(m', |keys'|)
    requires AfterRecipient(m, keys) == AfterRecipient(m', keys')
    ensures m == m' && keys == keys'
  {
    PushAllKeysLength(keys);
    PushAllKeysLength(keys');
    SplitEqual(PushInt(m), PushAll(keys) + (PushInt(|keys|) + [0xae]),
               PushInt(m'), PushAll(keys') + (PushInt(|keys'|) + [0xae]));
    assert PushInt(m)[0] == PushInt(m')[0];
    SplitEqual(PushAll(keys), PushInt(|keys|) + [0xae], PushAll(keys'), PushInt(|keys'|) + [0xae]);
    PushAllKeysInjective(keys, keys');
  }

  /** Different arguments give different redeem scripts, hence different custody addresses up to
      hash collisions. */
  lemma RedeemInjective(chain: u16, contract: Hash32, recipient: Hash32, m: u8, keys: seq<PubKey>,
                        chain': u16, contract': Hash32, recipient': Hash32, m': u8, keys': seq<PubKey>)
    requires BuildRedeemScript(chain, contract, recipient, m, keys).Ok?
    requires BuildRedeemScript(chain, contract, recipient, m, keys)
          == BuildRedeemScript(chain', contract', recipient', m', keys')
    ensures chain == chain' && contract == contract' && recipient == recipient' && m == m' && keys == keys'
  {
    hide PushData;
    PowValues();
    var tail, tail' := AfterRecipient(m, keys), AfterRecipient(m', keys');
    var c, c' := PushData(recipient) + ([0x75] + tail), PushData(recipient') + ([0x75] + tail');
    var b, b' := PushData(contract) + ([0x6d] + c), PushData(contract') + ([0x6d] + c');
    PushSameLengthInjective(BE(2, chain), b, BE(2, chain'), b');
    BEInjective(2, chain, chain');
    PushSameLengthInjective(contract, [0x6d] + c, contract', [0x6d] + c');
    SplitEqual([0x6d], c, [0x6d], c');
    PushSameLengthInjective(recipient, [0x75] + tail, recipient', [0x75] + tail');
    SplitEqual([0x75], tail, [0x75], tail');
    AfterRecipientInjective(m, keys, m', keys');
  }

  // ---- Running the redeem script ----

  lemma RunSmallInt(env: Env, v: u8, rest: seq<u8>, stack: Stack)
    requires 1 <= v <= 16
    ensures Run(env, PushInt(v) + rest, stack) == Run(env, rest, stack + [[v]])
  {
    var s := PushInt(v) + rest;
    assert s[0] == 0x50 + v && s[1..] == rest;
  }

  /** The prefix that binds emitter and recipient leaves the stack as it was. */
  lemma RunPrefix(env: Env, chain: u16, contract: Hash32, recipient: Hash32, m: u8, keys: seq<PubKey>, stack: Stack)
    requires |keys| < 256
    ensures Run(env, RedeemBytes(chain, contract, recipient, m, keys), stack)
         == Run(env, AfterRecipient(m, keys), stack)
  {
    hide PushData, PushInt, AfterRecipient, Run;
    var tail := AfterRecipient(m, keys);
    var c := PushData(recipient) + ([0x75] + tail);
    var b := PushData(contract) + ([0x6d] + c);
    var chained := stack + [BE(2, chain)];
    RunPush(env, BE(2, chain), b, stack);
    RunPush(env, contract, [0x6d] + c, chained);
    assert (chained + [contract])[..|stack|] == stack;
    RunOne(env, 0x6d, c, chained + [contract]);
    RunPush(env, recipient, [0x75] + tail, stack);
    assert (stack + [recipient])[..|stack|] == stack;
    RunOne(env, 0x75, tail, stack + [recipient]);
  }

  lemma RunSuffix(env: Env, dummy: seq<u8>, sigs: seq<seq<u8>>, m: u8, keys: seq<PubKey>)
    requires ValidMultisig(m, |keys|) && |sigs| == m
    ensures Run(env, AfterRecipient(m, keys), [dummy] + sigs)
         == Some([Bool(Multisig(env.check, keys, sigs))])
  {
    hide PushData, PushInt, CheckMultisig;
    var n: u8 := |keys|;
    var below := [dummy] + sigs;
    RunSmallInt(env, m, PushAll(keys) + (PushInt(n) + [0xae]), below);
    RunPushAll(env, keys, PushInt(n) + [0xae], below + [[m]]);
    RunSmallInt(env, n, [0xae], below + [[m]] + keys);
    RunCheckMultisig(env.check, dummy, sigs, keys, m, n);
    assert [0xae][1..] == [];
  }

  /** Running a built redeem script on a dummy and m signatures amounts to the matching of the
      signatures against the keys. */
  lemma RunRedeem(env: Env, chain: u16, contract: Hash32, recipient: Hash32, m: u8, keys: seq<PubKey>,
                  dummy: seq<u8>, sigs: seq<seq<u8>>)
    requires ValidMultisig(m, |keys|) && |sigs| == m
    ensures Run(env, RedeemBytes(chain, contract, recipient, m, keys), [dummy] + sigs)
         == Some([Bool(Multisig(env.check, keys, sigs))])
  {
    RunPrefix(env, chain, contract, recipient, m, keys, [dummy] + sigs);
    RunSuffix(env, dummy, sigs, m, keys);
  }
}
