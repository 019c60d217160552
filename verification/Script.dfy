/** A reference evaluator for the part of Dogecoin Script that P2SH multisig spending and payments to
    key hashes use: data pushes, drops, DUP, HASH160, EQUAL, EQUALVERIFY, CHECKSIG and CHECKMULTISIG
    (BIP 11 and BIP 16, section "Specification"). Stacks grow to the right. Every other opcode fails. */
module Script {
  import opened Bytes
  import opened Wire
  import opened Sighash

  type Stack = seq<seq<u8>>

  const MAX_ELEMENT_SIZE := 520

  /** The hash and signature primitives, left uninterpreted. A DER signature that verifies has at
      most 72 bytes, two integers of at most 33 bytes each with their headers. */
  datatype RawCrypto = RawCrypto(
    doubleSha256: seq<u8> -> seq<u8>,
    hash160: seq<u8> -> Hash20,
    validKey: seq<u8> -> bool,
    validDer: seq<u8> -> bool,
    ecdsa: (seq<u8>, seq<u8>, seq<u8>) -> bool)

  ghost predicate SoundCrypto(c: RawCrypto)
  { forall key, digest, der :: c.ecdsa(key, digest, der) ==> |der| <= 72 && c.validKey(key) && c.validDer(der) }

  type Crypto = c: RawCrypto | SoundCrypto(c)
    ghost witness RawCrypto(_ => [], _ => seq(20, _ => 0), _ => false, _ => false, (_, _, _) => false)

  // ---- Elements as numbers and truth values ----

  function ScriptNum(s: seq<u8>): int
  {
    if s == [] then 0
    else
      var top := s[|s| - 1];
      if top < 0x80 then FromLE(s) else -(FromLE(s[|s| - 1 := top - 0x80]) as int)
  }

  /** The shortest encoding of its number: the top byte is needed for value or for sign. */
  predicate MinimalNum(s: seq<u8>)
  {
    s == [] || s[|s| - 1] % 0x80 != 0 || (|s| > 1 && s[|s| - 2] >= 0x80)
  }

  /** Any element other than a positive or negative zero. */
  predicate Truthy(s: seq<u8>)
  { exists k :: 0 <= k < |s| && s[k] != 0 && (k == |s| - 1 ==> s[k] != 0x80) }

  function Bool(b: bool): seq<u8> { if b then [1] else [] }

  // ---- Pushes ----

  function PushBytes(script: seq<u8>, skip: nat, n: nat): Option<(seq<u8>, seq<u8>)>
  {
    if |script| < skip + n || n > MAX_ELEMENT_SIZE then None
    else Some((script[skip..skip + n], script[skip + n..]))
  }

  /** The element pushed by the first opcode, and the script after it. */
  function PushStep(script: seq<u8>): Option<(seq<u8>, seq<u8>)>
  {
    if script == [] then None
    else
      var op := script[0];
      if op <= 0x4b then PushBytes(script, 1, op)
      else if op == 0x4c then (if |script| < 2 then None else PushBytes(script, 2, script[1]))
      else if op == 0x4d then (if |script| < 3 then None else PushBytes(script, 3, FromLE(script[1..3])))
      else if op == 0x4e then (if |script| < 5 then None else PushBytes(script, 5, FromLE(script[1..5])))
      else if op == 0x4f then Some(([0x81], script[1..]))
      else if 0x51 <= op <= 0x60 then Some(([op - 0x50], script[1..]))
      else None
  }

  lemma PushStepShrinks(script: seq<u8>)
    ensures PushStep(script).Some? ==> |PushStep(script).value.1| < |script|
  {}

  function RunPushes(script: seq<u8>, stack: Stack): Option<Stack>
    decreases |script|
  {
    if script == [] then Some(stack)
    else
      PushStepShrinks(script);
      match PushStep(script)
      case None => None
      case Some((element, rest)) => RunPushes(rest, stack + [element])
  }

  // ---- CHECKMULTISIG ----

  /** The matching of CHECKMULTISIG: from the last key and the last signature backwards, a
      signature that does not fit the current key waits for the next one. */
  predicate Multisig(check: (seq<u8>, seq<u8>) -> bool, keys: seq<seq<u8>>, sigs: seq<seq<u8>>)
    decreases |keys|
  {
    if sigs == [] then true
    else if |sigs| > |keys| then false
    else if check(keys[|keys| - 1], sigs[|sigs| - 1]) then
      Multisig(check, keys[..|keys| - 1], sigs[..|sigs| - 1])
    else Multisig(check, keys[..|keys| - 1], sigs)
  }

  /** Signature `k` belongs to key `f[k]`, and keys are used in order. */
  ghost predicate Matching(check: (seq<u8>, seq<u8>) -> bool, keys: seq<seq<u8>>, sigs: seq<seq<u8>>, f: seq<nat>)
  {
    && |f| == |sigs|
    && (forall k :: 0 <= k < |f| ==> f[k] < |keys| && check(keys[f[k]], sigs[k]))
    && (forall j, k :: 0 <= j < k < |f| ==> f[j] < f[k])
  }

  /** The greedy matching finds an order-preserving assignment of keys whenever there is one. */
  lemma {:induction false} MatchingSuffices(check: (seq<u8>, seq<u8>) -> bool, keys: seq<seq<u8>>,
                                            sigs: seq<seq<u8>>, f: seq<nat>)
    requires Matching(check, keys, sigs, f)
    ensures Multisig(check, keys, sigs)
    decreases |keys|
  {
    if sigs != [] {
      MatchingLength(check, keys, sigs, f);
      var s := |sigs| - 1;
      if check(keys[|keys| - 1], sigs[s]) {
        MatchingSuffices(check, keys[..|keys| - 1], sigs[..s], f[..s]);
      } else {
        assert f[s] < |keys| - 1;
        MatchingSuffices(check, keys[..|keys| - 1], sigs, f);
      }
    }
  }

  lemma {:induction false} StrictlyIncreasingSpread(f: seq<nat>, k: nat)
    requires forall i, j :: 0 <= i < j < |f| ==> f[i] < f[j]
    requires k < |f|
    ensures f[k] >= k
  {
    if k > 0 { StrictlyIncreasingSpread(f, k - 1); }
  }

  lemma MatchingLength(check: (seq<u8>, seq<u8>) -> bool, keys: seq<seq<u8>>, sigs: seq<seq<u8>>, f: seq<nat>)
    requires Matching(check, keys, sigs, f)
    ensures |sigs| <= |keys|
  {
    if sigs != [] { StrictlyIncreasingSpread(f, |f| - 1); }
  }

  lemma {:induction false} MultisigMatches(check: (seq<u8>, seq<u8>) -> bool, keys: seq<seq<u8>>,
                                           sigs: seq<seq<u8>>) returns (f: seq<nat>)
    requires Multisig(check, keys, sigs)
    ensures Matching(check, keys, sigs, f)
    decreases |keys|
  {
    if sigs == [] {
      f := [];
    } else if check(keys[|keys| - 1], sigs[|sigs| - 1]) {
      f := MultisigMatches(check, keys[..|keys| - 1], sigs[..|sigs| - 1]);
      f := f + [|keys| - 1];
    } else {
      f := MultisigMatches(check, keys[..|keys| - 1], sigs);
    }
  }

  /** Greedy CHECKMULTISIG is complete: it succeeds exactly when some order-preserving
      assignment of distinct keys to the signatures verifies. */
  lemma MultisigIffMatching(check: (seq<u8>, seq<u8>) -> bool, keys: seq<seq<u8>>, sigs: seq<seq<u8>>)
    ensures Multisig(check, keys, sigs) <==> exists f :: Matching(check, keys, sigs, f)
  {
    if Multisig(check, keys, sigs) {
      var f := MultisigMatches(check, keys, sigs);
    }
    if f :| Matching(check, keys, sigs, f) {
      MatchingSuffices(check, keys, sigs, f);
    }
  }

  /** Pops a count of at most `limit` and then that many elements. */
  function PopCounted(stack: Stack, limit: nat): Option<(seq<seq<u8>>, Stack)>
  {
    if stack == [] || |stack[|stack| - 1]| > 4 then None
    else
      var n := ScriptNum(stack[|stack| - 1]);
      var below := stack[..|stack| - 1];
      if n < 0 || n > limit || |below| < n then None
      else Some((below[|below| - n..], below[..|below| - n]))
  }

  /** Pops n, n keys, m, m signatures and the dummy element; pushes the outcome. */
  function CheckMultisig(check: (seq<u8>, seq<u8>) -> bool, stack: Stack): Option<Stack>
  {
    match PopCounted(stack, 20)
    case None => None
    case Some((keys, rest)) =>
      match PopCounted(rest, |keys|)
      case None => None
      case Some((sigs, below)) =>
        if below == [] then None
        else Some(below[..|below| - 1] + [Bool(Multisig(check, keys, sigs))])
  }

  // ---- Scripts ----

  /** What a script may ask of its context: the signature check and the hash. */
  datatype Env = Env(check: (seq<u8>, seq<u8>) -> bool, hash160: seq<u8> -> Hash20)

  function Operate(env: Env, op: u8, stack: Stack): Option<Stack>
  {
    var n := |stack|;
    if op == 0x6d then (if n < 2 then None else Some(stack[..n - 2]))
    else if op == 0x75 then (if n < 1 then None else Some(stack[..n - 1]))
    else if op == 0x76 then (if n < 1 then None else Some(stack + [stack[n - 1]]))
    else if op == 0x87 then
      (if n < 2 then None else Some(stack[..n - 2] + [Bool(stack[n - 1] == stack[n - 2])]))
    else if op == 0x88 then
      (if n < 2 || stack[n - 1] != stack[n - 2] then None else Some(stack[..n - 2]))
    else if op == 0xa9 then
      (if n < 1 then None else Some(stack[..n - 1] + [env.hash160(stack[n - 1])]))
    else if op == 0xac then
      (if n < 2 then None else Some(stack[..n - 2] + [Bool(env.check(stack[n - 1], stack[n - 2]))]))
    else if op == 0xae then CheckMultisig(env.check, stack)
    else None
  }

  function Run(env: Env, script: seq<u8>, stack: Stack): Option<Stack>
    decreases |script|
  {
    if script == [] then Some(stack)
    else if script[0] <= 0x60 then
      PushStepShrinks(script);
      match PushStep(script)
      case None => None
      case Some((element, rest)) => Run(env, rest, stack + [element])
    else
      match Operate(env, script[0], stack)
      case None => None
      case Some(next) => Run(env, script[1..], next)
  }

  // ---- Spending a P2SH output ----

  /** The SIGHASH_ALL preimage as consensus defines it, on the transaction that is being
      validated: its own scriptSigs blanked, the script code in the signed position. */
  function ConsensusPreimage(t: Tx, index: nat, scriptCode: seq<u8>): seq<u8>
  {
    var blanked := seq(|t.inputs|, k requires 0 <= k < |t.inputs| =>
                         t.inputs[k].(scriptSig := if k == index then scriptCode else []));
    SerializeTransaction(t.version, blanked, t.outputs, t.locktime) + LE(4, SIGHASH_ALL)
  }

  /** One signature check during validation; the last signature byte is the hash type. */
  function CheckSig(c: Crypto, t: Tx, index: nat, scriptCode: seq<u8>): (seq<u8>, seq<u8>) -> bool
  {
    var digest := c.doubleSha256(ConsensusPreimage(t, index, scriptCode));
    (key, sig) => sig != [] && sig[|sig| - 1] == SIGHASH_ALL && c.ecdsa(key, digest, sig[..|sig| - 1])
  }

  /** BIP 16: the scriptSig only pushes; its last element must hash to the output's script hash
      and is then run itself on the elements below. The result is the final stack. */
  function EvaluateP2sh(c: Crypto, t: Tx, index: nat, scriptHash: Hash20): Option<Stack>
    requires index < |t.inputs|
  {
    match RunPushes(t.inputs[index].scriptSig, [])
    case None => None
    case Some(pushed) =>
      if pushed == [] then None
      else
        var redeem := pushed[|pushed| - 1];
        var env := Env(CheckSig(c, t, index, redeem), c.hash160);
        match Run(env, P2shScript(scriptHash), pushed)
        case None => None
        case Some(outer) =>
          if outer == [] || !Truthy(outer[|outer| - 1]) then None
          else Run(env, redeem, pushed[..|pushed| - 1])
  }

  /** The spend is valid and leaves exactly one true element. */
  predicate Spends(c: Crypto, t: Tx, index: nat, scriptHash: Hash20)
    requires index < |t.inputs|
  { EvaluateP2sh(c, t, index, scriptHash) == Some([Bool(true)]) }

  /** Spending an output that pays a key hash: the scriptSig's elements, then the output's script. */
  predicate SpendsKeyHash(c: Crypto, t: Tx, index: nat, scriptPubkey: seq<u8>)
    requires index < |t.inputs|
  {
    match RunPushes(t.inputs[index].scriptSig, [])
    case None => false
    case Some(pushed) =>
      Run(Env(CheckSig(c, t, index, scriptPubkey), c.hash160), scriptPubkey, pushed) == Some([Bool(true)])
  }

  // ---- Running pushes ----

  lemma PushStepData(data: seq<u8>, rest: seq<u8>)
    requires |data| <= MAX_ELEMENT_SIZE
    ensures PushStep(PushData(data) + rest) == Some((data, rest))
  {
    var s, h := PushData(data) + rest, |PushHeader(|data|)|;
    assert s[h..h + |data|] == data && s[h + |data|..] == rest;
    if |data| > 0xff {
      PowValues();
      assert s[1..3] == LE(2, |data|);
      DecodeLE(2, |data|);
    }
  }

  lemma {:induction false} RunPushesAll(items: seq<seq<u8>>, rest: seq<u8>, stack: Stack)
    requires forall k :: 0 <= k < |items| ==> |items[k]| <= MAX_ELEMENT_SIZE
    ensures RunPushes(PushAll(items) + rest, stack) == RunPushes(rest, stack + items)
  {
    hide PushData, PushStep;
    if items == [] {
      assert PushAll(items) + rest == rest && stack + items == stack;
    } else {
      var tail := PushAll(items[1..]) + rest;
      assert PushAll(items) + rest == PushData(items[0]) + tail;
      PushStepData(items[0], tail);
      RunPushesAll(items[1..], rest, stack + [items[0]]);
      assert stack + [items[0]] + items[1..] == stack + items;
    }
  }

  lemma RunPush(env: Env, data: seq<u8>, rest: seq<u8>, stack: Stack)
    requires |data| <= MAX_ELEMENT_SIZE
    ensures Run(env, PushData(data) + rest, stack) == Run(env, rest, stack + [data])
  {
    hide PushStep;
    PushStepData(data, rest);
  }

  lemma {:induction false} RunPushAll(env: Env, items: seq<seq<u8>>, rest: seq<u8>, stack: Stack)
    requires forall k :: 0 <= k < |items| ==> |items[k]| <= MAX_ELEMENT_SIZE
    ensures Run(env, PushAll(items) + rest, stack) == Run(env, rest, stack + items)
  {
    hide PushData, PushStep, Operate;
    if items == [] {
      assert PushAll(items) + rest == rest && stack + items == stack;
    } else {
      var tail := PushAll(items[1..]) + rest;
      assert PushAll(items) + rest == PushData(items[0]) + tail;
      RunPush(env, items[0], tail, stack);
      RunPushAll(env, items[1..], rest, stack + [items[0]]);
      assert stack + [items[0]] + items[1..] == stack + items;
    }
  }

  /** The P2SH output script accepts a stack exactly when its top hashes to the script hash. */
  lemma RunP2sh(env: Env, stack: Stack, hash: Hash20)
    requires stack != []
    ensures Run(env, P2shScript(hash), stack)
         == Some(stack[..|stack| - 1] + [Bool(hash == env.hash160(stack[|stack| - 1]))])
  {
    var below, top := stack[..|stack| - 1], stack[|stack| - 1];
    var tail := PushData(hash) + [0x87];
    assert P2shScript(hash) == [0xa9] + tail;
    assert (([0xa9] + tail)[1..]) == tail;
    RunPush(env, hash, [0x87], below + [env.hash160(top)]);
    assert (below + [env.hash160(top)] + [hash])[..|below|] == below;
    assert [0x87][1..] == [];
  }

  lemma RunOne(env: Env, op: u8, rest: seq<u8>, stack: Stack)
    requires op > 0x60
    ensures Run(env, [op] + rest, stack)
         == match Operate(env, op, stack) case None => None case Some(next) => Run(env, rest, next)
  {
    assert ([op] + rest)[1..] == rest;
  }

  /** The P2PKH output script on a signature and a key: it fails unless the key hashes to the output's
      hash, and otherwise leaves whether the signature checks. */
  lemma RunP2pkh(env: Env, sig: seq<u8>, key: seq<u8>, hash: Hash20)
    ensures Run(env, P2pkhScript(hash), [sig, key])
         == if env.hash160(key) == hash then Some([Bool(env.check(key, sig))]) else None
  {
    hide Run, CheckMultisig;
    var hashed := env.hash160(key);
    var a := PushData(hash) + [0x88, 0xac];
    assert P2pkhScript(hash) == [0x76] + ([0xa9] + a) && PushData(hash) == [0x14] + hash;
    RunOne(env, 0x76, [0xa9] + a, [sig, key]);
    assert [sig, key] + [key] == [sig, key, key];
    RunOne(env, 0xa9, a, [sig, key, key]);
    assert [sig, key, key][..2] + [hashed] == [sig, key, hashed];
    RunPush(env, hash, [0x88, 0xac], [sig, key, hashed]);
    assert [sig, key, hashed] + [hash] == [sig, key, hashed, hash] && [0x88, 0xac] == [0x88] + [0xac];
    RunOne(env, 0x88, [0xac], [sig, key, hashed, hash]);
    assert [sig, key, hashed, hash][..2] == [sig, key] && [0xac] + [] == [0xac];
    RunOne(env, 0xac, [], [sig, key]);
    assert [sig, key][..0] + [Bool(env.check(key, sig))] == [Bool(env.check(key, sig))];
    RunNothing(env, [Bool(env.check(key, sig))]);
  }

  lemma RunNothing(env: Env, stack: Stack)
    ensures Run(env, [], stack) == Some(stack)
  {}

  /** A payment to a key hash is spent by a signature and a key exactly if the key hashes to the
      recipient and the signature is a valid SIGHASH_ALL signature of the spending input under it. */
  lemma KeyHashIffRecipient(c: Crypto, t: Tx, i: nat, hash: Hash20, sig: seq<u8>, key: seq<u8>)
    requires i < |t.inputs| && t.inputs[i].scriptSig == PushData(sig) + PushData(key)
    requires |sig| <= MAX_ELEMENT_SIZE && |key| <= MAX_ELEMENT_SIZE
    ensures SpendsKeyHash(c, t, i, P2pkhScript(hash)) <==>
              c.hash160(key) == hash && sig != [] && sig[|sig| - 1] == SIGHASH_ALL
              && c.ecdsa(key, c.doubleSha256(ConsensusPreimage(t, i, P2pkhScript(hash))), sig[..|sig| - 1])
  {
    hide Run, ConsensusPreimage, PushData, PushStep, P2pkhScript;
    PushesTwo(sig, key);
    RunP2pkh(Env(CheckSig(c, t, i, P2pkhScript(hash)), c.hash160), sig, key, hash);
    assert Bool(true)[0] == 1 && |Bool(false)| == 0;
  }

  lemma PushesTwo(a: seq<u8>, b: seq<u8>)
    requires |a| <= MAX_ELEMENT_SIZE && |b| <= MAX_ELEMENT_SIZE
    ensures RunPushes(PushData(a) + PushData(b), []) == Some([a, b])
  {
    hide PushData, PushStep;
    RunPushesAll([a, b], [], []);
    assert [a, b][1..] == [b] && [b][1..] == [];
    assert PushAll([b]) == PushData(b) + PushAll([]);
    assert PushAll([a, b]) == PushData(a) + PushAll([b]);
    assert PushAll([a, b]) + [] == PushData(a) + PushData(b);
    assert [] + [a, b] == [a, b];
  }

  lemma SmallNum(n: u8)
    requires n < 0x80
    ensures ScriptNum([n]) == n
  {
    assert FromLE([n][1..]) == 0;
  }

  lemma PopCountedItems(below: Stack, items: seq<seq<u8>>, n: u8, limit: nat)
    requires |items| == n <= limit && n < 0x80
    ensures PopCounted(below + items + [[n]], limit) == Some((items, below))
  {
    hide ScriptNum;
    SmallNum(n);
    var stack := below + items + [[n]];
    assert stack[|stack| - 1] == [n] && stack[..|stack| - 1] == below + items;
    assert (below + items)[|below|..] == items && (below + items)[..|below|] == below;
  }

  /** Running CHECKMULTISIG on a stack laid out as the redeem script leaves it. */
  lemma RunCheckMultisig(check: (seq<u8>, seq<u8>) -> bool, dummy: seq<u8>, sigs: seq<seq<u8>>, keys: seq<seq<u8>>,
                         m: u8, n: u8)
    requires 1 <= m <= n <= 16 && |sigs| == m && |keys| == n
    ensures CheckMultisig(check, [dummy] + sigs + [[m]] + keys + [[n]]) == Some([Bool(Multisig(check, keys, sigs))])
  {
    hide PopCounted, Multisig;
    PopCountedItems([dummy] + sigs + [[m]], keys, n, 20);
    PopCountedItems([dummy], sigs, m, n);
    assert [dummy][..0] + [Bool(Multisig(check, keys, sigs))] == [Bool(Multisig(check, keys, sigs))];
  }
}
