/** Applying Manager signatures, and the end-to-end guarantee: whatever is applied spends. */
module Signing {
  import opened Bytes
  import opened Wire
  import opened Sighash
  import opened Script
  import opened Redeem
  import opened Transaction

  datatype SignerSignatures = SignerSignatures(signerIndex: u8, inputSignatures: seq<seq<u8>>)
  datatype ManagerSet = ManagerSet(m: u8, n: u8, pubkeys: seq<PubKey>)

  type Entry = (u8, seq<u8>)

  /** Fails on anything that is not a SIGHASH_ALL signature under a well-formed key. */
  function VerifyManagerSignature(c: Crypto, key: PubKey, digest: seq<u8>, signature: seq<u8>): Result<bool>
  {
    if signature == [] then Err
    else
      var der := signature[..|signature| - 1];
      if signature[|signature| - 1] != SIGHASH_ALL || !c.validKey(key) || !c.validDer(der) then Err
      else Ok(c.ecdsa(key, digest, der))
  }

  function Digest(c: Crypto, t: Tx, index: nat): seq<u8>
    requires index < |t.inputs| && index < |t.redeemScripts|
  { c.doubleSha256(Preimage(t, index, SIGHASH_ALL).value) }

  // ---- What is accepted ----

  ghost predicate ValidSigner(c: Crypto, t: Tx, keys: seq<PubKey>, signer: SignerSignatures)
    requires |t.redeemScripts| >= |t.inputs|
  {
    && signer.signerIndex < |keys|
    && |signer.inputSignatures| == |t.inputs|
    && forall i :: 0 <= i < |t.inputs| ==>
         VerifyManagerSignature(c, keys[signer.signerIndex], Digest(c, t, i), signer.inputSignatures[i]) == Ok(true)
  }

  ghost predicate Distinct(signers: seq<SignerSignatures>)
  { forall j, k :: 0 <= j < k < |signers| ==> signers[j].signerIndex != signers[k].signerIndex }

  /** Distinct signers, every one of whose signatures verifies, and enough of them. */
  ghost predicate Accepts(c: Crypto, t: Tx, ms: ManagerSet, signers: seq<SignerSignatures>)
  {
    && |t.redeemScripts| >= |t.inputs|
    && Distinct(signers)
    && (forall k :: 0 <= k < |signers| ==> ValidSigner(c, t, ms.pubkeys, signers[k]))
    && (t.inputs == [] || |signers| >= ms.m)
  }

  // ---- What is applied ----

  function Entries(signers: seq<SignerSignatures>, input: nat): (r: seq<Entry>)
    requires forall k :: 0 <= k < |signers| ==> input < |signers[k].inputSignatures|
    ensures |r| == |signers|
  {
    if signers == [] then []
    else
      var last := signers[|signers| - 1];
      Entries(signers[..|signers| - 1], input) + [(last.signerIndex, last.inputSignatures[input])]
  }

  function InsertEntry(s: seq<Entry>, x: Entry): seq<Entry>
  {
    if s == [] then [x]
    else if x.0 < s[|s| - 1].0 then InsertEntry(s[..|s| - 1], x) + [s[|s| - 1]]
    else s + [x]
  }

  /** A stable sort by signer index. */
  function SortEntries(s: seq<Entry>): seq<Entry>
  { if s == [] then [] else InsertEntry(SortEntries(s[..|s| - 1]), s[|s| - 1]) }

  function TakeSignatures(s: seq<Entry>, m: nat): (r: seq<seq<u8>>)
    ensures |r| == if m <= |s| then m else |s|
    ensures forall k :: 0 <= k < |r| ==> r[k] == s[k].1
  { seq(if m <= |s| then m else |s|, k requires 0 <= k < |s| => s[k].1) }

  /** The m signatures of lowest signer index for one input. */
  function Selected(ms: ManagerSet, signers: seq<SignerSignatures>, input: nat): seq<seq<u8>>
    requires forall k :: 0 <= k < |signers| ==> input < |signers[k].inputSignatures|
  { TakeSignatures(SortEntries(Entries(signers, input)), ms.m) }

  ghost predicate Uniform(signers: seq<SignerSignatures>, inputs: nat)
  { forall k :: 0 <= k < |signers| ==> |signers[k].inputSignatures| == inputs }

  /** `u` is `t` with the selected signatures and the redeem script in the first `n` scriptSigs. */
  ghost predicate SignedUpTo(t: Tx, ms: ManagerSet, signers: seq<SignerSignatures>, u: Tx, n: nat)
    requires |t.redeemScripts| >= |t.inputs| && Uniform(signers, |t.inputs|)
  {
    && SameButScriptSigs(t, u)
    && forall i :: 0 <= i < |t.inputs| ==>
         u.inputs[i].scriptSig == if i < n then ScriptSig(Selected(ms, signers, i), t.redeemScripts[i])
                                  else t.inputs[i].scriptSig
  }

  lemma AcceptedIsUniform(c: Crypto, t: Tx, ms: ManagerSet, signers: seq<SignerSignatures>)
    requires Accepts(c, t, ms, signers)
    ensures |t.redeemScripts| >= |t.inputs| && Uniform(signers, |t.inputs|)
  {
    hide Digest;
  }

  /** The signed transaction: every scriptSig in place. */
  ghost function Applied(t: Tx, ms: ManagerSet, signers: seq<SignerSignatures>): Tx
    requires |t.redeemScripts| >= |t.inputs| && Uniform(signers, |t.inputs|)
  {
    t.(inputs := seq(|t.inputs|, i requires 0 <= i < |t.inputs| =>
                     t.inputs[i].(scriptSig := ScriptSig(Selected(ms, signers, i), t.redeemScripts[i]))))
  }

  lemma SignedIffApplied(t: Tx, ms: ManagerSet, signers: seq<SignerSignatures>, u: Tx)
    requires |t.redeemScripts| >= |t.inputs| && Uniform(signers, |t.inputs|)
    ensures SignedUpTo(t, ms, signers, u, |t.inputs|) <==> u == Applied(t, ms, signers)
  {
    hide ScriptSig, Selected;
    if SignedUpTo(t, ms, signers, u, |t.inputs|) { assert u.inputs == Applied(t, ms, signers).inputs; }
  }

  method CollectSigner(c: Crypto, tx: UnsignedTransaction, digests: seq<seq<u8>>, ms: ManagerSet,
                       signer: SignerSignatures, perInput: seq<seq<Entry>>) returns (r: Result<seq<seq<Entry>>>)
    requires |tx.redeemScripts| >= |tx.inputs| == |digests| == |perInput|
    requires forall i :: 0 <= i < |digests| ==> digests[i] == Digest(c, tx.Value(), i)
    ensures r.Ok? <==> ValidSigner(c, tx.Value(), ms.pubkeys, signer)
    ensures r.Ok? ==> |r.value| == |perInput|
    ensures r.Ok? ==> forall i :: 0 <= i < |perInput| ==>
              r.value[i] == perInput[i] + [(signer.signerIndex, signer.inputSignatures[i])]
  {
    hide Digest;
    if signer.signerIndex >= |ms.pubkeys| { return Err; }
    var key := ms.pubkeys[signer.signerIndex];
    if |signer.inputSignatures| != |tx.inputs| { return Err; }
    var collected := perInput;
    for i := 0 to |signer.inputSignatures|
      invariant |collected| == |perInput|
      invariant forall k :: 0 <= k < i ==>
        VerifyManagerSignature(c, key, digests[k], signer.inputSignatures[k]) == Ok(true)
      invariant forall k :: 0 <= k < |collected| ==>
        collected[k] == if k < i then perInput[k] + [(signer.signerIndex, signer.inputSignatures[k])] else perInput[k]
    {
      var valid :- VerifyManagerSignature(c, key, digests[i], signer.inputSignatures[i]);
      if !valid { return Err; }
      collected := collected[i := collected[i] + [(signer.signerIndex, signer.inputSignatures[i])]];
    }
    return Ok(collected);
  }

  method Digests(c: Crypto, tx: UnsignedTransaction) returns (r: Result<seq<seq<u8>>>)
    ensures r.Ok? <==> |tx.redeemScripts| >= |tx.inputs|
    ensures r.Ok? ==> |r.value| == |tx.inputs|
    ensures r.Ok? ==> forall i :: 0 <= i < |tx.inputs| ==> r.value[i] == Digest(c, tx.Value(), i)
  {
    var digests: seq<seq<u8>> := [];
    for i := 0 to |tx.inputs|
      invariant |digests| == i <= |tx.redeemScripts|
      invariant forall k :: 0 <= k < i ==> digests[k] == Digest(c, tx.Value(), k)
    {
      var preimage :- tx.SighashPreimage(i, SIGHASH_ALL);
      digests := digests + [c.doubleSha256(preimage)];
    }
    return Ok(digests);
  }

  lemma EntriesStep(signers: seq<SignerSignatures>, n: nat, input: nat)
    requires n < |signers|
    requires forall k :: 0 <= k <= n ==> input < |signers[k].inputSignatures|
    ensures Entries(signers[..n + 1], input)
         == Entries(signers[..n], input) + [(signers[n].signerIndex, signers[n].inputSignatures[input])]
  {
    assert signers[..n + 1][..n] == signers[..n];
  }

  function Indices(signers: seq<SignerSignatures>): set<u8>
  { set k | 0 <= k < |signers| :: signers[k].signerIndex }

  lemma SeenStep(signers: seq<SignerSignatures>, k: nat)
    requires k < |signers|
    ensures Indices(signers[..k + 1]) == Indices(signers[..k]) + {signers[k].signerIndex}
    ensures Distinct(signers[..k]) && signers[k].signerIndex !in Indices(signers[..k]) ==> Distinct(signers[..k + 1])
    ensures signers[k].signerIndex in Indices(signers[..k]) ==> !Distinct(signers)
  {
    assert forall j :: 0 <= j < k ==> signers[..k][j] == signers[j] == signers[..k + 1][j];
    assert signers[..k + 1][k] == signers[k];
    assert forall j :: 0 <= j < k ==> signers[j].signerIndex in Indices(signers[..k]);
  }

  /** Per input, the entries of all signers so far. */
  ghost predicate Collected(perInput: seq<seq<Entry>>, signers: seq<SignerSignatures>, inputs: nat)
  {
    && Uniform(signers, inputs) && |perInput| == inputs
    && forall i :: 0 <= i < inputs ==> perInput[i] == Entries(signers, i)
  }

  lemma CollectedStart(signers: seq<SignerSignatures>, inputs: nat, none: seq<seq<Entry>>)
    requires |none| == inputs && forall i :: 0 <= i < inputs ==> none[i] == []
    ensures Collected(none, signers[..0], inputs) && Distinct(signers[..0]) && Indices(signers[..0]) == {}
  {}

  lemma CollectedStep(signers: seq<SignerSignatures>, k: nat, inputs: nat, perInput: seq<seq<Entry>>,
                      next: seq<seq<Entry>>)
    requires k < |signers| && Collected(perInput, signers[..k], inputs) && |signers[k].inputSignatures| == inputs
    requires |next| == inputs
    requires forall i :: 0 <= i < inputs ==>
             next[i] == perInput[i] + [(signers[k].signerIndex, signers[k].inputSignatures[i])]
    ensures Collected(next, signers[..k + 1], inputs)
  {
    assert forall j :: 0 <= j < k ==> signers[..k][j] == signers[j];
    forall i | 0 <= i < inputs ensures next[i] == Entries(signers[..k + 1], i) { EntriesStep(signers, k, i); }
  }

  /** Collects, per input, the verified signatures of all signers. */
  method CollectAll(c: Crypto, tx: UnsignedTransaction, digests: seq<seq<u8>>, ms: ManagerSet,
                    signers: seq<SignerSignatures>) returns (r: Result<seq<seq<Entry>>>)
    requires |tx.redeemScripts| >= |tx.inputs| == |digests|
    requires forall i :: 0 <= i < |digests| ==> digests[i] == Digest(c, tx.Value(), i)
    ensures r.Ok? <==> Distinct(signers) && forall k :: 0 <= k < |signers| ==>
            ValidSigner(c, tx.Value(), ms.pubkeys, signers[k])
    ensures r.Ok? ==> Collected(r.value, signers, |tx.inputs|)
  {
    hide Digest, Distinct, Indices, Collected, ValidSigner;
    var seen: set<u8> := {};
    var perInput := seq(|digests|, _ => []);
    CollectedStart(signers, |digests|, perInput);
    for k := 0 to |signers|
      invariant |perInput| == |digests|
      invariant seen == Indices(signers[..k]) && Distinct(signers[..k])
      invariant forall j :: 0 <= j < k ==> ValidSigner(c, tx.Value(), ms.pubkeys, signers[j])
      invariant Collected(perInput, signers[..k], |digests|)
    {
      SeenStep(signers, k);
      if signers[k].signerIndex in seen { return Err; }
      seen := seen + {signers[k].signerIndex};
      var next :- CollectSigner(c, tx, digests, ms, signers[k], perInput);
      SignsAll(c, tx.Value(), ms.pubkeys, signers[k]);
      CollectedStep(signers, k, |digests|, perInput, next);
      perInput := next;
    }
    assert signers[..|signers|] == signers;
    return Ok(perInput);
  }

  lemma SignsAll(c: Crypto, t: Tx, keys: seq<PubKey>, signer: SignerSignatures)
    requires |t.redeemScripts| >= |t.inputs| && ValidSigner(c, t, keys, signer)
    ensures |signer.inputSignatures| == |t.inputs|
  {
    hide Digest;
  }

  /** Verifies every signature before anything is applied: on failure the transaction is
      untouched, on success every input carries its m lowest-indexed signatures. */
  method ApplyManagerSignatures(c: Crypto, tx: UnsignedTransaction, ms: ManagerSet, signers: seq<SignerSignatures>)
    returns (r: Result<()>)
    modifies tx
    ensures r.Ok? <==> Accepts(c, old(tx.Value()), ms, signers)
    ensures r.Err? ==> tx.Value() == old(tx.Value())
    ensures r.Ok? ==> Uniform(signers, |old(tx.inputs)|)
    ensures r.Ok? ==> SignedUpTo(old(tx.Value()), ms, signers, tx.Value(), |old(tx.inputs)|)
  {
    var digests :- Digests(c, tx);
    var perInput :- CollectAll(c, tx, digests, ms, signers);
    hide ScriptSig, SortEntries, Digest, ValidSigner, Distinct;
    r := ApplySelected(tx, ms, signers, perInput);
  }

  lemma SignedStart(t: Tx, ms: ManagerSet, signers: seq<SignerSignatures>)
    requires |t.redeemScripts| >= |t.inputs| && Uniform(signers, |t.inputs|)
    ensures SignedUpTo(t, ms, signers, t, 0)
  {
    hide ScriptSig, Selected;
  }

  lemma SignedStep(t: Tx, ms: ManagerSet, signers: seq<SignerSignatures>, u: Tx, i: nat)
    requires |t.redeemScripts| >= |t.inputs| && Uniform(signers, |t.inputs|)
    requires SignedUpTo(t, ms, signers, u, i) && i < |t.inputs|
    ensures var applied := Sighash.ApplyScriptSig(u, i, Selected(ms, signers, i));
            applied.Ok? && SignedUpTo(t, ms, signers, applied.value, i + 1)
  {
    hide ScriptSig, Selected;
  }

  method ApplySelected(tx: UnsignedTransaction, ms: ManagerSet, ghost signers: seq<SignerSignatures>,
                       perInput: seq<seq<Entry>>) returns (r: Result<()>)
    requires |tx.redeemScripts| >= |tx.inputs| && Collected(perInput, signers, |tx.inputs|)
    modifies tx
    ensures r.Ok? <==> old(tx.inputs) == [] || |signers| >= ms.m
    ensures r.Err? ==> tx.Value() == old(tx.Value())
    ensures r.Ok? ==> SignedUpTo(old(tx.Value()), ms, signers, tx.Value(), |old(tx.inputs)|)
  {
    hide SignedUpTo, Sighash.ApplyScriptSig, SortEntries, TakeSignatures;
    ghost var t := tx.Value();
    SignedStart(t, ms, signers);
    for i := 0 to |perInput|
      invariant i == 0 ==> tx.Value() == t
      invariant i > 0 ==> |signers| >= ms.m
      invariant SignedUpTo(t, ms, signers, tx.Value(), i)
    {
      SignedStep(t, ms, signers, tx.Value(), i);
      var entries := SortEntries(perInput[i]);
      SortKeepsLength(perInput[i]);
      if |entries| < ms.m { return Err; }
      var applied := tx.ApplyScriptSig(i, TakeSignatures(entries, ms.m));
      assert applied.Ok?;
    }
    return Ok(());
  }

  lemma {:induction false} InsertKeepsLength(s: seq<Entry>, x: Entry)
    ensures |InsertEntry(s, x)| == |s| + 1
  {
    if s != [] && x.0 < s[|s| - 1].0 { InsertKeepsLength(s[..|s| - 1], x); }
  }

  lemma {:induction false} SortKeepsLength(s: seq<Entry>)
    ensures |SortEntries(s)| == |s|
  {
    if s != [] {
      SortKeepsLength(s[..|s| - 1]);
      InsertKeepsLength(SortEntries(s[..|s| - 1]), s[|s| - 1]);
    }
  }

  // ---- Sorting yields an order-preserving choice of signers ----

  ghost predicate Ascending(s: seq<Entry>)
  { forall j, k :: 0 <= j < k < |s| ==> s[j].0 < s[k].0 }

  lemma {:induction false} InsertMember(s: seq<Entry>, x: Entry, e: Entry)
    ensures e in InsertEntry(s, x) <==> e in s || e == x
  {
    if s != [] {
      assert s == s[..|s| - 1] + [s[|s| - 1]];
      InsertMember(s[..|s| - 1], x, e);
    }
  }

  lemma {:induction false} SortMember(s: seq<Entry>, e: Entry)
    ensures e in SortEntries(s) <==> e in s
  {
    if s != [] {
      assert s == s[..|s| - 1] + [s[|s| - 1]];
      SortMember(s[..|s| - 1], e);
      InsertMember(SortEntries(s[..|s| - 1]), s[|s| - 1], e);
    }
  }

  lemma {:induction false} InsertAscending(s: seq<Entry>, x: Entry)
    requires Ascending(s) && forall k :: 0 <= k < |s| ==> s[k].0 != x.0
    ensures Ascending(InsertEntry(s, x))
  {
    if s != [] && x.0 < s[|s| - 1].0 {
      var front, last := s[..|s| - 1], s[|s| - 1];
      InsertAscending(front, x);
      var r := InsertEntry(front, x);
      forall i | 0 <= i < |r| ensures r[i].0 < last.0 {
        InsertMember(front, x, r[i]);
        if r[i] != x { var k :| 0 <= k < |front| && front[k] == r[i]; }
      }
    }
  }

  lemma {:induction false} SortAscending(s: seq<Entry>)
    requires forall j, k :: 0 <= j < k < |s| ==> s[j].0 != s[k].0
    ensures Ascending(SortEntries(s))
  {
    if s != [] {
      var front, last := s[..|s| - 1], s[|s| - 1];
      SortAscending(front);
      var sorted := SortEntries(front);
      forall i | 0 <= i < |sorted| ensures sorted[i].0 != last.0 {
        SortMember(front, sorted[i]);
        var k :| 0 <= k < |front| && front[k] == sorted[i];
      }
      InsertAscending(sorted, last);
    }
  }

  lemma {:induction false} EntriesAt(signers: seq<SignerSignatures>, input: nat, k: nat)
    requires forall j :: 0 <= j < |signers| ==> input < |signers[j].inputSignatures|
    requires k < |signers|
    ensures Entries(signers, input)[k] == (signers[k].signerIndex, signers[k].inputSignatures[input])
  {
    if k < |signers| - 1 { EntriesAt(signers[..|signers| - 1], input, k); }
  }

  /** The selected signatures match the Manager keys in script order. */
  lemma SelectedMatch(c: Crypto, t: Tx, ms: ManagerSet, signers: seq<SignerSignatures>, i: nat,
                      check: (seq<u8>, seq<u8>) -> bool)
    requires Accepts(c, t, ms, signers) && i < |t.inputs|
    requires forall key: PubKey, sig :: VerifyManagerSignature(c, key, Digest(c, t, i), sig) == Ok(true) ==>
             check(key, sig)
    ensures |Selected(ms, signers, i)| == ms.m
    ensures Multisig(check, ms.pubkeys, Selected(ms, signers, i))
    ensures forall k :: 0 <= k < ms.m ==> |Selected(ms, signers, i)[k]| <= MAX_ELEMENT_SIZE
  {
    hide Digest, Entries, SortEntries, ValidSigner, VerifyManagerSignature, Multisig, Distinct;
    AcceptedSigners(c, t, ms, signers);
    SortedEntries(signers, i);
    var sorted := SortEntries(Entries(signers, i));
    var sigs := Selected(ms, signers, i);
    var f := seq(ms.m, k requires 0 <= k < ms.m => sorted[k].0 as nat);
    forall k | 0 <= k < ms.m
      ensures f[k] < |ms.pubkeys| && check(ms.pubkeys[f[k]], sigs[k]) && |sigs[k]| <= MAX_ELEMENT_SIZE
    { SelectedEntry(c, t, ms, signers, i, check, sorted[k]); }
    MatchingSuffices(check, ms.pubkeys, sigs, f);
  }

  lemma AcceptedSigners(c: Crypto, t: Tx, ms: ManagerSet, signers: seq<SignerSignatures>)
    requires Accepts(c, t, ms, signers) && t.inputs != []
    ensures Uniform(signers, |t.inputs|) && Distinct(signers) && |signers| >= ms.m
  {
    hide Digest;
  }

  lemma SortedEntries(signers: seq<SignerSignatures>, i: nat)
    requires Distinct(signers) && forall k :: 0 <= k < |signers| ==> i < |signers[k].inputSignatures|
    ensures Ascending(SortEntries(Entries(signers, i))) && |SortEntries(Entries(signers, i))| == |signers|
  {
    var entries := Entries(signers, i);
    forall k | 0 <= k < |signers|
      ensures entries[k] == (signers[k].signerIndex, signers[k].inputSignatures[i])
    { EntriesAt(signers, i, k); }
    SortAscending(entries);
    SortKeepsLength(entries);
  }

  lemma PositionOf(signers: seq<SignerSignatures>, i: nat, e: Entry) returns (p: nat)
    requires forall k :: 0 <= k < |signers| ==> i < |signers[k].inputSignatures|
    requires e in SortEntries(Entries(signers, i))
    ensures p < |signers| && e == (signers[p].signerIndex, signers[p].inputSignatures[i])
  {
    var entries := Entries(signers, i);
    SortMember(entries, e);
    p :| 0 <= p < |entries| && entries[p] == e;
    EntriesAt(signers, i, p);
  }

  /** Every entry comes from one signer, whose signature of this input verifies. */
  lemma SelectedEntry(c: Crypto, t: Tx, ms: ManagerSet, signers: seq<SignerSignatures>, i: nat,
                      check: (seq<u8>, seq<u8>) -> bool, e: Entry)
    requires Accepts(c, t, ms, signers) && i < |t.inputs| && e in SortEntries(Entries(signers, i))
    requires forall key: PubKey, sig :: VerifyManagerSignature(c, key, Digest(c, t, i), sig) == Ok(true) ==>
             check(key, sig)
    ensures e.0 < |ms.pubkeys| && check(ms.pubkeys[e.0], e.1) && |e.1| <= MAX_ELEMENT_SIZE
  {
    hide Digest, Entries, SortEntries, VerifyManagerSignature, Distinct;
    AcceptedSigners(c, t, ms, signers);
    var p := PositionOf(signers, i, e);
    assert ValidSigner(c, t, ms.pubkeys, signers[p]);
    VerifiedIsShort(c, ms.pubkeys[e.0], Digest(c, t, i), e.1);
  }

  lemma VerifiedIsShort(c: Crypto, key: PubKey, digest: seq<u8>, sig: seq<u8>)
    requires VerifyManagerSignature(c, key, digest, sig) == Ok(true)
    ensures |sig| <= 73
  {}

  /** `chosen` are the positions of the m signers of lowest index, in ascending order. */
  ghost predicate LowestFirst(signers: seq<SignerSignatures>, chosen: seq<nat>, m: nat)
  {
    && |chosen| == m && (forall k :: 0 <= k < m ==> chosen[k] < |signers|)
    && (forall j, k :: 0 <= j < k < m ==> signers[chosen[j]].signerIndex < signers[chosen[k]].signerIndex)
    && forall p: nat, k :: p < |signers| && p !in chosen && 0 <= k < m ==>
         signers[chosen[k]].signerIndex < signers[p].signerIndex
  }

  lemma {:induction false} PositionsOf(signers: seq<SignerSignatures>, i: nat, m: nat) returns (chosen: seq<nat>)
    requires forall k :: 0 <= k < |signers| ==> i < |signers[k].inputSignatures|
    requires m <= |SortEntries(Entries(signers, i))|
    ensures |chosen| == m
    ensures forall k :: 0 <= k < m ==>
              chosen[k] < |signers|
              && SortEntries(Entries(signers, i))[k]
                 == (signers[chosen[k]].signerIndex, signers[chosen[k]].inputSignatures[i])
  {
    hide Entries, SortEntries;
    chosen := [];
    if m > 0 {
      chosen := PositionsOf(signers, i, m - 1);
      var last := PositionOf(signers, i, SortEntries(Entries(signers, i))[m - 1]);
      chosen := chosen + [last];
    }
  }

  /** What is applied to an input are the signatures of the m signers of lowest index, in that order. */
  lemma SelectedAreLowest(c: Crypto, t: Tx, ms: ManagerSet, signers: seq<SignerSignatures>, i: nat)
    returns (chosen: seq<nat>)
    requires Accepts(c, t, ms, signers) && i < |t.inputs|
    ensures Uniform(signers, |t.inputs|) && LowestFirst(signers, chosen, ms.m) && |Selected(ms, signers, i)| == ms.m
    ensures forall k :: 0 <= k < ms.m ==> Selected(ms, signers, i)[k] == signers[chosen[k]].inputSignatures[i]
  {
    AcceptedSigners(c, t, ms, signers);
    hide Accepts, Entries, SortEntries, LowestFirst, Distinct, Ascending;
    SortedEntries(signers, i);
    var sorted := SortEntries(Entries(signers, i));
    chosen := PositionsOf(signers, i, ms.m);
    forall p: nat | p < |signers| ensures Holds(sorted, signers[p].signerIndex) {
      var q := SortedPosition(signers, i, p);
      assert sorted[q].0 == signers[p].signerIndex;
    }
    FirstAreLowest(signers, sorted, chosen, ms.m);
  }

  ghost predicate Holds(s: seq<Entry>, index: u8)
  { exists q :: 0 <= q < |s| && s[q].0 == index }

  lemma FirstAreLowest(signers: seq<SignerSignatures>, sorted: seq<Entry>, chosen: seq<nat>, m: nat)
    requires Distinct(signers) && Ascending(sorted) && |chosen| == m <= |sorted|
    requires forall k :: 0 <= k < m ==> chosen[k] < |signers| && sorted[k].0 == signers[chosen[k]].signerIndex
    requires forall p: nat :: p < |signers| ==> Holds(sorted, signers[p].signerIndex)
    ensures LowestFirst(signers, chosen, m)
  {
    forall p: nat, k | p < |signers| && p !in chosen && 0 <= k < m
      ensures signers[chosen[k]].signerIndex < signers[p].signerIndex
    {
      var q :| 0 <= q < |sorted| && sorted[q].0 == signers[p].signerIndex;
      assert q >= m;
    }
  }

  lemma SortedPosition(signers: seq<SignerSignatures>, i: nat, p: nat) returns (q: nat)
    requires forall k :: 0 <= k < |signers| ==> i < |signers[k].inputSignatures|
    requires p < |signers|
    ensures q < |SortEntries(Entries(signers, i))|
    ensures SortEntries(Entries(signers, i))[q] == (signers[p].signerIndex, signers[p].inputSignatures[i])
  {
    var entries := Entries(signers, i);
    EntriesAt(signers, i, p);
    SortMember(entries, entries[p]);
    q :| 0 <= q < |SortEntries(entries)| && SortEntries(entries)[q] == entries[p];
  }

  // ---- Spendability ----

  /** What the verifier hashes for a signed transaction is what the Managers signed. */
  lemma ConsensusDigest(c: Crypto, t: Tx, u: Tx, i: nat)
    requires SameButScriptSigs(t, u) && i < |t.inputs| && i < |t.redeemScripts|
    ensures c.doubleSha256(ConsensusPreimage(u, i, t.redeemScripts[i])) == Digest(c, t, i)
  {
    hide SerializeTransaction;
    var blanked := seq(|u.inputs|, k requires 0 <= k < |u.inputs| =>
                         u.inputs[k].(scriptSig := if k == i then t.redeemScripts[i] else []));
    assert blanked == SighashInputs(t, i, SIGHASH_ALL);
  }

  /** During validation a Manager signature checks exactly as it did when it was collected. */
  lemma CheckAgrees(c: Crypto, t: Tx, u: Tx, i: nat, key: PubKey, sig: seq<u8>)
    requires SameButScriptSigs(t, u) && i < |t.inputs| && i < |t.redeemScripts|
    ensures CheckSig(c, u, i, t.redeemScripts[i])(key, sig) <==>
            VerifyManagerSignature(c, key, Digest(c, t, i), sig) == Ok(true)
  {
    hide ConsensusPreimage, Digest, SameButScriptSigs;
    ConsensusDigest(c, t, u, i);
  }

  lemma ScriptSigPushes(sigs: seq<seq<u8>>, redeem: seq<u8>)
    requires forall k :: 0 <= k < |sigs| ==> |sigs[k]| <= MAX_ELEMENT_SIZE
    requires |redeem| <= MAX_ELEMENT_SIZE
    ensures RunPushes(ScriptSig(sigs, redeem), []) == Some([[]] + sigs + [redeem])
  {
    hide PushStep;
    var tail := PushAll(sigs) + PushData(redeem);
    assert ScriptSig(sigs, redeem) == PushData([]) + tail;
    PushStepData([], tail);
    var none: Stack := [];
    assert none + [[]] == [[]];
    RunPushesAll(sigs, PushData(redeem), [[]]);
    assert PushData(redeem) + [] == PushData(redeem);
    PushStepData(redeem, []);
  }

  lemma {:induction false} PushAllBound(items: seq<seq<u8>>)
    requires forall k :: 0 <= k < |items| ==> |items[k]| <= MAX_ELEMENT_SIZE
    ensures |PushAll(items)| <= (MAX_ELEMENT_SIZE + 5) * |items|
  {
    if items != [] {
      PushAllBound(items[1..]);
    }
  }

  /** The lengths of a signed transaction fit the wire format. */
  lemma AppliedFits(c: Crypto, t: Tx, ms: ManagerSet, signers: seq<SignerSignatures>)
    requires Accepts(c, t, ms, signers) && Uniform(signers, |t.inputs|)
    requires |t.inputs| < U64_LIMIT && forall i :: 0 <= i < |t.redeemScripts| ==>
             |t.redeemScripts[i]| <= MAX_ELEMENT_SIZE
    ensures FitsIns(Applied(t, ms, signers).inputs)
  {
    hide ValidSigner, Distinct, Selected, Multisig, PushData, PushAll, VerifyManagerSignature;
    forall i | 0 <= i < |t.inputs| ensures |Applied(t, ms, signers).inputs[i].scriptSig| < U64_LIMIT {
      SelectedMatch(c, t, ms, signers, i, (key, sig) => true);
      ScriptSigBound(Selected(ms, signers, i), t.redeemScripts[i]);
    }
  }

  lemma ScriptSigBound(sigs: seq<seq<u8>>, redeem: seq<u8>)
    requires |sigs| < 0x100 && forall k :: 0 <= k < |sigs| ==> |sigs[k]| <= MAX_ELEMENT_SIZE
    requires |redeem| <= MAX_ELEMENT_SIZE
    ensures |ScriptSig(sigs, redeem)| < U64_LIMIT
  {
    PushAllBound(sigs);
    assert (MAX_ELEMENT_SIZE + 5) * |sigs| <= 525 * 0x100;
  }

  /** The redeem script of every input is the multisig script of the Manager set, for some
      deposit recipient. */
  ghost predicate CustodyInputs(t: Tx, ms: ManagerSet, chain: u16, contract: Hash32, recipients: seq<Hash32>)
  {
    && |recipients| == |t.inputs| == |t.redeemScripts|
    && forall i :: 0 <= i < |t.inputs| ==>
         BuildRedeemScript(chain, contract, recipients[i], ms.m, ms.pubkeys) == Ok(t.redeemScripts[i])
  }

  lemma SignedInputSpends(c: Crypto, t: Tx, ms: ManagerSet, signers: seq<SignerSignatures>, u: Tx,
                          chain: u16, contract: Hash32, recipient: Hash32, i: nat)
    requires Accepts(c, t, ms, signers) && SignedUpTo(t, ms, signers, u, |t.inputs|)
    requires i < |t.inputs|
    requires BuildRedeemScript(chain, contract, recipient, ms.m, ms.pubkeys) == Ok(t.redeemScripts[i])
    ensures Spends(c, u, i, c.hash160(t.redeemScripts[i]))
  {
    hide Digest, RedeemBytes, RunPushes, Run, ScriptSig, Selected, Multisig, CheckSig;
    var redeem := t.redeemScripts[i];
    var sigs := Selected(ms, signers, i);
    var check := CheckSig(c, u, i, redeem);
    var env := Env(check, c.hash160);
    forall key: PubKey, sig | VerifyManagerSignature(c, key, Digest(c, t, i), sig) == Ok(true)
      ensures check(key, sig)
    { CheckAgrees(c, t, u, i, key, sig); }
    SelectedMatch(c, t, ms, signers, i, check);
    RedeemLength(chain, contract, recipient, ms.m, ms.pubkeys);
    ScriptSigPushes(sigs, redeem);
    var pushed := [[]] + sigs + [redeem];
    assert pushed[..|pushed| - 1] == [[]] + sigs;
    RunP2sh(env, pushed, c.hash160(redeem));
    var outer := pushed[..|pushed| - 1] + [Bool(true)];
    assert Truthy(outer[|outer| - 1]) by { assert Bool(true)[0] == 1; }
    assert Run(env, P2shScript(c.hash160(redeem)), pushed) == Some(outer);
    RunRedeem(env, chain, contract, recipient, ms.m, ms.pubkeys, [], sigs);
  }

  /** Whenever the Manager signatures are accepted, every custody input of the resulting
      transaction satisfies its P2SH output and leaves exactly one true element. */
  lemma EveryInputSpends(c: Crypto, t: Tx, ms: ManagerSet, signers: seq<SignerSignatures>, u: Tx,
                         chain: u16, contract: Hash32, recipients: seq<Hash32>)
    requires CustodyInputs(t, ms, chain, contract, recipients)
    requires Accepts(c, t, ms, signers) && SignedUpTo(t, ms, signers, u, |t.inputs|)
    ensures forall i :: 0 <= i < |t.inputs| ==> Spends(c, u, i, c.hash160(t.redeemScripts[i]))
  {
    forall i | 0 <= i < |t.inputs|
      ensures Spends(c, u, i, c.hash160(t.redeemScripts[i]))
    { SignedInputSpends(c, t, ms, signers, u, chain, contract, recipients[i], i); }
  }
}
