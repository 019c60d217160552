/** The local Manager service: it signs exactly the transaction that a UTX0 payload authorizes, and
    keeps what it signed once and for all. */
module Manager {
  import opened Bytes
  import opened Utx0
  import opened OperatorRows
  import opened Wire
  import opened WireLayout
  import opened Sighash
  import opened Script
  import opened Redeem
  import opened Signing
  import Prepare
  import Vaa

  const LOCAL_M := 5
  const LOCAL_N := 7

  datatype SigningInput = SigningInput(recipient: Hash32, transactionId: Hash32, vout: u32)

  datatype Registration = Registration(key: Vaa.Key, payload: seq<u8>, unsignedTransaction: seq<u8>,
                                       inputs: seq<SigningInput>, outputs: seq<Output>)

  datatype Signatures = Signatures(isComplete: bool, vaaHash: seq<u8>, destinationChain: u16, managerSetIndex: u32,
                                   required: u32, total: u32, signers: seq<SignerSignatures>)

  datatype Signed = Signed(signedVaa: seq<u8>, unsignedTransaction: seq<u8>, signatures: Signatures)

  datatype Outcome = Inserted | AlreadyRegistered

  function SomeKeys(n: nat): (r: seq<PubKey>)
    ensures |r| == n
  { if n == 0 then [] else SomeKeys(n - 1) + [seq(33, _ => 0)] }

  type LocalKeys = s: seq<PubKey> | |s| == LOCAL_N witness SomeKeys(LOCAL_N)

  /** The service's primitives: its seven public keys, DER signing under the k-th secret, hashing. */
  datatype Service = Service(crypto: Crypto, keccak: seq<u8> -> seq<u8>, keys: LocalKeys,
                             sign: (nat, seq<u8>) -> seq<u8>)

  /** Signatures made under a secret verify under the matching public key. */
  ghost predicate Faithful(v: Service)
  {
    forall k: nat, digest :: k < LOCAL_M ==>
      && v.crypto.validKey(v.keys[k]) && v.crypto.validDer(v.sign(k, digest))
      && v.crypto.ecdsa(v.keys[k], digest, v.sign(k, digest))
  }

  function LocalSet(v: Service): ManagerSet { ManagerSet(LOCAL_M, LOCAL_N, v.keys) }

  function VaaDigest(keccak: seq<u8> -> seq<u8>, signedVaa: seq<u8>): Result<seq<u8>>
  {
    var body :- Vaa.Body(signedVaa);
    Ok(keccak(keccak(body)))
  }

  // ---- Signing a registration ----

  function SelectInputs(v: Service, key: Vaa.Key, inputs: seq<SigningInput>): Result<seq<SelectedUtxo>>
  {
    if inputs == [] then Ok([])
    else
      var redeem :- BuildRedeemScript(key.emitterChain, key.emitterAddress, inputs[0].recipient, LOCAL_M, v.keys);
      var tail :- SelectInputs(v, key, inputs[1..]);
      Ok([SelectedUtxo(inputs[0].transactionId, inputs[0].vout, redeem)] + tail)
  }

  /** The authorized outputs, then at most one change output, back into P2SH custody. */
  predicate Authorized(authorized: seq<Output>, outputs: seq<Output>)
  {
    && |authorized| <= |outputs| <= |authorized| + 1
    && (forall k :: 0 <= k < |authorized| ==> outputs[k] == authorized[k])
    && (|outputs| > |authorized| ==> outputs[|authorized|].addressType == P2sh)
  }

  function WithHashType(der: seq<u8>): seq<u8> { der + [SIGHASH_ALL] }

  function SignInputs(v: Service, t: Tx, k: nat): (r: SignerSignatures)
    requires k < LOCAL_M && |t.redeemScripts| >= |t.inputs|
    ensures r.signerIndex == k && |r.inputSignatures| == |t.inputs|
    ensures forall i :: 0 <= i < |t.inputs| ==> r.inputSignatures[i] == WithHashType(v.sign(k, Digest(v.crypto, t, i)))
  {
    SignerSignatures(k, seq(|t.inputs|, i requires 0 <= i < |t.inputs| =>
                          WithHashType(v.sign(k, Digest(v.crypto, t, i)))))
  }

  function SignAll(v: Service, t: Tx): (r: seq<SignerSignatures>)
    requires |t.redeemScripts| >= |t.inputs|
    ensures |r| == LOCAL_M
    ensures forall k :: 0 <= k < LOCAL_M ==> r[k] == SignInputs(v, t, k)
  { seq(LOCAL_M, k requires 0 <= k < LOCAL_M => SignInputs(v, t, k)) }

  function BuildSigned(v: Service, g: Registration): Result<Signed>
  {
    var payload :- Utx0.Parse(g.payload);
    if payload.managerSetIndex != 0 || payload.destinationChain != DOGECOIN then Err
    else if payload.outputs == [] || g.inputs == [] then Err
    else
      var selected :- SelectInputs(v, g.key, g.inputs);
      if !Authorized(payload.outputs, g.outputs) then Err
      else
        var t :- NewTransaction(selected, g.outputs);
        if TxBytes(t) != g.unsignedTransaction then Err
        else
          var vaa := Vaa.Synthesized(g.key, g.payload);
          var vaaHash :- VaaDigest(v.keccak, vaa);
          Ok(Signed(vaa, g.unsignedTransaction,
                    Signatures(true, vaaHash, payload.destinationChain, payload.managerSetIndex, LOCAL_M, LOCAL_N,
                               SignAll(v, t))))
  }

  // ---- What is granted, written out ----

  /** The payload's outputs come first, unchanged; at most one follows them, and it pays a script hash. */
  ghost predicate PaysPayload(payload: Payload, outputs: seq<Output>)
  {
    && payload.outputs <= outputs && |outputs| <= |payload.outputs| + 1
    && forall k :: |payload.outputs| <= k < |outputs| ==> outputs[k].addressType == P2sh
  }

  /** The outpoints that were registered, each with the custody script of its depositor. */
  ghost predicate IsSelection(v: Service, key: Vaa.Key, inputs: seq<SigningInput>, selected: seq<SelectedUtxo>)
  {
    && |selected| == |inputs|
    && forall k :: 0 <= k < |inputs| ==>
         && selected[k].transactionId == inputs[k].transactionId && selected[k].vout == inputs[k].vout
         && IsRedeemScript(selected[k].redeemScript, key.emitterChain, key.emitterAddress, inputs[k].recipient, 5,
                           v.keys)
  }

  /** The registration is for Manager set 0 and Dogecoin, it has outputs and inputs, its outputs pay the
      payload, and its bytes are those of the transaction over its inputs and outputs. */
  ghost predicate IsGrantable(v: Service, g: Registration, payload: Payload, selected: seq<SelectedUtxo>, t: Tx)
  {
    && Utx0.Parse(g.payload) == Ok(payload) && payload.managerSetIndex == 0 && payload.destinationChain == 65
    && payload.outputs != [] && g.inputs != [] && PaysPayload(payload, g.outputs)
    && IsSelection(v, g.key, g.inputs, selected) && IsUnsigned(t, selected, g.outputs)
    && g.unsignedTransaction == TxBytes(t)
  }

  /** The k-th key's signatures of what consensus hashes for each input, with the SIGHASH_ALL byte. */
  ghost predicate IsSignedBy(v: Service, t: Tx, k: nat, s: SignerSignatures)
    requires |t.redeemScripts| == |t.inputs|
  {
    && s.signerIndex == k && |s.inputSignatures| == |t.inputs|
    && forall i :: 0 <= i < |t.inputs| ==>
         s.inputSignatures[i]
         == v.sign(k, v.crypto.doubleSha256(ConsensusPreimage(t, i, t.redeemScripts[i]))) + [0x01]
  }

  /** The answer for a transaction: its bytes, a VAA over the payload with the double hash of its body,
      and the signatures of the first five of the seven keys. */
  ghost predicate IsAnswer(v: Service, key: Vaa.Key, payload: seq<u8>, s: Signed, t: Tx)
    requires |t.redeemScripts| == |t.inputs|
  {
    && s.unsignedTransaction == TxBytes(t) && Vaa.IsLocalVaa(s.signedVaa, key, payload)
    && s.signatures.isComplete && s.signatures.vaaHash == v.keccak(v.keccak(s.signedVaa[6..]))
    && s.signatures.destinationChain == 65 && s.signatures.managerSetIndex == 0
    && s.signatures.required == 5 && s.signatures.total == 7 && |s.signatures.signers| == 5
    && forall k :: 0 <= k < 5 ==> IsSignedBy(v, t, k, s.signatures.signers[k])
  }

  ghost predicate IsGranted(v: Service, g: Registration, s: Signed, payload: Payload, selected: seq<SelectedUtxo>,
                            t: Tx)
  { IsGrantable(v, g, payload, selected, t) && IsAnswer(v, g.key, g.payload, s, t) }

  lemma {:induction false} SelectionExists(v: Service, key: Vaa.Key, inputs: seq<SigningInput>)
    ensures SelectInputs(v, key, inputs).Ok? && IsSelection(v, key, inputs, SelectInputs(v, key, inputs).value)
  {
    hide RedeemBytes, IsRedeemScript;
    if inputs != [] {
      SelectionExists(v, key, inputs[1..]);
      RedeemLayout(key.emitterChain, key.emitterAddress, inputs[0].recipient, LOCAL_M, v.keys);
      var tail := SelectInputs(v, key, inputs[1..]).value;
      assert forall k :: 1 <= k < |inputs| ==> inputs[k] == inputs[1..][k - 1];
    }
  }

  lemma SelectionUnique(v: Service, key: Vaa.Key, inputs: seq<SigningInput>, a: seq<SelectedUtxo>,
                        b: seq<SelectedUtxo>)
    requires IsSelection(v, key, inputs, a) && IsSelection(v, key, inputs, b)
    ensures a == b
  {
    hide IsRedeemScript, RedeemBytes;
    forall k | 0 <= k < |inputs| ensures a[k] == b[k] {
      RedeemUnique(a[k].redeemScript, key.emitterChain, key.emitterAddress, inputs[k].recipient, 5, v.keys);
      RedeemUnique(b[k].redeemScript, key.emitterChain, key.emitterAddress, inputs[k].recipient, 5, v.keys);
    }
  }

  lemma AuthorizedIffPays(payload: Payload, outputs: seq<Output>)
    ensures Authorized(payload.outputs, outputs) <==> PaysPayload(payload, outputs)
  {
    if Authorized(payload.outputs, outputs) { assert payload.outputs == outputs[..|payload.outputs|]; }
  }

  lemma OneSigner(v: Service, t: Tx, k: nat, s: SignerSignatures)
    requires k < LOCAL_M && |t.redeemScripts| == |t.inputs|
    ensures IsSignedBy(v, t, k, s) <==> s == SignInputs(v, t, k)
  {
    hide ConsensusPreimage, Digest, SignInputs;
    assert SameButScriptSigs(t, t);
    forall i | 0 <= i < |t.inputs|
      ensures v.crypto.doubleSha256(ConsensusPreimage(t, i, t.redeemScripts[i])) == Digest(v.crypto, t, i)
    { ConsensusDigest(v.crypto, t, t, i); }
    if IsSignedBy(v, t, k, s) { assert s.inputSignatures == SignInputs(v, t, k).inputSignatures; }
  }

  lemma AllSigners(v: Service, t: Tx, signers: seq<SignerSignatures>)
    requires |t.redeemScripts| == |t.inputs|
    ensures signers == SignAll(v, t) <==>
              |signers| == 5 && forall k :: 0 <= k < 5 ==> IsSignedBy(v, t, k, signers[k])
  {
    hide IsSignedBy, SignInputs, SignAll;
    forall k | 0 <= k < 5 && k < |signers|
      ensures IsSignedBy(v, t, k, signers[k]) <==> signers[k] == SignAll(v, t)[k]
    { OneSigner(v, t, k, signers[k]); }
  }

  lemma LocalDigest(keccak: seq<u8> -> seq<u8>, vaa: seq<u8>, key: Vaa.Key, payload: seq<u8>)
    requires Vaa.IsLocalVaa(vaa, key, payload)
    ensures vaa == Vaa.Synthesized(key, payload) && VaaDigest(keccak, vaa) == Ok(keccak(keccak(vaa[6..])))
  {
    Vaa.LocalVaaUnique(vaa, key, payload);
    hide Vaa.Synthesized;
  }

  /** The service grants exactly the registrations that are grantable, each with exactly one answer. */
  lemma GrantedExactly(v: Service, g: Registration, s: Signed)
    ensures BuildSigned(v, g) == Ok(s) <==> exists payload, selected, t :: IsGranted(v, g, s, payload, selected, t)
  {
    if BuildSigned(v, g) == Ok(s) { var payload, selected, t := BuiltIsGranted(v, g, s); }
    hide BuildSigned, IsGranted;
    if payload, selected, t :| IsGranted(v, g, s, payload, selected, t) {
      GrantedIsBuilt(v, g, s, payload, selected, t);
    }
  }

  lemma BuiltIsGranted(v: Service, g: Registration, s: Signed)
    returns (payload: Payload, selected: seq<SelectedUtxo>, t: Tx)
    requires BuildSigned(v, g) == Ok(s)
    ensures IsGranted(v, g, s, payload, selected, t)
  {
    hide IsRedeemScript, RedeemBytes;
    SelectionExists(v, g.key, g.inputs);
    payload := Utx0.Parse(g.payload).value;
    selected := SelectInputs(v, g.key, g.inputs).value;
    t := Assemble(selected, g.outputs);
    AuthorizedIffPays(payload, g.outputs);
    UnsignedIffAssembled(t, selected, g.outputs);
    AllSigners(v, t, s.signatures.signers);
    Vaa.SynthesizedLayout(g.key, g.payload);
    LocalDigest(v.keccak, Vaa.Synthesized(g.key, g.payload), g.key, g.payload);
    hide TxBytes, SelectInputs, Vaa.Synthesized, Vaa.IsLocalVaa, VaaDigest, Authorized, Assemble, SignAll, IsUnsigned,
         IsSelection, PaysPayload, Utx0.Parse, IsSignedBy;
  }

  lemma GrantedIsBuilt(v: Service, g: Registration, s: Signed, payload: Payload, selected: seq<SelectedUtxo>, t: Tx)
    requires IsGranted(v, g, s, payload, selected, t)
    ensures BuildSigned(v, g) == Ok(s)
  {
    SelectionExists(v, g.key, g.inputs);
    SelectionUnique(v, g.key, g.inputs, selected, SelectInputs(v, g.key, g.inputs).value);
    AuthorizedIffPays(payload, g.outputs);
    UnsignedIffAssembled(t, selected, g.outputs);
    AllSigners(v, t, s.signatures.signers);
    LocalDigest(v.keccak, s.signedVaa, g.key, g.payload);
    hide TxBytes, SelectInputs, Vaa.Synthesized, Vaa.IsLocalVaa, VaaDigest, Authorized, Assemble, SignAll, IsUnsigned,
         IsSelection, PaysPayload, Utx0.Parse, IsSignedBy;
    assert g.outputs != [];
  }

  ghost predicate Grantable(v: Service, g: Registration)
  { exists payload, selected, t :: IsGrantable(v, g, payload, selected, t) }

  lemma AnswerExists(v: Service, key: Vaa.Key, payload: seq<u8>, t: Tx) returns (s: Signed)
    requires |t.redeemScripts| == |t.inputs|
    ensures IsAnswer(v, key, payload, s, t)
  {
    hide TxBytes, SignAll, IsSignedBy, Vaa.IsLocalVaa, Vaa.Synthesized;
    var vaa := Vaa.Synthesized(key, payload);
    Vaa.SynthesizedLayout(key, payload);
    LocalDigest(v.keccak, vaa, key, payload);
    AllSigners(v, t, SignAll(v, t));
    s := Signed(vaa, TxBytes(t), Signatures(true, v.keccak(v.keccak(vaa[6..])), 65, 0, 5, 7, SignAll(v, t)));
  }

  lemma SignsIffGrantable(v: Service, g: Registration)
    ensures BuildSigned(v, g).Ok? <==> Grantable(v, g)
  {
    if BuildSigned(v, g).Ok? { var payload, selected, t := BuiltIsGranted(v, g, BuildSigned(v, g).value); }
    hide BuildSigned;
    if payload, selected, t :| IsGrantable(v, g, payload, selected, t) {
      GrantableSigns(v, g, payload, selected, t);
    }
  }

  lemma GrantableSigns(v: Service, g: Registration, payload: Payload, selected: seq<SelectedUtxo>, t: Tx)
    requires IsGrantable(v, g, payload, selected, t)
    ensures BuildSigned(v, g).Ok?
  {
    hide BuildSigned, IsAnswer, TxBytes, PaysPayload, IsSelection, Utx0.Parse, IsUnsignedInput, IsScriptFor;
    var s := AnswerExists(v, g.key, g.payload, t);
    GrantedIsBuilt(v, g, s, payload, selected, t);
  }

  // ---- Registrations ----

  type Table = map<Vaa.Key, (seq<u8>, Signed)>

  function Registered(v: Service, m: Table, g: Registration): (Result<Outcome>, Table)
  {
    if g.key in m then
      (if m[g.key].0 == g.payload && m[g.key].1.unsignedTransaction == g.unsignedTransaction
       then (Ok(AlreadyRegistered), m) else (Err, m))
    else
      var signed := BuildSigned(v, g);
      if signed.Err? then (Err, m) else (Ok(Inserted), m[g.key := (g.payload, signed.value)])
  }

  /** The table after any number of calls. */
  function After(v: Service, m: Table, calls: seq<Registration>): Table
    decreases |calls|
  { if calls == [] then m else Registered(v, After(v, m, calls[..|calls| - 1]), calls[|calls| - 1]).1 }

  /** The call asks for something under the key that can be signed. */
  predicate SignsUnder(v: Service, key: Vaa.Key, g: Registration)
  { g.key == key && BuildSigned(v, g).Ok? }

  /** No earlier call did. */
  ghost predicate FirstSigned(v: Service, key: Vaa.Key, calls: seq<Registration>, i: nat)
    requires i < |calls|
  { SignsUnder(v, key, calls[i]) && forall j :: 0 <= j < i ==> !SignsUnder(v, key, calls[j]) }

  /** Over any sequence of calls a key has an entry exactly when some call under it could be signed,
      and the entry is payload and signatures of the first such call. */
  lemma {:induction false} EntriesAreFirst(v: Service, calls: seq<Registration>, key: Vaa.Key)
    ensures key in After(v, map[], calls) <==> exists i :: 0 <= i < |calls| && SignsUnder(v, key, calls[i])
    ensures forall i :: 0 <= i < |calls| && FirstSigned(v, key, calls, i) ==>
              && key in After(v, map[], calls)
              && After(v, map[], calls)[key] == (calls[i].payload, BuildSigned(v, calls[i]).value)
    ensures key in After(v, map[], calls) ==> exists i :: 0 <= i < |calls| && FirstSigned(v, key, calls, i)
    decreases |calls|
  {
    hide BuildSigned;
    if calls != [] {
      var n := |calls| - 1;
      var front := calls[..n];
      EntriesAreFirst(v, front, key);
      assert forall i :: 0 <= i < n ==> front[i] == calls[i];
      assert forall i :: 0 <= i < n ==> (FirstSigned(v, key, front, i) <==> FirstSigned(v, key, calls, i));
      if key in After(v, map[], front) {
        var i :| 0 <= i < n && FirstSigned(v, key, front, i);
        assert FirstSigned(v, key, calls, i);
      } else if SignsUnder(v, key, calls[n]) {
        assert FirstSigned(v, key, calls, n);
      }
    }
  }

  /** A call inserts what is granted if its key is new and it is grantable, repeats what was registered
      under its key with the same payload and bytes, and otherwise fails. */
  ghost predicate IsRegistered(v: Service, before: Table, g: Registration, r: Result<Outcome>, after: Table)
  {
    if g.key in before then
      && after == before
      && r == if before[g.key].0 == g.payload && before[g.key].1.unsignedTransaction == g.unsignedTransaction
              then Ok(AlreadyRegistered) else Err
    else if Grantable(v, g) then
      && r == Ok(Inserted) && after.Keys == before.Keys + {g.key} && after[g.key].0 == g.payload
      && (forall key :: key in before ==> after[key] == before[key])
      && exists payload, selected, t :: IsGranted(v, g, after[g.key].1, payload, selected, t)
    else r.Err? && after == before
  }

  lemma RegisteredExactly(v: Service, m: Table, g: Registration)
    ensures IsRegistered(v, m, g, Registered(v, m, g).0, Registered(v, m, g).1)
  {
    hide BuildSigned, Grantable, IsGranted;
    SignsIffGrantable(v, g);
    if BuildSigned(v, g).Ok? { GrantedExactly(v, g, BuildSigned(v, g).value); }
  }

  /** The service after a history of registration calls. */
  class LocalManagerService {
    var withdrawals: Table
    ghost var calls: seq<Registration>

    ghost predicate Valid(v: Service)
      reads this
    { withdrawals == After(v, map[], calls) }

    constructor (ghost v: Service)
      ensures Valid(v) && calls == []
    {
      withdrawals := map[];
      calls := [];
    }

    method Register(v: Service, g: Registration) returns (r: Result<Outcome>)
      requires Valid(v)
      modifies this
      ensures Valid(v) && calls == old(calls) + [g]
      ensures (r, withdrawals) == Registered(v, old(withdrawals), g)
      ensures IsRegistered(v, old(withdrawals), g, r, withdrawals)
    {
      RegisteredExactly(v, withdrawals, g);
      hide BuildSigned, IsRegistered;
      assert (calls + [g])[..|calls|] == calls;
      calls := calls + [g];
      if g.key in withdrawals {
        var entry := withdrawals[g.key];
        if entry.0 == g.payload && entry.1.unsignedTransaction == g.unsignedTransaction {
          return Ok(AlreadyRegistered);
        }
        return Err;
      }
      var signed :- BuildSigned(v, g);
      withdrawals := withdrawals[g.key := (g.payload, signed)];
      return Ok(Inserted);
    }

    /** Answers what the first registration that could be signed under the key was answered with,
        and nothing exactly when there was none. */
    method Get(v: Service, key: Vaa.Key) returns (r: Option<Signed>)
      requires Valid(v)
      ensures r.None? ==> forall i :: 0 <= i < |calls| ==> !SignsUnder(v, key, calls[i])
      ensures r.Some? ==> exists i :: 0 <= i < |calls| && FirstSigned(v, key, calls, i)
                                      && BuildSigned(v, calls[i]) == Ok(r.value)
    {
      hide BuildSigned;
      EntriesAreFirst(v, calls, key);
      r := if key in withdrawals then Some(withdrawals[key].1) else None;
    }
  }

  /** A registration with an output other than the payload's at its place, with more than one output
      beyond them, or with one that does not pay a script hash, changes nothing; under a new key it fails. */
  lemma DifferingOutputsRefused(v: Service, m: Table, g: Registration, payload: Payload)
    requires Utx0.Parse(g.payload) == Ok(payload)
    requires !(payload.outputs <= g.outputs) || |g.outputs| > |payload.outputs| + 1
             || (|g.outputs| == |payload.outputs| + 1 && g.outputs[|payload.outputs|].addressType != P2sh)
    ensures Registered(v, m, g).1 == m && (g.key !in m ==> Registered(v, m, g).0.Err?)
  {
    hide BuildSigned, IsSelection, IsUnsigned, TxBytes, Utx0.Parse;
    SignsIffGrantable(v, g);
  }

  /** One call: it fails without effect, or repeats without effect, or adds one new entry. */
  lemma RegisterEffect(v: Service, m: Table, g: Registration)
    ensures var (r, n) := Registered(v, m, g);
            && (r.Err? || r == Ok(AlreadyRegistered) ==> n == m)
            && (r == Ok(Inserted) <==> g.key !in m && BuildSigned(v, g).Ok?)
            && (r == Ok(Inserted) ==> n == m[g.key := (g.payload, BuildSigned(v, g).value)])
            && (g.key in m ==> (r.Ok? <==> m[g.key].0 == g.payload
                                           && m[g.key].1.unsignedTransaction == g.unsignedTransaction))
  {
    hide BuildSigned;
  }

  /** A call is answered with `Inserted` exactly when it is the first under its key that can be signed. */
  lemma InsertedIffFirst(v: Service, calls: seq<Registration>, i: nat)
    requires i < |calls|
    ensures Registered(v, After(v, map[], calls[..i]), calls[i]).0 == Ok(Inserted) <==>
            FirstSigned(v, calls[i].key, calls, i)
  {
    hide BuildSigned, Registered;
    RegisterEffect(v, After(v, map[], calls[..i]), calls[i]);
    EntriesAreFirst(v, calls[..i], calls[i].key);
    assert forall j :: 0 <= j < i ==> calls[..i][j] == calls[j];
  }

  /** Entries are written once: no later call changes or removes one. */
  lemma {:induction false} WriteOnce(v: Service, m: Table, calls: seq<Registration>, key: Vaa.Key)
    requires key in m
    ensures key in After(v, m, calls) && After(v, m, calls)[key] == m[key]
    decreases |calls|
  {
    hide BuildSigned;
    if calls != [] { WriteOnce(v, m, calls[..|calls| - 1], key); }
  }

  /** A registration that succeeded can be repeated at any later time without effect. */
  lemma Idempotent(v: Service, m: Table, g: Registration, calls: seq<Registration>)
    requires Registered(v, m, g).0.Ok?
    ensures var later := After(v, Registered(v, m, g).1, calls);
            Registered(v, later, g) == (Ok(AlreadyRegistered), later)
  {
    BuiltKeepsBytes(v, g);
    hide BuildSigned;
    WriteOnce(v, Registered(v, m, g).1, calls, g.key);
  }

  lemma BuiltKeepsBytes(v: Service, g: Registration)
    ensures BuildSigned(v, g).Ok? ==> BuildSigned(v, g).value.unsignedTransaction == g.unsignedTransaction
  {
    hide TxBytes, NewTransaction, SelectInputs, VaaDigest, Authorized, Vaa.Synthesized, SignAll;
  }

  /** Over any sequence of calls from an empty service, every entry answers one of them, and answers it
      with what is granted to that registration. */
  lemma EveryEntryIsGranted(v: Service, calls: seq<Registration>, key: Vaa.Key)
    returns (g: Registration, payload: Payload, selected: seq<SelectedUtxo>, t: Tx)
    requires key in After(v, map[], calls)
    ensures g in calls && g.key == key && g.payload == After(v, map[], calls)[key].0
    ensures IsGranted(v, g, After(v, map[], calls)[key].1, payload, selected, t)
  {
    hide BuildSigned, IsGranted, After;
    EntriesAreFirst(v, calls, key);
    var i :| 0 <= i < |calls| && FirstSigned(v, key, calls, i);
    g := calls[i];
    payload, selected, t := BuiltIsGranted(v, g, After(v, map[], calls)[key].1);
  }

  /** What is granted pays the payload, and its signatures are accepted for its transaction. */
  lemma GrantedIsAccepted(v: Service, g: Registration, s: Signed, payload: Payload, selected: seq<SelectedUtxo>, t: Tx)
    requires Faithful(v) && IsGranted(v, g, s, payload, selected, t)
    ensures Accepts(v.crypto, t, LocalSet(v), s.signatures.signers)
    ensures PaysPayload(payload, t.logicalOutputs) && t.inputs != []
  {
    hide IsUnsignedInput, IsScriptFor, IsRedeemScript, TxBytes, PaysPayload, Accepts, IsSignedBy, Vaa.IsLocalVaa,
         Faithful, SignAll;
    AllSigners(v, t, s.signatures.signers);
    SignAllIsAccepted(v, t);
  }

  lemma SignAllIsAccepted(v: Service, t: Tx)
    requires Faithful(v) && |t.redeemScripts| >= |t.inputs|
    ensures Accepts(v.crypto, t, LocalSet(v), SignAll(v, t))
  {
    hide Digest, SignAll;
    var signers := SignAll(v, t);
    forall k | 0 <= k < |signers| ensures ValidSigner(v.crypto, t, v.keys, signers[k]) {
      forall i | 0 <= i < |t.inputs|
        ensures VerifyManagerSignature(v.crypto, v.keys[k], Digest(v.crypto, t, i), signers[k].inputSignatures[i])
                == Ok(true)
      {
        var der := v.sign(k, Digest(v.crypto, t, i));
        assert signers[k].inputSignatures[i] == WithHashType(der);
        assert (der + [SIGHASH_ALL])[..|der|] == der;
      }
    }
  }

  // ---- The operator and the service together ----

  /** The operator's checks on a Manager response. */
  function AssertVaaAndManager(keccak: seq<u8> -> seq<u8>, signedVaa: seq<u8>, signatures: Signatures, key: Vaa.Key,
                               payload: Payload, ms: ManagerSet): Result<()>
  {
    var digest :- VaaDigest(keccak, signedVaa);
    if digest != signatures.vaaHash then Err
    else
      var vaa :- Vaa.Parse(signedVaa);
      if vaa.key.emitterChain != Prepare.SOLANA_EMITTER_CHAIN || vaa.key.emitterAddress != key.emitterAddress
         || vaa.key.sequence != key.sequence then Err
      else
        var parsed :- Utx0.Parse(vaa.payload);
        if parsed != payload then Err
        else if signatures.destinationChain != DOGECOIN || signatures.managerSetIndex != payload.managerSetIndex
                || signatures.required != ms.m || signatures.total != ms.n then Err
        else Ok(())
  }

  /** The response is a VAA of chain 1, of the emitter and sequence of the key, over the bytes of the
      payload; it carries the double hash of the VAA's body, which follows the guardian signatures, and
      names Dogecoin, the payload's Manager set, and its numbers. */
  ghost predicate IsProperResponse(keccak: seq<u8> -> seq<u8>, vaa: seq<u8>, r: Signatures, key: Vaa.Key,
                                   payload: Payload, ms: ManagerSet)
  {
    && |vaa| >= 6 && |vaa| >= 57 + 66 * (vaa[5] as nat)
    && r.destinationChain == 65 && r.managerSetIndex == payload.managerSetIndex
    && r.required == ms.m && r.total == ms.n
    && var body := vaa[6 + 66 * (vaa[5] as nat)..];
       && r.vaaHash == keccak(keccak(body))
       && IsBE(body[8..10], 1) && body[10..42] == key.emitterAddress && IsBE(body[42..50], key.sequence)
       && SerializePayload(payload) == Ok(body[51..])
  }

  /** The operator lets a response through exactly if it is such. */
  lemma PassesIffProper(keccak: seq<u8> -> seq<u8>, vaa: seq<u8>, r: Signatures, key: Vaa.Key, payload: Payload,
                        ms: ManagerSet)
    ensures AssertVaaAndManager(keccak, vaa, r, key, payload, ms).Ok?
            <==> IsProperResponse(keccak, vaa, r, key, payload, ms)
  {
    PowValues();
    hide IsBE, FromBE, Utx0.Parse, SerializePayload;
    if |vaa| >= 6 && |vaa| >= 57 + 66 * (vaa[5] as nat) {
      var off := 6 + 66 * (vaa[5] as nat);
      var body := vaa[off..];
      assert vaa[off + 8..off + 10] == body[8..10] && vaa[off + 10..off + 42] == body[10..42];
      assert vaa[off + 42..off + 50] == body[42..50] && vaa[off + 51..] == body[51..];
      FromBEIff(body[8..10], 1);
      FromBEIff(body[42..50], key.sequence);
      ParseIffSerialized(payload, body[51..]);
    }
  }

  function RegisteredInputs(utxos: seq<CustodyUtxo>): (r: seq<SigningInput>)
    ensures |r| == |utxos|
  {
    seq(|utxos|, k requires 0 <= k < |utxos| =>
      SigningInput(utxos[k].originalRecipient, Reverse(utxos[k].txid), utxos[k].vout))
  }

  /** What the operator submits for a prepared withdrawal. */
  function RegistrationOf(cfg: Prepare.Config, sequence: u64, payload: seq<u8>, reservation: CustodyReservation,
                          p: Prepare.Prepared): Registration
  {
    Registration(Vaa.Key(Prepare.SOLANA_EMITTER_CHAIN, cfg.emitter, sequence), payload, p.unsignedBytes,
                 RegisteredInputs(reservation.utxos), p.transaction.logicalOutputs)
  }

  lemma {:induction false} SameInputs(v: Service, cfg: Prepare.Config, key: Vaa.Key, utxos: seq<CustodyUtxo>)
    requires Prepare.RebuildInputs(v.crypto, cfg, LocalSet(v), utxos).Ok?
    requires key.emitterChain == Prepare.SOLANA_EMITTER_CHAIN && key.emitterAddress == cfg.emitter
    ensures SelectInputs(v, key, RegisteredInputs(utxos)) == Prepare.RebuildInputs(v.crypto, cfg, LocalSet(v), utxos)
  {
    hide BuildRedeemScript;
    if utxos != [] {
      SameInputs(v, cfg, key, utxos[1..]);
      assert RegisteredInputs(utxos)[1..] == RegisteredInputs(utxos[1..]);
    }
  }

  /** What the operator plans pays the payload, and so it is authorized. */
  lemma PlanIsAuthorized(v: Service, cfg: Prepare.Config, payload: Payload, plan: Prepare.Plan, outputs: seq<Output>,
                         hash: Option<Hash20>)
    requires Prepare.PlannedOutputs(v.crypto, cfg, LocalSet(v), payload, plan) == Ok((outputs, hash))
    ensures PaysPayload(payload, outputs) && Authorized(payload.outputs, outputs)
  {
    hide BuildRedeemScript;
    AuthorizedIffPays(payload, outputs);
  }

  /** The service signs whatever the operator prepares under the same Manager set and payload, its
      response passes the operator's checks, and its signatures are accepted for the prepared
      transaction. */
  lemma ServiceServesOperator(v: Service, cfg: Prepare.Config, payload: Payload, bytes: seq<u8>, sequence: u64,
                              reservation: CustodyReservation, persisted: Option<seq<u8>>, p: Prepare.Prepared)
    returns (s: Signed)
    requires Faithful(v)
    requires SerializePayload(payload) == Ok(bytes)
    requires payload.managerSetIndex == 0 && payload.destinationChain == DOGECOIN
    requires payload.outputs != [] && reservation.utxos != []
    requires Prepare.PreparedFromReservation(v.crypto, cfg, LocalSet(v), payload, reservation, persisted) == Ok(p)
    ensures var g := RegistrationOf(cfg, sequence, bytes, reservation, p);
            && BuildSigned(v, g) == Ok(s)
            && AssertVaaAndManager(v.keccak, s.signedVaa, s.signatures, g.key, payload, LocalSet(v)).Ok?
    ensures Accepts(v.crypto, p.transaction, LocalSet(v), s.signatures.signers)
  {
    var g := RegistrationOf(cfg, sequence, bytes, reservation, p);
    ServiceSigns(v, cfg, payload, bytes, sequence, reservation, persisted, p);
    s := BuildSigned(v, g).value;
    SignAllIsAccepted(v, p.transaction);
    hide BuildSigned, Prepare.PreparedFromReservation, SerializePayload, SignAll, Accepts, VaaDigest, Faithful;
    ResponseChecks(v, g.key, payload, bytes, s);
  }

  lemma ResponseChecks(v: Service, key: Vaa.Key, payload: Payload, bytes: seq<u8>, s: Signed)
    requires SerializePayload(payload) == Ok(bytes) && key.emitterChain == Prepare.SOLANA_EMITTER_CHAIN
    requires payload.managerSetIndex == 0 && payload.destinationChain == DOGECOIN
    requires s.signedVaa == Vaa.Synthesized(key, bytes) && VaaDigest(v.keccak, s.signedVaa) == Ok(s.signatures.vaaHash)
    requires s.signatures.destinationChain == DOGECOIN && s.signatures.managerSetIndex == 0
    requires s.signatures.required == LOCAL_M && s.signatures.total == LOCAL_N
    ensures AssertVaaAndManager(v.keccak, s.signedVaa, s.signatures, key, payload, LocalSet(v)).Ok?
  {
    Vaa.SynthesizedParses(key, bytes);
    ParseIffSerialized(payload, bytes);
    hide SerializePayload, Utx0.Parse, Vaa.Parse, Vaa.Body, Vaa.Synthesized, VaaDigest;
  }

  lemma ServiceSigns(v: Service, cfg: Prepare.Config, payload: Payload, bytes: seq<u8>, sequence: u64,
                     reservation: CustodyReservation, persisted: Option<seq<u8>>, p: Prepare.Prepared)
    requires SerializePayload(payload) == Ok(bytes)
    requires payload.managerSetIndex == 0 && payload.destinationChain == DOGECOIN
    requires payload.outputs != [] && reservation.utxos != []
    requires Prepare.PreparedFromReservation(v.crypto, cfg, LocalSet(v), payload, reservation, persisted) == Ok(p)
    ensures var g := RegistrationOf(cfg, sequence, bytes, reservation, p);
            && |p.transaction.redeemScripts| == |p.transaction.inputs|
            && VaaDigest(v.keccak, Vaa.Synthesized(g.key, bytes)).Ok?
            && BuildSigned(v, g) == Ok(Signed(Vaa.Synthesized(g.key, bytes), p.unsignedBytes,
                 Signatures(true, VaaDigest(v.keccak, Vaa.Synthesized(g.key, bytes)).value, DOGECOIN, 0, LOCAL_M,
                            LOCAL_N, SignAll(v, p.transaction))))
  {
    var g := RegistrationOf(cfg, sequence, bytes, reservation, p);
    ParseIffSerialized(payload, bytes);
    Vaa.SynthesizedParses(g.key, bytes);
    SameTransaction(v, cfg, payload, g.key, reservation, persisted, p);
    Prepare.PreparedShape(v.crypto, cfg, LocalSet(v), payload, reservation, persisted, p);
    PlanIsAuthorized(v, cfg, payload, p.plan, p.transaction.logicalOutputs, p.changeHash);
    hide Prepare.PreparedFromReservation, SerializePayload, Utx0.Parse, Vaa.Parse, SignAll, Prepare.RebuildInputs,
         SelectInputs, Prepare.PlannedOutputs, TxBytes, Vaa.Synthesized, NewTransaction, Authorized, Assemble;
  }

  /** The service rebuilds the very transaction that the operator prepared. */
  lemma SameTransaction(v: Service, cfg: Prepare.Config, payload: Payload, key: Vaa.Key,
                        reservation: CustodyReservation, persisted: Option<seq<u8>>, p: Prepare.Prepared)
    requires payload.outputs != [] && reservation.utxos != []
    requires key.emitterChain == Prepare.SOLANA_EMITTER_CHAIN && key.emitterAddress == cfg.emitter
    requires Prepare.PreparedFromReservation(v.crypto, cfg, LocalSet(v), payload, reservation, persisted) == Ok(p)
    ensures SelectInputs(v, key, RegisteredInputs(reservation.utxos)).Ok?
    ensures NewTransaction(SelectInputs(v, key, RegisteredInputs(reservation.utxos)).value,
                           p.transaction.logicalOutputs)
         == Ok(p.transaction)
    ensures |p.transaction.redeemScripts| == |p.transaction.inputs|
  {
    Prepare.PreparedShape(v.crypto, cfg, LocalSet(v), payload, reservation, persisted, p);
    Prepare.RebuiltInputs(v.crypto, cfg, LocalSet(v), reservation.utxos);
    SameInputs(v, cfg, key, reservation.utxos);
    hide Prepare.PreparedFromReservation, Prepare.RebuildInputs, SelectInputs, TxBytes, Prepare.RebuildInput,
         Prepare.CustodyScript;
  }

  lemma SignedRegistration(v: Service, g: Registration) returns (payload: Payload)
    requires BuildSigned(v, g).Ok?
    ensures Utx0.Parse(g.payload) == Ok(payload) && g.inputs != []
    ensures payload.managerSetIndex == 0 && payload.destinationChain == DOGECOIN && payload.outputs != []
  {
    hide TxBytes, NewTransaction, SelectInputs, VaaDigest, Authorized, Vaa.Synthesized, SignAll, Utx0.Parse;
    payload := Utx0.Parse(g.payload).value;
  }

  /** End to end: whatever the operator prepares, if the service signs its registration and the
      operator applies the signatures of the response, then the response has passed the operator's
      checks, and the result pays the prepared outputs and spends every reserved UTXO. */
  lemma PreparedSignedSpends(v: Service, cfg: Prepare.Config, payload: Payload, bytes: seq<u8>, sequence: u64,
                             reservation: CustodyReservation, persisted: Option<seq<u8>>, p: Prepare.Prepared,
                             s: Signed, u: Tx)
    requires Faithful(v) && SerializePayload(payload) == Ok(bytes)
    requires Prepare.PreparedFromReservation(v.crypto, cfg, LocalSet(v), payload, reservation, persisted) == Ok(p)
    requires BuildSigned(v, RegistrationOf(cfg, sequence, bytes, reservation, p)) == Ok(s)
    ensures AssertVaaAndManager(v.keccak, s.signedVaa, s.signatures,
                                RegistrationOf(cfg, sequence, bytes, reservation, p).key, payload, LocalSet(v)).Ok?
    ensures Accepts(v.crypto, p.transaction, LocalSet(v), s.signatures.signers)
    ensures Uniform(s.signatures.signers, |p.transaction.inputs|)
    ensures SignedUpTo(p.transaction, LocalSet(v), s.signatures.signers, u, |p.transaction.inputs|) ==>
              && |u.inputs| == |reservation.utxos| && u.outputs == p.transaction.outputs
              && forall i :: 0 <= i < |u.inputs| ==>
                   Prepare.SpendsStored(v.crypto, cfg.encodeP2sh, u, i, reservation.utxos[i])
  {
    var g := RegistrationOf(cfg, sequence, bytes, reservation, p);
    var parsed := SignedRegistration(v, g);
    ParseIffSerialized(payload, bytes);
    hide Prepare.PreparedFromReservation, BuildSigned, SerializePayload, Utx0.Parse, AssertVaaAndManager, Accepts,
         Faithful, SignAll, Selected, Prepare.SpendsStored, ScriptSig;
    var t := ServiceServesOperator(v, cfg, payload, bytes, sequence, reservation, persisted, p);
    AcceptedIsUniform(v.crypto, p.transaction, LocalSet(v), s.signatures.signers);
    if SignedUpTo(p.transaction, LocalSet(v), s.signatures.signers, u, |p.transaction.inputs|) {
      Prepare.PreparedSpends(v.crypto, cfg, LocalSet(v), payload, reservation, persisted, p, s.signatures.signers, u);
    }
  }
}
