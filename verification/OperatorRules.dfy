/** The operator's own rules for the bytes it persists, and what they say about the planned change: a
    signed transaction returns what its reservation selected beyond what it required, and what is
    derived from a confirmed one is that change. */
module OperatorRules {
  import opened Bytes
  import opened Utx0
  import opened OperatorRows
  import opened Wire
  import opened Sighash
  import opened Script
  import opened Redeem
  import opened Signing
  import opened Prepare
  import opened Store
  import opened Withdrawal
  import opened Resume
  import BroadcastRecovery
  import Machine
  import Manager

  // ---- The rules ----

  ghost predicate PreparedWith(n: Network, payload: Payload, r: CustodyReservation, unsigned: seq<u8>, fee: u64,
                               dust: u64)
  {
    && payload.destinationChain == DOGECOIN && n.managers(payload.managerSetIndex).Ok?
    && var p := PreparedFromReservation(n.crypto, n.Config(fee, dust), n.managers(payload.managerSetIndex).value,
                                        payload, r, None);
       p.Ok? && p.value.unsignedBytes == unsigned
  }

  /** The bytes are those of the transaction prepared afresh, under some fee and dust threshold. */
  ghost predicate IsPrepared(n: Network, payload: Payload, r: CustodyReservation, unsigned: seq<u8>)
  { exists fee: u64, dust: u64 :: PreparedWith(n, payload, r, unsigned, fee, dust) }

  ghost predicate SignedWith(n: Network, payload: Payload, r: CustodyReservation, unsigned: seq<u8>, raw: seq<u8>,
                             fee: u64, dust: u64, signers: seq<SignerSignatures>)
  {
    && n.managers(payload.managerSetIndex).Ok?
    && var ms := n.managers(payload.managerSetIndex).value;
       var p := PreparedFromReservation(n.crypto, n.Config(fee, dust), ms, payload, r, Some(unsigned));
       && p.Ok? && Accepts(n.crypto, p.value.transaction, ms, signers)
       && Uniform(signers, |p.value.transaction.inputs|)
       && raw == TxBytes(Applied(p.value.transaction, ms, signers))
  }

  /** The bytes are those of the transaction recovered from the unsigned ones, with accepted Manager
      signatures applied. */
  ghost predicate IsSigned(n: Network, payload: Payload, r: CustodyReservation, unsigned: seq<u8>, raw: seq<u8>)
  { exists fee: u64, dust: u64, signers :: SignedWith(n, payload, r, unsigned, raw, fee, dust, signers) }

  ghost function RulesOf(n: Network): Machine.Rules
  {
    Machine.Rules((payload, r, unsigned) => IsPrepared(n, payload, r, unsigned),
                  (payload, r, unsigned, raw) => IsSigned(n, payload, r, unsigned, raw))
  }

  // ---- Planned change ----

  /** What was signed passes the rule, and returns exactly what the reservation does not require. */
  lemma SignedIsPlanned(e: Settings, payload: Payload, sequence: u64, unsigned: Option<seq<u8>>, r: CustodyReservation,
                        response: Result<Response>, answer: SignedAnswer)
    requires Sign(e, payload, sequence, unsigned, r, response) == Ok(answer)
    ensures r.required + answer.change == r.selected && answer.outputs == |payload.outputs|
    ensures unsigned.Some? && IsSigned(e.network, payload, r, unsigned.value, answer.bytes)
  {
    var ms := e.network.managers(payload.managerSetIndex).value;
    var p := PreparedFromReservation(e.network.crypto, e.Config(), ms, payload, r, unsigned).value;
    var signers := response.value.signatures.signers;
    hide PreparedFromReservation, Manager.AssertVaaAndManager, Accepts, TxBytes, Applied, CustodyInputs, NewOutputs,
         Total;
    PreparedPaysExactly(e.network.crypto, e.Config(), ms, payload, r, unsigned, p);
    AcceptedIsUniform(e.network.crypto, p.transaction, ms, signers);
    assert SignedWith(e.network, payload, r, unsigned.value, answer.bytes, e.fee, e.dust, signers);
  }

  /** Whatever the confirmed outputs are, a change that is derived from them is the planned one. */
  lemma DerivedIsPlanned(e: Settings, s: StoreState, sig: Signature, b: Batch, confirmed: Result<seq<TxOut>>,
                         change: Option<CustodyUtxo>)
    requires Derive(e, s, sig, b, confirmed) == Ok(change)
    ensures Machine.ChangeMatches(change, Machine.ChangeOf(s, sig))
    ensures change.Some? ==>
              && confirmed.Ok? && confirmed.value != [] && ReservedFor(s, b)
              && var u, rows := change.value, Rows(s.utxos, s.reservations[b.reservation.value].utxos);
                 && u.scriptPubkey == Some(confirmed.value[|confirmed.value| - 1].scriptPubkey)
                 && (exists hash: Hash20 :: u.scriptPubkey == Some(P2shScript(hash))
                                            && e.network.encodeP2sh(hash) == Ok(u.address))
                 && rows != [] && forall k :: 0 <= k < |rows| ==> u.keyReference == rows[k].keyReference
  {
    BroadcastRecovery.GraphFields(s, sig, b);
    hide LoadGraph, ParsePersisted, ParseStandardOutput, Rows, ChangeInputs;
    if change.Some? {
      var output := confirmed.value[|confirmed.value| - 1];
      var hash := ParseStandardOutput(output.scriptPubkey).value.1;
      P2shParsed(output.scriptPubkey, hash);
    }
  }

  ghost predicate ReservedFor(s: StoreState, b: Batch)
  { b.reservation.Some? && b.reservation.value in s.reservations }

  lemma P2shParsed(script: seq<u8>, hash: Hash20)
    requires ParseStandardOutput(script) == Ok((P2sh, hash))
    ensures script == P2shScript(hash)
  {
  }

  // ---- When preparing, signing and deriving succeed ----

  lemma {:induction false} RebuildIgnoresFees(c: Crypto, a: Config, b: Config, ms: ManagerSet, utxos: seq<CustodyUtxo>)
    requires a.emitter == b.emitter && a.encodeP2sh == b.encodeP2sh
    ensures RebuildInputs(c, a, ms, utxos) == RebuildInputs(c, b, ms, utxos)
  {
    hide BuildRedeemScript;
    if utxos != [] { RebuildIgnoresFees(c, a, b, ms, utxos[1..]); }
  }

  /** Fee and dust threshold decide whether a transaction is prepared, not which. */
  lemma SamePrepared(c: Crypto, a: Config, b: Config, ms: ManagerSet, payload: Payload, r: CustodyReservation)
    requires a.emitter == b.emitter && a.encodeP2sh == b.encodeP2sh
    requires PreparedFromReservation(c, a, ms, payload, r, None).Ok?
    requires PreparedFromReservation(c, b, ms, payload, r, None).Ok?
    ensures PreparedFromReservation(c, a, ms, payload, r, None).value.unsignedBytes
         == PreparedFromReservation(c, b, ms, payload, r, None).value.unsignedBytes
  {
    var p, q := PreparedFromReservation(c, a, ms, payload, r, None).value,
      PreparedFromReservation(c, b, ms, payload, r, None).value;
    RebuildIgnoresFees(c, a, b, ms, r.utxos);
    PreparedShape(c, a, ms, payload, r, None, p);
    PreparedShape(c, b, ms, payload, r, None, q);
    PreparedPaysExactly(c, a, ms, payload, r, None, p);
    PreparedPaysExactly(c, b, ms, payload, r, None, q);
    hide PreparedFromReservation, RebuildInputs, TxBytes, Assemble, CustodyInputs, BuildRedeemScript, Total, NewOutputs;
  }

  /** What was once prepared is recovered from its bytes whenever the reservation still affords the
      payload under the present fee and dust threshold, and has at most 1000 UTXOs. */
  lemma PreparesAgain(e: Settings, payload: Payload, r: CustodyReservation, unsigned: seq<u8>)
    requires IsPrepared(e.network, payload, r, unsigned) && Affords(e.Config(), payload, r)
    requires |r.utxos| <= MAX_PERSISTED_INPUTS && |payload.outputs| <= SNAPSHOT_PROOF_MAX_BATCH
    ensures e.network.managers(payload.managerSetIndex).Ok? && payload.destinationChain == DOGECOIN
    ensures var ms := e.network.managers(payload.managerSetIndex).value;
            PreparedFromReservation(e.network.crypto, e.Config(), ms, payload, r, Some(unsigned)).Ok?
  {
    var c, n := e.network.crypto, e.network;
    var fee: u64, dust: u64 :| PreparedWith(n, payload, r, unsigned, fee, dust);
    var ms := n.managers(payload.managerSetIndex).value;
    hide PreparedFromReservation, Affords, RebuildInput;
    PreparesIffAffords(c, n.Config(fee, dust), ms, payload, r);
    forall k | 0 <= k < |r.utxos| ensures RebuildInput(c, e.Config(), ms, r.utxos[k]).Ok? {
      OneRebuildIgnoresFees(c, n.Config(fee, dust), e.Config(), ms, r.utxos[k]);
    }
    PreparesIffAffords(c, e.Config(), ms, payload, r);
    SamePrepared(c, n.Config(fee, dust), e.Config(), ms, payload, r);
    CappedBatchRecovers(c, e.Config(), ms, payload, r,
                        PreparedFromReservation(c, e.Config(), ms, payload, r, None).value);
  }

  lemma OneRebuildIgnoresFees(c: Crypto, a: Config, b: Config, ms: ManagerSet, u: CustodyUtxo)
    requires a.emitter == b.emitter && a.encodeP2sh == b.encodeP2sh
    ensures RebuildInput(c, a, ms, u) == RebuildInput(c, b, ms, u)
  {
    hide BuildRedeemScript;
  }

  /** The Managers answer, and what they answer is right for the transaction they were asked to sign. */
  ghost predicate Answered(e: Settings, payload: Payload, sequence: u64, unsigned: Option<seq<u8>>,
                           r: CustodyReservation, response: Result<Response>)
  {
    response.Ok? &&
    var answer, ms := response.value, e.network.managers(payload.managerSetIndex);
    ms.Ok? ==>
      var p := PreparedFromReservation(e.network.crypto, e.Config(), ms.value, payload, r, unsigned);
      p.Ok? ==>
        && Manager.AssertVaaAndManager(e.network.keccak, answer.signedVaa, answer.signatures, KeyOf(e, sequence),
                                       payload, ms.value).Ok?
        && Accepts(e.network.crypto, p.value.transaction, ms.value, answer.signatures.signers)
  }

  lemma SigningSucceeds(e: Settings, payload: Payload, sequence: u64, unsigned: seq<u8>, r: CustodyReservation,
                        response: Result<Response>)
    requires IsPrepared(e.network, payload, r, unsigned) && Affords(e.Config(), payload, r)
    requires |r.utxos| <= MAX_PERSISTED_INPUTS && |payload.outputs| <= SNAPSHOT_PROOF_MAX_BATCH
    requires Answered(e, payload, sequence, Some(unsigned), r, response)
    ensures Sign(e, payload, sequence, Some(unsigned), r, response).Ok?
  {
    PreparesAgain(e, payload, r, unsigned);
    hide PreparedFromReservation, IsPrepared, Affords, Manager.AssertVaaAndManager, Accepts, TxBytes, Applied;
  }

  /** Electrs decodes the bytes to a transaction and shows its outputs. */
  ghost predicate ShowsOutputs(raw: seq<u8>, confirmed: Result<seq<TxOut>>)
  { exists t: Tx :: TxBytes(t) == raw && FitsIns(t.inputs) && FitsOuts(t.outputs) && confirmed == Ok(t.outputs) }

  lemma SignedFits(n: Network, payload: Payload, r: CustodyReservation, unsigned: seq<u8>, raw: seq<u8>,
                   fee: u64, dust: u64, signers: seq<SignerSignatures>)
    requires SignedWith(n, payload, r, unsigned, raw, fee, dust, signers)
    ensures var ms := n.managers(payload.managerSetIndex).value;
            var p := PreparedFromReservation(n.crypto, n.Config(fee, dust), ms, payload, r, Some(unsigned)).value;
            && |p.transaction.redeemScripts| >= |p.transaction.inputs| && Uniform(signers, |p.transaction.inputs|)
            && var t := Applied(p.transaction, ms, signers);
               FitsIns(t.inputs) && FitsOuts(t.outputs) && t.outputs == p.transaction.outputs
  {
    var ms := n.managers(payload.managerSetIndex).value;
    var cfg := n.Config(fee, dust);
    var p := PreparedFromReservation(n.crypto, cfg, ms, payload, r, Some(unsigned)).value;
    hide PreparedFromReservation, Accepts, TxBytes, Total, Selected;
    RecoveryIffSameBytes(n.crypto, cfg, ms, payload, r, unsigned, p);
    PreparedPaysExactly(n.crypto, cfg, ms, payload, r, Some(unsigned), p);
    AcceptedIsUniform(n.crypto, p.transaction, ms, signers);
    forall i | 0 <= i < |p.transaction.redeemScripts|
      ensures |p.transaction.redeemScripts[i]| <= MAX_ELEMENT_SIZE
    { RedeemLength(SOLANA_EMITTER_CHAIN, n.emitter, Recipients(r.utxos)[i], ms.m, ms.pubkeys); }
    AppliedFits(n.crypto, p.transaction, ms, signers);
  }

  /** So it shows the outputs that were prepared: no other transaction has the bytes that were signed. */
  lemma ShownIsSigned(t: Tx, raw: seq<u8>, confirmed: Result<seq<TxOut>>)
    requires ShowsOutputs(raw, confirmed) && TxBytes(t) == raw && FitsIns(t.inputs) && FitsOuts(t.outputs)
    ensures confirmed == Ok(t.outputs)
  {
    hide FitsIns, FitsOuts, SerializeTransaction;
    var u: Tx :| TxBytes(u) == raw && FitsIns(u.inputs) && FitsOuts(u.outputs) && confirmed == Ok(u.outputs);
    assert TxBytes(t) + [] == TxBytes(u) + [];
    TransactionInjective(t.version, t.inputs, t.outputs, t.locktime, [], u.version, u.inputs, u.outputs, u.locktime,
                         []);
  }

  /** Every script hash has a P2SH address. */
  ghost predicate Encodes(n: Network) { forall hash :: n.encodeP2sh(hash).Ok? }

  /** The change of a signed transaction is derived from its confirmed outputs, provided the selected
      UTXOs share a key reference if there is any change. */
  lemma DerivingSucceeds(e: Settings, payload: Payload, r: CustodyReservation, unsigned: seq<u8>, raw: seq<u8>,
                         confirmed: Result<seq<TxOut>>, txid: Hash32)
    requires IsSigned(e.network, payload, r, unsigned, raw) && ShowsOutputs(raw, confirmed) && Encodes(e.network)
    requires r.required <= r.selected && (r.selected == r.required || OneKey(r.utxos))
    ensures confirmed.Ok?
    ensures DeriveConfirmedChange(e.Config(), ChangeRecord(|payload.outputs|, r.selected - r.required), Some(unsigned),
                                  r.utxos, |payload.outputs|, confirmed.value, txid).Ok?
  {
    hide PreparedFromReservation, Accepts, TxBytes, DeriveConfirmedChange, Applied, ShowsOutputs, Encodes, OneKey;
    var fee: u64, dust: u64, signers :| SignedWith(e.network, payload, r, unsigned, raw, fee, dust, signers);
    var ms := e.network.managers(payload.managerSetIndex).value;
    var cfg := e.network.Config(fee, dust);
    var p := PreparedFromReservation(e.network.crypto, cfg, ms, payload, r, Some(unsigned)).value;
    SignedFits(e.network, payload, r, unsigned, raw, fee, dust, signers);
    ShownIsSigned(Applied(p.transaction, ms, signers), raw, confirmed);
    PreparedDerives(e.network, cfg, ms, payload, r, unsigned, p, txid);
    DeriveIgnoresFees(cfg, e.Config(), ChangeRecord(|payload.outputs|, r.selected - r.required), Some(unsigned),
                      r.utxos, |payload.outputs|, confirmed.value, txid);
  }

  lemma PreparedDerives(n: Network, cfg: Config, ms: ManagerSet, payload: Payload, r: CustodyReservation,
                        unsigned: seq<u8>, p: Prepared, txid: Hash32)
    requires PreparedFromReservation(n.crypto, cfg, ms, payload, r, Some(unsigned)) == Ok(p)
    requires cfg.encodeP2sh == n.encodeP2sh && Encodes(n)
    requires r.required <= r.selected && (r.selected == r.required || OneKey(r.utxos))
    ensures DeriveConfirmedChange(cfg, ChangeRecord(|payload.outputs|, r.selected - r.required), Some(unsigned),
                                  r.utxos, |payload.outputs|, p.transaction.outputs, txid).Ok?
  {
    hide PreparedFromReservation, TxBytes, DeriveConfirmedChange, CustodyInputs, Total, NewOutputs, OneKey;
    RecoveryIffSameBytes(n.crypto, cfg, ms, payload, r, unsigned, p);
    PreparedPaysExactly(n.crypto, cfg, ms, payload, r, Some(unsigned), p);
    PlannedHash(n.crypto, cfg, ms, payload, r, unsigned, p);
    ConfirmedChangeIsPlanned(n.crypto, cfg, ms, payload, r, p, p.transaction.outputs, txid);
  }

  lemma PlannedHash(c: Crypto, cfg: Config, ms: ManagerSet, payload: Payload, r: CustodyReservation, unsigned: seq<u8>,
                    p: Prepared)
    requires PreparedFromReservation(c, cfg, ms, payload, r, Some(unsigned)) == Ok(p)
    ensures p.plan.changeSats != 0 ==> p.changeHash.Some?
  {
    PreparedShape(c, cfg, ms, payload, r, Some(unsigned), p);
    hide PreparedFromReservation, BuildRedeemScript;
  }

  lemma DeriveIgnoresFees(a: Config, b: Config, record: ChangeRecord, unsigned: Option<seq<u8>>,
                          utxos: seq<CustodyUtxo>, outputCount: nat, confirmed: seq<TxOut>, txid: Hash32)
    requires a.encodeP2sh == b.encodeP2sh
    ensures DeriveConfirmedChange(a, record, unsigned, utxos, outputCount, confirmed, txid)
         == DeriveConfirmedChange(b, record, unsigned, utxos, outputCount, confirmed, txid)
  {
    hide ParsePersisted, ChangeInputs, ParseStandardOutput;
  }
}
