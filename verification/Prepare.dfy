/** Planning a withdrawal, rebuilding its unsigned transaction from a custody reservation, and
    recovering the change it returned. */
module Prepare {
  import opened Bytes
  import opened Utx0
  import opened OperatorRows
  import opened Wire
  import opened WireLayout
  import opened WireProofs
  import opened Script
  import opened Redeem
  import opened Signing

  const SOLANA_EMITTER_CHAIN: u16 := 1
  const SNAPSHOT_PROOF_MAX_BATCH := 319

  // ---- Exact planning ----

  datatype Plan = Plan(recipientSats: u64, changeSats: u64, feeSats: u64)

  function PlanCustody(selected: u64, recipient: u64, fee: u64, dust: u64): Result<Plan>
  {
    if recipient == 0 then Err
    else if recipient + fee >= U64_LIMIT then Err
    else if selected < recipient + fee then Err
    else
      var change := selected - (recipient + fee);
      if change != 0 && change < dust then Err else Ok(Plan(recipient, change, fee))
  }

  /** A plan exists exactly when the selected value splits into a positive payment, the stated fee
      and a change that is nothing or not dust; the split is then exact and unique. */
  lemma PlanIffSplit(selected: u64, recipient: u64, fee: u64, dust: u64, p: Plan)
    ensures PlanCustody(selected, recipient, fee, dust) == Ok(p) <==>
              && p.recipientSats == recipient > 0 && p.feeSats == fee
              && selected == p.recipientSats + p.changeSats + p.feeSats
              && (p.changeSats == 0 || p.changeSats >= dust)
  {}

  function Total(outputs: seq<Output>): nat
  { if outputs == [] then 0 else outputs[0].amount + Total(outputs[1..]) }

  /** The overflow-checked running sum. */
  function CheckedSum(outputs: seq<Output>, acc: u64): Result<u64>
  {
    if outputs == [] then Ok(acc)
    else if acc + outputs[0].amount >= U64_LIMIT then Err
    else CheckedSum(outputs[1..], acc + outputs[0].amount)
  }

  lemma {:induction false} CheckedSumExact(outputs: seq<Output>, acc: u64)
    ensures CheckedSum(outputs, acc) == if acc + Total(outputs) < U64_LIMIT then Ok(acc + Total(outputs)) else Err
  {
    if outputs != [] && acc + outputs[0].amount < U64_LIMIT {
      CheckedSumExact(outputs[1..], acc + outputs[0].amount);
    }
  }

  lemma {:induction false} TotalAppend(outputs: seq<Output>, o: Output)
    ensures Total(outputs + [o]) == Total(outputs) + o.amount
  {
    if outputs == [] {
      assert outputs + [o] == [o] && [o][1..] == [];
    } else {
      TotalAppend(outputs[1..], o);
      assert (outputs + [o])[1..] == outputs[1..] + [o];
    }
  }

  // ---- Custody inputs ----

  /** Run parameters: fee, dust threshold, the bridge as emitter, and the network's P2SH address
      encoding. */
  datatype Config = Config(fee: u64, dust: u64, emitter: Hash32, encodeP2sh: Hash20 -> Result<string>)

  function CustodyScript(cfg: Config, ms: ManagerSet, recipient: Hash32): Result<seq<u8>>
  { BuildRedeemScript(SOLANA_EMITTER_CHAIN, cfg.emitter, recipient, ms.m, ms.pubkeys) }

  /** Rebuilds one input and refuses it when the stored address or script is not its own. */
  function RebuildInput(c: Crypto, cfg: Config, ms: ManagerSet, u: CustodyUtxo): Result<SelectedUtxo>
  {
    var redeem :- CustodyScript(cfg, ms, u.originalRecipient);
    var address :- cfg.encodeP2sh(c.hash160(redeem));
    if address != u.address then Err
    else if u.scriptPubkey.Some? && u.scriptPubkey.value != P2shScript(c.hash160(redeem)) then Err
    else Ok(SelectedUtxo(Reverse(u.txid), u.vout, redeem))
  }

  /** The input is the UTXO's outpoint with the custody script of its depositor, which is encoded in the
      stored address and, if a script is stored, hashed in it. */
  ghost predicate IsRebuilt(c: Crypto, cfg: Config, ms: ManagerSet, u: CustodyUtxo, s: SelectedUtxo)
  {
    && 1 <= ms.m <= |ms.pubkeys| <= 13
    && s.vout == u.vout && (forall k :: 0 <= k < 32 ==> s.transactionId[k] == u.txid[31 - k])
    && IsRedeemScript(s.redeemScript, 1, cfg.emitter, u.originalRecipient, ms.m, ms.pubkeys)
    && cfg.encodeP2sh(c.hash160(s.redeemScript)) == Ok(u.address)
    && (u.scriptPubkey.Some? ==> IsScriptFor(u.scriptPubkey.value, Output(0, P2sh, c.hash160(s.redeemScript))))
  }

  /** An input is rebuilt exactly if it is such, and then as nothing else. */
  lemma RebuiltExactly(c: Crypto, cfg: Config, ms: ManagerSet, u: CustodyUtxo, s: SelectedUtxo)
    ensures RebuildInput(c, cfg, ms, u) == Ok(s) <==> IsRebuilt(c, cfg, ms, u, s)
  {
    hide RedeemBytes, IsRedeemScript, IsScriptFor, P2shScript;
    if ValidMultisig(ms.m, |ms.pubkeys|) {
      var redeem := RedeemBytes(1, cfg.emitter, u.originalRecipient, ms.m, ms.pubkeys);
      RedeemLayout(1, cfg.emitter, u.originalRecipient, ms.m, ms.pubkeys);
      if IsRebuilt(c, cfg, ms, u, s) {
        RedeemUnique(s.redeemScript, 1, cfg.emitter, u.originalRecipient, ms.m, ms.pubkeys);
        assert s.transactionId == Reverse(u.txid);
      }
      if u.scriptPubkey.Some? { ScriptLayout(u.scriptPubkey.value, Output(0, P2sh, c.hash160(redeem))); }
    }
  }

  function RebuildInputs(c: Crypto, cfg: Config, ms: ManagerSet, utxos: seq<CustodyUtxo>): Result<seq<SelectedUtxo>>
  {
    if utxos == [] then Ok([])
    else
      var head :- RebuildInput(c, cfg, ms, utxos[0]);
      var tail :- RebuildInputs(c, cfg, ms, utxos[1..]);
      Ok([head] + tail)
  }

  datatype Prepared = Prepared(transaction: Tx, unsignedBytes: seq<u8>, plan: Plan, changeHash: Option<Hash20>)

  /** The payload's outputs, followed by the change output if there is any change. */
  function PlannedOutputs(c: Crypto, cfg: Config, ms: ManagerSet, payload: Payload, plan: Plan)
    : Result<(seq<Output>, Option<Hash20>)>
  {
    if plan.changeSats == 0 then Ok((payload.outputs, None))
    else
      var redeem :- CustodyScript(cfg, ms, seq(32, _ => 0));
      var hash := c.hash160(redeem);
      Ok((payload.outputs + [Output(plan.changeSats, P2sh, hash)], Some(hash)))
  }

  /** Builds the withdrawal transaction, or recovers it from bytes persisted earlier. */
  function PreparedFromReservation(c: Crypto, cfg: Config, ms: ManagerSet, payload: Payload,
                                   reservation: CustodyReservation, persisted: Option<seq<u8>>): Result<Prepared>
  {
    var withdrawal :- CheckedSum(payload.outputs, 0);
    if withdrawal + cfg.fee >= U64_LIMIT || reservation.required != withdrawal + cfg.fee then Err
    else
      var plan :- PlanCustody(reservation.selected, withdrawal, cfg.fee, cfg.dust);
      var inputs :- RebuildInputs(c, cfg, ms, reservation.utxos);
      var (outputs, changeHash) :- PlannedOutputs(c, cfg, ms, payload, plan);
      var transaction :- if persisted.None? then NewTransaction(inputs, outputs)
                         else ParsePersisted(persisted.value, inputs);
      if persisted.Some? && transaction.logicalOutputs != outputs then Err
      else if persisted.Some? && persisted.value != TxBytes(transaction) then Err
      else Ok(Prepared(transaction, TxBytes(transaction), plan, changeHash))
  }

  // ---- What a prepared transaction is ----

  lemma {:induction false} RebuiltInputs(c: Crypto, cfg: Config, ms: ManagerSet, utxos: seq<CustodyUtxo>)
    requires RebuildInputs(c, cfg, ms, utxos).Ok?
    ensures |RebuildInputs(c, cfg, ms, utxos).value| == |utxos|
    ensures forall k :: 0 <= k < |utxos| ==>
              RebuildInput(c, cfg, ms, utxos[k]) == Ok(RebuildInputs(c, cfg, ms, utxos).value[k])
  {
    if utxos != [] {
      RebuiltInputs(c, cfg, ms, utxos[1..]);
    }
  }

  function Recipients(utxos: seq<CustodyUtxo>): (r: seq<Hash32>)
    ensures |r| == |utxos| && forall k :: 0 <= k < |r| ==> r[k] == utxos[k].originalRecipient
  { seq(|utxos|, k requires 0 <= k < |utxos| => utxos[k].originalRecipient) }

  lemma PreparedShape(c: Crypto, cfg: Config, ms: ManagerSet, payload: Payload, reservation: CustodyReservation,
                      persisted: Option<seq<u8>>, p: Prepared)
    requires PreparedFromReservation(c, cfg, ms, payload, reservation, persisted) == Ok(p)
    ensures RebuildInputs(c, cfg, ms, reservation.utxos).Ok?
    ensures p.transaction == Assemble(RebuildInputs(c, cfg, ms, reservation.utxos).value, p.transaction.logicalOutputs)
    ensures PlannedOutputs(c, cfg, ms, payload, p.plan) == Ok((p.transaction.logicalOutputs, p.changeHash))
    ensures p.unsignedBytes == TxBytes(p.transaction)
    ensures persisted.Some? ==>
              ParsePersisted(persisted.value, RebuildInputs(c, cfg, ms, reservation.utxos).value) == Ok(p.transaction)
  {
    hide TxBytes, ParsePersisted, PlannedOutputs, RebuildInputs, NewInputs, NewOutputs, CheckedSum;
    var inputs := RebuildInputs(c, cfg, ms, reservation.utxos).value;
    assert p.transaction.logicalOutputs == PlannedOutputs(c, cfg, ms, payload, p.plan).value.0;
    if persisted.Some? { AcceptedIffPrinted(persisted.value, inputs, p.transaction); }
  }

  lemma PreparedInputs(c: Crypto, cfg: Config, ms: ManagerSet, utxos: seq<CustodyUtxo>, inputs: seq<SelectedUtxo>,
                       outputs: seq<Output>)
    requires RebuildInputs(c, cfg, ms, utxos) == Ok(inputs)
    ensures CustodyInputs(Assemble(inputs, outputs), ms, SOLANA_EMITTER_CHAIN, cfg.emitter, Recipients(utxos))
  {
    hide BuildRedeemScript;
    RebuiltInputs(c, cfg, ms, utxos);
  }

  lemma {:induction false} RebuildsIffEach(c: Crypto, cfg: Config, ms: ManagerSet, utxos: seq<CustodyUtxo>)
    ensures RebuildInputs(c, cfg, ms, utxos).Ok? <==>
              forall k :: 0 <= k < |utxos| ==> RebuildInput(c, cfg, ms, utxos[k]).Ok?
  {
    hide RebuildInput;
    if utxos != [] {
      RebuildsIffEach(c, cfg, ms, utxos[1..]);
      assert forall k :: 1 <= k < |utxos| ==> utxos[k] == utxos[1..][k - 1];
      if forall k :: 0 <= k < |utxos| ==> RebuildInput(c, cfg, ms, utxos[k]).Ok? {
        assert RebuildInput(c, cfg, ms, utxos[0]).Ok?;
        assert forall k :: 0 <= k < |utxos[1..]| ==> RebuildInput(c, cfg, ms, utxos[1..][k]).Ok?;
      }
    }
  }

  /** The reservation is worth the payload, the fee, and a change that is nothing or not dust. */
  predicate Affords(cfg: Config, payload: Payload, reservation: CustodyReservation)
  {
    var total := Total(payload.outputs);
    && total > 0 && total + cfg.fee == reservation.required <= reservation.selected
    && (reservation.selected == reservation.required || reservation.selected - reservation.required >= cfg.dust)
  }

  /** Preparing afresh succeeds exactly when the reservation affords the payload, has inputs, each of
      them rebuilds to its own stored address and script, and the Manager set can make a script. */
  lemma PreparesIffAffords(c: Crypto, cfg: Config, ms: ManagerSet, payload: Payload, reservation: CustodyReservation)
    ensures PreparedFromReservation(c, cfg, ms, payload, reservation, None).Ok? <==>
              && Affords(cfg, payload, reservation) && reservation.utxos != []
              && (forall k :: 0 <= k < |reservation.utxos| ==> RebuildInput(c, cfg, ms, reservation.utxos[k]).Ok?)
              && ValidMultisig(ms.m, |ms.pubkeys|)
  {
    CheckedSumExact(payload.outputs, 0);
    RebuildsIffEach(c, cfg, ms, reservation.utxos);
    hide RebuildInputs, RebuildInput, CheckedSum, Total, TxBytes, Assemble, RedeemBytes;
    if RebuildInputs(c, cfg, ms, reservation.utxos).Ok? && reservation.utxos != [] {
      RebuiltInputs(c, cfg, ms, reservation.utxos);
      RebuiltIsValid(c, cfg, ms, reservation.utxos[0]);
    }
    if RebuildInputs(c, cfg, ms, reservation.utxos).Ok? { RebuiltInputs(c, cfg, ms, reservation.utxos); }
    if payload.outputs == [] { NoTotal(payload.outputs); }
  }

  lemma RebuiltIsValid(c: Crypto, cfg: Config, ms: ManagerSet, u: CustodyUtxo)
    requires RebuildInput(c, cfg, ms, u).Ok?
    ensures ValidMultisig(ms.m, |ms.pubkeys|)
  {
    hide RedeemBytes;
  }

  lemma NoTotal(outputs: seq<Output>)
    requires outputs == []
    ensures Total(outputs) == 0
  {}

  /** A prepared transaction pays the payload exactly, in order, plus at most a change output back
      into custody; selected value equals outputs plus fee; and each input carries the Manager
      multisig script, so the signing guarantee applies to it. */
  lemma PreparedPaysExactly(c: Crypto, cfg: Config, ms: ManagerSet, payload: Payload, reservation: CustodyReservation,
                            persisted: Option<seq<u8>>, p: Prepared)
    requires PreparedFromReservation(c, cfg, ms, payload, reservation, persisted) == Ok(p)
    ensures payload.outputs <= p.transaction.logicalOutputs
    ensures |p.transaction.logicalOutputs| == |payload.outputs| + if p.plan.changeSats == 0 then 0 else 1
    ensures p.transaction.outputs == NewOutputs(p.transaction.logicalOutputs)
    ensures Total(p.transaction.logicalOutputs) + cfg.fee == reservation.selected
    ensures reservation.required + p.plan.changeSats == reservation.selected
    ensures p.plan.changeSats == 0 || p.plan.changeSats >= cfg.dust
    ensures CustodyInputs(p.transaction, ms, SOLANA_EMITTER_CHAIN, cfg.emitter, Recipients(reservation.utxos))
  {
    hide TxBytes, ParsePersisted, NewTransaction, RebuildInputs, RebuildInput, CustodyScript, CheckedSum, PlanCustody;
    CheckedSumExact(payload.outputs, 0);
    PlanIffSplit(reservation.selected, Total(payload.outputs), cfg.fee, cfg.dust, p.plan);
    PreparedShape(c, cfg, ms, payload, reservation, persisted, p);
    var inputs := RebuildInputs(c, cfg, ms, reservation.utxos).value;
    PreparedInputs(c, cfg, ms, reservation.utxos, inputs, p.transaction.logicalOutputs);
    if p.plan.changeSats != 0 {
      TotalAppend(payload.outputs, p.transaction.logicalOutputs[|payload.outputs|]);
    }
  }

  /** The i-th input spends the reserved UTXO `u`: it names its outpoint, and satisfies the P2SH
      output at its stored address, which is also its stored script if there is one. */
  ghost predicate SpendsStored(c: Crypto, encode: Hash20 -> Result<string>, signed: Tx, i: nat, u: CustodyUtxo)
    requires i < |signed.inputs|
  {
    exists h: Hash20 ::
      && signed.inputs[i].prevTxidLe == u.txid && signed.inputs[i].vout == u.vout
      && encode(h) == Ok(u.address)
      && (u.scriptPubkey.Some? ==> u.scriptPubkey.value == P2shScript(h))
      && Spends(c, signed, i, h)
  }

  /** Whatever Manager set signs a prepared transaction, and whoever of it answers: once accepted and
      applied, the signed transaction has the prepared outputs and spends every UTXO of the
      reservation, in order. */
  lemma PreparedSpends(c: Crypto, cfg: Config, ms: ManagerSet, payload: Payload, reservation: CustodyReservation,
                       persisted: Option<seq<u8>>, p: Prepared, signers: seq<SignerSignatures>, u: Tx)
    requires PreparedFromReservation(c, cfg, ms, payload, reservation, persisted) == Ok(p)
    requires Accepts(c, p.transaction, ms, signers) && Uniform(signers, |p.transaction.inputs|)
    requires SignedUpTo(p.transaction, ms, signers, u, |p.transaction.inputs|)
    ensures |u.inputs| == |reservation.utxos| && u.outputs == p.transaction.outputs
    ensures forall i :: 0 <= i < |u.inputs| ==> SpendsStored(c, cfg.encodeP2sh, u, i, reservation.utxos[i])
  {
    PreparedPaysExactly(c, cfg, ms, payload, reservation, persisted, p);
    PreparedShape(c, cfg, ms, payload, reservation, persisted, p);
    RebuiltInputs(c, cfg, ms, reservation.utxos);
    hide PreparedFromReservation, PlannedOutputs, TxBytes, ParsePersisted, RebuildInputs, RebuildInput, Accepts, Spends,
         Selected, CustodyInputs, NewOutputs, SpendsStored;
    EveryInputSpends(c, p.transaction, ms, signers, u, SOLANA_EMITTER_CHAIN, cfg.emitter,
                     Recipients(reservation.utxos));
    forall i | 0 <= i < |u.inputs| ensures SpendsStored(c, cfg.encodeP2sh, u, i, reservation.utxos[i]) {
      var input := RebuildInputs(c, cfg, ms, reservation.utxos).value[i];
      assert p.transaction.inputs[i] == UnsignedIn(input);
      SpentIsStored(c, cfg, ms, reservation.utxos[i], input, u, i);
    }
  }

  lemma SpentIsStored(c: Crypto, cfg: Config, ms: ManagerSet, u: CustodyUtxo, input: SelectedUtxo, signed: Tx, i: nat)
    requires RebuildInput(c, cfg, ms, u) == Ok(input) && i < |signed.inputs|
    requires signed.inputs[i].prevTxidLe == Reverse(input.transactionId) && signed.inputs[i].vout == input.vout
    requires Spends(c, signed, i, c.hash160(input.redeemScript))
    ensures SpendsStored(c, cfg.encodeP2sh, signed, i, u)
  {
    hide Spends, BuildRedeemScript;
    ReverseTwice(u.txid);
  }

  /** The persisted form is accepted exactly when it is what building afresh produces and the
      transaction fits the persistence limits; then recovery gives the very same result. */
  lemma RecoveryIffSameBytes(c: Crypto, cfg: Config, ms: ManagerSet, payload: Payload, reservation: CustodyReservation,
                             bytes: seq<u8>, p: Prepared)
    ensures PreparedFromReservation(c, cfg, ms, payload, reservation, Some(bytes)) == Ok(p) <==>
              && PreparedFromReservation(c, cfg, ms, payload, reservation, None) == Ok(p)
              && bytes == p.unsignedBytes
              && |p.transaction.inputs| <= MAX_PERSISTED_INPUTS
              && |p.transaction.outputs| <= MAX_PERSISTED_OUTPUTS
  {
    hide TxBytes, ParsePersisted, PlanCustody, CheckedSum, NewInputs, NewOutputs, RedeemScripts;
    var built := PreparedFromReservation(c, cfg, ms, payload, reservation, None);
    var recovered := PreparedFromReservation(c, cfg, ms, payload, reservation, Some(bytes));
    if built.Ok? || recovered.Ok? {
      var inputs := RebuildInputs(c, cfg, ms, reservation.utxos).value;
      AcceptedIffPrinted(bytes, inputs, p.transaction);
      if recovered.Ok? { AcceptedIffPrinted(bytes, inputs, recovered.value.transaction); }
    }
  }

  /** A batch of at most 319 requests over at most 1000 custody inputs always recovers. */
  lemma CappedBatchRecovers(c: Crypto, cfg: Config, ms: ManagerSet, payload: Payload, reservation: CustodyReservation,
                            p: Prepared)
    requires PreparedFromReservation(c, cfg, ms, payload, reservation, None) == Ok(p)
    requires |payload.outputs| <= SNAPSHOT_PROOF_MAX_BATCH
    ensures PreparedFromReservation(c, cfg, ms, payload, reservation, Some(p.unsignedBytes)) == Ok(p) <==>
              |reservation.utxos| <= 1000
  {
    PreparedPaysExactly(c, cfg, ms, payload, reservation, None, p);
    RecoveryIffSameBytes(c, cfg, ms, payload, reservation, p.unsignedBytes, p);
  }

  // ---- Confirmed change ----

  /** The process record's account of the change, written when the transaction was signed. */
  datatype ChangeRecord = ChangeRecord(index: nat, amount: u64)

  function ChangeInputs(utxos: seq<CustodyUtxo>): seq<SelectedUtxo>
  { seq(|utxos|, k requires 0 <= k < |utxos| => SelectedUtxo(Reverse(utxos[k].txid), utxos[k].vout, [0x51])) }

  /** Derives the change UTXO from the confirmed outputs, checked against the record and against
      the persisted unsigned transaction. */
  function DeriveConfirmedChange(cfg: Config, record: ChangeRecord, unsigned: Option<seq<u8>>, utxos: seq<CustodyUtxo>,
                                 outputCount: nat, confirmed: seq<TxOut>, txid: Hash32): Result<Option<CustodyUtxo>>
  {
    if record.amount == 0 then (if |confirmed| != outputCount then Err else Ok(None))
    else if outputCount >= 0x1_0000_0000 || record.index != outputCount || |confirmed| != outputCount + 1 then Err
    else
      var output := confirmed[|confirmed| - 1];
      if output.value != record.amount then Err
      else
        var (addressType, hash) :- ParseStandardOutput(output.scriptPubkey);
        if addressType != P2sh || unsigned.None? then Err
        else
          var recovered :- ParsePersisted(unsigned.value, ChangeInputs(utxos));
          if recovered.logicalOutputs == [] then Err
          else
            var prepared := recovered.logicalOutputs[|recovered.logicalOutputs| - 1];
            if prepared.amount != output.value || prepared.addressType != P2sh || prepared.address != hash then Err
            else if utxos == [] || exists k :: 0 <= k < |utxos| && utxos[k].keyReference != utxos[0].keyReference
              then Err
            else if outputCount >= 0x1_0000 then Err
            else
              var address :- cfg.encodeP2sh(hash);
              Ok(Some(CustodyUtxo(txid, outputCount, output.value, Some(output.scriptPubkey), address,
                                  utxos[0].keyReference, seq(32, _ => 0))))
  }

  lemma ChangeInputsMatch(c: Crypto, cfg: Config, ms: ManagerSet, utxos: seq<CustodyUtxo>)
    requires RebuildInputs(c, cfg, ms, utxos).Ok?
    ensures NewInputs(ChangeInputs(utxos)) == NewInputs(RebuildInputs(c, cfg, ms, utxos).value)
  {
    RebuiltInputs(c, cfg, ms, utxos);
  }

  ghost predicate OneKey(utxos: seq<CustodyUtxo>)
  { forall k :: 0 <= k < |utxos| ==> utxos[k].keyReference == utxos[0].keyReference }

  /** The change that a prepared transaction returns, as the store should track it: under the key of
      every UTXO that was spent, at the script that was confirmed, and for no depositor. */
  ghost predicate PlannedChange(c: Crypto, cfg: Config, ms: ManagerSet, p: Prepared, utxos: seq<CustodyUtxo>,
                                confirmed: seq<TxOut>, txid: Hash32, change: Option<CustodyUtxo>)
  {
    && (change.None? <==> p.plan.changeSats == 0)
    && (change.Some? ==>
          && change.value.amount == p.plan.changeSats && change.value.txid == txid
          && change.value.vout == |confirmed| - 1
          && change.value.scriptPubkey == Some(confirmed[|confirmed| - 1].scriptPubkey)
          && p.changeHash.Some? && cfg.encodeP2sh(p.changeHash.value) == Ok(change.value.address)
          && utxos != [] && (forall k :: 0 <= k < |utxos| ==> change.value.keyReference == utxos[k].keyReference)
          && (forall k :: 0 <= k < 32 ==> change.value.originalRecipient[k] == 0)
          && RebuildInput(c, cfg, ms, change.value).Ok?)
  }

  /** The confirmed transaction has as many outputs as the prepared one, and returns the same change. */
  predicate ReturnsChange(p: Prepared, confirmed: seq<TxOut>)
  {
    && |confirmed| == |p.transaction.outputs|
    && (p.plan.changeSats != 0 && confirmed != [] ==>
          confirmed[|confirmed| - 1] == p.transaction.outputs[|confirmed| - 1])
  }

  /** Whatever the confirmed outputs are, deriving the change succeeds exactly when they return the
      change of the prepared transaction, its address can be encoded and the key references agree.
      What is derived is the planned change, and that UTXO can in turn be rebuilt as an input of a
      later withdrawal. */
  lemma ConfirmedChangeIsPlanned(c: Crypto, cfg: Config, ms: ManagerSet, payload: Payload,
                                 reservation: CustodyReservation, p: Prepared, confirmed: seq<TxOut>, txid: Hash32)
    requires PreparedFromReservation(c, cfg, ms, payload, reservation, Some(p.unsignedBytes)) == Ok(p)
    ensures |payload.outputs| <= MAX_PERSISTED_OUTPUTS
    ensures var r := DeriveConfirmedChange(cfg, ChangeRecord(|payload.outputs|, p.plan.changeSats),
                                           Some(p.unsignedBytes),
                                           reservation.utxos, |payload.outputs|, confirmed, txid);
            && (r.Ok? <==> ReturnsChange(p, confirmed)
                           && (p.plan.changeSats == 0
                               || (OneKey(reservation.utxos) && cfg.encodeP2sh(p.changeHash.value).Ok?)))
            && (r.Ok? ==> PlannedChange(c, cfg, ms, p, reservation.utxos, confirmed, txid, r.value))
  {
    hide TxBytes, ParsePersisted, NewInputs, RebuildInputs, CheckedSum, PreparedFromReservation, BuildRedeemScript;
    PreparedPaysExactly(c, cfg, ms, payload, reservation, Some(p.unsignedBytes), p);
    PreparedShape(c, cfg, ms, payload, reservation, Some(p.unsignedBytes), p);
    var inputs := RebuildInputs(c, cfg, ms, reservation.utxos).value;
    AcceptedIffPrinted(p.unsignedBytes, inputs, p.transaction);
    RebuiltInputs(c, cfg, ms, reservation.utxos);
    if p.plan.changeSats != 0 {
      var last := p.transaction.logicalOutputs[|payload.outputs|];
      StandardOutputPrinted(last);
      ChangeInputsMatch(c, cfg, ms, reservation.utxos);
      RecoveryTransfers(p.unsignedBytes, inputs, ChangeInputs(reservation.utxos));
      if confirmed != [] { SameChangeOutput(last, confirmed[|confirmed| - 1]); }
    }
  }

  /** A reservation that the tracked change joins, at whatever place, has one key exactly if it had one
      before and that is the key of what was spent: so change can be spent together with the custody
      that it came from, and that again returns change. */
  lemma ChangeJoinsItsKey(c: Crypto, cfg: Config, ms: ManagerSet, p: Prepared, utxos: seq<CustodyUtxo>,
                          confirmed: seq<TxOut>, txid: Hash32, change: CustodyUtxo, later: seq<CustodyUtxo>, at: nat)
    requires PlannedChange(c, cfg, ms, p, utxos, confirmed, txid, Some(change)) && at <= |later|
    ensures OneKey(later[..at] + [change] + later[at..]) <==>
              forall j, k :: 0 <= j < |later| && 0 <= k < |utxos| ==> later[j].keyReference == utxos[k].keyReference
  {
    hide RebuildInput;
    var joined := later[..at] + [change] + later[at..];
    assert joined[at] == change;
    forall j | 0 <= j < |later| ensures later[j] in joined {
      assert later[j] == joined[if j < at then j else j + 1];
    }
    if OneKey(joined) {
      forall j, k | 0 <= j < |later| && 0 <= k < |utxos| ensures later[j].keyReference == utxos[k].keyReference {
        assert later[j] in joined;
      }
    } else {
      var k :| 0 <= k < |joined| && joined[k].keyReference != joined[0].keyReference;
      assert joined[k] == (if k < at then later[k] else if k == at then change else later[k - 1]);
      assert joined[0] == if at == 0 then change else later[0];
      assert change.keyReference == utxos[0].keyReference;
    }
  }

  /** An output with the amount, type and address of a P2SH payment is that payment. */
  lemma SameChangeOutput(o: Output, confirmed: TxOut)
    requires o.addressType == P2sh
    ensures confirmed == PaymentOut(o) <==>
              confirmed.value == o.amount && ParseStandardOutput(confirmed.scriptPubkey) == Ok((P2sh, o.address))
  {
    StandardOutputPrinted(o);
    if ParseStandardOutput(confirmed.scriptPubkey) == Ok((P2sh, o.address)) {
      StandardOutputCanonical(confirmed.scriptPubkey, o);
    }
  }
}
