/** What the runs of the operator amount to: every transaction that Electrs has accepted pays the
    requests of its batch, to the satoshi and to their recipients, out of custody. */
module Payouts {
  import opened Bytes
  import opened Utx0
  import opened OperatorRows
  import opened Wire
  import opened Sighash
  import opened Script
  import opened Signing
  import opened Store
  import opened Resume
  import opened Machine
  import opened Runs
  import opened Conservation
  import opened Provenance
  import opened OperatorRules
  import OperatorSteps
  import Prepare
  import Redeem

  /** The output pays the net amount to the recipient's address, of the type asked for. */
  ghost predicate PaysRequest(record: RequestRecord, o: TxOut)
  {
    && o.value == record.net && record.addressType in {0, 1}
    && o.scriptPubkey == if record.addressType == 0 then P2pkhScript(record.recipient) else P2shScript(record.recipient)
  }

  /** The output goes back to the custody script without a deposit recipient. */
  ghost predicate ReturnsToCustody(n: Network, ms: ManagerSet, o: TxOut)
  {
    var redeem := Prepare.CustodyScript(n.Config(0, 0), ms, seq(32, _ => 0));
    redeem.Ok? && o.scriptPubkey == P2shScript(n.crypto.hash160(redeem.value))
  }

  /** The first outputs pay the requests one by one. */
  ghost predicate PaysAll(records: seq<RequestRecord>, outs: seq<TxOut>)
  { |records| <= |outs| && forall k :: 0 <= k < |records| ==> PaysRequest(records[k], outs[k]) }

  /** After `count` outputs there is at most a change output, which returns what the reservation selected
      beyond what it required. */
  ghost predicate ReturnsRest(n: Network, ms: ManagerSet, required: nat, selected: nat, count: nat, outs: seq<TxOut>)
  {
    && required <= selected
    && (selected == required ==> |outs| == count)
    && (selected > required ==>
          |outs| == count + 1 && outs[count].value == selected - required && ReturnsToCustody(n, ms, outs[count]))
  }

  /** One output per request of the batch, in order, and at most a change output after them; the
      reservation is worth all of them and the fee. */
  ghost predicate PaysBatch(w: World, n: Network, b: Batch, r: Reservation, t: Tx)
  {
    && b.start <= b.end <= |w.requested| && n.managers(b.payload.managerSetIndex).Ok?
    && PaysAll(w.requested[b.start..b.end], t.outputs)
    && r.selected == Sum(w.store.utxos, r.utxos)
    && ReturnsRest(n, n.managers(b.payload.managerSetIndex).value, r.required, r.selected, b.end - b.start, t.outputs)
  }

  /** One input per row, in order, each of which satisfies the output that is stored in the row. */
  ghost predicate SpendsAll(n: Network, rows: seq<CustodyUtxo>, t: Tx)
  {
    && |t.inputs| == |rows|
    && forall i :: 0 <= i < |rows| ==> Prepare.SpendsStored(n.crypto, n.encodeP2sh, t, i, rows[i])
  }

  /** The rows are those of the reservation's UTXOs, in order, each under its own outpoint. */
  ghost predicate RowsOf(utxos: map<Outpoint, Utxo>, os: seq<Outpoint>, rows: seq<CustodyUtxo>)
  {
    && |rows| == |os|
    && forall i :: 0 <= i < |os| ==> os[i] in utxos && utxos[os[i]].row == rows[i] && OutpointOf(rows[i]) == os[i]
  }

  /** The transaction spends the UTXOs of the reservation and nothing else. */
  ghost predicate SpendsReservation(w: World, n: Network, r: Reservation, t: Tx)
  { exists rows :: RowsOf(w.store.utxos, r.utxos, rows) && SpendsAll(n, rows, t) }

  /** What pays a request to a key hash is spent by a signature and a key exactly if the key hashes to
      the recipient that was asked for and the signature is valid under it. */
  lemma RecipientSpends(c: Crypto, record: RequestRecord, o: TxOut, t: Tx, i: nat, sig: seq<u8>, key: seq<u8>)
    requires PaysRequest(record, o) && record.addressType == 0
    requires i < |t.inputs| && t.inputs[i].scriptSig == PushData(sig) + PushData(key)
    requires |sig| <= MAX_ELEMENT_SIZE && |key| <= MAX_ELEMENT_SIZE
    ensures SpendsKeyHash(c, t, i, o.scriptPubkey) <==>
              c.hash160(key) == record.recipient && CheckSig(c, t, i, o.scriptPubkey)(key, sig)
  {
    hide SpendsKeyHash, PushData, ConsensusPreimage;
    KeyHashIffRecipient(c, t, i, record.recipient, sig, key);
  }

  // ---- From the rules to the transaction ----

  lemma OutputsArePaid(records: seq<RequestRecord>, outputs: seq<Output>, logical: seq<Output>, outs: seq<TxOut>)
    requires FulfilsAll(records, outputs) && outputs <= logical && outs == NewOutputs(logical)
    ensures PaysAll(records, outs)
  {
    forall k | 0 <= k < |records| ensures PaysRequest(records[k], outs[k]) {
      assert Fulfils(records[k], outputs[k]) && logical[k] == outputs[k];
      assert outs[k] == TxOut(logical[k].amount, ScriptPubkeyFor(logical[k]));
    }
  }

  lemma ChangeReturns(n: Network, fee: u64, dust: u64, ms: ManagerSet, payload: Payload, p: Prepare.Prepared)
    requires Prepare.PlannedOutputs(n.crypto, n.Config(fee, dust), ms, payload, p.plan)
          == Ok((p.transaction.logicalOutputs, p.changeHash))
    requires p.plan.changeSats != 0 && p.transaction.outputs == NewOutputs(p.transaction.logicalOutputs)
    ensures var k := |payload.outputs|;
            && |p.transaction.outputs| == k + 1 && p.transaction.outputs[k].value == p.plan.changeSats
            && ReturnsToCustody(n, ms, p.transaction.outputs[k])
  {
    hide Redeem.BuildRedeemScript;
    assert Prepare.CustodyScript(n.Config(fee, dust), ms, seq(32, _ => 0))
        == Prepare.CustodyScript(n.Config(0, 0), ms, seq(32, _ => 0));
  }

  /** A signed transaction has the prepared outputs and spends the rows of its reservation. */
  lemma SignedPays(n: Network, payload: Payload, r: CustodyReservation, unsigned: seq<u8>, raw: seq<u8>) returns (t: Tx)
    requires IsSigned(n, payload, r, unsigned, raw)
    ensures TxBytes(t) == raw && n.managers(payload.managerSetIndex).Ok?
    ensures FitsIns(t.inputs) && FitsOuts(t.outputs) && SpendsAll(n, r.utxos, t)
    ensures payload.outputs <= t.logicalOutputs && t.outputs == NewOutputs(t.logicalOutputs)
    ensures ReturnsRest(n, n.managers(payload.managerSetIndex).value, r.required, r.selected, |payload.outputs|,
                        t.outputs)
  {
    var fee: u64, dust: u64, signers :| SignedWith(n, payload, r, unsigned, raw, fee, dust, signers);
    var ms := n.managers(payload.managerSetIndex).value;
    var cfg := n.Config(fee, dust);
    var p := Prepare.PreparedFromReservation(n.crypto, cfg, ms, payload, r, Some(unsigned)).value;
    t := Applied(p.transaction, ms, signers);
    hide Prepare.PreparedFromReservation, Accepts, TxBytes, Prepare.SpendsStored, ReturnsToCustody, NewOutputs,
         CustodyInputs, Prepare.Total, Selected, FitsIns, FitsOuts;
    SignedIffApplied(p.transaction, ms, signers, t);
    SignedFits(n, payload, r, unsigned, raw, fee, dust, signers);
    Prepare.PreparedSpends(n.crypto, cfg, ms, payload, r, Some(unsigned), p, signers, t);
    Prepare.PreparedPaysExactly(n.crypto, cfg, ms, payload, r, Some(unsigned), p);
    Prepare.PreparedShape(n.crypto, cfg, ms, payload, r, Some(unsigned), p);
    hide Prepare.PlannedOutputs, Applied, SignedUpTo;
    if p.plan.changeSats != 0 { ChangeReturns(n, fee, dust, ms, payload, p); }
  }

  lemma {:induction false} RowsAt(utxos: map<Outpoint, Utxo>, os: seq<Outpoint>)
    requires forall o :: o in os ==> o in utxos && OutpointOf(utxos[o].row) == o
    ensures RowsOf(utxos, os, Rows(utxos, os))
  {
    if os != [] { RowsAt(utxos, os[1..]); }
  }

  // ---- Every accepted transaction ----

  /** A batch with a transaction: what it pays and what it spends. */
  lemma CarriedPays(w: World, n: Network, sig: Signature) returns (t: Tx)
    requires Inv(w) && Genuine(w) && w.rules == RulesOf(n)
    requires sig in w.store.batches && Carries(w.store.batches[sig].status)
    ensures TxidOf(w.store, sig) == Some(w.hashes.doubleSha256(TxBytes(t)))
    ensures ReservationOf(w.store, sig).Some?
    ensures PaysBatch(w, n, w.store.batches[sig], ReservationOf(w.store, sig).value, t)
    ensures SpendsReservation(w, n, ReservationOf(w.store, sig).value, t)
  {
    hide *;
    var b := w.store.batches[sig];
    t := CarriedTransaction(w, n, sig);
    OperatorSteps.InvParts(w);
    CarriedReservation(w, sig);
    OutputsArePaid(w.requested[b.start..b.end], b.payload.outputs, t.logicalOutputs, t.outputs);
    BatchIsPaid(w, n, b, ReservationOf(w.store, sig).value, t);
    ReservationIsSpent(w, n, ReservationOf(w.store, sig).value, t);
  }

  lemma CarriedTransaction(w: World, n: Network, sig: Signature) returns (t: Tx)
    requires Genuine(w) && w.rules == RulesOf(n)
    requires sig in w.store.batches && Carries(w.store.batches[sig].status)
    ensures var b := w.store.batches[sig];
            && b.reservation.Some? && b.reservation.value in w.store.reservations
            && b.start <= b.end <= |w.requested| && FulfilsAll(w.requested[b.start..b.end], b.payload.outputs)
            && n.managers(b.payload.managerSetIndex).Ok?
            && TxidOf(w.store, sig) == Some(w.hashes.doubleSha256(TxBytes(t)))
            && b.payload.outputs <= t.logicalOutputs && t.outputs == NewOutputs(t.logicalOutputs)
            && var r := w.store.reservations[b.reservation.value];
               && SpendsAll(n, Rows(w.store.utxos, r.utxos), t)
               && ReturnsRest(n, n.managers(b.payload.managerSetIndex).value, r.required, r.selected, b.end - b.start,
                              t.outputs)
  {
    hide IsSigned, IsPrepared, TxBytes, SpendsAll, ReturnsRest, NewOutputs, Rows, FitsIns, FitsOuts;
    assert GenuineBatch(w, sig);
    var b := w.store.batches[sig];
    t := SignedPays(n, b.payload, Loaded(w.store, b.reservation.value), b.unsigned.value,
                    LinkedTx(w.store, sig).value.raw.value);
  }

  lemma CarriedReservation(w: World, sig: Signature)
    requires Custody(w) && Genuine(w) && sig in w.store.batches
    ensures ReservationOf(w.store, sig).Some? && w.store.batches[sig].reservation.Some?
    ensures w.store.batches[sig].reservation.value in w.store.reservations
    ensures var r := ReservationOf(w.store, sig).value;
            && r == w.store.reservations[w.store.batches[sig].reservation.value]
            && r.selected == Sum(w.store.utxos, r.utxos)
            && RowsOf(w.store.utxos, r.utxos, Rows(w.store.utxos, r.utxos))
  {
    hide Loaded, Rows, RowsOf;
    assert GenuineBatch(w, sig);
    var id := w.store.batches[sig].reservation.value;
    assert CustodyOf(w, id, w.store.reservations[id]);
    RowsAt(w.store.utxos, w.store.reservations[id].utxos);
  }

  lemma BatchIsPaid(w: World, n: Network, b: Batch, r: Reservation, t: Tx)
    requires b.start <= b.end <= |w.requested| && n.managers(b.payload.managerSetIndex).Ok?
    requires PaysAll(w.requested[b.start..b.end], t.outputs) && r.selected == Sum(w.store.utxos, r.utxos)
    requires ReturnsRest(n, n.managers(b.payload.managerSetIndex).value, r.required, r.selected, b.end - b.start,
                         t.outputs)
    ensures PaysBatch(w, n, b, r, t)
  {
    hide PaysAll, ReturnsRest, Sum;
  }

  lemma ReservationIsSpent(w: World, n: Network, r: Reservation, t: Tx)
    requires RowsOf(w.store.utxos, r.utxos, Rows(w.store.utxos, r.utxos))
             && SpendsAll(n, Rows(w.store.utxos, r.utxos), t)
    ensures SpendsReservation(w, n, r, t)
  {
    hide Rows, RowsOf, SpendsAll;
  }

  /** Every transaction that Electrs has accepted belongs to one landed batch, pays that batch's requests
      exactly, in order and to their recipients, returns the rest to custody, and spends the batch's
      reserved UTXOs validly. */
  lemma AcceptedPays(w: World, n: Network, txid: Txid) returns (sig: Signature, t: Tx)
    requires Reachable(w) && w.rules == RulesOf(n) && txid in w.electrs
    ensures sig in w.landed && Paying(w, sig, txid) && ReservationOf(w.store, sig).Some?
    ensures txid == w.hashes.doubleSha256(TxBytes(t))
    ensures PaysBatch(w, n, w.store.batches[sig], ReservationOf(w.store, sig).value, t)
    ensures SpendsReservation(w, n, ReservationOf(w.store, sig).value, t)
  {
    hide *;
    ReachableHolds(w);
    ReachableIsGenuine(w);
    sig := AcceptedIsLanded(w, txid);
    PayingCarries(w, sig, txid);
    t := CarriedPays(w, n, sig);
  }

  lemma PayingCarries(w: World, sig: Signature, txid: Txid)
    requires Paying(w, sig, txid)
    ensures sig in w.store.batches && Carries(w.store.batches[sig].status) && TxidOf(w.store, sig) == Some(txid)
  {
    hide TxidOf;
  }

  // ---- Every settled request ----

  lemma SettledCovers(w: World, i: nat) returns (sig: Signature)
    requires Reachable(w) && w.first <= i < PaidUpTo(w)
    ensures sig in w.store.batches && w.store.batches[sig].status == Confirmed
    ensures w.store.batches[sig].start <= i < w.store.batches[sig].end <= |w.requested|
  {
    ReachableHolds(w);
    SettledIsConfirmed(w);
    PaidUpToBelow(w);
    var k := LandedRangesPartition(w, i);
    hide Reachable, Inv, Consecutive, Chained;
    sig := w.landed[k];
    assert k < |Settled(w)| ==> Settled(w)[k] == sig;
    RangeKnown(w, sig);
  }

  lemma RangeKnown(w: World, sig: Signature)
    requires Inv(w) && sig in w.store.batches
    ensures w.store.batches[sig].end <= |w.requested|
  {
    hide Custody, Stages, Owned, Payments, RequestsOk, Conserved, OneIncomplete, Chained;
  }

  /** Every request from the first cursor up to the last confirmed batch has been paid: one transaction,
      accepted by Electrs, has an output of its net amount to its recipient, and no other accepted
      transaction pays it. */
  lemma SettledRequestIsPaid(w: World, n: Network, i: nat) returns (txid: Txid, t: Tx, k: nat)
    requires Reachable(w) && w.rules == RulesOf(n) && w.first <= i < PaidUpTo(w)
    ensures txid in w.electrs && txid == w.hashes.doubleSha256(TxBytes(t))
    ensures i < |w.requested| && k < |t.outputs| && PaysRequest(w.requested[i], t.outputs[k])
    ensures Pays(w, txid, i) && forall other :: Pays(w, other, i) ==> other == txid
  {
    hide *;
    var sig := SettledCovers(w, i);
    ReachableHolds(w);
    ReachableIsGenuine(w);
    ConfirmedCarries(w, sig);
    t := CarriedPays(w, n, sig);
    txid := TxidOf(w.store, sig).value;
    k := i - w.store.batches[sig].start;
    PaidInBatch(w, n, sig, ReservationOf(w.store, sig).value, t, i);
    PaysItself(w, sig, txid, i);
    forall other | Pays(w, other, i) ensures other == txid { NoRequestPaidTwice(w, i, other, txid); }
  }

  lemma ConfirmedCarries(w: World, sig: Signature)
    requires Inv(w) && sig in w.store.batches && w.store.batches[sig].status == Confirmed
    ensures Carries(w.store.batches[sig].status) && TxidOf(w.store, sig).Some?
            && TxidOf(w.store, sig).value in w.electrs
  {
    hide Custody, Ranges, Owned, Payments, RequestsOk, Conserved, OneIncomplete;
    assert StageOk(w, sig);
  }

  lemma PaidInBatch(w: World, n: Network, sig: Signature, r: Reservation, t: Tx, i: nat)
    requires sig in w.store.batches && PaysBatch(w, n, w.store.batches[sig], r, t)
    requires w.store.batches[sig].start <= i < w.store.batches[sig].end
    ensures var k := i - w.store.batches[sig].start;
            i < |w.requested| && k < |t.outputs| && PaysRequest(w.requested[i], t.outputs[k])
  {
    hide PaysRequest, ReturnsRest, Sum;
    var b := w.store.batches[sig];
    assert w.requested[b.start..b.end][i - b.start] == w.requested[i];
  }

  lemma PaysItself(w: World, sig: Signature, txid: Txid, i: nat)
    requires sig in w.store.batches && Carries(w.store.batches[sig].status) && TxidOf(w.store, sig) == Some(txid)
    requires w.store.batches[sig].start <= i < w.store.batches[sig].end
    ensures Pays(w, txid, i)
  {
    hide TxidOf;
    assert Paying(w, sig, txid);
  }
}
