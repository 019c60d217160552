/** What the operator store keeps of custody UTXOs and reservations, and what the chain's history
    shows of a withdrawal request. */
module OperatorRows {
  import opened Bytes
  import opened Utx0

  /** The fixed columns of a custody UTXO. `scriptPubkey` is absent when the stored text is empty. */
  datatype CustodyUtxo = CustodyUtxo(txid: Hash32, vout: u32, amount: u64, scriptPubkey: Option<seq<u8>>,
                                     address: string, keyReference: string, originalRecipient: Hash32)

  function OutpointOf(u: CustodyUtxo): (Hash32, nat) { (u.txid, u.vout) }

  /** A reservation as it is loaded, with the rows of its UTXOs. */
  datatype CustodyReservation = CustodyReservation(id: string, required: u64, selected: u64, utxos: seq<CustodyUtxo>)

  datatype RequestRecord = RequestRecord(signature: string, slot: u64, blockTime: Option<int>, user: string,
                                         gross: u64, net: u64, addressType: u32, recipient: Hash20)

  /** The withdrawal fee, gross less net, does not underflow. */
  predicate HasFee(record: RequestRecord) { record.net <= record.gross }

  function OutputFor(record: RequestRecord): Result<Output>
  {
    var addressType :- AddressTypeFrom(record.addressType);
    Ok(Output(record.net, addressType, record.recipient))
  }

  function OutputsFor(records: seq<RequestRecord>): Result<seq<Output>>
  {
    if records == [] then Ok([])
    else
      var head :- OutputFor(records[0]);
      var tail :- OutputsFor(records[1..]);
      Ok([head] + tail)
  }

  /** The payload of a batch: one output per request, refused without requests. */
  function PayloadFor(records: seq<RequestRecord>, managerSetIndex: u32): Result<Payload>
  {
    if records == [] then Err
    else
      var outputs :- OutputsFor(records);
      Ok(Payload(DOGECOIN, managerSetIndex, outputs))
  }

  /** The output pays what the request asks for: its net amount, to its recipient. */
  predicate Fulfils(record: RequestRecord, output: Output)
  {
    output.amount == record.net && output.addressType.Code() == record.addressType && output.address == record.recipient
  }

  ghost predicate FulfilsAll(records: seq<RequestRecord>, outputs: seq<Output>)
  { |outputs| == |records| && forall k :: 0 <= k < |records| ==> Fulfils(records[k], outputs[k]) }

  /** The outputs of a payload are exactly those that pay the requests one by one, in order. */
  lemma {:induction false} OutputsFulfil(records: seq<RequestRecord>, outputs: seq<Output>)
    ensures OutputsFor(records) == Ok(outputs) <==> FulfilsAll(records, outputs)
  {
    hide Fulfils, OutputFor;
    if records != [] && outputs != [] {
      OutputsFulfil(records[1..], outputs[1..]);
      OneFulfils(records[0], outputs[0]);
      FulfilsCons(records, outputs);
      assert outputs == [outputs[0]] + outputs[1..];
    }
  }

  lemma OneFulfils(record: RequestRecord, output: Output)
    ensures OutputFor(record) == Ok(output) <==> Fulfils(record, output)
  {}

  lemma FulfilsCons(records: seq<RequestRecord>, outputs: seq<Output>)
    requires records != [] && outputs != []
    ensures FulfilsAll(records, outputs) <==>
            Fulfils(records[0], outputs[0]) && FulfilsAll(records[1..], outputs[1..])
  {
    hide Fulfils;
    if |outputs| == |records| {
      assert forall k :: 0 <= k < |records| - 1 ==>
        records[1..][k] == records[k + 1] && outputs[1..][k] == outputs[k + 1];
      if FulfilsAll(records[1..], outputs[1..]) && Fulfils(records[0], outputs[0]) {
        forall k | 0 <= k < |records| ensures Fulfils(records[k], outputs[k]) {
          if k > 0 { assert records[k] == records[1..][k - 1] && outputs[k] == outputs[1..][k - 1]; }
        }
      }
    }
  }

  /** There are such outputs exactly when every request names a known address type. */
  lemma {:induction false} OutputsExist(records: seq<RequestRecord>)
    ensures OutputsFor(records).Ok? <==> forall k :: 0 <= k < |records| ==> records[k].addressType in {0, 1}
  {
    if records != [] {
      OutputsExist(records[1..]);
      assert forall k :: 1 <= k < |records| ==> records[k] == records[1..][k - 1];
    }
  }
}
