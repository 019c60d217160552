/** What the operator's procedures leave in the store, table by table and entry by entry. */
module Outcomes {
  import opened Bytes
  import opened OperatorRows
  import opened Store

  /** The batch has the status; nothing else about batches changed. */
  ghost predicate MarksBatch(before: map<Signature, Batch>, after: map<Signature, Batch>, sig: Signature,
                             status: OperatorStatus)
  {
    && after.Keys == before.Keys
    && forall k :: k in before ==> after[k] == if k == sig then before[k].(status := status) else before[k]
  }

  /** The requests from `start` to `end - 1` have the status; nothing else about requests changed. */
  ghost predicate MarksRequests(before: map<nat, Request>, after: map<nat, Request>, start: nat, end: nat,
                                status: OperatorStatus)
  {
    && after.Keys == before.Keys
    && forall i :: i in before ==> after[i] == if start <= i < end then before[i].(status := status) else before[i]
  }

  ghost predicate IsHeld(s: StoreState, b: Batch)
  {
    b.reservation.Some? && b.reservation.value in s.reservations
    && s.reservations[b.reservation.value].status == Held
  }

  /** The batch is failed and the custody it held, if any, is released and free. */
  ghost predicate LeavesFailed(s: StoreState, t: StoreState, sig: Signature, b: Batch)
  {
    && t == s.(batches := t.batches, reservations := t.reservations, utxos := t.utxos)
    && MarksBatch(s.batches, t.batches, sig, Failed)
    && if IsHeld(s, b) then
         var id, r := b.reservation.value, s.reservations[b.reservation.value];
         && t.reservations == s.reservations[id := r.(status := Released)]
         && t.utxos.Keys == s.utxos.Keys
         && forall o :: o in s.utxos ==>
              t.utxos[o] == if o in r.utxos then s.utxos[o].(status := Available, reservation := None) else s.utxos[o]
       else t.reservations == s.reservations && t.utxos == s.utxos
  }

  /** Batch and requests are constructed if unsigned bytes were stored, else snapshotted. */
  ghost predicate LeavesSettled(s: StoreState, t: StoreState, sig: Signature, b: Batch)
  {
    var status := if b.unsigned.Some? then Constructed else Snapshotted;
    && t == s.(batches := t.batches, requests := t.requests)
    && MarksBatch(s.batches, t.batches, sig, status)
    && MarksRequests(s.requests, t.requests, b.start, b.end, status)
  }

  /** Request `start + k` can be recorded as `records[k]`: it has a fee and is new or known as such. */
  ghost predicate Recordable(s: StoreState, start: nat, records: seq<RequestRecord>)
  {
    forall k :: 0 <= k < |records| ==>
      records[k].net <= records[k].gross
      && (start + k in s.requests ==> s.requests[start + k].record == records[k])
  }

  /** The requests are stored as they are on chain: new ones as observed, known ones unchanged. */
  ghost predicate LeavesRecorded(s: StoreState, t: StoreState, start: nat, records: seq<RequestRecord>)
  {
    && t == s.(requests := t.requests)
    && (forall i :: i in t.requests <==> i in s.requests || start <= i < start + |records|)
    && forall i :: i in t.requests ==>
         t.requests[i] == if i in s.requests then s.requests[i] else Request(records[i - start], Observed)
  }

  /** Transaction, process, requests and batch are broadcast; so is custody, if it was still held. */
  ghost predicate LeavesBroadcast(s: StoreState, t: StoreState, sig: Signature, b: Batch, rawHash: RawHash)
  {
    && t == s.(batches := t.batches, processes := t.processes, transactions := t.transactions, requests := t.requests,
               reservations := t.reservations, utxos := t.utxos)
    && MarksBatch(s.batches, t.batches, sig, Broadcast)
    && MarksRequests(s.requests, t.requests, b.start, b.end, Broadcast)
    && t.processes.Keys == s.processes.Keys && t.transactions.Keys == s.transactions.Keys
    && (forall k :: k in s.processes ==>
          t.processes[k] == if k == sig then s.processes[k].(status := Broadcast) else s.processes[k])
    && (forall k :: k in s.transactions ==>
          t.transactions[k] == if k == rawHash then s.transactions[k].(status := Broadcast) else s.transactions[k])
  }

  /** The reservation with its UTXOs is on its way in the transaction. */
  ghost predicate LeavesRelayed(s: StoreState, t: StoreState, id: ReservationId, txid: Txid)
    requires id in s.reservations
  {
    var r := s.reservations[id];
    && t.reservations == s.reservations[id := r.(status := Relayed, spendTxid := Some(txid))]
    && t.utxos.Keys == s.utxos.Keys
    && forall o :: o in s.utxos ==>
         t.utxos[o] == if o in r.utxos then s.utxos[o].(status := InFlight, spendTxid := Some(txid)) else s.utxos[o]
  }

  /** Transaction, process and mappings are stored, batch and requests are signed, and the reservation
      with its UTXOs is linked to the batch. */
  ghost predicate LeavesSigned(s: StoreState, t: StoreState, sig: Signature, b: Batch, id: ReservationId,
                               process: Process, transaction: DogeTx)
    requires id in s.reservations && transaction.txid.Some?
  {
    var r := s.reservations[id];
    && t == s.(batches := t.batches, requests := t.requests, utxos := t.utxos, mappings := t.mappings,
               processes := s.processes[sig := process],
               transactions := s.transactions[process.rawHash := transaction],
               reservations := s.reservations[id := r.(request := Some(b.start), process := Some(sig))])
    && MarksBatch(s.batches, t.batches, sig, Signed)
    && MarksRequests(s.requests, t.requests, b.start, b.end, Signed)
    && MapsRequests(s.mappings, t.mappings, sig, b, transaction.txid.value)
    && t.utxos.Keys == s.utxos.Keys
    && forall o :: o in s.utxos ==>
         t.utxos[o] == if o in r.utxos then s.utxos[o].(spendRequest := Some(b.start), spendProcess := Some(sig))
                       else s.utxos[o]
  }

  /** Each request of the batch is mapped to the transaction. */
  ghost predicate MapsRequests(before: map<Signature, seq<(nat, Txid)>>, after: map<Signature, seq<(nat, Txid)>>,
                               sig: Signature, b: Batch, txid: Txid)
  {
    && sig in after && after == before[sig := after[sig]] && |after[sig]| == b.end - b.start
    && forall k :: 0 <= k < |after[sig]| ==> after[sig][k] == (b.start + k, txid)
  }

  /** Everything linked to the batch is confirmed, its custody is spent, and its change is tracked. */
  ghost predicate LeavesFinal(s: StoreState, t: StoreState, sig: Signature, b: Batch, change: Option<CustodyUtxo>)
    requires sig in s.processes && b.reservation.Some? && b.reservation.value in s.reservations
  {
    var id, r, rawHash := b.reservation.value, s.reservations[b.reservation.value], s.processes[sig].rawHash;
    && t == s.(batches := t.batches, requests := t.requests, utxos := t.utxos, transactions := t.transactions,
               processes := s.processes[sig := s.processes[sig].(status := Confirmed)],
               reservations := s.reservations[id := r.(status := Consumed)])
    && MarksBatch(s.batches, t.batches, sig, Confirmed)
    && MarksRequests(s.requests, t.requests, b.start, b.end, Confirmed)
    && t.transactions.Keys == s.transactions.Keys
    && (forall k :: k in s.transactions ==>
          t.transactions[k] == if k == rawHash then s.transactions[k].(status := Confirmed) else s.transactions[k])
    && LeavesSpent(s.utxos, t.utxos, r.utxos, change)
  }

  ghost predicate LeavesSpent(before: map<Outpoint, Utxo>, after: map<Outpoint, Utxo>, spent: seq<Outpoint>,
                              change: Option<CustodyUtxo>)
  {
    && (forall o :: o in after <==> o in before || (change.Some? && o == (change.value.txid, change.value.vout)))
    && forall o :: o in after ==>
         after[o] == if change.Some? && o == (change.value.txid, change.value.vout)
                     then Utxo(change.value, Available, None, None, None, None)
                     else if o in spent then before[o].(status := Spent) else before[o]
  }
}
