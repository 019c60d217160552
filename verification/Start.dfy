/** A fresh invocation of the operator: it opens the next batch from the on-chain cursor, sends its
    snapshot, and goes on with it like any other invocation. */
module Start {
  import opened Bytes
  import opened Utx0
  import opened OperatorRows
  import opened Outcomes
  import opened Store
  import opened Withdrawal
  import opened Resume
  import Prepare

  /** What the outside gives a fresh invocation: cursor, tip and history of the chain, an optional
      request to start with, whether the withdrawal roots agree, how writing the buffers and reading
      the Wormhole sequence went, the signature of the new snapshot transaction, a new reservation
      identifier, the UTXOs that the store selects with their value, and how sending went. */
  datatype Opening = Opening(cursor: u64, tip: u64, history: seq<RequestRecord>, requestIndex: Option<u64>,
                             requestSignature: Option<string>, rootsAgree: bool, buffers: Result<()>,
                             sequence: Result<u64>, sig: Signature, id: ReservationId,
                             selection: Result<(seq<Outpoint>, u64)>, sent: Result<()>)

  function EndOf(o: Opening): u64 { CappedBatchEnd(o.cursor, o.tip) }

  /** The payload of the next batch, if the history covers the chain and agrees with what was asked. */
  function OpenPayload(e: Settings, o: Opening): (r: Result<Payload>)
    ensures r.Ok? ==> o.cursor < EndOf(o) <= |o.history| == o.tip
  {
    if o.cursor >= EndOf(o) || |o.history| != o.tip then Err
    else if o.requestIndex.Some? && o.requestIndex.value != o.cursor then Err
    else if o.requestSignature.Some? && o.history[o.cursor].signature != o.requestSignature.value then Err
    else if !o.rootsAgree then Err
    else PayloadFor(o.history[o.cursor..EndOf(o)], e.managerSetIndex)
  }

  /** The reservation and the observed batch, to be stored in one write: the batch carries the unsigned
      transaction that its reservation prepares. */
  function OpenBatch(e: Settings, s: StoreState, o: Opening, payload: Payload): (r: Result<Write>)
    ensures r.Ok? ==> r.value.ReserveForSnapshot? && r.value.sig == o.sig && r.value.batch.start == o.cursor
    ensures r.Ok? ==> r.value.batch.end == EndOf(o) && r.value.batch.status == Observed
  {
    if o.buffers.Err? then Err
    else
      var sequence :- o.sequence;
      var ms :- e.network.managers(e.managerSetIndex);
      var withdrawal :- Prepare.CheckedSum(payload.outputs, 0);
      if withdrawal + e.fee >= U64_LIMIT then Err
      else
        var (utxos, selected) :- o.selection;
        var r := Reservation(withdrawal + e.fee, selected, utxos, Held, None, None, None);
        var p :- Prepare.PreparedFromReservation(e.network.crypto, e.Config(), ms, payload, Joined(s.utxos, o.id, r),
                                                 None);
        Ok(ReserveForSnapshot(o.id, r, o.sig,
                              Batch(o.cursor, EndOf(o), payload, sequence, Some(p.unsignedBytes), Some(o.id),
                                                    Observed)))
  }

  function OpenRecords(e: Settings, s: StoreState, o: Opening): (seq<Write>, bool)
  {
    if OpenPayload(e, o).Err? then ([], false) else RecordWrites(s, o.cursor, o.history[o.cursor..EndOf(o)])
  }

  /** The write that begins the batch, if it comes to that. */
  function BeginWrite(e: Settings, s: StoreState, o: Opening): (r: Result<Write>)
    ensures r.Ok? ==> r.value.ReserveForSnapshot? && r.value.sig == o.sig
  {
    var payload :- OpenPayload(e, o);
    var (records, agreed) := OpenRecords(e, s, o);
    if agreed then OpenBatch(e, Replay(s, records), o, payload) else Err
  }

  /** Where a batch from the cursor ends: after at most 319 requests, at the tip. */
  ghost predicate IsEnd(o: Opening, end: nat)
  { end == if o.cursor + 319 <= o.tip then o.cursor + 319 else o.tip }

  lemma EndIsCapped(o: Opening)
    ensures IsEnd(o, EndOf(o))
  {}

  /** The requests of the batch, as the history shows them. */
  function Opened(o: Opening): seq<RequestRecord>
    requires o.cursor <= EndOf(o) <= |o.history|
  { o.history[o.cursor..EndOf(o)] }

  /** There are requests, the history covers the chain, it starts with the request that was asked for, if
      any, the roots agree, and every request names a known address type. */
  ghost predicate HasPayload(o: Opening)
  {
    && o.cursor < o.tip == |o.history| && o.rootsAgree
    && (o.requestIndex.None? || o.requestIndex == Some(o.cursor))
    && (o.requestSignature.None? || o.requestSignature == Some(o.history[o.cursor].signature))
    && forall i :: o.cursor <= i < EndOf(o) && i < |o.history| ==> o.history[i].addressType in {0, 1}
  }

  /** What the payload is: for Dogecoin and the Manager set in use, one output per request. */
  ghost predicate IsPayloadOf(e: Settings, o: Opening, payload: Payload)
    requires o.cursor <= EndOf(o) <= |o.history|
  {
    && payload.destinationChain == 65 && payload.managerSetIndex == e.managerSetIndex
    && FulfilsAll(Opened(o), payload.outputs)
  }

  lemma PayloadExactly(e: Settings, o: Opening)
    ensures OpenPayload(e, o).Ok? <==> HasPayload(o)
    ensures OpenPayload(e, o).Ok? ==> IsPayloadOf(e, o, OpenPayload(e, o).value)
  {
    EndIsCapped(o);
    if o.cursor < EndOf(o) && |o.history| == o.tip {
      var records := Opened(o);
      OutputsExist(records);
      assert forall k :: 0 <= k < |records| ==> records[k] == o.history[o.cursor + k];
      assert forall i :: o.cursor <= i < EndOf(o) ==> o.history[i] == records[i - o.cursor];
      if OutputsFor(records).Ok? { OutputsFulfil(records, OutputsFor(records).value); }
    }
    hide OutputsFor, FulfilsAll, EndOf;
  }

  function NewReservation(e: Settings, o: Opening, payload: Payload): Option<Reservation>
    requires o.selection.Ok?
  {
    if Prepare.Total(payload.outputs) + e.fee >= U64_LIMIT then None
    else Some(Reservation(Prepare.Total(payload.outputs) + e.fee, o.selection.value.1, o.selection.value.0, Held, None,
                          None, None))
  }

  /** The transaction that a new reservation prepares; its requirement fits 64 bits. */
  ghost predicate Prepares(e: Settings, s: StoreState, o: Opening, payload: Payload, unsigned: seq<u8>)
  {
    && o.selection.Ok? && e.network.managers(e.managerSetIndex).Ok? && NewReservation(e, o, payload).Some?
    && var p := Prepare.PreparedFromReservation(e.network.crypto, e.Config(),
                                                e.network.managers(e.managerSetIndex).value, payload,
                                                Joined(s.utxos, o.id, NewReservation(e, o, payload).value), None);
       p.Ok? && p.value.unsignedBytes == unsigned
  }

  /** The write that begins a batch, in full. */
  ghost predicate IsBegin(e: Settings, s: StoreState, o: Opening, payload: Payload, w: Write)
  {
    && w.ReserveForSnapshot? && w.id == o.id && w.sig == o.sig && o.buffers.Ok? && o.sequence.Ok? && o.selection.Ok?
    && Some(w.reservation) == NewReservation(e, o, payload)
    && IsEnd(o, w.batch.end) && w.batch.start == o.cursor && w.batch.payload == payload
    && w.batch.sequence == o.sequence.value && w.batch.reservation == Some(o.id) && w.batch.status == Observed
    && w.batch.unsigned.Some? && Prepares(e, s, o, payload, w.batch.unsigned.value)
  }

  lemma BatchExactly(e: Settings, s: StoreState, o: Opening, payload: Payload, w: Write)
    ensures OpenBatch(e, s, o, payload) == Ok(w) <==> IsBegin(e, s, o, payload, w)
  {
    hide Prepare.PreparedFromReservation, Prepare.CheckedSum, Prepare.Total, EndOf;
    Prepare.CheckedSumExact(payload.outputs, 0);
    EndIsCapped(o);
  }

  /** A fresh invocation begins a batch exactly if there is a payload, its requests can be recorded, and
      the rest was answered so that a transaction is prepared; and it begins with exactly this write. */
  lemma BeginsExactly(e: Settings, s: StoreState, o: Opening, w: Write)
    ensures BeginWrite(e, s, o) == Ok(w) <==>
              && HasPayload(o) && o.cursor <= EndOf(o) <= |o.history| && Recordable(s, o.cursor, Opened(o))
              && exists payload, t ::
                   IsPayloadOf(e, o, payload) && LeavesRecorded(s, t, o.cursor, Opened(o))
                   && IsBegin(e, t, o, payload, w)
  {
    PayloadExactly(e, o);
    if OpenPayload(e, o).Ok? {
      RecordOutcome(s, o.cursor, Opened(o));
      var payload, t := OpenPayload(e, o).value, Replay(s, RecordWrites(s, o.cursor, Opened(o)).0);
      BatchExactly(e, t, o, payload, w);
      hide RecordWrites, Replay, IsBegin, OpenBatch, IsPayloadOf, HasPayload, LeavesRecorded, Recordable;
      if other, u :| IsPayloadOf(e, o, other) && LeavesRecorded(s, u, o.cursor, Opened(o))
                     && IsBegin(e, u, o, other, w) {
        SamePayload(e, o, payload, other);
        if Recordable(s, o.cursor, Opened(o)) { SameRecorded(s, t, u, o.cursor, Opened(o)); }
      }
    }
  }

  lemma SamePayload(e: Settings, o: Opening, a: Payload, b: Payload)
    requires o.cursor <= EndOf(o) <= |o.history| && IsPayloadOf(e, o, a) && IsPayloadOf(e, o, b)
    ensures a == b
  {
    OutputsFulfil(Opened(o), a.outputs);
    OutputsFulfil(Opened(o), b.outputs);
  }

  lemma SameRecorded(s: StoreState, t: StoreState, u: StoreState, start: nat, records: seq<RequestRecord>)
    requires LeavesRecorded(s, t, start, records) && LeavesRecorded(s, u, start, records)
    ensures t == u
  {
    assert t.requests == u.requests;
  }

  /** Sending the first time is like resending: nothing is known yet about the snapshot. */
  function Sent(o: Opening, a: Answers): Answers
  {
    a.(snapshot := a.snapshot.(persisted := true, cursor := o.cursor, status := None, metadataFound := false,
                               blockhashValid := true, resent := o.sent))
  }

  /** All durable writes of a fresh invocation: the requests, the batch with its reservation, and then
      what any invocation writes that has just sent the snapshot. */
  ghost function StartWrites(e: Settings, h: Hashes, s: StoreState, o: Opening, a: Answers): seq<Write>
  {
    var records := OpenRecords(e, s, o).0;
    var begin := BeginWrite(e, s, o);
    if begin.Err? then records
    else
      var t := Replay(s, records + [begin.value]);
      records + [begin.value] + ResumeWrites(e, h, t, o.sig, begin.value.batch, Sent(o, a))
  }

  method StartSnapshotBatch(store: OperatorStore, e: Settings, h: Hashes, o: Opening, a: Answers)
    returns (r: Result<()>)
    modifies store
    ensures store.Wrote(StartWrites(e, h, old(store.state), o, a))
  {
    hide Apply, RecordWrites, ResumeWrites, OpenPayload, OpenBatch, EndOf, Recordable, LeavesRecorded, StopsAt;
    ghost var s := store.state;
    var payload :- OpenPayload(e, o);
    var _ :- RecordRequests(store, o.cursor, o.history[o.cursor..EndOf(o)]);
    ghost var records := OpenRecords(e, s, o).0;
    var begin :- OpenBatch(e, store.state, o, payload);
    ReplayStep(s, records, begin);
    store.Commit(begin);
    ghost var t := store.state;
    r := SendAndContinue(store, e, h, o, begin.batch, a);
    ReplayAppend(s, records + [begin], ResumeWrites(e, h, t, o.sig, begin.batch, Sent(o, a)));
  }

  method SendAndContinue(store: OperatorStore, e: Settings, h: Hashes, o: Opening, b: Batch, a: Answers)
    returns (r: Result<()>)
    requires b.start == o.cursor < b.end && b.status == Observed
    modifies store
    ensures store.Wrote(ResumeWrites(e, h, old(store.state), o.sig, b, Sent(o, a)))
  {
    hide Apply, ContinueWrites, FailWrites, ConfirmWrites;
    SentOutcome(o, b, a);
    if o.sent.Err? { return Err; }
    var batch :- ConfirmSnapshotBatch(store, o.sig, b, a.snapshot);
    ghost var t := store.state;
    ReplayAppend(old(store.state), ConfirmWrites(o.sig, b), ContinueWrites(e, h, t, o.sig, batch, a));
    ContinueIgnoresSnapshot(e, h, t, o.sig, batch, a, Sent(o, a));
    r := ContinueSnapshotBatch(store, e, h, o.sig, batch, a);
  }

  lemma SentOutcome(o: Opening, b: Batch, a: Answers)
    requires b.start == o.cursor < b.end
    ensures Learns(Sent(o, a).snapshot) <==> o.sent.Ok? && a.snapshot.waited.Ok?
    ensures Fails(b, Sent(o, a).snapshot) ==> Learns(Sent(o, a).snapshot)
  {}

  lemma ContinueIgnoresSnapshot(e: Settings, h: Hashes, s: StoreState, sig: Signature, b: Batch, a: Answers, c: Answers)
    requires c == a.(snapshot := c.snapshot)
    ensures ContinueWrites(e, h, s, sig, b, c) == ContinueWrites(e, h, s, sig, b, a)
  {
    hide ContinueSignedWrites, LoadGraph, SignBatch, Derive, PersistWrite, MarkWrites, BroadcastIntact;
  }
}
