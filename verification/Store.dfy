/** The durable operator store. The store itself is external; each of its operations is given
    here as one atomic write with the effect that the operator relies on. A crash can only fall
    between writes, so the states it can leave behind are those after a prefix of a journal. */
module Store {
  import opened Bytes
  import opened Utx0
  import opened OperatorRows

  type Signature = string
  type ReservationId = string
  type Txid = Hash32
  type RawHash = Hash32
  type Outpoint = (Txid, nat)

  datatype OperatorStatus = Observed | Snapshotted | Constructed | Signed | Broadcast | Confirmed | Failed
  datatype ReservationStatus = Held | Relayed | Consumed | Released
  datatype UtxoStatus = Available | Reserved | InFlight | Spent

  /** The stored payload appears parsed; `unsigned` is the persisted unsigned Dogecoin transaction. */
  datatype Batch = Batch(start: nat, end: nat, payload: Payload, sequence: u64, unsigned: Option<seq<u8>>,
                         reservation: Option<ReservationId>, status: OperatorStatus)

  datatype Reservation = Reservation(required: u64, selected: u64, utxos: seq<Outpoint>, status: ReservationStatus,
                                     spendTxid: Option<Txid>, request: Option<nat>, process: Option<Signature>)

  datatype Utxo = Utxo(row: CustodyUtxo, status: UtxoStatus, reservation: Option<ReservationId>,
                       spendTxid: Option<Txid>, spendRequest: Option<nat>, spendProcess: Option<Signature>)

  datatype Process = Process(start: nat, end: nat, rawHash: RawHash, returnIndex: nat, returnAmount: u64,
                             status: OperatorStatus)

  datatype DogeTx = DogeTx(txid: Option<Txid>, raw: Option<seq<u8>>, status: OperatorStatus)

  datatype Request = Request(record: RequestRecord, status: OperatorStatus)

  datatype StoreState = StoreState(
    batches: map<Signature, Batch>,
    reservations: map<ReservationId, Reservation>,
    utxos: map<Outpoint, Utxo>,
    processes: map<Signature, Process>,
    transactions: map<RawHash, DogeTx>,
    mappings: map<Signature, seq<(nat, Txid)>>,
    requests: map<nat, Request>)

  datatype Write =
    | AddUtxo(row: CustodyUtxo)
    | UpsertRequest(index: nat, request: Request)
    | ReserveForSnapshot(id: ReservationId, reservation: Reservation, sig: Signature, batch: Batch)
    | ReleaseReservation(id: ReservationId)
    | SetBatchStatus(sig: Signature, status: OperatorStatus)
    | SetRequestStatus(index: nat, status: OperatorStatus)
    | PersistSigned(sig: Signature, id: ReservationId, rawHash: RawHash, transaction: DogeTx, process: Process)
    | MarkReservationBroadcast(id: ReservationId, txid: Txid)
    | SetTransactionStatus(rawHash: RawHash, status: OperatorStatus)
    | SetProcessStatus(sig: Signature, status: OperatorStatus)
    | FinalizeConfirmed(sig: Signature, rawHash: RawHash, change: Option<CustodyUtxo>)

  function Fresh(row: CustodyUtxo): Utxo { Utxo(row, Available, None, None, None, None) }

  /** The rows of the given outpoints that are tracked, in order. */
  function Rows(utxos: map<Outpoint, Utxo>, os: seq<Outpoint>): seq<CustodyUtxo>
  { if os == [] then [] else (if os[0] in utxos then [utxos[os[0]].row] else []) + Rows(utxos, os[1..]) }

  /** A reservation with the rows of its UTXOs, as the operator loads it. */
  function Loaded(s: StoreState, id: ReservationId): CustodyReservation
    requires id in s.reservations
  { Joined(s.utxos, id, s.reservations[id]) }

  function Joined(utxos: map<Outpoint, Utxo>, id: ReservationId, r: Reservation): CustodyReservation
  { CustodyReservation(id, r.required, r.selected, Rows(utxos, r.utxos)) }

  // ---- Effects on single tables ----

  function WithBatchStatus(batches: map<Signature, Batch>, sig: Signature, status: OperatorStatus)
    : map<Signature, Batch>
  { if sig in batches then batches[sig := batches[sig].(status := status)] else batches }

  function WithRequestStatus(requests: map<nat, Request>, index: nat, status: OperatorStatus): map<nat, Request>
  { if index in requests then requests[index := requests[index].(status := status)] else requests }

  function WithTransactionStatus(txs: map<RawHash, DogeTx>, h: RawHash, status: OperatorStatus): map<RawHash, DogeTx>
  { if h in txs then txs[h := txs[h].(status := status)] else txs }

  function WithProcessStatus(ps: map<Signature, Process>, sig: Signature, status: OperatorStatus)
    : map<Signature, Process>
  { if sig in ps then ps[sig := ps[sig].(status := status)] else ps }

  function WithRangeStatus(requests: map<nat, Request>, start: nat, end: nat, status: OperatorStatus): map<nat, Request>
  { map i | i in requests :: if start <= i < end then requests[i].(status := status) else requests[i] }

  function Reserve(utxos: map<Outpoint, Utxo>, chosen: seq<Outpoint>, id: ReservationId): map<Outpoint, Utxo>
  { map o | o in utxos :: if o in chosen then utxos[o].(status := Reserved, reservation := Some(id)) else utxos[o] }

  function Release(utxos: map<Outpoint, Utxo>, chosen: seq<Outpoint>): map<Outpoint, Utxo>
  { map o | o in utxos :: if o in chosen then utxos[o].(status := Available, reservation := None) else utxos[o] }

  function LinkSpend(utxos: map<Outpoint, Utxo>, chosen: seq<Outpoint>, request: nat, sig: Signature)
    : map<Outpoint, Utxo>
  { map o | o in utxos :: if o in chosen then utxos[o].(spendRequest := Some(request), spendProcess := Some(sig))
                          else utxos[o] }

  function SendOff(utxos: map<Outpoint, Utxo>, chosen: seq<Outpoint>, txid: Txid): map<Outpoint, Utxo>
  { map o | o in utxos :: if o in chosen then utxos[o].(status := InFlight, spendTxid := Some(txid)) else utxos[o] }

  function Consume(utxos: map<Outpoint, Utxo>, chosen: seq<Outpoint>): map<Outpoint, Utxo>
  { map o | o in utxos :: if o in chosen then utxos[o].(status := Spent) else utxos[o] }

  function Mappings(start: nat, end: nat, txid: Txid): seq<(nat, Txid)>
    requires start <= end
  { seq(end - start, k requires 0 <= k < end - start => (start + k, txid)) }

  // ---- Effects of the operations ----

  /** Values are reserved and the observed batch is inserted in one transaction. */
  function ApplyReserve(s: StoreState, w: Write): StoreState
    requires w.ReserveForSnapshot?
  {
    s.(reservations := s.reservations[w.id := w.reservation],
       utxos := Reserve(s.utxos, w.reservation.utxos, w.id),
       batches := s.batches[w.sig := w.batch])
  }

  function ApplyRelease(s: StoreState, id: ReservationId): StoreState
  {
    if id !in s.reservations then s
    else s.(reservations := s.reservations[id := s.reservations[id].(status := Released)],
            utxos := Release(s.utxos, s.reservations[id].utxos))
  }

  /** Transaction, process, mappings, custody links and all statuses change together. */
  function ApplyPersistSigned(s: StoreState, w: Write): StoreState
    requires w.PersistSigned?
  {
    if w.id !in s.reservations || w.process.start > w.process.end || w.transaction.txid.None? then s
    else
      var r := s.reservations[w.id];
      s.(transactions := s.transactions[w.rawHash := w.transaction],
         processes := s.processes[w.sig := w.process],
         mappings := s.mappings[w.sig := Mappings(w.process.start, w.process.end, w.transaction.txid.value)],
         batches := WithBatchStatus(s.batches, w.sig, Signed),
         requests := WithRangeStatus(s.requests, w.process.start, w.process.end, Signed),
         reservations := s.reservations[w.id := r.(request := Some(w.process.start), process := Some(w.sig))],
         utxos := LinkSpend(s.utxos, r.utxos, w.process.start, w.sig))
  }

  function ApplyMarkBroadcast(s: StoreState, id: ReservationId, txid: Txid): StoreState
  {
    if id !in s.reservations then s
    else
      var r := s.reservations[id];
      s.(reservations := s.reservations[id := r.(status := Relayed, spendTxid := Some(txid))],
         utxos := SendOff(s.utxos, r.utxos, txid))
  }

  /** Everything linked to the batch becomes final and the change output, if any, is tracked. */
  function ApplyFinalize(s: StoreState, w: Write): StoreState
    requires w.FinalizeConfirmed?
  {
    if w.sig !in s.batches || s.batches[w.sig].reservation.None?
      || s.batches[w.sig].reservation.value !in s.reservations
       || w.sig !in s.processes || w.rawHash !in s.transactions then s
    else
      var b := s.batches[w.sig];
      var id := b.reservation.value;
      var r := s.reservations[id];
      var consumed := Consume(s.utxos, r.utxos);
      s.(batches := WithBatchStatus(s.batches, w.sig, Confirmed),
         processes := WithProcessStatus(s.processes, w.sig, Confirmed),
         transactions := WithTransactionStatus(s.transactions, w.rawHash, Confirmed),
         requests := WithRangeStatus(s.requests, b.start, b.end, Confirmed),
         reservations := s.reservations[id := r.(status := Consumed)],
         utxos := if w.change.Some? then consumed[OutpointOf(w.change.value) := Fresh(w.change.value)] else consumed)
  }

  function Apply(s: StoreState, w: Write): StoreState
  {
    match w
    case AddUtxo(row) => s.(utxos := s.utxos[OutpointOf(row) := Fresh(row)])
    case UpsertRequest(i, r) => s.(requests := s.requests[i := r])
    case ReserveForSnapshot(_, _, _, _) => ApplyReserve(s, w)
    case ReleaseReservation(id) => ApplyRelease(s, id)
    case SetBatchStatus(sig, status) => s.(batches := WithBatchStatus(s.batches, sig, status))
    case SetRequestStatus(i, status) => s.(requests := WithRequestStatus(s.requests, i, status))
    case PersistSigned(_, _, _, _, _) => ApplyPersistSigned(s, w)
    case MarkReservationBroadcast(id, txid) => ApplyMarkBroadcast(s, id, txid)
    case SetTransactionStatus(h, status) => s.(transactions := WithTransactionStatus(s.transactions, h, status))
    case SetProcessStatus(sig, status) => s.(processes := WithProcessStatus(s.processes, sig, status))
    case FinalizeConfirmed(_, _, _) => ApplyFinalize(s, w)
  }

  /** The state after a journal of writes. */
  function Replay(s: StoreState, ws: seq<Write>): StoreState
    decreases |ws|
  { if ws == [] then s else Apply(Replay(s, ws[..|ws| - 1]), ws[|ws| - 1]) }

  lemma ReplayStep(s: StoreState, ws: seq<Write>, w: Write)
    ensures Replay(s, ws + [w]) == Apply(Replay(s, ws), w)
  {
    assert (ws + [w])[..|ws|] == ws;
  }

  lemma ReplayNothing(s: StoreState)
    ensures Replay(s, []) == s
  {}

  lemma ReplayOne(s: StoreState, w: Write)
    ensures Replay(s, [w]) == Apply(s, w)
  {
    hide Apply;
    assert [w][..0] == [];
  }

  lemma {:induction false} ReplayAppend(s: StoreState, a: seq<Write>, b: seq<Write>)
    ensures Replay(s, a + b) == Replay(Replay(s, a), b)
    decreases |b|
  {
    hide Apply;
    if b == [] {
      assert a + b == a;
    } else {
      ReplayAppend(s, a, b[..|b| - 1]);
      assert (a + b)[..|a + b| - 1] == a + b[..|b| - 1];
    }
  }

  /** The store as the operator's procedures use it. The journal records every committed write. */
  class OperatorStore {
    var state: StoreState
    ghost var journal: seq<Write>

    constructor (initial: StoreState)
      ensures state == initial && journal == []
    {
      state := initial;
      journal := [];
    }

    method Commit(w: Write)
      modifies this
      ensures state == Apply(old(state), w)
      ensures journal == old(journal) + [w]
    {
      hide ApplyReserve, ApplyRelease, ApplyPersistSigned, ApplyMarkBroadcast, ApplyFinalize;
      state := Apply(state, w);
      journal := journal + [w];
    }

    /** The method wrote exactly `ws`, in this order: a crash inside it leaves the state after
        some prefix of `ws`. */
    twostate predicate Wrote(ws: seq<Write>)
      reads this
    { journal == old(journal) + ws && state == Replay(old(state), ws) }
  }
}
