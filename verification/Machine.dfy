/** The operator, the snapshot chain and Electrs as one state machine. The operator's steps are
    its single durable writes, so a crash is nothing but another step happening next. Chain steps
    are assumed as the bridge program enforces them: a snapshot transaction carries its expected
    start and lands only while that is the cursor, and a transaction that was rejected, or whose
    blockhash expired before it landed, never lands. */
module Machine {
  import opened Bytes
  import opened Utx0
  import opened OperatorRows
  import opened Store
  import opened Withdrawal
  import opened Totals

  datatype ChainStatus = Pending | Landed | Rejected | Expired

  /** What the operator checks of bytes before it persists them: the unsigned transaction of a new
      batch, and the signed one, each for the batch's payload and reservation. Any conditions will do
      here; `Provenance` shows that they hold ever after, and `Payouts` takes the operator's own. */
  datatype Rules = Rules(
    prepared: (Payload, CustodyReservation, seq<u8>) -> bool,
    signed: (Payload, CustodyReservation, seq<u8>, seq<u8>) -> bool)

  /** `first` is the cursor when the operator started, `requested` all requests so far, `landed` the
      snapshots in landing order, `electrs` the transactions Electrs has accepted, `deposits` the
      value of all deposits, `minDust` the least dust threshold used. */
  datatype World = World(
    store: StoreState,
    first: nat,
    cursor: nat,
    requested: seq<RequestRecord>,
    snapshots: map<Signature, ChainStatus>,
    landed: seq<Signature>,
    electrs: set<Txid>,
    deposits: nat,
    minDust: nat,
    hashes: Hashes,
    rules: Rules)

  datatype Step =
    | Deposit(row: CustodyUtxo)
    | Ask(record: RequestRecord)
    | Land(sig: Signature)
    | Reject(sig: Signature)
    | Expire(sig: Signature)
    | Submit(sig: Signature)
    | Record(index: nat)
    | Begin(sig: Signature, id: ReservationId, reservation: Reservation, batch: Batch)
    | Operate(sig: Signature, write: Write)

  predicate Dead(status: ChainStatus) { status == Rejected || status == Expired }

  function AmountOf(utxos: map<Outpoint, Utxo>, o: Outpoint): nat
  { if o in utxos then utxos[o].row.amount else 0 }

  function Sum(utxos: map<Outpoint, Utxo>, os: seq<Outpoint>): nat
  { if os == [] then 0 else AmountOf(utxos, os[0]) + Sum(utxos, os[1..]) }

  /** The net amounts of requests `start` to `end - 1`. */
  function SumRequested(requested: seq<RequestRecord>, start: nat, end: nat): nat
    requires end <= |requested|
    decreases end
  { if end <= start then 0 else SumRequested(requested, start, end - 1) + requested[end - 1].net }

  predicate Distinct<T(==)>(s: seq<T>)
  { forall i, j :: 0 <= i < j < |s| ==> s[i] != s[j] }

  ghost predicate NoneIncomplete(s: StoreState)
  { forall sig :: sig in s.batches ==> !Incomplete(s.batches[sig]) }

  predicate ChangeOk(change: int, minDust: nat)
  { change == 0 || change >= minDust }

  function ReservationOf(s: StoreState, sig: Signature): Option<Reservation>
  {
    if sig in s.batches && s.batches[sig].reservation.Some? && s.batches[sig].reservation.value in s.reservations
    then Some(s.reservations[s.batches[sig].reservation.value]) else None
  }

  /** The transaction linked to a batch. */
  function LinkedTx(s: StoreState, sig: Signature): Option<DogeTx>
  {
    if sig in s.processes && s.processes[sig].rawHash in s.transactions
    then Some(s.transactions[s.processes[sig].rawHash]) else None
  }

  function TxidOf(s: StoreState, sig: Signature): Option<Txid>
  { if LinkedTx(s, sig).Some? then LinkedTx(s, sig).value.txid else None }

  // ---- When a step may happen ----

  /** A new batch from the cursor on: nothing is incomplete, its requests are recorded and paid by its
      payload one by one, and free UTXOs cover payload and fee with acceptable change. Its end was
      fixed by an earlier tip, so it may fall short of what the present one allows. */
  ghost predicate CanBegin(w: World, sig: Signature, id: ReservationId, r: Reservation, b: Batch)
  {
    && NoneIncomplete(w.store) && sig !in w.store.batches && id !in w.store.reservations
    && w.cursor <= |w.requested| < U64_LIMIT
    && b.start == w.cursor < b.end <= CappedBatchEnd(w.cursor, |w.requested|)
    && b.status == Observed && b.reservation == Some(id) && b.unsigned.Some?
    && (forall i: nat :: b.start <= i < b.end ==> i in w.store.requests)
    && FulfilsAll(w.requested[b.start..b.end], b.payload.outputs)
    && r.status == Held && r.spendTxid.None? && r.request.None? && r.process.None?
    && r.utxos != [] && Distinct(r.utxos)
    && (forall o :: o in r.utxos ==> o in w.store.utxos && w.store.utxos[o].status == Available)
    && r.selected == Sum(w.store.utxos, r.utxos)
    && SumRequested(w.requested, b.start, b.end) <= r.required <= r.selected
    && ChangeOk(r.selected - r.required, w.minDust)
    && w.rules.prepared(b.payload, Joined(w.store.utxos, id, r), b.unsigned.value)
  }

  ghost predicate CanPersistSigned(w: World, sig: Signature, v: Write)
    requires sig in w.store.batches && v.PersistSigned?
  {
    var b := w.store.batches[sig];
    && b.status == Constructed && v.sig == sig && b.reservation == Some(v.id) && v.id in w.store.reservations
    && v.process.start == b.start && v.process.end == b.end && v.process.rawHash == v.rawHash
    && v.process.status == Signed && v.transaction.status == Signed
    && v.process.returnIndex == b.end - b.start
    && v.process.returnAmount == w.store.reservations[v.id].selected - w.store.reservations[v.id].required
    && v.transaction.raw.Some? && w.hashes.sha256(v.transaction.raw.value) == v.rawHash
    && v.transaction.txid == Some(w.hashes.doubleSha256(v.transaction.raw.value))
    && v.rawHash !in w.store.transactions
    && b.unsigned.Some?
    && w.rules.signed(b.payload, Loaded(w.store, v.id), b.unsigned.value, v.transaction.raw.value)
  }

  /** The change output of a signed batch, which follows the withdrawals. */
  function ChangeOf(s: StoreState, sig: Signature): Option<(Outpoint, nat)>
  {
    if sig !in s.processes || s.processes[sig].returnAmount == 0 || TxidOf(s, sig).None? then None
    else Some(((TxidOf(s, sig).value, s.processes[sig].returnIndex), s.processes[sig].returnAmount))
  }

  /** The tracked change has the outpoint and the amount of the planned one. */
  predicate ChangeMatches(change: Option<CustodyUtxo>, planned: Option<(Outpoint, nat)>)
  {
    planned == if change.None? then None else Some((OutpointOf(change.value), change.value.amount))
  }

  /** The confirmed change, if any, is an output nobody tracks yet. */
  ghost predicate CanFinalize(w: World, sig: Signature, v: Write)
    requires sig in w.store.batches && v.FinalizeConfirmed?
  {
    && w.store.batches[sig].status == Broadcast && v.sig == sig
    && BroadcastIntact(w.hashes, w.store, sig, w.store.batches[sig])
    && v.rawHash == w.store.processes[sig].rawHash
    && ChangeMatches(v.change, ChangeOf(w.store, sig))
    && (v.change.Some? ==> OutpointOf(v.change.value) !in w.store.utxos)
  }

  ghost predicate CanOperate(w: World, sig: Signature, v: Write)
  {
    && sig in w.store.batches && sig in w.snapshots
    && var b, chain, r := w.store.batches[sig], w.snapshots[sig], ReservationOf(w.store, sig);
       r.Some? &&
       match v
       case ReleaseReservation(id) =>
         b.status == Observed && Dead(chain) && w.cursor == b.start && b.reservation == Some(id)
           && r.value.status == Held
       case SetBatchStatus(other, status) =>
         other == sig &&
         if status == Failed then
           b.status == Observed && Dead(chain) && w.cursor == b.start && r.value.status == Released
         else if status == Broadcast then
           b.status == Signed && BroadcastIntact(w.hashes, w.store, sig, b)
         else
           status == ConfirmedStatus(b) && b.status == Observed && chain == Landed && w.cursor == b.end
       case SetRequestStatus(i, status) =>
         b.start <= i < b.end &&
         if status == Broadcast then b.status == Signed && r.value.status == Relayed
         else status == ConfirmedStatus(b) == b.status
       case PersistSigned(_, _, _, _, _) => CanPersistSigned(w, sig, v)
       case MarkReservationBroadcast(id, txid) =>
         b.reservation == Some(id) && LoadCompleteSigned(w.store, sig, b).Ok?
         && TxidOf(w.store, sig) == Some(txid) && txid in w.electrs
       case SetTransactionStatus(h, status) =>
         status == Broadcast && b.status == Signed && r.value.status == Relayed
         && sig in w.store.processes && w.store.processes[sig].rawHash == h
       case SetProcessStatus(other, status) =>
         status == Broadcast && other == sig && b.status == Signed && r.value.status == Relayed
       case FinalizeConfirmed(_, _, _) => CanFinalize(w, sig, v)
       case AddUtxo(_) => false
       case UpsertRequest(_, _) => false
       case ReserveForSnapshot(_, _, _, _) => false
  }

  function Recorded(w: World, index: nat): Request
    requires index < |w.requested|
  { if index in w.store.requests then w.store.requests[index] else Request(w.requested[index], Observed) }

  predicate Undecided(w: World, sig: Signature)
  { sig in w.snapshots && w.snapshots[sig] == Pending }

  predicate CanLand(w: World, sig: Signature)
  { Undecided(w, sig) && sig in w.store.batches && w.store.batches[sig].start == w.cursor }

  predicate CanSubmit(w: World, sig: Signature)
  { sig in w.store.batches && LoadCompleteSigned(w.store, sig, w.store.batches[sig]).Ok? }

  ghost predicate CanRecord(w: World, index: nat)
  {
    && NoneIncomplete(w.store) && w.cursor <= index < |w.requested|
    && HasFee(w.requested[index]) && Recorded(w, index).record == w.requested[index]
  }

  ghost predicate Enabled(w: World, step: Step)
  {
    match step
    case Deposit(row) => OutpointOf(row) !in w.store.utxos
    case Ask(_) => true
    case Land(sig) => CanLand(w, sig)
    case Reject(sig) => Undecided(w, sig)
    case Expire(sig) => Undecided(w, sig)
    case Submit(sig) => CanSubmit(w, sig)
    case Record(index) => CanRecord(w, index)
    case Begin(sig, id, r, b) => CanBegin(w, sig, id, r, b)
    case Operate(sig, v) => CanOperate(w, sig, v)
  }

  // ---- What a step does ----

  function AfterWrite(w: World, v: Write): World { w.(store := Apply(w.store, v)) }

  function AfterDeposit(w: World, row: CustodyUtxo): World
  { AfterWrite(w, AddUtxo(row)).(deposits := w.deposits + row.amount) }

  function AfterAsk(w: World, record: RequestRecord): World { w.(requested := w.requested + [record]) }

  function AfterLand(w: World, sig: Signature): World
    requires sig in w.store.batches
  { w.(snapshots := w.snapshots[sig := Landed], landed := w.landed + [sig], cursor := w.store.batches[sig].end) }

  function AfterDeath(w: World, sig: Signature, status: ChainStatus): World
  { w.(snapshots := w.snapshots[sig := status]) }

  function AfterSubmit(w: World, sig: Signature): World
  { if TxidOf(w.store, sig).None? then w else w.(electrs := w.electrs + {TxidOf(w.store, sig).value}) }

  function AfterBegin(w: World, sig: Signature, id: ReservationId, r: Reservation, b: Batch): World
  { AfterWrite(w, ReserveForSnapshot(id, r, sig, b)).(snapshots := w.snapshots[sig := Pending]) }

  function Next(w: World, step: Step): World
    requires Enabled(w, step)
  {
    match step
    case Deposit(row) => AfterDeposit(w, row)
    case Ask(record) => AfterAsk(w, record)
    case Land(sig) => AfterLand(w, sig)
    case Reject(sig) => AfterDeath(w, sig, Rejected)
    case Expire(sig) => AfterDeath(w, sig, Expired)
    case Submit(sig) => AfterSubmit(w, sig)
    case Record(index) => AfterWrite(w, UpsertRequest(index, Recorded(w, index)))
    case Begin(sig, id, r, b) => AfterBegin(w, sig, id, r, b)
    case Operate(_, v) => AfterWrite(w, v)
  }

  // ---- Invariants ----

  /** Batches and snapshots belong together; landed ranges follow each other without gap or
      overlap from the first cursor to the current one, each of at most 319 requests. */
  ghost predicate Ranges(w: World)
  {
    && w.snapshots.Keys == w.store.batches.Keys
    && (forall sig :: sig in w.store.batches ==>
          w.store.batches[sig].start < w.store.batches[sig].end <= |w.requested|
          && w.store.batches[sig].end - w.store.batches[sig].start <= MAX_BATCH)
    && Distinct(w.landed)
    && (forall sig :: sig in w.store.batches ==> (w.snapshots[sig] == Landed <==> sig in w.landed))
    && Chained(w.store.batches, w.landed, w.first, w.cursor)
    && w.cursor <= |w.requested|
  }

  /** The landed ranges, each starting where the one before it ends. */
  ghost predicate Chained(batches: map<Signature, Batch>, landed: seq<Signature>, first: nat, cursor: nat)
    decreases |landed|
  {
    if landed == [] then cursor == first
    else
      var last := landed[|landed| - 1];
      last in batches && batches[last].end == cursor
        && Chained(batches, landed[..|landed| - 1], first, batches[last].start)
  }

  ghost predicate OneIncomplete(s: StoreState)
  {
    forall a, b :: a in s.batches && b in s.batches && Incomplete(s.batches[a]) && Incomplete(s.batches[b]) ==> a == b
  }

  /** Every batch has its own reservation, worth what its requests ask for and a fee. */
  ghost predicate Owned(w: World)
  {
    && (forall sig :: sig in w.store.batches ==>
          w.store.batches[sig].unsigned.Some? && ReservationOf(w.store, sig).Some?
          && w.store.batches[sig].end <= |w.requested|
          && SumRequested(w.requested, w.store.batches[sig].start, w.store.batches[sig].end)
             <= ReservationOf(w.store, sig).value.required)
    && (forall a, b :: a in w.store.batches && b in w.store.batches && a != b ==>
          w.store.batches[a].reservation != w.store.batches[b].reservation)
  }

  function Holding(status: ReservationStatus): UtxoStatus
  { match status case Held => Reserved case Relayed => InFlight case Consumed => Spent case Released => Available }

  /** A reservation's UTXOs are tracked, worth what was selected, and while it is not released
      they are its own and in the matching status. */
  ghost predicate Custody(w: World)
  {
    && (forall id :: id in w.store.reservations ==> CustodyOf(w, id, w.store.reservations[id]))
    && (forall o :: o in w.store.utxos && w.store.utxos[o].status in {Available, Reserved} ==>
          w.store.utxos[o].spendTxid.None?)
  }

  ghost predicate CustodyOf(w: World, id: ReservationId, r: Reservation)
  {
    && r.utxos != [] && Distinct(r.utxos)
    && r.selected == Sum(w.store.utxos, r.utxos) && r.required <= r.selected
    && ChangeOk(r.selected - r.required, w.minDust)
    && (r.status == Held ==> r.spendTxid.None?)
    && forall o :: o in r.utxos ==>
         o in w.store.utxos
         && (r.status != Released ==>
               w.store.utxos[o].reservation == Some(id) && w.store.utxos[o].status == Holding(r.status))
  }

  ghost predicate IsLast(w: World, sig: Signature)
  { w.landed != [] && w.landed[|w.landed| - 1] == sig }

  /** A signed batch never fails a drift check, and once its custody is marked, Electrs has its
      transaction. */
  ghost predicate SignedOk(w: World, sig: Signature)
    requires sig in w.store.batches
  {
    var b := w.store.batches[sig];
    && LoadGraph(w.store, sig, b).Ok?
    && var g := LoadGraph(w.store, sig, b).value;
       && Identified(w, g)
       && (g.reservation.status == Held ==> LoadCompleteSigned(w.store, sig, b).Ok?)
       && (g.reservation.status == Relayed ==>
             g.reservation.spendTxid == g.transaction.txid && g.transaction.txid.value in w.electrs)
       && g.reservation.status in {Held, Relayed}
  }

  ghost predicate Identified(w: World, g: Graph)
  {
    && g.transaction.txid.Some? && RawIntact(w.hashes, g)
    && g.process.returnAmount == g.reservation.selected - g.reservation.required
    && g.process.returnIndex == g.process.end - g.process.start
  }

  /** What the status of a batch says about chain, custody and links. */
  ghost predicate StageOk(w: World, sig: Signature)
    requires sig in w.store.batches && sig in w.snapshots && ReservationOf(w.store, sig).Some?
  {
    var b, chain, r := w.store.batches[sig], w.snapshots[sig], ReservationOf(w.store, sig).value;
    match b.status
    case Observed =>
      && (r.status == Held || (r.status == Released && Dead(chain)))
      && (if chain == Landed then IsLast(w, sig) else w.cursor == b.start)
    case Failed => r.status == Released && Dead(chain)
    case Snapshotted => false
    case Constructed => r.status == Held && chain == Landed && IsLast(w, sig)
    case Signed => chain == Landed && IsLast(w, sig) && SignedOk(w, sig)
    case Broadcast =>
      && chain == Landed && IsLast(w, sig)
      && BroadcastIntact(w.hashes, w.store, sig, b)
      && Identified(w, LoadGraph(w.store, sig, b).value)
      && LoadGraph(w.store, sig, b).value.transaction.txid.value in w.electrs
    case Confirmed =>
      && chain == Landed && r.status == Consumed
      && TxidOf(w.store, sig).Some? && TxidOf(w.store, sig).value in w.electrs
  }

  ghost predicate Stages(w: World)
  {
    forall sig :: sig in w.store.batches ==>
      sig in w.snapshots && ReservationOf(w.store, sig).Some? && StageOk(w, sig)
  }

  /** Recorded requests are those that were asked for. */
  ghost predicate RequestsOk(w: World)
  {
    && (forall i :: i in w.store.requests ==> i < |w.requested| && w.store.requests[i].record == w.requested[i])
    && (forall sig, i: nat :: sig in w.store.batches && w.store.batches[sig].start <= i < w.store.batches[sig].end ==>
          i in w.store.requests)
  }

  ghost predicate Paying(w: World, sig: Signature, txid: Txid)
  {
    && sig in w.store.batches && w.store.batches[sig].status in {Signed, Broadcast, Confirmed}
    && TxidOf(w.store, sig) == Some(txid)
  }

  /** Electrs has only transactions that were persisted for some batch. */
  ghost predicate Payments(w: World)
  { forall txid :: txid in w.electrs ==> exists sig :: Paying(w, sig, txid) }

  function Value(u: Utxo): nat { if u.status == Spent then 0 else u.row.amount }

  function Values(utxos: map<Outpoint, Utxo>): map<Outpoint, nat>
  { map o | o in utxos :: Value(utxos[o]) }

  /** What a confirmed batch took out of custody: its payload and its fee. */
  function PaidBy(s: StoreState, sig: Signature): nat
  {
    if sig in s.batches && s.batches[sig].status == Confirmed && ReservationOf(s, sig).Some?
    then ReservationOf(s, sig).value.required else 0
  }

  function Paid(s: StoreState): map<Signature, nat>
  { map sig | sig in s.batches :: PaidBy(s, sig) }

  ghost predicate Conserved(w: World)
  { Total(Values(w.store.utxos)) + Total(Paid(w.store)) == w.deposits }

  ghost predicate Inv(w: World)
  {
    && Ranges(w) && OneIncomplete(w.store) && Owned(w) && Custody(w) && Stages(w) && RequestsOk(w)
    && Payments(w) && Conserved(w)
  }

  /** An empty store beside a chain whose cursor may already stand anywhere. */
  ghost predicate Init(w: World)
  {
    && w.store == StoreState(map[], map[], map[], map[], map[], map[], map[])
    && w.cursor == w.first <= |w.requested|
    && w.snapshots == map[] && w.landed == [] && w.electrs == {} && w.deposits == 0
  }
}
