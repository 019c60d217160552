/** The theorems about runs are not vacuous: with the local Manager service, a deposit and a request lead
    to a confirmed payment. */
module Completion {
  import opened Bytes
  import opened Utx0
  import opened OperatorRows
  import opened Wire
  import opened Store
  import opened Withdrawal
  import opened Resume
  import opened Start
  import opened Machine
  import opened Runs
  import opened Provenance
  import opened OperatorRules
  import opened ResumeRuns
  import opened ResumeProgress
  import opened StartRuns
  import opened Payouts
  import Manager
  import Prepare
  import Sighash

  // ---- Reaching further ----

  lemma StartIsReachable(w: World)
    requires Init(w)
    ensures Reachable(w)
  {
    hide Init, Enabled, Next;
    assert Run([w], []);
    assert RunFrom(w, [], w);
  }

  lemma StepIsReachable(w: World, step: Step)
    requires Reachable(w) && Enabled(w, step)
    ensures Reachable(Next(w, step))
  {
    hide Init, Enabled, Next;
    var x := Next(w, step);
    assert Run([w, x], [step]);
    assert RunFrom(w, [step], x);
    RunIsReachable(w, [step], x);
  }

  lemma RunIsReachable(w: World, steps: seq<Step>, x: World)
    requires Reachable(w) && RunFrom(w, steps, x)
    ensures Reachable(x)
  {
    hide Init, RunFrom;
    var start, before :| Init(start) && RunFrom(start, before, w);
    RunsJoin(start, before, w, steps, x);
  }

  lemma MakingIsReachable(w: World, journal: seq<Write>, x: World)
    requires Reachable(w) && Makes(w, journal, x)
    ensures Reachable(x)
  {
    hide Reachable, Enabled, Next, JournalOf;
    var ws, steps :| MakesBy(w, journal, x, ws, steps);
    assert RunFrom(w, steps, x);
    RunIsReachable(w, steps, x);
  }

  // ---- A deposit, a request, and the local Managers ----

  /** The network whose Manager set 0 is the local service's. */
  ghost predicate LocalNetwork(v: Manager.Service, n: Network)
  {
    && n.crypto == v.crypto && n.keccak == v.keccak && n.managers(0) == Ok(Manager.LocalSet(v))
    && Manager.Faithful(v) && Encodes(n)
  }

  /** A request that one custody UTXO pays to the satoshi. */
  ghost predicate Payable(v: Manager.Service, e: Settings, row: CustodyUtxo, record: RequestRecord)
  {
    && HasFee(record) && record.net > 0 && record.addressType in {0, 1} && row.amount == record.net + e.fee
    && Prepare.RebuildInput(e.network.crypto, e.Config(), Manager.LocalSet(v), row).Ok?
    && LocalNetwork(v, e.network) && e.managerSetIndex == 0 && e.broadcastEnabled
  }

  /** An empty store beside a chain without open requests. */
  ghost predicate Empty(w: World, e: Settings)
  {
    && Init(w) && w.cursor == |w.requested| < U64_LIMIT - 1 && w.minDust <= e.dust && w.rules == RulesOf(e.network)
  }

  function Funded(w: World, row: CustodyUtxo, record: RequestRecord): World { AfterAsk(AfterDeposit(w, row), record) }

  lemma FundedIsReachable(w: World, row: CustodyUtxo, record: RequestRecord)
    requires Init(w)
    ensures Reachable(Funded(w, row, record))
  {
    StartIsReachable(w);
    var c := AfterDeposit(w, row);
    assert Enabled(w, Deposit(row)) && Next(w, Deposit(row)) == c;
    assert Enabled(c, Ask(record)) && Next(c, Ask(record)) == Funded(w, row, record);
    hide Reachable, Init, Enabled, Next;
    StepIsReachable(w, Deposit(row));
    StepIsReachable(c, Ask(record));
  }

  function OpeningOf(w: World, row: CustodyUtxo, record: RequestRecord, sequence: u64, sig: Signature,
                     id: ReservationId)
    : Opening
    requires w.cursor == |w.requested| < U64_LIMIT - 1
  {
    Opening(w.cursor, w.cursor + 1, w.requested + [record], None, None, true, Ok(()), Ok(sequence), sig, id,
            Ok(([OutpointOf(row)], row.amount)), Ok(()))
  }

  function PaidOutput(record: RequestRecord): Output
    requires record.addressType in {0, 1}
  { Output(record.net, if record.addressType == 0 then P2pkh else P2sh, record.recipient) }

  function OnePayload(record: RequestRecord): Payload
    requires record.addressType in {0, 1}
  { Payload(DOGECOIN, 0, [PaidOutput(record)]) }

  lemma OneRequest(w: World, e: Settings, row: CustodyUtxo, record: RequestRecord, sequence: u64, sig: Signature,
                   id: ReservationId)
    requires w.cursor == |w.requested| < U64_LIMIT - 1 && record.addressType in {0, 1} && e.managerSetIndex == 0
    ensures var o := OpeningOf(w, row, record, sequence, sig, id);
            EndOf(o) == w.cursor + 1 && o.history[o.cursor..EndOf(o)] == [record]
            && OpenPayload(e, o) == Ok(OnePayload(record))
  {
    var o := OpeningOf(w, row, record, sequence, sig, id);
    assert o.history[o.cursor..EndOf(o)] == [record];
    assert [record][1..] == [] && OutputsFor([]) == Ok([]);
    assert OutputFor(record) == Ok(PaidOutput(record));
    assert OutputsFor([record]) == Ok([PaidOutput(record)] + []);
    assert [PaidOutput(record)] + [] == [PaidOutput(record)];
  }

  lemma OneRecord(w: World, e: Settings, row: CustodyUtxo, record: RequestRecord, sequence: u64, sig: Signature,
                  id: ReservationId)
    requires Empty(w, e) && HasFee(record) && record.addressType in {0, 1} && e.managerSetIndex == 0
    ensures var o := OpeningOf(w, row, record, sequence, sig, id);
            OpenRecords(e, Funded(w, row, record).store, o)
            == ([UpsertRequest(w.cursor, Request(record, Observed))], true)
  {
    OneRequest(w, e, row, record, sequence, sig, id);
    FirstRecord(Funded(w, row, record).store, w.cursor, record);
    hide OpenPayload, RecordWrites;
  }

  lemma FirstRecord(s: StoreState, index: nat, record: RequestRecord)
    requires index !in s.requests && HasFee(record)
    ensures RecordWrites(s, index, [record]) == ([UpsertRequest(index, Request(record, Observed))], true)
  {
    assert [record][..0] == [] && RecordWrites(s, index, []) == ([], true);
    var w := UpsertRequest(index, Request(record, Observed));
    assert [] + [w] == [w];
  }

  /** The reservation of one UTXO that pays for it all. */
  function OneReservation(row: CustodyUtxo): Reservation
  { Reservation(row.amount, row.amount, [OutpointOf(row)], Held, None, None, None) }

  function OneLoaded(row: CustodyUtxo, id: ReservationId): CustodyReservation
  { CustodyReservation(id, row.amount, row.amount, [row]) }

  /** What the operator prepares for it, and the response of the local service. */
  lemma ServiceAnswers(v: Manager.Service, e: Settings, row: CustodyUtxo, record: RequestRecord, sequence: u64,
                       id: ReservationId) returns (p: Prepare.Prepared, response: Response)
    requires Payable(v, e, row, record)
    ensures var payload, r := OnePayload(record), OneLoaded(row, id);
            && Prepare.PreparedFromReservation(e.network.crypto, e.Config(), Manager.LocalSet(v), payload, r, None)
               == Ok(p)
            && Prepare.Affords(e.Config(), payload, r)
            && Answered(e, payload, sequence, Some(p.unsignedBytes), r, Ok(response))
  {
    var payload, r, ms := OnePayload(record), OneLoaded(row, id), Manager.LocalSet(v);
    OneAffords(e, row, record, id);
    hide Prepare.PreparedFromReservation, Prepare.RebuildInput, Prepare.Affords, Manager.AssertVaaAndManager,
         Manager.BuildSigned, Manager.Faithful, Signing.Accepts, Encodes, SerializePayload;
    Prepare.PreparesIffAffords(e.network.crypto, e.Config(), ms, payload, r);
    p := Prepare.PreparedFromReservation(e.network.crypto, e.Config(), ms, payload, r, None).value;
    Prepare.CappedBatchRecovers(e.network.crypto, e.Config(), ms, payload, r, p);
    OneSerializes(record);
    var s := Manager.ServiceServesOperator(v, e.Config(), payload, SerializePayload(payload).value, sequence, r,
                                           Some(p.unsignedBytes), p);
    response := Response(s.signedVaa, s.signatures);
  }

  lemma OneSerializes(record: RequestRecord)
    requires record.addressType in {0, 1}
    ensures SerializePayload(OnePayload(record)).Ok?
  {
    hide SerializeOutputs, Header;
  }

  lemma OneAffords(e: Settings, row: CustodyUtxo, record: RequestRecord, id: ReservationId)
    requires record.net > 0 && record.addressType in {0, 1} && row.amount == record.net + e.fee
    ensures Prepare.Affords(e.Config(), OnePayload(record), OneLoaded(row, id))
  {
    var outputs := [PaidOutput(record)];
    assert outputs[1..] == [] && Prepare.Total(outputs) == record.net + Prepare.Total([]);
  }

  // ---- A fresh invocation ----

  function OneBatch(w: World, record: RequestRecord, sequence: u64, id: ReservationId, unsigned: seq<u8>): Batch
    requires record.addressType in {0, 1}
  { Batch(w.cursor, w.cursor + 1, OnePayload(record), sequence, Some(unsigned), Some(id), Observed) }

  lemma OneBegins(w: World, v: Manager.Service, e: Settings, row: CustodyUtxo, record: RequestRecord, sequence: u64,
                  sig: Signature, id: ReservationId, p: Prepare.Prepared)
    requires Empty(w, e) && Payable(v, e, row, record)
    requires Prepare.PreparedFromReservation(e.network.crypto, e.Config(), Manager.LocalSet(v), OnePayload(record),
                                             OneLoaded(row, id), None) == Ok(p)
    ensures BeginWrite(e, Funded(w, row, record).store, OpeningOf(w, row, record, sequence, sig, id))
         == Ok(ReserveForSnapshot(id, OneReservation(row), sig, OneBatch(w, record, sequence, id, p.unsignedBytes)))
  {
    hide OpenPayload, OpenRecords, OpenBatch, Prepare.PreparedFromReservation, Replay, Empty, Joined, Funded,
         Prepare.RebuildInput, Encodes;
    PayableParts(w, v, e, row, record);
    var o, s := OpeningOf(w, row, record, sequence, sig, id), Funded(w, row, record).store;
    OneRequest(w, e, row, record, sequence, sig, id);
    OneRecord(w, e, row, record, sequence, sig, id);
    RecordedUtxos(s, w.cursor, record);
    OneRow(w, row, record, id);
    OneOpenBatch(w, v, e, Replay(s, [UpsertRequest(w.cursor, Request(record, Observed))]), row, record, sequence, sig,
                 id, p);
  }

  lemma OneOpenBatch(w: World, v: Manager.Service, e: Settings, s: StoreState, row: CustodyUtxo, record: RequestRecord,
                     sequence: u64, sig: Signature, id: ReservationId, p: Prepare.Prepared)
    requires w.cursor == |w.requested| < U64_LIMIT - 1 && Payable(v, e, row, record)
    requires Joined(s.utxos, id, OneReservation(row)) == OneLoaded(row, id)
    requires EndOf(OpeningOf(w, row, record, sequence, sig, id)) == w.cursor + 1
    requires Prepare.PreparedFromReservation(e.network.crypto, e.Config(), Manager.LocalSet(v), OnePayload(record),
                                             OneLoaded(row, id), None) == Ok(p)
    ensures OpenBatch(e, s, OpeningOf(w, row, record, sequence, sig, id), OnePayload(record))
         == Ok(ReserveForSnapshot(id, OneReservation(row), sig, OneBatch(w, record, sequence, id, p.unsignedBytes)))
  {
    hide Prepare.PreparedFromReservation, Prepare.CheckedSum, Joined, Prepare.RebuildInput, Encodes, EndOf;
    OneSum(e, row, record);
  }

  lemma RecordedUtxos(s: StoreState, index: nat, record: RequestRecord)
    ensures Replay(s, [UpsertRequest(index, Request(record, Observed))])
         == s.(requests := s.requests[index := Request(record, Observed)])
  {
    ReplayStep(s, [], UpsertRequest(index, Request(record, Observed)));
    assert [] + [UpsertRequest(index, Request(record, Observed))] == [UpsertRequest(index, Request(record, Observed))];
  }

  lemma OneRow(w: World, row: CustodyUtxo, record: RequestRecord, id: ReservationId)
    requires Init(w)
    ensures Funded(w, row, record).store.utxos == map[OutpointOf(row) := Store.Fresh(row)]
    ensures Joined(Funded(w, row, record).store.utxos, id, OneReservation(row)) == OneLoaded(row, id)
    ensures Sum(Funded(w, row, record).store.utxos, [OutpointOf(row)]) == row.amount
  {
    OneTracked(Funded(w, row, record).store.utxos, row);
  }

  lemma OneTracked(utxos: map<Outpoint, Utxo>, row: CustodyUtxo)
    requires OutpointOf(row) in utxos && utxos[OutpointOf(row)].row == row
    ensures Rows(utxos, [OutpointOf(row)]) == [row] && Sum(utxos, [OutpointOf(row)]) == row.amount
  {
    var os := [OutpointOf(row)];
    assert os[1..] == [] && Rows(utxos, []) == [] && Sum(utxos, []) == 0;
    assert [row] + [] == [row];
  }

  lemma OneSum(e: Settings, row: CustodyUtxo, record: RequestRecord)
    requires record.addressType in {0, 1} && row.amount == record.net + e.fee
    ensures Prepare.CheckedSum(OnePayload(record).outputs, 0) == Ok(record.net)
  {
    var outputs := [PaidOutput(record)];
    assert outputs[1..] == [];
  }

  lemma OneOpensTruly(w: World, e: Settings, row: CustodyUtxo, record: RequestRecord, sequence: u64, sig: Signature,
                      id: ReservationId)
    requires Empty(w, e)
    ensures OpensTruly(Funded(w, row, record), e, OpeningOf(w, row, record, sequence, sig, id))
  {
    OneRow(w, row, record, id);
    hide Sum;
  }

  /** The answers of a good day: the snapshot is seen executed, the Managers sign, Electrs accepts and
      confirms. */
  function GoodAnswers(cursor: nat, response: Result<Response>, confirmed: Result<seq<TxOut>>): Answers
  {
    Answers(SnapshotAnswers(true, cursor, Some(true), true, false, Ok(()), Ok(()), true, cursor, true),
            response, Ok(()), confirmed)
  }

  lemma BegunWorld(w: World, e: Settings, row: CustodyUtxo, record: RequestRecord, o: Opening, b: Batch)
    requires Empty(w, e) && b.reservation == Some(o.id) && b.start == w.cursor
    requires var c := Funded(w, row, record);
             && BeginWrite(e, c.store, o) == Ok(ReserveForSnapshot(o.id, OneReservation(row), o.sig, b))
             && OpenRecords(e, c.store, o) == ([UpsertRequest(w.cursor, Request(record, Observed))], true)
    ensures var y := Begun(Funded(w, row, record), e, o);
            && o.sig in y.store.batches && y.store.batches[o.sig] == b && o.id in y.store.reservations
            && Loaded(y.store, o.id) == OneLoaded(row, o.id) && y.store.transactions == map[]
            && y.snapshots == map[o.sig := Pending] && y.cursor == w.cursor && y.rules == w.rules
               && y.hashes == w.hashes
            && y.requested == w.requested + [record] && y.store.reservations[o.id] == OneReservation(row)
  {
    var c := Funded(w, row, record);
    RecordedUtxos(c.store, w.cursor, record);
    OneRow(w, row, record, o.id);
    hide BeginWrite, OpenRecords, Replay, AfterBegin, Sum, Joined, Loaded;
    ReservedOne(Recording(c, e, o), o.sig, o.id, row, b);
  }

  lemma ReservedOne(z: World, sig: Signature, id: ReservationId, row: CustodyUtxo, b: Batch)
    requires OutpointOf(row) in z.store.utxos && z.store.utxos[OutpointOf(row)] == Store.Fresh(row)
    ensures var y := AfterBegin(z, sig, id, OneReservation(row), b);
            && y == z.(store := y.store, snapshots := z.snapshots[sig := Pending])
            && y.store.batches == z.store.batches[sig := b]
            && y.store.reservations == z.store.reservations[id := OneReservation(row)]
            && y.store.transactions == z.store.transactions
            && Loaded(y.store, id) == OneLoaded(row, id)
  {
    var y := AfterBegin(z, sig, id, OneReservation(row), b);
    OneTracked(y.store.utxos, row);
    hide Rows, Sum;
  }

  lemma GoodStart(w: World, v: Manager.Service, e: Settings, row: CustodyUtxo, record: RequestRecord, o: Opening,
                  b: Batch, y: World, response: Response)
    requires Empty(w, e) && Payable(v, e, row, record) && b.unsigned.Some? && b.reservation == Some(o.id)
    requires b == OneBatch(w, record, b.sequence, o.id, b.unsigned.value) && o.cursor == w.cursor && o.sent.Ok?
    requires o.sig in y.store.batches && y.store.batches[o.sig] == b && o.id in y.store.reservations
    requires Loaded(y.store, o.id) == OneLoaded(row, o.id) && y.store.transactions == map[]
    requires y.snapshots == map[o.sig := Pending] && y.cursor == w.cursor && y.rules == w.rules
    requires Prepare.Affords(e.Config(), b.payload, OneLoaded(row, o.id))
    requires Answered(e, b.payload, b.sequence, b.unsigned, OneLoaded(row, o.id), Ok(response))
    ensures var a := Sent(o, GoodAnswers(w.cursor + 1, Ok(response), Err));
            && Truthful(AfterFate(y, o.sig, Landed), o.sig, e, a)
            && Favourable(y.store, o.sig, b, e, a)
  {
    hide Prepare.Affords, Answered, Loaded, SignBatch, Prepare.RebuildInput, LocalNetwork;
  }

  /** The batch of the one request, at the world `x`. */
  ghost predicate OnlyRequest(w: World, x: World, record: RequestRecord, sig: Signature, id: ReservationId)
  {
    && x.rules == w.rules && x.requested == w.requested + [record]
    && sig in x.store.batches && x.store.batches[sig].start == |w.requested|
    && x.store.batches[sig].end == |w.requested| + 1 && x.store.batches[sig].payload.managerSetIndex == 0
    && x.store.batches[sig].reservation == Some(id) && id in x.store.reservations
    && x.store.reservations[id].selected == x.store.reservations[id].required
  }

  lemma OnlyRequestStays(w: World, x: World, y: World, record: RequestRecord, sig: Signature, id: ReservationId)
    requires OnlyRequest(w, x, record, sig, id) && Continues(x, y)
    ensures OnlyRequest(w, y, record, sig, id)
  {}

  lemma BegunIsOnly(w: World, y: World, record: RequestRecord, row: CustodyUtxo, o: Opening, b: Batch)
    requires w.cursor == |w.requested| && b.start == w.cursor && b.end == w.cursor + 1 && b.reservation == Some(o.id)
    requires b.payload.managerSetIndex == 0 && o.sig in y.store.batches && y.store.batches[o.sig] == b
    requires o.id in y.store.reservations && y.store.reservations[o.id] == OneReservation(row)
    requires y.rules == w.rules && y.requested == w.requested + [record]
    ensures OnlyRequest(w, y, record, o.sig, o.id)
  {}

  /** A deposit and a request are followed by one fresh invocation that brings the payment to broadcast. */
  lemma FirstInvocation(w: World, v: Manager.Service, e: Settings, row: CustodyUtxo, record: RequestRecord,
                        sequence: u64, sig: Signature, id: ReservationId) returns (x: World)
    requires Empty(w, e) && Payable(v, e, row, record)
    ensures Reachable(x) && Reaches(x.store, sig, {Broadcast, Confirmed}) && OnlyRequest(w, x, record, sig, id)
  {
    hide *;
    PayableParts(w, v, e, row, record);
    var c := Funded(w, row, record);
    var o := OpeningOf(w, row, record, sequence, sig, id);
    OpeningParts(w, row, record, sequence, sig, id);
    var p, response := ServiceAnswers(v, e, row, record, sequence, id);
    var b := OneBatch(w, record, sequence, id, p.unsignedBytes);
    BatchParts(w, record, sequence, id, p.unsignedBytes);
    OneBegins(w, v, e, row, record, sequence, sig, id, p);
    OneRecord(w, e, row, record, sequence, sig, id);
    OneOpensTruly(w, e, row, record, sequence, sig, id);
    BegunWorld(w, e, row, record, o, b);
    var y := Begun(c, e, o);
    GoodStart(w, v, e, row, record, o, b, y, response);
    var a := GoodAnswers(w.cursor + 1, Ok(response), Err);
    FundedIsReachable(w, row, record);
    ReachableHolds(c);
    ReachableIsGenuine(c);
    x := StartIsRun(c, e, o, a, Landed);
    MakingIsReachable(c, StartWrites(e, c.hashes, c.store, o, a), x);
    MakingReplays(c, StartWrites(e, c.hashes, c.store, o, a), x);
    FavourableStartBroadcasts(c, e, o, a);
    BegunIsOnly(w, y, record, row, o, b);
    OnlyRequestStays(w, y, x, record, sig, id);
  }

  lemma PayableParts(w: World, v: Manager.Service, e: Settings, row: CustodyUtxo, record: RequestRecord)
    requires Empty(w, e) && Payable(v, e, row, record)
    ensures w.cursor == |w.requested| < U64_LIMIT - 1 && Init(w)
    ensures HasFee(record) && record.addressType in {0, 1} && e.managerSetIndex == 0
  {
    hide Init, LocalNetwork, Prepare.RebuildInput;
  }

  lemma OpeningParts(w: World, row: CustodyUtxo, record: RequestRecord, sequence: u64, sig: Signature,
                     id: ReservationId)
    requires w.cursor == |w.requested| < U64_LIMIT - 1
    ensures var o := OpeningOf(w, row, record, sequence, sig, id);
            o.sig == sig && o.id == id && o.cursor == w.cursor && o.sent.Ok?
  {}

  lemma BatchParts(w: World, record: RequestRecord, sequence: u64, id: ReservationId, unsigned: seq<u8>)
    requires record.addressType in {0, 1}
    ensures var b := OneBatch(w, record, sequence, id, unsigned);
            && b.start == w.cursor && b.end == w.cursor + 1 && b.reservation == Some(id) && b.unsigned == Some(unsigned)
            && b.payload == OnePayload(record) && b.payload.managerSetIndex == 0 && b.sequence == sequence
  {}


  // ---- A further invocation ----

  lemma BroadcastLanded(x: World, sig: Signature)
    requires Inv(x) && sig in x.store.batches && x.store.batches[sig].status == Broadcast
    ensures sig in x.snapshots && x.snapshots[sig] == Landed
  {
    hide Custody, Conserved, Payments, Owned, OneIncomplete, RequestsOk, LoadGraph, BroadcastIntact, Ranges;
    assert StageOk(x, sig);
  }

  lemma ConfirmedOutputs(x: World, e: Settings, sig: Signature) returns (t: Tx)
    requires Genuine(x) && x.rules == RulesOf(e.network)
    requires sig in x.store.batches && x.store.batches[sig].status == Broadcast
    ensures LinkedTx(x.store, sig).Some? && LinkedTx(x.store, sig).value.raw.Some?
    ensures ShowsOutputs(LinkedTx(x.store, sig).value.raw.value, Ok(t.outputs))
  {
    hide IsSigned, IsPrepared, TxBytes, SpendsAll, ReturnsRest, NewOutputs, Rows, Sighash.FitsIns, Sighash.FitsOuts;
    assert GenuineBatch(x, sig);
    var b := x.store.batches[sig];
    t := SignedPays(e.network, b.payload, Loaded(x.store, b.reservation.value), b.unsigned.value,
                    LinkedTx(x.store, sig).value.raw.value);
  }

  lemma NoChangeDerived(x: World, e: Settings, sig: Signature, confirmed: Result<seq<TxOut>>)
    requires Inv(x) && sig in x.store.batches && x.store.batches[sig].status == Broadcast
    requires ReservationOf(x.store, sig).Some?
    requires ReservationOf(x.store, sig).value.selected == ReservationOf(x.store, sig).value.required
    ensures var change := Derive(e, x.store, sig, x.store.batches[sig], confirmed); change.Ok? ==> change.value.None?
  {
    hide Inv, LoadGraph, Rows;
    BroadcastFields(x, sig);
  }

  lemma GoodConfirmation(x: World, e: Settings, sig: Signature, confirmed: Result<seq<TxOut>>)
    requires sig in x.store.batches && x.store.batches[sig].status == Broadcast && Governs(x, e) && Encodes(e.network)
    requires sig in x.snapshots && x.snapshots[sig] == Landed && ReservationOf(x.store, sig).Some?
    requires ReservationOf(x.store, sig).value.selected == ReservationOf(x.store, sig).value.required
    requires x.store.batches[sig].payload.managerSetIndex == e.managerSetIndex && e.broadcastEnabled
    requires LinkedTx(x.store, sig).Some? && LinkedTx(x.store, sig).value.raw.Some?
    requires ShowsOutputs(LinkedTx(x.store, sig).value.raw.value, confirmed)
    requires var change := Derive(e, x.store, sig, x.store.batches[sig], confirmed); change.Ok? ==> change.value.None?
    ensures var a := GoodAnswers(x.cursor, Err, confirmed);
            Truthful(x, sig, e, a) && Favourable(x.store, sig, x.store.batches[sig], e, a)
    ensures Incomplete(x.store.batches[sig])
  {
    hide Derive, ShowsOutputs, Encodes, Governs, Rows, LinkedTx, Prepare.OneKey, Prepare.PreparedFromReservation;
  }

  /** A reachable broadcast batch without change is confirmed by one more invocation, once Electrs shows
      its transaction. */
  lemma BroadcastConfirms(x: World, e: Settings, sig: Signature) returns (z: World)
    requires Reachable(x) && Governs(x, e) && Encodes(e.network)
    requires sig in x.store.batches && x.store.batches[sig].status == Broadcast && ReservationOf(x.store, sig).Some?
    requires ReservationOf(x.store, sig).value.selected == ReservationOf(x.store, sig).value.required
    requires x.store.batches[sig].payload.managerSetIndex == e.managerSetIndex && e.broadcastEnabled
    ensures Reachable(z) && Reaches(z.store, sig, {Confirmed}) && Continues(x, z)
  {
    hide *;
    ReachableHolds(x);
    ReachableIsGenuine(x);
    GovernsMeans(x, e);
    BroadcastLanded(x, sig);
    var t := ConfirmedOutputs(x, e, sig);
    NoChangeDerived(x, e, sig, Ok(t.outputs));
    GoodConfirmation(x, e, sig, Ok(t.outputs));
    var a := GoodAnswers(x.cursor, Err, Ok(t.outputs));
    z := ResumingIsRun(x, sig, e, a);
    var ws := ResumeWrites(e, x.hashes, x.store, sig, x.store.batches[sig], a);
    LeadingMakes(x, sig, ws, z);
    MakingIsReachable(x, ws, z);
    MakingContinues(x, ws, z);
    LeadingReplays(x, sig, ws, z);
    FavourableResumeFinishes(x, sig, e, a);
  }

  lemma GovernsMeans(x: World, e: Settings)
    ensures Governs(x, e) <==> x.rules == RulesOf(e.network)
  {}

  lemma OnlyReservation(w: World, x: World, record: RequestRecord, sig: Signature, id: ReservationId)
    requires OnlyRequest(w, x, record, sig, id)
    ensures ReservationOf(x.store, sig).Some? && sig in x.store.batches
    ensures ReservationOf(x.store, sig).value.selected == ReservationOf(x.store, sig).value.required
    ensures x.store.batches[sig].payload.managerSetIndex == 0 && x.rules == w.rules
  {}

  /** From any empty store, a deposit into custody and a request for its value less the fee can be
      followed through to a confirmed payment, with the local service as Managers and whatever the
      amounts, keys, hashes and identifiers: Electrs has accepted a transaction that pays the request. */
  lemma WithdrawalCompletes(w: World, v: Manager.Service, e: Settings, row: CustodyUtxo, record: RequestRecord,
                            sequence: u64, sig: Signature, id: ReservationId) returns (x: World, txid: Txid, t: Tx)
    requires Empty(w, e) && Payable(v, e, row, record)
    ensures Reachable(x) && Reaches(x.store, sig, {Confirmed}) && x.requested == w.requested + [record]
    ensures txid in x.electrs && txid == x.hashes.doubleSha256(TxBytes(t))
    ensures |t.outputs| == 1 && PaysRequest(record, t.outputs[0])
  {
    hide *;
    NetworkParts(w, v, e, row, record);
    x := FirstInvocation(w, v, e, row, record, sequence, sig, id);
    OnlyReservation(w, x, record, sig, id);
    ReachesOne(x.store, sig);
    if x.store.batches[sig].status == Broadcast {
      GovernsMeans(x, e);
      var z := BroadcastConfirms(x, e, sig);
      OnlyRequestStays(w, x, z, record, sig, id);
      OnlyReservation(w, z, record, sig, id);
      ReachesOne(z.store, sig);
      x := z;
    }
    ReachableHolds(x);
    ReachableIsGenuine(x);
    ConfirmedCarries(x, sig);
    t := CarriedPays(x, e.network, sig);
    txid := TxidOf(x.store, sig).value;
    OnlyPayment(w, x, e.network, record, sig, id, t);
  }

  lemma NetworkParts(w: World, v: Manager.Service, e: Settings, row: CustodyUtxo, record: RequestRecord)
    requires Empty(w, e) && Payable(v, e, row, record)
    ensures w.rules == RulesOf(e.network) && Encodes(e.network) && e.managerSetIndex == 0 && e.broadcastEnabled
  {
    hide Init, Prepare.RebuildInput, Encodes;
  }

  lemma ReachesOne(s: StoreState, sig: Signature)
    ensures Reaches(s, sig, {Broadcast, Confirmed}) ==>
            sig in s.batches && s.batches[sig].status in {Broadcast, Confirmed}
    ensures sig in s.batches && s.batches[sig].status == Confirmed ==> Reaches(s, sig, {Confirmed})
    ensures Reaches(s, sig, {Confirmed}) ==> sig in s.batches && s.batches[sig].status == Confirmed
  {}

  lemma OnlyPayment(w: World, x: World, n: Network, record: RequestRecord, sig: Signature, id: ReservationId, t: Tx)
    requires OnlyRequest(w, x, record, sig, id) && ReservationOf(x.store, sig).Some?
    requires PaysBatch(x, n, x.store.batches[sig], ReservationOf(x.store, sig).value, t)
    ensures |t.outputs| == 1 && PaysRequest(record, t.outputs[0]) && x.requested == w.requested + [record]
  {
    hide PaysRequest, ReturnsToCustody, Sum;
    var b := x.store.batches[sig];
    assert x.requested[b.start..b.end][0] == record;
  }
}
