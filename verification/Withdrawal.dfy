/** The withdrawal operator's procedures over the durable store: which writes they make, in which
    order, and under which checks. Chain and service answers arrive as parameters. */
module Withdrawal {
  import opened Bytes
  import opened Store
  import opened OperatorRows
  import opened Outcomes

  const MAX_BATCH := 319

  // ---- Batching and polling ----

  function SaturatingAdd(a: u64, b: u64): u64
  { if a + b < U64_LIMIT then a + b else U64_LIMIT - 1 }

  function CappedBatchEnd(cursor: u64, tip: u64): u64
  { if SaturatingAdd(cursor, MAX_BATCH) <= tip then SaturatingAdd(cursor, MAX_BATCH) else tip }

  datatype PollAction = Resume | Start(cursor: u64) | Idle

  function SelectPollAction(hasIncomplete: bool, cursor: u64, requested: u64): PollAction
  { if hasIncomplete then Resume else if cursor < requested then Start(cursor) else Idle }

  /** Polling starts a batch only beside none that is incomplete; the batch is never empty, never exceeds
      the cap and never passes the tip. */
  lemma StartedBatchFits(hasIncomplete: bool, cursor: u64, requested: u64)
    requires SelectPollAction(hasIncomplete, cursor, requested).Start?
    ensures !hasIncomplete && cursor < CappedBatchEnd(cursor, requested) <= requested
    ensures CappedBatchEnd(cursor, requested) - cursor <= 319
    ensures CappedBatchEnd(cursor, requested) == requested || CappedBatchEnd(cursor, requested) - cursor == 319
  {}

  predicate Incomplete(b: Batch) { b.status != Confirmed && b.status != Failed }

  // ---- Observed batches ----

  datatype ObservedAction = AwaitConfirmation | ResendOriginal | Fail | Wait

  function SelectObservedAction(status: Option<bool>, metadataFound: bool, blockhashValid: bool, cursor: nat,
                                start: nat)
    : ObservedAction
  {
    if status == Some(false) then (if cursor == start then Fail else Wait)
    else if metadataFound || status == Some(true) then AwaitConfirmation
    else if blockhashValid then ResendOriginal
    else if cursor == start then Fail
    else Wait
  }

  function FailWrites(s: StoreState, sig: Signature, b: Batch): seq<Write>
  {
    (if b.reservation.Some? && b.reservation.value in s.reservations
        && s.reservations[b.reservation.value].status == Held
     then [ReleaseReservation(b.reservation.value)] else [])
    + [SetBatchStatus(sig, Failed)]
  }

  lemma FailOutcome(s: StoreState, sig: Signature, b: Batch)
    ensures LeavesFailed(s, Replay(s, FailWrites(s, sig, b)), sig, b)
  {
    hide Replay, ApplyReserve, ApplyPersistSigned, ApplyMarkBroadcast, ApplyFinalize;
    var w := SetBatchStatus(sig, Failed);
    ReplayOne(s, w);
    assert [] + [w] == [w];
    if IsHeld(s, b) {
      var v := ReleaseReservation(b.reservation.value);
      ReplayOne(s, v);
      ReplayStep(s, [v], w);
    }
  }

  /** Releases custody before the batch is marked failed; every terminal outcome is an error. */
  method FailBatch(store: OperatorStore, sig: Signature, b: Batch)
    modifies store
    ensures store.Wrote(FailWrites(old(store.state), sig, b))
    ensures LeavesFailed(old(store.state), store.state, sig, b)
  {
    hide Apply, LeavesFailed;
    FailOutcome(store.state, sig, b);
    if b.reservation.Some? {
      if b.reservation.value in store.state.reservations {
        if store.state.reservations[b.reservation.value].status == Held {
          store.Commit(ReleaseReservation(b.reservation.value));
        }
      }
    }
    ghost var released := FailWrites(old(store.state), sig, b)[..|FailWrites(old(store.state), sig, b)| - 1];
    assert store.journal == old(store.journal) + released && store.state == Replay(old(store.state), released);
    store.Commit(SetBatchStatus(sig, Failed));
  }

  method ApplyObservedTerminalEffect(store: OperatorStore, sig: Signature, b: Batch, action: ObservedAction)
    returns (r: Result<()>)
    modifies store
    ensures r.Ok? <==> action.AwaitConfirmation? || action.ResendOriginal?
    ensures store.Wrote(if action.Fail? then FailWrites(old(store.state), sig, b) else [])
    ensures if action.Fail? then LeavesFailed(old(store.state), store.state, sig, b)
            else store.state == old(store.state)
  {
    hide LeavesFailed;
    match action
    case Fail => FailBatch(store, sig, b); r := Err;
    case Wait => r := Err;
    case AwaitConfirmation => r := Ok(());
    case ResendOriginal => r := Ok(());
  }

  function ConfirmedStatus(b: Batch): OperatorStatus
  { if b.unsigned.Some? then Constructed else Snapshotted }

  function RangeWrites(start: nat, end: nat, status: OperatorStatus): seq<Write>
    decreases end - start
  { if start >= end then [] else RangeWrites(start, end - 1, status) + [SetRequestStatus(end - 1, status)] }

  lemma {:induction false} RangeOutcome(s: StoreState, start: nat, end: nat, status: OperatorStatus)
    requires start <= end
    ensures var t := Replay(s, RangeWrites(start, end, status));
            t == s.(requests := t.requests) && MarksRequests(s.requests, t.requests, start, end, status)
    decreases end
  {
    hide Apply, Replay, MarksRequests;
    if start == end {
      MarksNothing(s, start, status);
    } else {
      RangeOutcome(s, start, end - 1, status);
      ReplayStep(s, RangeWrites(start, end - 1, status), SetRequestStatus(end - 1, status));
      MarksOneMore(s, Replay(s, RangeWrites(start, end - 1, status)), start, end, status);
    }
  }

  lemma MarksNothing(s: StoreState, start: nat, status: OperatorStatus)
    ensures Replay(s, []) == s && MarksRequests(s.requests, s.requests, start, start, status)
  {
    hide Apply;
  }

  lemma MarksOneMore(s: StoreState, t: StoreState, start: nat, end: nat, status: OperatorStatus)
    requires start < end && t == s.(requests := t.requests)
    requires MarksRequests(s.requests, t.requests, start, end - 1, status)
    ensures var u := Apply(t, SetRequestStatus(end - 1, status));
            u == s.(requests := u.requests) && MarksRequests(s.requests, u.requests, start, end, status)
  {}

  method WriteRange(store: OperatorStore, start: nat, end: nat, status: OperatorStatus)
    requires start <= end
    modifies store
    ensures store.Wrote(RangeWrites(start, end, status))
  {
    hide Apply;
    for i := start to end
      invariant store.Wrote(RangeWrites(start, i, status))
    {
      ReplayStep(old(store.state), RangeWrites(start, i, status), SetRequestStatus(i, status));
      store.Commit(SetRequestStatus(i, status));
    }
  }

  function ConfirmWrites(sig: Signature, b: Batch): seq<Write>
  { [SetBatchStatus(sig, ConfirmedStatus(b))] + RangeWrites(b.start, b.end, ConfirmedStatus(b)) }

  /** Settles a batch whose snapshot transaction is on chain. `executed` is whether it executed
      without error, `matches` whether root, message and sequence agree with the batch. */
  method FinishConfirmedSnapshot(store: OperatorStore, sig: Signature, b: Batch, executed: bool, cursor: nat,
                                 matches: bool)
    returns (r: Result<Batch>)
    requires b.start <= b.end
    modifies store
    ensures r.Ok? <==> executed && cursor == b.end && matches
    ensures r.Ok? ==> r.value == b.(status := ConfirmedStatus(b))
    ensures store.Wrote(if executed then (if cursor == b.end && matches then ConfirmWrites(sig, b) else [])
                        else if cursor == b.start then FailWrites(old(store.state), sig, b) else [])
    ensures if r.Ok? then LeavesSettled(old(store.state), store.state, sig, b)
            else if !executed && cursor == b.start then LeavesFailed(old(store.state), store.state, sig, b)
            else store.state == old(store.state)
  {
    hide LeavesSettled, LeavesFailed, FailWrites, ConfirmWrites;
    if !executed {
      if cursor == b.start { FailBatch(store, sig, b); }
      return Err;
    }
    if cursor != b.end { return Err; }
    if !matches { return Err; }
    ConfirmBatch(store, sig, b);
    return Ok(b.(status := ConfirmedStatus(b)));
  }

  lemma ConfirmOutcome(s: StoreState, sig: Signature, b: Batch)
    requires b.start <= b.end
    ensures LeavesSettled(s, Replay(s, ConfirmWrites(sig, b)), sig, b)
  {
    hide Replay, ApplyReserve, ApplyRelease, ApplyPersistSigned, ApplyMarkBroadcast, ApplyFinalize, RangeWrites,
         MarksRequests;
    var w := SetBatchStatus(sig, ConfirmedStatus(b));
    ReplayOne(s, w);
    ReplayAppend(s, [w], RangeWrites(b.start, b.end, ConfirmedStatus(b)));
    RangeOutcome(Apply(s, w), b.start, b.end, ConfirmedStatus(b));
  }

  method ConfirmBatch(store: OperatorStore, sig: Signature, b: Batch)
    requires b.start <= b.end
    modifies store
    ensures store.Wrote(ConfirmWrites(sig, b))
    ensures LeavesSettled(old(store.state), store.state, sig, b)
  {
    hide Apply, LeavesSettled;
    ConfirmOutcome(store.state, sig, b);
    var w := SetBatchStatus(sig, ConfirmedStatus(b));
    ReplayOne(store.state, w);
    ReplayAppend(store.state, [w], RangeWrites(b.start, b.end, ConfirmedStatus(b)));
    store.Commit(w);
    WriteRange(store, b.start, b.end, ConfirmedStatus(b));
  }

  // ---- Recording requests ----

  /** The writes that record requests `start`, `start + 1`, …, and whether all of them have a fee and
      agree with what was already stored. A known request keeps its status. */
  function RecordWrites(s: StoreState, start: nat, records: seq<RequestRecord>): (seq<Write>, bool)
    decreases |records|
  {
    if records == [] then ([], true)
    else
      var n := |records| - 1;
      var (front, agreed) := RecordWrites(s, start, records[..n]);
      if !agreed || !HasFee(records[n]) then (front, false)
      else if start + n !in s.requests then
        (front + [UpsertRequest(start + n, Request(records[n], Observed))], true)
      else if s.requests[start + n].record != records[n] then (front, false)
      else (front + [UpsertRequest(start + n, s.requests[start + n])], true)
  }

  lemma {:induction false} UpsertsTouchRequests(s: StoreState, ws: seq<Write>)
    requires forall k :: 0 <= k < |ws| ==> ws[k].UpsertRequest?
    ensures Replay(s, ws) == s.(requests := Replay(s, ws).requests)
    ensures forall i :: (forall k :: 0 <= k < |ws| ==> ws[k].index != i) ==>
              (i in Replay(s, ws).requests <==> i in s.requests)
              && (i in s.requests ==> Replay(s, ws).requests[i] == s.requests[i])
    decreases |ws|
  {
    hide ApplyReserve, ApplyRelease, ApplyPersistSigned, ApplyMarkBroadcast, ApplyFinalize;
    if ws != [] { UpsertsTouchRequests(s, ws[..|ws| - 1]); }
  }

  lemma {:induction false} RecordShape(s: StoreState, start: nat, records: seq<RequestRecord>)
    ensures forall k :: 0 <= k < |RecordWrites(s, start, records).0| ==>
              RecordWrites(s, start, records).0[k].UpsertRequest?
              && RecordWrites(s, start, records).0[k].index < start + |records|
    decreases |records|
  {
    if records != [] { RecordShape(s, start, records[..|records| - 1]); }
  }

  lemma RecordTouchesPrefix(s: StoreState, start: nat, records: seq<RequestRecord>, index: nat)
    requires index >= start + |records|
    ensures index in Replay(s, RecordWrites(s, start, records).0).requests <==> index in s.requests
    ensures index in s.requests ==>
              Replay(s, RecordWrites(s, start, records).0).requests[index] == s.requests[index]
  {
    RecordShape(s, start, records);
    hide RecordWrites, Replay;
    UpsertsTouchRequests(s, RecordWrites(s, start, records).0);
  }

  lemma {:induction false} RecordWritesPrefix(s: StoreState, start: nat, records: seq<RequestRecord>, n: nat)
    requires n <= |records| && !RecordWrites(s, start, records[..n]).1
    ensures RecordWrites(s, start, records) == RecordWrites(s, start, records[..n])
    decreases |records|
  {
    if n < |records| {
      assert records[..|records| - 1][..n] == records[..n];
      RecordWritesPrefix(s, start, records[..|records| - 1], n);
    } else {
      assert records[..n] == records;
    }
  }

  /** Request `start + n` is the first that cannot be recorded, and those before it are. */
  ghost predicate StopsAt(s: StoreState, t: StoreState, start: nat, records: seq<RequestRecord>, n: nat)
  {
    && n < |records| && Recordable(s, start, records[..n]) && !Recordable(s, start, records[..n + 1])
    && LeavesRecorded(s, t, start, records[..n])
  }

  /** Recording gets through exactly if every request can be recorded, and then all are; otherwise it
      stops at the first that cannot, and those before it are. */
  lemma {:induction false} RecordOutcome(s: StoreState, start: nat, records: seq<RequestRecord>)
    ensures RecordWrites(s, start, records).1 <==> Recordable(s, start, records)
    ensures var t := Replay(s, RecordWrites(s, start, records).0);
            if Recordable(s, start, records) then LeavesRecorded(s, t, start, records)
            else exists n: nat :: StopsAt(s, t, start, records, n)
    decreases |records|
  {
    if records == [] {
      RecordNothing(s, start);
    } else {
      hide Apply, Replay, LeavesRecorded, Recordable, StopsAt;
      var n := |records| - 1;
      var front := records[..n];
      RecordOutcome(s, start, front);
      RecordableStep(s, start, records);
      var ws := RecordWrites(s, start, front).0;
      if !Recordable(s, start, front) {
        var k: nat :| StopsAt(s, Replay(s, ws), start, front, k);
        StopsEarlier(s, Replay(s, ws), start, records, k);
      } else if !Recordable(s, start, records) {
        StopsLast(s, Replay(s, ws), start, records);
      } else {
        var request := if start + n in s.requests then s.requests[start + n] else Request(records[n], Observed);
        ReplayStep(s, ws, UpsertRequest(start + n, request));
        RecordedStep(s, Replay(s, ws), start, records, request);
      }
    }
  }

  lemma StopsEarlier(s: StoreState, t: StoreState, start: nat, records: seq<RequestRecord>, n: nat)
    requires records != [] && StopsAt(s, t, start, records[..|records| - 1], n)
    ensures StopsAt(s, t, start, records, n)
  {
    hide Recordable, LeavesRecorded;
    var front := records[..|records| - 1];
    assert front[..n] == records[..n] && front[..n + 1] == records[..n + 1];
  }

  lemma StopsLast(s: StoreState, t: StoreState, start: nat, records: seq<RequestRecord>)
    requires records != [] && !Recordable(s, start, records)
    requires Recordable(s, start, records[..|records| - 1])
    requires LeavesRecorded(s, t, start, records[..|records| - 1])
    ensures StopsAt(s, t, start, records, |records| - 1)
  {
    hide Recordable, LeavesRecorded;
    assert records[..|records|] == records;
  }

  lemma RecordNothing(s: StoreState, start: nat)
    ensures Recordable(s, start, []) && LeavesRecorded(s, Replay(s, []), start, [])
  {
    hide Apply;
  }

  lemma RecordableStep(s: StoreState, start: nat, records: seq<RequestRecord>)
    requires records != []
    ensures var n := |records| - 1;
            Recordable(s, start, records) <==>
              Recordable(s, start, records[..n]) && records[n].net <= records[n].gross
              && (start + n in s.requests ==> s.requests[start + n].record == records[n])
  {
    var n := |records| - 1;
    assert forall k :: 0 <= k < n ==> records[..n][k] == records[k];
  }

  lemma RecordedStep(s: StoreState, t: StoreState, start: nat, records: seq<RequestRecord>, request: Request)
    requires records != [] && LeavesRecorded(s, t, start, records[..|records| - 1])
    requires var i := start + |records| - 1;
             request == if i in s.requests then s.requests[i] else Request(records[|records| - 1], Observed)
    ensures LeavesRecorded(s, Apply(t, UpsertRequest(start + |records| - 1, request)), start, records)
  {}

  method RecordRequests(store: OperatorStore, start: nat, records: seq<RequestRecord>) returns (r: Result<()>)
    modifies store
    ensures r.Ok? == RecordWrites(old(store.state), start, records).1
    ensures store.Wrote(RecordWrites(old(store.state), start, records).0)
    ensures r.Ok? <==> Recordable(old(store.state), start, records)
    ensures if r.Ok? then LeavesRecorded(old(store.state), store.state, start, records)
            else exists n: nat :: StopsAt(old(store.state), store.state, start, records, n)
  {
    hide Apply, Replay, Recordable, LeavesRecorded, StopsAt;
    ghost var s0 := store.state;
    ReplayNothing(s0);
    RecordOutcome(s0, start, records);
    for k := 0 to |records|
      invariant RecordWrites(s0, start, records[..k]).1
      invariant store.Wrote(RecordWrites(s0, start, records[..k]).0)
    {
      var index := start + k;
      RecordTouchesPrefix(s0, start, records[..k], index);
      assert records[..k + 1][..k] == records[..k];
      if !HasFee(records[k]) {
        RecordWritesPrefix(s0, start, records, k + 1);
        return Err;
      }
      var stored := Request(records[k], Observed);
      if index in store.state.requests {
        if store.state.requests[index].record != records[k] {
          RecordWritesPrefix(s0, start, records, k + 1);
          return Err;
        }
        stored := store.state.requests[index];
      }
      ReplayStep(s0, RecordWrites(s0, start, records[..k]).0, UpsertRequest(index, stored));
      store.Commit(UpsertRequest(index, stored));
    }
    assert records[..|records|] == records;
    return Ok(());
  }

  // ---- The persisted graph of a signed batch ----

  datatype Graph = Graph(transaction: DogeTx, process: Process, id: ReservationId, reservation: Reservation,
                         utxos: seq<Utxo>)

  predicate CustodyLinked(u: Utxo, id: ReservationId, sig: Signature, start: nat)
  { u.reservation == Some(id) && u.spendRequest == Some(start) && u.spendProcess == Some(sig) }

  /** Loads everything linked to a batch and refuses any missing or drifted link. */
  function LoadGraph(s: StoreState, sig: Signature, b: Batch): Result<Graph>
  {
    if b.reservation.None? || b.reservation.value !in s.reservations || sig !in s.processes then Err
    else
      var id := b.reservation.value;
      var r, p := s.reservations[id], s.processes[sig];
      if p.start != b.start || p.end != b.end || p.rawHash !in s.transactions then Err
      else
        var t := s.transactions[p.rawHash];
        if t.txid.None? || sig !in s.mappings || b.end < b.start
           || s.mappings[sig] != Mappings(b.start, b.end, t.txid.value) then Err
        else if r.utxos == [] || r.request != Some(b.start) || r.process != Some(sig)
                || exists o :: o in r.utxos && (o !in s.utxos || !CustodyLinked(s.utxos[o], id, sig, b.start)) then Err
        else Ok(Graph(t, p, id, r, seq(|r.utxos|, k requires 0 <= k < |r.utxos| => s.utxos[r.utxos[k]])))
  }

  /** Batch, process, transaction, mappings and custody all point at each other: process and batch
      agree on the range, every request of it maps to the transaction, and every UTXO of the
      reservation is held for the batch and linked to it. */
  ghost predicate Linked(s: StoreState, sig: Signature, b: Batch, txid: Txid)
  {
    && b.start <= b.end && b.reservation.Some? && b.reservation.value in s.reservations
    && sig in s.processes && s.processes[sig].start == b.start && s.processes[sig].end == b.end
    && s.processes[sig].rawHash in s.transactions && s.transactions[s.processes[sig].rawHash].txid == Some(txid)
    && sig in s.mappings && |s.mappings[sig]| == b.end - b.start
    && (forall k :: 0 <= k < b.end - b.start ==> s.mappings[sig][k] == (b.start + k, txid))
    && var r := s.reservations[b.reservation.value];
       && r.utxos != [] && r.request == Some(b.start) && r.process == Some(sig)
       && forall o :: o in r.utxos ==> o in s.utxos && CustodyLinked(s.utxos[o], b.reservation.value, sig, b.start)
  }

  /** A graph loads exactly when every link holds, whatever else the store contains. */
  lemma LoadsIffLinked(s: StoreState, sig: Signature, b: Batch)
    ensures LoadGraph(s, sig, b).Ok? <==> exists txid :: Linked(s, sig, b, txid)
  {
    if LoadGraph(s, sig, b).Ok? { LoadedIsLinked(s, sig, b); }
    hide LoadGraph, Linked;
    if txid :| Linked(s, sig, b, txid) { LinkedLoads(s, sig, b, txid); }
  }

  lemma LoadedIsLinked(s: StoreState, sig: Signature, b: Batch)
    requires LoadGraph(s, sig, b).Ok?
    ensures exists txid :: Linked(s, sig, b, txid)
  {
    hide Mappings, CustodyLinked;
    var txid := s.transactions[s.processes[sig].rawHash].txid.value;
    MappingsByIndex(b.start, b.end, txid, s.mappings[sig]);
    assert Linked(s, sig, b, txid);
  }

  lemma LinkedLoads(s: StoreState, sig: Signature, b: Batch, txid: Txid)
    requires Linked(s, sig, b, txid)
    ensures LoadGraph(s, sig, b).Ok?
  {
    hide Mappings, CustodyLinked;
    MappingsByIndex(b.start, b.end, txid, s.mappings[sig]);
  }

  lemma MappingsByIndex(start: nat, end: nat, txid: Txid, m: seq<(nat, Txid)>)
    requires start <= end
    ensures m == Mappings(start, end, txid) <==>
              |m| == end - start && forall k :: 0 <= k < |m| ==> m[k] == (start + k, txid)
  {
    assert forall k :: 0 <= k < end - start ==> Mappings(start, end, txid)[k] == (start + k, txid);
  }

  predicate AllRequests(s: StoreState, start: nat, end: nat, status: OperatorStatus)
  { forall i: nat :: start <= i < end ==> i in s.requests && s.requests[i].status == status }

  /** A signed batch nothing of which has moved on. */
  function LoadCompleteSigned(s: StoreState, sig: Signature, b: Batch): Result<Graph>
  {
    if b.status != Signed then Err
    else
      var g :- LoadGraph(s, sig, b);
      if g.transaction.status != Signed || g.process.status != Signed || g.reservation.status != Held
         || g.reservation.spendTxid.Some?
         || exists k :: 0 <= k < |g.utxos| && (g.utxos[k].status != Reserved || g.utxos[k].spendTxid.Some?) then Err
      else if !AllRequests(s, b.start, b.end, Signed) then Err
      else Ok(g)
  }

  predicate TransitionStarted(g: Graph)
  {
    || g.reservation.status == Relayed
    || g.transaction.status == Broadcast
    || g.process.status == Broadcast
    || exists k :: 0 <= k < |g.utxos| && g.utxos[k].status == InFlight
  }

  // ---- The broadcast transition ----

  function StatusWrites(sig: Signature, b: Batch, rawHash: RawHash): seq<Write>
  {
    [SetTransactionStatus(rawHash, Broadcast), SetProcessStatus(sig, Broadcast)]
    + RangeWrites(b.start, b.end, Broadcast) + [SetBatchStatus(sig, Broadcast)]
  }

  function BroadcastWrites(sig: Signature, b: Batch, g: Graph): Result<seq<Write>>
  {
    if g.transaction.txid.None? then Err
    else
      var txid := g.transaction.txid.value;
      var statuses := StatusWrites(sig, b, g.process.rawHash);
      match g.reservation.status
      case Held => Ok([MarkReservationBroadcast(g.id, txid)] + statuses)
      case Relayed => if g.reservation.spendTxid == Some(txid) then Ok(statuses) else Err
      case Consumed => Err
      case Released => Err
  }

  /** The transaction is known, and custody is held or on its way in that same transaction. */
  ghost predicate Transitions(g: Graph)
  {
    && g.transaction.txid.Some?
    && (g.reservation.status == Held
        || (g.reservation.status == Relayed && g.reservation.spendTxid == g.transaction.txid))
  }

  ghost predicate LeavesTransition(s: StoreState, t: StoreState, sig: Signature, b: Batch, g: Graph)
  {
    && LeavesBroadcast(s, t, sig, b, g.process.rawHash)
    && if g.reservation.status == Held && g.id in s.reservations then
         g.transaction.txid.Some? && LeavesRelayed(s, t, g.id, g.transaction.txid.value)
       else t.reservations == s.reservations && t.utxos == s.utxos
  }

  lemma StatusOutcome(s: StoreState, sig: Signature, b: Batch, rawHash: RawHash)
    requires b.start <= b.end
    ensures var t := Replay(s, StatusWrites(sig, b, rawHash));
            && LeavesBroadcast(s, t, sig, b, rawHash) && t.reservations == s.reservations && t.utxos == s.utxos
  {
    hide Replay, ApplyReserve, ApplyRelease, ApplyPersistSigned, ApplyMarkBroadcast, ApplyFinalize, MarksRequests,
         RangeWrites;
    var v, p, w := SetTransactionStatus(rawHash, Broadcast), SetProcessStatus(sig, Broadcast),
                   SetBatchStatus(sig, Broadcast);
    var middle := RangeWrites(b.start, b.end, Broadcast);
    ReplayOne(s, v);
    ReplayStep(s, [v], p);
    assert [v] + [p] == [v, p];
    ReplayAppend(s, [v, p], middle);
    RangeOutcome(Replay(s, [v, p]), b.start, b.end, Broadcast);
    ReplayStep(s, [v, p] + middle, w);
  }

  /** The transition leaves everything about the batch broadcast, and custody relayed if it was held. */
  lemma BroadcastOutcome(s: StoreState, sig: Signature, b: Batch, g: Graph)
    requires b.start <= b.end && BroadcastWrites(sig, b, g).Ok?
    ensures LeavesTransition(s, Replay(s, BroadcastWrites(sig, b, g).value), sig, b, g)
  {
    hide StatusWrites, Replay, Apply, LeavesTransition, LeavesBroadcast;
    if g.reservation.status == Held {
      var v := MarkReservationBroadcast(g.id, g.transaction.txid.value);
      ReplayOne(s, v);
      ReplayAppend(s, [v], StatusWrites(sig, b, g.process.rawHash));
      StatusOutcome(Apply(s, v), sig, b, g.process.rawHash);
      RelayedFirst(s, Replay(s, BroadcastWrites(sig, b, g).value), sig, b, g);
    } else {
      StatusOutcome(s, sig, b, g.process.rawHash);
      RelayedBefore(s, Replay(s, BroadcastWrites(sig, b, g).value), sig, b, g);
    }
  }

  lemma RelayedFirst(s: StoreState, t: StoreState, sig: Signature, b: Batch, g: Graph)
    requires g.reservation.status == Held && g.transaction.txid.Some?
    requires var u := Apply(s, MarkReservationBroadcast(g.id, g.transaction.txid.value));
             LeavesBroadcast(u, t, sig, b, g.process.rawHash) && t.reservations == u.reservations && t.utxos == u.utxos
    ensures LeavesTransition(s, t, sig, b, g)
  {
    hide MarksRequests, MarksBatch;
  }

  lemma RelayedBefore(s: StoreState, t: StoreState, sig: Signature, b: Batch, g: Graph)
    requires g.reservation.status != Held
    requires LeavesBroadcast(s, t, sig, b, g.process.rawHash) && t.reservations == s.reservations && t.utxos == s.utxos
    ensures LeavesTransition(s, t, sig, b, g)
  {
    hide LeavesBroadcast;
  }

  /** Custody first, then transaction, process and requests, and the batch last, so that an
      interrupted transition is recognized and completed by the next run. */
  method CompleteBroadcastTransition(store: OperatorStore, sig: Signature, b: Batch, g: Graph) returns (r: Result<()>)
    requires b.start <= b.end
    modifies store
    ensures r.Ok? == BroadcastWrites(sig, b, g).Ok?
    ensures store.Wrote(if r.Ok? then BroadcastWrites(sig, b, g).value else [])
    ensures r.Ok? <==> Transitions(g)
    ensures if r.Ok? then LeavesTransition(old(store.state), store.state, sig, b, g)
            else store.state == old(store.state)
  {
    hide Apply, Replay, StatusWrites, LeavesTransition;
    if BroadcastWrites(sig, b, g).Ok? { BroadcastOutcome(store.state, sig, b, g); }
    ReplayNothing(store.state);
    if g.transaction.txid.None? { return Err; }
    var txid := g.transaction.txid.value;
    if g.reservation.status == Held {
      store.Commit(MarkReservationBroadcast(g.id, txid));
      ReplayOne(old(store.state), MarkReservationBroadcast(g.id, txid));
    } else if g.reservation.status == Relayed && g.reservation.spendTxid == Some(txid) {
    } else {
      return Err;
    }
    ghost var first := if g.reservation.status == Held then [MarkReservationBroadcast(g.id, txid)] else [];
    assert store.journal == old(store.journal) + first && store.state == Replay(old(store.state), first);
    ReplayAppend(old(store.state), first, StatusWrites(sig, b, g.process.rawHash));
    assert first == [] ==> first + StatusWrites(sig, b, g.process.rawHash) == StatusWrites(sig, b, g.process.rawHash);
    WriteStatuses(store, sig, b, g.process.rawHash);
    return Ok(());
  }

  method WriteStatuses(store: OperatorStore, sig: Signature, b: Batch, rawHash: RawHash)
    requires b.start <= b.end
    modifies store
    ensures store.Wrote(StatusWrites(sig, b, rawHash))
  {
    hide Apply;
    ghost var s0 := store.state;
    var t, p := SetTransactionStatus(rawHash, Broadcast), SetProcessStatus(sig, Broadcast);
    store.Commit(t);
    store.Commit(p);
    ReplayOne(s0, t);
    ReplayStep(s0, [t], p);
    assert [t] + [p] == [t, p];
    ReplayAppend(s0, [t, p], RangeWrites(b.start, b.end, Broadcast));
    WriteRange(store, b.start, b.end, Broadcast);
    ReplayStep(s0, [t, p] + RangeWrites(b.start, b.end, Broadcast), SetBatchStatus(sig, Broadcast));
    store.Commit(SetBatchStatus(sig, Broadcast));
  }

  /** Submitting is idempotent: a transaction that Electrs already knows counts as submitted, both
      before posting and after a failed post. */
  function BroadcastIdempotent(knownBefore: Result<bool>, postReturnsTxid: Result<bool>, knownAfter: Result<bool>)
    : Result<()>
  {
    var known :- knownBefore;
    if known then Ok(())
    else if postReturnsTxid.Ok? then (if postReturnsTxid.value then Ok(()) else Err)
    else
      var late :- knownAfter;
      if late then Ok(()) else Err
  }

  predicate Expected(g: Graph, id: ReservationId, rawHash: RawHash, txid: Txid)
  { g.id == id && g.process.rawHash == rawHash && g.transaction.txid == Some(txid) }

  /** The graph must still be the expected one when the transition begins. */
  function MarkWrites(s: StoreState, sig: Signature, b: Batch, id: ReservationId, rawHash: RawHash, txid: Txid)
    : Result<seq<Write>>
  {
    var g :- LoadGraph(s, sig, b);
    if !Expected(g, id, rawHash, txid) then Err else BroadcastWrites(sig, b, g)
  }

  /** Marks a signed batch as broadcast once its transaction has been submitted. */
  method MarkBatchBroadcast(store: OperatorStore, sig: Signature, b: Batch, id: ReservationId, rawHash: RawHash,
                            txid: Txid, submitted: Result<()>) returns (r: Result<()>)
    requires b.start <= b.end
    modifies store
    ensures r.Ok? <==> submitted.Ok? && MarkWrites(old(store.state), sig, b, id, rawHash, txid).Ok?
    ensures store.Wrote(if r.Ok? then MarkWrites(old(store.state), sig, b, id, rawHash, txid).value else [])
    ensures var g := LoadGraph(old(store.state), sig, b);
            && (r.Ok? <==> submitted.Ok? && g.Ok? && g.value.id == id && g.value.process.rawHash == rawHash
                           && g.value.transaction.txid == Some(txid) && Transitions(g.value))
            && if r.Ok? then LeavesTransition(old(store.state), store.state, sig, b, g.value)
               else store.state == old(store.state)
  {
    hide LeavesTransition, Transitions, BroadcastWrites, LoadGraph;
    if submitted.Err? { return Err; }
    var loaded := LoadGraph(store.state, sig, b);
    if loaded.Err? { return Err; }
    if !Expected(loaded.value, id, rawHash, txid) { return Err; }
    r := CompleteBroadcastTransition(store, sig, b, loaded.value);
  }

  datatype Hashes = Hashes(sha256: seq<u8> -> RawHash, doubleSha256: seq<u8> -> Txid)

  /** The persisted bytes are those that hash and identifier were computed from. */
  predicate RawIntact(h: Hashes, g: Graph)
  {
    && g.transaction.raw.Some?
    && h.sha256(g.transaction.raw.value) == g.process.rawHash
    && Some(h.doubleSha256(g.transaction.raw.value)) == g.transaction.txid
  }

  ghost predicate BytesAreHashed(h: Hashes, g: Graph)
  {
    exists raw :: g.transaction.raw == Some(raw) && g.process.rawHash == h.sha256(raw)
                  && g.transaction.txid == Some(h.doubleSha256(raw))
  }

  /** A run over a signed batch: it completes an interrupted transition without asking anyone, and
      otherwise needs the intact graph, broadcasting enabled and a successful submission. */
  method ContinueSigned(store: OperatorStore, h: Hashes, sig: Signature, b: Batch, broadcastEnabled: bool,
                        submitted: Result<()>)
    returns (r: Result<()>)
    requires b.start <= b.end
    modifies store
    ensures store.Wrote(ContinueSignedWrites(h, old(store.state), sig, b, broadcastEnabled, submitted))
    ensures var g := LoadGraph(old(store.state), sig, b);
            if g.Ok? && Transitions(g.value)
               && (TransitionStarted(g.value)
                   || (LoadCompleteSigned(old(store.state), sig, b).Ok? && BytesAreHashed(h, g.value)
                       && broadcastEnabled && submitted.Ok?))
            then LeavesTransition(old(store.state), store.state, sig, b, g.value)
            else store.state == old(store.state)
  {
    hide LeavesTransition, Transitions, BroadcastWrites, LoadGraph;
    var loaded := LoadGraph(store.state, sig, b);
    if loaded.Err? { return Err; }
    if TransitionStarted(loaded.value) {
      r := CompleteBroadcastTransition(store, sig, b, loaded.value);
      return;
    }
    var complete := LoadCompleteSigned(store.state, sig, b);
    if complete.Err? { return Err; }
    var g := complete.value;
    if !RawIntact(h, g) { return Err; }
    if broadcastEnabled {
      r := MarkBatchBroadcast(store, sig, b, g.id, g.process.rawHash, h.doubleSha256(g.transaction.raw.value),
                              submitted);
    } else {
      r := Ok(());
    }
  }

  function ContinueSignedWrites(h: Hashes, s: StoreState, sig: Signature, b: Batch, broadcastEnabled: bool,
                                submitted: Result<()>)
    : seq<Write>
  {
    var loaded := LoadGraph(s, sig, b);
    if loaded.Err? then []
    else
      var proceed := TransitionStarted(loaded.value)
                     || (LoadCompleteSigned(s, sig, b).Ok? && RawIntact(h, loaded.value) && broadcastEnabled
                         && submitted.Ok?);
      var writes := BroadcastWrites(sig, b, loaded.value);
      if proceed && writes.Ok? then writes.value else []
  }

  // ---- Confirmation ----

  predicate GraphBroadcast(h: Hashes, g: Graph)
  {
    && RawIntact(h, g)
    && g.process.status == Broadcast && g.transaction.status == Broadcast
    && g.reservation.status == Relayed && g.reservation.spendTxid == g.transaction.txid
  }

  /** The drift checks that a broadcast batch must pass before it can be finalized. */
  predicate BroadcastIntact(h: Hashes, s: StoreState, sig: Signature, b: Batch)
  {
    && LoadGraph(s, sig, b).Ok?
    && GraphBroadcast(h, LoadGraph(s, sig, b).value)
    && AllRequests(s, b.start, b.end, Broadcast)
  }

  lemma FinalOutcome(s: StoreState, sig: Signature, b: Batch, change: Option<CustodyUtxo>)
    requires LoadGraph(s, sig, b).Ok? && sig in s.batches && s.batches[sig] == b
    ensures LeavesFinal(s, Apply(s, FinalizeConfirmed(sig, s.processes[sig].rawHash, change)), sig, b, change)
  {}

  /** The change that finalization tracks: none for a zero return amount, else the output after
      the withdrawals. `derived` is the outcome of looking at the confirmed transaction. */
  method ResumeBroadcast(store: OperatorStore, h: Hashes, sig: Signature, b: Batch,
                         derived: Result<Option<CustodyUtxo>>) returns (r: Result<()>)
    modifies store
    ensures r.Ok? <==> BroadcastIntact(h, old(store.state), sig, b) && derived.Ok?
    ensures store.Wrote(if r.Ok? then [FinalizeConfirmed(sig, old(store.state).processes[sig].rawHash, derived.value)]
                        else [])
    ensures r.Ok? && sig in old(store.state).batches && old(store.state).batches[sig] == b ==>
              LeavesFinal(old(store.state), store.state, sig, b, derived.value)
    ensures r.Err? ==> store.state == old(store.state)
  {
    if !BroadcastIntact(h, store.state, sig, b) { return Err; }
    if derived.Err? { return Err; }
    if sig in store.state.batches && store.state.batches[sig] == b {
      FinalOutcome(store.state, sig, b, derived.value);
    }
    hide Apply, LeavesFinal;
    var w := FinalizeConfirmed(sig, store.state.processes[sig].rawHash, derived.value);
    ReplayOne(store.state, w);
    store.Commit(w);
    return Ok(());
  }
}
