/** Recording requests, the broadcast transition and finalization are runs of the machine. */
module BroadcastRuns {
  import opened Bytes
  import opened OperatorRows
  import opened Store
  import opened Withdrawal
  import opened BroadcastRecovery
  import opened Machine
  import opened OperatorSteps
  import opened Procedures

  // ---- The broadcast transition ----

  /** A signed batch whose custody is marked and whose identifiers are right. */
  ghost predicate Marked(w: World, sig: Signature, b: Batch)
  {
    && sig in w.store.batches && sig in w.snapshots && w.store.batches[sig] == b && b.status == Signed
    && b.start < b.end && LoadGraph(w.store, sig, b).Ok?
    && (forall i :: b.start <= i < b.end ==> i in w.store.requests)
    && var g := LoadGraph(w.store, sig, b).value;
       && Identified(w, g)
       && g.reservation.status == Relayed && g.reservation.spendTxid == g.transaction.txid
  }

  lemma MarkedLinks(w: World, sig: Signature, b: Batch)
    requires Marked(w, sig, b)
    ensures ReservationOf(w.store, sig).Some? && ReservationOf(w.store, sig).value.status == Relayed
    ensures sig in w.store.processes && w.store.processes[sig] == LoadGraph(w.store, sig, b).value.process
  {
    GraphFields(w.store, sig, b);
    GraphReservation(w.store, sig);
  }

  /** All status writes but the last leave a batch that is ready to be called broadcast. */
  lemma IntactBeforeLast(w: World, sig: Signature, b: Batch, ws: seq<Write>)
    requires Marked(w, sig, b) && ws == StatusWrites(sig, b, LoadGraph(w.store, sig, b).value.process.rawHash)
    ensures BroadcastIntact(w.hashes, Replay(w.store, ws[..|ws| - 1]), sig, b)
  {
    hide Apply, Replay, StatusWrites, LoadGraph, AllRequests, SameLinks, IsStatusWrite, BroadcastIntact;
    var raw := LoadGraph(w.store, sig, b).value.process.rawHash;
    StatusWritesShape(sig, b, raw);
    var front := ws[..|ws| - 1];
    var t := Replay(w.store, front);
    StatusesKeepLinks(w.store, front);
    HeadsDone(w.store, front, sig, raw);
    RequestsDone(w.store, front, b.start, b.end);
    LinkedIsIntact(w.hashes, w.store, t, sig, b);
  }

  lemma HeadsDone(s: StoreState, ws: seq<Write>, sig: Signature, raw: RawHash)
    requires |ws| >= 2 && forall k :: 0 <= k < |ws| ==> IsStatusWrite(ws[k])
    requires ws[0] == SetTransactionStatus(raw, Broadcast) && ws[1] == SetProcessStatus(sig, Broadcast)
    ensures raw in Replay(s, ws).transactions ==> Replay(s, ws).transactions[raw].status == Broadcast
    ensures sig in Replay(s, ws).processes ==> Replay(s, ws).processes[sig].status == Broadcast
  {
    hide Apply, Replay;
    AllDone(s, ws, 0);
    AllDone(s, ws, 1);
  }

  lemma RequestsDone(s: StoreState, ws: seq<Write>, start: nat, end: nat)
    requires |ws| == end - start + 2
    requires forall k :: 0 <= k < |ws| ==> IsStatusWrite(ws[k])
    requires forall i :: start <= i < end ==> ws[2 + i - start] == SetRequestStatus(i, Broadcast)
    requires forall i :: start <= i < end ==> i in s.requests
    ensures AllRequests(Replay(s, ws), start, end, Broadcast)
  {
    hide Apply, Replay;
    StatusesKeepLinks(s, ws);
    forall i: nat | start <= i < end
      ensures i in Replay(s, ws).requests && Replay(s, ws).requests[i].status == Broadcast
    {
      assert ws[2 + i - start] == SetRequestStatus(i, Broadcast);
      AllDone(s, ws, 2 + i - start);
    }
  }

  lemma StatusesPerform(w: World, sig: Signature, b: Batch)
    requires Marked(w, sig, b)
    ensures Performs(w, sig, StatusWrites(sig, b, LoadGraph(w.store, sig, b).value.process.rawHash))
  {
    var ws := StatusWrites(sig, b, LoadGraph(w.store, sig, b).value.process.rawHash);
    hide CanOperate, Marked, LoadGraph, StatusWrites;
    forall k | 0 <= k < |ws| ensures CanOperate(After(w, ws[..k]), sig, ws[k]) { StatusPerforms(w, sig, b, ws, k); }
  }

  lemma StatusPerforms(w: World, sig: Signature, b: Batch, ws: seq<Write>, k: nat)
    requires Marked(w, sig, b) && ws == StatusWrites(sig, b, LoadGraph(w.store, sig, b).value.process.rawHash)
    requires k < |ws|
    ensures CanOperate(After(w, ws[..k]), sig, ws[k])
  {
    StatusWritesShape(sig, b, LoadGraph(w.store, sig, b).value.process.rawHash);
    DuringStatuses(w, sig, b, ws, k);
    if k == |ws| - 1 { IntactBeforeLast(w, sig, b, ws); }
    hide Replay, StatusWrites, LoadGraph, BroadcastIntact, TxidOf;
    if 2 <= k < |ws| - 1 {
      assert ws[2 + (b.start + k - 2) - b.start] == SetRequestStatus(b.start + k - 2, Broadcast);
    }
  }

  /** Between the status writes the batch is still signed and its custody marked. */
  lemma DuringStatuses(w: World, sig: Signature, b: Batch, ws: seq<Write>, k: nat)
    requires Marked(w, sig, b) && ws == StatusWrites(sig, b, LoadGraph(w.store, sig, b).value.process.rawHash)
    requires k < |ws|
    ensures var x := After(w, ws[..k]);
            && x.store.batches == w.store.batches
            && ReservationOf(x.store, sig) == ReservationOf(w.store, sig)
            && ReservationOf(x.store, sig).Some? && ReservationOf(x.store, sig).value.status == Relayed
            && sig in x.store.processes
            && x.store.processes[sig].rawHash == LoadGraph(w.store, sig, b).value.process.rawHash
  {
    StatusWritesShape(sig, b, LoadGraph(w.store, sig, b).value.process.rawHash);
    MarkedLinks(w, sig, b);
    hide Apply, Replay, StatusWrites, LoadGraph, Marked, SameTransactions;
    StatusesKeepLinks(w.store, ws[..k]);
  }

  /** What the stage of a signed batch says about its continuation. */
  lemma SignedStage(w: World, sig: Signature)
    requires Inv(w) && sig in w.store.batches && w.store.batches[sig].status == Signed
    ensures w.store.batches[sig].start < w.store.batches[sig].end && sig in w.snapshots
    ensures SignedOk(w, sig) && ReservationOf(w.store, sig).Some?
    ensures forall i :: w.store.batches[sig].start <= i < w.store.batches[sig].end ==> i in w.store.requests
  {
    hide Custody, Conserved, Payments, Owned, OneIncomplete, LoadGraph, SignedOk, Chained;
    assert StageOk(w, sig);
    forall i | w.store.batches[sig].start <= i < w.store.batches[sig].end ensures i in w.store.requests {
      assert i >= 0;
    }
  }

  lemma ContinuationCases(w: World, sig: Signature, enabled: bool, submitted: Result<()>)
    requires sig in w.store.batches && SignedOk(w, sig)
    ensures var b := w.store.batches[sig];
            var g := LoadGraph(w.store, sig, b).value;
            var ws := ContinueSignedWrites(w.hashes, w.store, sig, b, enabled, submitted);
            || (g.reservation.status == Relayed && ws == StatusWrites(sig, b, g.process.rawHash))
            || ws == []
            || (submitted.Ok? && LoadCompleteSigned(w.store, sig, b).Ok?
                && ws == [MarkReservationBroadcast(g.id, g.transaction.txid.value)]
                   + StatusWrites(sig, b, g.process.rawHash))
  {
    hide LoadGraph, StatusWrites;
  }

  /** Continuing a signed batch is a run of the machine, whether it completes an interrupted
      transition or starts one after a successful submission. */
  lemma ContinuingPerforms(w: World, sig: Signature, enabled: bool, submitted: Result<()>)
    requires Inv(w) && sig in w.store.batches && w.store.batches[sig].status == Signed
    requires submitted.Ok? ==> TxidOf(w.store, sig).Some? && TxidOf(w.store, sig).value in w.electrs
    ensures Performs(w, sig, ContinueSignedWrites(w.hashes, w.store, sig, w.store.batches[sig], enabled, submitted))
  {
    SignedStage(w, sig);
    ContinuationCases(w, sig, enabled, submitted);
    var b := w.store.batches[sig];
    hide Inv, LoadGraph, LoadCompleteSigned, StatusWrites, Performs, Identified, ContinueSignedWrites, TxidOf;
    NothingPerforms(w, sig);
    var g := LoadGraph(w.store, sig, b).value;
    if g.reservation.status == Relayed { ResumingPerforms(w, sig); }
    if submitted.Ok? && LoadCompleteSigned(w.store, sig, b).Ok? {
      hide SignedOk;
      MarkingPerforms(w, sig, b, g);
    }
  }

  lemma ResumingPerforms(w: World, sig: Signature)
    requires sig in w.store.batches && w.store.batches[sig].status == Signed && sig in w.snapshots && SignedOk(w, sig)
    requires LoadGraph(w.store, sig, w.store.batches[sig]).value.reservation.status == Relayed
    requires w.store.batches[sig].start < w.store.batches[sig].end
    requires forall i :: w.store.batches[sig].start <= i < w.store.batches[sig].end ==> i in w.store.requests
    ensures Performs(w, sig, StatusWrites(sig, w.store.batches[sig],
                                          LoadGraph(w.store, sig, w.store.batches[sig]).value.process.rawHash))
  {
    hide LoadGraph, StatusWrites, Performs;
    StatusesPerform(w, sig, w.store.batches[sig]);
  }

  lemma MarkingPerforms(w: World, sig: Signature, b: Batch, g: Graph)
    requires sig in w.store.batches && sig in w.snapshots && w.store.batches[sig] == b && b.start < b.end
    requires ReservationOf(w.store, sig).Some?
    requires LoadCompleteSigned(w.store, sig, b).Ok? && LoadGraph(w.store, sig, b) == Ok(g) && SignedOk(w, sig)
    requires TxidOf(w.store, sig).Some? && TxidOf(w.store, sig).value in w.electrs
    requires forall i :: b.start <= i < b.end ==> i in w.store.requests
    ensures Performs(w, sig, [MarkReservationBroadcast(g.id, g.transaction.txid.value)]
                             + StatusWrites(sig, b, g.process.rawHash))
  {
    GraphFields(w.store, sig, b);
    var txid := g.transaction.txid.value;
    var mark := MarkReservationBroadcast(g.id, txid);
    MarkKeepsGraph(w.store, sig, b, txid);
    MarkMakesMarked(w, sig, b, g);
    hide LoadGraph, StatusWrites, Apply, Marked;
    StatusesPerform(AfterWrite(w, mark), sig, b);
    PerformsThen(w, sig, mark, StatusWrites(sig, b, g.process.rawHash));
  }

  lemma MarkMakesMarked(w: World, sig: Signature, b: Batch, g: Graph)
    requires sig in w.store.batches && sig in w.snapshots && w.store.batches[sig] == b && b.start < b.end
    requires LoadCompleteSigned(w.store, sig, b).Ok? && LoadGraph(w.store, sig, b) == Ok(g) && SignedOk(w, sig)
    requires forall i :: b.start <= i < b.end ==> i in w.store.requests
    ensures Marked(AfterWrite(w, MarkReservationBroadcast(g.id, g.transaction.txid.value)), sig, b)
  {
    GraphFields(w.store, sig, b);
    MarkKeepsGraph(w.store, sig, b, g.transaction.txid.value);
    hide LoadGraph, Apply;
  }

  // ---- Finalization ----

  /** A broadcast batch is finalized by one write once its planned change, if any, is known and not
      tracked yet. */
  lemma FinalizingPerforms(w: World, sig: Signature, change: Option<CustodyUtxo>)
    requires Inv(w) && sig in w.store.batches && w.store.batches[sig].status == Broadcast
    requires ChangeMatches(change, ChangeOf(w.store, sig))
    requires change.Some? ==> OutpointOf(change.value) !in w.store.utxos
    ensures BroadcastIntact(w.hashes, w.store, sig, w.store.batches[sig]) && sig in w.store.processes
    ensures Performs(w, sig, [FinalizeConfirmed(sig, w.store.processes[sig].rawHash, change)])
  {
    BroadcastStage(w, sig);
    FinalizingEnabled(w, sig, change);
    hide Inv, BroadcastIntact, ChangeOf, Performs, CanOperate;
    OneWritePerforms(w, sig, FinalizeConfirmed(sig, w.store.processes[sig].rawHash, change));
  }

  lemma FinalizingEnabled(w: World, sig: Signature, change: Option<CustodyUtxo>)
    requires sig in w.store.batches && w.store.batches[sig].status == Broadcast && sig in w.snapshots
    requires ReservationOf(w.store, sig).Some? && BroadcastIntact(w.hashes, w.store, sig, w.store.batches[sig])
    requires ChangeMatches(change, ChangeOf(w.store, sig))
    requires change.Some? ==> OutpointOf(change.value) !in w.store.utxos
    ensures sig in w.store.processes
    ensures CanOperate(w, sig, FinalizeConfirmed(sig, w.store.processes[sig].rawHash, change))
  {
    GraphFields(w.store, sig, w.store.batches[sig]);
    hide LoadGraph, BroadcastIntact, ChangeOf, ChangeMatches;
  }

  lemma BroadcastStage(w: World, sig: Signature)
    requires Inv(w) && sig in w.store.batches && w.store.batches[sig].status == Broadcast
    ensures sig in w.snapshots && ReservationOf(w.store, sig).Some?
    ensures BroadcastIntact(w.hashes, w.store, sig, w.store.batches[sig])
  {
    hide Custody, Conserved, Payments, Owned, OneIncomplete, LoadGraph, BroadcastIntact, Ranges;
    assert StageOk(w, sig);
  }

  // ---- Recording requests ----

  ghost predicate Shown(w: World, start: nat, records: seq<RequestRecord>)
  {
    && NoneIncomplete(w.store) && w.cursor <= start && start + |records| <= |w.requested|
    && records == w.requested[start..start + |records|]
  }

  lemma {:induction false} RecordingAgrees(w: World, start: nat, records: seq<RequestRecord>)
    requires RequestsOk(w) && Shown(w, start, records)
    ensures var (ws, agreed) := RecordWrites(w.store, start, records);
            && (agreed <==> forall k :: 0 <= k < |records| ==> HasFee(records[k]))
            && |ws| <= |records| && (agreed ==> |ws| == |records|)
            && forall k :: 0 <= k < |ws| ==>
                 ws[k] == UpsertRequest(start + k, Recorded(w, start + k)) && HasFee(w.requested[start + k])
    decreases |records|
  {
    if records != [] {
      var n := |records| - 1;
      RecordingAgrees(w, start, records[..n]);
      var front, ws := RecordWrites(w.store, start, records[..n]).0, RecordWrites(w.store, start, records).0;
      assert records[n] == w.requested[start + n];
      assert forall k :: 0 <= k < n ==> records[..n][k] == records[k];
      forall k | 0 <= k < |ws|
        ensures ws[k] == UpsertRequest(start + k, Recorded(w, start + k)) && HasFee(w.requested[start + k])
      {
        if k < |front| { assert ws[k] == front[k]; }
      }
    }
  }

  lemma RecordedSoFar(w: World, start: nat, records: seq<RequestRecord>, k: nat)
    requires RequestsOk(w) && Shown(w, start, records) && k < |RecordWrites(w.store, start, records).0|
    ensures |RecordWrites(w.store, start, records).0| <= |records|
    ensures var x := After(w, RecordWrites(w.store, start, records).0[..k]);
            && x == w.(store := w.store.(requests := x.store.requests))
            && Recorded(x, start + k) == Recorded(w, start + k)
  {
    RecordingAgrees(w, start, records);
    var ws := RecordWrites(w.store, start, records).0;
    UpsertsTouchRequests(w.store, ws[..k]);
    assert forall j :: 0 <= j < k ==> ws[..k][j].index != start + k;
    hide RecordWrites, Replay, Apply;
  }

  /** Recording the requests that the chain shows never meets a mismatch: it gets through exactly when
      all of them have a fee, and each of its writes is a recording step of the machine. */
  lemma RecordingPerforms(w: World, start: nat, records: seq<RequestRecord>, k: nat)
    requires RequestsOk(w) && Shown(w, start, records)
    ensures var (ws, agreed) := RecordWrites(w.store, start, records);
            && (agreed <==> forall j :: 0 <= j < |records| ==> HasFee(records[j]))
            && (agreed ==> |ws| == |records|)
            && (k < |ws| ==>
                  && start + k < |w.requested|
                  && Enabled(After(w, ws[..k]), Record(start + k))
                  && After(w, ws[..k + 1]) == Next(After(w, ws[..k]), Record(start + k)))
  {
    hide RecordWrites, After, Recorded, RequestsOk, HasFee, CanRecord, AfterWrite, Shown;
    RecordingAgrees(w, start, records);
    var ws := RecordWrites(w.store, start, records).0;
    if k < |ws| {
      RecordedSoFar(w, start, records, k);
      AfterStep(w, ws, k);
      RecordStaysEnabled(w, After(w, ws[..k]), start, records, k);
    }
  }

  lemma RecordStaysEnabled(w: World, x: World, start: nat, records: seq<RequestRecord>, k: nat)
    requires RequestsOk(w) && Shown(w, start, records) && k < |records|
    requires HasFee(w.requested[start + k])
    requires x == w.(store := w.store.(requests := x.store.requests))
    requires Recorded(x, start + k) == Recorded(w, start + k)
    ensures start + k < |w.requested| && CanRecord(x, start + k)
  {
    hide HasFee;
  }

  // ---- Submission ----

  /** Submission succeeds only when Electrs has the transaction, provided its answers are true; and
      it does succeed whenever Electrs knows or takes the transaction and answers at all. */
  lemma SubmissionIsTruthful(before: set<Txid>, later: set<Txid>, txid: Txid, knownBefore: Result<bool>,
                             posted: Result<bool>, knownAfter: Result<bool>)
    requires before <= later
    requires knownBefore.Ok? ==> knownBefore.value == (txid in before)
    requires posted.Ok? && posted.value ==> txid in later
    requires knownAfter.Ok? ==> knownAfter.value == (txid in later)
    ensures BroadcastIdempotent(knownBefore, posted, knownAfter).Ok? ==> txid in later
    ensures knownBefore.Ok? && knownAfter.Ok? && txid in later && (posted.Ok? ==> posted.value) ==>
              BroadcastIdempotent(knownBefore, posted, knownAfter).Ok?
  {}

  /** With true answers of Electrs, continuing a signed batch with whatever submitting it gave is a run of
      the machine: it is marked only if Electrs has its transaction. */
  lemma SubmittedPerforms(w: World, sig: Signature, enabled: bool, before: set<Txid>, knownBefore: Result<bool>,
                          posted: Result<bool>, knownAfter: Result<bool>)
    requires Inv(w) && sig in w.store.batches && w.store.batches[sig].status == Signed
    requires TxidOf(w.store, sig).Some? && before <= w.electrs
    requires knownBefore.Ok? ==> knownBefore.value == (TxidOf(w.store, sig).value in before)
    requires posted.Ok? && posted.value ==> TxidOf(w.store, sig).value in w.electrs
    requires knownAfter.Ok? ==> knownAfter.value == (TxidOf(w.store, sig).value in w.electrs)
    ensures Performs(w, sig, ContinueSignedWrites(w.hashes, w.store, sig, w.store.batches[sig], enabled,
                                                  BroadcastIdempotent(knownBefore, posted, knownAfter)))
  {
    SubmissionIsTruthful(before, w.electrs, TxidOf(w.store, sig).value, knownBefore, posted, knownAfter);
    hide Inv, TxidOf, Performs, ContinueSignedWrites, BroadcastIdempotent;
    ContinuingPerforms(w, sig, enabled, BroadcastIdempotent(knownBefore, posted, knownAfter));
  }
}
