/** Progress: one invocation with favourable answers brings a batch to broadcast from any stage. */
module ResumeProgress {
  import opened Bytes
  import opened OperatorRows
  import opened Wire
  import opened Store
  import opened Withdrawal
  import opened BroadcastRecovery
  import opened Resume
  import opened Machine
  import opened OperatorSteps
  import opened Provenance
  import opened Procedures
  import opened BroadcastRuns
  import opened OperatorRules
  import opened ResumeRuns
  import Prepare

  /** The Managers can and do sign the batch: the present fee and dust threshold still fit the
      reservation, it has at most 1000 UTXOs, and the answer is right. */
  ghost predicate GetsSigned(s: StoreState, b: Batch, e: Settings, a: Answers)
  {
    && b.reservation.Some? && b.reservation.value in s.reservations
    && var r := Loaded(s, b.reservation.value);
       && Prepare.Affords(e.Config(), b.payload, r) && |r.utxos| <= MAX_PERSISTED_INPUTS
       && Answered(e, b.payload, b.sequence, b.unsigned, r, a.response)
  }

  /** Electrs shows the transaction of the batch as confirmed, and if it returns change, the spent
      UTXOs share a key reference. */
  ghost predicate GetsConfirmed(s: StoreState, sig: Signature, b: Batch, e: Settings, a: Answers)
  {
    && b.reservation.Some? && b.reservation.value in s.reservations
    && var r := Loaded(s, b.reservation.value);
       && (r.selected == r.required || Prepare.OneKey(r.utxos)) && Encodes(e.network)
       && LinkedTx(s, sig).Some? && LinkedTx(s, sig).value.raw.Some?
       && ShowsOutputs(LinkedTx(s, sig).value.raw.value, a.confirmed)
  }

  /** The Manager set is the one in use, the snapshot is settled, the Managers sign, Electrs accepts,
      and a broadcast transaction is confirmed: all as far as the stage of the batch needs it. */
  ghost predicate Favourable(s: StoreState, sig: Signature, b: Batch, e: Settings, a: Answers)
  {
    && b.payload.managerSetIndex == e.managerSetIndex && e.broadcastEnabled && a.submitted.Ok?
    && (b.status == Observed ==> Settles(b, a.snapshot))
    && (b.status in {Observed, Constructed} ==> GetsSigned(s, b, e, a))
    && (b.status == Broadcast ==> GetsConfirmed(s, sig, b, e, a))
  }

  /** What the operator prepares for such a batch, the Managers' answer turns into a signed transaction. */
  lemma BatchIsSigned(w: World, sig: Signature, e: Settings, a: Answers)
    requires Inv(w) && Genuine(w) && Governs(w, e) && sig in w.store.batches
    requires GetsSigned(w.store, w.store.batches[sig], e, a)
    ensures SignBatch(e, w.store, w.store.batches[sig], a.response).Ok?
  {
    hide Inv, Genuine, Loaded, Sign, Prepare.Affords, Answered, IsPrepared;
    BatchWasPrepared(w, sig, e);
    var b := w.store.batches[sig];
    SigningSucceeds(e, b.payload, b.sequence, b.unsigned.value, Loaded(w.store, b.reservation.value), a.response);
  }

  lemma BatchWasPrepared(w: World, sig: Signature, e: Settings)
    requires Inv(w) && Genuine(w) && Governs(w, e) && sig in w.store.batches
    ensures var b := w.store.batches[sig];
            && b.reservation.Some? && b.reservation.value in w.store.reservations && b.unsigned.Some?
            && IsPrepared(e.network, b.payload, Loaded(w.store, b.reservation.value), b.unsigned.value)
            && |b.payload.outputs| == b.end - b.start <= MAX_BATCH
  {
    InvParts(w);
    hide Inv, Loaded, IsPrepared, Custody, Stages, Owned, Conserved, Payments, RequestsOk, OneIncomplete, Chained;
    assert GenuineBatch(w, sig);
  }

  lemma PayloadIsOk(w: World, sig: Signature, e: Settings)
    requires Inv(w) && Genuine(w) && Governs(w, e) && sig in w.store.batches
    requires w.store.batches[sig].payload.managerSetIndex == e.managerSetIndex
    ensures PayloadOk(e, w.store.batches[sig])
  {
    hide Inv, Genuine, Loaded;
    BatchWasPrepared(w, sig, e);
    var b := w.store.batches[sig];
    var fee: u64, dust: u64 :|
      PreparedWith(e.network, b.payload, Loaded(w.store, b.reservation.value), b.unsigned.value, fee, dust);
    hide Prepare.PreparedFromReservation;
  }

  /** And the change of the confirmed transaction is derived. */
  lemma ChangeIsDerived(w: World, sig: Signature, e: Settings, a: Answers)
    requires Inv(w) && Genuine(w) && Governs(w, e)
    requires sig in w.store.batches && w.store.batches[sig].status == Broadcast
    requires GetsConfirmed(w.store, sig, w.store.batches[sig], e, a)
    ensures Derive(e, w.store, sig, w.store.batches[sig], a.confirmed).Ok?
  {
    hide *;
    var b := w.store.batches[sig];
    BroadcastFields(w, sig);
    BatchWasSigned(w, sig, e);
    LoadedParts(w.store, b.reservation.value);
    ConfirmedParts(w.store, sig, b, e, a);
    var raw, g := LinkedTx(w.store, sig).value.raw.value, LoadGraph(w.store, sig, b).value;
    DerivingSucceeds(e, b.payload, Loaded(w.store, b.reservation.value), b.unsigned.value, raw, a.confirmed,
                     g.transaction.txid.value);
    DeriveUnfolds(e, w.store, sig, b, a.confirmed);
  }

  lemma ConfirmedParts(s: StoreState, sig: Signature, b: Batch, e: Settings, a: Answers)
    requires GetsConfirmed(s, sig, b, e, a)
    ensures b.reservation.Some? && b.reservation.value in s.reservations && Encodes(e.network)
    ensures var r := Loaded(s, b.reservation.value); r.selected == r.required || Prepare.OneKey(r.utxos)
    ensures LinkedTx(s, sig).Some? && LinkedTx(s, sig).value.raw.Some?
    ensures ShowsOutputs(LinkedTx(s, sig).value.raw.value, a.confirmed)
  {
    hide Encodes, ShowsOutputs, Loaded, Prepare.OneKey, LinkedTx;
  }

  lemma DeriveUnfolds(e: Settings, s: StoreState, sig: Signature, b: Batch, confirmed: Result<seq<TxOut>>)
    requires LoadGraph(s, sig, b).Ok? && confirmed.Ok? && LoadGraph(s, sig, b).value.transaction.txid.Some?
    ensures var g := LoadGraph(s, sig, b).value;
            Derive(e, s, sig, b, confirmed)
            == Prepare.DeriveConfirmedChange(e.Config(),
                                             Prepare.ChangeRecord(g.process.returnIndex, g.process.returnAmount),
                                             b.unsigned, Rows(s.utxos, g.reservation.utxos), |b.payload.outputs|,
                                             confirmed.value, g.transaction.txid.value)
  {
    hide LoadGraph, Rows, Prepare.DeriveConfirmedChange;
  }

  lemma LoadedParts(s: StoreState, id: ReservationId)
    requires id in s.reservations
    ensures var r := Loaded(s, id);
            && r.required == s.reservations[id].required && r.selected == s.reservations[id].selected
            && r.utxos == Rows(s.utxos, s.reservations[id].utxos)
  {}

  lemma BatchWasSigned(w: World, sig: Signature, e: Settings)
    requires Genuine(w) && Governs(w, e) && sig in w.store.batches && w.store.batches[sig].status == Broadcast
    ensures var b := w.store.batches[sig];
            && b.reservation.Some? && b.reservation.value in w.store.reservations && b.unsigned.Some?
            && |b.payload.outputs| == b.end - b.start
            && LinkedTx(w.store, sig).Some? && LinkedTx(w.store, sig).value.raw.Some?
            && IsSigned(e.network, b.payload, Loaded(w.store, b.reservation.value), b.unsigned.value,
                        LinkedTx(w.store, sig).value.raw.value)
  {
    hide Loaded, IsSigned;
    assert GenuineBatch(w, sig);
  }

  /** The process record of a broadcast batch is the planned change. */
  lemma BroadcastFields(w: World, sig: Signature)
    requires Inv(w) && sig in w.store.batches && w.store.batches[sig].status == Broadcast
    ensures var b := w.store.batches[sig];
            && LoadGraph(w.store, sig, b).Ok? && b.reservation.Some?
            && var g := LoadGraph(w.store, sig, b).value;
               && g.id == b.reservation.value && g.id in w.store.reservations
                  && g.reservation == w.store.reservations[g.id]
               && g.transaction.txid.Some? && g.reservation.required <= g.reservation.selected
               && g.process.returnAmount == g.reservation.selected - g.reservation.required
               && g.process.returnIndex == b.end - b.start
  {
    InvParts(w);
    CustodySuffices(w, sig);
    hide Inv, Custody, Conserved, Payments, Owned, OneIncomplete, LoadGraph, Ranges, RequestsOk;
    assert StageOk(w, sig);
    GraphFields(w.store, sig, w.store.batches[sig]);
    GraphRange(w.store, sig, w.store.batches[sig]);
  }

  lemma GraphRange(s: StoreState, sig: Signature, b: Batch)
    requires LoadGraph(s, sig, b).Ok?
    ensures LoadGraph(s, sig, b).value.process.start == b.start && LoadGraph(s, sig, b).value.process.end == b.end
  {
    hide Mappings;
  }

  ghost predicate Reaches(s: StoreState, sig: Signature, statuses: set<OperatorStatus>)
  { sig in s.batches && s.batches[sig].status in statuses }

  lemma FinalReaches(w: World, sig: Signature, e: Settings, a: Answers)
    requires Inv(w) && sig in w.store.batches && w.store.batches[sig].status == Broadcast
    ensures var ws := FinalWrites(e, w.hashes, w.store, sig, w.store.batches[sig], a);
            Reaches(Replay(w.store, ws), sig,
                    if Derive(e, w.store, sig, w.store.batches[sig], a.confirmed).Ok? then {Confirmed} else {Broadcast})
  {
    hide *;
    BroadcastStage(w, sig);
    IntactFields(w, sig);
    var derived := Derive(e, w.store, sig, w.store.batches[sig], a.confirmed);
    if derived.Ok? { FinalizedStatus(w, sig, derived.value); }
    FinalCases(w, sig, e, a, derived);
  }

  lemma IntactFields(w: World, sig: Signature)
    requires sig in w.store.batches && BroadcastIntact(w.hashes, w.store, sig, w.store.batches[sig])
    ensures ReservationOf(w.store, sig).Some?
    ensures sig in w.store.processes && w.store.processes[sig].rawHash in w.store.transactions
  {
    GraphFields(w.store, sig, w.store.batches[sig]);
    hide LoadGraph;
  }

  lemma FinalizedStatus(w: World, sig: Signature, change: Option<CustodyUtxo>)
    requires sig in w.store.batches && ReservationOf(w.store, sig).Some?
    requires sig in w.store.processes && w.store.processes[sig].rawHash in w.store.transactions
    ensures Reaches(Apply(w.store, FinalizeConfirmed(sig, w.store.processes[sig].rawHash, change)), sig, {Confirmed})
  {
    hide Consume, WithRangeStatus, WithProcessStatus, WithTransactionStatus;
  }

  lemma FinalCases(w: World, sig: Signature, e: Settings, a: Answers, derived: Result<Option<CustodyUtxo>>)
    requires sig in w.store.batches && w.store.batches[sig].status == Broadcast
    requires derived == Derive(e, w.store, sig, w.store.batches[sig], a.confirmed)
    requires BroadcastIntact(w.hashes, w.store, sig, w.store.batches[sig]) && sig in w.store.processes
    requires derived.Ok? ==>
               Reaches(Apply(w.store, FinalizeConfirmed(sig, w.store.processes[sig].rawHash, derived.value)), sig,
                       {Confirmed})
    ensures Reaches(Replay(w.store, FinalWrites(e, w.hashes, w.store, sig, w.store.batches[sig], a)), sig,
                    if derived.Ok? then {Confirmed} else {Broadcast})
  {
    hide BroadcastIntact, Apply, Derive;
    if derived.Ok? { ReplayOne(w, FinalizeConfirmed(sig, w.store.processes[sig].rawHash, derived.value)); }
  }

  lemma MarkingReaches(w: World, sig: Signature)
    requires Inv(w) && sig in w.store.batches && w.store.batches[sig].status == Signed
    requires LoadCompleteSigned(w.store, sig, w.store.batches[sig]).Ok?
    ensures Reaches(Replay(w.store, ContinueSignedWrites(w.hashes, w.store, sig, w.store.batches[sig], true, Ok(()))),
                    sig, {Broadcast})
  {
    var b := w.store.batches[sig];
    SignedStage(w, sig);
    CompleteLoads(w.store, sig, b);
    hide Inv, LoadGraph, LoadCompleteSigned, StatusWrites, Replay, Apply, ContinueSignedWrites, BroadcastIntact;
    assert ReadyToMark(w.hashes, w.store, sig, b);
    var ws := ContinueSignedWrites(w.hashes, w.store, sig, b, true, Ok(()));
    FirstRun(w.hashes, w.store, sig, b, |ws|);
    assert ws[..|ws|] == ws;
    CompletedIsIntact(w.hashes, w.store, sig, b);
  }

  lemma SignedReaches(w: World, sig: Signature, e: Settings, a: Answers)
    requires Inv(w) && sig in w.store.batches && w.store.batches[sig].status == Signed
    requires e.broadcastEnabled && a.submitted.Ok?
    ensures Reaches(Replay(w.store, SignedWrites(e, w.hashes, w.store, sig, w.store.batches[sig], a)), sig,
                    {Broadcast, Confirmed})
  {
    var b := w.store.batches[sig];
    SignedStage(w, sig);
    SignedProceeds(w, sig, e, a);
    hide Inv, LoadGraph, SignedWrites, ContinueSignedWrites, LoadCompleteSigned, Replay, SignedOk;
    if LoadGraph(w.store, sig, b).value.reservation.status == Relayed {
      InterruptedReaches(w, sig, e, a);
    } else {
      MarkingReaches(w, sig);
    }
  }

  lemma SignedProceeds(w: World, sig: Signature, e: Settings, a: Answers)
    requires sig in w.store.batches && SignedOk(w, sig) && w.store.batches[sig].status == Signed
    requires e.broadcastEnabled && a.submitted.Ok?
    ensures var b := w.store.batches[sig];
            LoadGraph(w.store, sig, b).Ok? &&
            (LoadGraph(w.store, sig, b).value.reservation.status != Relayed ==>
               LoadCompleteSigned(w.store, sig, b).Ok?
               && SignedWrites(e, w.hashes, w.store, sig, b, a)
                  == ContinueSignedWrites(w.hashes, w.store, sig, b, true, Ok(())))
  {
    hide LoadGraph, BroadcastWrites;
  }

  lemma InterruptedReaches(w: World, sig: Signature, e: Settings, a: Answers)
    requires Inv(w) && sig in w.store.batches && w.store.batches[sig].status == Signed && SignedOk(w, sig)
    requires LoadGraph(w.store, sig, w.store.batches[sig]).value.reservation.status == Relayed
    ensures Reaches(Replay(w.store, SignedWrites(e, w.hashes, w.store, sig, w.store.batches[sig], a)), sig,
                    {Broadcast, Confirmed})
  {
    var b := w.store.batches[sig];
    hide *;
    SignedStage(w, sig);
    GraphLoads(w, sig);
    var ws := StatusWrites(sig, b, LoadGraph(w.store, sig, b).value.process.rawHash);
    var y := After(w, ws);
    InterruptedWrites(w, sig, e, a);
    ResumingPerforms(w, sig);
    PerformingLeads(w, sig, ws);
    LeadingKeeps(w, sig, ws, y);
    LeadingReplays(w, sig, ws, y);
    StatusesFinish(w, sig, b, ws);
    FinalReaches(y, sig, e, a);
    ReplayAppend(w.store, ws, FinalWrites(e, y.hashes, y.store, sig, y.store.batches[sig], a));
    EitherReaches(Replay(y.store, FinalWrites(e, y.hashes, y.store, sig, y.store.batches[sig], a)), sig,
                  Derive(e, y.store, sig, y.store.batches[sig], a.confirmed).Ok?);
  }

  lemma GraphLoads(w: World, sig: Signature)
    requires sig in w.store.batches && SignedOk(w, sig)
    ensures LoadGraph(w.store, sig, w.store.batches[sig]).Ok?
  {
    hide LoadGraph;
  }

  lemma EitherReaches(s: StoreState, sig: Signature, derived: bool)
    requires Reaches(s, sig, if derived then {Confirmed} else {Broadcast})
    ensures Reaches(s, sig, {Broadcast, Confirmed})
  {}

  lemma ConstructReaches(w: World, sig: Signature, e: Settings, a: Answers)
    requires Inv(w) && Genuine(w) && Governs(w, e)
    requires sig in w.store.batches && w.store.batches[sig].status == Constructed && SignedIsNew(w, sig, e, a)
    requires SignBatch(e, w.store, w.store.batches[sig], a.response).Ok? && e.broadcastEnabled && a.submitted.Ok?
    ensures Reaches(Replay(w.store, ConstructWrites(e, w.hashes, w.store, sig, w.store.batches[sig], a)), sig,
                    {Broadcast})
  {
    hide *;
    PersistingAnswer(w, sig, e, a);
    var b := w.store.batches[sig];
    var p := PersistWrite(w.hashes, sig, b, SignBatch(e, w.store, b, a.response).value);
    PersistedStage(w, sig, p);
    PersistThenMark(w, sig, e, a);
    var y := AfterWrite(w, p);
    AfterOne(w, p);
    MarkingReaches(y, sig);
    ReplayAppend(w.store, [p], ContinueSignedWrites(y.hashes, y.store, sig, y.store.batches[sig], true, Ok(())));
    ReplayOne(w, p);
  }

  lemma ReplayOne(w: World, v: Write)
    ensures Replay(w.store, [v]) == AfterWrite(w, v).store
  {
    AfterOne(w, v);
    hide Apply, Replay;
  }

  /** Confirming the snapshot does not change what is signed. */
  lemma ConfirmKeepsSigning(w: World, sig: Signature, e: Settings, a: Answers, y: World)
    requires sig in w.store.batches && SignBatch(e, w.store, w.store.batches[sig], a.response).Ok?
    requires y == w.(store := w.store.(batches := w.store.batches[sig := w.store.batches[sig].(status := Constructed)],
                                       requests := y.store.requests))
    ensures SignBatch(e, y.store, y.store.batches[sig], a.response).Ok?
  {
    hide Sign;
  }

  lemma SettledReaches(w: World, sig: Signature, e: Settings, a: Answers)
    requires Inv(w) && Genuine(w) && Truthful(w, sig, e, a)
    requires sig in w.store.batches && w.store.batches[sig].status == Observed && w.snapshots[sig] == Landed
    requires PayloadOk(e, w.store.batches[sig]) && SignBatch(e, w.store, w.store.batches[sig], a.response).Ok?
    requires e.broadcastEnabled && a.submitted.Ok?
    ensures var b, ws := w.store.batches[sig], ConfirmWrites(sig, w.store.batches[sig]);
            Reaches(Replay(w.store, ws + ContinueWrites(e, w.hashes, Replay(w.store, ws), sig,
                                                        b.(status := ConfirmedStatus(b)), a)),
                    sig, {Broadcast})
  {
    hide *;
    SnapshotKnown(w, sig, e, a);
    var ws := ConfirmWrites(sig, w.store.batches[sig]);
    var y := After(w, ws);
    ConfirmEffect(w, sig);
    ConfirmKeepsTruth(w, sig, e, a, y);
    ConfirmKeepsSigning(w, sig, e, a, y);
    ConfirmingPerforms(w, sig);
    PerformingLeads(w, sig, ws);
    LeadingKeeps(w, sig, ws, y);
    LeadingReplays(w, sig, ws, y);
    SettledWrites(w, sig, e, a);
    ConstructReaches(y, sig, e, a);
    ReplayAppend(w.store, ws, ConstructWrites(e, y.hashes, y.store, sig, y.store.batches[sig], a));
  }

  /** Progress: from any stage, after any crashes, one invocation with favourable answers brings the
      batch to broadcast, and a further one with a confirmed transaction finishes it. That preparing,
      signing and deriving the change succeed is not assumed: it follows. */
  lemma FavourableResumeFinishes(w: World, sig: Signature, e: Settings, a: Answers)
    requires Inv(w) && Genuine(w) && sig in w.store.batches && Incomplete(w.store.batches[sig])
    requires Truthful(w, sig, e, a) && Favourable(w.store, sig, w.store.batches[sig], e, a)
    ensures var b := w.store.batches[sig];
            Reaches(Replay(w.store, ResumeWrites(e, w.hashes, w.store, sig, b, a)), sig,
                    if b.status == Broadcast then {Confirmed} else {Broadcast, Confirmed})
  {
    hide Inv, Genuine, Governs, Replay, ConstructWrites, SignedWrites, FinalWrites, FailWrites, ConfirmWrites,
         SnapshotTruth, SignedIsNew, ChangeIsNew, Settles, Fails, PayloadOk, GetsSigned, GetsConfirmed, SignBatch,
         Derive;
    var b := w.store.batches[sig];
    NeverSnapshotted(w, sig);
    PayloadIsOk(w, sig, e);
    if b.status == Observed {
      ObservedOutcome(w, sig, e, a);
      SettledIsNotFailed(b, a.snapshot);
    }
    if b.status == Observed {
      BatchIsSigned(w, sig, e, a);
      SettledReaches(w, sig, e, a);
    } else if b.status == Constructed {
      BatchIsSigned(w, sig, e, a);
      ConstructReaches(w, sig, e, a);
    } else if b.status == Signed {
      SignedReaches(w, sig, e, a);
    } else {
      ChangeIsDerived(w, sig, e, a);
      FinalReaches(w, sig, e, a);
    }
  }
}
