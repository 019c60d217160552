/** Finalizing a confirmed batch keeps every invariant: its UTXOs become spent, what they were
    worth is either paid out or returns as a new change UTXO. */
module FinalSteps {
  import opened Bytes
  import opened OperatorRows
  import opened Store
  import opened Withdrawal
  import opened BroadcastRecovery
  import opened Totals
  import opened Machine
  import opened MachineFrames
  import opened ChainSteps
  import opened OperatorSteps

  /** The world with everything final but the change not yet tracked. */
  ghost predicate Finishes(w: World, y: World, sig: Signature)
  {
    && sig in w.store.batches && sig in w.snapshots && w.store.batches[sig].status == Broadcast
    && ReservationOf(w.store, sig).Some? && ReservationOf(w.store, sig).value.status == Relayed
    && sig in w.store.processes
    && y == w.(store := y.store)
    && FinishesTables(w.store, y.store, sig)
  }

  ghost predicate FinishesTables(s: StoreState, t: StoreState, sig: Signature)
    requires ReservationOf(s, sig).Some? && sig in s.processes
  {
    var b, r := s.batches[sig], ReservationOf(s, sig).value;
    && t.batches == s.batches[sig := b.(status := Confirmed)]
    && t.processes == WithProcessStatus(s.processes, sig, Confirmed)
    && t.transactions == WithTransactionStatus(s.transactions, s.processes[sig].rawHash, Confirmed)
    && t.mappings == s.mappings
    && t.requests == WithRangeStatus(s.requests, b.start, b.end, Confirmed)
    && t.reservations == s.reservations[b.reservation.value := r.(status := Consumed)]
    && t.utxos == Consume(s.utxos, r.utxos)
  }

  function WithChange(y: World, change: Option<CustodyUtxo>): World
  {
    if change.None? then y
    else y.(store := y.store.(utxos := y.store.utxos[OutpointOf(change.value) := Fresh(change.value)]))
  }

  /** Finalizing is finishing and then tracking the change. */
  lemma FinalizeEffect(w: World, sig: Signature, v: Write) returns (y: World)
    requires v.FinalizeConfirmed? && CanOperate(w, sig, v)
    ensures Finishes(w, y, sig) && AfterWrite(w, v) == WithChange(y, v.change)
    ensures y.store.utxos.Keys == w.store.utxos.Keys
  {
    var b := w.store.batches[sig];
    y := AfterWrite(w, v.(change := None));
    GraphFields(w.store, sig, b);
    hide LoadGraph, WithRangeStatus, WithProcessStatus, WithTransactionStatus;
  }

  // ---- Finishing ----

  lemma FinishIsOne(w: World, y: World, sig: Signature)
    requires Finishes(w, y, sig)
    ensures SameButStatus(w.store, y.store) && SameWorth(w.store, y.store) && Incomplete(w.store.batches[sig])
    ensures y == w.(store := y.store)
    ensures forall other :: other in w.store.batches && other != sig ==>
            y.store.batches[other] == w.store.batches[other]
  {
    hide WithRangeStatus, WithProcessStatus, WithTransactionStatus, Consume;
  }

  lemma FinishKeepsRanges(w: World, y: World, sig: Signature)
    requires Finishes(w, y, sig) && Ranges(w) && OneIncomplete(w.store) && Owned(w)
    ensures Ranges(y) && OneIncomplete(y.store) && Owned(y)
  {
    assert sig in w.store.batches;
    hide *;
    FinishIsOne(w, y, sig);
    CommonKept(w, y, sig);
  }

  lemma FinishKeepsRequests(w: World, y: World, sig: Signature)
    requires Finishes(w, y, sig) && RequestsOk(w)
    ensures RequestsOk(y)
  {
    var b := w.store.batches[sig];
    assert y.store.requests == WithRangeStatus(w.store.requests, b.start, b.end, Confirmed);
    FinishIsOne(w, y, sig);
    hide Finishes, RequestsOk, SameButStatus, SameWorth;
    RequestsKept(w, y);
  }

  lemma FinishKeepsCustody(w: World, y: World, sig: Signature)
    requires Finishes(w, y, sig) && Custody(w)
    ensures Custody(y)
  {
    hide WithRangeStatus, WithProcessStatus, WithTransactionStatus;
    var id := w.store.batches[sig].reservation.value;
    var r := w.store.reservations[id];
    assert CustodyOf(w, id, r);
    forall i | i in y.store.reservations ensures CustodyOf(y, i, y.store.reservations[i]) {
      assert CustodyOf(w, i, w.store.reservations[i]);
      if i == id {
        SumSame(w.store.utxos, y.store.utxos, r.utxos);
      } else {
        CustodyOfKept(w, y, i, w.store.reservations[i], y.store.reservations[i]);
      }
    }
  }

  lemma FinishKeepsTxids(w: World, y: World, sig: Signature, other: Signature)
    requires Finishes(w, y, sig)
    ensures TxidOf(y.store, other) == TxidOf(w.store, other)
  {
    hide WithRangeStatus, Consume;
  }

  lemma FinishKeepsPayments(w: World, y: World, sig: Signature)
    requires Finishes(w, y, sig) && Payments(w)
    ensures Payments(y)
  {
    forall other, txid | Paying(w, other, txid) ensures Paying(y, other, txid) {
      FinishKeepsTxids(w, y, sig, other);
      hide TxidOf, WithRangeStatus, Consume, WithProcessStatus, WithTransactionStatus;
    }
    hide Payments, Paying;
    PaymentsKept(w, y);
  }

  lemma FinishStage(w: World, y: World, sig: Signature)
    requires Finishes(w, y, sig) && StageOk(w, sig)
    ensures ReservationOf(y.store, sig).Some? && StageOk(y, sig)
  {
    FinishKeepsTxids(w, y, sig, sig);
    GraphFields(w.store, sig, w.store.batches[sig]);
    hide LoadGraph, WithRangeStatus, WithProcessStatus, WithTransactionStatus, Consume;
  }

  lemma FinishKeepsOthers(w: World, y: World, sig: Signature, other: Signature)
    requires Finishes(w, y, sig) && Owned(w) && other in w.store.batches && other != sig
    ensures ReservationOf(y.store, other) == ReservationOf(w.store, other)
  {
    OtherReservation(w, sig, other);
    hide Owned, WithRangeStatus, WithProcessStatus, WithTransactionStatus, Consume;
  }

  lemma FinishKeepsStages(w: World, y: World, sig: Signature)
    requires Finishes(w, y, sig) && Stages(w) && OneIncomplete(w.store) && Owned(w)
    requires w.snapshots.Keys == w.store.batches.Keys
    ensures Stages(y)
  {
    FinishIsOne(w, y, sig);
    FinishStage(w, y, sig);
    forall other | other in w.store.batches && other != sig
      ensures ReservationOf(y.store, other) == ReservationOf(w.store, other)
      ensures TxidOf(y.store, other) == TxidOf(w.store, other)
    {
      FinishKeepsOthers(w, y, sig, other);
      FinishKeepsTxids(w, y, sig, other);
    }
    hide Stages, Finishes, StageOk, TxidOf, ReservationOf, Owned, OneIncomplete;
    OtherStages(w, y, sig);
  }

  /** Finishing moves what the batch required from custody to what was paid; the rest is change. */
  lemma FinishTotals(w: World, y: World, sig: Signature)
    requires Finishes(w, y, sig) && Custody(w) && Owned(w) && Conserved(w)
    ensures var r := ReservationOf(w.store, sig).value;
            && r.required <= r.selected
            && Total(Values(y.store.utxos)) + Total(Paid(y.store)) + (r.selected - r.required) == w.deposits
  {
    var r := ReservationOf(w.store, sig).value;
    assert CustodyOf(w, w.store.batches[sig].reservation.value, r);
    FinishPays(w, y, sig);
    hide Owned, Custody, Values, Paid, Consume, WithRangeStatus, WithProcessStatus, WithTransactionStatus;
    ConsumeLowers(w.store.utxos, r.utxos);
    assert sig in Paid(w.store) && Paid(w.store)[sig] == 0 by { PaysNothingYet(w.store, sig); }
    TotalUpdate(Paid(w.store), sig, r.required);
  }

  lemma PaysNothingYet(s: StoreState, sig: Signature)
    requires sig in s.batches && s.batches[sig].status != Confirmed
    ensures sig in Paid(s) && Paid(s)[sig] == 0
  {}

  lemma FinishPays(w: World, y: World, sig: Signature)
    requires Finishes(w, y, sig) && Owned(w)
    ensures Paid(y.store) == Paid(w.store)[sig := ReservationOf(w.store, sig).value.required]
  {
    hide Owned, Consume, WithRangeStatus, WithProcessStatus, WithTransactionStatus;
    FinishIsOne(w, y, sig);
    FinishPaysOne(w, y, sig);
    forall other | other in w.store.batches && other != sig ensures PaidBy(y.store, other) == PaidBy(w.store, other) {
      FinishKeepsOthers(w, y, sig, other);
      hide ReservationOf, Finishes;
    }
    hide Finishes, PaidBy, ReservationOf;
  }

  lemma FinishPaysOne(w: World, y: World, sig: Signature)
    requires Finishes(w, y, sig)
    ensures PaidBy(y.store, sig) == ReservationOf(w.store, sig).value.required
  {
    hide Consume, WithRangeStatus, WithProcessStatus, WithTransactionStatus;
  }

  // ---- Tracking the change ----

  /** The change a broadcast batch returns is exactly what it selected beyond what it required. */
  lemma ChangeIsRest(w: World, sig: Signature)
    requires sig in w.store.batches && w.store.batches[sig].status == Broadcast
    requires sig in w.snapshots && ReservationOf(w.store, sig).Some? && StageOk(w, sig)
    requires ReservationOf(w.store, sig).value.required <= ReservationOf(w.store, sig).value.selected
    ensures var r := ReservationOf(w.store, sig).value;
            (if ChangeOf(w.store, sig).Some? then ChangeOf(w.store, sig).value.1 else 0) == r.selected - r.required
  {
    GraphFields(w.store, sig, w.store.batches[sig]);
    hide LoadGraph;
  }

  lemma MatchedAmount(change: Option<CustodyUtxo>, planned: Option<(Outpoint, nat)>)
    requires ChangeMatches(change, planned)
    ensures (if change.Some? then change.value.amount else 0) == (if planned.Some? then planned.value.1 else 0)
  {}

  lemma ChangeKeepsTotals(y: World, change: Option<CustodyUtxo>)
    requires change.Some? ==> OutpointOf(change.value) !in y.store.utxos
    requires Total(Values(y.store.utxos)) + Total(Paid(y.store)) + (if change.Some? then change.value.amount else 0)
             == y.deposits
    ensures Conserved(WithChange(y, change))
  {
    var x := WithChange(y, change);
    PaidSame(y.store, x.store);
    hide Paid;
    if change.Some? {
      assert Values(x.store.utxos) == Values(y.store.utxos)[OutpointOf(change.value) := change.value.amount];
      TotalUpdate(Values(y.store.utxos), OutpointOf(change.value), change.value.amount);
    }
  }

  lemma ChangeKeeps(y: World, change: Option<CustodyUtxo>)
    requires Ranges(y) && OneIncomplete(y.store) && Owned(y) && RequestsOk(y) && Payments(y) && Custody(y) && Stages(y)
    requires change.Some? ==> OutpointOf(change.value) !in y.store.utxos
    ensures var x := WithChange(y, change);
            Ranges(x) && OneIncomplete(x.store) && Owned(x) && RequestsOk(x) && Payments(x) && Custody(x) && Stages(x)
  {
    hide Ranges, OneIncomplete, Owned, RequestsOk, Payments, Custody, Stages;
    if change.Some? {
      var x, u := WithChange(y, change), Fresh(change.value);
      RangesKept(y, x);
      OneIncompleteKept(y.store, x.store);
      OwnedKept(y, x);
      RequestsKept(y, x);
      PaymentsSame(y, x);
      NewUtxoKeepsCustody(y, x, OutpointOf(change.value), u);
      NewUtxoKeepsStages(y, x, OutpointOf(change.value), u);
    }
  }

  lemma FinalizeKeeps(w: World, sig: Signature, v: Write)
    requires Inv(w) && v.FinalizeConfirmed? && CanOperate(w, sig, v)
    ensures Inv(AfterWrite(w, v))
  {
    var y := FinalizeEffect(w, sig, v);
    assert w.snapshots.Keys == w.store.batches.Keys && StageOk(w, sig) && CanFinalize(w, sig, v);
    assert w.store.batches[sig].status == Broadcast && ReservationOf(w.store, sig).Some? && sig in w.snapshots;
    assert ChangeMatches(v.change, ChangeOf(w.store, sig));
    assert v.change.Some? ==> OutpointOf(v.change.value) !in w.store.utxos;
    MatchedAmount(v.change, ChangeOf(w.store, sig));
    assert y.deposits == w.deposits;
    hide *;
    InvParts(w);
    FinishKeepsRanges(w, y, sig);
    FinishKeepsRequests(w, y, sig);
    FinishKeepsCustody(w, y, sig);
    FinishKeepsPayments(w, y, sig);
    FinishKeepsStages(w, y, sig);
    FinishTotals(w, y, sig);
    ChangeIsRest(w, sig);
    ChangeKeepsTotals(y, v.change);
    ChangeKeeps(y, v.change);
    InvParts(WithChange(y, v.change));
  }
}
