/** Steps of the outside world, and the start of a batch, keep every invariant. */
module ChainSteps {
  import opened Bytes
  import opened OperatorRows
  import opened Store
  import opened Withdrawal
  import opened Totals
  import opened Machine
  import opened MachineFrames

  // ---- Requests and deposits ----

  lemma CustodyUntouched(w: World, x: World)
    requires Custody(w) && x.minDust == w.minDust
    requires x.store.utxos == w.store.utxos && x.store.reservations == w.store.reservations
    ensures Custody(x)
  {
    forall id | id in x.store.reservations ensures CustodyOf(x, id, x.store.reservations[id]) {
      CustodyOfKept(w, x, id, w.store.reservations[id], x.store.reservations[id]);
    }
  }

  lemma AskKeeps(w: World, record: RequestRecord)
    requires Inv(w)
    ensures Inv(AfterAsk(w, record))
  {
    hide Ranges, Owned, RequestsOk, Payments, LoadGraph, Custody, Conserved;
    var x := AfterAsk(w, record);
    RangesKept(w, x);
    OwnedKept(w, x);
    RequestsKept(w, x);
    PaymentsKept(w, x);
    CustodyUntouched(w, x);
    ConservedKept(w, x);
    forall sig | sig in x.store.batches ensures StageOk(x, sig) {
      assert StageOk(w, sig);
    }
  }

  /** A new UTXO changes no existing one. */
  ghost predicate AddsUtxo(w: World, x: World, o: Outpoint, u: Utxo)
  {
    && o !in w.store.utxos && u.spendTxid.None?
    && x == w.(store := w.store.(utxos := w.store.utxos[o := u]), deposits := x.deposits)
  }

  lemma NewUtxoKeepsCustody(w: World, x: World, o: Outpoint, u: Utxo)
    requires Custody(w) && AddsUtxo(w, x, o, u)
    ensures Custody(x)
  {
    forall id | id in x.store.reservations ensures CustodyOf(x, id, x.store.reservations[id]) {
      CustodyOfKept(w, x, id, w.store.reservations[id], x.store.reservations[id]);
    }
  }

  lemma NewUtxoKeepsGraph(w: World, x: World, o: Outpoint, u: Utxo, sig: Signature)
    requires Custody(w) && AddsUtxo(w, x, o, u)
    requires sig in w.store.batches && ReservationOf(w.store, sig).Some?
    ensures LoadGraph(x.store, sig, w.store.batches[sig]) == LoadGraph(w.store, sig, w.store.batches[sig])
  {
    var b := w.store.batches[sig];
    assert CustodyOf(w, b.reservation.value, ReservationOf(w.store, sig).value);
    GraphKept(w.store, x.store, sig, b);
  }

  lemma NewUtxoKeepsStages(w: World, x: World, o: Outpoint, u: Utxo)
    requires Custody(w) && Stages(w) && AddsUtxo(w, x, o, u)
    ensures Stages(x)
  {
    hide LoadGraph, Custody;
    forall sig | sig in x.store.batches ensures StageOk(x, sig) {
      assert StageOk(w, sig);
      NewUtxoKeepsGraph(w, x, o, u, sig);
    }
  }

  lemma DepositConserves(w: World, row: CustodyUtxo)
    requires Conserved(w) && OutpointOf(row) !in w.store.utxos
    ensures Conserved(AfterDeposit(w, row))
  {
    var x := AfterDeposit(w, row);
    assert Values(x.store.utxos) == Values(w.store.utxos)[OutpointOf(row) := row.amount];
    TotalUpdate(Values(w.store.utxos), OutpointOf(row), row.amount);
    assert Paid(x.store) == Paid(w.store);
  }

  lemma DepositKeeps(w: World, row: CustodyUtxo)
    requires Inv(w) && OutpointOf(row) !in w.store.utxos
    ensures Inv(AfterDeposit(w, row))
  {
    hide LoadGraph, Stages, Ranges, Owned, Custody, RequestsOk, Payments, Conserved;
    var x := AfterDeposit(w, row);
    RangesKept(w, x);
    OwnedKept(w, x);
    RequestsKept(w, x);
    NewUtxoKeepsCustody(w, x, OutpointOf(row), Fresh(row));
    NewUtxoKeepsStages(w, x, OutpointOf(row), Fresh(row));
    PaymentsKept(w, x);
    DepositConserves(w, row);
  }

  /** Without a change of the store only stages and payments can be affected. */
  lemma SameStoreKeeps(w: World, x: World)
    requires Ranges(w) && OneIncomplete(w.store) && Owned(w) && Custody(w) && RequestsOk(w) && Conserved(w)
    requires x == w.(electrs := x.electrs, snapshots := x.snapshots) && SameLanding(w, x)
    ensures Ranges(x) && OneIncomplete(x.store) && Owned(x) && Custody(x) && RequestsOk(x) && Conserved(x)
  {
    hide Ranges, Owned, Custody, RequestsOk, Conserved;
    RangesKept(w, x);
    OwnedKept(w, x);
    RequestsKept(w, x);
    CustodyUntouched(w, x);
    ConservedKept(w, x);
  }

  // ---- Snapshot transactions ----

  /** Only an observed batch can have an undecided snapshot. */
  lemma PendingIsObserved(w: World, sig: Signature)
    requires Stages(w) && sig in w.store.batches && Undecided(w, sig)
    ensures w.store.batches[sig].status == Observed && w.cursor == w.store.batches[sig].start
    ensures ReservationOf(w.store, sig).Some? && ReservationOf(w.store, sig).value.status == Held
  {
    assert StageOk(w, sig);
  }

  lemma ChainGrows(batches: map<Signature, Batch>, landed: seq<Signature>, first: nat, sig: Signature)
    requires sig in batches && Chained(batches, landed, first, batches[sig].start)
    ensures Chained(batches, landed + [sig], first, batches[sig].end)
  {
    assert (landed + [sig])[..|landed|] == landed;
  }

  lemma LandKeepsRanges(w: World, sig: Signature)
    requires Ranges(w) && CanLand(w, sig)
    ensures Ranges(AfterLand(w, sig))
  {
    hide Chained;
    ChainGrows(w.store.batches, w.landed, w.first, sig);
  }

  /** When one incomplete batch has changed, the others are complete and keep their stage. */
  lemma OtherStages(w: World, x: World, sig: Signature)
    requires Stages(w) && OneIncomplete(w.store) && sig in w.store.batches && Incomplete(w.store.batches[sig])
    requires x.store.batches.Keys == w.store.batches.Keys && x.snapshots.Keys == w.snapshots.Keys
    requires w.electrs <= x.electrs
    requires forall other :: other in w.store.batches && other != sig ==>
               x.store.batches[other] == w.store.batches[other]
    requires forall other :: other in w.snapshots && other != sig ==> x.snapshots[other] == w.snapshots[other]
    requires forall other :: other in w.store.batches && other != sig && ReservationOf(w.store, other).Some? ==>
               ReservationOf(x.store, other) == ReservationOf(w.store, other)
               && (TxidOf(w.store, other).Some? ==> TxidOf(x.store, other) == TxidOf(w.store, other))
    requires sig in x.snapshots && ReservationOf(x.store, sig).Some? && StageOk(x, sig)
    ensures Stages(x)
  {
    forall other | other in x.store.batches
      ensures other in x.snapshots && ReservationOf(x.store, other).Some? && StageOk(x, other)
    {
      if other != sig {
        assert StageOk(w, other) && !Incomplete(w.store.batches[other]);
        hide StageOk, Incomplete;
        CompleteKept(w, x, other);
      }
    }
  }

  lemma LandKeeps(w: World, sig: Signature)
    requires Inv(w) && CanLand(w, sig)
    ensures Inv(AfterLand(w, sig))
  {
    hide Ranges, LoadGraph, Owned, Custody, RequestsOk, Payments, Stages, Conserved;
    var x := AfterLand(w, sig);
    LandKeepsRanges(w, sig);
    PendingIsObserved(w, sig);
    OwnedKept(w, x);
    RequestsKept(w, x);
    PaymentsKept(w, x);
    CustodyUntouched(w, x);
    ConservedKept(w, x);
    assert x.snapshots.Keys == w.snapshots.Keys;
    OtherStages(w, x, sig);
  }

  lemma DeathKeepsStages(w: World, sig: Signature, status: ChainStatus)
    requires Stages(w) && OneIncomplete(w.store) && w.snapshots.Keys == w.store.batches.Keys
    requires Undecided(w, sig) && Dead(status)
    ensures Stages(AfterDeath(w, sig, status))
  {
    hide LoadGraph, Stages;
    var x := AfterDeath(w, sig, status);
    assert x.snapshots.Keys == w.snapshots.Keys;
    PendingIsObserved(w, sig);
    OtherStages(w, x, sig);
  }

  lemma DeathIsQuiet(w: World, sig: Signature, status: ChainStatus)
    requires w.snapshots.Keys == w.store.batches.Keys && Undecided(w, sig) && Dead(status)
    ensures var x := AfterDeath(w, sig, status);
            x == w.(electrs := x.electrs, snapshots := x.snapshots) && x.electrs == w.electrs && SameLanding(w, x)
  {}

  lemma DeathKeeps(w: World, sig: Signature, status: ChainStatus)
    requires Inv(w) && Undecided(w, sig) && Dead(status)
    ensures Inv(AfterDeath(w, sig, status))
  {
    assert w.snapshots.Keys == w.store.batches.Keys;
    hide Ranges, OneIncomplete, Owned, Custody, RequestsOk, Payments, Stages, Conserved, AfterDeath, SameLanding,
         Undecided;
    var x := AfterDeath(w, sig, status);
    DeathIsQuiet(w, sig, status);
    SameStoreKeeps(w, x);
    PaymentsSame(w, x);
    DeathKeepsStages(w, sig, status);
  }

  // ---- Electrs ----

  lemma SubmitsSigned(w: World, sig: Signature)
    requires CanSubmit(w, sig)
    ensures w.store.batches[sig].status == Signed
  {}

  lemma SubmitKeepsStages(w: World, sig: Signature)
    requires Stages(w)
    ensures Stages(AfterSubmit(w, sig))
  {
    hide LoadGraph, LoadCompleteSigned, BroadcastIntact;
    var x := AfterSubmit(w, sig);
    forall other | other in x.store.batches ensures StageOk(x, other) {
      assert StageOk(w, other);
    }
  }

  lemma SubmitKeepsPayments(w: World, sig: Signature)
    requires Payments(w) && sig in w.store.batches && w.store.batches[sig].status == Signed
    ensures Payments(AfterSubmit(w, sig))
  {
    var x := AfterSubmit(w, sig);
    forall txid | txid in x.electrs ensures exists s :: Paying(x, s, txid) {
      if txid in w.electrs {
        var s :| Paying(w, s, txid);
        assert Paying(x, s, txid);
      } else {
        assert Paying(x, sig, txid);
      }
    }
  }

  lemma SubmitKeeps(w: World, sig: Signature)
    requires Inv(w) && CanSubmit(w, sig)
    ensures Inv(AfterSubmit(w, sig))
  {
    SubmitsSigned(w, sig);
    hide Ranges, OneIncomplete, Owned, Custody, RequestsOk, Stages, Payments, Conserved;
    SameStoreKeeps(w, AfterSubmit(w, sig));
    SubmitKeepsStages(w, sig);
    SubmitKeepsPayments(w, sig);
  }

  // ---- Recording requests and starting a batch ----

  lemma IdleStages(w: World, x: World)
    requires Stages(w) && NoneIncomplete(w.store)
    requires forall sig :: sig in w.store.batches ==>
               sig in x.store.batches && x.store.batches[sig] == w.store.batches[sig]
               && sig in x.snapshots && sig in w.snapshots && x.snapshots[sig] == w.snapshots[sig]
               && (ReservationOf(w.store, sig).Some? ==> ReservationOf(x.store, sig) == ReservationOf(w.store, sig))
    requires x.store.processes == w.store.processes && x.store.transactions == w.store.transactions
    requires x.electrs == w.electrs
    ensures forall sig :: sig in w.store.batches ==> ReservationOf(x.store, sig).Some? && StageOk(x, sig)
  {
    forall sig | sig in w.store.batches ensures ReservationOf(x.store, sig).Some? && StageOk(x, sig) {
      assert StageOk(w, sig);
      hide StageOk;
      CompleteKept(w, x, sig);
    }
  }

  lemma RecordKeepsRequests(w: World, index: nat)
    requires RequestsOk(w) && CanRecord(w, index)
    ensures RequestsOk(AfterWrite(w, UpsertRequest(index, Recorded(w, index))))
  {}

  lemma RecordKeepsStages(w: World, index: nat)
    requires Stages(w) && CanRecord(w, index) && w.snapshots.Keys == w.store.batches.Keys
    ensures Stages(AfterWrite(w, UpsertRequest(index, Recorded(w, index))))
  {
    hide StageOk;
    IdleStages(w, AfterWrite(w, UpsertRequest(index, Recorded(w, index))));
  }

  lemma PaidSame(s: StoreState, t: StoreState)
    requires t.batches == s.batches && t.reservations == s.reservations
    ensures Paid(t) == Paid(s)
  {}

  lemma RecordKeepsRest(w: World, x: World, index: nat)
    requires Ranges(w) && OneIncomplete(w.store) && Owned(w) && Custody(w) && Payments(w) && Conserved(w)
    requires CanRecord(w, index) && x == AfterWrite(w, UpsertRequest(index, Recorded(w, index)))
    ensures Ranges(x) && OneIncomplete(x.store) && Owned(x) && Custody(x) && Payments(x) && Conserved(x)
  {
    hide Ranges, Custody, Owned, Payments, Conserved, OneIncomplete, Paid;
    assert x == w.(store := w.store.(requests := x.store.requests));
    hide AfterWrite, CanRecord, Recorded;
    RangesKept(w, x);
    OneIncompleteKept(w.store, x.store);
    OwnedKept(w, x);
    CustodyUntouched(w, x);
    PaymentsSame(w, x);
    PaidSame(w.store, x.store);
    ConservedKept(w, x);
  }

  lemma RecordKeeps(w: World, index: nat)
    requires Inv(w) && CanRecord(w, index)
    ensures Inv(AfterWrite(w, UpsertRequest(index, Recorded(w, index))))
  {
    assert w.snapshots.Keys == w.store.batches.Keys;
    hide Ranges, Stages, Custody, Owned, Payments, RequestsOk, Conserved, OneIncomplete, AfterWrite, CanRecord,
         Recorded;
    RecordKeepsRest(w, AfterWrite(w, UpsertRequest(index, Recorded(w, index))), index);
    RecordKeepsRequests(w, index);
    RecordKeepsStages(w, index);
  }

  lemma BeginKeepsCustody(w: World, sig: Signature, id: ReservationId, r: Reservation, b: Batch)
    requires Custody(w) && CanBegin(w, sig, id, r, b)
    ensures Custody(AfterBegin(w, sig, id, r, b))
  {
    var x := AfterBegin(w, sig, id, r, b);
    forall i | i in x.store.reservations ensures CustodyOf(x, i, x.store.reservations[i]) {
      if i == id {
        SumSame(w.store.utxos, x.store.utxos, r.utxos);
      } else {
        assert CustodyOf(w, i, w.store.reservations[i]);
        CustodyOfKept(w, x, i, w.store.reservations[i], x.store.reservations[i]);
      }
    }
  }

  lemma BeginKeepsRanges(w: World, sig: Signature, id: ReservationId, r: Reservation, b: Batch)
    requires Ranges(w) && CanBegin(w, sig, id, r, b)
    ensures Ranges(AfterBegin(w, sig, id, r, b))
  {
    var x := AfterBegin(w, sig, id, r, b);
    StartedBatchFits(false, w.cursor, |w.requested|);
    ChainedKnown(w.store.batches, w.landed, w.first, w.cursor);
    ChainedKept(w.store.batches, x.store.batches, w.landed, w.first, w.cursor);
    hide Chained;
  }

  lemma BeginKeepsReservations(w: World, sig: Signature, id: ReservationId, r: Reservation, b: Batch, other: Signature)
    requires CanBegin(w, sig, id, r, b) && other in w.store.batches && ReservationOf(w.store, other).Some?
    ensures ReservationOf(AfterBegin(w, sig, id, r, b).store, other) == ReservationOf(w.store, other)
    ensures w.store.batches[other].reservation != Some(id)
  {}

  lemma BeginKeepsOwned(w: World, sig: Signature, id: ReservationId, r: Reservation, b: Batch)
    requires Owned(w) && CanBegin(w, sig, id, r, b)
    ensures Owned(AfterBegin(w, sig, id, r, b))
  {
    var x := AfterBegin(w, sig, id, r, b);
    StartedBatchFits(false, w.cursor, |w.requested|);
    forall other | other in w.store.batches
      ensures ReservationOf(x.store, other) == ReservationOf(w.store, other)
      ensures w.store.batches[other].reservation != Some(id)
    { BeginKeepsReservations(w, sig, id, r, b, other); }
  }

  lemma BeginKeepsRequests(w: World, sig: Signature, id: ReservationId, r: Reservation, b: Batch)
    requires RequestsOk(w) && CanBegin(w, sig, id, r, b)
    ensures RequestsOk(AfterBegin(w, sig, id, r, b))
  {}

  lemma BeginPaysNothing(w: World, sig: Signature, id: ReservationId, r: Reservation, b: Batch)
    requires Owned(w) && CanBegin(w, sig, id, r, b)
    ensures Paid(AfterBegin(w, sig, id, r, b).store) == Paid(w.store)[sig := 0]
  {
    hide Values;
    var x := AfterBegin(w, sig, id, r, b);
    forall other | other in w.store.batches ensures PaidBy(x.store, other) == PaidBy(w.store, other) {
      BeginKeepsReservations(w, sig, id, r, b, other);
    }
  }

  lemma BeginKeepsTotals(w: World, sig: Signature, id: ReservationId, r: Reservation, b: Batch)
    requires Conserved(w) && Owned(w) && CanBegin(w, sig, id, r, b)
    ensures Conserved(AfterBegin(w, sig, id, r, b))
  {
    hide Paid, Owned;
    var x := AfterBegin(w, sig, id, r, b);
    assert Values(x.store.utxos) == Values(w.store.utxos);
    BeginPaysNothing(w, sig, id, r, b);
    assert sig !in Paid(w.store) by { PaidKeys(w.store); }
    TotalUpdate(Paid(w.store), sig, 0);
  }

  lemma PaidKeys(s: StoreState)
    ensures Paid(s).Keys == s.batches.Keys
  {}

  lemma BeginKeepsStages(w: World, sig: Signature, id: ReservationId, r: Reservation, b: Batch)
    requires Stages(w) && w.snapshots.Keys == w.store.batches.Keys && CanBegin(w, sig, id, r, b)
    ensures Stages(AfterBegin(w, sig, id, r, b))
  {
    hide LoadGraph;
    var x := AfterBegin(w, sig, id, r, b);
    forall other | other in w.store.batches && ReservationOf(w.store, other).Some?
      ensures ReservationOf(x.store, other) == ReservationOf(w.store, other)
    { BeginKeepsReservations(w, sig, id, r, b, other); }
    assert StageOk(x, sig);
    hide StageOk;
    IdleStages(w, x);
  }

  lemma BeginKeepsPayments(w: World, sig: Signature, id: ReservationId, r: Reservation, b: Batch)
    requires Payments(w) && CanBegin(w, sig, id, r, b)
    ensures Payments(AfterBegin(w, sig, id, r, b))
  {
    PaymentsKept(w, AfterBegin(w, sig, id, r, b));
  }

  lemma BeginIsOnly(w: World, sig: Signature, id: ReservationId, r: Reservation, b: Batch)
    requires CanBegin(w, sig, id, r, b)
    ensures OneIncomplete(AfterBegin(w, sig, id, r, b).store)
  {
  }

  lemma BeginKeeps(w: World, sig: Signature, id: ReservationId, r: Reservation, b: Batch)
    requires Inv(w) && CanBegin(w, sig, id, r, b)
    ensures Inv(AfterBegin(w, sig, id, r, b))
  {
    assert w.snapshots.Keys == w.store.batches.Keys;
    hide Ranges, Custody, Owned, Conserved, RequestsOk, Stages, Payments, OneIncomplete, AfterBegin, CanBegin;
    BeginKeepsRanges(w, sig, id, r, b);
    BeginKeepsOwned(w, sig, id, r, b);
    BeginKeepsRequests(w, sig, id, r, b);
    BeginKeepsCustody(w, sig, id, r, b);
    BeginKeepsTotals(w, sig, id, r, b);
    BeginKeepsStages(w, sig, id, r, b);
    BeginKeepsPayments(w, sig, id, r, b);
    BeginIsOnly(w, sig, id, r, b);
  }
}
