/** The operator's durable writes keep every invariant. */
module OperatorSteps {
  import opened Bytes
  import opened Store
  import opened Withdrawal
  import opened BroadcastRecovery
  import opened Machine
  import opened MachineFrames
  import opened ChainSteps

  lemma OperatesIncomplete(w: World, sig: Signature, v: Write)
    requires CanOperate(w, sig, v)
    ensures sig in w.store.batches && Incomplete(w.store.batches[sig]) && sig in w.snapshots
    ensures ReservationOf(w.store, sig).Some?
  {
    hide LoadGraph;
  }

  /** A write for one incomplete batch that finishes no batch and touches no custody. */
  ghost predicate TouchesOne(w: World, x: World, sig: Signature)
  {
    && x == w.(store := x.store)
    && x.store.reservations == w.store.reservations && x.store.utxos == w.store.utxos
    && SameButStatus(w.store, x.store)
    && sig in w.store.batches && Incomplete(w.store.batches[sig]) && x.store.batches[sig].status != Confirmed
    && (forall other :: other in w.store.batches && other != sig ==> x.store.batches[other] == w.store.batches[other])
    && x.store.requests.Keys == w.store.requests.Keys
    && (forall i :: i in w.store.requests ==> x.store.requests[i].record == w.store.requests[i].record)
  }

  lemma InvParts(w: World)
    ensures Inv(w) <==> Ranges(w) && OneIncomplete(w.store) && Owned(w) && Custody(w) && Stages(w) && RequestsOk(w)
                        && Payments(w) && Conserved(w)
  {
    hide Ranges, OneIncomplete, Owned, Custody, RequestsOk, Payments, Stages, Conserved;
  }

  /** The invariants about ranges, ownership and payments under a write for one incomplete batch. */
  lemma CommonKept(w: World, x: World, sig: Signature)
    requires Ranges(w) && OneIncomplete(w.store) && Owned(w)
    requires x == w.(store := x.store) && SameButStatus(w.store, x.store) && SameWorth(w.store, x.store)
    requires sig in w.store.batches && Incomplete(w.store.batches[sig])
    requires forall other :: other in w.store.batches && other != sig ==>
             x.store.batches[other] == w.store.batches[other]
    ensures Ranges(x) && OneIncomplete(x.store) && Owned(x)
  {
    hide Ranges, Owned;
    RangesKept(w, x);
    OwnedKept(w, x);
    OneIncompleteKept(w.store, x.store);
  }

  lemma TouchingKeeps(w: World, x: World, sig: Signature)
    requires Inv(w) && TouchesOne(w, x, sig)
    ensures Ranges(x) && OneIncomplete(x.store) && Owned(x) && Custody(x) && RequestsOk(x) && Conserved(x)
  {
    hide Ranges, OneIncomplete, Owned, Custody, RequestsOk, Conserved, Paid, Stages, Payments;
    CommonKept(w, x, sig);
    RequestsKept(w, x);
    CustodyUntouched(w, x);
    PaidBesideOne(w, x, sig);
    ConservedKept(w, x);
  }

  lemma PaidBesideOne(w: World, x: World, sig: Signature)
    requires x.store.reservations == w.store.reservations && SameButStatus(w.store, x.store)
    requires sig in w.store.batches && w.store.batches[sig].status != Confirmed
             && x.store.batches[sig].status != Confirmed
    requires forall other :: other in w.store.batches && other != sig ==>
             x.store.batches[other] == w.store.batches[other]
    ensures Paid(x.store) == Paid(w.store)
  {}

  lemma OtherReservation(w: World, sig: Signature, other: Signature)
    requires Owned(w) && sig in w.store.batches && other in w.store.batches && other != sig
    ensures w.store.batches[sig].reservation.Some? && w.store.batches[other].reservation.Some?
    ensures w.store.batches[other].reservation.value != w.store.batches[sig].reservation.value
    ensures w.store.batches[other].reservation.value in w.store.reservations
  {
    assert ReservationOf(w.store, sig).Some? && ReservationOf(w.store, other).Some?;
  }

  // ---- Releasing custody ----

  lemma ReleaseKeepsCustody(w: World, sig: Signature, id: ReservationId)
    requires Custody(w) && CanOperate(w, sig, ReleaseReservation(id))
    ensures Custody(AfterWrite(w, ReleaseReservation(id)))
  {
    var x := AfterWrite(w, ReleaseReservation(id));
    var r := w.store.reservations[id];
    assert CustodyOf(w, id, r);
    forall i | i in x.store.reservations ensures CustodyOf(x, i, x.store.reservations[i]) {
      assert CustodyOf(w, i, w.store.reservations[i]);
      if i == id {
        SumSame(w.store.utxos, x.store.utxos, r.utxos);
      } else {
        CustodyOfKept(w, x, i, w.store.reservations[i], x.store.reservations[i]);
      }
    }
  }

  lemma ReleaseKeepsTotals(w: World, sig: Signature, id: ReservationId)
    requires Conserved(w) && Custody(w) && CanOperate(w, sig, ReleaseReservation(id))
    ensures Conserved(AfterWrite(w, ReleaseReservation(id)))
  {
    var x := AfterWrite(w, ReleaseReservation(id));
    assert CustodyOf(w, id, w.store.reservations[id]);
    hide CanOperate;
    assert Values(x.store.utxos) == Values(w.store.utxos);
    assert Paid(x.store) == Paid(w.store);
  }

  lemma ReleaseKeepsStages(w: World, sig: Signature, id: ReservationId)
    requires Stages(w) && OneIncomplete(w.store) && Owned(w) && CanOperate(w, sig, ReleaseReservation(id))
    ensures Stages(AfterWrite(w, ReleaseReservation(id)))
  {
    var x := AfterWrite(w, ReleaseReservation(id));
    hide LoadGraph;
    assert StageOk(w, sig);
    forall other | other in w.store.batches && other != sig
      ensures ReservationOf(x.store, other) == ReservationOf(w.store, other)
    { OtherReservation(w, sig, other); }
    assert StageOk(x, sig);
    hide StageOk, Owned, Stages;
    OtherStages(w, x, sig);
  }

  lemma ReleaseKeepsRest(w: World, x: World, sig: Signature, id: ReservationId)
    requires Ranges(w) && OneIncomplete(w.store) && Owned(w) && RequestsOk(w) && Payments(w)
    requires sig in w.store.batches && Incomplete(w.store.batches[sig]) && x == AfterWrite(w, ReleaseReservation(id))
    ensures Ranges(x) && OneIncomplete(x.store) && Owned(x) && RequestsOk(x) && Payments(x)
  {
    hide Ranges, OneIncomplete, Owned, RequestsOk, Payments, Release, Incomplete;
    assert x == w.(store := x.store) && SameButStatus(w.store, x.store) && SameWorth(w.store, x.store);
    assert x.store.batches == w.store.batches && x.store.requests == w.store.requests;
    hide AfterWrite, SameWorth;
    CommonKept(w, x, sig);
    RequestsKept(w, x);
    PaymentsSame(w, x);
  }

  lemma ReleaseKeeps(w: World, sig: Signature, id: ReservationId)
    requires Inv(w) && CanOperate(w, sig, ReleaseReservation(id))
    ensures Inv(AfterWrite(w, ReleaseReservation(id)))
  {
    hide *;
    var x := AfterWrite(w, ReleaseReservation(id));
    OperatesIncomplete(w, sig, ReleaseReservation(id));
    InvParts(w);
    ReleaseKeepsRest(w, x, sig, id);
    ReleaseKeepsCustody(w, sig, id);
    ReleaseKeepsTotals(w, sig, id);
    ReleaseKeepsStages(w, sig, id);
    InvParts(x);
  }

  // ---- Batch statuses ----

  lemma BatchStatusKeepsStage(w: World, sig: Signature, status: OperatorStatus)
    requires Stages(w) && Owned(w) && CanOperate(w, sig, SetBatchStatus(sig, status))
    ensures ReservationOf(AfterWrite(w, SetBatchStatus(sig, status)).store, sig).Some?
    ensures StageOk(AfterWrite(w, SetBatchStatus(sig, status)), sig)
  {
    var x := AfterWrite(w, SetBatchStatus(sig, status));
    var b := w.store.batches[sig];
    assert StageOk(w, sig) && b.unsigned.Some?;
    if status == Broadcast {
      GraphIgnoresStatus(w.store, sig, b, b.(status := Broadcast));
      GraphReads(w.store, x.store, sig, b.(status := Broadcast));
    }
    hide LoadGraph;
  }

  /** The graph does not read the batch table. */
  lemma GraphReads(s: StoreState, t: StoreState, sig: Signature, b: Batch)
    requires t == s.(batches := t.batches, requests := t.requests)
    ensures LoadGraph(t, sig, b) == LoadGraph(s, sig, b)
  {
    hide Mappings;
    if b.reservation.Some? && b.reservation.value in s.reservations && LoadGraph(s, sig, b).Ok? {
      GraphKept(s, t, sig, b);
    }
  }

  lemma BatchStatusPayments(w: World, sig: Signature, status: OperatorStatus)
    requires Payments(w) && CanOperate(w, sig, SetBatchStatus(sig, status))
    ensures Payments(AfterWrite(w, SetBatchStatus(sig, status)))
  {
    hide LoadGraph;
    PaymentsKept(w, AfterWrite(w, SetBatchStatus(sig, status)));
  }

  lemma BatchStatusKeepsStages(w: World, sig: Signature, status: OperatorStatus)
    requires Stages(w) && OneIncomplete(w.store) && Owned(w) && CanOperate(w, sig, SetBatchStatus(sig, status))
    requires w.snapshots.Keys == w.store.batches.Keys
    ensures Stages(AfterWrite(w, SetBatchStatus(sig, status)))
  {
    hide StageOk, Owned, Stages, CanOperate, OneIncomplete, Incomplete;
    var x := AfterWrite(w, SetBatchStatus(sig, status));
    OperatesIncomplete(w, sig, SetBatchStatus(sig, status));
    BatchStatusKeepsStage(w, sig, status);
    assert x.store.batches.Keys == w.store.batches.Keys;
    OtherStages(w, x, sig);
  }

  lemma BatchStatusTouches(w: World, sig: Signature, status: OperatorStatus)
    requires CanOperate(w, sig, SetBatchStatus(sig, status))
    ensures TouchesOne(w, AfterWrite(w, SetBatchStatus(sig, status)), sig)
  {
    hide LoadGraph, BroadcastIntact;
  }

  lemma BatchStatusKeeps(w: World, sig: Signature, status: OperatorStatus)
    requires Inv(w) && CanOperate(w, sig, SetBatchStatus(sig, status))
    ensures Inv(AfterWrite(w, SetBatchStatus(sig, status)))
  {
    assert w.snapshots.Keys == w.store.batches.Keys;
    hide *;
    var x := AfterWrite(w, SetBatchStatus(sig, status));
    InvParts(w);
    BatchStatusTouches(w, sig, status);
    TouchingKeeps(w, x, sig);
    BatchStatusPayments(w, sig, status);
    BatchStatusKeepsStages(w, sig, status);
    InvParts(x);
  }

  // ---- Request statuses ----

  lemma RequestStatusKeepsStage(w: World, sig: Signature, index: nat, status: OperatorStatus)
    requires Stages(w) && CanOperate(w, sig, SetRequestStatus(index, status))
    ensures ReservationOf(AfterWrite(w, SetRequestStatus(index, status)).store, sig).Some?
    ensures StageOk(AfterWrite(w, SetRequestStatus(index, status)), sig)
  {
    var x := AfterWrite(w, SetRequestStatus(index, status));
    assert StageOk(w, sig);
    GraphReads(w.store, x.store, sig, w.store.batches[sig]);
    GraphReservation(w.store, sig);
    hide LoadGraph;
  }

  lemma GraphReservation(s: StoreState, sig: Signature)
    requires sig in s.batches
    ensures LoadGraph(s, sig, s.batches[sig]).Ok? ==>
              ReservationOf(s, sig) == Some(LoadGraph(s, sig, s.batches[sig]).value.reservation)
  {
    hide Mappings;
  }

  lemma RequestStatusTouches(w: World, sig: Signature, index: nat, status: OperatorStatus)
    requires CanOperate(w, sig, SetRequestStatus(index, status))
    ensures TouchesOne(w, AfterWrite(w, SetRequestStatus(index, status)), sig)
  {
    hide LoadGraph;
  }

  lemma RequestStatusKeepsStages(w: World, sig: Signature, index: nat, status: OperatorStatus)
    requires Stages(w) && OneIncomplete(w.store) && CanOperate(w, sig, SetRequestStatus(index, status))
    requires w.snapshots.Keys == w.store.batches.Keys
    ensures Stages(AfterWrite(w, SetRequestStatus(index, status)))
    ensures Payments(w) ==> Payments(AfterWrite(w, SetRequestStatus(index, status)))
  {
    var x := AfterWrite(w, SetRequestStatus(index, status));
    OperatesIncomplete(w, sig, SetRequestStatus(index, status));
    RequestStatusKeepsStage(w, sig, index, status);
    hide StageOk, Stages, CanOperate, OneIncomplete, Incomplete, Payments;
    OtherStages(w, x, sig);
    if Payments(w) { PaymentsSame(w, x); }
  }

  lemma RequestStatusKeeps(w: World, sig: Signature, index: nat, status: OperatorStatus)
    requires Inv(w) && CanOperate(w, sig, SetRequestStatus(index, status))
    ensures Inv(AfterWrite(w, SetRequestStatus(index, status)))
  {
    assert w.snapshots.Keys == w.store.batches.Keys;
    hide *;
    var x := AfterWrite(w, SetRequestStatus(index, status));
    InvParts(w);
    RequestStatusTouches(w, sig, index, status);
    TouchingKeeps(w, x, sig);
    RequestStatusKeepsStages(w, sig, index, status);
    InvParts(x);
  }

  // ---- Transaction and process statuses ----

  ghost predicate StatusOnly(w: World, v: Write)
  {
    (v.SetTransactionStatus? || v.SetProcessStatus?) && v.status == Broadcast
  }

  lemma StatusKeepsTxid(w: World, sig: Signature, v: Write, other: Signature)
    requires StatusOnly(w, v)
    ensures TxidOf(AfterWrite(w, v).store, other) == TxidOf(w.store, other)
  {}

  lemma StatusKeepsStage(w: World, sig: Signature, v: Write)
    requires Stages(w) && StatusOnly(w, v) && CanOperate(w, sig, v)
    ensures ReservationOf(AfterWrite(w, v).store, sig).Some?
    ensures StageOk(AfterWrite(w, v), sig)
  {
    var x := AfterWrite(w, v);
    var b := w.store.batches[sig];
    assert StageOk(w, sig) && b.status == Signed;
    StatusKeepsLinks(w.store, v);
    GraphReservation(w.store, sig);
    hide LoadGraph, LoadCompleteSigned;
    LinksKeepGraph(w.store, x.store, sig, b);
    StatusKeepsRecord(w, sig, v);
  }

  lemma StatusKeepsRecord(w: World, sig: Signature, v: Write)
    requires StatusOnly(w, v) && sig in w.store.processes
    ensures sig in AfterWrite(w, v).store.processes
    ensures var p := AfterWrite(w, v).store.processes[sig];
            p == w.store.processes[sig].(status := p.status)
  {}

  lemma StatusTouches(w: World, sig: Signature, v: Write)
    requires StatusOnly(w, v) && CanOperate(w, sig, v)
    ensures TouchesOne(w, AfterWrite(w, v), sig)
  {
    hide LoadGraph;
  }

  lemma StatusKeepsStages(w: World, sig: Signature, v: Write)
    requires Stages(w) && OneIncomplete(w.store) && StatusOnly(w, v) && CanOperate(w, sig, v)
    requires w.snapshots.Keys == w.store.batches.Keys
    ensures Stages(AfterWrite(w, v))
    ensures Payments(w) ==> Payments(AfterWrite(w, v))
  {
    var x := AfterWrite(w, v);
    OperatesIncomplete(w, sig, v);
    StatusKeepsStage(w, sig, v);
    forall other ensures TxidOf(x.store, other) == TxidOf(w.store, other) { StatusKeepsTxid(w, sig, v, other); }
    hide StageOk, Stages, CanOperate, OneIncomplete, Incomplete, Payments, TxidOf;
    OtherStages(w, x, sig);
    if Payments(w) { PaymentsKept(w, x); }
  }

  lemma StatusKeeps(w: World, sig: Signature, v: Write)
    requires Inv(w) && StatusOnly(w, v) && CanOperate(w, sig, v)
    ensures Inv(AfterWrite(w, v))
  {
    assert w.snapshots.Keys == w.store.batches.Keys;
    hide *;
    var x := AfterWrite(w, v);
    InvParts(w);
    StatusTouches(w, sig, v);
    TouchingKeeps(w, x, sig);
    StatusKeepsStages(w, sig, v);
    InvParts(x);
  }
}
