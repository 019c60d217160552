/** Persisting a signed transaction and marking its custody keep every invariant. */
module SignedSteps {
  import opened Bytes
  import opened Store
  import opened Withdrawal
  import opened BroadcastRecovery
  import opened Machine
  import opened MachineFrames
  import opened ChainSteps
  import opened OperatorSteps

  ghost predicate Persists(w: World, x: World, sig: Signature, v: Write)
  {
    && v.PersistSigned? && sig in w.store.batches && sig in w.snapshots && CanPersistSigned(w, sig, v)
    && w.store.batches[sig].start < w.store.batches[sig].end && x == w.(store := x.store)
    && PersistsTables(w.store, x.store, sig, v)
  }

  ghost predicate PersistsTables(s: StoreState, t: StoreState, sig: Signature, v: Write)
    requires v.PersistSigned? && sig in s.batches && v.id in s.reservations && v.transaction.txid.Some?
    requires s.batches[sig].start < s.batches[sig].end
  {
    var b := s.batches[sig];
    && t.transactions == s.transactions[v.rawHash := v.transaction]
    && t.processes == s.processes[sig := v.process]
    && t.mappings == s.mappings[sig := Mappings(b.start, b.end, v.transaction.txid.value)]
    && t.batches == s.batches[sig := b.(status := Signed)]
    && t.requests == WithRangeStatus(s.requests, b.start, b.end, Signed)
    && t.reservations == s.reservations[v.id := s.reservations[v.id].(request := Some(b.start), process := Some(sig))]
    && t.utxos == LinkSpend(s.utxos, s.reservations[v.id].utxos, b.start, sig)
  }

  lemma PersistEffect(w: World, sig: Signature, v: Write)
    requires v.PersistSigned? && CanOperate(w, sig, v) && Ranges(w)
    ensures Persists(w, AfterWrite(w, v), sig, v)
  {
    hide LoadGraph, WithRangeStatus, LinkSpend, Mappings, Chained;
  }

  lemma PersistKeepsCustody(w: World, x: World, sig: Signature, v: Write)
    requires Persists(w, x, sig, v) && Custody(w)
    ensures Custody(x)
  {
    forall i | i in x.store.reservations ensures CustodyOf(x, i, x.store.reservations[i]) {
      assert CustodyOf(w, i, w.store.reservations[i]);
      CustodyOfKept(w, x, i, w.store.reservations[i], x.store.reservations[i]);
    }
  }

  lemma PersistKeepsTotals(w: World, x: World, sig: Signature, v: Write)
    requires Persists(w, x, sig, v) && Conserved(w)
    ensures Conserved(x)
  {
    PersistPays(w, x, sig, v);
    assert Values(x.store.utxos) == Values(w.store.utxos);
    hide Values, Paid;
    ConservedKept(w, x);
  }

  lemma PersistPays(w: World, x: World, sig: Signature, v: Write)
    requires Persists(w, x, sig, v)
    ensures Paid(x.store) == Paid(w.store)
  {
    hide LinkSpend, WithRangeStatus, Mappings;
  }

  lemma PersistKeepsTxids(w: World, x: World, sig: Signature, v: Write, other: Signature)
    requires Persists(w, x, sig, v) && other != sig
    ensures TxidOf(w.store, other).Some? ==> TxidOf(x.store, other) == TxidOf(w.store, other)
  {}

  lemma PersistKeepsPayments(w: World, x: World, sig: Signature, v: Write)
    requires Persists(w, x, sig, v) && Payments(w)
    ensures Payments(x)
  {
    forall other, txid | Paying(w, other, txid) ensures Paying(x, other, txid) {
      PersistKeepsTxids(w, x, sig, v, other);
      hide TxidOf;
    }
    hide Payments, Paying;
    PaymentsKept(w, x);
  }

  /** The reserved UTXOs become linked and stay where they are. */
  lemma PersistedLinks(w: World, x: World, sig: Signature, v: Write)
    requires Persists(w, x, sig, v) && Custody(w) && RequestsOk(w)
    requires w.store.reservations[v.id].status == Held
    ensures var b, r := w.store.batches[sig], w.store.reservations[v.id];
            && r.utxos != [] && r.spendTxid.None?
            && (forall o :: o in r.utxos ==> o in x.store.utxos && CustodyLinked(x.store.utxos[o], v.id, sig, b.start)
                                             && x.store.utxos[o].status == Reserved && x.store.utxos[o].spendTxid.None?)
            && AllRequests(x.store, b.start, b.end, Signed)
  {
    assert CustodyOf(w, v.id, w.store.reservations[v.id]);
    hide Mappings, Sum;
  }

  lemma PersistedLoads(w: World, x: World, sig: Signature, v: Write)
    requires Persists(w, x, sig, v) && w.store.reservations[v.id].utxos != []
    requires forall o :: o in w.store.reservations[v.id].utxos ==>
               o in x.store.utxos && CustodyLinked(x.store.utxos[o], v.id, sig, w.store.batches[sig].start)
    ensures var b, os := w.store.batches[sig].(status := Signed), w.store.reservations[v.id].utxos;
            && LoadGraph(x.store, sig, b).Ok?
            && var g := LoadGraph(x.store, sig, b).value;
               g.transaction == v.transaction && g.process == v.process
               && g.reservation == x.store.reservations[v.id]
               && g.reservation == w.store.reservations[v.id].(request := g.reservation.request,
                                                               process := g.reservation.process)
               && g.utxos == seq(|os|, k requires 0 <= k < |os| => x.store.utxos[os[k]])
  {
    hide Mappings, LinkSpend, WithRangeStatus, CustodyLinked;
  }

  /** The persisted graph is complete: every link holds and nothing has moved on yet. */
  lemma PersistedIsComplete(w: World, x: World, sig: Signature, v: Write)
    requires Persists(w, x, sig, v) && Custody(w) && RequestsOk(w)
    requires w.store.reservations[v.id].status == Held
    ensures LoadCompleteSigned(x.store, sig, w.store.batches[sig].(status := Signed)).Ok?
    ensures LoadGraph(x.store, sig, w.store.batches[sig].(status := Signed)).Ok?
    ensures var g := LoadGraph(x.store, sig, w.store.batches[sig].(status := Signed)).value;
            g.transaction == v.transaction && g.process == v.process
            && g.reservation.status == Held && g.reservation.selected == w.store.reservations[v.id].selected
            && g.reservation.required == w.store.reservations[v.id].required
  {
    PersistedLinks(w, x, sig, v);
    PersistedLoads(w, x, sig, v);
    hide Custody, RequestsOk, Mappings, AllRequests, LinkSpend, WithRangeStatus, LoadGraph, CustodyLinked,
         PersistsTables;
  }

  lemma PersistStage(w: World, x: World, sig: Signature, v: Write)
    requires Persists(w, x, sig, v) && Custody(w) && RequestsOk(w)
    requires ReservationOf(w.store, sig).Some? && StageOk(w, sig)
    ensures sig in x.store.batches && ReservationOf(x.store, sig).Some? && StageOk(x, sig)
  {
    hide Custody, RequestsOk, LoadGraph, LoadCompleteSigned, LinkSpend, WithRangeStatus, Mappings;
    PersistedIsComplete(w, x, sig, v);
  }

  lemma PersistKeepsOthers(w: World, x: World, sig: Signature, v: Write, other: Signature)
    requires Persists(w, x, sig, v) && Owned(w) && other in w.store.batches && other != sig
    ensures ReservationOf(x.store, other) == ReservationOf(w.store, other)
  {
    OtherReservation(w, sig, other);
    hide Owned, LinkSpend, WithRangeStatus, Mappings;
  }

  lemma PersistKeepsStages(w: World, x: World, sig: Signature, v: Write)
    requires Persists(w, x, sig, v) && Ranges(w) && Custody(w) && RequestsOk(w) && Stages(w)
    requires OneIncomplete(w.store) && Owned(w)
    ensures Stages(x)
  {
    hide Ranges, StageOk, Custody, Owned, OneIncomplete, RequestsOk, TxidOf, Mappings, LinkSpend, WithRangeStatus;
    PersistStage(w, x, sig, v);
    forall other | other in w.store.batches && other != sig
      ensures ReservationOf(x.store, other) == ReservationOf(w.store, other)
      ensures TxidOf(w.store, other).Some? ==> TxidOf(x.store, other) == TxidOf(w.store, other)
    {
      PersistKeepsOthers(w, x, sig, v, other);
      PersistKeepsTxids(w, x, sig, v, other);
    }
    hide Stages, CanPersistSigned;
    OtherStages(w, x, sig);
  }

  lemma PersistIsOne(w: World, x: World, sig: Signature, v: Write)
    requires Persists(w, x, sig, v)
    ensures SameButStatus(w.store, x.store) && SameWorth(w.store, x.store) && Incomplete(w.store.batches[sig])
    ensures x == w.(store := x.store)
    ensures forall other :: other in w.store.batches && other != sig ==>
            x.store.batches[other] == w.store.batches[other]
  {
    hide LinkSpend, WithRangeStatus, Mappings;
  }

  lemma PersistKeepsRanges(w: World, x: World, sig: Signature, v: Write)
    requires Persists(w, x, sig, v) && Ranges(w) && OneIncomplete(w.store) && Owned(w)
    ensures Ranges(x) && OneIncomplete(x.store) && Owned(x)
  {
    assert sig in w.store.batches;
    hide *;
    PersistIsOne(w, x, sig, v);
    CommonKept(w, x, sig);
  }

  lemma PersistKeepsRequests(w: World, x: World, sig: Signature, v: Write)
    requires Persists(w, x, sig, v) && RequestsOk(w)
    ensures RequestsOk(x)
  {
    var b := w.store.batches[sig];
    assert x.store.requests == WithRangeStatus(w.store.requests, b.start, b.end, Signed);
    PersistIsOne(w, x, sig, v);
    hide Persists, RequestsOk, SameButStatus, SameWorth;
    RequestsKept(w, x);
  }

  lemma PersistKeeps(w: World, sig: Signature, v: Write)
    requires Inv(w) && v.PersistSigned? && CanOperate(w, sig, v)
    ensures Inv(AfterWrite(w, v))
  {
    hide *;
    var x := AfterWrite(w, v);
    InvParts(w);
    PersistEffect(w, sig, v);
    PersistKeepsRanges(w, x, sig, v);
    PersistKeepsRequests(w, x, sig, v);
    PersistKeepsCustody(w, x, sig, v);
    PersistKeepsTotals(w, x, sig, v);
    PersistKeepsPayments(w, x, sig, v);
    PersistKeepsStages(w, x, sig, v);
    InvParts(x);
  }

  // ---- Marking custody once Electrs has the transaction ----

  ghost predicate Marks(w: World, x: World, sig: Signature, id: ReservationId, txid: Txid)
  {
    && sig in w.store.batches && sig in w.snapshots && w.store.batches[sig].reservation == Some(id)
    && LoadCompleteSigned(w.store, sig, w.store.batches[sig]).Ok?
    && TxidOf(w.store, sig) == Some(txid) && txid in w.electrs
    && id in w.store.reservations && w.store.reservations[id].status == Held
    && x == AfterWrite(w, MarkReservationBroadcast(id, txid))
    && x == w.(store := w.store.(
         reservations := w.store.reservations[id :=
                                              w.store.reservations[id].(status := Relayed, spendTxid := Some(txid))],
         utxos := SendOff(w.store.utxos, w.store.reservations[id].utxos, txid)))
  }

  lemma MarkEffect(w: World, sig: Signature, id: ReservationId, txid: Txid)
    requires CanOperate(w, sig, MarkReservationBroadcast(id, txid))
    ensures Marks(w, AfterWrite(w, MarkReservationBroadcast(id, txid)), sig, id, txid)
  {
    GraphReservation(w.store, sig);
    hide LoadGraph, SendOff, TxidOf;
  }

  lemma MarkKeepsCustody(w: World, x: World, sig: Signature, id: ReservationId, txid: Txid)
    requires Marks(w, x, sig, id, txid) && Custody(w)
    ensures Custody(x)
  {
    hide LoadGraph, LoadCompleteSigned, TxidOf, AfterWrite;
    var r := w.store.reservations[id];
    assert CustodyOf(w, id, r);
    forall i | i in x.store.reservations ensures CustodyOf(x, i, x.store.reservations[i]) {
      assert CustodyOf(w, i, w.store.reservations[i]);
      if i == id {
        SumSame(w.store.utxos, x.store.utxos, r.utxos);
      } else {
        CustodyOfKept(w, x, i, w.store.reservations[i], x.store.reservations[i]);
      }
    }
  }

  lemma MarkKeepsTotals(w: World, x: World, sig: Signature, id: ReservationId, txid: Txid)
    requires Marks(w, x, sig, id, txid) && Custody(w) && Conserved(w)
    ensures Conserved(x)
  {
    hide LoadGraph, LoadCompleteSigned, TxidOf, AfterWrite;
    assert CustodyOf(w, id, w.store.reservations[id]);
    hide Custody;
    assert Values(x.store.utxos) == Values(w.store.utxos);
    assert Paid(x.store) == Paid(w.store) by { hide SendOff, Values; }
    hide Values, Paid, Marks;
    ConservedKept(w, x);
  }

  lemma MarkStage(w: World, x: World, sig: Signature, id: ReservationId, txid: Txid)
    requires Marks(w, x, sig, id, txid) && ReservationOf(w.store, sig).Some? && StageOk(w, sig)
    ensures ReservationOf(x.store, sig).Some? && StageOk(x, sig)
  {
    var b := w.store.batches[sig];
    assert b.status == Signed by { hide LoadGraph; }
    GraphFields(w.store, sig, b);
    MarkKeepsGraph(w.store, sig, b, txid);
    hide LoadGraph, LoadCompleteSigned, SendOff, ApplyMarkBroadcast;
  }

  lemma MarkIsOne(w: World, x: World, sig: Signature, id: ReservationId, txid: Txid)
    requires Marks(w, x, sig, id, txid)
    ensures x == w.(store := x.store) && SameButStatus(w.store, x.store) && SameWorth(w.store, x.store)
    ensures Incomplete(w.store.batches[sig])
    ensures x.store.batches == w.store.batches && x.store.requests == w.store.requests
    ensures x.store.processes == w.store.processes && x.store.transactions == w.store.transactions
  {
    hide LoadGraph, SendOff, TxidOf, AfterWrite;
  }

  lemma MarkKeepsOthers(w: World, x: World, sig: Signature, id: ReservationId, txid: Txid, other: Signature)
    requires Marks(w, x, sig, id, txid) && Owned(w) && other in w.store.batches && other != sig
    ensures ReservationOf(x.store, other) == ReservationOf(w.store, other)
  {
    OtherReservation(w, sig, other);
    hide Owned, LoadGraph, LoadCompleteSigned, SendOff, TxidOf, AfterWrite;
  }

  lemma MarkKeepsStages(w: World, x: World, sig: Signature, id: ReservationId, txid: Txid)
    requires Marks(w, x, sig, id, txid) && Stages(w) && OneIncomplete(w.store) && Owned(w)
    requires w.snapshots.Keys == w.store.batches.Keys
    ensures Stages(x)
  {
    MarkIsOne(w, x, sig, id, txid);
    hide LoadGraph, LoadCompleteSigned, SendOff, AfterWrite, Owned, StageOk, OneIncomplete;
    MarkStage(w, x, sig, id, txid);
    forall other | other in w.store.batches && other != sig
      ensures ReservationOf(x.store, other) == ReservationOf(w.store, other)
    { MarkKeepsOthers(w, x, sig, id, txid, other); }
    hide Stages, Marks;
    OtherStages(w, x, sig);
  }

  lemma MarkKeepsRest(w: World, x: World, sig: Signature, id: ReservationId, txid: Txid)
    requires Marks(w, x, sig, id, txid) && Ranges(w) && OneIncomplete(w.store) && Owned(w)
    ensures Ranges(x) && OneIncomplete(x.store) && Owned(x)
  {
    assert sig in w.store.batches;
    hide *;
    MarkIsOne(w, x, sig, id, txid);
    CommonKept(w, x, sig);
  }

  lemma MarkKeepsTables(w: World, x: World, sig: Signature, id: ReservationId, txid: Txid)
    requires Marks(w, x, sig, id, txid) && RequestsOk(w) && Payments(w)
    ensures RequestsOk(x) && Payments(x)
  {
    hide *;
    MarkIsOne(w, x, sig, id, txid);
    RequestsKept(w, x);
    PaymentsSame(w, x);
  }

  lemma MarkKeeps(w: World, sig: Signature, id: ReservationId, txid: Txid)
    requires Inv(w) && CanOperate(w, sig, MarkReservationBroadcast(id, txid))
    ensures Inv(AfterWrite(w, MarkReservationBroadcast(id, txid)))
  {
    assert w.snapshots.Keys == w.store.batches.Keys;
    hide *;
    var x := AfterWrite(w, MarkReservationBroadcast(id, txid));
    InvParts(w);
    MarkEffect(w, sig, id, txid);
    MarkKeepsRest(w, x, sig, id, txid);
    MarkKeepsTables(w, x, sig, id, txid);
    MarkKeepsCustody(w, x, sig, id, txid);
    MarkKeepsTotals(w, x, sig, id, txid);
    MarkKeepsStages(w, x, sig, id, txid);
    InvParts(x);
  }
}
