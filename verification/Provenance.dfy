/** What a batch was begun and signed with stays what it was: its payload pays its requests, and its
    unsigned and signed bytes have passed the operator's rules for its payload and reservation. */
module Provenance {
  import opened Bytes
  import opened OperatorRows
  import opened Store
  import opened Withdrawal
  import opened Machine
  import opened OperatorSteps
  import opened Runs

  // ---- The columns that nothing changes ----

  /** Batches up to their status, what reservations are worth and hold, and the rows of UTXOs. */
  ghost predicate KeepsColumns(s: StoreState, t: StoreState)
  {
    && (forall sig :: sig in s.batches ==>
          sig in t.batches && t.batches[sig] == s.batches[sig].(status := t.batches[sig].status))
    && (forall id :: id in s.reservations ==>
          && id in t.reservations && t.reservations[id].required == s.reservations[id].required
          && t.reservations[id].selected == s.reservations[id].selected
          && t.reservations[id].utxos == s.reservations[id].utxos)
    && (forall o :: o in s.utxos ==> o in t.utxos && t.utxos[o].row == s.utxos[o].row)
  }

  lemma {:induction false} RowsKept(u: map<Outpoint, Utxo>, v: map<Outpoint, Utxo>, os: seq<Outpoint>)
    requires forall o :: o in os ==> o in u && o in v && v[o].row == u[o].row
    ensures Rows(v, os) == Rows(u, os)
  {
    if os != [] { RowsKept(u, v, os[1..]); }
  }

  lemma LoadedKept(w: World, x: World, id: ReservationId)
    requires Custody(w) && KeepsColumns(w.store, x.store) && id in w.store.reservations
    ensures Loaded(x.store, id) == Loaded(w.store, id)
  {
    assert CustodyOf(w, id, w.store.reservations[id]);
    hide Custody, CustodyOf, Rows;
    RowsKept(w.store.utxos, x.store.utxos, w.store.reservations[id].utxos);
  }

  lemma WriteKeepsColumns(w: World, sig: Signature, v: Write)
    requires CanOperate(w, sig, v)
    ensures KeepsColumns(w.store, AfterWrite(w, v).store)
  {
    hide LoadGraph, BroadcastIntact, LoadCompleteSigned, WithRangeStatus, WithTransactionStatus, WithProcessStatus,
         WithRequestStatus, Mappings, Loaded, ChangeOf, TxidOf, ChangeMatches;
  }

  /** A transaction stays linked to its batch, with its bytes and identifier. */
  ghost predicate KeepsTransaction(s: StoreState, t: StoreState, sig: Signature)
  {
    LinkedTx(s, sig).Some? ==>
      && LinkedTx(t, sig).Some?
      && LinkedTx(t, sig).value == LinkedTx(s, sig).value.(status := LinkedTx(t, sig).value.status)
  }

  lemma WriteKeepsTransaction(w: World, sig: Signature, v: Write, other: Signature)
    requires CanOperate(w, sig, v) && (v.PersistSigned? ==> other != sig)
    ensures KeepsTransaction(w.store, AfterWrite(w, v).store, other)
  {
    hide LoadGraph, BroadcastIntact, LoadCompleteSigned, WithRangeStatus, Mappings, Loaded, LinkSpend, Consume, Release,
         SendOff;
  }

  // ---- The invariant ----

  predicate Carries(status: OperatorStatus) { status in {Signed, Broadcast, Confirmed} }

  ghost predicate GenuineTransaction(w: World, b: Batch, r: CustodyReservation, t: DogeTx)
  {
    && b.unsigned.Some? && t.raw.Some? && t.txid == Some(w.hashes.doubleSha256(t.raw.value))
    && w.rules.signed(b.payload, r, b.unsigned.value, t.raw.value)
  }

  ghost predicate GenuineBatch(w: World, sig: Signature)
    requires sig in w.store.batches
  {
    var b := w.store.batches[sig];
    && b.reservation.Some? && b.reservation.value in w.store.reservations && b.unsigned.Some?
    && b.start <= b.end <= |w.requested| && FulfilsAll(w.requested[b.start..b.end], b.payload.outputs)
    && var r := Loaded(w.store, b.reservation.value);
       && w.rules.prepared(b.payload, r, b.unsigned.value)
       && (Carries(b.status) ==>
             LinkedTx(w.store, sig).Some? && GenuineTransaction(w, b, r, LinkedTx(w.store, sig).value))
  }

  /** UTXOs are stored under their own outpoints. */
  ghost predicate Keyed(utxos: map<Outpoint, Utxo>)
  { forall o :: o in utxos ==> OutpointOf(utxos[o].row) == o }

  ghost predicate Genuine(w: World)
  { Keyed(w.store.utxos) && forall sig :: sig in w.store.batches ==> GenuineBatch(w, sig) }

  ghost predicate SameRules(w: World, x: World)
  {
    && x.rules == w.rules && x.hashes == w.hashes
    && |w.requested| <= |x.requested| && x.requested[..|w.requested|] == w.requested
  }

  lemma BatchKept(w: World, x: World, sig: Signature)
    requires Custody(w) && sig in w.store.batches && GenuineBatch(w, sig)
    requires KeepsColumns(w.store, x.store) && SameRules(w, x)
    requires Carries(x.store.batches[sig].status) ==>
               Carries(w.store.batches[sig].status) && KeepsTransaction(w.store, x.store, sig)
    ensures GenuineBatch(x, sig)
  {
    var b := w.store.batches[sig];
    LoadedKept(w, x, b.reservation.value);
    hide Custody, Loaded, FulfilsAll, LinkedTx;
    SliceKept(w.requested, x.requested, b.start, b.end);
  }

  lemma SliceKept<T>(s: seq<T>, t: seq<T>, start: nat, end: nat)
    requires start <= end <= |s| <= |t| && t[..|s|] == s
    ensures t[start..end] == s[start..end]
  {
    forall k | 0 <= k < end - start ensures t[start..end][k] == s[start..end][k] {
      assert t[start + k] == t[..|s|][start + k];
    }
  }

  /** Old batches keep their transactions, and any new one is genuine. */
  lemma AllKept(w: World, x: World)
    requires Custody(w) && Genuine(w) && KeepsColumns(w.store, x.store) && SameRules(w, x)
    requires x.store.processes == w.store.processes && x.store.transactions == w.store.transactions
    requires forall sig :: sig in w.store.batches ==> x.store.batches[sig] == w.store.batches[sig]
    requires forall sig :: sig in x.store.batches && sig !in w.store.batches ==> GenuineBatch(x, sig)
    requires Keyed(x.store.utxos)
    ensures Genuine(x)
  {
    hide Custody, KeepsColumns, SameRules, GenuineBatch;
    forall sig | sig in x.store.batches ensures GenuineBatch(x, sig) {
      if sig in w.store.batches { BatchKept(w, x, sig); }
    }
  }

  // ---- Every step keeps it ----

  lemma WriteKeepsKeys(w: World, sig: Signature, v: Write)
    requires CanOperate(w, sig, v) && Keyed(w.store.utxos)
    ensures Keyed(AfterWrite(w, v).store.utxos)
  {
    hide LoadGraph, BroadcastIntact, LoadCompleteSigned, WithRangeStatus, Mappings, Loaded;
  }

  lemma CarriesOn(w: World, sig: Signature, v: Write, other: Signature)
    requires CanOperate(w, sig, v) && other in w.store.batches && (v.PersistSigned? ==> other != sig)
    requires other in AfterWrite(w, v).store.batches && Carries(AfterWrite(w, v).store.batches[other].status)
    ensures Carries(w.store.batches[other].status)
  {
    hide LoadGraph, BroadcastIntact, LoadCompleteSigned, WithRangeStatus, Mappings, Loaded, LinkSpend, Consume, Release,
         SendOff;
  }

  lemma PersistIsGenuine(w: World, sig: Signature, v: Write)
    requires Custody(w) && CanOperate(w, sig, v) && v.PersistSigned? && GenuineBatch(w, sig)
    requires w.store.batches[sig].start <= w.store.batches[sig].end
    ensures sig in AfterWrite(w, v).store.batches && GenuineBatch(AfterWrite(w, v), sig)
  {
    hide Custody, LoadGraph, WithRangeStatus, LinkSpend, Mappings, Loaded, KeepsColumns, FulfilsAll;
    WriteKeepsColumns(w, sig, v);
    LoadedKept(w, AfterWrite(w, v), v.id);
  }

  lemma OperateIsGenuine(w: World, sig: Signature, v: Write)
    requires Inv(w) && Genuine(w) && CanOperate(w, sig, v)
    ensures Genuine(AfterWrite(w, v))
  {
    var x := AfterWrite(w, v);
    InvParts(w);
    WriteKeepsColumns(w, sig, v);
    WriteKeepsKeys(w, sig, v);
    OperatedKeys(w, sig, v);
    OperatesIncomplete(w, sig, v);
    hide Inv, Custody, CanOperate, AfterWrite, Keyed, GenuineBatch, Carries, Ranges, Stages, Owned, Conserved, Payments,
         RequestsOk, OneIncomplete, KeepsTransaction;
    forall other | other in x.store.batches ensures GenuineBatch(x, other) {
      assert GenuineBatch(w, other);
      if v.PersistSigned? && other == sig {
        BatchBounds(w, sig);
        PersistIsGenuine(w, sig, v);
      } else {
        if Carries(x.store.batches[other].status) { CarriesOn(w, sig, v, other); }
        WriteKeepsTransaction(w, sig, v, other);
        BatchKept(w, x, other);
      }
    }
  }

  lemma BatchBounds(w: World, sig: Signature)
    requires Ranges(w) && sig in w.store.batches
    ensures w.store.batches[sig].start < w.store.batches[sig].end
  {
    hide Chained;
  }

  lemma OperatedKeys(w: World, sig: Signature, v: Write)
    requires CanOperate(w, sig, v)
    ensures AfterWrite(w, v).store.batches.Keys == w.store.batches.Keys
    ensures SameRules(w, AfterWrite(w, v))
  {
    hide LoadGraph, BroadcastIntact, LoadCompleteSigned, WithRangeStatus, Mappings, Loaded, LinkSpend, Consume, Release,
         SendOff;
  }

  lemma DepositIsGenuine(w: World, row: CustodyUtxo)
    requires Inv(w) && Genuine(w) && OutpointOf(row) !in w.store.utxos
    ensures Genuine(AfterDeposit(w, row))
  {
    hide Ranges, Stages, Owned, Conserved, Payments, RequestsOk, OneIncomplete, GenuineBatch, Custody;
    AllKept(w, AfterDeposit(w, row));
  }

  lemma BeginKeepsColumns(w: World, sig: Signature, id: ReservationId, r: Reservation, b: Batch)
    requires CanBegin(w, sig, id, r, b)
    ensures var x := AfterBegin(w, sig, id, r, b);
            && KeepsColumns(w.store, x.store) && SameRules(w, x)
            && x.store.batches == w.store.batches[sig := b]
            && x.store.processes == w.store.processes && x.store.transactions == w.store.transactions
            && (Genuine(w) ==> Keyed(x.store.utxos)) && sig !in w.store.batches
  {
    hide Joined, Sum, SumRequested, FulfilsAll, NoneIncomplete, GenuineBatch;
  }

  lemma BeginIsGenuine(w: World, sig: Signature, id: ReservationId, r: Reservation, b: Batch)
    requires Inv(w) && Genuine(w) && CanBegin(w, sig, id, r, b)
    ensures Genuine(AfterBegin(w, sig, id, r, b))
  {
    hide *;
    var x := AfterBegin(w, sig, id, r, b);
    InvParts(w);
    BeginKeepsColumns(w, sig, id, r, b);
    BeginRows(w, sig, id, r, b);
    NewIsGenuine(w, x, sig, id, r, b);
    AllKept(w, x);
  }

  lemma BeginRows(w: World, sig: Signature, id: ReservationId, r: Reservation, b: Batch)
    requires CanBegin(w, sig, id, r, b)
    ensures Rows(AfterBegin(w, sig, id, r, b).store.utxos, r.utxos) == Rows(w.store.utxos, r.utxos)
  {
    hide Joined, Sum, SumRequested, FulfilsAll, NoneIncomplete, Rows;
    RowsKept(w.store.utxos, AfterBegin(w, sig, id, r, b).store.utxos, r.utxos);
  }

  lemma NewIsGenuine(w: World, x: World, sig: Signature, id: ReservationId, r: Reservation, b: Batch)
    requires CanBegin(w, sig, id, r, b) && x == AfterBegin(w, sig, id, r, b)
    requires Rows(x.store.utxos, r.utxos) == Rows(w.store.utxos, r.utxos)
    ensures sig in x.store.batches && GenuineBatch(x, sig)
  {
    hide Rows, Reserve, FulfilsAll, Sum, SumRequested;
  }

  lemma StepIsGenuine(w: World, step: Step)
    requires Inv(w) && Genuine(w) && Enabled(w, step)
    ensures Genuine(Next(w, step))
  {
    InvParts(w);
    hide Inv, Custody, CanOperate, CanBegin, CanRecord, CanSubmit, CanLand, Undecided, GenuineBatch, Genuine;
    if step.Deposit? {
      DepositIsGenuine(w, step.row);
    } else if step.Begin? {
      BeginIsGenuine(w, step.sig, step.id, step.reservation, step.batch);
    } else if step.Operate? {
      OperateIsGenuine(w, step.sig, step.write);
    } else {
      QuietStep(w, step);
      QuietIsGenuine(w, Next(w, step));
    }
  }

  /** The other steps touch neither UTXOs, reservations nor transactions. */
  ghost predicate Quiet(w: World, x: World)
  {
    && SameRules(w, x) && x.store == w.store.(requests := x.store.requests)
  }

  lemma QuietStep(w: World, step: Step)
    requires Enabled(w, step) && !step.Deposit? && !step.Begin? && !step.Operate?
    ensures Quiet(w, Next(w, step))
  {
    hide CanRecord, CanSubmit, CanLand, Undecided, Recorded, TxidOf;
  }

  lemma QuietIsGenuine(w: World, x: World)
    requires Custody(w) && Genuine(w) && Quiet(w, x)
    ensures Genuine(x)
  {
    hide Custody, GenuineBatch;
    AllKept(w, x);
  }

  lemma {:induction false} RunIsGenuine(ws: seq<World>, steps: seq<Step>, i: nat)
    requires Run(ws, steps) && Inv(ws[0]) && Genuine(ws[0]) && i <= |steps|
    ensures Genuine(ws[i])
    decreases i
  {
    hide Inv, Enabled, Next, Genuine;
    if i > 0 {
      RunIsGenuine(ws, steps, i - 1);
      RunKeeps(ws, steps, i - 1);
      StepIsGenuine(ws[i - 1], steps[i - 1]);
    }
  }

  /** In every reachable state each batch's payload pays its requests one by one, its unsigned bytes
      passed the rule for new batches, and from signing on its raw bytes passed the rule for signed
      ones; the identifier is theirs. */
  lemma ReachableIsGenuine(x: World)
    requires Reachable(x)
    ensures Genuine(x)
  {
    hide Inv, Enabled, Next, Genuine, Init;
    var w, steps :| Init(w) && RunFrom(w, steps, x);
    var ws :| Run(ws, steps) && ws[0] == w && ws[|steps|] == x;
    InitHolds(w);
    InitIsGenuine(w);
    RunIsGenuine(ws, steps, |steps|);
  }

  lemma InitIsGenuine(w: World)
    requires Init(w)
    ensures Genuine(w)
  {}

  // ---- Columns over runs ----

  lemma StepKeepsColumns(w: World, step: Step)
    requires Enabled(w, step)
    ensures KeepsColumns(w.store, Next(w, step).store)
  {
    hide CanOperate, CanBegin, CanRecord, CanSubmit, CanLand, Undecided, TxidOf, Recorded, KeepsColumns, Reserve;
    if step.Operate? {
      WriteKeepsColumns(w, step.sig, step.write);
    } else if step.Begin? {
      BeginKeepsColumns(w, step.sig, step.id, step.reservation, step.batch);
    } else if step.Deposit? {
      NewKeepsColumns(w.store, OutpointOf(step.row), Fresh(step.row));
    } else {
      SameKeepsColumns(w.store, Next(w, step).store);
    }
  }

  lemma NewKeepsColumns(s: StoreState, o: Outpoint, u: Utxo)
    requires o !in s.utxos
    ensures KeepsColumns(s, s.(utxos := s.utxos[o := u]))
  {}

  lemma SameKeepsColumns(s: StoreState, t: StoreState)
    requires t == s.(requests := t.requests)
    ensures KeepsColumns(s, t)
  {}

  /** Over any run no batch changes but in its status, no reservation in what it is worth and holds, and
      no UTXO in its row. */
  lemma {:induction false} RunKeepsColumns(ws: seq<World>, steps: seq<Step>, i: nat, j: nat)
    requires Run(ws, steps) && i <= j <= |steps|
    ensures KeepsColumns(ws[i].store, ws[j].store)
    decreases j
  {
    hide Enabled, Next;
    if i < j {
      RunKeepsColumns(ws, steps, i, j - 1);
      StepKeepsColumns(ws[j - 1], steps[j - 1]);
    } else {
      SameKeepsColumns(ws[i].store, ws[i].store);
    }
  }
}
