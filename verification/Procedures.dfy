/** The operator's procedures are runs of the machine: each of their writes is enabled when its turn
    comes, so the invariants hold wherever a procedure is cut short. */
module Procedures {
  import opened Bytes
  import opened OperatorRows
  import opened Store
  import opened Withdrawal
  import opened BroadcastRecovery
  import opened Resume
  import opened Machine
  import opened ChainSteps
  import opened OperatorSteps
  import opened Runs
  import opened Provenance

  function After(w: World, ws: seq<Write>): World { w.(store := Replay(w.store, ws)) }

  /** Every write is enabled in the state that the writes before it leave behind. */
  ghost predicate Performs(w: World, sig: Signature, ws: seq<Write>)
  { forall k :: 0 <= k < |ws| ==> CanOperate(After(w, ws[..k]), sig, ws[k]) }

  lemma AfterStep(w: World, ws: seq<Write>, k: nat)
    requires k < |ws|
    ensures After(w, ws[..k + 1]) == AfterWrite(After(w, ws[..k]), ws[k])
  {
    assert ws[..k + 1] == ws[..k] + [ws[k]];
    ReplayStep(w.store, ws[..k], ws[k]);
  }

  /** However many of its writes a procedure gets to make, the result is a run of the machine. */
  lemma {:induction false} CutShort(w: World, sig: Signature, ws: seq<Write>, k: nat)
    requires Performs(w, sig, ws) && k <= |ws|
    ensures RunFrom(w, seq(k, i requires 0 <= i < k => Operate(sig, ws[i])), After(w, ws[..k]))
  {
    hide CanOperate;
    var worlds := seq(k + 1, i requires 0 <= i <= k => After(w, ws[..i]));
    var steps := seq(k, i requires 0 <= i < k => Operate(sig, ws[i]));
    forall i | 0 <= i < k ensures Enabled(worlds[i], steps[i]) && worlds[i + 1] == Next(worlds[i], steps[i]) {
      assert CanOperate(After(w, ws[..i]), sig, ws[i]);
      AfterStep(w, ws, i);
    }
    assert Run(worlds, steps) && worlds[0] == w && worlds[k] == After(w, ws[..k]);
  }

  lemma CutShortKeeps(w: World, sig: Signature, ws: seq<Write>, k: nat)
    requires Inv(w) && Performs(w, sig, ws) && k <= |ws|
    ensures Inv(After(w, ws[..k]))
  {
    hide Inv, Performs, Enabled, Next, After;
    CutShort(w, sig, ws, k);
    var steps := seq(k, i requires 0 <= i < k => Operate(sig, ws[i]));
    var worlds :| Run(worlds, steps) && worlds[0] == w && worlds[|steps|] == After(w, ws[..k]);
    RunKeeps(worlds, steps, k);
  }

  lemma OneWritePerforms(w: World, sig: Signature, v: Write)
    requires CanOperate(w, sig, v)
    ensures Performs(w, sig, [v])
  {
    hide CanOperate, Apply;
    assert [v][..0] == [] && After(w, []) == w;
  }

  lemma NothingPerforms(w: World, sig: Signature)
    ensures Performs(w, sig, [])
  {}

  lemma PerformsThen(w: World, sig: Signature, v: Write, rest: seq<Write>)
    requires CanOperate(w, sig, v) && Performs(AfterWrite(w, v), sig, rest)
    ensures Performs(w, sig, [v] + rest)
  {
    hide CanOperate, Apply;
    var ws := [v] + rest;
    forall k | 0 <= k < |ws| ensures CanOperate(After(w, ws[..k]), sig, ws[k]) {
      if k == 0 {
        assert ws[..0] == [] && After(w, []) == w;
      } else {
        assert ws[..k] == [v] + rest[..k - 1] && ws[k] == rest[k - 1];
        ReplayAppend(w.store, [v], rest[..k - 1]);
        ReplayStep(w.store, [], v);
        assert [] + [v] == [v];
        assert After(w, ws[..k]) == After(AfterWrite(w, v), rest[..k - 1]);
      }
    }
  }

  // ---- Other steps in between ----

  predicate Outside(step: Step)
  { step.Ask? || step.Land? || step.Reject? || step.Expire? || step.Submit? || step.Deposit? }

  /** While a batch with a decided snapshot is incomplete, the chain cannot move under it. */
  lemma OutsideIsHarmless(w: World, sig: Signature, step: Step)
    requires Inv(w) && sig in w.store.batches && Incomplete(w.store.batches[sig]) && !Undecided(w, sig)
    requires Outside(step) && !step.Deposit? && Enabled(w, step)
    ensures var x := Next(w, step);
            x == w.(requested := x.requested, electrs := x.electrs) && w.electrs <= x.electrs
  {
    hide Inv, Enabled, TxidOf, Undecided, Incomplete, Next, Outside;
    OutsideIsQuiet(w, sig, step);
  }

  lemma OutsideIsQuiet(w: World, sig: Signature, step: Step)
    requires Inv(w) && sig in w.store.batches && Incomplete(w.store.batches[sig]) && !Undecided(w, sig)
    requires Outside(step) && !step.Deposit? && Enabled(w, step)
    ensures (step.Ask? && Next(w, step) == AfterAsk(w, step.record))
            || (step.Submit? && Next(w, step) == AfterSubmit(w, step.sig))
  {
    NothingUndecided(w, sig);
    hide Inv, CanSubmit, Undecided, CanOperate, CanBegin, CanRecord, Incomplete, AfterAsk, AfterSubmit, AfterBegin,
         AfterWrite, AfterDeposit, AfterLand, AfterDeath, Recorded;
  }

  lemma NothingUndecided(w: World, sig: Signature)
    requires Inv(w) && sig in w.store.batches && Incomplete(w.store.batches[sig]) && !Undecided(w, sig)
    ensures forall other :: !Undecided(w, other)
  {
    assert w.snapshots.Keys == w.store.batches.Keys;
    hide Inv, Incomplete;
    forall other | Undecided(w, other) ensures other == sig { OnlyUndecided(w, other, sig); }
  }

  lemma OnlyUndecided(w: World, sig: Signature, other: Signature)
    requires Inv(w) && sig in w.store.batches && Undecided(w, sig)
    requires other in w.store.batches && Incomplete(w.store.batches[other])
    ensures sig == other
  {
    hide Custody, Conserved, Payments, Owned, RequestsOk, Ranges, StageOk;
    PendingIsObserved(w, sig);
  }

  lemma GuardsIgnoreOutside(w: World, x: World, sig: Signature, v: Write)
    requires CanOperate(w, sig, v) && x == w.(requested := x.requested, electrs := x.electrs) && w.electrs <= x.electrs
    ensures CanOperate(x, sig, v)
  {
    hide LoadGraph, BroadcastIntact, LoadCompleteSigned;
  }

  lemma QuietStepsIntervene(w: World, sig: Signature, ws: seq<Write>, step: Step)
    requires Inv(w) && sig in w.store.batches && Incomplete(w.store.batches[sig]) && !Undecided(w, sig)
    requires Outside(step) && !step.Deposit? && Enabled(w, step) && Performs(w, sig, ws)
    ensures Performs(Next(w, step), sig, ws)
  {
    OutsideIsHarmless(w, sig, step);
    hide Inv, Enabled, Next, CanOperate, Outside;
    var x := Next(w, step);
    forall k | 0 <= k < |ws| ensures CanOperate(After(x, ws[..k]), sig, ws[k]) {
      GuardsIgnoreOutside(After(w, ws[..k]), After(x, ws[..k]), sig, ws[k]);
    }
  }

  // ---- A deposit in between ----

  lemma TablesCommute(m: map<Outpoint, Utxo>, chosen: seq<Outpoint>, o: Outpoint, u: Utxo, txid: Txid, i: nat,
                      sig: Signature)
    requires o !in chosen
    ensures Release(m[o := u], chosen) == Release(m, chosen)[o := u]
    ensures Consume(m[o := u], chosen) == Consume(m, chosen)[o := u]
    ensures SendOff(m[o := u], chosen, txid) == SendOff(m, chosen, txid)[o := u]
    ensures LinkSpend(m[o := u], chosen, i, sig) == LinkSpend(m, chosen, i, sig)[o := u]
    ensures Release(m, chosen).Keys == Consume(m, chosen).Keys == m.Keys
    ensures SendOff(m, chosen, txid).Keys == LinkSpend(m, chosen, i, sig).Keys == m.Keys
  {}

  /** The write touches neither the deposited UTXO nor, as its change, the outpoint. */
  ghost predicate Beside(s: StoreState, v: Write, o: Outpoint)
  {
    && o !in s.utxos
    && (forall id :: id in s.reservations ==> o !in s.reservations[id].utxos)
    && (v.FinalizeConfirmed? && v.change.Some? ==> OutpointOf(v.change.value) != o)
  }

  function Deposited(s: StoreState, row: CustodyUtxo): StoreState
  { s.(utxos := s.utxos[OutpointOf(row) := Fresh(row)]) }

  ghost predicate Commutes(s: StoreState, v: Write, row: CustodyUtxo)
  { Apply(Deposited(s, row), v) == Deposited(Apply(s, v), row) && OutpointOf(row) !in Apply(s, v).utxos }

  lemma ReservationCommutes(s: StoreState, v: Write, row: CustodyUtxo, id: ReservationId)
    requires v.ReleaseReservation? || v.MarkReservationBroadcast? || v.PersistSigned?
    requires Beside(s, v, OutpointOf(row)) && id in s.reservations && v.id == id
    ensures Commutes(s, v, row)
  {
    hide Release, SendOff, LinkSpend, WithRangeStatus, WithBatchStatus, Mappings;
    var txid: Txid := if v.MarkReservationBroadcast? then v.txid else seq(32, _ => 0);
    var start, sig := if v.PersistSigned? then v.process.start else 0, if v.PersistSigned? then v.sig else "";
    TablesCommute(s.utxos, s.reservations[id].utxos, OutpointOf(row), Fresh(row), txid, start, sig);
  }

  lemma FinalizeCommutes(s: StoreState, v: Write, row: CustodyUtxo)
    requires v.FinalizeConfirmed? && Beside(s, v, OutpointOf(row))
    ensures Commutes(s, v, row)
  {
    hide Consume, WithRangeStatus, WithBatchStatus, WithProcessStatus, WithTransactionStatus;
    var o, u := OutpointOf(row), Fresh(row);
    if v.sig in s.batches && s.batches[v.sig].reservation.Some?
      && s.batches[v.sig].reservation.value in s.reservations {
      var chosen := s.reservations[s.batches[v.sig].reservation.value].utxos;
      TablesCommute(s.utxos, chosen, o, u, seq(32, _ => 0), 0, "");
      if v.change.Some? {
        var c := OutpointOf(v.change.value);
        assert Consume(s.utxos, chosen)[o := u][c := Fresh(v.change.value)]
            == Consume(s.utxos, chosen)[c := Fresh(v.change.value)][o := u];
      }
    }
  }

  lemma ApplyCommutes(s: StoreState, v: Write, row: CustodyUtxo)
    requires Beside(s, v, OutpointOf(row)) && !v.AddUtxo? && !v.UpsertRequest? && !v.ReserveForSnapshot?
    ensures Commutes(s, v, row)
  {
    hide Release, SendOff, LinkSpend, Consume, WithRangeStatus, WithBatchStatus, WithProcessStatus,
         WithTransactionStatus, WithRequestStatus, Mappings;
    if v.FinalizeConfirmed? {
      FinalizeCommutes(s, v, row);
    } else if (v.ReleaseReservation? || v.MarkReservationBroadcast? || v.PersistSigned?) && v.id in s.reservations {
      ReservationCommutes(s, v, row, v.id);
    }
  }

  lemma WriteCommutes(w: World, sig: Signature, v: Write, row: CustodyUtxo)
    requires CanOperate(w, sig, v) && Beside(w.store, v, OutpointOf(row))
    ensures AfterWrite(AfterDeposit(w, row), v) == AfterDeposit(AfterWrite(w, v), row)
    ensures OutpointOf(row) !in AfterWrite(w, v).store.utxos
  {
    OperateCases(w, sig, v);
    ApplyCommutes(w.store, v, row);
    hide CanOperate, Beside;
    DepositIsDeposited(w.store, row);
    DepositIsDeposited(Apply(w.store, v), row);
    hide Apply, Deposited;
  }

  lemma DepositIsDeposited(s: StoreState, row: CustodyUtxo)
    ensures Apply(s, AddUtxo(row)) == Deposited(s, row)
  {}

  lemma GuardIgnoresDeposit(w: World, sig: Signature, v: Write, row: CustodyUtxo)
    requires Custody(w) && CanOperate(w, sig, v) && Beside(w.store, v, OutpointOf(row))
    ensures CanOperate(AfterDeposit(w, row), sig, v)
  {
    hide LoadGraph, Loaded, Custody;
    var x := AfterDeposit(w, row);
    NewUtxoKeepsGraph(w, x, OutpointOf(row), Fresh(row), sig);
    if v.PersistSigned? { DepositKeepsLoaded(w, row, v.id); }
  }

  lemma DepositKeepsLoaded(w: World, row: CustodyUtxo, id: ReservationId)
    requires Custody(w) && OutpointOf(row) !in w.store.utxos && id in w.store.reservations
    ensures Loaded(AfterDeposit(w, row).store, id) == Loaded(w.store, id)
  {
    hide Loaded, Custody;
    LoadedKept(w, AfterDeposit(w, row), id);
  }

  lemma InsideIsBeside(w: World, v: Write, o: Outpoint)
    requires Custody(w) && o !in w.store.utxos
    requires v.FinalizeConfirmed? && v.change.Some? ==> OutpointOf(v.change.value) != o
    ensures Beside(w.store, v, o)
  {
    forall id | id in w.store.reservations ensures o !in w.store.reservations[id].utxos {
      assert CustodyOf(w, id, w.store.reservations[id]);
    }
  }

  lemma {:induction false} DepositCommutes(w: World, sig: Signature, ws: seq<Write>, row: CustodyUtxo, k: nat)
    requires Inv(w) && Performs(w, sig, ws) && k <= |ws| && OutpointOf(row) !in w.store.utxos
    requires forall v :: v in ws && v.FinalizeConfirmed? && v.change.Some? ==>
               OutpointOf(v.change.value) != OutpointOf(row)
    ensures After(AfterDeposit(w, row), ws[..k]) == AfterDeposit(After(w, ws[..k]), row)
    ensures OutpointOf(row) !in After(w, ws[..k]).store.utxos
    ensures k < |ws| ==> CanOperate(After(AfterDeposit(w, row), ws[..k]), sig, ws[k])
    decreases k
  {
    hide Inv, CanOperate, AfterDeposit, AfterWrite, Custody;
    if k == 0 {
      NothingAfter(w, ws);
      NothingAfter(AfterDeposit(w, row), ws);
    } else {
      DepositCommutes(w, sig, ws, row, k - 1);
      var y := After(w, ws[..k - 1]);
      CutShortKeeps(w, sig, ws, k - 1);
      InvParts(y);
      InsideIsBeside(y, ws[k - 1], OutpointOf(row));
      WriteCommutes(y, sig, ws[k - 1], row);
      AfterStep(w, ws, k - 1);
      AfterStep(AfterDeposit(w, row), ws, k - 1);
    }
    if k < |ws| {
      CutShortKeeps(w, sig, ws, k);
      InvParts(After(w, ws[..k]));
      InsideIsBeside(After(w, ws[..k]), ws[k], OutpointOf(row));
      GuardIgnoresDeposit(After(w, ws[..k]), sig, ws[k], row);
    }
  }

  lemma NothingAfter(w: World, ws: seq<Write>)
    ensures After(w, ws[..0]) == w
  {}

  /** A procedure in progress stays enabled whatever the chain, users or Electrs do meanwhile, and
      whatever is deposited, as long as that is not the very change output that it will track. */
  lemma OutsideStepsIntervene(w: World, sig: Signature, ws: seq<Write>, step: Step)
    requires Inv(w) && sig in w.store.batches && Incomplete(w.store.batches[sig]) && !Undecided(w, sig)
    requires Outside(step) && Enabled(w, step) && Performs(w, sig, ws)
    requires step.Deposit? ==> forall v :: v in ws && v.FinalizeConfirmed? && v.change.Some? ==>
               OutpointOf(v.change.value) != OutpointOf(step.row)
    ensures Performs(Next(w, step), sig, ws)
  {
    hide Inv, Performs, CanOperate, After, Undecided, AfterDeposit;
    if step.Deposit? {
      forall k | 0 <= k < |ws| ensures CanOperate(After(Next(w, step), ws[..k]), sig, ws[k]) {
        DepositCommutes(w, sig, ws, step.row, k);
      }
      PerformsEach(Next(w, step), sig, ws);
    } else {
      QuietStepsIntervene(w, sig, ws, step);
    }
  }

  lemma PerformsEach(w: World, sig: Signature, ws: seq<Write>)
    requires forall k :: 0 <= k < |ws| ==> CanOperate(After(w, ws[..k]), sig, ws[k])
    ensures Performs(w, sig, ws)
  {
    hide CanOperate, After;
  }

  // ---- Range writes ----

  lemma {:induction false} RangeTouchesRequests(s: StoreState, ws: seq<Write>)
    requires forall k :: 0 <= k < |ws| ==> ws[k].SetRequestStatus?
    ensures Replay(s, ws) == s.(requests := Replay(s, ws).requests)
    decreases |ws|
  {
    if ws != [] { RangeTouchesRequests(s, ws[..|ws| - 1]); }
  }

  // ---- Observed batches ----

  /** What the snapshot's status, metadata and blockhash say, taken as one observation, is true. */
  predicate Observation(chain: ChainStatus, status: Option<bool>, metadataFound: bool, blockhashValid: bool)
  {
    && (status == Some(true) ==> chain == Landed)
    && (status == Some(false) ==> chain == Rejected)
    && (metadataFound ==> chain == Landed || chain == Rejected)
    && (status.None? && !metadataFound && !blockhashValid ==> chain == Expired)
  }

  /** An observed batch is failed only when its snapshot is dead, is never left waiting, and is
      resent only while it is undecided or on chain. */
  lemma ObservedActionIsRight(w: World, sig: Signature, status: Option<bool>, metadataFound: bool, blockhashValid: bool)
    requires Inv(w) && sig in w.store.batches && w.store.batches[sig].status == Observed
    requires sig in w.snapshots && Observation(w.snapshots[sig], status, metadataFound, blockhashValid)
    ensures var action := SelectObservedAction(status, metadataFound, blockhashValid, w.cursor,
                                               w.store.batches[sig].start);
            && (action.Fail? ==> Dead(w.snapshots[sig]))
            && !action.Wait?
            && (w.snapshots[sig] == Landed && (status.Some? || metadataFound) ==> action.AwaitConfirmation?)
  {
    hide Custody, Conserved, Payments, Owned, RequestsOk, OneIncomplete, LoadGraph, Ranges;
    assert StageOk(w, sig);
    RangesOf(w, sig);
    if status.Some? { assert status == if status.value then Some(true) else Some(false); }
  }

  lemma RangesOf(w: World, sig: Signature)
    requires Inv(w) && sig in w.store.batches
    ensures w.store.batches[sig].start < w.store.batches[sig].end
    ensures IsLast(w, sig) ==> w.store.batches[sig].end == w.cursor
    ensures sig in w.snapshots
  {}

  /** An observed batch whose snapshot is dead stands at the cursor, its custody held or released. */
  lemma DeadStage(w: World, sig: Signature)
    requires Inv(w) && sig in w.store.batches && w.store.batches[sig].status == Observed
    requires sig in w.snapshots && Dead(w.snapshots[sig])
    ensures w.cursor == w.store.batches[sig].start && ReservationOf(w.store, sig).Some?
    ensures ReservationOf(w.store, sig).value.status in {Held, Released}
  {
    hide Custody, Conserved, Payments, Owned, RequestsOk, OneIncomplete, LoadGraph, Ranges;
    assert StageOk(w, sig);
  }

  lemma FailingPerforms(w: World, sig: Signature)
    requires Inv(w) && sig in w.store.batches && w.store.batches[sig].status == Observed
    requires sig in w.snapshots && Dead(w.snapshots[sig])
    ensures Performs(w, sig, FailWrites(w.store, sig, w.store.batches[sig]))
  {
    DeadStage(w, sig);
    hide Inv, Performs, CanOperate;
    var b := w.store.batches[sig];
    if ReservationOf(w.store, sig).value.status == Held {
      ReleasedThenFailed(w, sig, ReleaseReservation(b.reservation.value));
      OneWritePerforms(AfterWrite(w, ReleaseReservation(b.reservation.value)), sig, SetBatchStatus(sig, Failed));
      PerformsThen(w, sig, ReleaseReservation(b.reservation.value), [SetBatchStatus(sig, Failed)]);
    } else {
      FailingEnabled(w, sig);
      OneWritePerforms(w, sig, SetBatchStatus(sig, Failed));
      assert FailWrites(w.store, sig, b) == [SetBatchStatus(sig, Failed)];
    }
  }

  lemma FailingEnabled(w: World, sig: Signature)
    requires sig in w.store.batches && w.store.batches[sig].status == Observed && ReservationOf(w.store, sig).Some?
    requires sig in w.snapshots && Dead(w.snapshots[sig]) && w.cursor == w.store.batches[sig].start
    requires ReservationOf(w.store, sig).value.status == Released
    ensures CanOperate(w, sig, SetBatchStatus(sig, Failed))
  {}

  lemma ReleasedThenFailed(w: World, sig: Signature, v: Write)
    requires sig in w.store.batches && w.store.batches[sig].status == Observed && ReservationOf(w.store, sig).Some?
    requires sig in w.snapshots && Dead(w.snapshots[sig]) && w.cursor == w.store.batches[sig].start
    requires ReservationOf(w.store, sig).value.status == Held
    requires v == ReleaseReservation(w.store.batches[sig].reservation.value)
    ensures CanOperate(w, sig, v) && CanOperate(AfterWrite(w, v), sig, SetBatchStatus(sig, Failed))
  {
    hide LoadGraph, Release;
  }

  lemma LandedStage(w: World, sig: Signature)
    requires Inv(w) && sig in w.store.batches && w.store.batches[sig].status == Observed
    requires sig in w.snapshots && w.snapshots[sig] == Landed
    ensures IsLast(w, sig) && ReservationOf(w.store, sig).Some?
  {
    hide Custody, Conserved, Payments, Owned, RequestsOk, OneIncomplete, LoadGraph, Ranges;
    assert StageOk(w, sig);
  }

  lemma ConfirmingPerforms(w: World, sig: Signature)
    requires Inv(w) && sig in w.store.batches && w.store.batches[sig].status == Observed
    requires sig in w.snapshots && w.snapshots[sig] == Landed
    ensures w.cursor == w.store.batches[sig].end
    ensures Performs(w, sig, ConfirmWrites(sig, w.store.batches[sig]))
  {
    RangesOf(w, sig);
    LandedStage(w, sig);
    var ws := ConfirmWrites(sig, w.store.batches[sig]);
    ConfirmedFirst(w, sig, ws);
    hide Inv, ConfirmWrites, CanOperate, After, IsLast, ReservationOf;
    forall k | 0 < k < |ws| ensures CanOperate(After(w, ws[..k]), sig, ws[k]) {
      ConfirmedPart(w, sig, ws, k);
    }
  }

  lemma ConfirmedFirst(w: World, sig: Signature, ws: seq<Write>)
    requires sig in w.store.batches && sig in w.snapshots && ReservationOf(w.store, sig).Some?
    requires var b := w.store.batches[sig];
             ws == ConfirmWrites(sig, b) && b.status == Observed && w.snapshots[sig] == Landed && w.cursor == b.end
    ensures CanOperate(After(w, ws[..0]), sig, ws[0])
  {
    assert ws[..0] == [] && After(w, []) == w;
    hide LoadGraph, RangeWrites, Apply;
  }

  lemma ConfirmedPart(w: World, sig: Signature, ws: seq<Write>, k: nat)
    requires sig in w.store.batches && sig in w.snapshots && ReservationOf(w.store, sig).Some?
    requires var b := w.store.batches[sig]; ws == ConfirmWrites(sig, b) && b.start <= b.end
    requires 0 < k < |ws|
    ensures CanOperate(After(w, ws[..k]), sig, ws[k])
  {
    hide LoadGraph;
    var b := w.store.batches[sig];
    RangeWritesAt(b.start, b.end, ConfirmedStatus(b));
    var rest := RangeWrites(b.start, b.end, ConfirmedStatus(b))[..k - 1];
    assert ws[..k] == [ws[0]] + rest;
    ReplayAppend(w.store, [ws[0]], rest);
    ReplayStep(w.store, [], ws[0]);
    assert [] + [ws[0]] == [ws[0]];
    RangeTouchesRequests(Apply(w.store, ws[0]), rest);
  }

  // ---- Persisting what the Managers signed ----

  /** The signed transaction passed the rule, was never stored before, has one output per request and
      returns what the reservation selected beyond what it required. */
  ghost predicate FitsBatch(w: World, sig: Signature, a: SignedAnswer)
    requires sig in w.store.batches
  {
    var b := w.store.batches[sig];
    && w.hashes.sha256(a.bytes) !in w.store.transactions
    && a.outputs == b.end - b.start
    && b.reservation.Some? && b.reservation.value in w.store.reservations && b.unsigned.Some?
    && a.change
       == w.store.reservations[b.reservation.value].selected - w.store.reservations[b.reservation.value].required
    && w.rules.signed(b.payload, Loaded(w.store, b.reservation.value), b.unsigned.value, a.bytes)
  }

  /** Such a transaction can be persisted for every constructed batch. */
  lemma PersistingPerforms(w: World, sig: Signature, a: SignedAnswer)
    requires Inv(w) && sig in w.store.batches && w.store.batches[sig].status == Constructed && FitsBatch(w, sig, a)
    ensures ReservationOf(w.store, sig).Some?
    ensures CanOperate(w, sig, PersistWrite(w.hashes, sig, w.store.batches[sig], a))
    ensures Performs(w, sig, [PersistWrite(w.hashes, sig, w.store.batches[sig], a)])
  {
    RangesOf(w, sig);
    CustodySuffices(w, sig);
    hide Inv, Performs, CanOperate, PersistWrite, FitsBatch;
    PersistingEnabled(w, sig, a);
    OneWritePerforms(w, sig, PersistWrite(w.hashes, sig, w.store.batches[sig], a));
  }

  lemma PersistingEnabled(w: World, sig: Signature, a: SignedAnswer)
    requires sig in w.store.batches && sig in w.snapshots && w.store.batches[sig].status == Constructed
    requires ReservationOf(w.store, sig).Some? && w.store.batches[sig].start <= w.store.batches[sig].end
    requires FitsBatch(w, sig, a)
    ensures CanOperate(w, sig, PersistWrite(w.hashes, sig, w.store.batches[sig], a))
  {
    hide LoadGraph, Loaded;
  }

  lemma CustodySuffices(w: World, sig: Signature)
    requires Inv(w) && sig in w.store.batches
    ensures ReservationOf(w.store, sig).Some?
    ensures ReservationOf(w.store, sig).value.required <= ReservationOf(w.store, sig).value.selected
  {
    hide Ranges, Stages, Payments, RequestsOk, Conserved, OneIncomplete;
    assert CustodyOf(w, w.store.batches[sig].reservation.value, ReservationOf(w.store, sig).value);
  }
}
