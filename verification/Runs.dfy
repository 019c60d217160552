/** What holds over every run of the machine. */
module Runs {
  import opened Store
  import opened Withdrawal
  import opened BroadcastRecovery
  import opened Machine
  import opened ChainSteps
  import opened OperatorSteps
  import opened SignedSteps
  import opened FinalSteps

  /** Any number of steps, in any order in which they are enabled: since the operator's steps are
      single writes, crashes and restarts are included. */
  ghost predicate Run(ws: seq<World>, steps: seq<Step>)
  {
    && |ws| == |steps| + 1
    && forall i :: 0 <= i < |steps| ==> Enabled(ws[i], steps[i]) && ws[i + 1] == Next(ws[i], steps[i])
  }

  ghost predicate RunFrom(w: World, steps: seq<Step>, x: World)
  { exists ws :: Run(ws, steps) && ws[0] == w && ws[|steps|] == x }

  // ---- The invariants hold in every reachable state ----

  lemma OperateKeeps(w: World, sig: Signature, v: Write)
    requires Inv(w) && CanOperate(w, sig, v)
    ensures Inv(AfterWrite(w, v))
  {
    OperateCases(w, sig, v);
    hide *;
    match v
    case ReleaseReservation(id) => ReleaseKeeps(w, sig, id);
    case SetBatchStatus(_, status) => BatchStatusKeeps(w, sig, status);
    case SetRequestStatus(i, status) => RequestStatusKeeps(w, sig, i, status);
    case PersistSigned(_, _, _, _, _) => PersistKeeps(w, sig, v);
    case MarkReservationBroadcast(id, txid) => MarkKeeps(w, sig, id, txid);
    case SetTransactionStatus(_, _) => StatusKeeps(w, sig, v);
    case SetProcessStatus(_, _) => StatusKeeps(w, sig, v);
    case FinalizeConfirmed(_, _, _) => FinalizeKeeps(w, sig, v);
  }

  lemma OperateCases(w: World, sig: Signature, v: Write)
    requires CanOperate(w, sig, v)
    ensures !v.AddUtxo? && !v.UpsertRequest? && !v.ReserveForSnapshot?
    ensures v.SetBatchStatus? ==> v.sig == sig
    ensures v.SetTransactionStatus? || v.SetProcessStatus? ==> StatusOnly(w, v)
  {
    hide LoadGraph, BroadcastIntact;
  }

  lemma StepKeeps(w: World, step: Step)
    requires Inv(w) && Enabled(w, step)
    ensures Inv(Next(w, step))
  {
    hide Inv, CanOperate, CanBegin, CanRecord, CanSubmit, CanLand, Undecided,
         AfterWrite, AfterDeposit, AfterAsk, AfterLand, AfterDeath, AfterSubmit, AfterBegin, Recorded;
    match step
    case Deposit(row) => DepositKeeps(w, row);
    case Ask(record) => AskKeeps(w, record);
    case Land(sig) => LandKeeps(w, sig);
    case Reject(sig) => DeathKeeps(w, sig, Rejected);
    case Expire(sig) => DeathKeeps(w, sig, Expired);
    case Submit(sig) => SubmitKeeps(w, sig);
    case Record(index) => RecordKeeps(w, index);
    case Begin(sig, id, r, b) => BeginKeeps(w, sig, id, r, b);
    case Operate(sig, v) => OperateKeeps(w, sig, v);
  }

  lemma InitHolds(w: World)
    requires Init(w)
    ensures Inv(w)
  {
    assert Values(w.store.utxos) == map[] && Paid(w.store) == map[];
  }

  lemma {:induction false} RunKeeps(ws: seq<World>, steps: seq<Step>, i: nat)
    requires Run(ws, steps) && Inv(ws[0]) && i <= |steps|
    ensures Inv(ws[i])
    decreases i
  {
    hide Inv, Enabled, Next;
    if i > 0 {
      RunKeeps(ws, steps, i - 1);
      StepKeeps(ws[i - 1], steps[i - 1]);
    }
  }

  /** A state that some run from an empty store reaches. */
  ghost predicate Reachable(x: World)
  { exists w, steps :: Init(w) && RunFrom(w, steps, x) }

  lemma ReachableHolds(x: World)
    requires Reachable(x)
    ensures Inv(x)
  {
    hide Inv, Init, Enabled, Next;
    var w, steps :| Init(w) && RunFrom(w, steps, x);
    var ws :| Run(ws, steps) && ws[0] == w && ws[|steps|] == x;
    InitHolds(w);
    RunKeeps(ws, steps, |steps|);
  }

  // ---- Landed ranges ----

  /** Request `i` belongs to the `k`-th landed batch. */
  predicate Covers(batches: map<Signature, Batch>, landed: seq<Signature>, k: int, i: nat)
  { 0 <= k < |landed| && landed[k] in batches && batches[landed[k]].start <= i < batches[landed[k]].end }

  /** The landed ranges, of 1 to 319 requests each, follow each other from `first` to `cursor`. */
  ghost predicate Consecutive(batches: map<Signature, Batch>, landed: seq<Signature>, first: nat, cursor: nat)
  {
    && (forall k :: 0 <= k < |landed| ==>
          landed[k] in batches && 0 < batches[landed[k]].end - batches[landed[k]].start <= MAX_BATCH)
    && (if landed == [] then cursor == first
        else batches[landed[0]].start == first && batches[landed[|landed| - 1]].end == cursor)
    && (forall j, k :: 0 <= j && k == j + 1 < |landed| ==> batches[landed[k]].start == batches[landed[j]].end)
  }

  lemma {:induction false} ChainIsConsecutive(batches: map<Signature, Batch>, landed: seq<Signature>, first: nat,
                                              cursor: nat)
    requires Chained(batches, landed, first, cursor)
    requires forall sig :: sig in landed && sig in batches ==> 0 < batches[sig].end - batches[sig].start <= MAX_BATCH
    ensures Consecutive(batches, landed, first, cursor)
    decreases |landed|
  {
    if landed != [] {
      var front, last := landed[..|landed| - 1], landed[|landed| - 1];
      hide Consecutive;
      ChainIsConsecutive(batches, front, first, batches[last].start);
      ConsecutiveExtends(batches, front, last, first);
      assert landed == front + [last];
    }
  }

  lemma ConsecutiveExtends(batches: map<Signature, Batch>, front: seq<Signature>, last: Signature, first: nat)
    requires last in batches && 0 < batches[last].end - batches[last].start <= MAX_BATCH
    requires Consecutive(batches, front, first, batches[last].start)
    ensures Consecutive(batches, front + [last], first, batches[last].end)
  {}

  /** Consecutive ranges cover each request between their ends exactly once, and no other. */
  lemma {:induction false} ConsecutivePartition(batches: map<Signature, Batch>, landed: seq<Signature>, first: nat,
                                                cursor: nat, i: nat) returns (k: int)
    requires Consecutive(batches, landed, first, cursor)
    ensures first <= i < cursor ==> Covers(batches, landed, k, i)
    ensures forall l :: Covers(batches, landed, l, i) ==> l == k && first <= i < cursor
    decreases |landed|
  {
    k := |landed| - 1;
    if landed != [] {
      var front := landed[..k];
      assert forall l :: 0 <= l < k ==> front[l] == landed[l];
      var j := ConsecutivePartition(batches, front, first, batches[landed[k]].start, i);
      assert forall l :: Covers(batches, landed, l, i) && l < k ==> Covers(batches, front, l, i);
      ConsecutiveGrows(batches, front, first, batches[landed[k]].start);
      if !Covers(batches, landed, k, i) { k := j; }
    }
  }

  lemma {:induction false} ConsecutiveGrows(batches: map<Signature, Batch>, landed: seq<Signature>, first: nat,
                                            cursor: nat)
    requires Consecutive(batches, landed, first, cursor)
    ensures first <= cursor
    decreases |landed|
  {
    if landed != [] {
      var front := landed[..|landed| - 1];
      assert forall k :: 0 <= k < |front| ==> front[k] == landed[k];
      ConsecutiveGrows(batches, front, first, batches[landed[|landed| - 1]].start);
    }
  }

  /** In every reachable state the landed batches follow each other, and cover each request up to
      the on-chain cursor exactly once. */
  lemma LandedRangesPartition(w: World, i: nat) returns (k: int)
    requires Reachable(w)
    ensures Consecutive(w.store.batches, w.landed, w.first, w.cursor)
    ensures w.cursor <= |w.requested|
    ensures w.first <= i < w.cursor ==> Covers(w.store.batches, w.landed, k, i)
    ensures forall l :: Covers(w.store.batches, w.landed, l, i) ==> l == k && w.first <= i < w.cursor
  {
    ReachableHolds(w);
    hide Reachable, Stages, Custody, Owned, Payments, RequestsOk, Conserved, OneIncomplete, Consecutive, Covers;
    ChainIsConsecutive(w.store.batches, w.landed, w.first, w.cursor);
    k := ConsecutivePartition(w.store.batches, w.landed, w.first, w.cursor, i);
  }

  // ---- Failed batches ----

  lemma OthersUntouched(w: World, sig: Signature, v: Write, other: Signature)
    requires CanOperate(w, sig, v) && other in w.store.batches && other != sig
    ensures other in AfterWrite(w, v).store.batches && AfterWrite(w, v).store.batches[other] == w.store.batches[other]
  {
    hide LoadGraph, BroadcastIntact, LoadCompleteSigned, WithRangeStatus, LinkSpend, Consume, Mappings;
  }

  lemma FailureIsFinal(w: World, step: Step, sig: Signature)
    requires Enabled(w, step) && sig in w.store.batches && w.store.batches[sig].status == Failed
    ensures sig in Next(w, step).store.batches && Next(w, step).store.batches[sig].status == Failed
  {
    if step.Operate? {
      OperatesIncomplete(w, step.sig, step.write);
      OthersUntouched(w, step.sig, step.write, sig);
      hide CanOperate, AfterWrite;
    } else {
      hide CanOperate, LoadGraph, Reserve;
    }
  }

  lemma {:induction false} FailureStays(ws: seq<World>, steps: seq<Step>, i: nat, j: nat, sig: Signature)
    requires Run(ws, steps) && i <= j <= |steps|
    requires sig in ws[i].store.batches && ws[i].store.batches[sig].status == Failed
    ensures sig in ws[j].store.batches && ws[j].store.batches[sig].status == Failed
    decreases j
  {
    hide Enabled, Next;
    if i < j {
      FailureStays(ws, steps, i, j - 1, sig);
      FailureIsFinal(ws[j - 1], steps[j - 1], sig);
    }
  }

  lemma LandingStays(w: World, step: Step)
    requires Enabled(w, step)
    ensures w.landed <= Next(w, step).landed
  {}

  lemma {:induction false} LandingsStay(ws: seq<World>, steps: seq<Step>, i: nat, j: nat)
    requires Run(ws, steps) && i <= j <= |steps|
    ensures ws[i].landed <= ws[j].landed
    decreases j
  {
    hide Enabled, Next;
    if i < j {
      LandingsStay(ws, steps, i, j - 1);
      LandingStays(ws[j - 1], steps[j - 1]);
    }
  }

  lemma FailedIsNotLanded(w: World, sig: Signature)
    requires Inv(w) && sig in w.store.batches && w.store.batches[sig].status == Failed
    ensures sig !in w.landed && ReservationOf(w.store, sig).Some?
            && ReservationOf(w.store, sig).value.status == Released
  {
    hide Custody, Owned, Payments, RequestsOk, Conserved, OneIncomplete, Chained;
    assert StageOk(w, sig);
  }

  /** A batch that is failed at any time of a run has landed at no time of it, before or after. */
  lemma FailedNeverLands(ws: seq<World>, steps: seq<Step>, i: nat, j: nat, sig: Signature)
    requires Run(ws, steps) && Init(ws[0]) && i <= |steps| && j <= |steps|
    requires sig in ws[i].store.batches && ws[i].store.batches[sig].status == Failed
    ensures sig !in ws[j].landed
  {
    hide Inv, Init, Enabled, Next;
    InitHolds(ws[0]);
    var k := if i < j then j else i;
    FailureStays(ws, steps, i, k, sig);
    RunKeeps(ws, steps, k);
    FailedIsNotLanded(ws[k], sig);
    LandingsStay(ws, steps, j, k);
    assert forall l :: 0 <= l < |ws[j].landed| ==> ws[k].landed[l] == ws[j].landed[l];
  }

  // ---- No request is paid twice ----

  lemma PayingIsLanded(w: World, sig: Signature, txid: Txid)
    requires Inv(w) && Paying(w, sig, txid)
    ensures sig in w.landed
  {
    hide Custody, Owned, Payments, RequestsOk, Conserved, OneIncomplete, Chained, LoadGraph, BroadcastIntact;
    assert StageOk(w, sig);
  }

  ghost predicate Pays(w: World, txid: Txid, i: nat)
  { exists sig :: Paying(w, sig, txid) && w.store.batches[sig].start <= i < w.store.batches[sig].end }

  /** A paying batch that covers a request is the one landed batch that covers it. */
  lemma PayerCovers(w: World, sig: Signature, txid: Txid, i: nat) returns (k: int)
    requires Inv(w) && Paying(w, sig, txid) && w.store.batches[sig].start <= i < w.store.batches[sig].end
    ensures Covers(w.store.batches, w.landed, k, i) && w.landed[k] == sig
  {
    PayingIsLanded(w, sig, txid);
    hide Inv, TxidOf;
    k :| 0 <= k < |w.landed| && w.landed[k] == sig;
  }

  /** Of all transactions Electrs has accepted, no two pay the same request; each belongs to a batch
      that has landed. */
  lemma NoRequestPaidTwice(w: World, i: nat, a: Txid, b: Txid)
    requires Reachable(w) && Pays(w, a, i) && Pays(w, b, i)
    ensures a == b
    ensures w.first <= i < w.cursor
  {
    ReachableHolds(w);
    hide Reachable, Inv, Consecutive, Covers, TxidOf;
    var s :| Paying(w, s, a) && w.store.batches[s].start <= i < w.store.batches[s].end;
    var t :| Paying(w, t, b) && w.store.batches[t].start <= i < w.store.batches[t].end;
    var k := LandedRangesPartition(w, i);
    var m := PayerCovers(w, s, a, i);
    var n := PayerCovers(w, t, b, i);
  }

  lemma AcceptedIsLanded(w: World, txid: Txid) returns (sig: Signature)
    requires Reachable(w) && txid in w.electrs
    ensures sig in w.landed && Paying(w, sig, txid)
  {
    ReachableHolds(w);
    sig :| Paying(w, sig, txid);
    PayingIsLanded(w, sig, txid);
  }

  // ---- Custody ----

  lemma StageSpends(w: World, sig: Signature)
    requires sig in w.store.batches && sig in w.snapshots && ReservationOf(w.store, sig).Some? && StageOk(w, sig)
    ensures ReservationOf(w.store, sig).value.status in {Relayed, Consumed} ==>
              TxidOf(w.store, sig).Some? && TxidOf(w.store, sig).value in w.electrs
  {
    var b := w.store.batches[sig];
    if LoadGraph(w.store, sig, b).Ok? {
      GraphFields(w.store, sig, b);
      GraphReservation(w.store, sig);
    }
    hide LoadGraph, LoadCompleteSigned;
  }

  /** A reservation is relayed or consumed only when Electrs has the transaction of its batch. */
  lemma SpentOnlyIfAccepted(w: World, sig: Signature)
    requires Reachable(w) && sig in w.store.batches
    ensures ReservationOf(w.store, sig).Some?
    ensures ReservationOf(w.store, sig).value.status in {Relayed, Consumed} ==>
              TxidOf(w.store, sig).Some? && TxidOf(w.store, sig).value in w.electrs
  {
    ReachableHolds(w);
    hide Reachable, Ranges, Custody, Owned, Payments, RequestsOk, Conserved, OneIncomplete, StageOk, TxidOf;
    StageSpends(w, sig);
  }

  /** No UTXO is held by two reservations that have not been released. */
  lemma HeldOnce(w: World, a: ReservationId, b: ReservationId, o: Outpoint)
    requires Reachable(w) && a in w.store.reservations && b in w.store.reservations
    requires w.store.reservations[a].status != Released && w.store.reservations[b].status != Released
    requires o in w.store.reservations[a].utxos && o in w.store.reservations[b].utxos
    ensures a == b
  {
    ReachableHolds(w);
    assert CustodyOf(w, a, w.store.reservations[a]) && CustodyOf(w, b, w.store.reservations[b]);
  }

  // ---- Drift checks ----

  /** A signed batch can always be continued: its graph loads, its bytes match their hashes, and it is
      either complete or an interrupted transition that completes without any service. */
  lemma SignedAlwaysContinues(w: World, sig: Signature)
    requires Reachable(w) && sig in w.store.batches && w.store.batches[sig].status == Signed
    ensures var b := w.store.batches[sig];
            && LoadGraph(w.store, sig, b).Ok? && BroadcastWrites(sig, b, LoadGraph(w.store, sig, b).value).Ok?
            && RawIntact(w.hashes, LoadGraph(w.store, sig, b).value)
            && (TransitionStarted(LoadGraph(w.store, sig, b).value) || LoadCompleteSigned(w.store, sig, b).Ok?)
  {
    ReachableHolds(w);
    hide Reachable, Ranges, Custody, Owned, Payments, RequestsOk, Conserved, OneIncomplete;
    assert StageOk(w, sig);
    hide LoadGraph;
  }

  /** A broadcast batch always passes the drift checks. */
  lemma BroadcastAlwaysIntact(w: World, sig: Signature)
    requires Reachable(w) && sig in w.store.batches && w.store.batches[sig].status == Broadcast
    ensures BroadcastIntact(w.hashes, w.store, sig, w.store.batches[sig])
  {
    ReachableHolds(w);
    hide Reachable, Ranges, Custody, Owned, Payments, RequestsOk, Conserved, OneIncomplete;
    assert StageOk(w, sig);
  }
}
