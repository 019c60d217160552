/** A whole invocation of the operator is a run of the machine, whatever the services answer, as
    long as their answers are true. */
module ResumeRuns {
  import opened Bytes
  import opened OperatorRows
  import opened Store
  import opened Withdrawal
  import opened BroadcastRecovery
  import opened Resume
  import opened Machine
  import opened OperatorSteps
  import opened SignedSteps
  import opened Runs
  import opened Provenance
  import opened Procedures
  import opened BroadcastRuns
  import opened OperatorRules
  import Prepare

  // ---- Runs that make given writes ----

  /** The durable writes among the steps. */
  function OperatorWrites(steps: seq<Step>): seq<Write>
    decreases |steps|
  {
    if steps == [] then []
    else OperatorWrites(steps[..|steps| - 1])
         + (if steps[|steps| - 1].Operate? then [steps[|steps| - 1].write] else [])
  }

  ghost predicate Working(sig: Signature, steps: seq<Step>)
  { forall i :: 0 <= i < |steps| ==> (steps[i].Operate? || steps[i].Submit?) && steps[i].sig == sig }

  /** Some run of operator steps and submissions for one batch makes exactly these writes. */
  ghost predicate Leads(w: World, sig: Signature, ws: seq<Write>, x: World)
  { exists steps :: Working(sig, steps) && OperatorWrites(steps) == ws && RunFrom(w, steps, x) }

  lemma {:induction false} WritesAppend(a: seq<Step>, b: seq<Step>)
    ensures OperatorWrites(a + b) == OperatorWrites(a) + OperatorWrites(b)
    decreases |b|
  {
    if b == [] {
      assert a + b == a;
    } else {
      var n := |b| - 1;
      WritesAppend(a, b[..n]);
      assert (a + b)[..|a + b| - 1] == a + b[..n];
    }
  }

  lemma RunsJoin(w: World, a: seq<Step>, x: World, b: seq<Step>, y: World)
    requires RunFrom(w, a, x) && RunFrom(x, b, y)
    ensures RunFrom(w, a + b, y)
  {
    hide Enabled, Next;
    var us :| Run(us, a) && us[0] == w && us[|a|] == x;
    var vs :| Run(vs, b) && vs[0] == x && vs[|b|] == y;
    var ws := us[..|a|] + vs;
    var steps := a + b;
    forall i | 0 <= i < |steps| ensures Enabled(ws[i], steps[i]) && ws[i + 1] == Next(ws[i], steps[i]) {
      if i < |a| {
        assert ws[i] == us[i] && ws[i + 1] == us[i + 1];
      } else {
        assert ws[i] == vs[i - |a|] && ws[i + 1] == vs[i + 1 - |a|];
      }
    }
    assert Run(ws, steps) && ws[0] == w && ws[|steps|] == y;
  }

  lemma LeadsOn(w: World, sig: Signature, a: seq<Write>, x: World, b: seq<Write>, y: World)
    requires Leads(w, sig, a, x) && Leads(x, sig, b, y)
    ensures Leads(w, sig, a + b, y)
  {
    hide RunFrom;
    var s :| Working(sig, s) && OperatorWrites(s) == a && RunFrom(w, s, x);
    var t :| Working(sig, t) && OperatorWrites(t) == b && RunFrom(x, t, y);
    WritesAppend(s, t);
    RunsJoin(w, s, x, t, y);
    assert Working(sig, s + t);
  }

  lemma {:induction false} WritesOf(sig: Signature, ws: seq<Write>)
    ensures OperatorWrites(seq(|ws|, i requires 0 <= i < |ws| => Operate(sig, ws[i]))) == ws
    decreases |ws|
  {
    var steps := seq(|ws|, i requires 0 <= i < |ws| => Operate(sig, ws[i]));
    if ws != [] {
      var n := |ws| - 1;
      WritesOf(sig, ws[..n]);
      assert steps[..n] == seq(n, i requires 0 <= i < n => Operate(sig, ws[..n][i]));
      assert ws == ws[..n] + [ws[n]];
    }
  }

  lemma PerformingLeads(w: World, sig: Signature, ws: seq<Write>)
    requires Performs(w, sig, ws)
    ensures Leads(w, sig, ws, After(w, ws))
  {
    hide Performs, RunFrom, After;
    CutShort(w, sig, ws, |ws|);
    WritesOf(sig, ws);
    assert ws[..|ws|] == ws;
    var steps := seq(|ws|, i requires 0 <= i < |ws| => Operate(sig, ws[i]));
    assert Working(sig, steps);
  }

  lemma SubmittingLeads(w: World, sig: Signature)
    requires CanSubmit(w, sig)
    ensures Leads(w, sig, [], AfterSubmit(w, sig))
  {
    hide CanSubmit, AfterSubmit;
    var steps, ws := [Submit(sig)], [w, AfterSubmit(w, sig)];
    assert steps[..0] == [] && OperatorWrites(steps) == [];
    assert Run(ws, steps) && ws[0] == w && ws[|steps|] == AfterSubmit(w, sig);
    assert Working(sig, steps) && RunFrom(w, steps, AfterSubmit(w, sig));
  }

  lemma LeadingKeeps(w: World, sig: Signature, ws: seq<Write>, x: World)
    requires Inv(w) && Leads(w, sig, ws, x)
    ensures Inv(x)
    ensures Genuine(w) ==> Genuine(x)
  {
    hide Inv, Enabled, Next, Genuine;
    var steps :| Working(sig, steps) && OperatorWrites(steps) == ws && RunFrom(w, steps, x);
    var worlds :| Run(worlds, steps) && worlds[0] == w && worlds[|steps|] == x;
    RunKeeps(worlds, steps, |steps|);
    if Genuine(w) { RunIsGenuine(worlds, steps, |steps|); }
  }

  // ---- True answers ----

  /** The snapshot's fate was observed truthfully; it may have landed between the first look and
      the confirmation. Content always agrees with the batch once its own snapshot has landed. */
  ghost predicate SnapshotTruth(w: World, sig: Signature, s: SnapshotAnswers)
    requires sig in w.store.batches && sig in w.snapshots
  {
    && Observation(w.snapshots[sig], s.status, s.metadataFound, s.blockhashValid)
    && (w.snapshots[sig] != Landed ==> s.cursor == w.cursor)
    && s.cursorAfter == w.cursor
    && (Learns(s) ==>
          (w.snapshots[sig] == Landed || w.snapshots[sig] == Rejected) && s.executed == (w.snapshots[sig] == Landed))
  }

  /** The rules of the machine are those of the operator's network. */
  ghost predicate Governs(w: World, e: Settings) { w.rules == RulesOf(e.network) }

  /** What the Managers' response makes of the batch was never stored before. */
  ghost predicate SignedIsNew(w: World, sig: Signature, e: Settings, a: Answers)
    requires sig in w.store.batches
  {
    var signed := SignBatch(e, w.store, w.store.batches[sig], a.response);
    signed.Ok? ==> w.hashes.sha256(signed.value.bytes) !in w.store.transactions
  }

  /** The change that the confirmed outputs give back is not tracked yet. */
  ghost predicate ChangeIsNew(w: World, sig: Signature, e: Settings, a: Answers)
    requires sig in w.store.batches
  {
    var change := Derive(e, w.store, sig, w.store.batches[sig], a.confirmed);
    change.Ok? && change.value.Some? ==> OutpointOf(change.value.value) !in w.store.utxos
  }

  /** What the outside says is true and new; how the operator then computes with it is not assumed. */
  ghost predicate Truthful(w: World, sig: Signature, e: Settings, a: Answers)
  {
    && sig in w.store.batches && sig in w.snapshots && Governs(w, e)
    && SnapshotTruth(w, sig, a.snapshot) && SignedIsNew(w, sig, e, a)
    && (w.store.batches[sig].status in {Signed, Broadcast} ==> ChangeIsNew(w, sig, e, a))
  }

  // ---- Stage by stage ----

  lemma NothingLeads(w: World, sig: Signature)
    ensures Leads(w, sig, [], w)
  {
    NothingPerforms(w, sig);
    PerformingLeads(w, sig, []);
    assert After(w, []) == w;
  }

  lemma FinalIsRun(w: World, sig: Signature, e: Settings, a: Answers) returns (x: World)
    requires Inv(w) && sig in w.store.batches && w.store.batches[sig].status == Broadcast && ChangeIsNew(w, sig, e, a)
    ensures Leads(w, sig, FinalWrites(e, w.hashes, w.store, sig, w.store.batches[sig], a), x)
  {
    hide Inv, Leads, BroadcastIntact, ChangeOf, Performs, Derive, ChangeMatches;
    BroadcastStage(w, sig);
    var derived := Derive(e, w.store, sig, w.store.batches[sig], a.confirmed);
    if derived.Ok? {
      DerivedIsPlanned(e, w.store, sig, w.store.batches[sig], a.confirmed, derived.value);
      FinalizingPerforms(w, sig, derived.value);
      var ws := FinalWrites(e, w.hashes, w.store, sig, w.store.batches[sig], a);
      PerformingLeads(w, sig, ws);
      x := After(w, ws);
    } else {
      NothingLeads(w, sig);
      x := w;
    }
  }

  /** Submission first, then the transition's writes. */
  lemma MarkingIsRun(w: World, sig: Signature) returns (x: World)
    requires Inv(w) && sig in w.store.batches && w.store.batches[sig].status == Signed
    requires LoadCompleteSigned(w.store, sig, w.store.batches[sig]).Ok?
    ensures Leads(w, sig, ContinueSignedWrites(w.hashes, w.store, sig, w.store.batches[sig], true, Ok(())), x)
  {
    hide *;
    var z := AfterSubmit(w, sig);
    SubmitAccepts(w, sig);
    SubmittingLeads(w, sig);
    LeadingKeeps(w, sig, [], z);
    ContinuingPerforms(z, sig, true, Ok(()));
    var ws := ContinueSignedWrites(w.hashes, w.store, sig, w.store.batches[sig], true, Ok(()));
    PerformingLeads(z, sig, ws);
    x := After(z, ws);
    LeadsOn(w, sig, [], z, ws, x);
    assert [] + ws == ws;
  }

  lemma SubmitAccepts(w: World, sig: Signature)
    requires sig in w.store.batches && LoadCompleteSigned(w.store, sig, w.store.batches[sig]).Ok?
    ensures var z := AfterSubmit(w, sig);
            && z.store == w.store && z.hashes == w.hashes && CanSubmit(w, sig)
            && TxidOf(z.store, sig).Some? && TxidOf(z.store, sig).value in z.electrs
  {
    GraphFields(w.store, sig, w.store.batches[sig]);
    hide LoadGraph;
  }

  /** An interrupted transition is completed and finalized, a complete graph is submitted and marked. */
  lemma SignedIsRun(w: World, sig: Signature, e: Settings, a: Answers) returns (x: World)
    requires Inv(w) && sig in w.store.batches && w.store.batches[sig].status == Signed && ChangeIsNew(w, sig, e, a)
    ensures Leads(w, sig, SignedWrites(e, w.hashes, w.store, sig, w.store.batches[sig], a), x)
  {
    var b := w.store.batches[sig];
    SignedStage(w, sig);
    SignedCases(w, sig, e, a);
    hide *;
    if LoadGraph(w.store, sig, b).value.reservation.status == Relayed {
      x := InterruptedIsRun(w, sig, e, a);
    } else if SignedWrites(e, w.hashes, w.store, sig, b, a) == [] {
      NothingLeads(w, sig);
      x := w;
    } else {
      x := MarkingIsRun(w, sig);
    }
  }

  lemma SignedCases(w: World, sig: Signature, e: Settings, a: Answers)
    requires sig in w.store.batches && SignedOk(w, sig)
    ensures var b := w.store.batches[sig];
            var r := LoadGraph(w.store, sig, b).value.reservation;
            LoadGraph(w.store, sig, b).Ok? &&
            (r.status != Relayed ==>
               || SignedWrites(e, w.hashes, w.store, sig, b, a) == []
               || (LoadCompleteSigned(w.store, sig, b).Ok?
                   && SignedWrites(e, w.hashes, w.store, sig, b, a)
                      == ContinueSignedWrites(w.hashes, w.store, sig, b, true, Ok(()))))
  {
    hide LoadGraph, BroadcastWrites, RawIntact;
  }

  /** What completing an interrupted transition leaves. */
  lemma InterruptedIsRun(w: World, sig: Signature, e: Settings, a: Answers) returns (x: World)
    requires Inv(w) && sig in w.store.batches && w.store.batches[sig].status == Signed && ChangeIsNew(w, sig, e, a)
    requires LoadGraph(w.store, sig, w.store.batches[sig]).Ok?
    requires LoadGraph(w.store, sig, w.store.batches[sig]).value.reservation.status == Relayed
    ensures Leads(w, sig, SignedWrites(e, w.hashes, w.store, sig, w.store.batches[sig], a), x)
  {
    hide *;
    var b := w.store.batches[sig];
    SignedStage(w, sig);
    var ws := StatusWrites(sig, b, LoadGraph(w.store, sig, b).value.process.rawHash);
    InterruptedWrites(w, sig, e, a);
    ResumingPerforms(w, sig);
    PerformingLeads(w, sig, ws);
    var y := After(w, ws);
    LeadingKeeps(w, sig, ws, y);
    StatusesFinish(w, sig, b, ws);
    StatusesKeepChange(w, sig, e, a, ws);
    x := FinalIsRun(y, sig, e, a);
    LeadsOn(w, sig, ws, y, FinalWrites(e, y.hashes, y.store, sig, y.store.batches[sig], a), x);
  }

  lemma InterruptedWrites(w: World, sig: Signature, e: Settings, a: Answers)
    requires sig in w.store.batches && SignedOk(w, sig) && w.store.batches[sig].start < w.store.batches[sig].end
    requires LoadGraph(w.store, sig, w.store.batches[sig]).value.reservation.status == Relayed
    ensures var b := w.store.batches[sig];
            var ws := StatusWrites(sig, b, LoadGraph(w.store, sig, b).value.process.rawHash);
            var y := After(w, ws);
            SignedWrites(e, w.hashes, w.store, sig, b, a)
            == ws + (if sig in y.store.batches then FinalWrites(e, y.hashes, y.store, sig, y.store.batches[sig], a)
                     else [])
  {
    StatusWritesShape(sig, w.store.batches[sig], LoadGraph(w.store, sig, w.store.batches[sig]).value.process.rawHash);
    hide LoadGraph, StatusWrites, FinalWrites, Replay, RawIntact;
  }

  /** The status writes make the batch broadcast and touch neither identifiers nor UTXOs. */
  lemma StatusesFinish(w: World, sig: Signature, b: Batch, ws: seq<Write>)
    requires sig in w.store.batches && w.store.batches[sig] == b && b.start < b.end && LoadGraph(w.store, sig, b).Ok?
    requires ws == StatusWrites(sig, b, LoadGraph(w.store, sig, b).value.process.rawHash)
    ensures sig in After(w, ws).store.batches && After(w, ws).store.batches[sig] == b.(status := Broadcast)
    ensures SameLinks(w.store, After(w, ws).store)
  {
    StatusWritesShape(sig, b, LoadGraph(w.store, sig, b).value.process.rawHash);
    hide StatusWrites, LoadGraph, Replay, SameLinks, IsStatusWrite;
    StatusesKeepLinks(w.store, ws);
    FinalBatch(w.store, sig, b, ws);
  }

  /** The change that is derived does not depend on statuses. */
  lemma StatusesKeepChange(w: World, sig: Signature, e: Settings, a: Answers, ws: seq<Write>)
    requires sig in w.store.batches && LoadGraph(w.store, sig, w.store.batches[sig]).Ok? && ChangeIsNew(w, sig, e, a)
    requires SameLinks(w.store, After(w, ws).store) && sig in After(w, ws).store.batches
    requires After(w, ws).store.batches[sig] == w.store.batches[sig].(status := Broadcast)
    ensures ChangeIsNew(After(w, ws), sig, e, a)
  {
    hide Replay, LoadGraph, Rows, Prepare.DeriveConfirmedChange;
    var b, t := w.store.batches[sig], After(w, ws).store;
    LinksKeepGraph(w.store, t, sig, b);
    GraphIgnoresStatus(t, sig, b, t.batches[sig]);
    GraphFields(w.store, sig, b);
    hide SameTransactions;
  }

  // ---- A constructed batch ----

  lemma ConstructIsRun(w: World, sig: Signature, e: Settings, a: Answers) returns (x: World)
    requires Inv(w) && Genuine(w) && Governs(w, e)
    requires sig in w.store.batches && w.store.batches[sig].status == Constructed && SignedIsNew(w, sig, e, a)
    ensures Leads(w, sig, ConstructWrites(e, w.hashes, w.store, sig, w.store.batches[sig], a), x)
  {
    hide Inv, Genuine, Governs, SignedIsNew, Leads, SignBatch, PersistWrite, MarkWrites;
    if SignBatch(e, w.store, w.store.batches[sig], a.response).Err? {
      NothingLeads(w, sig);
      return w;
    }
    x := PersistIsRun(w, sig, e, a);
  }

  lemma PersistIsRun(w: World, sig: Signature, e: Settings, a: Answers) returns (x: World)
    requires Inv(w) && Genuine(w) && Governs(w, e)
    requires sig in w.store.batches && w.store.batches[sig].status == Constructed && SignedIsNew(w, sig, e, a)
    requires SignBatch(e, w.store, w.store.batches[sig], a.response).Ok?
    ensures Leads(w, sig, ConstructWrites(e, w.hashes, w.store, sig, w.store.batches[sig], a), x)
  {
    hide *;
    var b := w.store.batches[sig];
    PersistingAnswer(w, sig, e, a);
    var p := PersistWrite(w.hashes, sig, b, SignBatch(e, w.store, b, a.response).value);
    var y := AfterWrite(w, p);
    PersistedStage(w, sig, p);
    PersistThenMark(w, sig, e, a);
    PerformingLeads(w, sig, [p]);
    AfterOne(w, p);
    if !(e.broadcastEnabled && a.submitted.Ok?) {
      x := y;
      assert [p] + [] == [p];
    } else {
      x := MarkingIsRun(y, sig);
      LeadsOn(w, sig, [p], y, ContinueSignedWrites(y.hashes, y.store, sig, y.store.batches[sig], true, Ok(())), x);
    }
  }

  lemma AfterOne(w: World, v: Write)
    ensures After(w, [v]) == AfterWrite(w, v)
  {
    ReplayOne(w.store, v);
  }

  /** What the operator prepares and the Managers sign fits the batch: by its own computation, not by
      assumption. */
  lemma SignedFits(w: World, sig: Signature, e: Settings, a: Answers)
    requires Genuine(w) && Governs(w, e) && sig in w.store.batches && SignedIsNew(w, sig, e, a)
    requires SignBatch(e, w.store, w.store.batches[sig], a.response).Ok?
    ensures FitsBatch(w, sig, SignBatch(e, w.store, w.store.batches[sig], a.response).value)
  {
    var b := w.store.batches[sig];
    assert GenuineBatch(w, sig);
    var answer := SignBatch(e, w.store, b, a.response).value;
    SignedIsPlanned(e, b.payload, b.sequence, b.unsigned, Loaded(w.store, b.reservation.value), a.response, answer);
    hide Genuine, GenuineBatch, Sign, Rows, IsSigned;
  }

  lemma PersistingAnswer(w: World, sig: Signature, e: Settings, a: Answers)
    requires Inv(w) && Genuine(w) && Governs(w, e)
    requires sig in w.store.batches && w.store.batches[sig].status == Constructed && SignedIsNew(w, sig, e, a)
    requires SignBatch(e, w.store, w.store.batches[sig], a.response).Ok?
    ensures ReservationOf(w.store, sig).Some? && w.store.batches[sig].reservation.Some?
    ensures var p := PersistWrite(w.hashes, sig, w.store.batches[sig],
                                  SignBatch(e, w.store, w.store.batches[sig], a.response).value);
            CanOperate(w, sig, p) && Performs(w, sig, [p])
  {
    SignedFits(w, sig, e, a);
    assert w.store.batches[sig].reservation.Some? by { hide Inv, Genuine, SignBatch; }
    hide Inv, Genuine, Governs, SignedIsNew, FitsBatch, Performs, CanOperate, PersistWrite, SignBatch;
    PersistingPerforms(w, sig, SignBatch(e, w.store, w.store.batches[sig], a.response).value);
  }

  /** Persisting makes a signed batch with a complete graph of exactly what was persisted. */
  lemma PersistedStage(w: World, sig: Signature, p: Write)
    requires Inv(w) && p.PersistSigned? && CanOperate(w, sig, p)
    ensures var b, y := w.store.batches[sig].(status := Signed), AfterWrite(w, p);
            && Inv(y) && sig in y.store.batches && y.store.batches[sig] == b && y.hashes == w.hashes
            && LoadCompleteSigned(y.store, sig, b).Ok?
            && var g := LoadGraph(y.store, sig, b).value;
               g.process == p.process && g.transaction == p.transaction && g.reservation.status == Held && g.id == p.id
  {
    OperateKeeps(w, sig, p);
    InvParts(w);
    PersistEffect(w, sig, p);
    ConstructedHolds(w, sig);
    hide Inv, Ranges, Custody, Stages, Owned, RequestsOk, Conserved, Payments, OneIncomplete, CanOperate,
         LoadCompleteSigned, LoadGraph, AfterWrite, WithRangeStatus, LinkSpend, Mappings;
    var y := AfterWrite(w, p);
    PersistedIsComplete(w, y, sig, p);
    CompleteLoads(y.store, sig, w.store.batches[sig].(status := Signed));
    GraphFields(y.store, sig, w.store.batches[sig].(status := Signed));
  }

  lemma CompleteLoads(s: StoreState, sig: Signature, b: Batch)
    requires LoadCompleteSigned(s, sig, b).Ok?
    ensures LoadGraph(s, sig, b).Ok? && b.status == Signed
  {
    hide LoadGraph;
  }

  lemma ConstructedHolds(w: World, sig: Signature)
    requires Stages(w) && sig in w.store.batches && w.store.batches[sig].status == Constructed
    ensures ReservationOf(w.store, sig).Some? && ReservationOf(w.store, sig).value.status == Held
  {
    assert StageOk(w, sig);
    hide LoadGraph;
  }

  /** After persisting, the rest is what a later invocation over the signed batch would do, if
      broadcasting is enabled and accepted. */
  lemma PersistThenMark(w: World, sig: Signature, e: Settings, a: Answers)
    requires sig in w.store.batches && SignBatch(e, w.store, w.store.batches[sig], a.response).Ok?
    requires w.store.batches[sig].reservation.Some?
    requires var b := w.store.batches[sig].(status := Signed);
             var p := PersistWrite(w.hashes, sig, w.store.batches[sig],
                                   SignBatch(e, w.store, w.store.batches[sig], a.response).value);
             var y := AfterWrite(w, p);
             && sig in y.store.batches && y.store.batches[sig] == b && LoadCompleteSigned(y.store, sig, b).Ok?
             && var g := LoadGraph(y.store, sig, b).value;
                g.process == p.process && g.transaction == p.transaction && g.reservation.status == Held && g.id == p.id
    ensures var p := PersistWrite(w.hashes, sig, w.store.batches[sig],
                                  SignBatch(e, w.store, w.store.batches[sig], a.response).value);
            var y := AfterWrite(w, p);
            ConstructWrites(e, w.hashes, w.store, sig, w.store.batches[sig], a)
            == [p] + (if e.broadcastEnabled && a.submitted.Ok?
                      then ContinueSignedWrites(y.hashes, y.store, sig, y.store.batches[sig], true, Ok(())) else [])
  {
    hide SignBatch;
    var b := w.store.batches[sig];
    var y := AfterWrite(w, PersistWrite(w.hashes, sig, b, SignBatch(e, w.store, b, a.response).value));
    CompleteLoads(y.store, sig, b.(status := Signed));
    GraphIgnoresStatus(y.store, sig, b, b.(status := Signed));
    hide LoadGraph, LoadCompleteSigned, RangeWrites, ApplyPersistSigned;
  }

  // ---- An observed batch ----

  /** Confirming changes statuses of the batch and of its requests, nothing else. */
  lemma ConfirmEffect(w: World, sig: Signature)
    requires Inv(w) && sig in w.store.batches && w.store.batches[sig].status == Observed
    ensures var b, ws := w.store.batches[sig], ConfirmWrites(sig, w.store.batches[sig]);
            var y := After(w, ws);
            && ConfirmedStatus(b) == Constructed
            && y == w.(store := w.store.(batches := w.store.batches[sig := b.(status := Constructed)],
                                         requests := y.store.requests))
  {
    var b := w.store.batches[sig];
    var ws := ConfirmWrites(sig, b);
    ConfirmedIsConstructed(w, sig);
    hide Inv, Apply, RangeWrites;
    var rest := RangeWrites(b.start, b.end, ConfirmedStatus(b));
    RangeWritesAt(b.start, b.end, ConfirmedStatus(b));
    ReplayAppend(w.store, [ws[0]], rest);
    AfterOne(w, ws[0]);
    ConfirmTouches(w.store, sig, b, rest);
  }

  lemma ConfirmedIsConstructed(w: World, sig: Signature)
    requires Inv(w) && sig in w.store.batches
    ensures ConfirmedStatus(w.store.batches[sig]) == Constructed
            && w.store.batches[sig].start < w.store.batches[sig].end
  {
    hide Custody, Stages, Payments, RequestsOk, Conserved, OneIncomplete, Chained;
  }

  lemma ConfirmTouches(s: StoreState, sig: Signature, b: Batch, rest: seq<Write>)
    requires sig in s.batches && s.batches[sig] == b && ConfirmedStatus(b) == Constructed
    requires forall k :: 0 <= k < |rest| ==> rest[k].SetRequestStatus?
    ensures var t := Replay(Apply(s, SetBatchStatus(sig, Constructed)), rest);
            t == s.(batches := s.batches[sig := b.(status := Constructed)], requests := t.requests)
  {
    RangeTouchesRequests(Apply(s, SetBatchStatus(sig, Constructed)), rest);
    hide Replay;
  }

  lemma ObservedIsRun(w: World, sig: Signature, e: Settings, a: Answers) returns (x: World)
    requires Inv(w) && Genuine(w) && sig in w.store.batches && w.store.batches[sig].status == Observed
             && Truthful(w, sig, e, a)
    ensures Leads(w, sig, ResumeWrites(e, w.hashes, w.store, sig, w.store.batches[sig], a), x)
  {
    var b := w.store.batches[sig];
    ObservedOutcome(w, sig, e, a);
    hide Inv, Genuine, Leads, Performs, FailWrites, ConfirmWrites, ContinueWrites, Truthful, Fails, Settles;
    if Fails(b, a.snapshot) {
      FailingPerforms(w, sig);
      PerformingLeads(w, sig, FailWrites(w.store, sig, b));
      x := After(w, FailWrites(w.store, sig, b));
    } else if Settles(b, a.snapshot) {
      x := SettledIsRun(w, sig, e, a);
    } else {
      NothingLeads(w, sig);
      x := w;
    }
  }

  /** With true answers a batch is failed only if its snapshot is dead, and settled only if it landed. */
  lemma ObservedOutcome(w: World, sig: Signature, e: Settings, a: Answers)
    requires Inv(w) && sig in w.store.batches && w.store.batches[sig].status == Observed && Truthful(w, sig, e, a)
    ensures Fails(w.store.batches[sig], a.snapshot) ==> Dead(w.snapshots[sig])
    ensures Settles(w.store.batches[sig], a.snapshot) ==> w.snapshots[sig] == Landed
  {
    hide Inv, Governs, SignedIsNew, ChangeIsNew;
    var s := a.snapshot;
    if s.status.Some? { assert s.status == if s.status.value then Some(true) else Some(false); }
  }

  lemma SettledIsRun(w: World, sig: Signature, e: Settings, a: Answers) returns (x: World)
    requires Inv(w) && Genuine(w) && sig in w.store.batches && w.store.batches[sig].status == Observed
             && Truthful(w, sig, e, a)
    requires w.snapshots[sig] == Landed
    ensures var b, ws := w.store.batches[sig], ConfirmWrites(sig, w.store.batches[sig]);
            Leads(w, sig, ws + ContinueWrites(e, w.hashes, Replay(w.store, ws), sig, b.(status := ConfirmedStatus(b)),
                                              a), x)
  {
    hide *;
    SnapshotKnown(w, sig, e, a);
    var ws := ConfirmWrites(sig, w.store.batches[sig]);
    var y := After(w, ws);
    ConfirmEffect(w, sig);
    ConfirmKeepsTruth(w, sig, e, a, y);
    ConfirmingPerforms(w, sig);
    PerformingLeads(w, sig, ws);
    LeadingKeeps(w, sig, ws, y);
    SettledWrites(w, sig, e, a);
    if PayloadOk(e, w.store.batches[sig]) {
      x := ConstructIsRun(y, sig, e, a);
      LeadsOn(w, sig, ws, y, ConstructWrites(e, y.hashes, y.store, sig, y.store.batches[sig], a), x);
    } else {
      x := y;
      assert ws + [] == ws;
    }
  }

  lemma SnapshotKnown(w: World, sig: Signature, e: Settings, a: Answers)
    requires Truthful(w, sig, e, a)
    ensures sig in w.snapshots
  {
    hide SnapshotTruth, SignedIsNew, ChangeIsNew;
  }

  lemma SettledWrites(w: World, sig: Signature, e: Settings, a: Answers)
    requires sig in w.store.batches && ConfirmedStatus(w.store.batches[sig]) == Constructed
    requires var y := After(w, ConfirmWrites(sig, w.store.batches[sig]));
             sig in y.store.batches && y.store.batches[sig] == w.store.batches[sig].(status := Constructed)
    ensures var b, y := w.store.batches[sig], After(w, ConfirmWrites(sig, w.store.batches[sig]));
            ContinueWrites(e, w.hashes, Replay(w.store, ConfirmWrites(sig, b)), sig, b.(status := ConfirmedStatus(b)),
                           a)
            == if PayloadOk(e, b) then ConstructWrites(e, y.hashes, y.store, sig, y.store.batches[sig], a) else []
  {
    hide ConfirmWrites, ConstructWrites, Replay;
  }

  lemma ConfirmKeepsTruth(w: World, sig: Signature, e: Settings, a: Answers, y: World)
    requires Truthful(w, sig, e, a)
    requires y == w.(store := w.store.(batches := w.store.batches[sig := w.store.batches[sig].(status := Constructed)],
                                       requests := y.store.requests))
    ensures SignedIsNew(y, sig, e, a) && Governs(y, e)
  {
    hide SnapshotTruth, Sign;
  }

  // ---- Any incomplete batch ----

  /** With true answers, all that an invocation of the operator does to the store is a run of the
      machine, so every invariant holds after it and, by `Procedures.CutShortKeeps`, inside it. */
  lemma ResumingIsRun(w: World, sig: Signature, e: Settings, a: Answers) returns (x: World)
    requires Inv(w) && Genuine(w) && sig in w.store.batches && Incomplete(w.store.batches[sig])
             && Truthful(w, sig, e, a)
    ensures Leads(w, sig, ResumeWrites(e, w.hashes, w.store, sig, w.store.batches[sig], a), x)
    ensures Inv(x) && Genuine(x)
  {
    hide Inv, Genuine, Governs, Leads, ConstructWrites, SignedWrites, FinalWrites, FailWrites, ConfirmWrites,
         SnapshotTruth, SignedIsNew, ChangeIsNew, PayloadOk, Fails, Settles, SignBatch, Derive;
    var b := w.store.batches[sig];
    NeverSnapshotted(w, sig);
    if b.status == Observed {
      x := ObservedIsRun(w, sig, e, a);
    } else if !PayloadOk(e, b) {
      NothingLeads(w, sig);
      x := w;
    } else if b.status == Constructed {
      x := ConstructIsRun(w, sig, e, a);
    } else if b.status == Signed {
      x := SignedIsRun(w, sig, e, a);
    } else {
      x := FinalIsRun(w, sig, e, a);
    }
    LeadingKeeps(w, sig, ResumeWrites(e, w.hashes, w.store, sig, b, a), x);
  }

  lemma NeverSnapshotted(w: World, sig: Signature)
    requires Inv(w) && sig in w.store.batches
    ensures w.store.batches[sig].status != Snapshotted
  {
    hide Ranges, Custody, Owned, Payments, RequestsOk, Conserved, OneIncomplete, LoadGraph;
    assert StageOk(w, sig);
  }

  lemma StepStore(w: World, step: Step)
    requires Enabled(w, step) && (step.Operate? || step.Submit?)
    ensures Next(w, step).store == if step.Operate? then Apply(w.store, step.write) else w.store
  {
    hide CanOperate, CanSubmit, Apply, TxidOf;
  }

  lemma {:induction false} StepsReplay(ws: seq<World>, steps: seq<Step>, sig: Signature, i: nat)
    requires Run(ws, steps) && Working(sig, steps) && i <= |steps|
    ensures ws[i].store == Replay(ws[0].store, OperatorWrites(steps[..i]))
    decreases i
  {
    hide Enabled, Next, Apply;
    if i > 0 {
      StepsReplay(ws, steps, sig, i - 1);
      StepStore(ws[i - 1], steps[i - 1]);
      assert steps[..i][..i - 1] == steps[..i - 1];
      var before := OperatorWrites(steps[..i - 1]);
      if steps[i - 1].Operate? {
        ReplayStep(ws[0].store, before, steps[i - 1].write);
      } else {
        assert before + [] == before;
      }
    }
  }

  /** Such a run leaves exactly what its writes leave. */
  lemma LeadingReplays(w: World, sig: Signature, ws: seq<Write>, x: World)
    requires Leads(w, sig, ws, x)
    ensures x.store == Replay(w.store, ws)
  {
    hide Enabled, Next, Replay, OperatorWrites;
    var steps :| Working(sig, steps) && OperatorWrites(steps) == ws && RunFrom(w, steps, x);
    var worlds :| Run(worlds, steps) && worlds[0] == w && worlds[|steps|] == x;
    StepsReplay(worlds, steps, sig, |steps|);
    assert steps[..|steps|] == steps;
  }
}
