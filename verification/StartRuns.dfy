/** A fresh invocation of the operator is a run of the machine as well: recording, reserving, the
    snapshot's fate, and everything after it. */
module StartRuns {
  import opened Bytes
  import opened Utx0
  import opened OperatorRows
  import opened Store
  import opened Withdrawal
  import opened Resume
  import opened Start
  import opened Machine
  import opened OperatorSteps
  import opened Runs
  import opened Provenance
  import opened Procedures
  import opened BroadcastRuns
  import opened OperatorRules
  import opened ResumeRuns
  import opened ResumeProgress
  import Prepare

  // ---- Runs of all kinds of operator steps ----

  /** The durable write that a step makes for the operator, if any. */
  function WriteOf(w: World, step: Step): seq<Write>
  {
    match step
    case Record(index) => if index < |w.requested| then [UpsertRequest(index, Recorded(w, index))] else []
    case Begin(sig, id, r, b) => [ReserveForSnapshot(id, r, sig, b)]
    case Operate(_, v) => [v]
    case Deposit(_) => []
    case Ask(_) => []
    case Land(_) => []
    case Reject(_) => []
    case Expire(_) => []
    case Submit(_) => []
  }

  function JournalOf(ws: seq<World>, steps: seq<Step>): seq<Write>
    requires |ws| == |steps| + 1
    decreases |steps|
  {
    if steps == [] then []
    else
      var n := |steps| - 1;
      JournalOf(ws[..n + 1], steps[..n]) + WriteOf(ws[n], steps[n])
  }

  /** Some run, without deposits or new requests, makes exactly these durable writes. */
  ghost predicate Makes(w: World, journal: seq<Write>, x: World)
  { exists ws, steps :: MakesBy(w, journal, x, ws, steps) }

  ghost predicate MakesBy(w: World, journal: seq<Write>, x: World, ws: seq<World>, steps: seq<Step>)
  {
    && Run(ws, steps) && ws[0] == w && ws[|steps|] == x && JournalOf(ws, steps) == journal
    && forall i :: 0 <= i < |steps| ==> !steps[i].Deposit? && !steps[i].Ask?
  }

  lemma NothingMakes(w: World)
    ensures Makes(w, [], w)
  {
    assert MakesBy(w, [], w, [w], []);
  }

  lemma WithoutLast<T>(s: seq<T>, t: seq<T>)
    requires t != []
    ensures (s + t)[..|s + t| - 1] == s + t[..|t| - 1] && (s + t)[|s + t| - 1] == t[|t| - 1]
  {}

  lemma {:induction false} JournalAppend(us: seq<World>, a: seq<Step>, vs: seq<World>, b: seq<Step>)
    requires |us| == |a| + 1 && |vs| == |b| + 1 && us[|a|] == vs[0]
    ensures JournalOf(us[..|a|] + vs, a + b) == JournalOf(us, a) + JournalOf(vs, b)
    decreases |b|
  {
    hide WriteOf;
    if b == [] {
      assert us[..|a|] + vs == us && a + b == a;
    } else {
      var n := |b| - 1;
      var front := us[..|a|];
      JournalAppend(us, a, vs[..n + 1], b[..n]);
      WithoutLast(front, vs);
      WithoutLast(a, b);
      JournalStep(front + vs, a + b);
      JournalStep(vs, b);
      assert (front + vs)[|a| + n] == vs[n];
    }
  }

  lemma JournalStep(ws: seq<World>, steps: seq<Step>)
    requires |ws| == |steps| + 1 && steps != []
    ensures JournalOf(ws, steps) == JournalOf(ws[..|ws| - 1], steps[..|steps| - 1])
                                    + WriteOf(ws[|steps| - 1], steps[|steps| - 1])
  {
    hide WriteOf;
  }

  lemma MakesOn(w: World, a: seq<Write>, x: World, b: seq<Write>, y: World)
    requires Makes(w, a, x) && Makes(x, b, y)
    ensures Makes(w, a + b, y)
  {
    hide Enabled, Next, JournalOf;
    var us, s :| MakesBy(w, a, x, us, s);
    var vs, t :| MakesBy(x, b, y, vs, t);
    JournalAppend(us, s, vs, t);
    var ws, steps := us[..|s|] + vs, s + t;
    forall i | 0 <= i < |steps| ensures Enabled(ws[i], steps[i]) && ws[i + 1] == Next(ws[i], steps[i]) {
      if i < |s| {
        assert ws[i] == us[i] && ws[i + 1] == us[i + 1];
      } else {
        assert ws[i] == vs[i - |s|] && ws[i + 1] == vs[i + 1 - |s|];
      }
    }
    assert MakesBy(w, a + b, y, ws, steps);
  }

  lemma StepMakes(w: World, step: Step)
    requires Enabled(w, step) && !step.Deposit? && !step.Ask?
    ensures Makes(w, WriteOf(w, step), Next(w, step))
  {
    hide Enabled, Next, WriteOf;
    var ws := [w, Next(w, step)];
    assert ws[..1] == [w] && [step][..0] == [] && JournalOf([w], []) == [];
    assert [] + WriteOf(w, step) == WriteOf(w, step);
    assert MakesBy(w, WriteOf(w, step), Next(w, step), ws, [step]);
  }

  lemma {:induction false} WorkingJournal(ws: seq<World>, steps: seq<Step>, sig: Signature)
    requires |ws| == |steps| + 1 && Working(sig, steps)
    ensures JournalOf(ws, steps) == OperatorWrites(steps)
    decreases |steps|
  {
    if steps != [] { WorkingJournal(ws[..|steps|], steps[..|steps| - 1], sig); }
  }

  lemma LeadingMakes(w: World, sig: Signature, journal: seq<Write>, x: World)
    requires Leads(w, sig, journal, x)
    ensures Makes(w, journal, x)
  {
    hide Enabled, Next, JournalOf, OperatorWrites;
    var steps :| Working(sig, steps) && OperatorWrites(steps) == journal && RunFrom(w, steps, x);
    var ws :| Run(ws, steps) && ws[0] == w && ws[|steps|] == x;
    WorkingJournal(ws, steps, sig);
    assert MakesBy(w, journal, x, ws, steps);
  }

  lemma MakingKeeps(w: World, journal: seq<Write>, x: World)
    requires Inv(w) && Genuine(w) && Makes(w, journal, x)
    ensures Inv(x) && Genuine(x)
  {
    hide Inv, Genuine, Enabled, Next, JournalOf;
    var ws, steps :| MakesBy(w, journal, x, ws, steps);
    RunKeeps(ws, steps, |steps|);
    RunIsGenuine(ws, steps, |steps|);
  }

  /** What an invocation leaves alone. */
  ghost predicate Continues(w: World, x: World)
  { KeepsColumns(w.store, x.store) && x.requested == w.requested && x.rules == w.rules }

  lemma {:induction false} QuietRun(ws: seq<World>, steps: seq<Step>, i: nat)
    requires Run(ws, steps) && i <= |steps| && forall j :: 0 <= j < |steps| ==> !steps[j].Deposit? && !steps[j].Ask?
    ensures ws[i].requested == ws[0].requested && ws[i].rules == ws[0].rules
    decreases i
  {
    hide Enabled, Next;
    if i > 0 {
      QuietRun(ws, steps, i - 1);
      StepAsksNothing(ws[i - 1], steps[i - 1]);
    }
  }

  lemma StepAsksNothing(w: World, step: Step)
    requires Enabled(w, step) && !step.Ask?
    ensures Next(w, step).requested == w.requested && Next(w, step).rules == w.rules
  {
    hide CanOperate, CanBegin, CanRecord, CanSubmit, CanLand, Undecided, TxidOf, Recorded, Apply;
  }

  lemma MakingContinues(w: World, journal: seq<Write>, x: World)
    requires Makes(w, journal, x)
    ensures Continues(w, x)
  {
    hide Enabled, Next, JournalOf, KeepsColumns;
    var ws, steps :| MakesBy(w, journal, x, ws, steps);
    RunKeepsColumns(ws, steps, 0, |steps|);
    QuietRun(ws, steps, |steps|);
  }

  // ---- True openings ----

  /** No batch is incomplete, cursor and history are the chain's, signature and identifier are new,
      and the store selects distinct available UTXOs and adds up their value. */
  ghost predicate OpensTruly(w: World, e: Settings, o: Opening)
  {
    && NoneIncomplete(w.store) && Governs(w, e) && w.minDust <= e.dust
    && o.cursor == w.cursor && o.history == w.requested
    && o.sig !in w.store.batches && o.id !in w.store.reservations
    && (o.selection.Ok? ==>
          var (utxos, selected) := o.selection.value;
          && utxos != [] && Machine.Distinct(utxos) && selected == Sum(w.store.utxos, utxos)
          && forall x :: x in utxos ==> x in w.store.utxos && w.store.utxos[x].status == Available)
  }

  /** The world after the requests were recorded. */
  function Recording(w: World, e: Settings, o: Opening): World { After(w, OpenRecords(e, w.store, o).0) }

  /** The world in which the batch was begun. */
  function Begun(w: World, e: Settings, o: Opening): (y: World)
    requires BeginWrite(e, w.store, o).Ok?
    ensures o.sig in y.store.batches
  {
    var b := BeginWrite(e, w.store, o).value;
    AfterBegin(Recording(w, e, o), o.sig, b.id, b.reservation, b.batch)
  }

  /** What becomes of the snapshot before the operator looks at it. */
  function AfterFate(w: World, sig: Signature, fate: ChainStatus): World
    requires fate == Landed ==> sig in w.store.batches
  { if fate == Landed then AfterLand(w, sig) else AfterDeath(w, sig, fate) }

  // ---- Recording ----

  lemma {:induction false} RecordsAreMade(w: World, start: nat, records: seq<RequestRecord>, k: nat)
    requires RequestsOk(w) && Shown(w, start, records) && k <= |RecordWrites(w.store, start, records).0|
    ensures Makes(w, RecordWrites(w.store, start, records).0[..k],
                  After(w, RecordWrites(w.store, start, records).0[..k]))
    decreases k
  {
    hide RequestsOk, Shown, RecordWrites, After, Makes, HasFee, Enabled, Next, WriteOf;
    var ws := RecordWrites(w.store, start, records).0;
    if k == 0 {
      NothingAfter(w, ws);
      NothingMakes(w);
      assert ws[..0] == [];
    } else {
      RecordsAreMade(w, start, records, k - 1);
      RecordingPerforms(w, start, records, k - 1);
      var x := After(w, ws[..k - 1]);
      StepMakes(x, Record(start + k - 1));
      WrittenRecord(w, start, records, k - 1);
      MakesOn(w, ws[..k - 1], x, [ws[k - 1]], After(w, ws[..k]));
      assert ws[..k] == ws[..k - 1] + [ws[k - 1]];
    }
  }

  lemma WrittenRecord(w: World, start: nat, records: seq<RequestRecord>, k: nat)
    requires RequestsOk(w) && Shown(w, start, records) && k < |RecordWrites(w.store, start, records).0|
    ensures var ws := RecordWrites(w.store, start, records).0;
            [ws[k]] == WriteOf(After(w, ws[..k]), Record(start + k))
  {
    RecordingAgrees(w, start, records);
    RecordedSoFar(w, start, records, k);
    hide RecordWrites, Replay, Recorded, RequestsOk, HasFee;
  }

  lemma {:induction false} RequestsStay(s: StoreState, ws: seq<Write>, k: nat)
    requires forall j :: 0 <= j < |ws| ==> ws[j].UpsertRequest?
    ensures forall i :: i in s.requests ==> i in Replay(s, ws).requests
    ensures k < |ws| ==> ws[k].index in Replay(s, ws).requests
    decreases |ws|
  {
    if ws != [] { RequestsStay(s, ws[..|ws| - 1], k); }
  }

  /** Once recording got through, every request of the range is recorded. */
  lemma AllRecorded(w: World, start: nat, records: seq<RequestRecord>)
    requires RequestsOk(w) && Shown(w, start, records) && RecordWrites(w.store, start, records).1
    ensures var y := After(w, RecordWrites(w.store, start, records).0);
            && y == w.(store := w.store.(requests := y.store.requests))
            && forall i: nat :: start <= i < start + |records| ==> i in y.store.requests
  {
    hide RecordWrites, Replay, Recorded, RequestsOk, HasFee, Shown;
    RecordingAgrees(w, start, records);
    var ws := RecordWrites(w.store, start, records).0;
    UpsertsTouchRequests(w.store, ws);
    forall i: nat | start <= i < start + |records| ensures i in Replay(w.store, ws).requests {
      var k := i - start;
      assert ws[k].UpsertRequest? && ws[k].index == start + k;
      RequestsStay(w.store, ws, k);
    }
  }

  lemma OpeningRecords(w: World, e: Settings, o: Opening)
    requires Inv(w) && OpensTruly(w, e, o)
    ensures Makes(w, OpenRecords(e, w.store, o).0, Recording(w, e, o))
    ensures OpenRecords(e, w.store, o).1 ==>
              && OpenPayload(e, o).Ok?
              && Recording(w, e, o) == w.(store := w.store.(requests := Recording(w, e, o).store.requests))
              && forall i: nat :: o.cursor <= i < EndOf(o) ==> i in Recording(w, e, o).store.requests
  {
    InvParts(w);
    hide Inv, RequestsOk, Ranges, Stages, Custody, Owned, Conserved, Payments, OneIncomplete, RecordWrites, Makes,
         After, Governs;
    if OpenPayload(e, o).Err? {
      NothingMakes(w);
      NothingAfter(w, []);
      assert [][..0] == OpenRecords(e, w.store, o).0;
    } else {
      var records := o.history[o.cursor..EndOf(o)];
      assert Shown(w, o.cursor, records);
      var ws := RecordWrites(w.store, o.cursor, records).0;
      RecordsAreMade(w, o.cursor, records, |ws|);
      assert ws[..|ws|] == ws;
      if RecordWrites(w.store, o.cursor, records).1 { AllRecorded(w, o.cursor, records); }
    }
  }

  // ---- Beginning ----

  /** A payload with one output per request withdraws what the requests ask for. */
  lemma {:induction false} PayloadIsRequested(requested: seq<RequestRecord>, start: nat, outputs: seq<Output>)
    requires start + |outputs| <= |requested|
    requires FulfilsAll(requested[start..start + |outputs|], outputs)
    ensures Prepare.Total(outputs) == SumRequested(requested, start, start + |outputs|)
    decreases outputs
  {
    if outputs != [] {
      var n := |outputs| - 1;
      var asked := requested[start..start + |outputs|];
      assert asked[n] == requested[start + n] && Fulfils(asked[n], outputs[n]);
      assert asked[..n] == requested[start..start + n] && FulfilsAll(asked[..n], outputs[..n]);
      PayloadIsRequested(requested, start, outputs[..n]);
      Prepare.TotalAppend(outputs[..n], outputs[n]);
      assert outputs == outputs[..n] + [outputs[n]];
    }
  }

  /** What preparing checks is enough for the reservation: it covers payload and fee, and what it
      returns is nothing or not dust. */
  lemma OpenedCovers(e: Settings, s: StoreState, o: Opening, payload: Payload, begin: Write)
    requires OpenBatch(e, s, o, payload) == Ok(begin)
    ensures begin.batch.payload == payload && begin.id == o.id && begin.batch.reservation == Some(o.id)
    ensures begin.batch.unsigned.Some? && o.selection.Ok?
    ensures var r := begin.reservation;
            && r == Reservation(r.required, o.selection.value.1, o.selection.value.0, Held, None, None, None)
            && r.required == Prepare.Total(payload.outputs) + e.fee <= r.selected
            && (r.selected == r.required || r.selected - r.required >= e.dust)
            && (payload.destinationChain == DOGECOIN && payload.managerSetIndex == e.managerSetIndex ==>
                  IsPrepared(e.network, payload, Joined(s.utxos, o.id, r), begin.batch.unsigned.value))
  {
    var ms := e.network.managers(e.managerSetIndex).value;
    var r := begin.reservation;
    var loaded := Joined(s.utxos, o.id, r);
    Prepare.CheckedSumExact(payload.outputs, 0);
    var p := Prepare.PreparedFromReservation(e.network.crypto, e.Config(), ms, payload, loaded, None).value;
    Prepare.PreparedPaysExactly(e.network.crypto, e.Config(), ms, payload, loaded, None, p);
    hide Prepare.PreparedFromReservation, Prepare.CheckedSum, Prepare.Total, Rows;
    if payload.destinationChain == DOGECOIN && payload.managerSetIndex == e.managerSetIndex {
      assert PreparedWith(e.network, payload, loaded, begin.batch.unsigned.value, e.fee, e.dust);
    }
  }

  lemma OpenedPayload(e: Settings, o: Opening)
    requires OpenPayload(e, o).Ok?
    ensures var p := OpenPayload(e, o).value;
            && p.destinationChain == DOGECOIN && p.managerSetIndex == e.managerSetIndex
            && FulfilsAll(o.history[o.cursor..EndOf(o)], p.outputs)
  {
    var records := o.history[o.cursor..EndOf(o)];
    OutputsFulfil(records, OpenPayload(e, o).value.outputs);
    hide OutputsFor, FulfilsAll;
  }

  /** Whatever a fresh invocation begins, the machine can begin. */
  lemma OpeningBegins(w: World, e: Settings, o: Opening)
    requires Inv(w) && OpensTruly(w, e, o) && BeginWrite(e, w.store, o).Ok?
    ensures var b := BeginWrite(e, w.store, o).value;
            b.sig == o.sig && CanBegin(Recording(w, e, o), o.sig, b.id, b.reservation, b.batch)
  {
    hide *;
    BeginUnfolds(w, e, o);
    OpeningRecords(w, e, o);
    OpenedPayload(e, o);
    var y, payload, b := Recording(w, e, o), OpenPayload(e, o).value, BeginWrite(e, w.store, o).value;
    OpenedCovers(e, y.store, o, payload, b);
    OpenedRange(w, e, o);
    PayloadIsRequested(w.requested, o.cursor, payload.outputs);
    OpenedCanBegin(w, y, e, o, b);
  }

  lemma BeginUnfolds(w: World, e: Settings, o: Opening)
    requires BeginWrite(e, w.store, o).Ok?
    ensures OpenPayload(e, o).Ok? && OpenRecords(e, w.store, o).1
    ensures OpenBatch(e, Recording(w, e, o).store, o, OpenPayload(e, o).value) == BeginWrite(e, w.store, o)
  {
    hide OpenBatch, OpenPayload, OpenRecords, Replay;
  }

  lemma OpenedRange(w: World, e: Settings, o: Opening)
    requires OpensTruly(w, e, o) && OpenPayload(e, o).Ok?
    requires FulfilsAll(o.history[o.cursor..EndOf(o)], OpenPayload(e, o).value.outputs)
    ensures o.cursor == w.cursor < EndOf(o) <= |w.requested| < U64_LIMIT && o.history == w.requested
    ensures EndOf(o) == CappedBatchEnd(w.cursor, |w.requested|)
    ensures o.cursor + |OpenPayload(e, o).value.outputs| == EndOf(o)
  {
    hide PayloadFor, Governs, NoneIncomplete;
  }

  lemma OpenedCanBegin(w: World, y: World, e: Settings, o: Opening, b: Write)
    requires OpensTruly(w, e, o) && y == w.(store := w.store.(requests := y.store.requests))
    requires forall i: nat :: o.cursor <= i < EndOf(o) ==> i in y.store.requests
    requires o.cursor == w.cursor < EndOf(o) <= |w.requested| < U64_LIMIT && o.history == w.requested
    requires EndOf(o) == CappedBatchEnd(w.cursor, |w.requested|)
    requires b.ReserveForSnapshot? && b.sig == o.sig && b.id == o.id
    requires b.batch.start == o.cursor && b.batch.end == EndOf(o) && b.batch.status == Observed
    requires b.batch.reservation == Some(o.id) && b.batch.unsigned.Some? && o.selection.Ok?
    requires FulfilsAll(o.history[o.cursor..EndOf(o)], b.batch.payload.outputs)
    requires var r := b.reservation;
             && r == Reservation(r.required, o.selection.value.1, o.selection.value.0, Held, None, None, None)
             && r.required == SumRequested(w.requested, o.cursor, EndOf(o)) + e.fee <= r.selected
             && (r.selected == r.required || r.selected - r.required >= e.dust)
             && IsPrepared(e.network, b.batch.payload, Joined(y.store.utxos, o.id, r), b.batch.unsigned.value)
    ensures CanBegin(y, o.sig, o.id, b.reservation, b.batch)
  {
    hide FulfilsAll, IsPrepared, Sum, SumRequested, Joined;
  }

  // ---- The whole invocation ----

  lemma BegunIsMade(w: World, e: Settings, o: Opening)
    requires Inv(w) && OpensTruly(w, e, o) && BeginWrite(e, w.store, o).Ok?
    ensures Makes(w, OpenRecords(e, w.store, o).0 + [BeginWrite(e, w.store, o).value], Begun(w, e, o))
  {
    hide *;
    OpeningRecords(w, e, o);
    OpeningBegins(w, e, o);
    BeginMakes(w, e, o);
    MakesOn(w, OpenRecords(e, w.store, o).0, Recording(w, e, o), [BeginWrite(e, w.store, o).value], Begun(w, e, o));
  }

  lemma BeginMakes(w: World, e: Settings, o: Opening)
    requires BeginWrite(e, w.store, o).Ok?
    requires var b := BeginWrite(e, w.store, o).value;
             b.ReserveForSnapshot? && b.sig == o.sig
               && CanBegin(Recording(w, e, o), o.sig, b.id, b.reservation, b.batch)
    ensures Makes(Recording(w, e, o), [BeginWrite(e, w.store, o).value], Begun(w, e, o))
  {
    hide BeginWrite, CanBegin, Recording, Makes, AfterBegin;
    var b := BeginWrite(e, w.store, o).value;
    StepMakes(Recording(w, e, o), Begin(o.sig, b.id, b.reservation, b.batch));
  }

  lemma BegunBatch(w: World, e: Settings, o: Opening)
    requires BeginWrite(e, w.store, o).Ok?
    ensures var b, y := BeginWrite(e, w.store, o).value, Begun(w, e, o);
            && o.sig in y.store.batches && y.store.batches[o.sig] == b.batch && b.batch.status == Observed
            && b.batch.start == o.cursor < b.batch.end
            && y.snapshots == w.snapshots[o.sig := Pending] && y.cursor == w.cursor && y.hashes == w.hashes
            && y.store == Replay(w.store, OpenRecords(e, w.store, o).0 + [b])
  {
    hide OpenRecords, Replay, Prepare.PreparedFromReservation, Reserve;
    var b := BeginWrite(e, w.store, o).value;
    ReplayStep(w.store, OpenRecords(e, w.store, o).0, b);
  }

  /** Whatever becomes of the snapshot is a step of the chain that writes nothing. */
  lemma FateIsMade(y: World, sig: Signature, fate: ChainStatus)
    requires Undecided(y, sig) && sig in y.store.batches && y.store.batches[sig].start == y.cursor
    ensures Makes(y, [], AfterFate(y, sig, fate)) && AfterFate(y, sig, fate).store == y.store
    ensures AfterFate(y, sig, fate).hashes == y.hashes
  {
    hide Makes;
    match fate
    case Landed => StepMakes(y, Land(sig));
    case Rejected => StepMakes(y, Reject(sig));
    case Expired => StepMakes(y, Expire(sig));
    case Pending =>
      NothingMakes(y);
      assert y.snapshots[sig := Pending] == y.snapshots;
  }

  /** With a true opening and true answers, all that a fresh invocation does to the store is a run of
      the machine, whatever becomes of its snapshot. */
  lemma StartIsRun(w: World, e: Settings, o: Opening, a: Answers, fate: ChainStatus) returns (x: World)
    requires Inv(w) && Genuine(w) && OpensTruly(w, e, o)
    requires BeginWrite(e, w.store, o).Ok? ==>
               Truthful(AfterFate(Begun(w, e, o), o.sig, fate), o.sig, e, Sent(o, a))
    ensures Makes(w, StartWrites(e, w.hashes, w.store, o, a), x) && Inv(x) && Genuine(x)
    ensures BeginWrite(e, w.store, o).Ok? ==> Continues(Begun(w, e, o), x)
  {
    hide *;
    var records := OpenRecords(e, w.store, o).0;
    if BeginWrite(e, w.store, o).Err? {
      OpeningRecords(w, e, o);
      x := Recording(w, e, o);
      OnlyRecords(e, w.hashes, w.store, o, a);
    } else {
      var begin, y := BeginWrite(e, w.store, o).value, Begun(w, e, o);
      BegunIsMade(w, e, o);
      BegunBatch(w, e, o);
      x := GoesOn(w, y, e, o, a, fate);
      var rest := ResumeWrites(e, y.hashes, y.store, o.sig, begin.batch, Sent(o, a));
      MakingContinues(y, rest, x);
      MakesOn(w, records + [begin], y, rest, x);
      BegunWrites(e, w.hashes, w.store, o, a);
    }
    MakingKeeps(w, StartWrites(e, w.hashes, w.store, o, a), x);
  }

  lemma OnlyRecords(e: Settings, h: Hashes, s: StoreState, o: Opening, a: Answers)
    requires BeginWrite(e, s, o).Err?
    ensures StartWrites(e, h, s, o, a) == OpenRecords(e, s, o).0
  {
    hide OpenRecords, BeginWrite;
  }

  lemma BegunWrites(e: Settings, h: Hashes, s: StoreState, o: Opening, a: Answers)
    requires BeginWrite(e, s, o).Ok?
    ensures var records, begin := OpenRecords(e, s, o).0, BeginWrite(e, s, o).value;
            begin.ReserveForSnapshot? && StartWrites(e, h, s, o, a)
            == records + [begin] + ResumeWrites(e, h, Replay(s, records + [begin]), o.sig, begin.batch, Sent(o, a))
  {
    hide OpenRecords, ResumeWrites, Replay, OpenBatch, OpenPayload;
  }

  lemma GoesOn(w: World, y: World, e: Settings, o: Opening, a: Answers, fate: ChainStatus) returns (x: World)
    requires Inv(w) && Genuine(w) && OpensTruly(w, e, o) && BeginWrite(e, w.store, o).Ok? && y == Begun(w, e, o)
    requires Makes(w, OpenRecords(e, w.store, o).0 + [BeginWrite(e, w.store, o).value], y)
    requires o.sig in y.store.batches && y.store.batches[o.sig].status == Observed
    requires y.store.batches[o.sig].start == o.cursor && y.cursor == w.cursor
             && y.snapshots == w.snapshots[o.sig := Pending]
    requires Truthful(AfterFate(y, o.sig, fate), o.sig, e, Sent(o, a))
    ensures Makes(y, ResumeWrites(e, y.hashes, y.store, o.sig, y.store.batches[o.sig], Sent(o, a)), x)
  {
    hide *;
    MakingKeeps(w, OpenRecords(e, w.store, o).0 + [BeginWrite(e, w.store, o).value], y);
    StandsAtCursor(w, y, e, o);
    FateIsMade(y, o.sig, fate);
    var z := AfterFate(y, o.sig, fate);
    MakingKeeps(y, [], z);
    ObservedIsIncomplete(z.store.batches[o.sig]);
    x := ResumingIsRun(z, o.sig, e, Sent(o, a));
    var rest := ResumeWrites(e, z.hashes, z.store, o.sig, z.store.batches[o.sig], Sent(o, a));
    LeadingMakes(z, o.sig, rest, x);
    MakesOn(y, [], z, rest, x);
    assert [] + rest == rest;
  }

  lemma StandsAtCursor(w: World, y: World, e: Settings, o: Opening)
    requires OpensTruly(w, e, o) && y.snapshots == w.snapshots[o.sig := Pending] && y.cursor == w.cursor
    requires o.sig in y.store.batches && y.store.batches[o.sig].start == o.cursor
    ensures Undecided(y, o.sig) && y.store.batches[o.sig].start == y.cursor
  {
    hide NoneIncomplete, Governs;
  }

  lemma ObservedIsIncomplete(b: Batch)
    requires b.status == Observed
    ensures Incomplete(b)
  {}

  /** Such a run leaves exactly what its writes leave. */
  lemma {:induction false} JournalReplays(ws: seq<World>, steps: seq<Step>)
    requires Run(ws, steps) && forall i :: 0 <= i < |steps| ==> !steps[i].Deposit? && !steps[i].Ask?
    ensures ws[|steps|].store == Replay(ws[0].store, JournalOf(ws, steps))
    decreases |steps|
  {
    hide Enabled, Next, Apply, WriteOf;
    if steps != [] {
      var n := |steps| - 1;
      var front := ws[..n + 1];
      assert forall i :: 0 <= i <= n ==> front[i] == ws[i];
      assert forall i :: 0 <= i < n ==> steps[..n][i] == steps[i];
      JournalReplays(front, steps[..n]);
      StepWrites(ws[n], steps[n]);
      var before := JournalOf(front, steps[..n]);
      ReplayAppend(ws[0].store, before, WriteOf(ws[n], steps[n]));
    }
  }

  lemma StepWrites(w: World, step: Step)
    requires Enabled(w, step) && !step.Deposit? && !step.Ask?
    ensures Next(w, step).store == Replay(w.store, WriteOf(w, step))
  {
    hide CanOperate, CanBegin, CanSubmit, CanLand, Undecided, TxidOf, Recorded;
    if WriteOf(w, step) != [] {
      var v := WriteOf(w, step)[0];
      hide Apply;
      ReplayStep(w.store, [], v);
      assert [] + [v] == [v];
    }
  }

  lemma MakingReplays(w: World, journal: seq<Write>, x: World)
    requires Makes(w, journal, x)
    ensures x.store == Replay(w.store, journal)
  {
    hide Enabled, Next, JournalOf, Replay;
    var ws, steps :| MakesBy(w, journal, x, ws, steps);
    JournalReplays(ws, steps);
  }

  // ---- Progress ----

  /** A fresh invocation whose snapshot lands, and that is answered favourably, brings its batch to
      broadcast. */
  lemma FavourableStartBroadcasts(w: World, e: Settings, o: Opening, a: Answers)
    requires Inv(w) && Genuine(w) && OpensTruly(w, e, o) && BeginWrite(e, w.store, o).Ok?
    requires Truthful(AfterFate(Begun(w, e, o), o.sig, Landed), o.sig, e, Sent(o, a))
    requires var y := Begun(w, e, o); Favourable(y.store, o.sig, y.store.batches[o.sig], e, Sent(o, a))
    ensures Reaches(Replay(w.store, StartWrites(e, w.hashes, w.store, o, a)), o.sig, {Broadcast, Confirmed})
  {
    hide *;
    var y := Begun(w, e, o);
    var begin, records := BeginWrite(e, w.store, o).value, OpenRecords(e, w.store, o).0;
    BegunIsMade(w, e, o);
    BegunBatch(w, e, o);
    MakingKeeps(w, records + [begin], y);
    StandsAtCursor(w, y, e, o);
    FateIsMade(y, o.sig, Landed);
    var z := AfterFate(y, o.sig, Landed);
    MakingKeeps(y, [], z);
    ObservedIsIncomplete(z.store.batches[o.sig]);
    FavourableResumeFinishes(z, o.sig, e, Sent(o, a));
    BegunWrites(e, w.hashes, w.store, o, a);
    ReplayAppend(w.store, records + [begin], ResumeWrites(e, z.hashes, z.store, o.sig, begin.batch, Sent(o, a)));
  }
}
