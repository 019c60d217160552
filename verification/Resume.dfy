/** One invocation of the operator over an incomplete batch, wherever the batch stands. */
module Resume {
  import opened Bytes
  import opened Utx0
  import opened OperatorRows
  import opened Outcomes
  import opened Wire
  import opened Script
  import opened Signing
  import opened Transaction
  import opened Store
  import opened Withdrawal
  import Manager
  import Prepare
  import Vaa

  /** What stays the same over all invocations: the primitives, the Manager sets by index, the bridge
      as emitter, and the network's P2SH address encoding. */
  datatype Network = Network(crypto: Crypto, keccak: seq<u8> -> seq<u8>, managers: u32 -> Result<ManagerSet>,
                             emitter: Hash32, encodeP2sh: Hash20 -> Result<string>) {
    function Config(fee: u64, dust: u64): Prepare.Config { Prepare.Config(fee, dust, emitter, encodeP2sh) }
  }

  /** The arguments of one invocation. */
  datatype Settings = Settings(network: Network, fee: u64, dust: u64, managerSetIndex: u32, broadcastEnabled: bool) {
    function Config(): Prepare.Config { network.Config(fee, dust) }
  }

  /** What the chain answers about a snapshot: `persisted` is whether the stored transaction decodes
      to itself, `resent` how resending it went, `waited` whether its metadata appeared in time;
      execution, cursor and content agreement are read after that. */
  datatype SnapshotAnswers = SnapshotAnswers(persisted: bool, cursor: nat, status: Option<bool>, metadataFound: bool,
                                             blockhashValid: bool, resent: Result<()>, waited: Result<()>,
                                             executed: bool, cursorAfter: nat, matches: bool)

  datatype Response = Response(signedVaa: seq<u8>, signatures: Manager.Signatures)

  /** Everything the outside says during one invocation: about the snapshot, the response of the
      Managers to the registered transaction, whether Electrs took a submission, and the outputs of
      the confirmed transaction. */
  datatype Answers = Answers(snapshot: SnapshotAnswers, response: Result<Response>, submitted: Result<()>,
                             confirmed: Result<seq<TxOut>>)

  /** The persisted payload is for Dogecoin and for the Manager set in use. */
  predicate PayloadOk(e: Settings, b: Batch)
  { b.payload.destinationChain == DOGECOIN && b.payload.managerSetIndex == e.managerSetIndex }

  // ---- Signing ----

  /** A fully signed transaction, its change value, and the number of payload outputs before it. */
  datatype SignedAnswer = SignedAnswer(bytes: seq<u8>, change: u64, outputs: nat)

  function KeyOf(e: Settings, sequence: u64): Vaa.Key
  { Vaa.Key(Prepare.SOLANA_EMITTER_CHAIN, e.network.emitter, sequence) }

  /** What the Managers' response makes of the transaction that the batch's payload, reservation and
      unsigned bytes determine. */
  ghost function Sign(e: Settings, payload: Payload, sequence: u64, unsigned: Option<seq<u8>>, r: CustodyReservation,
                      response: Result<Response>): Result<SignedAnswer>
  {
    if unsigned.None? then Err
    else
      var ms :- e.network.managers(payload.managerSetIndex);
      var p :- Prepare.PreparedFromReservation(e.network.crypto, e.Config(), ms, payload, r, unsigned);
      var answer :- response;
      var signers := answer.signatures.signers;
      if Manager.AssertVaaAndManager(e.network.keccak, answer.signedVaa, answer.signatures, KeyOf(e, sequence), payload,
                                     ms).Err? then Err
      else if !Accepts(e.network.crypto, p.transaction, ms, signers) then Err
      else
        AcceptedIsUniform(e.network.crypto, p.transaction, ms, signers);
        Ok(SignedAnswer(TxBytes(Applied(p.transaction, ms, signers)), p.plan.changeSats, |payload.outputs|))
  }

  /** All that signing requires: persisted unsigned bytes that are recovered, a proper response of the
      Managers for the bridge's message, and signatures that are accepted for the transaction. */
  ghost predicate MaySign(e: Settings, b: Batch, r: CustodyReservation, response: Result<Response>)
  {
    && b.unsigned.Some? && response.Ok? && e.network.managers(b.payload.managerSetIndex).Ok?
    && var ms := e.network.managers(b.payload.managerSetIndex).value;
       var p := Prepare.PreparedFromReservation(e.network.crypto, e.Config(), ms, b.payload, r, b.unsigned);
       && p.Ok? && Accepts(e.network.crypto, p.value.transaction, ms, response.value.signatures.signers)
       && Manager.IsProperResponse(e.network.keccak, response.value.signedVaa, response.value.signatures,
                                   Vaa.Key(1, e.network.emitter, b.sequence), b.payload, ms)
  }

  lemma SignsIff(e: Settings, b: Batch, r: CustodyReservation, response: Result<Response>)
    ensures Sign(e, b.payload, b.sequence, b.unsigned, r, response).Ok? <==> MaySign(e, b, r, response)
  {
    hide Prepare.PreparedFromReservation, Manager.AssertVaaAndManager, Manager.IsProperResponse, TxBytes, Accepts,
         Applied;
    var ms := e.network.managers(b.payload.managerSetIndex);
    if ms.Ok? && response.Ok? {
      Manager.PassesIffProper(e.network.keccak, response.value.signedVaa, response.value.signatures,
                              KeyOf(e, b.sequence), b.payload, ms.value);
    }
  }

  method PrepareAndSign(e: Settings, b: Batch, r: CustodyReservation, response: Result<Response>)
    returns (q: Result<SignedAnswer>)
    ensures q == Sign(e, b.payload, b.sequence, b.unsigned, r, response)
    ensures q.Ok? <==> MaySign(e, b, r, response)
  {
    SignsIff(e, b, r, response);
    hide MaySign;
    hide Prepare.PreparedFromReservation, Manager.AssertVaaAndManager, TxBytes, Accepts, Applied, SignedUpTo;
    if b.unsigned.None? { return Err; }
    var ms :- e.network.managers(b.payload.managerSetIndex);
    var p :- Prepare.PreparedFromReservation(e.network.crypto, e.Config(), ms, b.payload, r, b.unsigned);
    var answer :- response;
    var _ :- Manager.AssertVaaAndManager(e.network.keccak, answer.signedVaa, answer.signatures, KeyOf(e, b.sequence),
                                         b.payload, ms);
    var tx := new UnsignedTransaction.FromValue(p.transaction);
    var _ :- ApplyManagerSignatures(e.network.crypto, tx, ms, answer.signatures.signers);
    AcceptedIsUniform(e.network.crypto, p.transaction, ms, answer.signatures.signers);
    SignedIffApplied(p.transaction, ms, answer.signatures.signers, tx.Value());
    var bytes := tx.Serialize();
    return Ok(SignedAnswer(bytes, p.plan.changeSats, |b.payload.outputs|));
  }

  // ---- A constructed batch ----

  function PersistWrite(h: Hashes, sig: Signature, b: Batch, a: SignedAnswer): (p: Write)
    requires b.reservation.Some?
    ensures p.PersistSigned?
  {
    var rawHash := h.sha256(a.bytes);
    PersistSigned(sig, b.reservation.value, rawHash,
                  DogeTx(Some(h.doubleSha256(a.bytes)), Some(a.bytes), Signed),
                  Process(b.start, b.end, rawHash, a.outputs, a.change, Signed))
  }

  ghost function SignBatch(e: Settings, s: StoreState, b: Batch, response: Result<Response>): Result<SignedAnswer>
  {
    if b.reservation.None? || b.reservation.value !in s.reservations then Err
    else Sign(e, b.payload, b.sequence, b.unsigned, Loaded(s, b.reservation.value), response)
  }

  /** Signs, persists what was signed, and then broadcasts it if that is enabled. */
  ghost function ConstructWrites(e: Settings, h: Hashes, s: StoreState, sig: Signature, b: Batch, a: Answers)
    : seq<Write>
  {
    var signed := SignBatch(e, s, b, a.response);
    if signed.Err? then []
    else
      var p := PersistWrite(h, sig, b, signed.value);
      var marks := MarkWrites(Apply(s, p), sig, b, b.reservation.value, p.rawHash, h.doubleSha256(signed.value.bytes));
      [p] + (if e.broadcastEnabled && a.submitted.Ok? && marks.Ok? then marks.value else [])
  }

  lemma PersistOutcome(h: Hashes, s: StoreState, sig: Signature, b: Batch, a: SignedAnswer)
    requires b.start <= b.end && b.reservation.Some? && b.reservation.value in s.reservations
    ensures LeavesPersisted(h, s, Apply(s, PersistWrite(h, sig, b, a)), sig, b, a)
  {
    hide Mappings;
    var txid := h.doubleSha256(a.bytes);
    MappingsByIndex(b.start, b.end, txid, Mappings(b.start, b.end, txid));
  }

  /** What was signed is stored under the hashes of its bytes, as the batch's and as signed. */
  ghost predicate LeavesPersisted(h: Hashes, s: StoreState, t: StoreState, sig: Signature, b: Batch, a: SignedAnswer)
    requires b.reservation.Some? && b.reservation.value in s.reservations
  {
    LeavesSigned(s, t, sig, b, b.reservation.value,
                 Process(b.start, b.end, h.sha256(a.bytes), a.outputs, a.change, Signed),
                 DogeTx(Some(h.doubleSha256(a.bytes)), Some(a.bytes), Signed))
  }

  method ContinueConstructed(store: OperatorStore, e: Settings, h: Hashes, sig: Signature, b: Batch, a: Answers)
    returns (r: Result<()>)
    requires b.start <= b.end
    modifies store
    ensures store.Wrote(ConstructWrites(e, h, old(store.state), sig, b, a))
    ensures SignBatch(e, old(store.state), b, a.response).Err? ==> store.state == old(store.state)
    ensures SignBatch(e, old(store.state), b, a.response).Ok? ==>
              LeavesConstructed(e, h, old(store.state), store.state, sig, b, a)
  {
    hide Apply, MarkWrites, PersistWrite, Sign, MaySign, Loaded, LeavesPersisted, LeavesTransition, Transitions,
         LoadGraph;
    if b.reservation.None? || b.reservation.value !in store.state.reservations { return Err; }
    var signed :- PrepareAndSign(e, b, Loaded(store.state, b.reservation.value), a.response);
    var p := PersistWrite(h, sig, b, signed);
    PersistOutcome(h, store.state, sig, b, signed);
    CommitOne(store, p);
    if e.broadcastEnabled {
      ghost var t := store.state;
      r := MarkBatchBroadcast(store, sig, b, b.reservation.value, p.rawHash, h.doubleSha256(signed.bytes), a.submitted);
      ReplayAppend(old(store.state), [p], if r.Ok? then MarkWrites(t, sig, b, b.reservation.value, p.rawHash,
                                                                   h.doubleSha256(signed.bytes)).value else []);
    } else {
      r := Ok(());
    }
  }

  method CommitOne(store: OperatorStore, w: Write)
    modifies store
    ensures store.Wrote([w]) && store.state == Apply(old(store.state), w)
  {
    hide Apply;
    ReplayOne(store.state, w);
    store.Commit(w);
  }

  /** What was signed is persisted, and it is broadcast at most if enabled and submitted. */
  ghost predicate LeavesConstructed(e: Settings, h: Hashes, s: StoreState, t: StoreState, sig: Signature, b: Batch,
                                    a: Answers)
    requires SignBatch(e, s, b, a.response).Ok?
  {
    exists u ::
      LeavesPersisted(h, s, u, sig, b, SignBatch(e, s, b, a.response).value)
      && (t == u || (e.broadcastEnabled && a.submitted.Ok? && LoadGraph(u, sig, b).Ok?
                     && LeavesTransition(u, t, sig, b, LoadGraph(u, sig, b).value)))
  }

  // ---- Any stage after the snapshot ----

  /** The change that the confirmed outputs give back, checked against the process record, the
      persisted unsigned bytes and the reservation. */
  function Derive(e: Settings, s: StoreState, sig: Signature, b: Batch, confirmed: Result<seq<TxOut>>)
    : Result<Option<CustodyUtxo>>
  {
    var g :- LoadGraph(s, sig, b);
    var outputs :- confirmed;
    if g.transaction.txid.None? then Err
    else
      Prepare.DeriveConfirmedChange(e.Config(), Prepare.ChangeRecord(g.process.returnIndex, g.process.returnAmount),
                                    b.unsigned, Rows(s.utxos, g.reservation.utxos), |b.payload.outputs|, outputs,
                                    g.transaction.txid.value)
  }

  function FinalWrites(e: Settings, h: Hashes, s: StoreState, sig: Signature, b: Batch, a: Answers): seq<Write>
  {
    var derived := Derive(e, s, sig, b, a.confirmed);
    if BroadcastIntact(h, s, sig, b) && derived.Ok?
      then [FinalizeConfirmed(sig, s.processes[sig].rawHash, derived.value)]
    else []
  }

  /** An interrupted transition is completed and then followed by finalization. */
  function SignedWrites(e: Settings, h: Hashes, s: StoreState, sig: Signature, b: Batch, a: Answers): seq<Write>
  {
    var writes := ContinueSignedWrites(h, s, sig, b, e.broadcastEnabled, a.submitted);
    if LoadGraph(s, sig, b).Ok? && TransitionStarted(LoadGraph(s, sig, b).value) && writes != [] then
      var t := Replay(s, writes);
      writes + (if sig in t.batches then FinalWrites(e, h, t, sig, t.batches[sig], a) else [])
    else writes
  }

  ghost function ContinueWrites(e: Settings, h: Hashes, s: StoreState, sig: Signature, b: Batch, a: Answers): seq<Write>
  {
    if !PayloadOk(e, b) then []
    else if b.status == Broadcast then FinalWrites(e, h, s, sig, b, a)
    else if b.status == Signed then SignedWrites(e, h, s, sig, b, a)
    else ConstructWrites(e, h, s, sig, b, a)
  }

  method ContinueSnapshotBatch(store: OperatorStore, e: Settings, h: Hashes, sig: Signature, b: Batch, a: Answers)
    returns (r: Result<()>)
    requires b.start <= b.end
    modifies store
    ensures store.Wrote(ContinueWrites(e, h, old(store.state), sig, b, a))
    ensures b.payload.destinationChain != 65 || b.payload.managerSetIndex != e.managerSetIndex ==>
              r.Err? && store.state == old(store.state)
  {
    hide Apply, LoadGraph, ConstructWrites, ContinueSignedWrites, BroadcastIntact, Derive;
    if b.payload.destinationChain != DOGECOIN || b.payload.managerSetIndex != e.managerSetIndex { return Err; }
    if b.status == Broadcast {
      var derived := Derive(e, store.state, sig, b, a.confirmed);
      r := ResumeBroadcast(store, h, sig, b, derived);
      return;
    }
    if b.status == Signed {
      r := ResumeSigned(store, e, h, sig, b, a);
      return;
    }
    r := ContinueConstructed(store, e, h, sig, b, a);
  }

  method ResumeSigned(store: OperatorStore, e: Settings, h: Hashes, sig: Signature, b: Batch, a: Answers)
    returns (r: Result<()>)
    requires b.start <= b.end
    modifies store
    ensures store.Wrote(SignedWrites(e, h, old(store.state), sig, b, a))
  {
    hide Apply, LoadGraph, BroadcastIntact, Derive, LeavesTransition, LeavesFinal;
    var loaded := LoadGraph(store.state, sig, b);
    if loaded.Ok? && TransitionStarted(loaded.value) {
      var _ :- CompleteBroadcastTransition(store, sig, b, loaded.value);
      ghost var writes := BroadcastWrites(sig, b, loaded.value).value;
      assert writes + [] == writes;
      if sig !in store.state.batches { return Err; }
      ghost var t := store.state;
      var derived := Derive(e, store.state, sig, store.state.batches[sig], a.confirmed);
      r := ResumeBroadcast(store, h, sig, store.state.batches[sig], derived);
      ReplayAppend(old(store.state), writes, FinalWrites(e, h, t, sig, t.batches[sig], a));
    } else {
      r := ContinueSigned(store, h, sig, b, e.broadcastEnabled, a.submitted);
    }
  }

  // ---- An observed batch ----

  /** The operator learns how the snapshot ended: its metadata was there, or appeared in time because
      the transaction was known to have run or could be sent again. */
  predicate Learns(a: SnapshotAnswers)
  {
    && a.persisted && a.status != Some(false)
    && (a.metadataFound || (a.waited.Ok? && (a.status == Some(true) || (a.blockhashValid && a.resent.Ok?))))
  }

  predicate Settles(b: Batch, a: SnapshotAnswers)
  { Learns(a) && a.executed && a.cursorAfter == b.end && a.matches }

  /** The snapshot failed, or nobody knows it and it is too late to send it, while the cursor is still
      at the start of the batch. */
  predicate Fails(b: Batch, a: SnapshotAnswers)
  {
    || (Learns(a) && !a.executed && a.cursorAfter == b.start)
    || (a.persisted && a.cursor == b.start
        && (a.status == Some(false) || (a.status.None? && !a.metadataFound && !a.blockhashValid)))
  }

  ghost function ResumeWrites(e: Settings, h: Hashes, s: StoreState, sig: Signature, b: Batch, a: Answers): seq<Write>
  {
    if b.status != Observed then ContinueWrites(e, h, s, sig, b, a)
    else if Fails(b, a.snapshot) then FailWrites(s, sig, b)
    else if Settles(b, a.snapshot) then
      var writes := ConfirmWrites(sig, b);
      writes + ContinueWrites(e, h, Replay(s, writes), sig, b.(status := ConfirmedStatus(b)), a)
    else []
  }

  /** Waits for the snapshot's metadata and then settles the batch by it. */
  method ConfirmSnapshotBatch(store: OperatorStore, sig: Signature, b: Batch, s: SnapshotAnswers)
    returns (r: Result<Batch>)
    requires b.start < b.end
    modifies store
    ensures r == if s.waited.Ok? && s.executed && s.cursorAfter == b.end && s.matches
                 then Ok(b.(status := ConfirmedStatus(b))) else Err
    ensures store.Wrote(if s.waited.Err? then []
                        else if s.executed then (if s.cursorAfter == b.end && s.matches then ConfirmWrites(sig, b)
                                                 else [])
                        else if s.cursorAfter == b.start then FailWrites(old(store.state), sig, b) else [])
    ensures if r.Ok? then LeavesSettled(old(store.state), store.state, sig, b)
            else if s.waited.Ok? && !s.executed && s.cursorAfter == b.start then
              LeavesFailed(old(store.state), store.state, sig, b)
            else store.state == old(store.state)
  {
    hide Apply, FailWrites, ConfirmWrites, LeavesSettled, LeavesFailed;
    if s.waited.Err? { return Err; }
    r := FinishConfirmedSnapshot(store, sig, b, s.executed, s.cursorAfter, s.matches);
  }

  /** Settles an observed batch: confirmed, failed, or left as it is. */
  method SettleSnapshot(store: OperatorStore, sig: Signature, b: Batch, s: SnapshotAnswers) returns (r: Result<Batch>)
    requires b.start < b.end
    modifies store
    ensures r == if Settles(b, s) then Ok(b.(status := ConfirmedStatus(b))) else Err
    ensures store.Wrote(if Fails(b, s) then FailWrites(old(store.state), sig, b)
                        else if Settles(b, s) then ConfirmWrites(sig, b) else [])
    ensures if Settles(b, s) then LeavesSettled(old(store.state), store.state, sig, b)
            else if Fails(b, s) then LeavesFailed(old(store.state), store.state, sig, b)
            else store.state == old(store.state)
  {
    hide Apply, FailWrites, ConfirmWrites, LeavesSettled, LeavesFailed;
    if s.status.Some? { assert s.status == if s.status.value then Some(true) else Some(false); }
    if !s.persisted { return Err; }
    var action := SelectObservedAction(s.status, s.metadataFound, s.blockhashValid, s.cursor, b.start);
    if action.ResendOriginal? && s.resent.Err? { return Err; }
    if action.Fail? || action.Wait? {
      var _ := ApplyObservedTerminalEffect(store, sig, b, action);
      return Err;
    }
    if s.metadataFound {
      r := FinishConfirmedSnapshot(store, sig, b, s.executed, s.cursorAfter, s.matches);
    } else {
      r := ConfirmSnapshotBatch(store, sig, b, s);
    }
  }

  /** The batch and its requests are settled before anything else is written. */
  ghost predicate SettledAndContinued(e: Settings, h: Hashes, s: StoreState, t: StoreState, sig: Signature, b: Batch,
                                      a: Answers)
  {
    exists u ::
      LeavesSettled(s, u, sig, b)
      && t == Replay(u, ContinueWrites(e, h, u, sig,
                                       b.(status := if b.unsigned.Some? then Constructed else Snapshotted), a))
  }

  method ResumeSnapshotBatch(store: OperatorStore, e: Settings, h: Hashes, sig: Signature, b: Batch, a: Answers)
    returns (r: Result<()>)
    requires b.start < b.end
    modifies store
    ensures store.Wrote(ResumeWrites(e, h, old(store.state), sig, b, a))
    ensures b.status == Observed ==>
              if Settles(b, a.snapshot) then SettledAndContinued(e, h, old(store.state), store.state, sig, b, a)
              else if Fails(b, a.snapshot) then LeavesFailed(old(store.state), store.state, sig, b)
              else store.state == old(store.state)
  {
    hide Apply, ContinueWrites, FailWrites, ConfirmWrites, Settles, Fails, LeavesSettled, LeavesFailed;
    var batch := b;
    if batch.status == Observed {
      batch :- SettleSnapshot(store, sig, b, a.snapshot);
      assert !Fails(b, a.snapshot) by { SettledIsNotFailed(b, a.snapshot); }
      ghost var writes := ConfirmWrites(sig, b);
      ReplayAppend(old(store.state), writes, ContinueWrites(e, h, Replay(old(store.state), writes), sig,
                                                              batch, a));
    }
    r := ContinueSnapshotBatch(store, e, h, sig, batch, a);
  }

  lemma SettledIsNotFailed(b: Batch, s: SnapshotAnswers)
    ensures Settles(b, s) ==> !Fails(b, s)
  {}
}
