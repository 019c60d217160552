/** Recovery of an interrupted broadcast transition: however often and wherever it crashes, the
    next completed run reaches one and the same store, which passes every drift check. */
module BroadcastRecovery {
  import opened Bytes
  import opened Store
  import opened Withdrawal

  // ---- Status writes are idempotent ----

  predicate IsStatusWrite(w: Write)
  {
    (w.SetTransactionStatus? || w.SetProcessStatus? || w.SetRequestStatus? || w.SetBatchStatus?)
      && w.status == Broadcast
  }

  /** The effect of the write is already there. */
  predicate Done(s: StoreState, w: Write)
    requires IsStatusWrite(w)
  {
    match w
    case SetTransactionStatus(h, status) => h in s.transactions ==> s.transactions[h].status == status
    case SetProcessStatus(sig, status) => sig in s.processes ==> s.processes[sig].status == status
    case SetRequestStatus(i, status) => i in s.requests ==> s.requests[i].status == status
    case SetBatchStatus(sig, status) => sig in s.batches ==> s.batches[sig].status == status
  }

  lemma DoneIsNoOp(s: StoreState, w: Write)
    requires IsStatusWrite(w) && Done(s, w)
    ensures Apply(s, w) == s
  {
    match w
    case SetTransactionStatus(h, _) =>
      assert h in s.transactions ==> s.transactions[h := s.transactions[h]] == s.transactions;
    case SetProcessStatus(sig, _) => assert sig in s.processes ==> s.processes[sig := s.processes[sig]] == s.processes;
    case SetRequestStatus(i, _) => assert i in s.requests ==> s.requests[i := s.requests[i]] == s.requests;
    case SetBatchStatus(sig, _) => assert sig in s.batches ==> s.batches[sig := s.batches[sig]] == s.batches;
  }

  lemma DoneKept(s: StoreState, w: Write, v: Write)
    requires IsStatusWrite(w) && IsStatusWrite(v)
    ensures Done(Apply(s, w), w)
    ensures Done(s, v) ==> Done(Apply(s, w), v)
  {
    hide ApplyReserve, ApplyRelease, ApplyPersistSigned, ApplyMarkBroadcast, ApplyFinalize;
  }

  lemma {:induction false} AllDone(s: StoreState, ws: seq<Write>, i: nat)
    requires forall k :: 0 <= k < |ws| ==> IsStatusWrite(ws[k])
    requires i < |ws|
    ensures Done(Replay(s, ws), ws[i])
    decreases |ws|
  {
    hide Apply, Done;
    var n := |ws| - 1;
    if i < n {
      AllDone(s, ws[..n], i);
      DoneKept(Replay(s, ws[..n]), ws[n], ws[i]);
    } else {
      DoneKept(Replay(s, ws[..n]), ws[n], ws[n]);
    }
  }

  lemma {:induction false} NoOps(s: StoreState, ws: seq<Write>)
    requires forall k :: 0 <= k < |ws| ==> IsStatusWrite(ws[k]) && Done(s, ws[k])
    ensures Replay(s, ws) == s
    decreases |ws|
  {
    hide Apply, Done;
    if ws != [] {
      NoOps(s, ws[..|ws| - 1]);
      DoneIsNoOp(s, ws[|ws| - 1]);
    }
  }

  /** Restarting the list after `k` writes and again stopping after `j` of them is the same as
      having stopped once, after the larger number. */
  lemma RestartIsProgress(s: StoreState, ws: seq<Write>, k: nat, j: nat)
    requires forall i :: 0 <= i < |ws| ==> IsStatusWrite(ws[i])
    requires k <= |ws| && j <= |ws|
    ensures Replay(Replay(s, ws[..k]), ws[..j]) == Replay(s, ws[..if j <= k then k else j])
  {
    hide Apply, Done, Replay;
    var mid := Replay(s, ws[..k]);
    var m := if j <= k then j else k;
    forall i | 0 <= i < m ensures Done(mid, ws[..m][i]) {
      AllDone(s, ws[..k], i);
    }
    NoOps(mid, ws[..m]);
    if j > k {
      assert ws[..j] == ws[..k] + ws[k..j];
      ReplayAppend(mid, ws[..k], ws[k..j]);
      ReplayAppend(s, ws[..k], ws[k..j]);
    }
  }

  // ---- Status writes keep the graph ----

  /** Only statuses of transactions, processes and requests may differ. */
  ghost predicate SameLinks(s: StoreState, t: StoreState)
  {
    && t.reservations == s.reservations && t.utxos == s.utxos && t.mappings == s.mappings
    && SameProcesses(s.processes, t.processes) && SameTransactions(s.transactions, t.transactions)
    && t.requests.Keys == s.requests.Keys
  }

  ghost predicate SameProcesses(s: map<Signature, Process>, t: map<Signature, Process>)
  { t.Keys == s.Keys && forall sig :: sig in s ==> t[sig] == s[sig].(status := t[sig].status) }

  ghost predicate SameTransactions(s: map<RawHash, DogeTx>, t: map<RawHash, DogeTx>)
  { t.Keys == s.Keys && forall h :: h in s ==> t[h] == s[h].(status := t[h].status) }

  lemma StatusesKeepTables(s: StoreState, sig: Signature, h: RawHash, i: nat, status: OperatorStatus)
    ensures SameProcesses(s.processes, s.processes)
    ensures SameProcesses(s.processes, WithProcessStatus(s.processes, sig, status))
    ensures SameTransactions(s.transactions, s.transactions)
    ensures SameTransactions(s.transactions, WithTransactionStatus(s.transactions, h, status))
    ensures WithRequestStatus(s.requests, i, status).Keys == s.requests.Keys
  {}

  lemma StatusKeepsLinks(s: StoreState, w: Write)
    requires IsStatusWrite(w)
    ensures SameLinks(s, Apply(s, w))
    ensures !w.SetBatchStatus? ==> Apply(s, w).batches == s.batches
  {
    hide ApplyReserve, ApplyRelease, ApplyPersistSigned, ApplyMarkBroadcast, ApplyFinalize;
    StatusesKeepTables(s, if w.SetProcessStatus? then w.sig else "",
                       if w.SetTransactionStatus? then w.rawHash else seq(32, _ => 0),
                       if w.SetRequestStatus? then w.index else 0, w.status);
    hide SameProcesses, SameTransactions, WithProcessStatus, WithTransactionStatus, WithRequestStatus;
  }

  lemma {:induction false} StatusesKeepLinks(s: StoreState, ws: seq<Write>)
    requires forall k :: 0 <= k < |ws| ==> IsStatusWrite(ws[k])
    ensures SameLinks(s, Replay(s, ws))
    ensures (forall k :: 0 <= k < |ws| ==> !ws[k].SetBatchStatus?) ==> Replay(s, ws).batches == s.batches
    decreases |ws|
  {
    hide Apply;
    if ws != [] {
      StatusesKeepLinks(s, ws[..|ws| - 1]);
      StatusKeepsLinks(Replay(s, ws[..|ws| - 1]), ws[|ws| - 1]);
    }
  }

  lemma LinksKeepGraph(s: StoreState, t: StoreState, sig: Signature, b: Batch)
    requires SameLinks(s, t) && LoadGraph(s, sig, b).Ok?
    ensures LoadGraph(t, sig, b).Ok?
    ensures var g, g' := LoadGraph(s, sig, b).value, LoadGraph(t, sig, b).value;
            && g'.id == g.id && g'.reservation == g.reservation && g'.utxos == g.utxos
            && g'.process == t.processes[sig] && g'.process.rawHash == g.process.rawHash
            && g'.transaction == t.transactions[g.process.rawHash]
            && g'.transaction.txid == g.transaction.txid && g'.transaction.raw == g.transaction.raw
  {
    hide Mappings;
    var r := s.reservations[b.reservation.value];
    assert seq(|r.utxos|, k requires 0 <= k < |r.utxos| => s.utxos[r.utxos[k]])
        == seq(|r.utxos|, k requires 0 <= k < |r.utxos| => t.utxos[r.utxos[k]]);
  }

  /** Marking the reservation keeps every link and is recognized as a started transition. */
  lemma MarkKeepsGraph(s: StoreState, sig: Signature, b: Batch, txid: Txid)
    requires LoadGraph(s, sig, b).Ok? && LoadGraph(s, sig, b).value.transaction.txid == Some(txid)
    ensures var t := Apply(s, MarkReservationBroadcast(b.reservation.value, txid));
            && t.batches == s.batches && t.requests == s.requests
            && LoadGraph(t, sig, b).Ok?
            && var g, g' := LoadGraph(s, sig, b).value, LoadGraph(t, sig, b).value;
               g'.id == g.id && g'.process == g.process && g'.transaction == g.transaction
               && g'.reservation == g.reservation.(status := Relayed, spendTxid := Some(txid))
  {
    hide Mappings;
    var t := Apply(s, MarkReservationBroadcast(b.reservation.value, txid));
    var r := s.reservations[b.reservation.value];
    assert forall o :: o in r.utxos ==> o in t.utxos && (CustodyLinked(t.utxos[o], b.reservation.value, sig, b.start)
                                        <==> CustodyLinked(s.utxos[o], b.reservation.value, sig, b.start));
  }

  // ---- The states between the writes ----

  lemma {:induction false} RangeWritesAt(start: nat, end: nat, status: OperatorStatus)
    requires start <= end
    ensures |RangeWrites(start, end, status)| == end - start
    ensures forall k :: 0 <= k < end - start ==>
            RangeWrites(start, end, status)[k] == SetRequestStatus(start + k, status)
    decreases end
  {
    if start < end { RangeWritesAt(start, end - 1, status); }
  }

  lemma StatusWritesShape(sig: Signature, b: Batch, h: RawHash)
    requires b.start <= b.end
    ensures var ws := StatusWrites(sig, b, h);
            && |ws| == b.end - b.start + 3
            && ws[0] == SetTransactionStatus(h, Broadcast) && ws[1] == SetProcessStatus(sig, Broadcast)
            && (forall i :: b.start <= i < b.end ==> ws[2 + i - b.start] == SetRequestStatus(i, Broadcast))
            && ws[|ws| - 1] == SetBatchStatus(sig, Broadcast)
            && (forall k :: 0 <= k < |ws| ==> IsStatusWrite(ws[k]))
            && (forall k :: 0 <= k < |ws| - 1 ==> !ws[k].SetBatchStatus?)
  {
    RangeWritesAt(b.start, b.end, Broadcast);
    var ws := StatusWrites(sig, b, h);
    forall i | b.start <= i < b.end ensures ws[2 + i - b.start] == SetRequestStatus(i, Broadcast) {
      assert RangeWrites(b.start, b.end, Broadcast)[i - b.start] == SetRequestStatus(i, Broadcast);
    }
    forall k | 0 <= k < |ws| - 1 ensures IsStatusWrite(ws[k]) && !ws[k].SetBatchStatus? {
      if k >= 2 { assert ws[k] == RangeWrites(b.start, b.end, Broadcast)[k - 2]; }
    }
  }

  /** A signed batch whose transaction has just been submitted. */
  ghost predicate ReadyToMark(h: Hashes, s: StoreState, sig: Signature, b: Batch)
  {
    && sig in s.batches && s.batches[sig] == b && b.start < b.end
    && LoadCompleteSigned(s, sig, b).Ok?
    && RawIntact(h, LoadGraph(s, sig, b).value)
  }

  function Marked(s: StoreState, sig: Signature, b: Batch): StoreState
    requires LoadGraph(s, sig, b).Ok?
  {
    var g := LoadGraph(s, sig, b).value;
    if g.transaction.txid.None? then s else Apply(s, MarkReservationBroadcast(g.id, g.transaction.txid.value))
  }

  /** The store after the reservation was marked and `k` status writes were made. */
  function Interrupted(s: StoreState, sig: Signature, b: Batch, k: nat): StoreState
    requires LoadGraph(s, sig, b).Ok?
    requires k <= |StatusWrites(sig, b, LoadGraph(s, sig, b).value.process.rawHash)|
  { Replay(Marked(s, sig, b), StatusWrites(sig, b, LoadGraph(s, sig, b).value.process.rawHash)[..k]) }

  /** Every state between the marking and the last write is recognized, and makes exactly the
      status writes again, whether or not broadcasting is enabled or Electrs answers. */
  lemma InterruptedResumes(h: Hashes, s: StoreState, sig: Signature, b: Batch, k: nat, enabled: bool,
                           submitted: Result<()>)
    requires ReadyToMark(h, s, sig, b)
    requires k < |StatusWrites(sig, b, LoadGraph(s, sig, b).value.process.rawHash)|
    ensures Interrupted(s, sig, b, k).batches == s.batches
    ensures ContinueSignedWrites(h, Interrupted(s, sig, b, k), sig, b, enabled, submitted)
         == StatusWrites(sig, b, LoadGraph(s, sig, b).value.process.rawHash)
  {
    hide Apply, Replay, StatusWrites, LoadGraph;
    var g := LoadGraph(s, sig, b).value;
    GraphFields(s, sig, b);
    var ws := StatusWrites(sig, b, g.process.rawHash);
    StatusWritesShape(sig, b, g.process.rawHash);
    MarkKeepsGraph(s, sig, b, g.transaction.txid.value);
    var t, u := Marked(s, sig, b), Interrupted(s, sig, b, k);
    StatusesKeepLinks(t, ws[..k]);
    LinksKeepGraph(t, u, sig, b);
  }

  lemma GraphFields(s: StoreState, sig: Signature, b: Batch)
    requires LoadGraph(s, sig, b).Ok?
    ensures b.reservation.Some? && b.start <= b.end
    ensures var g := LoadGraph(s, sig, b).value;
            g.id == b.reservation.value && g.transaction.txid.Some?
            && sig in s.processes && g.process == s.processes[sig]
            && g.process.rawHash in s.transactions && g.transaction == s.transactions[g.process.rawHash]
            && g.id in s.reservations && g.reservation == s.reservations[g.id]
  {
    hide Mappings;
  }

  /** Once every status is broadcast, a linked graph with marked custody passes the drift checks. */
  lemma LinkedIsIntact(h: Hashes, s: StoreState, t: StoreState, sig: Signature, b: Batch)
    requires SameLinks(s, t) && LoadGraph(s, sig, b).Ok? && AllRequests(t, b.start, b.end, Broadcast)
    requires var g := LoadGraph(s, sig, b).value;
             && RawIntact(h, g)
             && g.reservation.status == Relayed && g.reservation.spendTxid == g.transaction.txid
             && (sig in t.processes ==> t.processes[sig].status == Broadcast)
             && (g.process.rawHash in t.transactions ==> t.transactions[g.process.rawHash].status == Broadcast)
    ensures BroadcastIntact(h, t, sig, b)
  {
    hide LoadGraph, SameLinks, AllRequests;
    LinksKeepGraph(s, t, sig, b);
    GraphFields(t, sig, b);
  }

  /** The completed transition leaves a broadcast batch that passes every drift check. */
  lemma CompletedIsIntact(h: Hashes, s: StoreState, sig: Signature, b: Batch)
    requires ReadyToMark(h, s, sig, b)
    ensures var ws := StatusWrites(sig, b, LoadGraph(s, sig, b).value.process.rawHash);
            var final := Interrupted(s, sig, b, |ws|);
            && sig in final.batches && final.batches[sig] == b.(status := Broadcast)
            && BroadcastIntact(h, final, sig, final.batches[sig])
  {
    hide Apply, Replay, StatusWrites, LoadGraph, AllRequests;
    var g := LoadGraph(s, sig, b).value;
    GraphFields(s, sig, b);
    RequestsPresent(s, sig, b);
    var raw := g.process.rawHash;
    var ws := StatusWrites(sig, b, raw);
    var n := |ws|;
    StatusWritesShape(sig, b, raw);
    MarkKeepsGraph(s, sig, b, g.transaction.txid.value);
    var t, final := Marked(s, sig, b), Interrupted(s, sig, b, n);
    assert ws[..n] == ws;
    StatusesKeepLinks(t, ws);
    AllDone(t, ws, 0);
    AllDone(t, ws, 1);
    FinalBatch(t, sig, b, ws);
    AllRequestsDone(t, ws, b.start, b.end);
    LinkedIsIntact(h, t, final, sig, b);
    hide BroadcastIntact, SameLinks, LoadCompleteSigned;
    IntactIgnoresStatus(h, final, sig, b, b.(status := Broadcast));
  }

  lemma IntactIgnoresStatus(h: Hashes, s: StoreState, sig: Signature, b: Batch, c: Batch)
    requires BroadcastIntact(h, s, sig, b) && c == b.(status := c.status)
    ensures BroadcastIntact(h, s, sig, c)
  {
    GraphIgnoresStatus(s, sig, b, c);
    hide LoadGraph;
  }

  lemma RequestsPresent(s: StoreState, sig: Signature, b: Batch)
    requires LoadCompleteSigned(s, sig, b).Ok?
    ensures forall i :: b.start <= i < b.end ==> i in s.requests
  {
    hide LoadGraph;
    forall i | b.start <= i < b.end ensures i in s.requests {
      assert i >= 0;
    }
  }

  lemma AllRequestsDone(t: StoreState, ws: seq<Write>, start: nat, end: nat)
    requires |ws| == end - start + 3
    requires forall k :: 0 <= k < |ws| ==> IsStatusWrite(ws[k])
    requires forall i :: start <= i < end ==> ws[2 + i - start] == SetRequestStatus(i, Broadcast)
    requires forall i :: start <= i < end ==> i in t.requests
    ensures AllRequests(Replay(t, ws), start, end, Broadcast)
  {
    hide Apply, Replay;
    StatusesKeepLinks(t, ws);
    forall i: nat | start <= i < end
      ensures i in Replay(t, ws).requests && Replay(t, ws).requests[i].status == Broadcast
    {
      assert ws[2 + i - start] == SetRequestStatus(i, Broadcast);
      AllDone(t, ws, 2 + i - start);
    }
  }

  lemma FinalBatch(t: StoreState, sig: Signature, b: Batch, ws: seq<Write>)
    requires ws != [] && ws[|ws| - 1] == SetBatchStatus(sig, Broadcast)
    requires forall k :: 0 <= k < |ws| ==> IsStatusWrite(ws[k])
    requires forall k :: 0 <= k < |ws| - 1 ==> !ws[k].SetBatchStatus?
    requires sig in t.batches && t.batches[sig] == b
    ensures Replay(t, ws).batches == t.batches[sig := b.(status := Broadcast)]
  {
    StatusesKeepLinks(t, ws[..|ws| - 1]);
  }

  lemma GraphIgnoresStatus(s: StoreState, sig: Signature, b: Batch, c: Batch)
    requires c == b.(status := c.status)
    ensures LoadGraph(s, sig, b) == LoadGraph(s, sig, c)
  {
    hide Mappings;
  }

  // ---- Convergence ----

  /** Runs that crash after the given numbers of writes, each started on what the last one left. */
  function AfterCrashes(h: Hashes, s: StoreState, sig: Signature, b: Batch, crashes: seq<nat>): StoreState
    decreases |crashes|
  {
    if crashes == [] then s
    else
      var before := AfterCrashes(h, s, sig, b, crashes[..|crashes| - 1]);
      var writes := if sig in before.batches && before.batches[sig] == b
                    then ContinueSignedWrites(h, before, sig, b, true, Ok(())) else [];
      var k := crashes[|crashes| - 1];
      Replay(before, writes[..if k <= |writes| then k else |writes|])
  }

  /** Repeated crashes only ever leave the untouched store or one of the interrupted stores. */
  ghost predicate OnTheWay(s: StoreState, sig: Signature, b: Batch, t: StoreState)
    requires LoadGraph(s, sig, b).Ok?
  {
    t == s || exists k :: 0 <= k <= |StatusWrites(sig, b, LoadGraph(s, sig, b).value.process.rawHash)|
                          && t == Interrupted(s, sig, b, k)
  }

  /** One run from the untouched store, stopped after `j` writes. */
  lemma FirstRun(h: Hashes, s: StoreState, sig: Signature, b: Batch, j: nat)
    requires ReadyToMark(h, s, sig, b)
    ensures var ws := ContinueSignedWrites(h, s, sig, b, true, Ok(()));
            && |ws| == |StatusWrites(sig, b, LoadGraph(s, sig, b).value.process.rawHash)| + 1
            && (j <= |ws| ==> Replay(s, ws[..j]) == if j == 0 then s else Interrupted(s, sig, b, j - 1))
  {
    hide Apply, StatusWrites, LoadGraph;
    GraphFields(s, sig, b);
    var g := LoadGraph(s, sig, b).value;
    var mark := MarkReservationBroadcast(g.id, g.transaction.txid.value);
    var status := StatusWrites(sig, b, g.process.rawHash);
    var ws := ContinueSignedWrites(h, s, sig, b, true, Ok(()));
    assert ws == [mark] + status;
    if 0 < j <= |ws| {
      assert ws[..j] == [mark] + status[..j - 1];
      ReplayAppend(s, [mark], status[..j - 1]);
      ReplayStep(s, [], mark);
      assert [] + [mark] == [mark];
    }
  }

  lemma OneMoreRun(h: Hashes, s: StoreState, sig: Signature, b: Batch, t: StoreState, j: nat)
    requires ReadyToMark(h, s, sig, b) && OnTheWay(s, sig, b, t)
    requires sig in t.batches && t.batches[sig] == b
    ensures var ws := ContinueSignedWrites(h, t, sig, b, true, Ok(()));
            && ws != []
            && OnTheWay(s, sig, b, Replay(t, ws[..if j <= |ws| then j else |ws|]))
            && Replay(t, ws) == Interrupted(s, sig, b,
                                            |StatusWrites(sig, b, LoadGraph(s, sig, b).value.process.rawHash)|)
  {
    hide Apply, Replay, LoadGraph, StatusWrites;
    GraphFields(s, sig, b);
    var status := StatusWrites(sig, b, LoadGraph(s, sig, b).value.process.rawHash);
    StatusWritesShape(sig, b, LoadGraph(s, sig, b).value.process.rawHash);
    var ws := ContinueSignedWrites(h, t, sig, b, true, Ok(()));
    var stop := if j <= |ws| then j else |ws|;
    assert ws[..|ws|] == ws;
    if t == s {
      FirstRun(h, s, sig, b, stop);
      FirstRun(h, s, sig, b, |ws|);
      assert stop > 0 ==> Replay(t, ws[..stop]) == Interrupted(s, sig, b, stop - 1);
    } else {
      var k :| 0 <= k <= |status| && t == Interrupted(s, sig, b, k);
      CompletedIsIntact(h, s, sig, b);
      InterruptedResumes(h, s, sig, b, k, true, Ok(()));
      RestartIsProgress(Marked(s, sig, b), status, k, stop);
      RestartIsProgress(Marked(s, sig, b), status, k, |status|);
      assert Replay(t, ws[..stop]) == Interrupted(s, sig, b, if stop <= k then k else stop);
    }
  }

  lemma {:induction false} CrashesStayOnTheWay(h: Hashes, s: StoreState, sig: Signature, b: Batch, crashes: seq<nat>)
    requires ReadyToMark(h, s, sig, b)
    ensures OnTheWay(s, sig, b, AfterCrashes(h, s, sig, b, crashes))
    decreases |crashes|
  {
    hide LoadGraph, ContinueSignedWrites, OnTheWay, Replay;
    if crashes == [] {
      WayStarts(s, sig, b);
    } else {
      var before := AfterCrashes(h, s, sig, b, crashes[..|crashes| - 1]);
      CrashesStayOnTheWay(h, s, sig, b, crashes[..|crashes| - 1]);
      if sig in before.batches && before.batches[sig] == b {
        OneMoreRun(h, s, sig, b, before, crashes[|crashes| - 1]);
      } else {
        ReplayNothing(before);
      }
    }
  }

  lemma WayStarts(s: StoreState, sig: Signature, b: Batch)
    requires LoadGraph(s, sig, b).Ok?
    ensures OnTheWay(s, sig, b, s)
  {}

  /** Convergence: after any number of crashes at any points, either the batch is already broadcast
      or the next completed run makes it so; the store is in both cases the same, and intact. */
  lemma RecoveryConverges(h: Hashes, s: StoreState, sig: Signature, b: Batch, crashes: seq<nat>)
    requires ReadyToMark(h, s, sig, b)
    ensures var ws := StatusWrites(sig, b, LoadGraph(s, sig, b).value.process.rawHash);
            var final := Interrupted(s, sig, b, |ws|);
            var left := AfterCrashes(h, s, sig, b, crashes);
            && sig in left.batches && left.batches[sig].status in {Signed, Broadcast}
            && final == (if left.batches[sig].status == Broadcast then left
                         else Replay(left, ContinueSignedWrites(h, left, sig, b, true, Ok(()))))
            && sig in final.batches && BroadcastIntact(h, final, sig, final.batches[sig])
  {
    hide Replay, StatusWrites, LoadGraph, ContinueSignedWrites, BroadcastIntact;
    var n := |StatusWrites(sig, b, LoadGraph(s, sig, b).value.process.rawHash)|;
    var left := AfterCrashes(h, s, sig, b, crashes);
    CrashesStayOnTheWay(h, s, sig, b, crashes);
    CompletedIsIntact(h, s, sig, b);
    if left == s {
      OneMoreRun(h, s, sig, b, left, 0);
    } else {
      var k :| 0 <= k <= n && left == Interrupted(s, sig, b, k);
      if k < n {
        InterruptedResumes(h, s, sig, b, k, true, Ok(()));
        OneMoreRun(h, s, sig, b, left, 0);
      }
    }
  }
}
