/** What each invariant of the machine depends on. */
module MachineFrames {
  import opened OperatorRows
  import opened Store
  import opened Withdrawal
  import opened Totals
  import opened Machine

  // ---- Sums ----

  lemma {:induction false} SumSame(u: map<Outpoint, Utxo>, v: map<Outpoint, Utxo>, os: seq<Outpoint>)
    requires forall o :: o in os ==> AmountOf(u, o) == AmountOf(v, o)
    ensures Sum(u, os) == Sum(v, os)
  {
    if os != [] { SumSame(u, v, os[1..]); }
  }

  lemma {:induction false} SumRequestedPrefix(a: seq<RequestRecord>, b: seq<RequestRecord>, start: nat, end: nat)
    requires end <= |a| <= |b| && a == b[..|a|]
    ensures SumRequested(a, start, end) == SumRequested(b, start, end)
    decreases end
  {
    if end > start { SumRequestedPrefix(a, b, start, end - 1); }
  }

  /** Marking distinct unspent UTXOs as spent lowers the unspent total by their sum. */
  lemma {:induction false} ConsumeLowers(u: map<Outpoint, Utxo>, os: seq<Outpoint>)
    requires Machine.Distinct(os)
    requires forall o :: o in os ==> o in u && u[o].status != Spent
    ensures Total(Values(Consume(u, os))) + Sum(u, os) == Total(Values(u))
    decreases |os|
  {
    if os == [] {
      assert Consume(u, os) == u;
    } else {
      var o, rest := os[0], os[1..];
      var v := u[o := u[o].(status := Spent)];
      assert forall k :: 0 <= k < |rest| ==> rest[k] == os[k + 1] != os[0];
      assert Consume(u, os) == Consume(v, rest);
      ConsumeLowers(v, rest);
      SumSame(u, v, rest);
      assert Values(v) == Values(u)[o := 0];
      TotalUpdate(Values(u), o, 0);
    }
  }

  // ---- Batches up to their status ----

  ghost predicate SameButStatus(s: StoreState, t: StoreState)
  {
    && t.batches.Keys == s.batches.Keys
    && forall sig :: sig in s.batches ==> t.batches[sig] == s.batches[sig].(status := t.batches[sig].status)
  }

  ghost predicate SameLanding(w: World, x: World)
  {
    && x.snapshots.Keys == w.snapshots.Keys
    && (forall sig :: sig in w.snapshots ==> (x.snapshots[sig] == Landed <==> w.snapshots[sig] == Landed))
    && x.landed == w.landed && x.cursor == w.cursor && x.first == w.first
  }

  lemma RangesKept(w: World, x: World)
    requires Ranges(w) && SameButStatus(w.store, x.store) && SameLanding(w, x)
    requires |w.requested| <= |x.requested|
    ensures Ranges(x)
  {
    hide Chained;
    assert forall sig :: sig in w.landed ==> sig in w.store.batches by {
      ChainedKnown(w.store.batches, w.landed, w.first, w.cursor);
    }
    ChainedKept(w.store.batches, x.store.batches, w.landed, w.first, w.cursor);
  }

  lemma {:induction false} ChainedKnown(s: map<Signature, Batch>, landed: seq<Signature>, first: nat, cursor: nat)
    requires Chained(s, landed, first, cursor)
    ensures forall sig :: sig in landed ==> sig in s
    decreases |landed|
  {
    if landed != [] {
      var last := landed[|landed| - 1];
      ChainedKnown(s, landed[..|landed| - 1], first, s[last].start);
      assert landed == landed[..|landed| - 1] + [last];
    }
  }

  lemma {:induction false} ChainedKept(s: map<Signature, Batch>, t: map<Signature, Batch>, landed: seq<Signature>,
                                       first: nat, cursor: nat)
    requires Chained(s, landed, first, cursor)
    requires forall sig :: sig in landed ==>
             sig in s && sig in t && t[sig].start == s[sig].start && t[sig].end == s[sig].end
    ensures Chained(t, landed, first, cursor)
    decreases |landed|
  {
    if landed != [] {
      var last := landed[|landed| - 1];
      assert last in landed;
      ChainedKept(s, t, landed[..|landed| - 1], first, s[last].start);
    }
  }

  lemma OneIncompleteKept(s: StoreState, t: StoreState)
    requires OneIncomplete(s)
    requires forall sig :: sig in t.batches && Incomplete(t.batches[sig]) ==>
             sig in s.batches && Incomplete(s.batches[sig])
    ensures OneIncomplete(t)
  {}

  /** Reservations may change, but not what they are worth. */
  ghost predicate SameWorth(s: StoreState, t: StoreState)
  {
    && (forall id :: id in s.reservations ==> id in t.reservations)
    && forall id :: id in s.reservations ==> t.reservations[id].required == s.reservations[id].required
  }

  lemma OwnedKept(w: World, x: World)
    requires Owned(w) && SameButStatus(w.store, x.store) && SameWorth(w.store, x.store)
    requires |w.requested| <= |x.requested| && w.requested == x.requested[..|w.requested|]
    ensures Owned(x)
  {
    forall sig | sig in x.store.batches
      ensures ReservationOf(x.store, sig).Some?
      ensures SumRequested(x.requested, x.store.batches[sig].start, x.store.batches[sig].end)
              <= ReservationOf(x.store, sig).value.required
    {
      var b := w.store.batches[sig];
      SumRequestedPrefix(w.requested, x.requested, b.start, b.end);
    }
  }

  lemma RequestsKept(w: World, x: World)
    requires RequestsOk(w) && SameButStatus(w.store, x.store)
    requires |w.requested| <= |x.requested| && w.requested == x.requested[..|w.requested|]
    requires forall i :: i in w.store.requests ==> i in x.store.requests
    requires forall i :: i in x.store.requests ==>
               (i in w.store.requests && x.store.requests[i].record == w.store.requests[i].record)
    ensures RequestsOk(x)
  {
    forall i | i in x.store.requests
      ensures i < |x.requested| && x.store.requests[i].record == x.requested[i]
    { assert x.requested[..|w.requested|][i] == w.requested[i]; }
  }

  // ---- Custody ----

  lemma CustodyOfKept(w: World, x: World, id: ReservationId, r: Reservation, q: Reservation)
    requires CustodyOf(w, id, r) && x.minDust == w.minDust
    requires q == r.(request := q.request, process := q.process)
    requires forall o :: o in r.utxos ==> o in x.store.utxos && x.store.utxos[o].row == w.store.utxos[o].row
    requires r.status != Released ==> forall o :: o in r.utxos ==>
               x.store.utxos[o].reservation == w.store.utxos[o].reservation
               && x.store.utxos[o].status == w.store.utxos[o].status
    ensures CustodyOf(x, id, q)
  {
    SumSame(w.store.utxos, x.store.utxos, r.utxos);
  }

  // ---- Stages of complete batches ----

  /** A finished batch only looks at its own record, its reservation's status, its snapshot and its
      transaction identifier. */
  lemma CompleteKept(w: World, x: World, sig: Signature)
    requires sig in w.store.batches && !Incomplete(w.store.batches[sig])
    requires sig in w.snapshots && ReservationOf(w.store, sig).Some? && StageOk(w, sig)
    requires sig in x.store.batches && x.store.batches[sig] == w.store.batches[sig]
    requires sig in x.snapshots && x.snapshots[sig] == w.snapshots[sig]
    requires ReservationOf(x.store, sig).Some?
    requires ReservationOf(x.store, sig).value.status == ReservationOf(w.store, sig).value.status
    requires TxidOf(w.store, sig).Some? ==> TxidOf(x.store, sig) == TxidOf(w.store, sig)
    requires w.electrs <= x.electrs
    ensures StageOk(x, sig)
  {}

  /** The graph of a batch reads only the rows linked to it. */
  lemma GraphKept(s: StoreState, t: StoreState, sig: Signature, b: Batch)
    requires b.reservation.Some? && b.reservation.value in s.reservations && b.reservation.value in t.reservations
    requires t.reservations[b.reservation.value] == s.reservations[b.reservation.value]
    requires t.processes == s.processes && t.transactions == s.transactions && t.mappings == s.mappings
    requires forall o :: o in s.reservations[b.reservation.value].utxos ==>
               o in s.utxos && o in t.utxos && t.utxos[o] == s.utxos[o]
    ensures LoadGraph(t, sig, b) == LoadGraph(s, sig, b)
  {
    hide Mappings;
    var r := s.reservations[b.reservation.value];
    assert seq(|r.utxos|, k requires 0 <= k < |r.utxos| => s.utxos[r.utxos[k]])
        == seq(|r.utxos|, k requires 0 <= k < |r.utxos| => t.utxos[r.utxos[k]]);
  }

  // ---- Payments and totals ----

  lemma PaymentsKept(w: World, x: World)
    requires Payments(w) && x.electrs == w.electrs
    requires forall sig, txid :: Paying(w, sig, txid) ==> Paying(x, sig, txid)
    ensures Payments(x)
  {
    forall txid | txid in x.electrs ensures exists sig :: Paying(x, sig, txid) {
      var sig :| Paying(w, sig, txid);
      assert Paying(x, sig, txid);
    }
  }

  lemma PaymentsSame(w: World, x: World)
    requires Payments(w) && x.electrs == w.electrs && x.store.batches == w.store.batches
    requires x.store.processes == w.store.processes && x.store.transactions == w.store.transactions
    ensures Payments(x)
  {
    PaymentsKept(w, x);
  }

  lemma ConservedKept(w: World, x: World)
    requires Conserved(w) && x.deposits == w.deposits
    requires Values(x.store.utxos) == Values(w.store.utxos)
    requires Paid(x.store) == Paid(w.store)
    ensures Conserved(x)
  {}
}
