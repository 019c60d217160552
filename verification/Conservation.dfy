/** Conservation of custody over runs: deposits are, at all times, exactly what is unspent, what
    the confirmed batches paid to every request so far, and their fees. */
module Conservation {
  import opened OperatorRows
  import opened Store
  import opened Withdrawal
  import opened Totals
  import opened Machine
  import opened MachineFrames
  import opened Runs

  /** What the requests of a batch ask for. */
  function AskedBy(w: World, sig: Signature): nat
    requires sig in w.store.batches
  {
    if w.store.batches[sig].end > |w.requested| then 0
    else SumRequested(w.requested, w.store.batches[sig].start, w.store.batches[sig].end)
  }

  function Withdrawn(w: World): map<Signature, nat>
  { map sig | sig in w.store.batches :: if w.store.batches[sig].status == Confirmed then AskedBy(w, sig) else 0 }

  /** What a confirmed batch required beyond what its requests ask for. */
  function Fee(w: World, sig: Signature): nat
    requires sig in w.store.batches
  { if PaidBy(w.store, sig) >= AskedBy(w, sig) then PaidBy(w.store, sig) - AskedBy(w, sig) else 0 }

  function Fees(w: World): map<Signature, nat>
  { map sig | sig in w.store.batches :: if w.store.batches[sig].status == Confirmed then Fee(w, sig) else 0 }

  /** The landed batches that are confirmed: all, or all but the last. */
  function Settled(w: World): seq<Signature>
  {
    if w.landed != [] && w.landed[|w.landed| - 1] in w.store.batches
       && w.store.batches[w.landed[|w.landed| - 1]].status != Confirmed
    then w.landed[..|w.landed| - 1] else w.landed
  }

  /** Requests below this index have been paid by confirmed batches. */
  function PaidUpTo(w: World): nat
  {
    if w.landed != [] && w.landed[|w.landed| - 1] in w.store.batches
       && w.store.batches[w.landed[|w.landed| - 1]].status != Confirmed
    then w.store.batches[w.landed[|w.landed| - 1]].start else w.cursor
  }

  // ---- Sums ----

  function SumOver<K>(m: map<K, nat>, ks: seq<K>): nat
    decreases |ks|
  {
    if ks == [] then 0
    else SumOver(m, ks[..|ks| - 1]) + (if ks[|ks| - 1] in m then m[ks[|ks| - 1]] else 0)
  }

  lemma {:induction false} SumOverWithout<K>(m: map<K, nat>, k: K, ks: seq<K>)
    requires k !in ks
    ensures SumOver(m - {k}, ks) == SumOver(m, ks)
    decreases |ks|
  {
    if ks != [] { SumOverWithout(m, k, ks[..|ks| - 1]); }
  }

  lemma LastIsNew<K>(ks: seq<K>)
    requires Machine.Distinct(ks) && ks != []
    ensures var n := |ks| - 1;
            ks[n] !in ks[..n] && Machine.Distinct(ks[..n]) && forall j :: j in ks ==> j in ks[..n] || j == ks[n]
  {}

  lemma {:induction false} TotalOver<K>(m: map<K, nat>, ks: seq<K>)
    requires Machine.Distinct(ks)
    requires forall k :: k in m && k !in ks ==> m[k] == 0
    requires forall k :: k in ks ==> k in m
    ensures Total(m) == SumOver(m, ks)
    decreases |ks|, |m|
  {
    if ks != [] {
      var n := |ks| - 1;
      var k, rest := ks[n], ks[..n];
      LastIsNew(ks);
      TotalRemove(m, k);
      TotalOver(m - {k}, rest);
      SumOverWithout(m, k, rest);
    } else if m != map[] {
      var k :| k in m && Total(m) == m[k] + Total(m - {k});
      TotalOver(m - {k}, []);
    }
  }

  lemma {:induction false} TotalAdds<K>(a: map<K, nat>, b: map<K, nat>, c: map<K, nat>)
    requires a.Keys == b.Keys == c.Keys && forall k :: k in a ==> a[k] == b[k] + c[k]
    ensures Total(a) == Total(b) + Total(c)
    decreases |a|
  {
    if a != map[] {
      var k :| k in a;
      TotalRemove(a, k);
      TotalRemove(b, k);
      TotalRemove(c, k);
      TotalAdds(a - {k}, b - {k}, c - {k});
    } else {
      assert b == map[] && c == map[];
    }
  }

  lemma {:induction false} SumRequestedSplits(requested: seq<RequestRecord>, a: nat, b: nat, c: nat)
    requires a <= b <= c <= |requested|
    ensures SumRequested(requested, a, c) == SumRequested(requested, a, b) + SumRequested(requested, b, c)
    decreases c
  {
    if b < c { SumRequestedSplits(requested, a, b, c - 1); }
  }

  /** The payloads of chained batches sum up to all requests between their ends. */
  lemma {:induction false} ChainSum(w: World, landed: seq<Signature>, cursor: nat)
    requires Ranges(w) && Owned(w) && Chained(w.store.batches, landed, w.first, cursor)
    requires forall sig :: sig in landed ==> sig in w.store.batches && w.store.batches[sig].status == Confirmed
    ensures cursor <= |w.requested| ==> SumOver(Withdrawn(w), landed) == SumRequested(w.requested, w.first, cursor)
    decreases |landed|
  {
    if landed != [] {
      var front, last := landed[..|landed| - 1], landed[|landed| - 1];
      var b := w.store.batches[last];
      assert last in landed;
      ChainSum(w, front, b.start);
      ChainEnds(w, front, b.start);
      SumRequestedSplits(w.requested, w.first, b.start, b.end);
    }
  }

  // ---- The balance ----

  lemma PaidSplits(w: World)
    requires Owned(w)
    ensures Total(Paid(w.store)) == Total(Withdrawn(w)) + Total(Fees(w))
  {
    forall sig | sig in w.store.batches
      ensures Paid(w.store)[sig] == Withdrawn(w)[sig] + Fees(w)[sig]
    {
      assert ReservationOf(w.store, sig).Some?;
    }
    TotalAdds(Paid(w.store), Withdrawn(w), Fees(w));
  }

  /** Every landed batch but the last is confirmed, and only landed batches are. */
  lemma SettledIsConfirmed(w: World)
    requires Inv(w)
    ensures forall sig :: sig in Settled(w) ==> sig in w.store.batches && w.store.batches[sig].status == Confirmed
    ensures forall sig :: sig in w.store.batches && w.store.batches[sig].status == Confirmed ==> sig in Settled(w)
    ensures Machine.Distinct(Settled(w)) && Chained(w.store.batches, Settled(w), w.first, PaidUpTo(w))
  {
    hide Custody, Owned, Payments, RequestsOk, Conserved, OneIncomplete, LoadGraph, SignedOk, BroadcastIntact;
    ChainedKnown(w.store.batches, w.landed, w.first, w.cursor);
    var n := |w.landed|;
    forall k | 0 <= k < |Settled(w)| ensures w.store.batches[Settled(w)[k]].status == Confirmed {
      var sig := Settled(w)[k];
      assert w.landed[k] == sig && StageOk(w, sig);
    }
    forall sig | sig in w.store.batches && w.store.batches[sig].status == Confirmed ensures sig in Settled(w) {
      assert StageOk(w, sig);
      assert sig in w.landed;
      var k :| 0 <= k < n && w.landed[k] == sig;
      assert k < |Settled(w)| ==> Settled(w)[k] == sig;
    }
  }

  /** In every reachable state: unspent custody, plus the amounts of all requests that confirmed
      batches have paid (those from the first cursor up to `PaidUpTo`, each once), plus the fees of
      those batches, is what was deposited. */
  lemma CustodyBalances(w: World)
    requires Reachable(w)
    ensures w.first <= PaidUpTo(w) <= w.cursor <= |w.requested|
    ensures Total(Values(w.store.utxos)) + SumRequested(w.requested, w.first, PaidUpTo(w)) + Total(Fees(w))
         == w.deposits
  {
    ReachableHolds(w);
    SettledIsConfirmed(w);
    PaidSplits(w);
    ChainEnds(w, Settled(w), PaidUpTo(w));
    PaidUpToBelow(w);
    ChainSum(w, Settled(w), PaidUpTo(w));
    hide Reachable, Settled, PaidUpTo, Fees, Values, Ranges, Stages, Custody, Owned, Payments, RequestsOk,
         OneIncomplete, Paid;
    WithdrawnOutside(w);
    TotalOver(Withdrawn(w), Settled(w));
  }

  lemma WithdrawnOutside(w: World)
    requires forall sig :: sig in w.store.batches && w.store.batches[sig].status == Confirmed ==> sig in Settled(w)
    ensures forall sig :: sig in Withdrawn(w) && sig !in Settled(w) ==> Withdrawn(w)[sig] == 0
    ensures Withdrawn(w).Keys == w.store.batches.Keys
  {
    hide Settled;
  }

  lemma PaidUpToBelow(w: World)
    requires Ranges(w)
    ensures PaidUpTo(w) <= w.cursor <= |w.requested|
  {}

  lemma {:induction false} ChainEnds(w: World, landed: seq<Signature>, cursor: nat)
    requires Ranges(w) && Chained(w.store.batches, landed, w.first, cursor)
    ensures w.first <= cursor
    decreases |landed|
  {
    if landed != [] {
      var last := landed[|landed| - 1];
      ChainEnds(w, landed[..|landed| - 1], w.store.batches[last].start);
    }
  }

  /** A payout's change is never dust: what a reservation selects beyond what it requires is either
      nothing or at least the dust threshold, and its UTXOs are worth exactly what it selected. */
  lemma ChangeIsNeverDust(w: World, id: ReservationId)
    requires Reachable(w) && id in w.store.reservations
    ensures var r := w.store.reservations[id];
            && r.selected == Sum(w.store.utxos, r.utxos)
            && (r.selected == r.required || r.selected >= r.required + w.minDust)
  {
    ReachableHolds(w);
    hide Reachable;
    assert CustodyOf(w, id, w.store.reservations[id]);
  }
}
