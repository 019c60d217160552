/** What the operator's checks of a persisted graph mean on the tables of the store. */
module Links {
  import opened Bytes
  import opened Store
  import opened Withdrawal
  import opened BroadcastRecovery

  lemma GraphUtxos(s: StoreState, sig: Signature, b: Batch)
    requires LoadGraph(s, sig, b).Ok?
    ensures b.reservation.Some? && b.reservation.value in s.reservations
    ensures var g, os := LoadGraph(s, sig, b).value, s.reservations[b.reservation.value].utxos;
            |g.utxos| == |os| && forall k :: 0 <= k < |os| ==> os[k] in s.utxos && g.utxos[k] == s.utxos[os[k]]
  {
    hide Mappings;
  }

  lemma LinkedTables(s: StoreState, sig: Signature, b: Batch)
    requires LoadGraph(s, sig, b).Ok?
    ensures b.reservation.Some? && b.reservation.value in s.reservations && sig in s.processes
    ensures s.processes[sig].rawHash in s.transactions
    ensures forall k :: k in s.reservations[b.reservation.value].utxos ==> k in s.utxos
    ensures var g := LoadGraph(s, sig, b).value;
            && g.process == s.processes[sig] && g.transaction == s.transactions[s.processes[sig].rawHash]
            && g.reservation == s.reservations[b.reservation.value]
  {
    GraphFields(s, sig, b);
    GraphUtxos(s, sig, b);
    hide LoadGraph;
  }

  /** Nothing of a linked batch has been broadcast: its transaction, its process and all its requests
      are signed, and its reservation and every UTXO of it are held and unspent. */
  ghost predicate AllSigned(s: StoreState, sig: Signature, b: Batch)
    requires LoadGraph(s, sig, b).Ok?
  {
    LinkedTables(s, sig, b);
    var r := s.reservations[b.reservation.value];
    && s.processes[sig].status == Signed && s.transactions[s.processes[sig].rawHash].status == Signed
    && r.status == Held && r.spendTxid == None
    && (forall o :: o in r.utxos ==> s.utxos[o].status == Reserved && s.utxos[o].spendTxid == None)
    && forall i: nat :: b.start <= i < b.end ==> i in s.requests && s.requests[i].status == Signed
  }

  /** Some table shows that marking the batch as broadcast has begun. */
  ghost predicate AnyBroadcast(s: StoreState, sig: Signature, b: Batch)
    requires LoadGraph(s, sig, b).Ok?
  {
    LinkedTables(s, sig, b);
    var r := s.reservations[b.reservation.value];
    || r.status == Relayed || s.processes[sig].status == Broadcast
    || s.transactions[s.processes[sig].rawHash].status == Broadcast
    || exists o :: o in r.utxos && s.utxos[o].status == InFlight
  }

  /** Everything linked to the batch is broadcast, and its bytes are those that were hashed. */
  ghost predicate AllBroadcast(h: Hashes, s: StoreState, sig: Signature, b: Batch)
    requires LoadGraph(s, sig, b).Ok?
  {
    LinkedTables(s, sig, b);
    var r, t := s.reservations[b.reservation.value], s.transactions[s.processes[sig].rawHash];
    && s.processes[sig].status == Broadcast && t.status == Broadcast
    && r.status == Relayed && r.spendTxid == t.txid
    && t.raw.Some? && h.sha256(t.raw.value) == s.processes[sig].rawHash
    && t.txid == Some(h.doubleSha256(t.raw.value))
    && forall i: nat :: b.start <= i < b.end ==> i in s.requests && s.requests[i].status == Broadcast
  }

  /** A graph counts as complete and signed exactly when it is linked and every table says so. */
  lemma CompleteIffAllSigned(s: StoreState, sig: Signature, b: Batch)
    ensures LoadCompleteSigned(s, sig, b).Ok? <==>
              b.status == Signed && LoadGraph(s, sig, b).Ok? && AllSigned(s, sig, b)
  {
    if LoadGraph(s, sig, b).Ok? {
      LinkedTables(s, sig, b);
      GraphUtxos(s, sig, b);
      hide LoadGraph;
      var g, os := LoadGraph(s, sig, b).value, s.reservations[b.reservation.value].utxos;
      forall o | o in os ensures exists k :: 0 <= k < |g.utxos| && g.utxos[k] == s.utxos[o] {
        var k :| 0 <= k < |os| && os[k] == o;
        assert g.utxos[k] == s.utxos[o];
      }
    }
  }

  /** The transition counts as begun exactly when some table shows it. */
  lemma StartedIffAnyBroadcast(s: StoreState, sig: Signature, b: Batch)
    requires LoadGraph(s, sig, b).Ok?
    ensures TransitionStarted(LoadGraph(s, sig, b).value) <==> AnyBroadcast(s, sig, b)
  {
    LinkedTables(s, sig, b);
    GraphUtxos(s, sig, b);
    hide LoadGraph;
    var g, os := LoadGraph(s, sig, b).value, s.reservations[b.reservation.value].utxos;
    if o :| o in os && s.utxos[o].status == InFlight {
      var k :| 0 <= k < |os| && os[k] == o;
      assert g.utxos[k].status == InFlight;
    }
  }

  /** A batch passes the checks before finalization exactly when it is linked and every table says
      that it was broadcast. */
  lemma IntactIffAllBroadcast(h: Hashes, s: StoreState, sig: Signature, b: Batch)
    ensures BroadcastIntact(h, s, sig, b) <==> LoadGraph(s, sig, b).Ok? && AllBroadcast(h, s, sig, b)
  {
    if LoadGraph(s, sig, b).Ok? { LinkedTables(s, sig, b); }
    hide LoadGraph;
  }
}
