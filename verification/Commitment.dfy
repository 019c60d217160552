/** The commitment to tracked spent outpoints: one hash over the old root and the outpoints in a
    canonical order. */
module Commitment {
  import opened Bytes

  datatype Outpoint = Outpoint(leafIndex: u64, txid: Hash32, vout: u32)

  /** The ASCII bytes of "psy-doge-local-tracked-spent-v1". */
  const DOMAIN: seq<u8> := [
    0x70, 0x73, 0x79, 0x2d, 0x64, 0x6f, 0x67, 0x65, 0x2d, 0x6c, 0x6f, 0x63, 0x61, 0x6c, 0x2d, 0x74,
    0x72, 0x61, 0x63, 0x6b, 0x65, 0x64, 0x2d, 0x73, 0x70, 0x65, 0x6e, 0x74, 0x2d, 0x76, 0x31]

  // ---- The canonical order ----

  predicate BytesAtMost(a: seq<u8>, b: seq<u8>)
  { a == [] || (b != [] && (a[0] < b[0] || (a[0] == b[0] && BytesAtMost(a[1..], b[1..])))) }

  /** Ordered by leaf index, then by txid, then by output number. */
  predicate AtMost(a: Outpoint, b: Outpoint)
  {
    if a.leafIndex != b.leafIndex then a.leafIndex < b.leafIndex
    else if a.txid != b.txid then BytesAtMost(a.txid, b.txid)
    else a.vout <= b.vout
  }

  function Insert(s: seq<Outpoint>, x: Outpoint): seq<Outpoint>
  {
    if s == [] || AtMost(s[|s| - 1], x) then s + [x]
    else Insert(s[..|s| - 1], x) + [s[|s| - 1]]
  }

  function Sort(s: seq<Outpoint>): seq<Outpoint>
  { if s == [] then [] else Insert(Sort(s[..|s| - 1]), s[|s| - 1]) }

  predicate Ascending(s: seq<Outpoint>)
  { forall i, j :: 0 <= i < j < |s| ==> s[i].leafIndex <= s[j].leafIndex }

  predicate Strict(s: seq<Outpoint>)
  { forall i, j :: 0 <= i < j < |s| ==> s[i].leafIndex < s[j].leafIndex }

  predicate DistinctLeaves(s: seq<Outpoint>)
  { forall i, j :: 0 <= i < j < |s| ==> s[i].leafIndex != s[j].leafIndex }

  lemma {:induction false} InsertOrders(s: seq<Outpoint>, x: Outpoint)
    requires Ascending(s)
    ensures Ascending(Insert(s, x)) && multiset(Insert(s, x)) == multiset(s + [x])
    decreases |s|
  {
    hide AtMost;
    if s != [] {
      var front, last := s[..|s| - 1], s[|s| - 1];
      assert s == front + [last];
      if AtMost(last, x) {
        AtMostLeaf(last, x);
      } else {
        InsertOrders(front, x);
        AtMostLeaf(last, x);
        var r := Insert(front, x);
        forall k | 0 <= k < |r| ensures r[k].leafIndex <= last.leafIndex {
          assert r[k] in multiset(r);
          assert r[k] in multiset(front + [x]);
        }
      }
    }
  }

  lemma AtMostLeaf(a: Outpoint, b: Outpoint)
    ensures AtMost(a, b) ==> a.leafIndex <= b.leafIndex
    ensures !AtMost(a, b) ==> b.leafIndex <= a.leafIndex
  {}

  lemma {:induction false} SortOrders(s: seq<Outpoint>)
    ensures Ascending(Sort(s)) && multiset(Sort(s)) == multiset(s) && |Sort(s)| == |s|
    decreases |s|
  {
    if s != [] {
      var front, last := s[..|s| - 1], s[|s| - 1];
      SortOrders(front);
      InsertOrders(Sort(front), last);
      assert s == front + [last];
      assert |multiset(Sort(s))| == |multiset(s)|;
    }
  }

  // ---- The preimage ----

  function Entry(o: Outpoint): (s: seq<u8>)
    ensures |s| == 44
  { LE(8, o.leafIndex) + o.txid + LE(4, o.vout) }

  function Entries(s: seq<Outpoint>): (r: seq<u8>)
    ensures |r| == 44 * |s|
  { if s == [] then [] else Entries(s[..|s| - 1]) + Entry(s[|s| - 1]) }

  /** Some outpoint has the leaf index of its predecessor. */
  predicate Repeats(s: seq<Outpoint>)
  { exists i :: 0 < i < |s| && s[i - 1].leafIndex == s[i].leafIndex }

  function Preimage(oldRoot: Hash32, outpoints: seq<Outpoint>): Result<seq<u8>>
  {
    if outpoints == [] || Repeats(Sort(outpoints)) then Err
    else Ok(DOMAIN + oldRoot + LE(8, |outpoints|) + Entries(Sort(outpoints)))
  }

  /** The entry at a position: leaf index, txid, output number. */
  ghost predicate IsEntryAt(s: seq<u8>, at: nat, o: Outpoint)
    requires at + 44 <= |s|
  { IsLE(s[at..at + 8], o.leafIndex) && s[at + 8..at + 40] == o.txid && IsLE(s[at + 40..at + 44], o.vout) }

  ghost predicate HasDomain(s: seq<u8>)
  { |s| >= 31 && forall k :: 0 <= k < 31 ==> s[k] == "psy-doge-local-tracked-spent-v1"[k] as int }

  /** Every byte that is hashed: the domain's letters, the old root, the count, and the entries. */
  ghost predicate IsCommitted(s: seq<u8>, oldRoot: Hash32, outpoints: seq<Outpoint>)
  {
    && |s| == 71 + 44 * |outpoints| && HasDomain(s)
    && s[31..63] == oldRoot && IsLE(s[63..71], |outpoints|)
    && forall k :: 0 <= k < |outpoints| ==> IsEntryAt(s, 71 + 44 * k, outpoints[k])
  }

  lemma DomainLetters(rest: seq<u8>)
    ensures HasDomain(DOMAIN + rest)
  {
    assert forall k :: 0 <= k < 31 ==> (DOMAIN + rest)[k] == DOMAIN[k];
  }

  lemma DomainKept(head: seq<u8>, rest: seq<u8>)
    requires HasDomain(head)
    ensures HasDomain(head + rest)
  {}

  lemma EntryLayout(o: Outpoint)
    ensures IsEntryAt(Entry(o), 0, o)
  {
    LEIsLE(8, o.leafIndex);
    LEIsLE(4, o.vout);
    hide LE, IsLE;
    var s := Entry(o);
    assert s[0..8] == LE(8, o.leafIndex) && s[8..40] == o.txid && s[40..44] == LE(4, o.vout);
  }

  lemma SameEntry(a: seq<u8>, i: nat, b: seq<u8>, j: nat, o: Outpoint)
    requires i + 44 <= |a| && j + 44 <= |b| && a[i..i + 44] == b[j..j + 44]
    requires IsEntryAt(a, i, o)
    ensures IsEntryAt(b, j, o)
  {
    hide IsLE;
    SliceOfSlice(a, i, i + 44, 0, 8);
    SliceOfSlice(a, i, i + 44, 8, 40);
    SliceOfSlice(a, i, i + 44, 40, 44);
    SliceOfSlice(b, j, j + 44, 0, 8);
    SliceOfSlice(b, j, j + 44, 8, 40);
    SliceOfSlice(b, j, j + 44, 40, 44);
  }

  lemma {:induction false} EntriesLayout(s: seq<Outpoint>, k: nat)
    requires k < |s|
    ensures IsEntryAt(Entries(s), 44 * k, s[k])
    decreases |s|
  {
    hide Entry, IsEntryAt;
    var n := |s| - 1;
    var all, front := Entries(s), Entries(s[..n]);
    if k == n {
      EntryLayout(s[n]);
      assert all[44 * n..44 * n + 44] == Entry(s[n]) == Entry(s[n])[0..0 + 44];
      SameEntry(Entry(s[n]), 0, all, 44 * n, s[n]);
    } else {
      EntriesLayout(s[..n], k);
      assert all[44 * k..44 * k + 44] == front[44 * k..44 * k + 44];
      SameEntry(front, 44 * k, all, 44 * k, s[k]);
    }
  }

  ghost predicate IsHead(s: seq<u8>, oldRoot: Hash32, count: nat)
  {
    && |s| == 71 && HasDomain(s) && s[31..63] == oldRoot && IsLE(s[63..71], count)
  }

  lemma HeadLayout(oldRoot: Hash32, count: nat)
    ensures IsHead(DOMAIN + oldRoot + LE(8, count), oldRoot, count)
  {
    LEIsLE(8, count);
    DomainLetters(oldRoot + LE(8, count));
    hide LE, IsLE, HasDomain;
    var s := DOMAIN + oldRoot + LE(8, count);
    assert s == DOMAIN + (oldRoot + LE(8, count));
    assert s[31..63] == oldRoot && s[63..71] == LE(8, count);
  }

  lemma HeadThenEntries(head: seq<u8>, oldRoot: Hash32, ordered: seq<Outpoint>)
    requires IsHead(head, oldRoot, |ordered|)
    ensures IsCommitted(head + Entries(ordered), oldRoot, ordered)
  {
    hide IsLE, Entries, IsEntryAt, HasDomain;
    var entries := Entries(ordered);
    var s := head + entries;
    DomainKept(head, entries);
    assert s[31..63] == head[31..63] && s[63..71] == head[63..71];
    forall k | 0 <= k < |ordered| ensures IsEntryAt(s, 71 + 44 * k, ordered[k]) {
      EntriesLayout(ordered, k);
      assert s[71 + 44 * k..71 + 44 * k + 44] == entries[44 * k..44 * k + 44];
      SameEntry(entries, 44 * k, s, 71 + 44 * k, ordered[k]);
    }
  }

  lemma PreimageLayout(oldRoot: Hash32, outpoints: seq<Outpoint>)
    requires Preimage(oldRoot, outpoints).Ok?
    ensures IsCommitted(Preimage(oldRoot, outpoints).value, oldRoot, Sort(outpoints))
  {
    SortOrders(outpoints);
    hide LE, IsHead, IsCommitted, Sort, Entries, Repeats;
    HeadLayout(oldRoot, |outpoints|);
    HeadThenEntries(DOMAIN + oldRoot + LE(8, |outpoints|), oldRoot, Sort(outpoints));
  }

  /** The bytes are those of the outpoints, each once, by ascending leaf index. */
  lemma AcceptedLayout(oldRoot: Hash32, outpoints: seq<Outpoint>)
    requires Preimage(oldRoot, outpoints).Ok?
    ensures exists ordered :: multiset(ordered) == multiset(outpoints) && Strict(ordered)
                              && IsCommitted(Preimage(oldRoot, outpoints).value, oldRoot, ordered)
  {
    PreimageLayout(oldRoot, outpoints);
    SortOrders(outpoints);
    SortedRepeats(Sort(outpoints));
    hide IsCommitted, Sort, Entries;
    assert Strict(Sort(outpoints));
  }

  method SpentCommitmentPreimage(oldRoot: Hash32, outpoints: seq<Outpoint>) returns (r: Result<seq<u8>>)
    ensures r == Preimage(oldRoot, outpoints)
    ensures r.Ok? <==> outpoints != [] && DistinctLeaves(outpoints)
    ensures r.Ok? ==> exists ordered :: multiset(ordered) == multiset(outpoints) && Strict(ordered)
                                        && IsCommitted(r.value, oldRoot, ordered)
  {
    AcceptedIffDistinct(oldRoot, outpoints);
    if Preimage(oldRoot, outpoints).Ok? { AcceptedLayout(oldRoot, outpoints); }
    hide Entries, LE, IsCommitted, Strict, DistinctLeaves, Sort;
    if outpoints == [] { return Err; }
    var ordered := Sort(outpoints);
    SortOrders(outpoints);
    for i := 1 to |ordered|
      invariant forall k :: 0 < k < i ==> ordered[k - 1].leafIndex != ordered[k].leafIndex
    {
      if ordered[i - 1].leafIndex == ordered[i].leafIndex { return Err; }
    }
    var preimage := new ByteVec();
    WriteHeader(preimage, oldRoot, |ordered|);
    WriteEntries(preimage, ordered);
    return Ok(preimage.bytes);
  }

  method WriteHeader(buf: ByteVec, oldRoot: Hash32, count: nat)
    requires buf.bytes == []
    modifies buf
    ensures buf.bytes == DOMAIN + oldRoot + LE(8, count)
  {
    hide LE;
    buf.Extend(DOMAIN);
    assert buf.bytes == DOMAIN;
    buf.Extend(oldRoot);
    buf.Extend(LE(8, count));
  }

  method WriteEntries(buf: ByteVec, ordered: seq<Outpoint>)
    modifies buf
    ensures buf.bytes == old(buf.bytes) + Entries(ordered)
  {
    hide LE;
    for i := 0 to |ordered|
      invariant buf.bytes == old(buf.bytes) + Entries(ordered[..i])
    {
      EntriesStep(ordered, i);
      ghost var before := buf.bytes;
      buf.Extend(LE(8, ordered[i].leafIndex));
      buf.Extend(ordered[i].txid);
      buf.Extend(LE(4, ordered[i].vout));
      assert buf.bytes == before + Entry(ordered[i]);
    }
    assert ordered[..|ordered|] == ordered;
  }

  lemma EntriesStep(ordered: seq<Outpoint>, i: nat)
    requires i < |ordered|
    ensures Entries(ordered[..i + 1]) == Entries(ordered[..i]) + Entry(ordered[i])
  {
    assert ordered[..i + 1][..i] == ordered[..i];
  }

  // ---- What is accepted ----

  lemma SortedRepeats(s: seq<Outpoint>)
    requires Ascending(s)
    ensures Repeats(s) <==> !DistinctLeaves(s)
    ensures !Repeats(s) ==> Strict(s)
  {
    if i, j :| 0 <= i < j < |s| && s[i].leafIndex >= s[j].leafIndex {
      assert s[i].leafIndex <= s[i + 1].leafIndex <= s[j].leafIndex by {
        if i + 1 < j { assert s[i + 1].leafIndex <= s[j].leafIndex; }
      }
      assert s[i + 1 - 1].leafIndex == s[i + 1].leafIndex;
    }
    if i :| 0 < i < |s| && s[i - 1].leafIndex == s[i].leafIndex {
      assert !DistinctLeaves(s);
    }
  }

  /** Distinctness of leaves is a matter of the elements, not of their order. */
  lemma {:induction false} DistinctPermutes(a: seq<Outpoint>, b: seq<Outpoint>)
    requires multiset(a) == multiset(b) && DistinctLeaves(a)
    ensures DistinctLeaves(b)
  {
    forall i, j | 0 <= i < j < |b| ensures b[i].leafIndex != b[j].leafIndex {
      assert b == b[..i] + [b[i]] + b[i + 1..j] + [b[j]] + b[j + 1..];
      assert multiset(b) >= multiset{b[i], b[j]};
      assert b[i] in multiset(a) && b[j] in multiset(a);
      var k :| 0 <= k < |a| && a[k] == b[i];
      var l :| 0 <= l < |a| && a[l] == b[j];
      if k == l {
        assert multiset(a)[a[k]] >= 2;
        OnceOnly(a, k);
      }
    }
  }

  lemma OnceOnly(a: seq<Outpoint>, k: nat)
    requires k < |a| && DistinctLeaves(a)
    ensures multiset(a)[a[k]] == 1
  {
    var front, back := a[..k], a[k + 1..];
    assert a == front + [a[k]] + back;
    assert a[k] !in front && a[k] !in back;
  }

  /** A call is accepted exactly when it has outpoints, all with different leaf indices. */
  lemma AcceptedIffDistinct(oldRoot: Hash32, outpoints: seq<Outpoint>)
    ensures Preimage(oldRoot, outpoints).Ok? <==> outpoints != [] && DistinctLeaves(outpoints)
  {
    SortOrders(outpoints);
    SortedRepeats(Sort(outpoints));
    if DistinctLeaves(outpoints) { DistinctPermutes(outpoints, Sort(outpoints)); }
    if DistinctLeaves(Sort(outpoints)) { DistinctPermutes(Sort(outpoints), outpoints); }
  }

  // ---- Invariance and injectivity ----

  /** The last element of one is the last element of the other. */
  lemma SameLast(a: seq<Outpoint>, b: seq<Outpoint>)
    requires a != [] && Strict(a) && Strict(b) && multiset(a) == multiset(b)
    ensures b != [] && a[|a| - 1] == b[|b| - 1]
  {
    assert a[|a| - 1] in multiset(b);
    var k :| 0 <= k < |b| && b[k] == a[|a| - 1];
    assert b[|b| - 1] in multiset(a);
    var l :| 0 <= l < |a| && a[l] == b[|b| - 1];
  }

  lemma WithoutLast(a: seq<Outpoint>)
    requires a != []
    ensures multiset(a[..|a| - 1]) == multiset(a) - multiset{a[|a| - 1]}
  {
    assert a == a[..|a| - 1] + [a[|a| - 1]];
  }

  /** Strictly ascending sequences with the same elements are equal. */
  lemma {:induction false} StrictUnique(a: seq<Outpoint>, b: seq<Outpoint>)
    requires Strict(a) && Strict(b) && multiset(a) == multiset(b)
    ensures a == b
    decreases |a|
  {
    if a == [] {
      assert |b| == |multiset(b)|;
    } else {
      SameLast(a, b);
      WithoutLast(a);
      WithoutLast(b);
      StrictUnique(a[..|a| - 1], b[..|b| - 1]);
      assert a == a[..|a| - 1] + [a[|a| - 1]] && b == b[..|b| - 1] + [b[|b| - 1]];
    }
  }

  lemma SortedSame(a: seq<Outpoint>, b: seq<Outpoint>)
    requires multiset(a) == multiset(b) && DistinctLeaves(a)
    ensures Sort(a) == Sort(b)
  {
    SortOrders(a);
    SortOrders(b);
    DistinctPermutes(a, Sort(a));
    DistinctPermutes(a, Sort(b));
    SortedRepeats(Sort(a));
    SortedRepeats(Sort(b));
    StrictUnique(Sort(a), Sort(b));
  }

  lemma {:induction false} EntriesInjective(a: seq<Outpoint>, b: seq<Outpoint>)
    requires Entries(a) == Entries(b)
    ensures a == b
    decreases |a|
  {
    assert |a| == |b|;
    if a != [] {
      var n := |a| - 1;
      SplitEqual(Entries(a[..n]), Entry(a[n]), Entries(b[..n]), Entry(b[n]));
      EntriesInjective(a[..n], b[..n]);
      EntryInjective(a[n], b[n]);
      assert a == a[..n] + [a[n]] && b == b[..n] + [b[n]];
    }
  }

  lemma EntryInjective(a: Outpoint, b: Outpoint)
    requires Entry(a) == Entry(b)
    ensures a == b
  {
    PowValues();
    hide LE;
    SplitEqual(LE(8, a.leafIndex) + a.txid, LE(4, a.vout), LE(8, b.leafIndex) + b.txid, LE(4, b.vout));
    SplitEqual(LE(8, a.leafIndex), a.txid, LE(8, b.leafIndex), b.txid);
    LEInjective(8, a.leafIndex, b.leafIndex);
    LEInjective(4, a.vout, b.vout);
  }

  /** Two accepted calls hash the same bytes exactly when they have the same old root and the same
      outpoints, in whatever order. */
  lemma SameIffSameSet(r: Hash32, a: seq<Outpoint>, q: Hash32, b: seq<Outpoint>)
    requires Preimage(r, a).Ok? && Preimage(q, b).Ok?
    ensures Preimage(r, a) == Preimage(q, b) <==> r == q && multiset(a) == multiset(b)
  {
    AcceptedIffDistinct(r, a);
    SortOrders(a);
    SortOrders(b);
    if r == q && multiset(a) == multiset(b) {
      SortedSame(a, b);
      assert |a| == |multiset(a)| == |multiset(b)| == |b|;
    }
    if Preimage(r, a) == Preimage(q, b) {
      PartsEqual(r, a, q, b);
      EntriesInjective(Sort(a), Sort(b));
    }
  }

  lemma PartsEqual(r: Hash32, a: seq<Outpoint>, q: Hash32, b: seq<Outpoint>)
    requires Preimage(r, a).Ok? && Preimage(r, a) == Preimage(q, b)
    ensures r == q && Entries(Sort(a)) == Entries(Sort(b))
  {
    hide LE, Entries, Sort, Repeats;
    SplitEqual(DOMAIN + r + LE(8, |a|), Entries(Sort(a)), DOMAIN + q + LE(8, |b|), Entries(Sort(b)));
    SplitEqual(DOMAIN + r, LE(8, |a|), DOMAIN + q, LE(8, |b|));
    SplitEqual(DOMAIN, r, DOMAIN, q);
  }

  /** Reordering the outpoints changes neither acceptance nor the bytes that are hashed. */
  lemma OrderIsIrrelevant(r: Hash32, a: seq<Outpoint>, b: seq<Outpoint>)
    requires multiset(a) == multiset(b)
    ensures Preimage(r, a) == Preimage(r, b)
  {
    AcceptedIffDistinct(r, a);
    AcceptedIffDistinct(r, b);
    assert |a| == |multiset(a)| == |multiset(b)| == |b|;
    if DistinctLeaves(a) {
      DistinctPermutes(a, b);
      SortedSame(a, b);
    } else if DistinctLeaves(b) {
      DistinctPermutes(b, a);
    }
  }
}
