/** The store of one worker: vertices and edges in two ordered tables of byte strings.

    An edge is filed under its encoded source, followed by the number of the batch it came in and
    its position in the batch; the out-edges of a vertex are read back by scanning the keys that
    start with its encoding.
 */
module GraphStore {
  import opened Options
  import opened Bags
  import opened Bsp
  import opened Codec
  import opened ByteTable
  import opened WorkerCore

  type StoredEdge = Edge<Bytes, Bytes>

  // ---------------------------------------------------------------------------------------
  // Encodings.

  /** A byte string whose length fits the eight-byte length prefix. */
  predicate Fits(bs: Bytes) {
    |bs| < U64_LIMIT
  }

  predicate EdgeFits(e: StoredEdge) {
    Fits(e.src) && Fits(e.dst) && Fits(e.value)
  }

  function EncodeBytes(bs: Bytes): Bytes {
    EncLE(|bs|, 8) + bs
  }

  /** The decoded string and what follows it. */
  function DecodeBytes(bs: Bytes): Option<(Bytes, Bytes)> {
    if |bs| < 8 then None else
    var n := DecLE(bs[..8]);
    if |bs| - 8 < n then None else Some((bs[8..8 + n], bs[8 + n..]))
  }

  function EncodeEdge(e: StoredEdge): Bytes {
    EncodeBytes(e.src) + (EncodeBytes(e.dst) + EncodeBytes(e.value))
  }

  function DecodeEdge(bs: Bytes): Option<StoredEdge> {
    var src := DecodeBytes(bs);
    if src.None? then None else
    var dst := DecodeBytes(src.value.1);
    if dst.None? then None else
    var value := DecodeBytes(dst.value.1);
    if value.None? then None else Some(Edge(src.value.0, dst.value.0, value.value.0))
  }

  const NONCE_BYTES: nat := 8
  const INDEX_BYTES: nat := 4
  const INDEX_LIMIT: nat := 0x1_0000_0000

  /** The position is cut to 32 bits before it is encoded. */
  function KeySuffix(nonce: nat, i: nat): Bytes {
    EncLE(nonce, NONCE_BYTES) + EncLE(i % INDEX_LIMIT, INDEX_BYTES)
  }

  function EdgeKey(src: Bytes, nonce: nat, i: nat): Bytes {
    EncodeBytes(src) + KeySuffix(nonce, i)
  }

  /** A byte string is stored after its length, which takes eight bytes, the least significant first. */
  lemma BytesLayout(bs: Bytes)
    ensures var n := |bs|;
            EncodeBytes(bs)
            == [n % 256, n / 0x100 % 256, n / 0x1_0000 % 256, n / 0x100_0000 % 256,
                n / 0x1_0000_0000 % 256, n / 0x100_0000_0000 % 256, n / 0x1_0000_0000_0000 % 256,
                n / 0x100_0000_0000_0000 % 256] + bs
  {
    EncodesLittleEndian(|bs|);
    hide EncLE;
  }

  /** An edge is stored as its source, target and value, in this order, and filed under its source,
      the number of its batch in eight bytes and its position modulo 2^32 in four. */
  lemma EdgeLayout(e: StoredEdge, nonce: nat, i: nat)
    ensures EncodeEdge(e) == EncodeBytes(e.src) + EncodeBytes(e.dst) + EncodeBytes(e.value)
    ensures var j := i % 0x1_0000_0000;
            EdgeKey(e.src, nonce, i)
            == EncodeBytes(e.src)
               + [nonce % 256, nonce / 0x100 % 256, nonce / 0x1_0000 % 256, nonce / 0x100_0000 % 256,
                  nonce / 0x1_0000_0000 % 256, nonce / 0x100_0000_0000 % 256, nonce / 0x1_0000_0000_0000 % 256,
                  nonce / 0x100_0000_0000_0000 % 256]
               + [j % 256, j / 0x100 % 256, j / 0x1_0000 % 256, j / 0x100_0000 % 256]
  {
    EncodesLittleEndian(nonce);
    EncodesLittleEndian(i % INDEX_LIMIT);
    hide EncLE, EncodeBytes;
    var a, b, c := EncodeBytes(e.src), EncodeBytes(e.dst), EncodeBytes(e.value);
    assert a + (b + c) == a + b + c;
    var x, y := EncLE(nonce, NONCE_BYTES), EncLE(i % INDEX_LIMIT, INDEX_BYTES);
    assert a + (x + y) == a + x + y;
  }

  lemma {:induction false} LengthRoundTrip(n: nat)
    requires n < U64_LIMIT
    ensures DecLE(EncLE(n, 8)) == n
  {
    U64Capacity();
    DecOfEnc(n, 8);
  }

  /** Decoding undoes encoding and hands back whatever follows. */
  lemma BytesRoundTrip(bs: Bytes, rest: Bytes)
    requires Fits(bs)
    ensures DecodeBytes(EncodeBytes(bs) + rest) == Some((bs, rest))
  {
    LengthRoundTrip(|bs|);
    var all := EncodeBytes(bs) + rest;
    assert all[..8] == EncLE(|bs|, 8);
    assert all[8..8 + |bs|] == bs;
    assert all[8 + |bs|..] == rest;
  }

  lemma PlainRoundTrip(bs: Bytes)
    requires Fits(bs)
    ensures DecodeBytes(EncodeBytes(bs)) == Some((bs, []))
  {
    BytesRoundTrip(bs, []);
    assert EncodeBytes(bs) + [] == EncodeBytes(bs);
  }

  lemma EdgeRoundTrip(e: StoredEdge)
    requires EdgeFits(e)
    ensures DecodeEdge(EncodeEdge(e)) == Some(e)
  {
    BytesRoundTrip(e.src, EncodeBytes(e.dst) + EncodeBytes(e.value));
    BytesRoundTrip(e.dst, EncodeBytes(e.value));
    PlainRoundTrip(e.value);
  }

  /** Length-prefixed encodings are prefix-free: a key starts with the encoding of `s` exactly when
      its source is `s`. */
  lemma PrefixMeansSource(s: Bytes, src: Bytes, suffix: Bytes)
    requires Fits(s) && Fits(src)
    ensures StartsWith(EncodeBytes(src) + suffix, EncodeBytes(s)) <==> s == src
  {
    var key := EncodeBytes(src) + suffix;
    BytesRoundTrip(src, suffix);
    if StartsWith(key, EncodeBytes(s)) {
      var rest := key[|EncodeBytes(s)|..];
      assert key == EncodeBytes(s) + rest;
      BytesRoundTrip(s, rest);
    }
  }

  lemma SuffixParts(nonce: nat, i: nat)
    requires nonce < U64_LIMIT
    ensures DecLE(KeySuffix(nonce, i)[..NONCE_BYTES]) == nonce
    ensures DecLE(KeySuffix(nonce, i)[NONCE_BYTES..]) == i % INDEX_LIMIT
  {
    U64Capacity();
    DecOfEnc(nonce, NONCE_BYTES);
    DecOfEnc(i % INDEX_LIMIT, INDEX_BYTES);
    assert KeySuffix(nonce, i)[..NONCE_BYTES] == EncLE(nonce, NONCE_BYTES);
    assert KeySuffix(nonce, i)[NONCE_BYTES..] == EncLE(i % INDEX_LIMIT, INDEX_BYTES);
  }

  /** Two edges are filed under the same key exactly when they have the same source, the same batch
      and positions that agree modulo 2^32. */
  lemma KeysClashExactlyWhen(src: Bytes, nonce: nat, i: nat, src': Bytes, nonce': nat, i': nat)
    requires Fits(src) && Fits(src') && nonce < U64_LIMIT && nonce' < U64_LIMIT
    ensures EdgeKey(src, nonce, i) == EdgeKey(src', nonce', i') <==>
            src == src' && nonce == nonce' && i % INDEX_LIMIT == i' % INDEX_LIMIT
  {
    SuffixParts(nonce, i);
    SuffixParts(nonce', i');
    BytesRoundTrip(src, KeySuffix(nonce, i));
    BytesRoundTrip(src', KeySuffix(nonce', i'));
  }

  // ---------------------------------------------------------------------------------------
  // Tables of edges.

  function DecodedBytes(bs: Bytes): Bytes {
    match DecodeBytes(bs)
    case None => []
    case Some(r) => r.0
  }

  function DecodedEdge(bs: Bytes): StoredEdge {
    match DecodeEdge(bs)
    case None => Edge([], [], [])
    case Some(e) => e
  }

  /** An entry that PutEdgeBatch wrote, in a batch numbered below `limit`. */
  ghost predicate EdgeEntry(entry: Entry, limit: nat) {
    var e := DecodedEdge(entry.1);
    && EdgeFits(e) && entry.1 == EncodeEdge(e)
    && exists nonce: nat, i: nat :: nonce < limit && nonce < U64_LIMIT && entry.0 == EdgeKey(e.src, nonce, i)
  }

  ghost predicate EdgeTable(table: seq<Entry>, limit: nat) {
    Sorted(table) && forall i :: 0 <= i < |table| ==> EdgeEntry(table[i], limit)
  }

  /** The batch number in the key of an edge. */
  function NonceOf(key: Bytes): nat {
    match DecodeBytes(key)
    case None => 0
    case Some(r) => if |r.1| >= NONCE_BYTES then DecLE(r.1[..NONCE_BYTES]) else 0
  }

  lemma EntryBelowExactlyWhen(entry: Entry, limit: nat)
    requires EdgeEntry(entry, U64_LIMIT)
    ensures EdgeEntry(entry, limit) <==> NonceOf(entry.0) < limit
  {
    var e := DecodedEdge(entry.1);
    forall nonce: nat, i: nat | nonce < U64_LIMIT && entry.0 == EdgeKey(e.src, nonce, i)
      ensures NonceOf(entry.0) == nonce
    {
      BytesRoundTrip(e.src, KeySuffix(nonce, i));
      SuffixParts(nonce, i);
    }
  }

  /** All entries of a table were written in batches numbered below `limit` exactly when their keys say so. */
  lemma TableBelowExactlyWhen(table: seq<Entry>, limit: nat)
    requires EdgeTable(table, U64_LIMIT)
    ensures EdgeTable(table, limit) <==> forall i :: 0 <= i < |table| ==> NonceOf(table[i].0) < limit
  {
    hide EdgeEntry, NonceOf, Sorted;
    forall i | 0 <= i < |table|
      ensures EdgeEntry(table[i], limit) <==> NonceOf(table[i].0) < limit
    {
      EntryBelowExactlyWhen(table[i], limit);
    }
  }

  function EdgesOf(table: seq<Entry>): seq<StoredEdge> {
    seq(|table|, i requires 0 <= i < |table| => DecodedEdge(table[i].1))
  }

  function OnlyFrom(edges: seq<StoredEdge>, src: Bytes): seq<StoredEdge> {
    if edges == [] then
      []
    else
      OnlyFrom(edges[..|edges| - 1], src)
      + (if edges[|edges| - 1].src == src then [edges[|edges| - 1]] else [])
  }

  /** The table after the first `n` edges of a batch. */
  function PutEdges(table: seq<Entry>, edges: seq<StoredEdge>, nonce: nat, n: nat): seq<Entry>
    requires n <= |edges|
  {
    if n == 0 then
      table
    else
      var e := edges[n - 1];
      Put(PutEdges(table, edges, nonce, n - 1), EdgeKey(e.src, nonce, n - 1), EncodeEdge(e))
  }

  /** No two edges of the batch are filed under one key. */
  ghost predicate NoClash(edges: seq<StoredEdge>, n: nat)
    requires n <= |edges|
  {
    forall i, j :: 0 <= i < j < n && edges[i].src == edges[j].src ==> i % INDEX_LIMIT != j % INDEX_LIMIT
  }

  /** Batches of up to 2^32 edges never clash. */
  lemma ShortBatchesDoNotClash(edges: seq<StoredEdge>)
    requires |edges| <= INDEX_LIMIT
    ensures NoClash(edges, |edges|)
  {
  }

  lemma EntryOfEdge(e: StoredEdge, nonce: nat, i: nat, limit: nat)
    requires EdgeFits(e) && nonce < limit && nonce < U64_LIMIT
    ensures EdgeEntry((EdgeKey(e.src, nonce, i), EncodeEdge(e)), limit)
    ensures DecodedEdge(EncodeEdge(e)) == e
  {
    EdgeRoundTrip(e);
  }

  lemma {:induction false} PutEdgesKeepsTable(table: seq<Entry>, edges: seq<StoredEdge>, nonce: nat, n: nat, limit: nat)
    requires n <= |edges| && EdgeTable(table, limit) && nonce < limit && nonce < U64_LIMIT
    requires forall i :: 0 <= i < |edges| ==> EdgeFits(edges[i])
    ensures EdgeTable(PutEdges(table, edges, nonce, n), limit)
  {
    hide EdgeEntry, EdgeKey, EncodeEdge, Put, HasKey, EdgeFits;
    if n > 0 {
      var e := edges[n - 1];
      PutEdgesKeepsTable(table, edges, nonce, n - 1, limit);
      var before := PutEdges(table, edges, nonce, n - 1);
      PutIsSorted(before, EdgeKey(e.src, nonce, n - 1), EncodeEdge(e));
      EntryOfEdge(e, nonce, n - 1, limit);
      var after := PutEdges(table, edges, nonce, n);
      forall i | 0 <= i < |after|
        ensures EdgeEntry(after[i], limit)
      {
        assert after[i] in after;
        if after[i] in before {
          var j :| 0 <= j < |before| && before[j] == after[i];
        }
      }
    }
  }

  /** One of the first `n` edges of the batch is filed under `key`. */
  ghost predicate Filed(edges: seq<StoredEdge>, nonce: nat, n: nat, key: Bytes)
    requires n <= |edges|
  {
    exists i :: 0 <= i < n && key == EdgeKey(edges[i].src, nonce, i)
  }

  lemma FiledStep(edges: seq<StoredEdge>, nonce: nat, n: nat, m: nat, key: Bytes)
    requires m == n + 1 <= |edges|
    ensures Filed(edges, nonce, m, key) <==> Filed(edges, nonce, n, key) || key == EdgeKey(edges[n].src, nonce, n)
  {
    hide EdgeKey;
    if Filed(edges, nonce, n, key) {
      var i :| 0 <= i < n && key == EdgeKey(edges[i].src, nonce, i);
    }
  }

  /** The keys of the table after `n` edges: the old ones and those of the batch. */
  lemma {:induction false} KeysAfterPut(table: seq<Entry>, edges: seq<StoredEdge>, nonce: nat, n: nat, key: Bytes)
    requires n <= |edges| && Sorted(table)
    ensures Sorted(PutEdges(table, edges, nonce, n))
    ensures HasKey(PutEdges(table, edges, nonce, n), key) <==> HasKey(table, key) || Filed(edges, nonce, n, key)
  {
    hide Filed, HasKey, Sorted, Put, EdgeKey, EncodeEdge;
    if n > 0 {
      KeysAfterPut(table, edges, nonce, n - 1, key);
      var before, e := PutEdges(table, edges, nonce, n - 1), edges[n - 1];
      PutIsSorted(before, EdgeKey(e.src, nonce, n - 1), EncodeEdge(e));
      KeysAfterOne(before, EdgeKey(e.src, nonce, n - 1), EncodeEdge(e), key);
      FiledStep(edges, nonce, n - 1, n, key);
    } else {
      NothingFiled(edges, nonce, key);
    }
  }

  lemma NothingFiled(edges: seq<StoredEdge>, nonce: nat, key: Bytes)
    ensures !Filed(edges, nonce, 0, key)
  {
  }

  lemma {:induction false} KeysAfterOne(table: seq<Entry>, k: Bytes, v: Bytes, key: Bytes)
    requires Sorted(table)
    ensures HasKey(Put(table, k, v), key) <==> HasKey(table, key) || key == k
  {
    PutIsSorted(table, k, v);
    hide Put;
    var after := Put(table, k, v);
    if HasKey(table, key) && key != k {
      var i :| 0 <= i < |table| && table[i].0 == key;
      assert table[i] in after;
      var j :| 0 <= j < |after| && after[j] == table[i];
    }
    if HasKey(after, key) && key != k {
      var i :| 0 <= i < |after| && after[i].0 == key;
      assert after[i] in after;
      assert after[i] in table;
      var j :| 0 <= j < |table| && table[j] == after[i];
    }
    assert (k, v) in after;
  }

  lemma OldKeysHaveOldNonces(table: seq<Entry>, limit: nat, src: Bytes, nonce: nat, i: nat)
    requires EdgeTable(table, limit) && limit <= nonce < U64_LIMIT && Fits(src)
    ensures !HasKey(table, EdgeKey(src, nonce, i))
  {
    if HasKey(table, EdgeKey(src, nonce, i)) {
      var j :| 0 <= j < |table| && table[j].0 == EdgeKey(src, nonce, i);
      assert EdgeEntry(table[j], limit);
      var e := DecodedEdge(table[j].1);
      var nonce': nat, i': nat :| nonce' < limit && nonce' < U64_LIMIT && table[j].0 == EdgeKey(e.src, nonce', i');
      KeysClashExactlyWhen(src, nonce, i, e.src, nonce', i');
    }
  }

  /** Edge `n` of the batch is filed under the key of an earlier one. */
  ghost predicate Clashes(edges: seq<StoredEdge>, n: nat)
    requires n < |edges|
  {
    exists i :: 0 <= i < n && edges[i].src == edges[n].src && i % INDEX_LIMIT == n % INDEX_LIMIT
  }

  /** The next edge of a batch goes to a new key exactly when it clashes with none before it. */
  lemma {:induction false} NextKeyIsNew(table: seq<Entry>, limit: nat, edges: seq<StoredEdge>, nonce: nat, n: nat)
    requires EdgeTable(table, limit) && limit <= nonce < U64_LIMIT && n < |edges|
    requires forall i :: 0 <= i < |edges| ==> EdgeFits(edges[i])
    ensures HasKey(PutEdges(table, edges, nonce, n), EdgeKey(edges[n].src, nonce, n)) <==> Clashes(edges, n)
  {
    var key := EdgeKey(edges[n].src, nonce, n);
    KeysAfterPut(table, edges, nonce, n, key);
    OldKeysHaveOldNonces(table, limit, edges[n].src, nonce, n);
    hide HasKey, EdgeTable, PutEdges, EdgeKey;
    forall i | 0 <= i < n
      ensures key == EdgeKey(edges[i].src, nonce, i) <==>
              edges[i].src == edges[n].src && i % INDEX_LIMIT == n % INDEX_LIMIT
    {
      KeysClashExactlyWhen(edges[n].src, nonce, n, edges[i].src, nonce, i);
    }
  }

  lemma ClashStep(edges: seq<StoredEdge>, n: nat, m: nat)
    requires m == n + 1 <= |edges|
    ensures NoClash(edges, m) <==> NoClash(edges, n) && !Clashes(edges, n)
  {
    if NoClash(edges, n) && !Clashes(edges, n) {
      forall i, j | 0 <= i < j < m && edges[i].src == edges[j].src
        ensures i % INDEX_LIMIT != j % INDEX_LIMIT
      {
        assert j < n || j == n;
      }
    }
    if NoClash(edges, m) {
      assert NoClash(edges, n);
    }
  }

  lemma EdgesOfConcat(a: seq<Entry>, b: seq<Entry>)
    ensures EdgesOf(a + b) == EdgesOf(a) + EdgesOf(b)
  {
  }

  lemma {:induction false} EdgesOfAsBag(table: seq<Entry>, key: Bytes, e: StoredEdge)
    requires !HasKey(table, key) && EdgeFits(e)
    ensures multiset(EdgesOf(Put(table, key, EncodeEdge(e)))) == multiset(EdgesOf(table)) + multiset{e}
    ensures |Put(table, key, EncodeEdge(e))| == |table| + 1
  {
    EdgeRoundTrip(e);
    var entry := (key, EncodeEdge(e));
    assert EdgesOf([entry]) == [e];
    var at := PutInserts(table, key, EncodeEdge(e));
    EdgesOfConcat(table[..at] + [entry], table[at..]);
    EdgesOfConcat(table[..at], [entry]);
    EdgesOfConcat(table[..at], table[at..]);
    assert table == table[..at] + table[at..];
    hide EdgesOf, EncodeEdge, Put, HasKey;
  }

  lemma {:induction false} NextEdgeStored(
      table: seq<Entry>, limit: nat, edges: seq<StoredEdge>, nonce: nat, n: nat, m: nat)
    requires EdgeTable(table, limit) && limit <= nonce < U64_LIMIT && m == n + 1 <= |edges|
    requires forall i :: 0 <= i < |edges| ==> EdgeFits(edges[i])
    ensures var before, after := PutEdges(table, edges, nonce, n), PutEdges(table, edges, nonce, m);
            && |after| == |before| + (if Clashes(edges, n) then 0 else 1)
            && (!Clashes(edges, n) ==> multiset(EdgesOf(after)) == multiset(EdgesOf(before)) + multiset{edges[n]})
  {
    hide EdgeTable, EdgesOf, EdgeKey, EncodeEdge, HasKey, Clashes, Sorted, Put;
    var before, e := PutEdges(table, edges, nonce, n), edges[n];
    StillSorted(table, limit, edges, nonce, n);
    PutIsSorted(before, EdgeKey(e.src, nonce, n), EncodeEdge(e));
    NextKeyIsNew(table, limit, edges, nonce, n);
    if !HasKey(before, EdgeKey(e.src, nonce, n)) {
      EdgesOfAsBag(before, EdgeKey(e.src, nonce, n), e);
    }
  }

  lemma PrefixGrows(edges: seq<StoredEdge>, n: nat, m: nat)
    requires m == n + 1 <= |edges|
    ensures multiset(edges[..m]) == multiset(edges[..n]) + multiset{edges[n]}
  {
    assert edges[..m] == edges[..n] + [edges[n]];
  }

  /** With a batch number that was never used, the batch is stored entirely exactly when no two of
      its edges are filed under one key; then the table gains the batch and nothing else. */
  lemma {:induction false} BatchIsStoredExactlyWhen(
      table: seq<Entry>, limit: nat, edges: seq<StoredEdge>, nonce: nat, n: nat)
    requires EdgeTable(table, limit) && limit <= nonce < U64_LIMIT && n <= |edges|
    requires forall i :: 0 <= i < |edges| ==> EdgeFits(edges[i])
    ensures |PutEdges(table, edges, nonce, n)| <= |table| + n
    ensures NoClash(edges, n) <==> |PutEdges(table, edges, nonce, n)| == |table| + n
    ensures NoClash(edges, n) ==>
              multiset(EdgesOf(PutEdges(table, edges, nonce, n))) == multiset(EdgesOf(table)) + multiset(edges[..n])
  {
    hide NoClash, EdgeTable, EdgesOf, Clashes;
    if n > 0 {
      BatchIsStoredExactlyWhen(table, limit, edges, nonce, n - 1);
      NextEdgeStored(table, limit, edges, nonce, n - 1, n);
      ClashStep(edges, n - 1, n);
      PrefixGrows(edges, n - 1, n);
      hide PutEdges;
    } else {
      NothingClashes(edges);
    }
  }

  /** One edge repeated 2^32 + 1 times is such a batch: positions 0 and 2^32 are filed under one key,
      and an empty table ends up with fewer entries than the batch has edges. */
  lemma {:induction false} LongBatchLosesEdges(e: StoredEdge, nonce: nat)
    requires EdgeFits(e) && nonce < U64_LIMIT
    ensures var batch := seq(INDEX_LIMIT + 1, _ => e);
            !NoClash(batch, |batch|) && |PutEdges([], batch, nonce, |batch|)| < |batch|
  {
    var batch := seq(INDEX_LIMIT + 1, _ => e);
    assert batch[0].src == batch[INDEX_LIMIT].src && 0 % INDEX_LIMIT == INDEX_LIMIT % INDEX_LIMIT;
    hide PutEdges, EdgeFits;
    BatchIsStoredExactlyWhen([], 0, batch, nonce, |batch|);
  }

  lemma NothingClashes(edges: seq<StoredEdge>)
    ensures NoClash(edges, 0)
  {
  }

  lemma {:induction false} StillSorted(table: seq<Entry>, limit: nat, edges: seq<StoredEdge>, nonce: nat, n: nat)
    requires EdgeTable(table, limit) && n <= |edges|
    ensures Sorted(PutEdges(table, edges, nonce, n))
  {
    KeysAfterPut(table, edges, nonce, n, []);
  }

  // ---------------------------------------------------------------------------------------
  // Reading the edges of one source.

  lemma {:induction false} OnlyFromConcat(a: seq<StoredEdge>, b: seq<StoredEdge>, src: Bytes)
    ensures OnlyFrom(a + b, src) == OnlyFrom(a, src) + OnlyFrom(b, src)
  {
    if b == [] {
      assert a + b == a;
    } else {
      OnlyFromConcat(a, b[..|b| - 1], src);
      assert (a + b)[..|a + b| - 1] == a + b[..|b| - 1];
    }
  }

  lemma {:induction false} OnlyFromUniform(edges: seq<StoredEdge>, src: Bytes, same: bool)
    requires forall i :: 0 <= i < |edges| ==> (edges[i].src == src <==> same)
    ensures OnlyFrom(edges, src) == if same then edges else []
  {
    if edges != [] {
      OnlyFromUniform(edges[..|edges| - 1], src, same);
    }
  }

  lemma {:induction false} OnlyFromCounts(edges: seq<StoredEdge>, src: Bytes, e: StoredEdge)
    ensures multiset(OnlyFrom(edges, src))[e] == if e.src == src then multiset(edges)[e] else 0
  {
    if edges != [] {
      var front, last := edges[..|edges| - 1], edges[|edges| - 1];
      OnlyFromCounts(front, src, e);
      assert edges == front + [last];
      assert multiset(edges) == multiset(front) + multiset{last};
    }
  }

  lemma SourceOfEntry(entry: Entry, limit: nat, s: Bytes)
    requires EdgeEntry(entry, limit) && Fits(s)
    ensures DecodeEdge(entry.1) == Some(DecodedEdge(entry.1))
    ensures StartsWith(entry.0, EncodeBytes(s)) <==> DecodedEdge(entry.1).src == s
  {
    var e := DecodedEdge(entry.1);
    EdgeRoundTrip(e);
    var nonce: nat, i: nat :| nonce < limit && nonce < U64_LIMIT && entry.0 == EdgeKey(e.src, nonce, i);
    PrefixMeansSource(s, e.src, KeySuffix(nonce, i));
  }

  function Pairs(edges: seq<StoredEdge>): seq<(Bytes, Bytes)> {
    seq(|edges|, i requires 0 <= i < |edges| => (edges[i].dst, edges[i].value))
  }

  lemma {:induction false} PairsCount(edges: seq<StoredEdge>, src: Bytes, x: (Bytes, Bytes))
    requires forall i :: 0 <= i < |edges| ==> edges[i].src == src
    ensures multiset(Pairs(edges))[x] == multiset(edges)[Edge(src, x.0, x.1)]
  {
    if edges == [] {
      assert Pairs(edges) == [];
    } else {
      var front, last := edges[..|edges| - 1], edges[|edges| - 1];
      PairsCount(front, src, x);
      assert edges == front + [last];
      assert Pairs(edges) == Pairs(front) + [(last.dst, last.value)];
    }
  }

  lemma {:induction false} OnlyFromIsFrom(edges: seq<StoredEdge>, src: Bytes)
    ensures forall i :: 0 <= i < |OnlyFrom(edges, src)| ==> OnlyFrom(edges, src)[i].src == src
  {
    if edges != [] {
      OnlyFromIsFrom(edges[..|edges| - 1], src);
    }
  }

  /** What is read back for a vertex is its out-edges in the reference semantics. */
  lemma {:induction false} OnlyFromAsOutEdges(edges: seq<StoredEdge>, src: Bytes)
    ensures multiset(Pairs(OnlyFrom(edges, src))) == OutEdges(multiset(edges), src)
  {
    var a, b := multiset(Pairs(OnlyFrom(edges, src))), OutEdges(multiset(edges), src);
    assert AreOutEdges(multiset(edges), src, b);
    OnlyFromIsFrom(edges, src);
    forall x: (Bytes, Bytes)
      ensures a[x] == b[x]
    {
      PairsCount(OnlyFrom(edges, src), src, x);
      OnlyFromCounts(edges, src, Edge(src, x.0, x.1));
    }
  }

  // ---------------------------------------------------------------------------------------
  // Tables of vertices.

  ghost predicate VertexEntry(entry: Entry) {
    var id, value := DecodedBytes(entry.0), DecodedBytes(entry.1);
    Fits(id) && Fits(value) && entry == (EncodeBytes(id), EncodeBytes(value))
  }

  ghost predicate VertexTable(table: seq<Entry>) {
    Sorted(table) && forall i :: 0 <= i < |table| ==> VertexEntry(table[i])
  }

  function IdsOf(table: seq<Entry>): seq<Bytes> {
    seq(|table|, i requires 0 <= i < |table| => DecodedBytes(table[i].0))
  }

  function VerticesOf(table: seq<Entry>): map<Bytes, Bytes> {
    if table == [] then
      map[]
    else
      var last := table[|table| - 1];
      VerticesOf(table[..|table| - 1])[DecodedBytes(last.0) := DecodedBytes(last.1)]
  }

  lemma VertexPrefix(table: seq<Entry>)
    requires VertexTable(table) && table != []
    ensures VertexTable(table[..|table| - 1]) && VertexEntry(table[|table| - 1])
    ensures forall i :: 0 <= i < |table| - 1 ==> Less(table[i].0, table[|table| - 1].0)
  {
  }

  lemma ListsGrows<T>(order: seq<T>, keys: set<T>, x: T)
    requires Lists(order, keys) && x !in order
    ensures Lists(order + [x], keys + {x})
  {
  }

  lemma LastIdIsNew(table: seq<Entry>)
    requires VertexTable(table) && table != []
    ensures DecodedBytes(table[|table| - 1].0) !in IdsOf(table[..|table| - 1])
  {
    var last := |table| - 1;
    forall i | 0 <= i < last
      ensures DecodedBytes(table[i].0) != DecodedBytes(table[last].0)
    {
      VertexOf(table, i);
      LessIsStrict(table[i].0, table[last].0);
    }
  }

  lemma NothingListed()
    ensures Lists(IdsOf([]), VerticesOf([]).Keys)
  {
  }

  lemma {:induction false} IdsAreKeys(table: seq<Entry>)
    requires VertexTable(table)
    ensures Lists(IdsOf(table), VerticesOf(table).Keys)
  {
    hide Lists, DecodedBytes;
    if table == [] {
      NothingListed();
    } else {
      var front, id := table[..|table| - 1], DecodedBytes(table[|table| - 1].0);
      VertexPrefix(table);
      LastIdIsNew(table);
      hide VertexTable, Sorted;
      IdsAreKeys(front);
      assert IdsOf(table) == IdsOf(front) + [id];
      ListsGrows(IdsOf(front), VerticesOf(front).Keys, id);
      assert VerticesOf(table).Keys == VerticesOf(front).Keys + {id};
    }
  }

  lemma {:induction false} ValueOfListed(table: seq<Entry>, i: nat)
    requires VertexTable(table) && i < |table|
    ensures DecodedBytes(table[i].0) in VerticesOf(table)
    ensures VerticesOf(table)[DecodedBytes(table[i].0)] == DecodedBytes(table[i].1)
  {
    var front, id := table[..|table| - 1], DecodedBytes(table[|table| - 1].0);
    VertexPrefix(table);
    if i < |front| {
      ValueOfListed(front, i);
      LastIdIsNew(table);
      hide VertexTable, DecodedBytes;
      assert IdsOf(front)[i] in IdsOf(front);
    }
  }

  /** The ids are distinct, and the map gives each listed id its listed value. */
  lemma {:induction false} VerticesListed(table: seq<Entry>)
    requires VertexTable(table)
    ensures Lists(IdsOf(table), VerticesOf(table).Keys)
    ensures forall i :: 0 <= i < |table| ==> VerticesOf(table)[IdsOf(table)[i]] == DecodedBytes(table[i].1)
  {
    hide VertexTable, DecodedBytes, VerticesOf;
    IdsAreKeys(table);
    forall i | 0 <= i < |table|
      ensures VerticesOf(table)[IdsOf(table)[i]] == DecodedBytes(table[i].1)
    {
      ValueOfListed(table, i);
    }
  }

  function ListingOf(table: seq<Entry>): seq<(Bytes, Bytes)> {
    seq(|table|, i requires 0 <= i < |table| => (DecodedBytes(table[i].0), DecodedBytes(table[i].1)))
  }

  lemma {:induction false} ListingIsComplete(table: seq<Entry>)
    requires VertexTable(table)
    ensures Lists(IdsOf(table), VerticesOf(table).Keys)
    ensures forall i :: 0 <= i < |ListingOf(table)| ==>
              ListingOf(table)[i] == (IdsOf(table)[i], VerticesOf(table)[IdsOf(table)[i]])
  {
    VerticesListed(table);
    hide VerticesOf, VertexTable, Lists, DecodedBytes;
  }

  lemma VertexOf(table: seq<Entry>, i: nat)
    requires VertexTable(table) && i < |table|
    ensures VertexEntry(table[i])
    ensures forall j :: 0 <= j < |table| && DecodedBytes(table[j].0) == DecodedBytes(table[i].0) ==>
              table[j].0 == table[i].0
  {
    forall j | 0 <= j < |table| && DecodedBytes(table[j].0) == DecodedBytes(table[i].0)
      ensures table[j].0 == table[i].0
    {
      assert VertexEntry(table[j]) && VertexEntry(table[i]);
    }
  }

  /** An id has a value exactly when the table holds the pair of encodings. */
  lemma {:induction false} HoldsVertex(table: seq<Entry>, id: Bytes, value: Bytes)
    requires VertexTable(table) && Fits(id) && Fits(value)
    ensures id in VerticesOf(table) && VerticesOf(table)[id] == value
       <==> (EncodeBytes(id), EncodeBytes(value)) in table
  {
    VerticesListed(table);
    PlainRoundTrip(id);
    PlainRoundTrip(value);
    hide Sorted, EncodeBytes, DecodeBytes, VerticesOf;
    if id in VerticesOf(table) && VerticesOf(table)[id] == value {
      var i :| 0 <= i < |IdsOf(table)| && IdsOf(table)[i] == id;
      assert VertexEntry(table[i]);
      assert table[i] == (EncodeBytes(id), EncodeBytes(value));
    }
    if (EncodeBytes(id), EncodeBytes(value)) in table {
      var i :| 0 <= i < |table| && table[i] == (EncodeBytes(id), EncodeBytes(value));
      assert IdsOf(table)[i] == id;
      assert id in IdsOf(table);
    }
  }

  lemma {:induction false} HeldVertexFits(table: seq<Entry>, id: Bytes)
    requires VertexTable(table) && id in VerticesOf(table)
    ensures Fits(id) && Fits(VerticesOf(table)[id])
  {
    VerticesListed(table);
    var i :| 0 <= i < |IdsOf(table)| && IdsOf(table)[i] == id;
    assert VertexEntry(table[i]);
  }

  lemma {:induction false} PutVertexInTable(table: seq<Entry>, id: Bytes, value: Bytes)
    requires VertexTable(table) && Fits(id) && Fits(value)
    ensures VertexTable(Put(table, EncodeBytes(id), EncodeBytes(value)))
    ensures forall e :: e in Put(table, EncodeBytes(id), EncodeBytes(value)) <==>
              e == (EncodeBytes(id), EncodeBytes(value)) || (e in table && e.0 != EncodeBytes(id))
  {
    var after := Put(table, EncodeBytes(id), EncodeBytes(value));
    PutIsSorted(table, EncodeBytes(id), EncodeBytes(value));
    PlainRoundTrip(id);
    PlainRoundTrip(value);
    hide Put, Sorted, EncodeBytes, DecodeBytes;
    forall i | 0 <= i < |after|
      ensures VertexEntry(after[i])
    {
      assert after[i] in after;
      if after[i] in table {
        var j :| 0 <= j < |table| && table[j] == after[i];
        assert VertexEntry(table[j]);
      }
    }
  }

  /** Last write wins. */
  lemma {:induction false} PutVertexUpdates(table: seq<Entry>, id: Bytes, value: Bytes)
    requires VertexTable(table) && Fits(id) && Fits(value)
    ensures VertexTable(Put(table, EncodeBytes(id), EncodeBytes(value)))
    ensures VerticesOf(Put(table, EncodeBytes(id), EncodeBytes(value))) == VerticesOf(table)[id := value]
  {
    var after := Put(table, EncodeBytes(id), EncodeBytes(value));
    PutVertexInTable(table, id, value);
    hide Put, VertexTable, VerticesOf;
    var a, b := VerticesOf(after), VerticesOf(table)[id := value];
    forall k | k in a
      ensures k in b && b[k] == a[k]
    {
      SameVertex(table, after, id, value, k, a[k]);
    }
    forall k | k in b
      ensures k in a
    {
      SameVertex(table, after, id, value, k, b[k]);
    }
  }

  lemma {:induction false} SameVertex(table: seq<Entry>, after: seq<Entry>, id: Bytes, value: Bytes, k: Bytes, v: Bytes)
    requires VertexTable(table) && VertexTable(after) && Fits(id) && Fits(value)
    requires forall e :: e in after <==>
               e == (EncodeBytes(id), EncodeBytes(value)) || (e in table && e.0 != EncodeBytes(id))
    requires (k in VerticesOf(after) && v == VerticesOf(after)[k])
          || (k in VerticesOf(table)[id := value] && v == VerticesOf(table)[id := value][k])
    ensures k in VerticesOf(after) && VerticesOf(after)[k] == v
    ensures k in VerticesOf(table)[id := value] && VerticesOf(table)[id := value][k] == v
  {
    if k in VerticesOf(after) {
      HeldVertexFits(after, k);
    }
    if k in VerticesOf(table) {
      HeldVertexFits(table, k);
    }
    HoldsVertex(table, k, v);
    HoldsVertex(after, k, v);
    PlainRoundTrip(k);
    PlainRoundTrip(id);
    PlainRoundTrip(value);
    PlainRoundTrip(v);
    hide EncodeBytes, DecodeBytes, VertexTable, VerticesOf;
  }

  function PutVertices(table: seq<Entry>, vertices: seq<(Bytes, Bytes)>, n: nat): seq<Entry>
    requires n <= |vertices|
  {
    if n == 0 then
      table
    else
      Put(PutVertices(table, vertices, n - 1), EncodeBytes(vertices[n - 1].0), EncodeBytes(vertices[n - 1].1))
  }

  lemma {:induction false} PutVerticesUpdates(table: seq<Entry>, vertices: seq<(Bytes, Bytes)>, n: nat)
    requires VertexTable(table) && n <= |vertices|
    requires forall i :: 0 <= i < |vertices| ==> Fits(vertices[i].0) && Fits(vertices[i].1)
    ensures VertexTable(PutVertices(table, vertices, n))
    ensures VerticesOf(PutVertices(table, vertices, n)) == PutAll(VerticesOf(table), vertices[..n])
  {
    hide VertexTable, VerticesOf, Put, EncodeBytes;
    if n > 0 {
      PutVerticesUpdates(table, vertices, n - 1);
      PutVertexUpdates(PutVertices(table, vertices, n - 1), vertices[n - 1].0, vertices[n - 1].1);
      assert vertices[..n][..n - 1] == vertices[..n - 1];
    }
  }

  lemma {:induction false} LookupDecodes(table: seq<Entry>, id: Bytes)
    requires VertexTable(table) && Fits(id)
    ensures var r := Lookup(table, EncodeBytes(id));
            && (r.Some? <==> id in VerticesOf(table))
            && (r.Some? ==> VerticesOf(table)[id] == DecodedBytes(r.value))
  {
    var r := Lookup(table, EncodeBytes(id));
    LookupFinds(table, EncodeBytes(id));
    PlainRoundTrip(id);
    if r.Some? {
      var i :| 0 <= i < |table| && table[i] == (EncodeBytes(id), r.value);
      assert VertexEntry(table[i]);
      HoldsVertex(table, id, DecodedBytes(r.value));
    }
    if id in VerticesOf(table) {
      HeldVertexFits(table, id);
      HoldsVertex(table, id, VerticesOf(table)[id]);
      var i :| 0 <= i < |table| && table[i] == (EncodeBytes(id), EncodeBytes(VerticesOf(table)[id]));
      assert HasKey(table, EncodeBytes(id));
    }
  }

  lemma EdgeTableMonotone(table: seq<Entry>, limit: nat, larger: nat)
    requires EdgeTable(table, limit) && limit <= larger
    ensures EdgeTable(table, larger)
  {
    forall i | 0 <= i < |table|
      ensures EdgeEntry(table[i], larger)
    {
      assert EdgeEntry(table[i], limit);
    }
  }

  lemma EdgeBatchOutcome(table: seq<Entry>, edges: seq<StoredEdge>, nonce: nat)
    requires EdgeTable(table, U64_LIMIT) && nonce < U64_LIMIT
    requires forall i :: 0 <= i < |edges| ==> EdgeFits(edges[i])
    ensures var after := PutEdges(table, edges, nonce, |edges|);
            && EdgeTable(after, U64_LIMIT)
            && (EdgeTable(table, nonce) ==>
                  && EdgeTable(after, nonce + 1)
                  && (|after| == |table| + |edges| <==> NoClash(edges, |edges|))
                  && (|edges| <= INDEX_LIMIT ==>
                        multiset(EdgesOf(after)) == multiset(EdgesOf(table)) + multiset(edges)))
  {
    hide EdgeTable, PutEdges, EdgesOf;
    PutEdgesKeepsTable(table, edges, nonce, |edges|, U64_LIMIT);
    if EdgeTable(table, nonce) {
      EdgeTableMonotone(table, nonce, nonce + 1);
      PutEdgesKeepsTable(table, edges, nonce, |edges|, nonce + 1);
      BatchIsStoredExactlyWhen(table, nonce, edges, nonce, |edges|);
      assert edges[..|edges|] == edges;
      if |edges| <= INDEX_LIMIT {
        ShortBatchesDoNotClash(edges);
      }
    }
  }

  lemma {:induction false} SourcesOf(table: seq<Entry>, s: Bytes, same: bool)
    requires EdgeTable(table, U64_LIMIT) && Fits(s)
    requires forall i :: 0 <= i < |table| ==> (StartsWith(table[i].0, EncodeBytes(s)) <==> same)
    ensures OnlyFrom(EdgesOf(table), s) == if same then EdgesOf(table) else []
  {
    forall i | 0 <= i < |table|
      ensures EdgesOf(table)[i].src == s <==> same
    {
      assert EdgeEntry(table[i], U64_LIMIT);
      SourceOfEntry(table[i], U64_LIMIT, s);
    }
    OnlyFromUniform(EdgesOf(table), s, same);
  }

  lemma EdgeTableSlice(table: seq<Entry>, lo: nat, hi: nat)
    requires EdgeTable(table, U64_LIMIT) && lo <= hi <= |table|
    ensures EdgeTable(table[lo..hi], U64_LIMIT)
  {
  }

  /** Where the scan stops, no later key has the prefix. */
  lemma {:induction false} NoneLater(iter: seq<Entry>, prefix: Bytes, n: nat, i: nat)
    requires Sorted(iter) && n <= i < |iter|
    requires !StartsWith(iter[n].0, prefix) && !Less(iter[n].0, prefix)
    ensures !StartsWith(iter[i].0, prefix)
  {
    if StartsWith(iter[i].0, prefix) && n < i {
      PrefixRangeIsContiguous(prefix, iter[n].0, iter[i].0);
    }
  }

  lemma {:induction false} NoneBefore(table: seq<Entry>, src: Bytes, lo: nat)
    requires EdgeTable(table, U64_LIMIT) && Fits(src) && lo <= |table|
    requires forall i :: 0 <= i < lo ==> Less(table[i].0, EncodeBytes(src))
    ensures OnlyFrom(EdgesOf(table[0..lo]), src) == []
  {
    hide EncodeBytes, EdgeEntry, Less, StartsWith, EdgesOf, OnlyFrom;
    forall i | 0 <= i < lo
      ensures !StartsWith(table[0..lo][i].0, EncodeBytes(src))
    {
      if StartsWith(table[i].0, EncodeBytes(src)) {
        PrefixIsFirst(EncodeBytes(src), table[i].0);
      }
    }
    EdgeTableSlice(table, 0, lo);
    SourcesOf(table[0..lo], src, false);
  }

  lemma {:induction false} NoneAfter(table: seq<Entry>, src: Bytes, hi: nat)
    requires EdgeTable(table, U64_LIMIT) && Fits(src) && hi <= |table|
    requires hi < |table| ==> !StartsWith(table[hi].0, EncodeBytes(src)) && !Less(table[hi].0, EncodeBytes(src))
    ensures OnlyFrom(EdgesOf(table[hi..|table|]), src) == []
  {
    hide EncodeBytes, EdgeEntry, Less, StartsWith, EdgesOf, OnlyFrom;
    forall i | 0 <= i < |table| - hi
      ensures !StartsWith(table[hi..|table|][i].0, EncodeBytes(src))
    {
      NoneLater(table, EncodeBytes(src), hi, hi + i);
    }
    EdgeTableSlice(table, hi, |table|);
    SourcesOf(table[hi..|table|], src, false);
  }

  lemma {:induction false} AllBetween(table: seq<Entry>, src: Bytes, lo: nat, hi: nat)
    requires EdgeTable(table, U64_LIMIT) && Fits(src) && lo <= hi <= |table|
    requires forall i :: lo <= i < hi ==> StartsWith(table[i].0, EncodeBytes(src))
    ensures OnlyFrom(EdgesOf(table[lo..hi]), src) == EdgesOf(table[lo..hi])
  {
    hide EncodeBytes, EdgeEntry, StartsWith, EdgesOf, OnlyFrom;
    EdgeTableSlice(table, lo, hi);
    SourcesOf(table[lo..hi], src, true);
  }

  /** The three parts of a table around the scan of one source. */
  lemma {:induction false} EdgesBetween(table: seq<Entry>, src: Bytes, lo: nat, hi: nat)
    requires EdgeTable(table, U64_LIMIT) && Fits(src) && lo <= hi <= |table|
    requires forall i :: 0 <= i < lo ==> Less(table[i].0, EncodeBytes(src))
    requires forall i :: lo <= i < hi ==> StartsWith(table[i].0, EncodeBytes(src))
    requires hi < |table| ==> !StartsWith(table[hi].0, EncodeBytes(src)) && !Less(table[hi].0, EncodeBytes(src))
    ensures EdgesOf(table[lo..hi]) == OnlyFrom(EdgesOf(table), src)
  {
    NoneBefore(table, src, lo);
    AllBetween(table, src, lo, hi);
    NoneAfter(table, src, hi);
    ThreeParts(table, src, lo, hi);
    hide *;
  }

  lemma {:induction false} SeekParts(table: seq<Entry>, prefix: Bytes, iter: seq<Entry>, n: nat)
    requires Sorted(table) && iter == Seek(table, prefix) && n <= |iter|
    requires forall i :: 0 <= i < n ==> StartsWith(iter[i].0, prefix)
    requires n < |iter| ==> !StartsWith(iter[n].0, prefix)
    ensures var lo := |table| - |iter|;
            && iter == table[lo..]
            && (forall i :: 0 <= i < lo ==> Less(table[i].0, prefix))
            && (forall i :: lo <= i < lo + n ==> StartsWith(table[i].0, prefix))
            && (lo + n < |table| ==> !StartsWith(table[lo + n].0, prefix) && !Less(table[lo + n].0, prefix))
  {
    hide *;
    SeekSkips(table, prefix);
    var lo := |table| - |iter|;
    assert iter == table[lo..];
    forall i | lo <= i < lo + n
      ensures StartsWith(table[i].0, prefix)
    {
      assert table[i] == iter[i - lo];
    }
    if lo + n < |table| {
      assert table[lo + n] == iter[n];
    }
  }

  lemma EdgeTableIsSorted(table: seq<Entry>)
    requires EdgeTable(table, U64_LIMIT)
    ensures Sorted(table)
  {
  }

  lemma {:induction false} ScanIsComplete(table: seq<Entry>, src: Bytes, iter: seq<Entry>, n: nat)
    requires EdgeTable(table, U64_LIMIT) && Fits(src)
    requires iter == Seek(table, EncodeBytes(src)) && n <= |iter|
    requires forall i :: 0 <= i < n ==> StartsWith(iter[i].0, EncodeBytes(src))
    requires n < |iter| ==> !StartsWith(iter[n].0, EncodeBytes(src))
    ensures EdgesOf(iter[..n]) == OnlyFrom(EdgesOf(table), src)
  {
    hide *;
    EdgeTableIsSorted(table);
    var lo := |table| - |iter|;
    SeekParts(table, EncodeBytes(src), iter, n);
    assert iter[..n] == table[lo..lo + n];
    EdgesBetween(table, src, lo, lo + n);
  }

  lemma {:induction false} ThreeParts(table: seq<Entry>, src: Bytes, lo: nat, hi: nat)
    requires lo <= hi <= |table|
    ensures OnlyFrom(EdgesOf(table), src)
         == OnlyFrom(EdgesOf(table[0..lo]), src)
            + (OnlyFrom(EdgesOf(table[lo..hi]), src) + OnlyFrom(EdgesOf(table[hi..|table|]), src))
  {
    hide EdgesOf, OnlyFrom;
    var a, b, c := table[0..lo], table[lo..hi], table[hi..|table|];
    assert table == a + (b + c);
    EdgesOfConcat(a, b + c);
    EdgesOfConcat(b, c);
    OnlyFromConcat(EdgesOf(a), EdgesOf(b + c), src);
    OnlyFromConcat(EdgesOf(b), EdgesOf(c), src);
  }

  // ---------------------------------------------------------------------------------------

  /** The counter that numbers edge batches; one for all stores of a process. */
  class EdgeBatchNonce {
    var next: nat

    constructor ()
      ensures next == 1
    {
      next := 1;
    }

    /** The counter is 64 bits wide and wraps around. */
    method FetchAdd() returns (n: nat)
      requires next < U64_LIMIT
      modifies this
      ensures n == old(next) && next == (if n + 1 < U64_LIMIT then n + 1 else 0)
    {
      n := next;
      next := if n + 1 < U64_LIMIT then n + 1 else 0;
    }
  }

  class RocksDbGraphState {
    var vertexCf: seq<Entry>
    var edgeCf: seq<Entry>
    const nonce: EdgeBatchNonce

    ghost predicate Valid()
      reads this, nonce
    {
      VertexTable(vertexCf) && EdgeTable(edgeCf, U64_LIMIT) && nonce.next < U64_LIMIT
    }

    /** Every stored edge came in a batch numbered below the counter, which has not wrapped. */
    ghost predicate NoncesUnused()
      reads this, nonce
    {
      EdgeTable(edgeCf, nonce.next)
    }

    ghost function Vertices(): map<Bytes, Bytes>
      reads this
    {
      VerticesOf(vertexCf)
    }

    ghost function Edges(): seq<StoredEdge>
      reads this
    {
      EdgesOf(edgeCf)
    }

    /** Opening a directory, with the tables that are in it; a missing one is created empty. Batches
        of an earlier process may have used numbers that the counter, which starts afresh, has not
        given out yet: only an empty directory has all numbers unused. */
    constructor Open(vertices: seq<Entry>, edges: seq<Entry>, nonce: EdgeBatchNonce)
      requires VertexTable(vertices) && EdgeTable(edges, U64_LIMIT) && nonce.next < U64_LIMIT
      ensures Valid() && this.nonce == nonce
      ensures Vertices() == VerticesOf(vertices) && Edges() == EdgesOf(edges)
      ensures NoncesUnused() <==> forall i :: 0 <= i < |edges| ==> NonceOf(edges[i].0) < nonce.next
      ensures vertices == [] && edges == [] ==> NoncesUnused() && Vertices() == map[] && Edges() == []
    {
      vertexCf, edgeCf := vertices, edges;
      this.nonce := nonce;
      new;
      TableBelowExactlyWhen(edges, nonce.next);
    }

    /** Last write wins, within a batch and across batches. */
    method PutVertexBatch(vertices: seq<(Bytes, Bytes)>)
      requires Valid()
      requires forall i :: 0 <= i < |vertices| ==> Fits(vertices[i].0) && Fits(vertices[i].1)
      modifies this`vertexCf
      ensures Valid()
      ensures Vertices() == PutAll(old(Vertices()), vertices)
      ensures vertexCf == PutVertices(old(vertexCf), vertices, |vertices|)
    {
      var batch: seq<Entry> := [];
      for i := 0 to |vertices|
        invariant |batch| == i
        invariant forall j :: 0 <= j < i ==> batch[j] == (EncodeBytes(vertices[j].0), EncodeBytes(vertices[j].1))
      {
        batch := batch + [(EncodeBytes(vertices[i].0), EncodeBytes(vertices[i].1))];
      }
      ghost var before := vertexCf;
      for i := 0 to |batch|
        invariant vertexCf == PutVertices(before, vertices, i)
      {
        vertexCf := Put(vertexCf, batch[i].0, batch[i].1);
      }
      PutVerticesUpdates(before, vertices, |vertices|);
      assert vertices[..|vertices|] == vertices;
    }

    method GetVertex(id: Bytes) returns (value: Option<Bytes>)
      requires Valid() && Fits(id)
      ensures value == if id in Vertices() then Some(Vertices()[id]) else None
    {
      value := Lookup(vertexCf, EncodeBytes(id));
      LookupDecodes(vertexCf, id);
      if value.Some? {
        value := Some(DecodedBytes(value.value));
      }
    }

    /** Every vertex once, with its value. */
    method ListVertices() returns (list: seq<(Bytes, Bytes)>)
      requires Valid()
      ensures Lists(IdsOf(vertexCf), Vertices().Keys)
      ensures |list| == |IdsOf(vertexCf)|
      ensures forall i :: 0 <= i < |list| ==> list[i] == (IdsOf(vertexCf)[i], Vertices()[IdsOf(vertexCf)[i]])
    {
      hide VerticesOf, VertexTable, EdgeTable, Lists, DecodedBytes;
      list := [];
      for i := 0 to |vertexCf|
        invariant list == ListingOf(vertexCf)[..i]
      {
        list := list + [(DecodedBytes(vertexCf[i].0), DecodedBytes(vertexCf[i].1))];
      }
      ListingIsComplete(vertexCf);
    }

    /** The batch is stored entirely exactly when no two of its edges are filed under one key, which
        batches of at most 2^32 edges never are (ShortBatchesDoNotClash). */
    method PutEdgeBatch(edges: seq<StoredEdge>)
      requires Valid()
      requires forall i :: 0 <= i < |edges| ==> EdgeFits(edges[i])
      modifies this`edgeCf, nonce
      ensures Valid()
      ensures edgeCf == PutEdges(old(edgeCf), edges, old(nonce.next), |edges|)
      ensures nonce.next == if old(nonce.next) + 1 < U64_LIMIT then old(nonce.next) + 1 else 0
      ensures old(NoncesUnused()) && old(nonce.next) + 1 < U64_LIMIT ==> NoncesUnused()
      ensures old(NoncesUnused()) ==>
                (|edgeCf| == |old(edgeCf)| + |edges| <==> NoClash(edges, |edges|))
      ensures old(NoncesUnused()) && |edges| <= INDEX_LIMIT ==>
                multiset(Edges()) == multiset(old(Edges())) + multiset(edges)
    {
      hide EdgeTable, VertexTable, EdgesOf, NoClash, EncodeEdge, EncodeBytes, EncLE, Put;
      var n := nonce.FetchAdd();
      ghost var before, numbered := edgeCf, nonce.next;
      var batch: seq<Entry> := [];
      for i := 0 to |edges|
        invariant |batch| == i
        invariant forall j :: 0 <= j < i ==> batch[j] == (EdgeKey(edges[j].src, n, j), EncodeEdge(edges[j]))
        invariant edgeCf == before && nonce.next == numbered
      {
        var key := EncodeBytes(edges[i].src);
        key := key + (EncLE(n, NONCE_BYTES) + EncLE(i % INDEX_LIMIT, INDEX_BYTES));
        batch := batch + [(key, EncodeEdge(edges[i]))];
      }
      for i := 0 to |batch|
        invariant edgeCf == PutEdges(before, edges, n, i)
        invariant nonce.next == numbered
      {
        edgeCf := Put(edgeCf, batch[i].0, batch[i].1);
      }
      EdgeBatchOutcome(before, edges, n);
    }

    /** Exactly the stored edges with source `src`. The scan stops at the first key that does not
        start with the encoding of `src`; no later key does. */
    method GetOutEdges(src: Bytes) returns (out: seq<StoredEdge>)
      requires Valid() && Fits(src)
      ensures out == OnlyFrom(Edges(), src)
    {
      hide EdgeTable, VertexTable, EncodeBytes, DecodedEdge;
      var prefix := EncodeBytes(src);
      var iter := Seek(edgeCf, prefix);
      out := [];
      var i := 0;
      while i < |iter|
        invariant 0 <= i <= |iter|
        invariant forall j :: 0 <= j < i ==> StartsWith(iter[j].0, prefix)
        invariant out == EdgesOf(iter[..i])
      {
        if !StartsWith(iter[i].0, prefix) {
          break;
        }
        out := out + [DecodedEdge(iter[i].1)];
        i := i + 1;
      }
      ScanIsComplete(edgeCf, src, iter, i);
    }
  }

  function Flattened(batches: seq<seq<StoredEdge>>): seq<StoredEdge> {
    if batches == [] then [] else Flattened(batches[..|batches| - 1]) + batches[|batches| - 1]
  }

  /** Any sequence of edge batches written to a new store, then the edges of one source read back:
      exactly those stored with that source, with multiplicity. */
  method StoreThenRead(nonce: EdgeBatchNonce, batches: seq<seq<StoredEdge>>, src: Bytes) returns (out: seq<StoredEdge>)
    requires nonce.next + |batches| < U64_LIMIT && Fits(src)
    requires forall i :: 0 <= i < |batches| ==> |batches[i]| <= INDEX_LIMIT
    requires forall i, j :: 0 <= i < |batches| && 0 <= j < |batches[i]| ==> EdgeFits(batches[i][j])
    modifies nonce
    ensures forall e :: multiset(out)[e] == if e.src == src then multiset(Flattened(batches))[e] else 0
  {
    hide VertexTable, EdgeTable, PutEdges, OnlyFrom, EdgesOf, NoClash;
    var state := new RocksDbGraphState.Open([], [], nonce);
    for i := 0 to |batches|
      invariant state.Valid() && state.NoncesUnused() && state.nonce == nonce
      invariant nonce.next + |batches| - i < U64_LIMIT
      invariant multiset(state.Edges()) == multiset(Flattened(batches[..i]))
    {
      state.PutEdgeBatch(batches[i]);
      assert batches[..i + 1][..i] == batches[..i];
    }
    assert batches[..|batches|] == batches;
    out := state.GetOutEdges(src);
    forall e
      ensures multiset(out)[e] == if e.src == src then multiset(Flattened(batches))[e] else 0
    {
      OnlyFromCounts(state.Edges(), src, e);
    }
  }
}
