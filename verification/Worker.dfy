/** A worker process: its store, its algorithm instance, and the handling of each message. */
module Worker {
  import opened Options
  import opened Bags
  import opened Bsp
  import opened Batching
  import opened Shuffle
  import opened Codec
  import opened ByteTable
  import opened GraphStore
  import opened WorkerCore
  import opened Loading

  // ---------------------------------------------------------------------------------------
  // The store as the superstep sees it.

  ghost function SourcesIn(edges: seq<StoredEdge>): set<Bytes> {
    set e | e in edges :: e.src
  }

  ghost function AdjacencyOf(edges: seq<StoredEdge>): map<Bytes, seq<(Bytes, Bytes)>> {
    map src | src in SourcesIn(edges) :: Pairs(OnlyFrom(edges, src))
  }

  ghost function StoreOfTables(vertices: seq<Entry>, edges: seq<Entry>): Store<Bytes, Bytes, Bytes> {
    Store(IdsOf(vertices), VerticesOf(vertices), AdjacencyOf(EdgesOf(edges)))
  }

  lemma {:induction false} OutOfStore(edges: seq<StoredEdge>, store: Store<Bytes, Bytes, Bytes>, k: Bytes)
    requires store.adj == AdjacencyOf(edges)
    ensures Out(store, k) == Pairs(OnlyFrom(edges, k))
  {
    if k !in store.adj {
      OnlyFromUniform(edges, k, false);
    }
  }

  /** The tables hold their vertices and edges in the sense of the load protocol. */
  lemma {:induction false} TablesHold(vertices: seq<Entry>, edges: seq<Entry>)
    requires VertexTable(vertices)
    ensures StoreHolds(StoreOfTables(vertices, edges), Contents(VerticesOf(vertices), multiset(EdgesOf(edges))))
  {
    VerticesListed(vertices);
    hide VertexTable, VerticesOf, EdgesOf, AdjacencyOf;
    var store := StoreOfTables(vertices, edges);
    forall k
      ensures multiset(Out(store, k)) == OutEdges(multiset(EdgesOf(edges)), k)
    {
      OutOfStore(EdgesOf(edges), store, k);
      OnlyFromAsOutEdges(EdgesOf(edges), k);
    }
  }

  /** Overwriting a value moves no key. */
  lemma {:induction false} OverwriteKeepsKeys(table: seq<Entry>, key: Bytes, value: Bytes)
    requires Sorted(table) && HasKey(table, key)
    ensures |Put(table, key, value)| == |table|
    ensures forall i :: 0 <= i < |table| ==> Put(table, key, value)[i].0 == table[i].0
  {
    var i :| 0 <= i < |table| && table[i].0 == key;
    if Less(key, table[0].0) {
      LessIsStrict(key, table[i].0);
      assert i > 0;
      LessIsTransitive(key, table[0].0, table[i].0);
      assert false;
    } else if table[0].0 != key {
      SortedTail(table);
      assert table[1..][i - 1].0 == key;
      OverwriteKeepsKeys(table[1..], key, value);
    }
  }

  lemma SameIds(a: seq<Entry>, b: seq<Entry>)
    requires |a| == |b| && forall i :: 0 <= i < |a| ==> a[i].0 == b[i].0
    ensures IdsOf(a) == IdsOf(b)
  {
  }

  lemma {:induction false} UpdatesKeepOrder(table: seq<Entry>, updates: seq<(Bytes, Bytes)>, n: nat)
    requires VertexTable(table) && n <= |updates|
    requires forall i :: 0 <= i < |updates| ==> Fits(updates[i].1) && updates[i].0 in VerticesOf(table)
    requires forall i :: 0 <= i < |updates| ==> Fits(updates[i].0)
    ensures IdsOf(PutVertices(table, updates, n)) == IdsOf(table)
    ensures |PutVertices(table, updates, n)| == |table|
    ensures forall i :: 0 <= i < |table| ==> PutVertices(table, updates, n)[i].0 == table[i].0
  {
    hide Put, Sorted, VerticesOf, DecodedBytes;
    if n > 0 {
      UpdatesKeepOrder(table, updates, n - 1);
      var before := PutVertices(table, updates, n - 1);
      PutVerticesUpdates(table, updates, n - 1);
      assert VertexTable(before);
      HasItsKey(table, updates[n - 1].0);
      var i :| 0 <= i < |table| && table[i].0 == EncodeBytes(updates[n - 1].0);
      assert before[i].0 == table[i].0;
      assert HasKey(before, EncodeBytes(updates[n - 1].0));
      OverwriteKeepsKeys(before, EncodeBytes(updates[n - 1].0), EncodeBytes(updates[n - 1].1));
    }
    SameIds(PutVertices(table, updates, n), table);
  }

  lemma {:induction false} HasItsKey(table: seq<Entry>, id: Bytes)
    requires VertexTable(table) && id in VerticesOf(table)
    ensures exists i :: 0 <= i < |table| && table[i].0 == EncodeBytes(id)
  {
    HeldVertexFits(table, id);
    HoldsVertex(table, id, VerticesOf(table)[id]);
    var i :| 0 <= i < |table| && table[i] == (EncodeBytes(id), EncodeBytes(VerticesOf(table)[id]));
  }

  /** The algorithm returns only values that the store can hold. */
  ghost predicate SmallValues<S(!new)>(alg: Alg<Bytes, Bytes, Bytes, Bytes, S>) {
    forall s, k, v, es, ms, it {:trigger alg.compute(s, k, v, es, ms, it)} ::
      var r := alg.compute(s, k, v, es, ms, it);
      r.Some? && r.value.1.Some? ==> Fits(r.value.1.value)
  }

  lemma SmallUpdate<S(!new)>(
      alg: Alg<Bytes, Bytes, Bytes, Bytes, S>, s: S, k: Bytes, v: Bytes, es: seq<(Bytes, Bytes)>, ms: seq<Bytes>,
      it: nat)
    requires SmallValues(alg)
    ensures var r := alg.compute(s, k, v, es, ms, it);
            r.Some? && r.value.1.Some? ==> Fits(r.value.1.value)
  {
  }

  /** A vertex that fails makes the whole superstep fail. */
  lemma {:induction false} FailureIsFinal<K, V, E, M, S>(
      alg: Alg<K, V, E, M, S>, store: Store<K, V, E>, algo: S, inbox: Inbox<K, M>, it: nat, j: nat, n: nat)
    requires j <= n <= |store.order|
    requires ScanTo(alg, store, algo, inbox, it, j) == None
    ensures ScanTo(alg, store, algo, inbox, it, n) == None
    decreases n
  {
    if j < n {
      FailureIsFinal(alg, store, algo, inbox, it, j, n - 1);
    }
  }

  /** A superstep on its way through the listed vertices: the first `j` have been computed, with the
      results in `acc`, and the messages of the others are still in the inbox. */
  ghost predicate Scanning<S(!new)>(
      alg: Alg<Bytes, Bytes, Bytes, Bytes, S>, store: Store<Bytes, Bytes, Bytes>, algo0: S,
      inbox0: Inbox<Bytes, Bytes>, it: nat, j: nat, acc: Scan<Bytes, Bytes, Bytes, S>, inbox: Inbox<Bytes, Bytes>)
  {
    && j <= |store.order|
    && ScanTo(alg, store, algo0, inbox0, it, j) == Some(acc)
    && (forall i :: 0 <= i < |acc.updates| ==> acc.updates[i].0 in store.verts && Fits(acc.updates[i].1))
    && (forall i :: j <= i < |store.order| ==> Waiting(inbox, store.order[i]) == Waiting(inbox0, store.order[i]))
  }

  lemma {:induction false} ScanStarts<S(!new)>(
      alg: Alg<Bytes, Bytes, Bytes, Bytes, S>, store: Store<Bytes, Bytes, Bytes>, algo0: S,
      inbox0: Inbox<Bytes, Bytes>, it: nat)
    ensures Scanning(alg, store, algo0, inbox0, it, 0, Scan(algo0, [], []), inbox0)
  {
  }

  /** The next vertex: its failure fails the superstep, and otherwise its results are added. */
  lemma ScanMoves<S(!new)>(
      alg: Alg<Bytes, Bytes, Bytes, Bytes, S>, store: Store<Bytes, Bytes, Bytes>, algo0: S,
      inbox0: Inbox<Bytes, Bytes>, it: nat, j: nat, acc: Scan<Bytes, Bytes, Bytes, S>, inbox: Inbox<Bytes, Bytes>,
      k: Bytes, r: Option<(S, Option<Bytes>, seq<(Bytes, Bytes)>)>)
    requires SmallValues(alg) && ValidStore(store) && Scanning(alg, store, algo0, inbox0, it, j, acc, inbox)
    requires j < |store.order| && k == store.order[j] && k in store.verts
    requires r == alg.compute(acc.algo, k, store.verts[k], Out(store, k), Waiting(inbox, k), it)
    ensures r.None? ==> Process(alg, store, algo0, inbox0, it) == None
    ensures r.Some? ==>
              Scanning(alg, store, algo0, inbox0, it, j + 1,
                       Scan(r.value.0, acc.updates + (if r.value.1.Some? then [(k, r.value.1.value)] else []),
                            acc.outbox + r.value.2),
                       map x | x in inbox && x != k :: inbox[x])
  {
    ScanNext(alg, store, algo0, inbox0, it, j, acc);
    SmallUpdate(alg, acc.algo, k, store.verts[k], Out(store, k), Waiting(inbox, k), it);
    ListedOnce(store.order, store.verts.Keys);
    hide ScanTo, Lists, SmallValues, Out;
    var rest := map x | x in inbox && x != k :: inbox[x];
    forall i | j + 1 <= i < |store.order|
      ensures Waiting(rest, store.order[i]) == Waiting(inbox0, store.order[i])
    {
      assert Waiting(inbox, store.order[i]) == Waiting(inbox0, store.order[i]);
      assert store.order[i] != k;
    }
    assert Waiting(inbox, k) == Waiting(inbox0, k);
    hide Waiting;
    if r.None? {
      FailureIsFinal(alg, store, algo0, inbox0, it, j + 1, |store.order|);
    }
  }

  lemma ListedOnce<T>(order: seq<T>, keys: set<T>)
    requires Lists(order, keys)
    ensures forall i :: 0 <= i < |order| ==> order[i] in keys
    ensures forall i, j :: 0 <= i < j < |order| ==> order[i] != order[j]
  {
  }

  /** The scan is through: what remains is to write the updates. */
  lemma {:induction false} ScanIsOver<S(!new)>(
      alg: Alg<Bytes, Bytes, Bytes, Bytes, S>, vertices: seq<Entry>, edges: seq<Entry>, algo0: S,
      inbox0: Inbox<Bytes, Bytes>, it: nat, acc: Scan<Bytes, Bytes, Bytes, S>, inbox: Inbox<Bytes, Bytes>)
    requires var store := StoreOfTables(vertices, edges);
             VertexTable(vertices) && Scanning(alg, store, algo0, inbox0, it, |store.order|, acc, inbox)
    ensures forall i :: 0 <= i < |acc.updates| ==> Fits(acc.updates[i].0) && Fits(acc.updates[i].1)
    ensures Process(alg, StoreOfTables(vertices, edges), algo0, inbox0, it)
         == Some(Processed(StoreOfTables(PutVertices(vertices, acc.updates, |acc.updates|), edges), acc.algo,
                           acc.outbox))
    ensures acc.updates == [] ==> PutVertices(vertices, acc.updates, |acc.updates|) == vertices
  {
    hide ScanTo, VertexTable, PutAll, AdjacencyOf, VerticesOf;
    UpdatesWritten(vertices, edges, acc.updates);
  }

  /** Writing the updates of a superstep replaces the values and nothing else. */
  lemma {:induction false} UpdatesWritten(vertices: seq<Entry>, edges: seq<Entry>, updates: seq<(Bytes, Bytes)>)
    requires VertexTable(vertices)
    requires forall i :: 0 <= i < |updates| ==> updates[i].0 in VerticesOf(vertices) && Fits(updates[i].1)
    ensures forall i :: 0 <= i < |updates| ==> Fits(updates[i].0)
    ensures StoreOfTables(PutVertices(vertices, updates, |updates|), edges)
         == StoreOfTables(vertices, edges).(verts := PutAll(VerticesOf(vertices), updates))
  {
    hide VertexTable, VerticesOf, PutVertices;
    forall i | 0 <= i < |updates|
      ensures Fits(updates[i].0)
    {
      HeldVertexFits(vertices, updates[i].0);
    }
    UpdatesKeepOrder(vertices, updates, |updates|);
    PutVerticesUpdates(vertices, updates, |updates|);
    assert updates[..|updates|] == updates;
  }

  class Worker<S(!new)> {
    const alg: Alg<Bytes, Bytes, Bytes, Bytes, S>
    const state: RocksDbGraphState
    var algorithm: Option<S>
    var pendingIteration: Option<nat>
    var pendingInbox: Inbox<Bytes, Bytes>

    ghost predicate Valid()
      reads this, state, state.nonce
    {
      state.Valid()
    }

    ghost function StoreView(): Store<Bytes, Bytes, Bytes>
      reads this, state
    {
      StoreOfTables(state.vertexCf, state.edgeCf)
    }

    /** The worker as the protocol sees it, once an algorithm is set. */
    ghost function View(): WorkerState<Bytes, Bytes, Bytes, Bytes, S>
      requires algorithm.Some?
      reads this, state
    {
      WorkerState(StoreView(), algorithm.value, pendingIteration, pendingInbox)
    }

    constructor (alg: Alg<Bytes, Bytes, Bytes, Bytes, S>, state: RocksDbGraphState)
      requires state.Valid()
      ensures Valid() && this.alg == alg && this.state == state
      ensures algorithm == None && pendingIteration == None && pendingInbox == map[]
    {
      this.alg := alg;
      this.state := state;
      algorithm, pendingIteration, pendingInbox := None, None, map[];
    }

    method SetAlgorithm()
      modifies this
      ensures algorithm == Some(alg.init)
      ensures pendingIteration == old(pendingIteration) && pendingInbox == old(pendingInbox)
    {
      algorithm := Some(alg.init);
    }

    /** What the store holds, up to order. */
    ghost function Holding(): Contents<Bytes, Bytes, Bytes>
      reads this, state
    {
      Contents(state.Vertices(), multiset(state.Edges()))
    }

    /** A whole share of a graph, written even where it is empty. The vertices are always taken; under
        unused batch numbers, the edges are taken whole exactly when no two are filed under one key. */
    method LoadGraph(vertices: seq<(Bytes, Bytes)>, edges: seq<StoredEdge>)
      requires Valid()
      requires forall i :: 0 <= i < |vertices| ==> Fits(vertices[i].0) && Fits(vertices[i].1)
      requires forall i :: 0 <= i < |edges| ==> EdgeFits(edges[i])
      modifies state, state.nonce
      ensures Valid() && state.Vertices() == PutAll(old(state.Vertices()), vertices)
      ensures old(state.NoncesUnused()) ==>
                (|state.Edges()| == |old(state.Edges())| + |edges| <==> NoClash(edges, |edges|))
      ensures old(state.NoncesUnused()) && old(state.nonce.next) + 1 < U64_LIMIT && |edges| <= INDEX_LIMIT ==>
                state.NoncesUnused() && Holding() == Loaded(old(Holding()), Loading.LoadGraph(vertices, edges))
      ensures old(state.nonce.next) + 1 < U64_LIMIT ==> state.nonce.next == old(state.nonce.next) + 1
    {
      state.PutVertexBatch(vertices);
      state.PutEdgeBatch(edges);
    }

    /** One batch of a load: what it holds is written, and the worker says whether it was the last. */
    method LoadGraphBatch(vertices: seq<(Bytes, Bytes)>, edges: seq<StoredEdge>, last: bool) returns (loaded: bool)
      requires Valid()
      requires forall i :: 0 <= i < |vertices| ==> Fits(vertices[i].0) && Fits(vertices[i].1)
      requires forall i :: 0 <= i < |edges| ==> EdgeFits(edges[i])
      modifies state, state.nonce
      ensures Valid() && loaded == last && state.Vertices() == PutAll(old(state.Vertices()), vertices)
      ensures old(state.NoncesUnused()) ==>
                (|state.Edges()| == |old(state.Edges())| + |edges| <==> NoClash(edges, |edges|))
      ensures old(state.NoncesUnused()) && old(state.nonce.next) + 1 < U64_LIMIT && |edges| <= INDEX_LIMIT ==>
                && state.NoncesUnused()
                && Holding() == Loaded(old(Holding()), Loading.LoadGraphBatch(vertices, edges, last))
      ensures old(state.nonce.next) + 1 < U64_LIMIT ==>
                state.nonce.next == old(state.nonce.next) + (if edges == [] then 0 else 1)
    {
      if vertices != [] {
        state.PutVertexBatch(vertices);
      }
      if edges != [] {
        state.PutEdgeBatch(edges);
      }
      loaded := last;
    }

    /** All listed vertices are computed on the old values; the new ones are written at the end, in
        one batch. */
    method ProcessSuperstep(iteration: nat, inbox0: Inbox<Bytes, Bytes>)
      returns (chunks: Option<seq<Chunk<(Bytes, Bytes)>>>)
      requires Valid() && SmallValues(alg) && algorithm.Some?
      modifies this`algorithm, state`vertexCf
      ensures Valid()
      ensures match Process(alg, old(StoreView()), old(algorithm.value), inbox0, iteration)
              case None => chunks == None
              case Some(r) =>
                chunks == Some(Chunks(r.outbox)) && StoreView() == r.store && algorithm == Some(r.algo)
    {
      hide VerticesOf, VertexTable, EdgeTable, Lists, DecodedBytes, AdjacencyOf, ScanTo, Chunks, EdgesOf, OnlyFrom,
        Pairs, PutVertices, SmallValues, Scanning, Process;
      ghost var store, algo0 := StoreView(), algorithm.value;
      var algo, inbox := algorithm.value, inbox0;
      var vertices := state.ListVertices();
      var updates: seq<(Bytes, Bytes)> := [];
      var outbox: seq<(Bytes, Bytes)> := [];
      ListedOnce(store.order, store.verts.Keys);
      ScanStarts(alg, store, algo0, inbox0, iteration);
      for j := 0 to |vertices|
        invariant Scanning(alg, store, algo0, inbox0, iteration, j, Scan(algo, updates, outbox), inbox)
        invariant algorithm == Some(algo0) && state.vertexCf == old(state.vertexCf) && Valid()
      {
        var (id, value) := vertices[j];
        assert id == store.order[j] && id in store.verts && store.verts[id] == value;
        var msgs := Waiting(inbox, id);
        HeldVertexFits(state.vertexCf, id);
        var stored := state.GetOutEdges(id);
        var outEdges := Pairs(stored);
        OutOfStore(state.Edges(), store, id);
        var r := alg.compute(algo, id, value, outEdges, msgs, iteration);
        ScanMoves(alg, store, algo0, inbox0, iteration, j, Scan(algo, updates, outbox), inbox, id, r);
        inbox := map k | k in inbox && k != id :: inbox[k];
        if r.None? {
          return None;
        }
        algo := r.value.0;
        updates := updates + (if r.value.1.Some? then [(id, r.value.1.value)] else []);
        outbox := outbox + r.value.2;
      }
      ScanIsOver(alg, state.vertexCf, state.edgeCf, algo0, inbox0, iteration, Scan(algo, updates, outbox), inbox);
      if updates != [] {
        state.PutVertexBatch(updates);
      }
      algorithm := Some(algo);
      var split := Split(outbox);
      chunks := Some(split);
    }

    /** Entries of one batch are appended to whatever is already waiting. */
    method Absorb(entries: seq<(Bytes, seq<Bytes>)>)
      modifies this`pendingInbox
      ensures pendingInbox == Merge(old(pendingInbox), entries)
    {
      for i := 0 to |entries|
        invariant pendingInbox == Merge(old(pendingInbox), entries[..i])
      {
        var (k, msgs) := entries[i];
        pendingInbox := pendingInbox[k := Waiting(pendingInbox, k) + msgs];
        assert entries[..i + 1][..i] == entries[..i];
      }
      assert entries[..|entries|] == entries;
    }

    /** The reaction to a batch of a superstep is the protocol's, message for message; None when the
        worker dies of an error. */
    method HandleSuperstepBatch(iteration: nat, entries: seq<(Bytes, seq<Bytes>)>, last: bool)
      returns (replies: Option<seq<ToDriver<Bytes, Bytes>>>)
      requires Valid() && SmallValues(alg)
      modifies this`algorithm, this`pendingIteration, this`pendingInbox, state`vertexCf
      ensures Valid()
      ensures old(algorithm).None? ==> (replies.None? <==> last)
      ensures old(algorithm).None? && !last ==>
                && replies == Some([]) && algorithm == None && StoreView() == old(StoreView())
                && pendingIteration == Some(iteration)
                && pendingInbox == Merge(if old(pendingIteration) == Some(iteration) then old(pendingInbox) else map[],
                                         entries)
      ensures old(algorithm).Some? ==>
                match Handle(alg, old(View()), SuperstepBatch(iteration, Chunk(entries, last)))
                case None => replies == None
                case Some(r) => replies == Some(r.1) && algorithm.Some? && View() == r.0
    {
      hide Process, Merge, Chunks, StoreOfTables;
      if pendingIteration != Some(iteration) {
        pendingIteration := Some(iteration);
        pendingInbox := map[];
      }
      Absorb(entries);
      if !last {
        return Some([]);
      }
      var inbox := pendingInbox;
      pendingInbox := map[];
      if algorithm.None? {
        return None;
      }
      var chunks := ProcessSuperstep(iteration, inbox);
      if chunks.None? {
        return None;
      }
      pendingIteration := None;
      var sent: seq<ToDriver<Bytes, Bytes>> := [];
      for i := 0 to |chunks.value|
        invariant |sent| == i
        invariant forall j :: 0 <= j < i ==> sent[j] == SuperstepResultBatch(iteration, chunks.value[j])
      {
        sent := sent + [SuperstepResultBatch(iteration, chunks.value[i])];
      }
      replies := Some(sent);
      assert sent == Replies(iteration, chunks.value);
    }
  }
}
