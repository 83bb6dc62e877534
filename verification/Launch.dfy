/** From the messages of a load to workers that are ready for a job.

    Workers receive a load message by message, in the order in which the driver sends them. Each
    keeps its part in its own byte tables; the counters that number their edge batches may be one
    per process or shared by workers of one process.
 */
module Launch {
  import opened Options
  import opened Shuffle
  import opened Codec
  import opened GraphStore
  import opened WorkerCore
  import opened Rounds
  import opened Loading
  import opened Worker

  type Message = Sent<Bytes, Bytes, Bytes>

  /** The message is for one of `n` workers, and its store can take it whole. */
  ghost predicate Deliverable(s: Message, n: nat) {
    && s.worker < n
    && (forall v :: v in s.load.vertices ==> Fits(v.0) && Fits(v.1))
    && (forall e :: e in s.load.edges ==> EdgeFits(e))
    && |s.load.edges| <= INDEX_LIMIT
  }

  /** Worker `i` holds its part of the messages so far and can number `left` more batches. */
  ghost predicate HasTaken<S(!new)>(w: Worker<S>, log: seq<Message>, i: nat, left: nat)
    reads w, w.state, w.state.nonce
  {
    && w.Valid() && w.state.NoncesUnused() && w.state.nonce.next + left < U64_LIMIT
    && w.Holding() == Held(log, i)
  }

  lemma LaterNonces(table: seq<ByteTable.Entry>, a: nat, b: nat)
    requires EdgeTable(table, a) && a <= b
    ensures EdgeTable(table, b)
  {
  }

  /** A message for another worker, which may have numbered a batch. */
  lemma {:induction false} OthersKeep<S(!new)>(
      w: Worker<S>, log: seq<Message>, s: Message, i: nat, before: nat, left: nat)
    requires VertexTable(w.state.vertexCf) && EdgeTable(w.state.edgeCf, before)
    requires before <= w.state.nonce.next <= before + 1 && before + left + 1 < U64_LIMIT
    requires w.Holding() == Held(log, i) && s.worker != i
    ensures HasTaken(w, log + [s], i, left)
  {
    LaterNonces(w.state.edgeCf, before, w.state.nonce.next);
    LaterNonces(w.state.edgeCf, before, U64_LIMIT);
    HeldConcat(log, s, i);
    hide EdgeTable, VertexTable, Held;
  }

  /** One message, taken by the worker it is for. */
  method Take<S(!new)>(w: Worker<S>, s: Message, ghost log: seq<Message>, ghost n: nat, ghost left: nat)
    requires HasTaken(w, log, s.worker, left + 1) && Deliverable(s, n)
    modifies w.state, w.state.nonce
    ensures HasTaken(w, log + [s], s.worker, left)
    ensures old(w.state.nonce.next) <= w.state.nonce.next <= old(w.state.nonce.next) + 1
  {
    hide EdgeTable, VertexTable, Held, Loaded;
    HeldConcat(log, s, s.worker);
    match s.load {
      case LoadGraph(vertices, edges) =>
        w.LoadGraph(vertices, edges);
      case LoadGraphBatch(vertices, edges, last) =>
        var _ := w.LoadGraphBatch(vertices, edges, last);
    }
  }

  ghost predicate Separate<S(!new)>(workers: seq<Worker<S>>) {
    forall i, j :: 0 <= i < j < |workers| ==> workers[i] != workers[j] && workers[i].state != workers[j].state
  }

  ghost function States<S(!new)>(workers: seq<Worker<S>>): (r: set<RocksDbGraphState>)
    ensures forall i :: 0 <= i < |workers| ==> workers[i].state in r
  {
    set w | w in workers :: w.state
  }

  ghost function Counters<S(!new)>(workers: seq<Worker<S>>): (r: set<EdgeBatchNonce>)
    ensures forall i :: 0 <= i < |workers| ==> workers[i].state.nonce in r
  {
    set w | w in workers :: w.state.nonce
  }

  /** One message, as it concerns all workers. */
  method TakeOne<S(!new)>(workers: seq<Worker<S>>, s: Message, ghost log: seq<Message>, ghost left: nat)
    requires Separate(workers) && Deliverable(s, |workers|)
    requires forall i: nat :: i < |workers| ==> HasTaken(workers[i], log, i, left + 1)
    modifies States(workers), Counters(workers)
    ensures forall i: nat :: i < |workers| ==> HasTaken(workers[i], log + [s], i, left)
  {
    var w := workers[s.worker];
    ghost var counts := seq(|workers|, i requires 0 <= i < |workers| => old(workers[i].state.nonce.next));
    hide VertexTable, EdgeTable, Held;
    Take(w, s, log, |workers|, left);
    forall i: nat | i < |workers| && i != s.worker
      ensures HasTaken(workers[i], log + [s], i, left)
    {
      OthersKeep(workers[i], log, s, i, counts[i], left);
    }
  }

  /** All messages of a load, in the order in which they were sent. */
  method TakeAll<S(!new)>(workers: seq<Worker<S>>, log: seq<Message>)
    requires Separate(workers)
    requires forall i: nat :: i < |workers| ==> HasTaken(workers[i], [], i, |log|)
    requires forall m :: 0 <= m < |log| ==> Deliverable(log[m], |workers|)
    modifies States(workers), Counters(workers)
    ensures forall i: nat :: i < |workers| ==> HasTaken(workers[i], log, i, 0)
  {
    hide HasTaken, Deliverable;
    for m := 0 to |log|
      invariant forall i: nat :: i < |workers| ==> HasTaken(workers[i], log[..m], i, |log| - m)
    {
      assert log[..m + 1] == log[..m] + [log[m]];
      TakeOne(workers, log[m], log[..m], |log| - (m + 1));
    }
    assert log[..|log|] == log;
  }

  // ---------------------------------------------------------------------------------------
  // Loaded workers form a freshly loaded cluster.

  ghost function SitesOf<S(!new)>(workers: seq<Worker<S>>, init: S, n: nat): (sites: seq<Site<Bytes, Bytes, Bytes, S>>)
    requires n <= |workers|
    reads set w | w in workers :: w, set w | w in workers :: w.state
    ensures |sites| == n && forall i :: 0 <= i < n ==> sites[i] == Site(workers[i].StoreView(), init)
  {
    if n == 0 then
      []
    else
      assert workers[n - 1] in workers;
      SitesOf(workers, init, n - 1) + [Site(workers[n - 1].StoreView(), init)]
  }

  /** The cluster of these workers, with new instances of the vertex function. */
  ghost function ClusterOf<S(!new)>(workers: seq<Worker<S>>, init: S): (c: Cluster<Bytes, Bytes, Bytes, Bytes, S>)
    reads set w | w in workers :: w, set w | w in workers :: w.state
    ensures |c.sites| == |c.inboxes| == |workers|
  {
    Cluster(SitesOf(workers, init, |workers|), EmptyInboxes(|workers|))
  }

  /** What every worker needs of a load: ids, values and edges that its encoding can take. */
  ghost predicate Encodable(vertices: seq<(Bytes, Bytes)>, edges: seq<StoredEdge>) {
    && (forall v :: v in vertices ==> Fits(v.0) && Fits(v.1))
    && (forall e :: e in edges ==> EdgeFits(e))
  }

  /** Workers that have just opened empty stores, with `left` batch numbers to go. */
  ghost predicate Opened<S(!new)>(w: Worker<S>, left: nat)
    reads w, w.state, w.state.nonce
  {
    && w.Valid() && w.state.NoncesUnused() && w.state.nonce.next + left < U64_LIMIT
    && w.state.Vertices() == map[] && w.state.Edges() == []
  }

  lemma OpenedHasTaken<S(!new)>(w: Worker<S>, i: nat, left: nat, n: nat)
    requires Opened(w, left) && n <= left
    ensures HasTaken(w, [], i, n)
  {
    hide EdgeTable, VertexTable;
  }

  lemma {:induction false} TakenHolds<S(!new)>(
      w: Worker<S>, log: seq<Message>, i: nat, share: Contents<Bytes, Bytes, Bytes>)
    requires HasTaken(w, log, i, 0) && Held(log, i) == share
    ensures StoreHolds(w.StoreView(), share)
  {
    TablesHold(w.state.vertexCf, w.state.edgeCf);
    hide EdgeTable, VertexTable, StoreHolds, VerticesOf, EdgesOf, Held;
  }

  /** Once every worker has taken a load that gives it its share, the workers are a freshly loaded
      cluster. */
  lemma {:induction false} TakenIsFreshlyLoaded<S(!new)>(
      hash: Bytes -> nat, vertices: seq<(Bytes, Bytes)>, edges: seq<StoredEdge>, workers: seq<Worker<S>>, init: S,
      log: seq<Message>)
    requires |workers| >= 1
    requires forall i: nat :: i < |workers| ==> HasTaken(workers[i], log, i, 0)
    requires forall i: nat :: i < |workers| ==> Held(log, i) == Share(hash, |workers|, vertices, edges, i)
    ensures FreshlyLoaded(hash, vertices, edges, ClusterOf(workers, init))
  {
    hide HasTaken, Held, Share, StoreHolds;
    var c := ClusterOf(workers, init);
    forall i: nat | i < |workers|
      ensures StoreHolds(c.sites[i].store, Share(hash, |workers|, vertices, edges, i)) && c.inboxes[i] == map[]
    {
      TakenHolds(workers[i], log, i, Share(hash, |workers|, vertices, edges, i));
    }
  }

  lemma {:induction false} AtOnceDeliverable(
      hash: Bytes -> nat, n: nat, vertices: seq<(Bytes, Bytes)>, edges: seq<StoredEdge>, p: nat)
    requires p < n && Encodable(vertices, edges) && |EdgesFor(hash, n, edges, p)| <= INDEX_LIMIT
    ensures Deliverable(Sent(p, LoadGraph(VerticesFor(hash, n, vertices, p), EdgesFor(hash, n, edges, p))), n)
  {
    VerticesForAmong(hash, n, vertices, p);
    EdgesForAmong(hash, n, edges, p);
  }

  /** A load at once, end to end: as long as no worker owns more edges than a batch can number, the
      workers are a freshly loaded cluster afterwards. */
  method LaunchAtOnce<S(!new)>(
      hash: Bytes -> nat, vertices: seq<(Bytes, Bytes)>, edges: seq<StoredEdge>, workers: seq<Worker<S>>,
      ghost init: S)
    requires |workers| >= 1 && Separate(workers) && Encodable(vertices, edges)
    requires forall w :: w in workers ==> Opened(w, |workers|)
    requires forall p: nat :: p < |workers| ==> |EdgesFor(hash, |workers|, edges, p)| <= INDEX_LIMIT
    modifies States(workers), Counters(workers)
    ensures forall w :: w in workers ==> w.Valid()
    ensures forall i: nat :: i < |workers| ==>
              IsPart(hash, |workers|, vertices, edges, false, i, workers[i].Holding())
    ensures FreshlyLoaded(hash, vertices, edges, ClusterOf(workers, init))
  {
    hide Share, FreshlyLoaded, EdgesFor, VerticesFor, Encodable, Opened, HasTaken, Deliverable, SendsOwn, IsPart;
    var n := |workers|;
    var log := LoadAtOnce(hash, n, vertices, edges);
    forall i: nat | i < n
      ensures HasTaken(workers[i], [], i, n) && Deliverable(log[i], n)
    {
      OpenedHasTaken(workers[i], i, n, n);
      AtOnceDeliverable(hash, n, vertices, edges, i);
    }
    TakeAll(workers, log);
    TakenIsFreshlyLoaded(hash, vertices, edges, workers, init, log);
    TakenValid(workers, log);
    TakenIsHeld(workers, log);
    ExpandedDirected(edges);
    HeldAreParts(hash, n, vertices, edges, false, log);
  }

  lemma TakenIsHeld<S(!new)>(workers: seq<Worker<S>>, log: seq<Message>)
    requires forall i: nat :: i < |workers| ==> HasTaken(workers[i], log, i, 0)
    ensures forall i: nat :: i < |workers| ==> workers[i].Holding() == Held(log, i)
  {
    hide VertexTable, EdgeTable, Held;
  }

  lemma TakenValid<S(!new)>(workers: seq<Worker<S>>, log: seq<Message>)
    requires forall i: nat :: i < |workers| ==> HasTaken(workers[i], log, i, 0)
    ensures forall w :: w in workers ==> w.Valid()
  {
    hide VertexTable, EdgeTable, Held;
    forall w | w in workers
      ensures w.Valid()
    {
      var i: nat :| i < |workers| && workers[i] == w;
      assert HasTaken(workers[i], log, i, 0);
    }
  }

  lemma StreamDeliverable(
      log: seq<Message>, n: nat, vertexBatch: nat, edgeBatch: nat, vertices: seq<(Bytes, Bytes)>,
      edges: seq<StoredEdge>, m: nat)
    requires m < |log| && n <= |log| && SentOnlyFrom(log, vertices, edges) && Encodable(vertices, edges)
    requires DataBatches(log[..|log| - n], n, vertexBatch, edgeBatch) && edgeBatch <= INDEX_LIMIT
    requires forall p: nat :: p < n ==> log[|log| - n + p] == Sent(p, LoadGraphBatch([], [], true))
    ensures Deliverable(log[m], n)
  {
    if m < |log| - n {
      assert log[..|log| - n][m] == log[m];
    } else {
      var p: nat := m - (|log| - n);
      assert log[|log| - n + p] == Sent(p, LoadGraphBatch([], [], true));
    }
  }

  lemma {:induction false} ExpandedEncodable(edges: seq<StoredEdge>, undirected: bool)
    requires forall e :: e in edges ==> EdgeFits(e)
    ensures forall e :: e in Expanded(edges, undirected) ==> EdgeFits(e)
    ensures |Expanded(edges, undirected)| <= 2 * |edges|
  {
    if edges != [] {
      ExpandedEncodable(edges[..|edges| - 1], undirected);
      assert EdgeFits(edges[|edges| - 1]);
    }
  }

  /** A streaming load, end to end, for any batch sizes that a batch can number. */
  method LaunchStreaming<S(!new)>(
      hash: Bytes -> nat, vertices: seq<(Bytes, Bytes)>, edges: seq<StoredEdge>, workers: seq<Worker<S>>,
      vertexBatch: nat, edgeBatch: nat, undirected: bool, ghost init: S)
    requires |workers| >= 1 && Separate(workers) && Encodable(vertices, edges) && edgeBatch <= INDEX_LIMIT
    requires forall w :: w in workers ==> Opened(w, |vertices| + 2 * |edges| + 3 * |workers|)
    modifies States(workers), Counters(workers)
    ensures forall w :: w in workers ==> w.Valid()
    ensures forall i: nat :: i < |workers| ==>
              IsPart(hash, |workers|, vertices, edges, undirected, i, workers[i].Holding())
    ensures FreshlyLoaded(hash, vertices, Expanded(edges, undirected), ClusterOf(workers, init))
  {
    hide Share, FreshlyLoaded, Opened, HasTaken, Deliverable, DataBatches, SentOnlyFrom, Expanded, IsPart;
    var n := |workers|;
    var log := LoadStreaming(hash, n, vertices, edges, vertexBatch, edgeBatch, undirected);
    ExpandedEncodable(edges, undirected);
    hide Encodable;
    forall i: nat | i < n
      ensures HasTaken(workers[i], [], i, |log|)
    {
      OpenedHasTaken(workers[i], i, |vertices| + 2 * |edges| + 3 * |workers|, |log|);
    }
    forall m: nat | m < |log|
      ensures Deliverable(log[m], n)
    {
      StreamDeliverable(log, n, vertexBatch, edgeBatch, vertices, Expanded(edges, undirected), m);
    }
    TakeAll(workers, log);
    TakenIsFreshlyLoaded(hash, vertices, Expanded(edges, undirected), workers, init, log);
    TakenValid(workers, log);
    TakenIsHeld(workers, log);
  }

  /** The worker is as the driver's protocol takes it to be: its site of the cluster, with nothing
      received yet. */
  ghost predicate StandsBy<S(!new)>(w: Worker<S>, site: Site<Bytes, Bytes, Bytes, S>)
    reads w, w.state, w.state.nonce
  {
    w.Valid() && w.algorithm.Some? && w.View() == WorkerState(site.store, site.algo, None, map[])
  }

  /** Every worker is told the algorithm, and then stands by. */
  method SetAlgorithms<S(!new)>(workers: seq<Worker<S>>, ghost init: S)
    requires Separate(workers)
    requires forall w :: w in workers ==>
               w.Valid() && w.alg.init == init && w.pendingIteration == None && w.pendingInbox == map[]
    modifies set w | w in workers :: w
    ensures ClusterOf(workers, init) == old(ClusterOf(workers, init))
    ensures forall i :: 0 <= i < |workers| ==> StandsBy(workers[i], ClusterOf(workers, init).sites[i])
  {
    hide VertexTable, EdgeTable, StoreOfTables;
    for i := 0 to |workers|
      invariant forall j :: 0 <= j < |workers| ==>
                  && workers[j].Valid() && workers[j].pendingIteration == None && workers[j].pendingInbox == map[]
                  && workers[j].StoreView() == old(workers[j].StoreView())
      invariant forall j :: 0 <= j < i ==> workers[j].algorithm == Some(init)
    {
      assert workers[i] in workers;
      workers[i].SetAlgorithm();
    }
    assert ClusterOf(workers, init).sites == old(ClusterOf(workers, init)).sites;
  }

  /** The worker waits for its first message. */
  ghost predicate Connected<S(!new)>(w: Worker<S>, init: S, left: nat)
    reads w, w.state, w.state.nonce
  {
    Opened(w, left) && w.alg.init == init && w.pendingIteration == None && w.pendingInbox == map[]
  }

  /** A job up to the point where supersteps can begin: the load, and the algorithm. */
  method LaunchJob<S(!new)>(
      hash: Bytes -> nat, vertices: seq<(Bytes, Bytes)>, edges: seq<StoredEdge>, workers: seq<Worker<S>>,
      ghost init: S)
    requires |workers| >= 1 && Separate(workers) && Encodable(vertices, edges)
    requires forall w :: w in workers ==> Connected(w, init, |workers|)
    requires forall p: nat :: p < |workers| ==> |EdgesFor(hash, |workers|, edges, p)| <= INDEX_LIMIT
    modifies States(workers), Counters(workers), set w | w in workers :: w
    ensures FreshlyLoaded(hash, vertices, edges, ClusterOf(workers, init))
    ensures forall i :: 0 <= i < |workers| ==> StandsBy(workers[i], ClusterOf(workers, init).sites[i])
  {
    hide Encodable, Separate, Opened, FreshlyLoaded, StandsBy, States, Counters, EdgesFor, SitesOf;
    LaunchAtOnce(hash, vertices, edges, workers, init);
    SetAlgorithms(workers, init);
  }

  /** The same with a streaming load. */
  method LaunchStreamedJob<S(!new)>(
      hash: Bytes -> nat, vertices: seq<(Bytes, Bytes)>, edges: seq<StoredEdge>, workers: seq<Worker<S>>,
      vertexBatch: nat, edgeBatch: nat, undirected: bool, ghost init: S)
    requires |workers| >= 1 && Separate(workers) && Encodable(vertices, edges) && edgeBatch <= INDEX_LIMIT
    requires forall w :: w in workers ==> Connected(w, init, |vertices| + 2 * |edges| + 3 * |workers|)
    modifies States(workers), Counters(workers), set w | w in workers :: w
    ensures FreshlyLoaded(hash, vertices, Expanded(edges, undirected), ClusterOf(workers, init))
    ensures forall i :: 0 <= i < |workers| ==> StandsBy(workers[i], ClusterOf(workers, init).sites[i])
  {
    hide Encodable, Separate, Opened, FreshlyLoaded, StandsBy, States, Counters, Expanded, SitesOf, IsPart;
    LaunchStreaming(hash, vertices, edges, workers, vertexBatch, edgeBatch, undirected, init);
    SetAlgorithms(workers, init);
  }
}
