/** Loading a graph into the workers: at once, or in a stream of bounded batches.

    What a load does is told by the messages it sends, in order, and by what a worker that starts
    empty holds once it has received its share of them.
 */
module Loading {
  import opened Bsp
  import opened Selection
  import opened Shuffle
  import opened WorkerCore
  import opened Rounds
  import opened Refinement
  import opened LocalEngine

  datatype Load<K, V, E> =
    | LoadGraph(vertices: seq<(K, V)>, edges: seq<Edge<K, E>>)
    | LoadGraphBatch(vertices: seq<(K, V)>, edges: seq<Edge<K, E>>, last: bool)

  /** A message and the worker it goes to. */
  datatype Sent<K, V, E> = Sent(worker: nat, load: Load<K, V, E>)

  /** What a worker's store holds, up to order. */
  datatype Contents<K(==), V, E(==)> = Contents(verts: map<K, V>, edges: multiset<Edge<K, E>>)

  ghost function EmptyContents<K, V, E>(): Contents<K, V, E> {
    Contents(map[], multiset{})
  }

  ghost function Loaded<K, V, E>(c: Contents<K, V, E>, load: Load<K, V, E>): Contents<K, V, E> {
    Contents(PutAll(c.verts, load.vertices), c.edges + multiset(load.edges))
  }

  /** What worker `p` holds after the messages of `log`. */
  ghost function Held<K, V, E>(log: seq<Sent<K, V, E>>, p: nat): Contents<K, V, E> {
    if log == [] then
      EmptyContents()
    else
      var before := Held(log[..|log| - 1], p);
      var sent := log[|log| - 1];
      if sent.worker == p then Loaded(before, sent.load) else before
  }

  function VerticesFor<K, V>(hash: K -> nat, n: nat, vertices: seq<(K, V)>, p: nat): seq<(K, V)>
    requires n > 0
  {
    if vertices == [] then
      []
    else
      var v := vertices[|vertices| - 1];
      VerticesFor(hash, n, vertices[..|vertices| - 1], p) + (if PartitionOf(hash, v.0, n) == p then [v] else [])
  }

  function EdgesFor<K, E>(hash: K -> nat, n: nat, edges: seq<Edge<K, E>>, p: nat): seq<Edge<K, E>>
    requires n > 0
  {
    if edges == [] then
      []
    else
      var e := edges[|edges| - 1];
      EdgesFor(hash, n, edges[..|edges| - 1], p) + (if PartitionOf(hash, e.src, n) == p then [e] else [])
  }

  /** What worker `p` is meant to hold: its own vertices, the last value given for each, and the
      edges whose source it owns. */
  ghost function Share<K, V, E>(
      hash: K -> nat, n: nat, vertices: seq<(K, V)>, edges: seq<Edge<K, E>>, p: nat): Contents<K, V, E>
    requires n > 0
  {
    Contents(PutAll(map[], VerticesFor(hash, n, vertices, p)), multiset(EdgesFor(hash, n, edges, p)))
  }

  /** With `undirected`, every edge is followed by its reverse. */
  function Expanded<K, E>(edges: seq<Edge<K, E>>, undirected: bool): seq<Edge<K, E>> {
    if edges == [] then
      []
    else
      var e := edges[|edges| - 1];
      Expanded(edges[..|edges| - 1], undirected) + [e] + (if undirected then [Edge(e.dst, e.src, e.value)] else [])
  }

  lemma {:induction false} ExpandedDirected<K, E>(edges: seq<Edge<K, E>>)
    ensures Expanded(edges, false) == edges
  {
    if edges != [] {
      ExpandedDirected(edges[..|edges| - 1]);
    }
  }

  /** Directed, an edge is loaded as often as it is given; undirected, as often as it and its reverse are. */
  lemma {:induction false} ExpandedCounts<K, E>(edges: seq<Edge<K, E>>, undirected: bool, e: Edge<K, E>)
    ensures multiset(Expanded(edges, undirected))[e]
         == multiset(edges)[e] + (if undirected then multiset(edges)[Edge(e.dst, e.src, e.value)] else 0)
  {
    if edges != [] {
      var front, last := edges[..|edges| - 1], edges[|edges| - 1];
      ExpandedCounts(front, undirected, e);
      assert edges == front + [last];
      assert multiset(edges) == multiset(front) + multiset{last};
      var back := if undirected then [Edge(last.dst, last.src, last.value)] else [];
      assert Expanded(edges, undirected) == Expanded(front, undirected) + [last] + back;
      assert multiset(Expanded(edges, undirected))
          == multiset(Expanded(front, undirected)) + multiset{last} + multiset(back);
    }
  }

  /** What worker `p` of `n` is to hold of a graph: the vertices whose hash is `p` modulo `n`, each with
      the value that is given for it last, and the edges whose source is one of these, each as often as
      it is given and, undirected, as often again as its reverse is given. */
  ghost predicate IsPart<K(!new), V, E(!new)>(
      hash: K -> nat, n: nat, vertices: seq<(K, V)>, edges: seq<Edge<K, E>>, undirected: bool, p: nat,
      c: Contents<K, V, E>)
    requires n > 0
  {
    && (forall k :: k in c.verts <==> hash(k) % n == p && exists i :: 0 <= i < |vertices| && vertices[i].0 == k)
    && (forall i :: 0 <= i < |vertices| && hash(vertices[i].0) % n == p
                    && (forall j :: i < j < |vertices| ==> vertices[j].0 != vertices[i].0) ==>
          c.verts[vertices[i].0] == vertices[i].1)
    && (forall e :: c.edges[e] ==
          if hash(e.src) % n == p then
            multiset(edges)[e] + (if undirected then multiset(edges)[Edge(e.dst, e.src, e.value)] else 0)
          else
            0)
  }

  lemma {:induction false} ShareHolds<K(!new), V, E>(
      hash: K -> nat, n: nat, vertices: seq<(K, V)>, edges: seq<Edge<K, E>>, p: nat, k: K)
    requires n > 0
    ensures var own := Share(hash, n, vertices, edges, p).verts;
            && (k in own <==> hash(k) % n == p && exists i :: 0 <= i < |vertices| && vertices[i].0 == k)
            && (k in own ==> k in PutAll(map[], vertices) && own[k] == PutAll(map[], vertices)[k])
  {
    VerticesForOwn(hash, n, vertices, p, k);
    LastWriteWins(map[], vertices, k);
    Home(hash, k, n);
    hide PartitionOf, PutAll, VerticesFor;
  }

  lemma {:induction false} ShareIsPart<K(!new), V, E(!new)>(
      hash: K -> nat, n: nat, vertices: seq<(K, V)>, edges: seq<Edge<K, E>>, undirected: bool, p: nat)
    requires n > 0
    ensures IsPart(hash, n, vertices, edges, undirected, p, Share(hash, n, vertices, Expanded(edges, undirected), p))
  {
    hide PartitionOf, PutAll, EdgesFor, VerticesFor, Expanded;
    var all := Expanded(edges, undirected);
    var c := Share(hash, n, vertices, all, p);
    forall k
      ensures k in c.verts <==> hash(k) % n == p && exists i :: 0 <= i < |vertices| && vertices[i].0 == k
    {
      ShareHolds(hash, n, vertices, all, p, k);
    }
    forall i | 0 <= i < |vertices| && hash(vertices[i].0) % n == p
               && (forall j :: i < j < |vertices| ==> vertices[j].0 != vertices[i].0)
      ensures c.verts[vertices[i].0] == vertices[i].1
    {
      ShareHolds(hash, n, vertices, all, p, vertices[i].0);
      LastWriteWins(map[], vertices, vertices[i].0);
    }
    forall e
      ensures c.edges[e] ==
              if hash(e.src) % n == p then
                multiset(edges)[e] + (if undirected then multiset(edges)[Edge(e.dst, e.src, e.value)] else 0)
              else
                0
    {
      EdgesForOwn(hash, n, all, p, e);
      ExpandedCounts(edges, undirected, e);
      Home(hash, e.src, n);
    }
  }

  lemma {:induction false} VerticesForKept<K, V>(hash: K -> nat, n: nat, vertices: seq<(K, V)>, p: nat)
    requires n > 0
    ensures Keeps(vertices, (v: (K, V)) => hash(v.0) % n == p, VerticesFor(hash, n, vertices, p))
  {
    hide Keeps, PartitionOf;
    var mine := (v: (K, V)) => hash(v.0) % n == p;
    if vertices == [] {
      KeepsNothing(mine);
    } else {
      var front, last := vertices[..|vertices| - 1], vertices[|vertices| - 1];
      VerticesForKept(hash, n, front, p);
      KeepsMore(front, mine, VerticesFor(hash, n, front, p), last);
      Home(hash, last.0, n);
      assert vertices == front + [last];
    }
  }

  lemma {:induction false} EdgesForKept<K, E>(hash: K -> nat, n: nat, edges: seq<Edge<K, E>>, p: nat)
    requires n > 0
    ensures Keeps(edges, (e: Edge<K, E>) => hash(e.src) % n == p, EdgesFor(hash, n, edges, p))
  {
    hide Keeps, PartitionOf;
    var mine := (e: Edge<K, E>) => hash(e.src) % n == p;
    if edges == [] {
      KeepsNothing(mine);
    } else {
      var front, last := edges[..|edges| - 1], edges[|edges| - 1];
      EdgesForKept(hash, n, front, p);
      KeepsMore(front, mine, EdgesFor(hash, n, front, p), last);
      Home(hash, last.src, n);
      assert edges == front + [last];
    }
  }

  // ---------------------------------------------------------------------------------------
  // At once.

  lemma {:induction false} HeldConcat<K, V, E>(log: seq<Sent<K, V, E>>, s: Sent<K, V, E>, p: nat)
    ensures Held(log + [s], p) == if s.worker == p then Loaded(Held(log, p), s.load) else Held(log, p)
  {
    assert (log + [s])[..|log|] == log;
  }

  /** The message to worker `p` holds the vertices whose hash is `p` modulo `n` and the edges that start
      at such a vertex: all of them, and in the order in which they are given. */
  ghost predicate SendsOwn<K, V, E>(
      hash: K -> nat, n: nat, vertices: seq<(K, V)>, edges: seq<Edge<K, E>>, p: nat, s: Sent<K, V, E>)
    requires n > 0
  {
    && s.worker == p && s.load.LoadGraph?
    && Keeps(vertices, (v: (K, V)) => hash(v.0) % n == p, s.load.vertices)
    && Keeps(edges, (e: Edge<K, E>) => hash(e.src) % n == p, s.load.edges)
  }

  /** The first `i` workers have been sent their parts. */
  ghost predicate PartsArrived<K, V, E>(
      hash: K -> nat, n: nat, vertices: seq<(K, V)>, edges: seq<Edge<K, E>>, log: seq<Sent<K, V, E>>, i: nat)
    requires n > 0
  {
    && |log| == i
    && (forall p: nat :: p < i ==>
          log[p] == Sent(p, LoadGraph(VerticesFor(hash, n, vertices, p), EdgesFor(hash, n, edges, p))))
    && (forall p: nat :: p < n ==>
          Held(log, p) == if p < i then Share(hash, n, vertices, edges, p) else EmptyContents())
  }

  lemma NothingArrived<K, V, E>(
      hash: K -> nat, n: nat, vertices: seq<(K, V)>, edges: seq<Edge<K, E>>, log: seq<Sent<K, V, E>>)
    requires n > 0 && log == []
    ensures PartsArrived(hash, n, vertices, edges, log, 0)
  {
  }

  lemma {:induction false} AllPartsArrived<K, V, E>(
      hash: K -> nat, n: nat, vertices: seq<(K, V)>, edges: seq<Edge<K, E>>, log: seq<Sent<K, V, E>>)
    requires n > 0 && PartsArrived(hash, n, vertices, edges, log, n)
    ensures |log| == n
    ensures forall p: nat :: p < n ==>
              log[p] == Sent(p, LoadGraph(VerticesFor(hash, n, vertices, p), EdgesFor(hash, n, edges, p)))
    ensures forall p :: 0 <= p < n ==> Held(log, p) == Share(hash, n, vertices, edges, p)
  {
    hide VerticesFor, EdgesFor, Share, Held;
  }

  lemma {:induction false} PartArrives<K, V, E>(
      hash: K -> nat, n: nat, vertices: seq<(K, V)>, edges: seq<Edge<K, E>>, log: seq<Sent<K, V, E>>, i: nat)
    requires i < n && PartsArrived(hash, n, vertices, edges, log, i)
    ensures PartsArrived(
              hash, n, vertices, edges,
              log + [Sent(i, LoadGraph(VerticesFor(hash, n, vertices, i), EdgesFor(hash, n, edges, i)))], i + 1)
  {
    hide VerticesFor, EdgesFor, Held, PutAll;
    var s := Sent(i, LoadGraph(VerticesFor(hash, n, vertices, i), EdgesFor(hash, n, edges, i)));
    forall p: nat | p < n
      ensures Held(log + [s], p) == if p < i + 1 then Share(hash, n, vertices, edges, p) else EmptyContents()
    {
      HeldConcat(log, s, p);
    }
  }

  /** The load at once: one message to each worker, with its part of the graph. */
  method LoadAtOnce<K(==), V, E>(hash: K -> nat, n: nat, vertices: seq<(K, V)>, edges: seq<Edge<K, E>>)
    returns (log: seq<Sent<K, V, E>>)
    requires n > 0
    ensures |log| == n
    ensures forall p: nat :: p < n ==> SendsOwn(hash, n, vertices, edges, p, log[p])
    ensures forall p: nat :: p < n ==>
              log[p] == Sent(p, LoadGraph(VerticesFor(hash, n, vertices, p), EdgesFor(hash, n, edges, p)))
    ensures forall p :: 0 <= p < n ==> Held(log, p) == Share(hash, n, vertices, edges, p)
  {
    hide PartitionOf, PutAll, SendsOwn, Keeps, Held, Share, PartsArrived;
    var vParts := new seq<(K, V)>[n](_ => []);
    for i := 0 to |vertices|
      invariant forall p: nat :: p < n ==> vParts[p] == VerticesFor(hash, n, vertices[..i], p)
    {
      var v := vertices[i];
      var p := PartitionOf(hash, v.0, n);
      vParts[p] := vParts[p] + [v];
      assert vertices[..i + 1][..i] == vertices[..i];
    }
    assert vertices[..|vertices|] == vertices;
    var eParts := new seq<Edge<K, E>>[n](_ => []);
    for i := 0 to |edges|
      invariant forall p: nat :: p < n ==> eParts[p] == EdgesFor(hash, n, edges[..i], p)
      invariant forall p: nat :: p < n ==> vParts[p] == VerticesFor(hash, n, vertices, p)
    {
      var e := edges[i];
      var p := PartitionOf(hash, e.src, n);
      eParts[p] := eParts[p] + [e];
      assert edges[..i + 1][..i] == edges[..i];
    }
    assert edges[..|edges|] == edges;
    log := [];
    NothingArrived(hash, n, vertices, edges, log);
    ghost var vs, es := vParts[..], eParts[..];
    assert forall p: nat :: p < n ==> vs[p] == VerticesFor(hash, n, vertices, p);
    assert forall p: nat :: p < n ==> es[p] == EdgesFor(hash, n, edges, p);
    hide VerticesFor, EdgesFor;
    for i := 0 to n
      invariant PartsArrived(hash, n, vertices, edges, log, i)
      invariant vParts[..] == vs && eParts[..] == es
    {
      PartArrives(hash, n, vertices, edges, log, i);
      log := log + [Sent(i, LoadGraph(vParts[i], eParts[i]))];
    }
    AllPartsArrived(hash, n, vertices, edges, log);
    PartsKept(hash, n, vertices, edges, log);
  }

  lemma PartsKept<K, V, E>(
      hash: K -> nat, n: nat, vertices: seq<(K, V)>, edges: seq<Edge<K, E>>, log: seq<Sent<K, V, E>>)
    requires n > 0 && |log| == n
    requires forall p: nat :: p < n ==>
               log[p] == Sent(p, LoadGraph(VerticesFor(hash, n, vertices, p), EdgesFor(hash, n, edges, p)))
    ensures forall p: nat :: p < n ==> SendsOwn(hash, n, vertices, edges, p, log[p])
  {
    forall p: nat | p < n
      ensures SendsOwn(hash, n, vertices, edges, p, log[p])
    {
      VerticesForKept(hash, n, vertices, p);
      EdgesForKept(hash, n, edges, p);
    }
  }

  // ---------------------------------------------------------------------------------------
  // As a stream.

  function AtLeastOne(n: nat): nat {
    if n > 1 then n else 1
  }

  /** A message of a stream that is still under way: vertices or edges, at most a batch of them, or a
      single one where a batch is to have none. */
  ghost predicate DataBatch<K, V, E>(s: Sent<K, V, E>, n: nat, vertexBatch: nat, edgeBatch: nat) {
    && s.worker < n && s.load.LoadGraphBatch? && !s.load.last
    && (s.load.vertices == [] <==> s.load.edges != [])
    && (|s.load.vertices| <= vertexBatch || |s.load.vertices| == 1)
    && (|s.load.edges| <= edgeBatch || |s.load.edges| == 1)
  }

  /** The message is as large as it may be. */
  ghost predicate Full<K, V, E>(s: Sent<K, V, E>, vertexBatch: nat, edgeBatch: nat) {
    && (s.load.vertices != [] ==> |s.load.vertices| >= vertexBatch)
    && (s.load.edges != [] ==> |s.load.edges| >= edgeBatch)
  }

  /** To each worker only the last message with vertices and the last with edges may fall short of a batch. */
  ghost predicate DataBatches<K, V, E>(log: seq<Sent<K, V, E>>, n: nat, vertexBatch: nat, edgeBatch: nat) {
    && (forall i :: 0 <= i < |log| ==> DataBatch(log[i], n, vertexBatch, edgeBatch))
    && (forall i, j :: 0 <= i < j < |log| && log[i].worker == log[j].worker
                       && (log[i].load.edges == [] <==> log[j].load.edges == []) ==>
          Full(log[i], vertexBatch, edgeBatch))
  }

  /** Of the messages with edges, or of those with vertices, only those to workers below `q` may fall short. */
  ghost predicate ShortBelow<K, V, E>(
      log: seq<Sent<K, V, E>>, vertexBatch: nat, edgeBatch: nat, ofEdges: bool, q: nat)
  {
    forall i :: 0 <= i < |log| && (log[i].load.edges != [] <==> ofEdges) && !Full(log[i], vertexBatch, edgeBatch) ==>
      log[i].worker < q
  }

  lemma BatchAdded<K, V, E>(
      log: seq<Sent<K, V, E>>, n: nat, vertexBatch: nat, edgeBatch: nat, s: Sent<K, V, E>, q: nat, q': nat)
    requires DataBatches(log, n, vertexBatch, edgeBatch) && DataBatch(s, n, vertexBatch, edgeBatch)
    requires ShortBelow(log, vertexBatch, edgeBatch, s.load.edges != [], q) && q <= s.worker
    requires if Full(s, vertexBatch, edgeBatch) then q' >= q else q' == s.worker + 1
    ensures DataBatches(log + [s], n, vertexBatch, edgeBatch)
    ensures ShortBelow(log + [s], vertexBatch, edgeBatch, s.load.edges != [], q')
    ensures ShortBelow(log, vertexBatch, edgeBatch, s.load.edges == [], 0) ==>
              ShortBelow(log + [s], vertexBatch, edgeBatch, s.load.edges == [], 0)
  {
    hide DataBatch, Full;
  }

  /** What is left in a buffer of edges at the end. */
  lemma RestAdded<K, V, E>(
      log: seq<Sent<K, V, E>>, n: nat, vertexBatch: nat, edgeBatch: nat, p: nat, buf: seq<Edge<K, E>>)
    requires DataBatches(log, n, vertexBatch, edgeBatch) && ShortBelow(log, vertexBatch, edgeBatch, true, p)
    requires p < n && 0 < |buf| < edgeBatch
    ensures var s := Sent(p, LoadGraphBatch([], buf, false));
            DataBatches(log + [s], n, vertexBatch, edgeBatch)
            && ShortBelow(log + [s], vertexBatch, edgeBatch, true, p + 1)
  {
    hide DataBatches, ShortBelow;
    BatchAdded(log, n, vertexBatch, edgeBatch, Sent(p, LoadGraphBatch([], buf, false)), p, p + 1);
  }

  lemma ShortBelowMore<K, V, E>(
      log: seq<Sent<K, V, E>>, vertexBatch: nat, edgeBatch: nat, ofEdges: bool, q: nat, q': nat)
    requires ShortBelow(log, vertexBatch, edgeBatch, ofEdges, q) && q <= q'
    ensures ShortBelow(log, vertexBatch, edgeBatch, ofEdges, q')
  {
    hide Full;
  }

  lemma NoBatches<K, V, E>(n: nat, vertexBatch: nat, edgeBatch: nat)
    ensures DataBatches<K, V, E>([], n, vertexBatch, edgeBatch)
    ensures ShortBelow<K, V, E>([], vertexBatch, edgeBatch, false, 0)
    ensures ShortBelow<K, V, E>([], vertexBatch, edgeBatch, true, 0)
  {
  }

  /** The messages carry nothing but these vertices and edges. */
  ghost predicate SentOnlyFrom<K, V, E>(log: seq<Sent<K, V, E>>, vertices: seq<(K, V)>, edges: seq<Edge<K, E>>) {
    && (forall i, v :: 0 <= i < |log| && v in log[i].load.vertices ==> v in vertices)
    && (forall i, e :: 0 <= i < |log| && e in log[i].load.edges ==> e in edges)
  }

  ghost predicate Buffers<T>(bufs: seq<seq<T>>, items: seq<T>) {
    forall p, x :: 0 <= p < |bufs| && x in bufs[p] ==> x in items
  }

  lemma SentOnlyFromMore<K, V, E>(
      log: seq<Sent<K, V, E>>, s: Sent<K, V, E>, vertices: seq<(K, V)>, edges: seq<Edge<K, E>>,
      vertices': seq<(K, V)>, edges': seq<Edge<K, E>>)
    requires SentOnlyFrom(log, vertices, edges)
    requires forall v :: v in vertices || v in s.load.vertices ==> v in vertices'
    requires forall e :: e in edges || e in s.load.edges ==> e in edges'
    ensures SentOnlyFrom(log, vertices', edges') && SentOnlyFrom(log + [s], vertices', edges')
  {
  }

  lemma BuffersMore<T>(bufs: seq<seq<T>>, items: seq<T>, at: nat, x: T)
    requires Buffers(bufs, items) && at < |bufs|
    ensures Buffers(bufs[at := bufs[at] + [x]], items + [x])
    ensures Buffers(bufs[at := []], items)
  {
  }

  lemma {:induction false} VerticesForAmong<K, V>(hash: K -> nat, n: nat, vertices: seq<(K, V)>, p: nat)
    requires n > 0
    ensures forall v :: v in VerticesFor(hash, n, vertices, p) ==> v in vertices
  {
    if vertices != [] {
      VerticesForAmong(hash, n, vertices[..|vertices| - 1], p);
    }
  }

  lemma {:induction false} EdgesForAmong<K, E>(hash: K -> nat, n: nat, edges: seq<Edge<K, E>>, p: nat)
    requires n > 0
    ensures |EdgesFor(hash, n, edges, p)| <= |edges|
    ensures forall e :: e in EdgesFor(hash, n, edges, p) ==> e in edges
  {
    if edges != [] {
      EdgesForAmong(hash, n, edges[..|edges| - 1], p);
    }
  }

  /** Nothing is lost between the messages sent and the vertices still buffered. */
  ghost predicate VerticesAccounted<K, V, E>(
      hash: K -> nat, n: nat, log: seq<Sent<K, V, E>>, bufs: seq<seq<(K, V)>>, vertices: seq<(K, V)>)
    requires n > 0
  {
    && |bufs| == n
    && forall p: nat :: p < n ==>
         && PutAll(Held(log, p).verts, bufs[p]) == PutAll(map[], VerticesFor(hash, n, vertices, p))
         && Held(log, p).edges == multiset{}
  }

  ghost predicate EdgesAccounted<K, V, E>(
      hash: K -> nat, n: nat, log: seq<Sent<K, V, E>>, bufs: seq<seq<Edge<K, E>>>,
      vertices: seq<(K, V)>, edges: seq<Edge<K, E>>)
    requires n > 0
  {
    && |bufs| == n
    && forall p: nat :: p < n ==>
         && Held(log, p).verts == PutAll(map[], VerticesFor(hash, n, vertices, p))
         && Held(log, p).edges + multiset(bufs[p]) == multiset(EdgesFor(hash, n, edges, p))
  }

  /** Buffering a vertex. */
  lemma VertexBuffered<K, V, E>(
      hash: K -> nat, n: nat, log: seq<Sent<K, V, E>>, bufs: seq<seq<(K, V)>>, vertices: seq<(K, V)>, v: (K, V))
    requires n > 0 && VerticesAccounted(hash, n, log, bufs, vertices)
    ensures var home := PartitionOf(hash, v.0, n);
            VerticesAccounted(hash, n, log, bufs[home := bufs[home] + [v]], vertices + [v])
  {
    hide PartitionOf;
    var home := PartitionOf(hash, v.0, n);
    forall p: nat | p < n
      ensures PutAll(Held(log, p).verts, bufs[home := bufs[home] + [v]][p])
           == PutAll(map[], VerticesFor(hash, n, vertices + [v], p))
    {
      assert (vertices + [v])[..|vertices|] == vertices;
      if p == home {
        assert (bufs[p] + [v])[..|bufs[p]|] == bufs[p];
        var part := VerticesFor(hash, n, vertices, p);
        assert (part + [v])[..|part|] == part;
      } else {
        assert VerticesFor(hash, n, vertices, p) + [] == VerticesFor(hash, n, vertices, p);
      }
    }
  }

  /** Sending a vertex buffer. */
  lemma VerticesSent<K, V, E>(
      hash: K -> nat, n: nat, log: seq<Sent<K, V, E>>, bufs: seq<seq<(K, V)>>, vertices: seq<(K, V)>, at: nat)
    requires n > 0 && VerticesAccounted(hash, n, log, bufs, vertices) && at < n
    ensures VerticesAccounted(hash, n, log + [Sent(at, LoadGraphBatch(bufs[at], [], false))], bufs[at := []], vertices)
  {
    var s := Sent(at, LoadGraphBatch(bufs[at], [], false));
    forall p: nat | p < n
      ensures PutAll(Held(log + [s], p).verts, bufs[at := []][p]) == PutAll(map[], VerticesFor(hash, n, vertices, p))
      ensures Held(log + [s], p).edges == multiset{}
    {
      HeldConcat(log, s, p);
    }
  }

  lemma {:induction false} EdgesForOneMore<K, E>(hash: K -> nat, n: nat, edges: seq<Edge<K, E>>, e: Edge<K, E>, p: nat)
    requires n > 0
    ensures EdgesFor(hash, n, edges + [e], p)
         == EdgesFor(hash, n, edges, p) + (if PartitionOf(hash, e.src, n) == p then [e] else [])
  {
    assert (edges + [e])[..|edges|] == edges;
  }

  lemma EdgeBuffered<K, V, E>(
      hash: K -> nat, n: nat, log: seq<Sent<K, V, E>>, bufs: seq<seq<Edge<K, E>>>,
      vertices: seq<(K, V)>, edges: seq<Edge<K, E>>, e: Edge<K, E>)
    requires n > 0 && EdgesAccounted(hash, n, log, bufs, vertices, edges)
    ensures var home := PartitionOf(hash, e.src, n);
            EdgesAccounted(hash, n, log, bufs[home := bufs[home] + [e]], vertices, edges + [e])
  {
    hide PartitionOf, PutAll, Held, EdgesFor;
    var home := PartitionOf(hash, e.src, n);
    forall p: nat | p < n
      ensures Held(log, p).edges + multiset(bufs[home := bufs[home] + [e]][p])
              == multiset(EdgesFor(hash, n, edges + [e], p))
    {
      EdgesForOneMore(hash, n, edges, e, p);
      if p == home {
        assert multiset(bufs[p] + [e]) == multiset(bufs[p]) + multiset{e};
      } else {
        assert EdgesFor(hash, n, edges, p) + [] == EdgesFor(hash, n, edges, p);
      }
    }
  }

  lemma EdgesSent<K, V, E>(
      hash: K -> nat, n: nat, log: seq<Sent<K, V, E>>, bufs: seq<seq<Edge<K, E>>>,
      vertices: seq<(K, V)>, edges: seq<Edge<K, E>>, at: nat)
    requires n > 0 && EdgesAccounted(hash, n, log, bufs, vertices, edges) && at < n
    ensures EdgesAccounted(hash, n, log + [Sent(at, LoadGraphBatch([], bufs[at], false))], bufs[at := []],
                           vertices, edges)
  {
    var s := Sent(at, LoadGraphBatch([], bufs[at], false));
    forall p: nat | p < n
      ensures Held(log + [s], p).verts == PutAll(map[], VerticesFor(hash, n, vertices, p))
      ensures Held(log + [s], p).edges + multiset(bufs[at := []][p]) == multiset(EdgesFor(hash, n, edges, p))
    {
      HeldConcat(log, s, p);
      assert PutAll(Held(log, p).verts, []) == Held(log, p).verts;
    }
  }

  /** The vertex phase: a buffer is sent when it is full, and all that is left is sent at the end. */
  method StreamVertices<K(==), V, E>(
      hash: K -> nat, n: nat, vertices: seq<(K, V)>, vertexBatch: nat, ghost edgeBatch: nat)
    returns (log: seq<Sent<K, V, E>>)
    requires n > 0
    ensures DataBatches(log, n, vertexBatch, edgeBatch) && ShortBelow(log, vertexBatch, edgeBatch, true, 0)
    ensures VerticesAccounted(hash, n, log, seq(n, _ => []), vertices)
    ensures SentOnlyFrom(log, vertices, []) && |log| <= |vertices| + n
  {
    hide VerticesAccounted, PartitionOf, SentOnlyFrom, Buffers, DataBatches, ShortBelow;
    NothingCarried<K, V, E>(vertices, []);
    NoBatches<K, V, E>(n, vertexBatch, edgeBatch);
    log := [];
    var vBufs := new seq<(K, V)>[n](_ => []);
    NothingLoaded<K, V, E>(hash, n, vBufs[..]);
    NothingBuffered(vBufs[..], vertices[..0]);
    for i := 0 to |vertices|
      invariant DataBatches(log, n, vertexBatch, edgeBatch) && ShortBelow(log, vertexBatch, edgeBatch, false, 0)
      invariant ShortBelow(log, vertexBatch, edgeBatch, true, 0)
      invariant VerticesAccounted(hash, n, log, vBufs[..], vertices[..i])
      invariant SentOnlyFrom(log, vertices, []) && Buffers(vBufs[..], vertices[..i])
      invariant |log| <= i
      invariant forall p :: 0 <= p < n ==> |vBufs[p]| < vertexBatch || vBufs[p] == []
    {
      var v := vertices[i];
      var p := PartitionOf(hash, v.0, n);
      ghost var before := vBufs[..];
      VertexBuffered(hash, n, log, before, vertices[..i], v);
      BuffersMore(before, vertices[..i], p, v);
      assert vertices[..i + 1] == vertices[..i] + [v];
      vBufs[p] := vBufs[p] + [v];
      assert vBufs[..] == before[p := before[p] + [v]];
      if |vBufs[p]| >= AtLeastOne(vertexBatch) {
        ghost var full := vBufs[..];
        VerticesSent(hash, n, log, full, vertices[..i + 1], p);
        BuffersMore(full, vertices[..i + 1], p, v);
        BufferAmong(full, vertices[..i + 1], p, vertices);
        SentOnlyFromMore(log, Sent(p, LoadGraphBatch(vBufs[p], [], false)), vertices, [], vertices, []);
        BatchAdded(log, n, vertexBatch, edgeBatch, Sent(p, LoadGraphBatch(vBufs[p], [], false)), 0, 0);
        log := log + [Sent(p, LoadGraphBatch(vBufs[p], [], false))];
        vBufs[p] := [];
        assert vBufs[..] == full[p := []];
      }
    }
    assert vertices[..|vertices|] == vertices;
    for p := 0 to n
      invariant DataBatches(log, n, vertexBatch, edgeBatch) && ShortBelow(log, vertexBatch, edgeBatch, false, p)
      invariant ShortBelow(log, vertexBatch, edgeBatch, true, 0)
      invariant VerticesAccounted(hash, n, log, vBufs[..], vertices)
      invariant SentOnlyFrom(log, vertices, []) && Buffers(vBufs[..], vertices)
      invariant |log| <= |vertices| + p
      invariant forall q :: 0 <= q < n ==> |vBufs[q]| < vertexBatch || vBufs[q] == []
      invariant forall q :: 0 <= q < p ==> vBufs[q] == []
    {
      if vBufs[p] != [] {
        ghost var rest := vBufs[..];
        VerticesSent(hash, n, log, rest, vertices, p);
        BufferAmong(rest, vertices, p, vertices);
        SentOnlyFromMore(log, Sent(p, LoadGraphBatch(vBufs[p], [], false)), vertices, [], vertices, []);
        BuffersMore(rest, vertices, p, rest[p][0]);
        BatchAdded(log, n, vertexBatch, edgeBatch, Sent(p, LoadGraphBatch(vBufs[p], [], false)), p, p + 1);
        log := log + [Sent(p, LoadGraphBatch(vBufs[p], [], false))];
        vBufs[p] := [];
        assert vBufs[..] == rest[p := []];
      } else {
        ShortBelowMore(log, vertexBatch, edgeBatch, false, p, p + 1);
      }
    }
    assert vBufs[..] == seq(n, _ => []);
  }

  lemma NothingCarried<K, V, E>(vertices: seq<(K, V)>, edges: seq<Edge<K, E>>)
    ensures SentOnlyFrom<K, V, E>([], vertices, edges)
  {
  }

  lemma NothingBuffered<T>(bufs: seq<seq<T>>, items: seq<T>)
    requires forall p :: 0 <= p < |bufs| ==> bufs[p] == []
    ensures Buffers(bufs, items)
  {
  }

  lemma BufferAmong<T>(bufs: seq<seq<T>>, items: seq<T>, p: nat, all: seq<T>)
    requires Buffers(bufs, items) && p < |bufs| && forall x :: x in items ==> x in all
    ensures forall x :: x in bufs[p] ==> x in all
  {
  }

  lemma NothingLoaded<K, V, E>(hash: K -> nat, n: nat, bufs: seq<seq<(K, V)>>)
    requires n > 0 && |bufs| == n && forall p :: 0 <= p < n ==> bufs[p] == []
    ensures VerticesAccounted<K, V, E>(hash, n, [], bufs, [])
  {
  }

  lemma VerticesDone<K, V, E>(
      hash: K -> nat, n: nat, log: seq<Sent<K, V, E>>, vertices: seq<(K, V)>, bufs: seq<seq<Edge<K, E>>>)
    requires n > 0 && VerticesAccounted(hash, n, log, seq(n, _ => []), vertices)
    requires |bufs| == n && forall p :: 0 <= p < n ==> bufs[p] == []
    ensures EdgesAccounted(hash, n, log, bufs, vertices, [])
  {
    forall p: nat | p < n
      ensures Held(log, p).verts == PutAll(map[], VerticesFor(hash, n, vertices, p))
      ensures Held(log, p).edges + multiset(bufs[p]) == multiset(EdgesFor(hash, n, [], p))
    {
      assert PutAll(Held(log, p).verts, []) == Held(log, p).verts;
    }
  }

  /** One edge into the buffer of its owner, and the buffer onto the wire if it is full. */
  method PushEdge<K(==), V, E>(
      hash: K -> nat, n: nat, log0: seq<Sent<K, V, E>>, eBufs: array<seq<Edge<K, E>>>, e: Edge<K, E>,
      edgeBatch: nat, ghost vertexBatch: nat, ghost vertices: seq<(K, V)>, ghost edges: seq<Edge<K, E>>)
    returns (log: seq<Sent<K, V, E>>)
    requires n > 0 && eBufs.Length == n
    requires DataBatches(log0, n, vertexBatch, edgeBatch) && ShortBelow(log0, vertexBatch, edgeBatch, true, 0)
    requires EdgesAccounted(hash, n, log0, eBufs[..], vertices, edges)
    requires forall p :: 0 <= p < n ==> |eBufs[p]| < edgeBatch || eBufs[p] == []
    modifies eBufs
    ensures DataBatches(log, n, vertexBatch, edgeBatch) && ShortBelow(log, vertexBatch, edgeBatch, true, 0)
    ensures EdgesAccounted(hash, n, log, eBufs[..], vertices, edges + [e])
    ensures forall p :: 0 <= p < n ==> |eBufs[p]| < edgeBatch || eBufs[p] == []
    ensures var p := hash(e.src) % n;
            var buf := old(eBufs[p]) + [e];
            if |buf| < edgeBatch then
              log == log0 && eBufs[..] == old(eBufs[..])[p := buf]
            else
              log == log0 + [Sent(p, LoadGraphBatch([], buf, false))] && eBufs[..] == old(eBufs[..])[p := []]
  {
    hide EdgesAccounted, PartitionOf, DataBatches, ShortBelow;
    log := log0;
    Home(hash, e.src, n);
    var p := PartitionOf(hash, e.src, n);
    ghost var before := eBufs[..];
    EdgeBuffered(hash, n, log, before, vertices, edges, e);
    eBufs[p] := eBufs[p] + [e];
    assert eBufs[..] == before[p := before[p] + [e]];
    if |eBufs[p]| >= AtLeastOne(edgeBatch) {
      ghost var full := eBufs[..];
      EdgesSent(hash, n, log, full, vertices, edges + [e], p);
      BatchAdded(log, n, vertexBatch, edgeBatch, Sent(p, LoadGraphBatch([], eBufs[p], false)), 0, 0);
      log := log + [Sent(p, LoadGraphBatch([], eBufs[p], false))];
      eBufs[p] := [];
      assert eBufs[..] == full[p := []];
    }
  }

  lemma PushedSentOnlyFrom<K, V, E>(
      log0: seq<Sent<K, V, E>>, log: seq<Sent<K, V, E>>, before: seq<seq<Edge<K, E>>>, after: seq<seq<Edge<K, E>>>,
      p: nat, e: Edge<K, E>, vertices: seq<(K, V)>, edges: seq<Edge<K, E>>)
    requires SentOnlyFrom(log0, vertices, edges) && Buffers(before, edges) && p < |before|
    requires var buf := before[p] + [e];
             || (log == log0 && after == before[p := buf])
             || (log == log0 + [Sent(p, LoadGraphBatch([], buf, false))] && after == before[p := []])
    ensures SentOnlyFrom(log, vertices, edges + [e]) && Buffers(after, edges + [e])
  {
    var s: Sent<K, V, E> := Sent(p, LoadGraphBatch([], before[p] + [e], false));
    BuffersMore(before, edges, p, e);
    BufferAmong(before, edges, p, edges);
    SentOnlyFromMore(log0, s, vertices, edges, vertices, edges + [e]);
    BuffersMore(before[p := before[p] + [e]], edges + [e], p, e);
    assert before[p := before[p] + [e]][p := []] == before[p := []];
    hide SentOnlyFrom, Buffers;
  }

  /** All data has been sent, and then a closing message to each of the first `p` workers. */
  ghost predicate Closed<K, V, E>(
      hash: K -> nat, n: nat, vertices: seq<(K, V)>, edges: seq<Edge<K, E>>,
      data: seq<Sent<K, V, E>>, log: seq<Sent<K, V, E>>, p: nat)
    requires n > 0
  {
    && |log| == |data| + p && log[..|data|] == data && SentOnlyFrom(log, vertices, edges)
    && (forall q: nat :: q < p ==> log[|data| + q] == Sent(q, LoadGraphBatch([], [], true)))
    && (forall q: nat :: q < n ==> Held(log, q) == Share(hash, n, vertices, edges, q))
  }

  lemma {:induction false} NothingClosed<K, V, E>(
      hash: K -> nat, n: nat, vertices: seq<(K, V)>, edges: seq<Edge<K, E>>, data: seq<Sent<K, V, E>>)
    requires n > 0 && SentOnlyFrom(data, vertices, edges)
    requires forall q: nat :: q < n ==> Held(data, q) == Share(hash, n, vertices, edges, q)
    ensures Closed(hash, n, vertices, edges, data, data, 0)
  {
    hide SentOnlyFrom, Held, Share;
  }

  lemma OneMoreClosed<K, V, E>(
      hash: K -> nat, n: nat, vertices: seq<(K, V)>, edges: seq<Edge<K, E>>,
      data: seq<Sent<K, V, E>>, log: seq<Sent<K, V, E>>, p: nat)
    requires n > 0 && Closed(hash, n, vertices, edges, data, log, p)
    ensures Closed(hash, n, vertices, edges, data, log + [Sent(p, LoadGraphBatch([], [], true))], p + 1)
  {
    hide SentOnlyFrom, Held, Share;
    var s := Sent(p, LoadGraphBatch([], [], true));
    SentOnlyFromMore(log, s, vertices, edges, vertices, edges);
    forall q: nat | q < n
      ensures Held(log + [s], q) == Share(hash, n, vertices, edges, q)
    {
      ClosingHarmless(log, p, q);
    }
  }

  lemma {:induction false} AllClosed<K, V, E>(
      hash: K -> nat, n: nat, vertices: seq<(K, V)>, edges: seq<Edge<K, E>>,
      data: seq<Sent<K, V, E>>, log: seq<Sent<K, V, E>>, vertexBatch: nat, edgeBatch: nat)
    requires n > 0 && Closed(hash, n, vertices, edges, data, log, n)
    requires DataBatches(data, n, vertexBatch, edgeBatch)
    ensures |log| == |data| + n && SentOnlyFrom(log, vertices, edges)
    ensures DataBatches(log[..|log| - n], n, vertexBatch, edgeBatch)
    ensures forall p: nat :: p < n ==> log[|log| - n + p] == Sent(p, LoadGraphBatch([], [], true))
    ensures forall p: nat :: p < n ==> Held(log, p) == Share(hash, n, vertices, edges, p)
  {
    hide SentOnlyFrom, Held, Share, DataBatches;
    forall p: nat | p < n
      ensures log[|log| - n + p] == Sent(p, LoadGraphBatch([], [], true))
    {
      assert |log| - n + p == |data| + p;
    }
  }

  /** The streaming load, for any batch sizes, zero included: every worker ends up with exactly its
      part of the graph, with the reverse of every edge when it is undirected. Every data batch is
      bounded, and full unless it is the last of its kind to its worker; none is marked last, and
      each worker gets one closing message after all its data. */
  method LoadStreaming<K(!new, ==), V, E(!new)>(
      hash: K -> nat, n: nat, vertices: seq<(K, V)>, edges: seq<Edge<K, E>>,
      vertexBatch: nat, edgeBatch: nat, undirected: bool)
    returns (log: seq<Sent<K, V, E>>)
    requires n > 0
    ensures forall p: nat :: p < n ==> IsPart(hash, n, vertices, edges, undirected, p, Held(log, p))
    ensures forall p: nat :: p < n ==> Held(log, p) == Share(hash, n, vertices, Expanded(edges, undirected), p)
    ensures |log| >= n
    ensures DataBatches(log[..|log| - n], n, vertexBatch, edgeBatch)
    ensures forall p: nat :: p < n ==> log[|log| - n + p] == Sent(p, LoadGraphBatch([], [], true))
    ensures SentOnlyFrom(log, vertices, Expanded(edges, undirected))
    ensures |log| <= |vertices| + |Expanded(edges, undirected)| + 3 * n
  {
    hide EdgesAccounted, PartitionOf, Share, SentOnlyFrom, Buffers, DataBatches, ShortBelow, IsPart, Held, PutAll,
      EdgesFor, VerticesFor, Closed, DataBatch, Full, AtLeastOne;
    log := StreamVertices(hash, n, vertices, vertexBatch, edgeBatch);
    var eBufs := new seq<Edge<K, E>>[n](_ => []);
    VerticesDone(hash, n, log, vertices, eBufs[..]);
    NothingBuffered(eBufs[..], []);
    for i := 0 to |edges|
      invariant DataBatches(log, n, vertexBatch, edgeBatch) && ShortBelow(log, vertexBatch, edgeBatch, true, 0)
      invariant EdgesAccounted(hash, n, log, eBufs[..], vertices, Expanded(edges[..i], undirected))
      invariant SentOnlyFrom(log, vertices, Expanded(edges[..i], undirected))
      invariant Buffers(eBufs[..], Expanded(edges[..i], undirected))
      invariant |log| <= |vertices| + n + |Expanded(edges[..i], undirected)|
      invariant forall p :: 0 <= p < n ==> |eBufs[p]| < edgeBatch || eBufs[p] == []
    {
      var e := edges[i];
      assert edges[..i + 1][..i] == edges[..i];
      ghost var done := Expanded(edges[..i], undirected);
      ghost var log0, before := log, eBufs[..];
      log := PushEdge(hash, n, log, eBufs, e, edgeBatch, vertexBatch, vertices, done);
      PushedSentOnlyFrom(log0, log, before, eBufs[..], hash(e.src) % n, e, vertices, done);
      if undirected {
        var r := Edge(e.dst, e.src, e.value);
        log0, before := log, eBufs[..];
        log := PushEdge(hash, n, log, eBufs, r, edgeBatch, vertexBatch, vertices, done + [e]);
        PushedSentOnlyFrom(log0, log, before, eBufs[..], hash(r.src) % n, r, vertices, done + [e]);
      } else {
        assert done + [e] + [] == done + [e];
      }
    }
    assert edges[..|edges|] == edges;
    ghost var all := Expanded(edges, undirected);
    for p := 0 to n
      invariant DataBatches(log, n, vertexBatch, edgeBatch) && ShortBelow(log, vertexBatch, edgeBatch, true, p)
      invariant EdgesAccounted(hash, n, log, eBufs[..], vertices, all)
      invariant SentOnlyFrom(log, vertices, all) && Buffers(eBufs[..], all)
      invariant |log| <= |vertices| + n + |all| + p
      invariant forall q :: 0 <= q < n ==> |eBufs[q]| < edgeBatch || eBufs[q] == []
      invariant forall q :: 0 <= q < p ==> eBufs[q] == []
    {
      if eBufs[p] != [] {
        ghost var rest := eBufs[..];
        EdgesSent(hash, n, log, rest, vertices, all, p);
        BufferAmong(rest, all, p, all);
        SentOnlyFromMore(log, Sent(p, LoadGraphBatch([], eBufs[p], false)), vertices, all, vertices, all);
        BuffersMore(rest, all, p, rest[p][0]);
        RestAdded(log, n, vertexBatch, edgeBatch, p, eBufs[p]);
        log := log + [Sent(p, LoadGraphBatch([], eBufs[p], false))];
        eBufs[p] := [];
        assert eBufs[..] == rest[p := []];
      } else {
        ShortBelowMore(log, vertexBatch, edgeBatch, true, p, p + 1);
      }
    }
    SharesHeld(hash, n, log, eBufs[..], vertices, all);
    ghost var data := log;
    NothingClosed(hash, n, vertices, all, data);
    for p := 0 to n
      invariant Closed(hash, n, vertices, all, data, log, p)
    {
      OneMoreClosed(hash, n, vertices, all, data, log, p);
      log := log + [Sent(p, LoadGraphBatch([], [], true))];
    }
    AllClosed(hash, n, vertices, all, data, log, vertexBatch, edgeBatch);
    HeldAreParts(hash, n, vertices, edges, undirected, log);
  }

  lemma HeldAreParts<K(!new), V, E(!new)>(
      hash: K -> nat, n: nat, vertices: seq<(K, V)>, edges: seq<Edge<K, E>>, undirected: bool,
      log: seq<Sent<K, V, E>>)
    requires n > 0
    requires forall p: nat :: p < n ==> Held(log, p) == Share(hash, n, vertices, Expanded(edges, undirected), p)
    ensures forall p: nat :: p < n ==> IsPart(hash, n, vertices, edges, undirected, p, Held(log, p))
  {
    hide *;
    forall p: nat | p < n
      ensures IsPart(hash, n, vertices, edges, undirected, p, Held(log, p))
    {
      ShareIsPart(hash, n, vertices, edges, undirected, p);
    }
  }

  lemma {:induction false} SharesHeld<K, V, E>(
      hash: K -> nat, n: nat, log: seq<Sent<K, V, E>>, bufs: seq<seq<Edge<K, E>>>,
      vertices: seq<(K, V)>, edges: seq<Edge<K, E>>)
    requires n > 0 && EdgesAccounted(hash, n, log, bufs, vertices, edges)
    requires forall p :: 0 <= p < n ==> bufs[p] == []
    ensures forall p: nat :: p < n ==> Held(log, p) == Share(hash, n, vertices, edges, p)
  {
  }

  lemma {:induction false} ClosingHarmless<K, V, E>(log: seq<Sent<K, V, E>>, p: nat, q: nat)
    ensures Held(log + [Sent(p, LoadGraphBatch([], [], true))], q) == Held(log, q)
  {
    HeldConcat(log, Sent(p, LoadGraphBatch([], [], true)), q);
    assert PutAll(Held(log, q).verts, []) == Held(log, q).verts;
  }

  // ---------------------------------------------------------------------------------------
  // A loaded cluster represents the graph.

  lemma {:induction false} VerticesForOwn<K, V>(hash: K -> nat, n: nat, vertices: seq<(K, V)>, p: nat, k: K)
    requires n > 0
    ensures var own, all := PutAll(map[], VerticesFor(hash, n, vertices, p)), PutAll(map[], vertices);
            && (k in own <==> k in all && PartitionOf(hash, k, n) == p)
            && (k in own ==> own[k] == all[k])
  {
    hide PartitionOf;
    if vertices != [] {
      var front, v := vertices[..|vertices| - 1], vertices[|vertices| - 1];
      VerticesForOwn(hash, n, front, p, k);
      var part := VerticesFor(hash, n, front, p);
      if PartitionOf(hash, v.0, n) == p {
        assert (part + [v])[..|part|] == part;
      } else {
        assert part + [] == part;
      }
    }
  }

  lemma {:induction false} EdgesForOwn<K, E>(hash: K -> nat, n: nat, edges: seq<Edge<K, E>>, p: nat, e: Edge<K, E>)
    requires n > 0
    ensures multiset(EdgesFor(hash, n, edges, p))[e]
         == if PartitionOf(hash, e.src, n) == p then multiset(edges)[e] else 0
  {
    hide PartitionOf;
    if edges != [] {
      var front, last := edges[..|edges| - 1], edges[|edges| - 1];
      EdgesForOwn(hash, n, front, p, e);
      assert edges == front + [last];
      assert multiset(edges) == multiset(front) + multiset{last};
    }
  }

  lemma {:induction false} OwnOutEdges<K(!new), E(!new)>(hash: K -> nat, n: nat, edges: seq<Edge<K, E>>, k: K)
    requires n > 0
    ensures OutEdges(multiset(EdgesFor(hash, n, edges, PartitionOf(hash, k, n))), k) == OutEdges(multiset(edges), k)
  {
    hide PartitionOf;
    var mine := multiset(EdgesFor(hash, n, edges, PartitionOf(hash, k, n)));
    var a, b := OutEdges(mine, k), OutEdges(multiset(edges), k);
    assert AreOutEdges(mine, k, a) && AreOutEdges(multiset(edges), k, b);
    forall x: (K, E)
      ensures a[x] == b[x]
    {
      EdgesForOwn(hash, n, edges, PartitionOf(hash, k, n), Edge(k, x.0, x.1));
    }
  }

  /** The store holds these contents, in some order. */
  ghost predicate StoreHolds<K(!new), V, E(!new)>(store: Store<K, V, E>, c: Contents<K, V, E>) {
    && ValidStore(store)
    && store.verts == c.verts
    && (forall k {:trigger Out(store, k)} :: multiset(Out(store, k)) == OutEdges(c.edges, k))
  }

  /** A cluster whose workers hold their shares of a graph, and have received no message yet. */
  ghost predicate FreshlyLoaded<K(!new), V, E(!new), M, S>(
      hash: K -> nat, vertices: seq<(K, V)>, edges: seq<Edge<K, E>>, c: Cluster<K, V, E, M, S>)
  {
    && ValidCluster(c)
    && (forall i :: 0 <= i < |c.sites| ==>
          StoreHolds(c.sites[i].store, Share(hash, |c.sites|, vertices, edges, i)) && c.inboxes[i] == map[])
  }

  lemma {:induction false} SiteLoaded<K(!new), V(!new), E(!new), M(!new), S>(
      hash: K -> nat, vertices: seq<(K, V)>, edges: seq<Edge<K, E>>, c: Cluster<K, V, E, M, S>, i: nat)
    requires FreshlyLoaded(hash, vertices, edges, c) && i < |c.sites|
    ensures Sees(multiset(edges), Start<K, V, M>(PutAll(map[], vertices)), c.sites[i].store, c.inboxes[i])
  {
    hide PartitionOf, PutAll, AreOutEdges, AreMessagesTo, EdgesFor, VerticesFor;
    var n, store := |c.sites|, c.sites[i].store;
    forall k | k in store.verts
      ensures SeesVertex(multiset(edges), Start<K, V, M>(PutAll(map[], vertices)), store, c.inboxes[i], k)
    {
      VerticesForOwn(hash, n, vertices, i, k);
      OwnOutEdges(hash, n, edges, k);
      NothingWaits<K, M>(k);
    }
  }

  lemma {:induction false} SitesOwn<K(!new), V(!new), E(!new), M(!new), S>(
      hash: K -> nat, vertices: seq<(K, V)>, edges: seq<Edge<K, E>>, c: Cluster<K, V, E, M, S>)
    requires FreshlyLoaded(hash, vertices, edges, c)
    ensures Owned(hash, PutAll(map[], vertices), c)
  {
    hide PartitionOf, PutAll, AreOutEdges, EdgesFor, VerticesFor;
    var n, all := |c.sites|, PutAll(map[], vertices);
    forall i: nat, k | i < n && k in c.sites[i].store.verts
      ensures k in all && PartitionOf(hash, k, n) == i
    {
      assert StoreHolds(c.sites[i].store, Share(hash, n, vertices, edges, i));
      VerticesForOwn(hash, n, vertices, i, k);
    }
    forall k | k in all
      ensures k in c.sites[PartitionOf(hash, k, n)].store.verts
    {
      var p := PartitionOf(hash, k, n);
      assert StoreHolds(c.sites[p].store, Share(hash, n, vertices, edges, p));
      VerticesForOwn(hash, n, vertices, p, k);
    }
  }

  /** However it was loaded, the cluster represents the whole graph at the start of a run. */
  lemma {:induction false} LoadedRepresents<K(!new), V(!new), E(!new), M(!new), S>(
      hash: K -> nat, vertices: seq<(K, V)>, edges: seq<Edge<K, E>>, c: Cluster<K, V, E, M, S>)
    requires FreshlyLoaded(hash, vertices, edges, c)
    ensures Represents(hash, multiset(edges), c, Start(PutAll(map[], vertices)))
  {
    SitesOwn(hash, vertices, edges, c);
    hide StoreHolds, Sees, Owned;
    forall i | 0 <= i < |c.sites|
      ensures Sees(multiset(edges), Start<K, V, M>(PutAll(map[], vertices)), c.sites[i].store, c.inboxes[i])
    {
      SiteLoaded(hash, vertices, edges, c, i);
    }
  }
}
