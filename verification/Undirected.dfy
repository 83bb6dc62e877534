/** Labelling a graph that is loaded as undirected: two vertices get one label exactly when a path of
    the given edges, taken in either direction, joins them.
 */
module Undirected {
  import opened Options
  import opened Bsp
  import opened Shuffle
  import opened WorkerCore
  import opened Rounds
  import opened Loading
  import opened Codec
  import opened GraphStore
  import opened Walks
  import opened Wcc
  import opened EndToEnd
  import Launch
  import Protocol
  import Worker

  /** One of the edges joins the two, in one direction or the other. */
  ghost predicate Joined<K, E>(edges: seq<Edge<K, E>>, a: K, b: K) {
    exists i :: 0 <= i < |edges|
                && ((edges[i].src == a && edges[i].dst == b) || (edges[i].src == b && edges[i].dst == a))
  }

  /** A list of vertices from `u` to `v`, each joined to the next. */
  ghost predicate IsPath<K, E>(vs: set<K>, edges: seq<Edge<K, E>>, path: seq<K>, u: K, v: K) {
    && path != [] && path[0] == u && path[|path| - 1] == v
    && (forall i :: 0 <= i < |path| ==> path[i] in vs)
    && (forall i :: 0 < i < |path| ==> Joined(edges, path[i - 1], path[i]))
  }

  ghost predicate Connected<K(!new), E>(vs: set<K>, edges: seq<Edge<K, E>>, u: K, v: K) {
    exists path :: IsPath(vs, edges, path, u, v)
  }

  lemma {:induction false} LoadedBothWays<K, E>(edges: seq<Edge<K, E>>, e: Edge<K, E>)
    ensures e in multiset(Expanded(edges, true)) <==> e in edges || Edge(e.dst, e.src, e.value) in edges
    ensures e in multiset(Expanded(edges, true)) ==> Edge(e.dst, e.src, e.value) in multiset(Expanded(edges, true))
  {
    var back := Edge(e.dst, e.src, e.value);
    ExpandedCounts(edges, true, e);
    ExpandedCounts(edges, true, back);
    assert e in edges <==> e in multiset(edges);
    assert back in edges <==> back in multiset(edges);
  }

  /** An undirected load is symmetric, whatever the vertices. */
  lemma {:induction false} LoadedSymmetric<K(!new), E(!new)>(vs: set<K>, edges: seq<Edge<K, E>>)
    ensures Symmetric(vs, multiset(Expanded(edges, true)))
  {
    var all := multiset(Expanded(edges, true));
    forall e | e in all && e.src in vs && e.dst in vs
      ensures exists back :: back in all && back.src == e.dst && back.dst == e.src
    {
      LoadedBothWays(edges, e);
      assert Edge(e.dst, e.src, e.value) in all;
    }
  }

  lemma {:induction false} JoinedIsLoaded<K(!new), E(!new)>(edges: seq<Edge<K, E>>, a: K, b: K)
    ensures Joined(edges, a, b) <==> exists e :: e in multiset(Expanded(edges, true)) && e.src == a && e.dst == b
  {
    var all := multiset(Expanded(edges, true));
    if Joined(edges, a, b) {
      var i :| 0 <= i < |edges|
               && ((edges[i].src == a && edges[i].dst == b) || (edges[i].src == b && edges[i].dst == a));
      var e := if edges[i].src == a then edges[i] else Edge(a, b, edges[i].value);
      LoadedBothWays(edges, e);
      assert edges[i] in edges;
      assert e in all && e.src == a && e.dst == b;
    }
    if e :| e in all && e.src == a && e.dst == b {
      LoadedBothWays(edges, e);
      var there := if e in edges then e else Edge(b, a, e.value);
      assert there in edges;
      var i :| 0 <= i < |edges| && edges[i] == there;
    }
  }

  lemma {:induction false} WalkIsPath<K(!new), E(!new)>(
      vs: set<K>, edges: seq<Edge<K, E>>, u: K, w: seq<Edge<K, E>>, v: K)
    returns (path: seq<K>)
    requires IsWalk(vs, multiset(Expanded(edges, true)), u, w, v) && v in vs
    ensures IsPath(vs, edges, path, u, v)
  {
    if w == [] {
      path := [u];
    } else {
      var e := w[|w| - 1];
      var front := WalkIsPath(vs, edges, u, w[..|w| - 1], e.src);
      JoinedIsLoaded(edges, e.src, e.dst);
      path := front + [v];
      hide Joined;
      forall i | 0 < i < |path|
        ensures Joined(edges, path[i - 1], path[i])
      {
        if i < |front| {
          assert path[i - 1] == front[i - 1] && path[i] == front[i];
        }
      }
    }
  }

  lemma {:induction false} PathIsWalk<K(!new), E(!new)>(vs: set<K>, edges: seq<Edge<K, E>>, path: seq<K>, u: K, v: K)
    requires IsPath(vs, edges, path, u, v)
    ensures Reaches(vs, multiset(Expanded(edges, true)), u, v)
    decreases |path|
  {
    var all := multiset(Expanded(edges, true));
    if |path| == 1 {
      assert IsWalk(vs, all, u, [], v);
    } else {
      var x := path[|path| - 2];
      assert Joined(edges, x, v);
      hide Joined;
      PathIsWalk(vs, edges, path[..|path| - 1], u, x);
      JoinedIsLoaded(edges, x, v);
      var e :| e in all && e.src == x && e.dst == v;
      hide Expanded;
      assert IsWalk(vs, all, x, [], x);
      assert [e][..0] == [];
      assert IsWalk(vs, all, x, [e], v);
      ReachesThrough(vs, all, u, x, v);
    }
  }

  /** Reachability in what an undirected load stores is connection by the given edges. */
  lemma {:induction false} ReachesIsConnected<K(!new), E(!new)>(vs: set<K>, edges: seq<Edge<K, E>>, u: K, v: K)
    requires v in vs
    ensures Reaches(vs, multiset(Expanded(edges, true)), u, v) <==> Connected(vs, edges, u, v)
  {
    hide IsWalk, IsPath, Expanded;
    if Reaches(vs, multiset(Expanded(edges, true)), u, v) {
      var w :| IsWalk(vs, multiset(Expanded(edges, true)), u, w, v);
      var path := WalkIsPath(vs, edges, u, w, v);
    }
    if Connected(vs, edges, u, v) {
      var path :| IsPath(vs, edges, path, u, v);
      PathIsWalk(vs, edges, path, u, v);
    }
  }

  lemma {:induction false} SameLabelExactlyWhenConnected(
      hash: Bytes -> nat, c: Cluster<Bytes, Bytes, Bytes, Bytes, ()>, verts: map<Bytes, Bytes>,
      edges: seq<StoredEdge>, a: Bytes, b: Bytes)
    requires EncodedVertices(verts) && a in verts && b in verts
    requires ComponentsFound(hash, c, verts, multiset(Expanded(edges, true)))
    ensures var la, lb := ValueOf(hash, c, a), ValueOf(hash, c, b);
            && la.Some? && lb.Some?
            && (Number(la.value) == Number(lb.value) <==> Connected(verts.Keys, edges, a, b))
  {
    hide LeastReaching, Symmetric, Connected, Expanded, Number, ValueOf, Reaches;
    var all := multiset(Expanded(edges, true));
    LoadedSymmetric(verts.Keys, edges);
    ReachesIsConnected(verts.Keys, edges, a, b);
    var la, lb := ValueOf(hash, c, a), ValueOf(hash, c, b);
    SharedLabelMeansConnected(verts.Keys, all, a, Number(la.value), b, Number(lb.value));
  }

  /** Labelling after an undirected load, end to end: under any schedule, on any number of workers, a
      job that is over has given two vertices one label exactly when they are connected. */
  lemma {:induction false} UndirectedComponents(
      job: Job<Bytes, Bytes, Bytes, Bytes, ()>, vertices: seq<(Bytes, Bytes)>, edges: seq<StoredEdge>,
      c0: Cluster<Bytes, Bytes, Bytes, Bytes, ()>,
      sys: Protocol.System<Bytes, Bytes, Bytes, Bytes, ()>, schedule: seq<Protocol.Step<Bytes, Bytes>>,
      end: Protocol.System<Bytes, Bytes, Bytes, Bytes, ()>, a: Bytes, b: Bytes)
    requires WccLaunched(job, vertices, Expanded(edges, true), c0)
    requires var verts := PutAll(map[], vertices);
             job.max >= 1 && job.max >= |verts| && a in verts && b in verts
    requires Protocol.Initial(sys, c0, 1) && Protocol.Leads(job, sys, schedule, end) && end.driver.Finished?
    ensures var c := Protocol.ClusterOf(end.links, end.driver.result);
            var la, lb := ValueOf(job.hash, c, a), ValueOf(job.hash, c, b);
            && la.Some? && lb.Some?
            && (Number(la.value) == Number(lb.value) <==> Connected(PutAll(map[], vertices).Keys, edges, a, b))
  {
    WccIsLaunched(job, vertices, Expanded(edges, true), c0);
    WccEverySchedule(job, vertices, Expanded(edges, true), c0, sys, schedule, end);
    hide *;
    SameLabelExactlyWhenConnected(
      job.hash, Protocol.ClusterOf(end.links, end.driver.result), PutAll(map[], vertices), edges, a, b);
  }

  /** The streaming load and the algorithm: from workers with empty stores to a labelling job on the
      graph with every edge in both directions. */
  method LaunchUndirected(
      hash: Bytes -> nat, vertices: seq<(Bytes, Bytes)>, edges: seq<StoredEdge>, workers: seq<Worker.Worker<()>>,
      vertexBatch: nat, edgeBatch: nat, ghost max: nat)
    requires |workers| >= 1 && Launch.Separate(workers) && EncodedInput(vertices) && edgeBatch <= INDEX_LIMIT
    requires forall e :: e in edges ==> EdgeFits(e)
    requires forall w :: w in workers ==> Launch.Connected(w, (), |vertices| + 2 * |edges| + 3 * |workers|)
    requires forall w :: w in workers ==> w.alg == WccAlg()
    modifies Launch.States(workers), Launch.Counters(workers), set w | w in workers :: w
    ensures WccLaunched(Job(WccAlg(), hash, max), vertices, Expanded(edges, true), Launch.ClusterOf(workers, ()))
    ensures forall i :: 0 <= i < |workers| ==>
              Launch.StandsBy(workers[i], Launch.ClusterOf(workers, ()).sites[i]) && Worker.SmallValues(workers[i].alg)
  {
    EncodedFits(vertices, edges);
    WccValuesAreSmall();
    hide *;
    Launch.LaunchStreamedJob(hash, vertices, edges, workers, vertexBatch, edgeBatch, true, ());
    WccLaunchedIs(hash, max, vertices, Expanded(edges, true), Launch.ClusterOf(workers, ()));
  }
}
