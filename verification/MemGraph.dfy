/** The in-memory engine: one hash map of vertices, updated in place, no partitions. */
module MemGraph {
  import opened Options
  import opened Bags
  import opened Runs
  import opened Bsp
  import opened Shuffle
  import opened WorkerCore
  import opened Refinement
  import opened LocalEngine

  class InMemoryGraph<K(!new, ==), V(!new), E(!new)> {
    var vertices: map<K, V>
    const edges: seq<Edge<K, E>>
    var adjacency: map<K, seq<(K, E)>>

    /** The adjacency lists are those of the edge list. */
    ghost predicate Valid()
      reads this
    {
      forall k {:trigger EdgesFrom(edges, k)} :: Adjacent(adjacency, k) == EdgesFrom(edges, k)
    }

    constructor (vertices: seq<(K, V)>, edges: seq<Edge<K, E>>)
      ensures Valid()
      ensures this.edges == edges
      ensures this.vertices == PutAll(map[], vertices)
    {
      var vMap: map<K, V> := map[];
      for i := 0 to |vertices|
        invariant vMap == PutAll(map[], vertices[..i])
      {
        assert vertices[..i + 1][..i] == vertices[..i];
        vMap := vMap[vertices[i].0 := vertices[i].1];
      }
      assert vertices[..|vertices|] == vertices;
      var adj: map<K, seq<(K, E)>> := map[];
      for i := 0 to |edges|
        invariant forall k {:trigger EdgesFrom(edges[..i], k)} :: Adjacent(adj, k) == EdgesFrom(edges[..i], k)
      {
        var e := edges[i];
        ghost var before := adj;
        adj := adj[e.src := Adjacent(adj, e.src) + [(e.dst, e.value)]];
        forall k
          ensures Adjacent(adj, k) == EdgesFrom(edges[..i + 1], k)
        {
          assert edges[..i + 1][..i] == edges[..i];
          assert Adjacent(before, k) == EdgesFrom(edges[..i], k);
        }
      }
      assert edges[..|edges|] == edges;
      this.vertices := vMap;
      this.edges := edges;
      this.adjacency := adj;
    }

    ghost function StoreBy(order: seq<K>): Store<K, V, E>
      reads this
    {
      Store(order, vertices, adjacency)
    }

    /** One superstep over all vertices: values are replaced and messages posted as the scan goes,
        yet the outcome is that of a worker that defers its updates. */
    method Superstep<M(!new, ==), S(!new)>(
        alg: Alg<K, V, E, M, S>, func0: S, messages0: Inbox<K, M>, iteration: nat,
        ghost p: Program<K, V, E, M>, ghost ty: Typing<K, V, M, S>, ghost st: State<K, V, M>)
      returns (func: S, nextMessages: Inbox<K, M>, msgCount: nat, allKeys: seq<K>, ghost sent: seq<(K, M)>)
      requires Admissible(alg, p, ty) && OkState(ty, st, iteration) && iteration >= 1
      requires Holds(ty, multiset(edges), st, iteration, StoreBy([]), messages0, func0)
      modifies this`vertices
      ensures Lists(allKeys, old(vertices).Keys)
      ensures Process(alg, old(StoreBy(allKeys)), func0, messages0, iteration)
           == Some(Processed(StoreBy(allKeys), func, sent))
      ensures Posted(nextMessages, sent) && msgCount == |sent|
    {
      hide Admissible, OkState, SeesVertex, InPlace, Process, Posted;
      func := func0;
      var messages := messages0;
      nextMessages, msgCount, sent := map[], 0, [];
      allKeys := ListKeys(vertices);
      ghost var store := StoreBy(allKeys);
      ghost var updates: seq<(K, V)> := [];
      SeesInAnyOrder(multiset(edges), st, StoreBy([]), messages0, allKeys);
      ListingIsEmpty(allKeys, vertices);
      InPlaceBegins(alg, store, func0, messages0, iteration);
      PostedNothing<K, M>();
      hide Lists, Sees;
      for j := 0 to |allKeys|
        invariant InPlace(alg, store, func0, messages0, iteration, j, Scan(func, updates, sent), vertices, messages)
        invariant Posted(nextMessages, sent) && msgCount == |sent|
      {
        InPlaceNext(alg, p, ty, multiset(edges), st, iteration, store, func0, messages0, j, Scan(func, updates, sent),
                    vertices, messages);
        var vId := allKeys[j];
        var value := vertices[vId];
        var edgesOut := Adjacent(adjacency, vId);
        var msgs := Waiting(messages, vId);
        messages := map k | k in messages && k != vId :: messages[k];
        var r := alg.compute(func, vId, value, edgesOut, msgs, iteration);
        updates := updates + (if r.value.1.Some? then [(vId, r.value.1.value)] else []);
        func := r.value.0;
        vertices := vertices[vId := Updated(value, r.value.1)];
        nextMessages, msgCount, sent := PostAll(nextMessages, msgCount, sent, r.value.2);
      }
      InPlaceEnds(alg, store, func0, messages0, iteration, Scan(func, updates, sent), vertices, messages);
    }

    /** The loop of the engine, for any vertex function that is observed as `p`. The graph ends up
        with the vertex map of the reference run. */
    method RunWithFunction<M(!new, ==), S(!new)>(
        alg: Alg<K, V, E, M, S>, maxIterations: nat, ghost p: Program<K, V, E, M>, ghost ty: Typing<K, V, M, S>)
      returns (executed: nat)
      requires Valid()
      requires Admissible(alg, p, ty) && OkStart(ty, vertices)
      modifies this`vertices
      ensures Valid()
      ensures var (end, n) := Run(Bulk(p, multiset(edges)), Start(old(vertices)), maxIterations);
              vertices == end.verts && executed == n
    {
      hide Admissible, OkState, Bulk, SeesVertex, Process, Posted, Lists, Bsp.Superstep;
      ghost var all := multiset(edges);
      ghost var m := Bulk(p, all);
      ghost var st: State<K, V, M> := Start(vertices);
      var messages: Inbox<K, M> := map[];
      var func := alg.init;
      var iteration: nat := 1;
      StartIsSeen(p, ty, alg, edges, vertices, adjacency);
      while iteration <= maxIterations
        invariant Valid() && iteration >= 1
        invariant OkState(ty, st, iteration)
        invariant Holds(ty, all, st, iteration, StoreBy([]), messages, func)
        invariant Run(m, Start(old(vertices)), maxIterations) == RunFrom(m, st, iteration, maxIterations)
        decreases maxIterations + 1 - iteration
      {
        ghost var before := StoreBy([]);
        var f, nextMessages, msgCount, allKeys, sent := Superstep(alg, func, messages, iteration, p, ty, st);
        WholeGraphStep(alg, p, ty, all, st, iteration, before, messages, func,
                       allKeys, vertices, f, sent, nextMessages);
        AdmissibleKeepsTyping(alg, p, ty, all, st, iteration);
        BulkSteps(p, all, st, iteration);
        st := Bsp.Superstep(p, all, st, iteration);
        func, messages := f, nextMessages;
        iteration := iteration + 1;
        if msgCount == 0 {
          break;
        }
      }
      executed := iteration - 1;
    }
  }

  lemma PostedNothing<K(!new), M>()
    ensures Posted<K, M>(map[], [])
  {
  }

  /** Posting the messages of one vertex, one by one. */
  method PostAll<K(!new, ==), M>(box0: Inbox<K, M>, count0: nat, ghost sent0: seq<(K, M)>, out: seq<(K, M)>)
    returns (box: Inbox<K, M>, count: nat, ghost sent: seq<(K, M)>)
    requires Posted(box0, sent0) && count0 == |sent0|
    ensures Posted(box, sent) && count == |sent|
    ensures sent == sent0 + out
  {
    hide Posted;
    box, count, sent := box0, count0, sent0;
    for i := 0 to |out|
      invariant Posted(box, sent) && count == |sent|
      invariant sent == sent0 + out[..i]
    {
      var (target, msg) := out[i];
      PostOne(box, sent, target, msg);
      box := box[target := Waiting(box, target) + [msg]];
      count := count + 1;
      sent := sent + [(target, msg)];
    }
  }

  lemma {:induction false} StartIsSeen<K(!new), V(!new), E(!new), M(!new), S(!new)>(
      p: Program<K, V, E, M>, ty: Typing<K, V, M, S>, alg: Alg<K, V, E, M, S>,
      edges: seq<Edge<K, E>>, verts: map<K, V>, adjacency: map<K, seq<(K, E)>>)
    requires OkStart(ty, verts) && Admissible(alg, p, ty)
    requires forall k {:trigger EdgesFrom(edges, k)} :: Adjacent(adjacency, k) == EdgesFrom(edges, k)
    ensures OkState(ty, Start(verts), 1)
    ensures Holds(ty, multiset(edges), Start(verts), 1, Store([], verts, adjacency), map[], alg.init)
  {
    hide OrderInsensitive, KeepsTyping;
    forall k | k in verts
      ensures SeesVertex(multiset(edges), Start<K, V, M>(verts), Store([], verts, adjacency), map[], k)
    {
      EdgesFromAsBag(edges, k);
      assert Adjacent(adjacency, k) == EdgesFrom(edges, k);
      NothingWaits<K, M>(k);
    }
  }

  /** The store holds the whole graph in state `st`, and its function is ready. */
  ghost predicate Holds<K(!new), V, E(!new), M(!new), S>(
      ty: Typing<K, V, M, S>, edges: multiset<Edge<K, E>>, st: State<K, V, M>, it: nat,
      store: Store<K, V, E>, inbox: Inbox<K, M>, s: S)
  {
    && store.verts == st.verts
    && (forall k :: k in store.verts ==> SeesVertex(edges, st, store, inbox, k))
    && (store.verts != map[] ==> ty.ready(s, it))
  }

  lemma WholeGraphOutcome<K(!new), V(!new), E(!new), M(!new), S(!new)>(
      alg: Alg<K, V, E, M, S>, p: Program<K, V, E, M>, ty: Typing<K, V, M, S>,
      edges: multiset<Edge<K, E>>, st: State<K, V, M>, it: nat, store: Store<K, V, E>, inbox: Inbox<K, M>, s: S)
    requires Admissible(alg, p, ty) && OkState(ty, st, it) && it >= 1
    requires Holds(ty, edges, st, it, store, inbox, s) && Lists(store.order, store.verts.Keys)
    ensures var r := Process(alg, store, s, inbox, it);
            && r.Some?
            && r.value.store.adj == store.adj
            && r.value.store.verts == Superstep(p, edges, st, it).verts
            && multiset(r.value.outbox) == Superstep(p, edges, st, it).pool
            && (store.order != [] ==> ty.ready(r.value.algo, it + 1))
  {
    hide Admissible, OkState, Process, NewVerts, Sends, SeesVertex;
    SeesInAnyOrder(edges, st, store, inbox, store.order);
    assert store.order != [] ==> store.order[0] in store.verts;
    WorkCorrect(alg, p, ty, edges, st, it, store, inbox, s);
    SendsKeys(p, edges, st, it);
    CollectListing(store.order, Sends(p, edges, st, it));
    var r := Process(alg, store, s, inbox, it).value;
    assert r.store.verts == NewVerts(p, edges, st, it);
  }

  /** A superstep of a store that holds the whole graph is a superstep of the reference semantics. */
  lemma WholeGraphStep<K(!new), V(!new), E(!new), M(!new), S(!new)>(
      alg: Alg<K, V, E, M, S>, p: Program<K, V, E, M>, ty: Typing<K, V, M, S>,
      edges: multiset<Edge<K, E>>, st: State<K, V, M>, it: nat,
      before: Store<K, V, E>, inbox: Inbox<K, M>, s: S,
      order: seq<K>, verts: map<K, V>, s': S, sent: seq<(K, M)>, nextBox: Inbox<K, M>)
    requires Admissible(alg, p, ty) && OkState(ty, st, it) && it >= 1
    requires Holds(ty, edges, st, it, before, inbox, s) && Lists(order, before.verts.Keys)
    requires Process(alg, before.(order := order), s, inbox, it)
          == Some(Processed(Store(order, verts, before.adj), s', sent))
    requires Posted(nextBox, sent)
    ensures var next := Superstep(p, edges, st, it);
            && Holds(ty, edges, next, it + 1, Store([], verts, before.adj), nextBox, s')
            && (sent == [] <==> next.pool == multiset{})
  {
    hide Admissible, OkState, Process, Superstep, Posted, SeesVertex;
    var store, next := before.(order := order), Superstep(p, edges, st, it);
    HoldsInAnyOrder(ty, edges, st, it, before, inbox, s, order);
    WholeGraphOutcome(alg, p, ty, edges, st, it, store, inbox, s);
    ListingIsEmpty(order, before.verts);
    hide Lists;
    assert sent != [] ==> sent[0] in multiset(sent);
    SameKeys(p, edges, st, it);
    forall k | k in verts
      ensures SeesVertex(edges, next, Store([], verts, before.adj), nextBox, k)
    {
      VertexSeesNext(edges, st, next, before, verts, inbox, sent, nextBox, k);
    }
    assert verts != map[] ==> before.verts != map[] by {
      assert verts.Keys == before.verts.Keys;
    }
  }

  lemma HoldsInAnyOrder<K(!new), V(!new), E(!new), M(!new), S(!new)>(
      ty: Typing<K, V, M, S>, edges: multiset<Edge<K, E>>, st: State<K, V, M>, it: nat,
      store: Store<K, V, E>, inbox: Inbox<K, M>, s: S, order: seq<K>)
    requires Holds(ty, edges, st, it, store, inbox, s)
    ensures Holds(ty, edges, st, it, store.(order := order), inbox, s)
  {
    forall k | k in store.verts
      ensures SeesVertex(edges, st, store.(order := order), inbox, k)
    {
      assert SeesVertex(edges, st, store, inbox, k);
    }
  }

  lemma VertexSeesNext<K(!new), V(!new), E(!new), M(!new)>(
      edges: multiset<Edge<K, E>>, st: State<K, V, M>, next: State<K, V, M>,
      before: Store<K, V, E>, verts: map<K, V>, inbox: Inbox<K, M>, sent: seq<(K, M)>, nextBox: Inbox<K, M>, k: K)
    requires k in verts && verts == next.verts && k in before.verts
    requires SeesVertex(edges, st, before, inbox, k)
    requires multiset(sent) == next.pool && Posted(nextBox, sent)
    ensures SeesVertex(edges, next, Store([], verts, before.adj), nextBox, k)
  {
    PostedMessages(nextBox, sent, k);
    assert Out(before, k) == Out(Store([], verts, before.adj), k);
  }
}
