/** The partitioned local engine: vertices are spread over partitions by hash, each partition runs
    its superstep on its own, and messages are exchanged between supersteps.
 */
module PartitionedGraph {
  import opened Options
  import opened Bags
  import opened Runs
  import opened Bsp
  import opened Shuffle
  import opened WorkerCore
  import opened Rounds
  import opened Refinement
  import opened LocalEngine

  datatype GraphPartition<K(==), V, E> = GraphPartition(vertices: map<K, V>, adjacency: map<K, seq<(K, E)>>)

  /** Every vertex lies in the partition of its owner, and in no other. */
  ghost predicate VerticesPlaced<K(!new), V, E>(
      hash: K -> nat, parts: seq<GraphPartition<K, V, E>>, verts: map<K, V>)
  {
    && |parts| >= 1
    && (forall i, k :: 0 <= i < |parts| && k in parts[i].vertices ==>
          k in verts && PartitionOf(hash, k, |parts|) == i && parts[i].vertices[k] == verts[k])
    && (forall k :: k in verts ==> k in parts[PartitionOf(hash, k, |parts|)].vertices)
  }

  /** The partition of a vertex lists its out-edges. */
  ghost predicate EdgesPlaced<K(!new), V, E>(
      hash: K -> nat, parts: seq<GraphPartition<K, V, E>>, edges: seq<Edge<K, E>>)
  {
    && |parts| >= 1
    && (forall k {:trigger PartitionOf(hash, k, |parts|)} {:trigger EdgesFrom(edges, k)} ::
          Adjacent(parts[PartitionOf(hash, k, |parts|)].adjacency, k) == EdgesFrom(edges, k))
  }

  ghost predicate Partitioned<K(!new), V, E>(
      hash: K -> nat, parts: seq<GraphPartition<K, V, E>>, verts: map<K, V>, edges: seq<Edge<K, E>>)
  {
    VerticesPlaced(hash, parts, verts) && EdgesPlaced(hash, parts, edges)
  }

  /** A vertex lies in the partition that its hash leaves modulo the number of partitions, with its
      value and its out-edges. */
  lemma {:induction false} PlacedByHash<K(!new), V, E>(
      hash: K -> nat, parts: seq<GraphPartition<K, V, E>>, verts: map<K, V>, edges: seq<Edge<K, E>>, i: nat, k: K)
    requires Partitioned(hash, parts, verts, edges) && i < |parts|
    ensures k in parts[i].vertices <==> k in verts && hash(k) % |parts| == i
    ensures k in parts[i].vertices ==>
              parts[i].vertices[k] == verts[k] && Adjacent(parts[i].adjacency, k) == EdgesFrom(edges, k)
  {
    Home(hash, k, |parts|);
    hide PartitionOf, EdgesFrom;
    assert Adjacent(parts[PartitionOf(hash, k, |parts|)].adjacency, k) == EdgesFrom(edges, k);
  }

  function PlaceVertex<K(==), V, E>(
      hash: K -> nat, parts: seq<GraphPartition<K, V, E>>, id: K, value: V): seq<GraphPartition<K, V, E>>
    requires |parts| >= 1
  {
    var p := PartitionOf(hash, id, |parts|);
    parts[p := parts[p].(vertices := parts[p].vertices[id := value])]
  }

  function PlaceEdge<K(==), V, E>(
      hash: K -> nat, parts: seq<GraphPartition<K, V, E>>, e: Edge<K, E>): seq<GraphPartition<K, V, E>>
    requires |parts| >= 1
  {
    var p := PartitionOf(hash, e.src, |parts|);
    parts[p := parts[p].(adjacency :=
      parts[p].adjacency[e.src := Adjacent(parts[p].adjacency, e.src) + [(e.dst, e.value)]])]
  }

  lemma NothingPlaced<K(!new), V, E>(hash: K -> nat, parts: seq<GraphPartition<K, V, E>>)
    requires |parts| >= 1 && forall i :: 0 <= i < |parts| ==> parts[i] == GraphPartition(map[], map[])
    ensures Partitioned(hash, parts, map[], [])
  {
    hide PartitionOf;
  }

  lemma SameAdjacencyPlaced<K(!new), V, E>(
      hash: K -> nat, parts: seq<GraphPartition<K, V, E>>, parts': seq<GraphPartition<K, V, E>>,
      edges: seq<Edge<K, E>>)
    requires EdgesPlaced(hash, parts, edges) && |parts'| == |parts|
    requires forall i :: 0 <= i < |parts| ==> parts'[i].adjacency == parts[i].adjacency
    ensures EdgesPlaced(hash, parts', edges)
  {
    hide PartitionOf;
    forall k
      ensures Adjacent(parts'[PartitionOf(hash, k, |parts'|)].adjacency, k) == EdgesFrom(edges, k)
    {
      assert Adjacent(parts[PartitionOf(hash, k, |parts|)].adjacency, k) == EdgesFrom(edges, k);
    }
  }

  lemma SameVerticesPlaced<K(!new), V, E>(
      hash: K -> nat, parts: seq<GraphPartition<K, V, E>>, parts': seq<GraphPartition<K, V, E>>, verts: map<K, V>)
    requires VerticesPlaced(hash, parts, verts) && |parts'| == |parts|
    requires forall i :: 0 <= i < |parts| ==> parts'[i].vertices == parts[i].vertices
    ensures VerticesPlaced(hash, parts', verts)
  {
    hide PartitionOf;
  }

  lemma PlacingVertex<K(!new), V, E>(
      hash: K -> nat, parts: seq<GraphPartition<K, V, E>>, verts: map<K, V>, id: K, value: V)
    requires Partitioned(hash, parts, verts, [])
    ensures Partitioned(hash, PlaceVertex(hash, parts, id, value), verts[id := value], [])
  {
    hide PartitionOf;
    var next := PlaceVertex(hash, parts, id, value);
    assert VerticesPlaced(hash, next, verts[id := value]) by {
      hide EdgesPlaced;
    }
    hide VerticesPlaced, EdgesPlaced;
    SameAdjacencyPlaced(hash, parts, next, []);
  }

  lemma PlacingEdge<K(!new), V, E>(
      hash: K -> nat, parts: seq<GraphPartition<K, V, E>>, verts: map<K, V>, edges: seq<Edge<K, E>>, e: Edge<K, E>)
    requires Partitioned(hash, parts, verts, edges)
    ensures Partitioned(hash, PlaceEdge(hash, parts, e), verts, edges + [e])
  {
    var next := PlaceEdge(hash, parts, e);
    hide PartitionOf, VerticesPlaced;
    SameVerticesPlaced(hash, parts, next, verts);
    forall k
      ensures Adjacent(next[PartitionOf(hash, k, |next|)].adjacency, k) == EdgesFrom(edges + [e], k)
    {
      assert (edges + [e])[..|edges|] == edges;
      assert Adjacent(parts[PartitionOf(hash, k, |parts|)].adjacency, k) == EdgesFrom(edges, k);
    }
  }

  // ---------------------------------------------------------------------------------------
  // One superstep of all partitions.

  /** The workers split the graph in state `st` between them, and their functions are ready. */
  ghost predicate WorkersHold<K(!new), V(!new), E(!new), M(!new), S>(
      hash: K -> nat, ty: Typing<K, V, M, S>, edges: multiset<Edge<K, E>>,
      st: State<K, V, M>, it: nat, ws: seq<LocalWorker<K, V, E, M, S>>)
  {
    && VerticesPlaced(hash, PartsOf(ws), st.verts)
    && (forall i :: 0 <= i < |ws| ==> Faithful(edges, st, ws[i]))
    && (forall i :: 0 <= i < |ws| && ws[i].vertices != map[] ==> ty.ready(ws[i].func, it))
  }

  ghost function PartsOf<K, V, E, M, S>(
      ws: seq<LocalWorker<K, V, E, M, S>>): (parts: seq<GraphPartition<K, V, E>>)
    ensures |parts| == |ws|
  {
    seq(|ws|, i requires 0 <= i < |ws| => GraphPartition(ws[i].vertices, ws[i].adjacency))
  }

  ghost function ClusterOf<K, V, E, M, S>(
      ws: seq<LocalWorker<K, V, E, M, S>>, keys: seq<seq<K>>): Cluster<K, V, E, M, S>
    requires |keys| == |ws|
  {
    Cluster(seq(|ws|, i requires 0 <= i < |ws| => Site(StoreOf(ws[i], keys[i]), ws[i].func)),
            seq(|ws|, i requires 0 <= i < |ws| => ws[i].inbox))
  }

  /** All messages of the first `i` workers, in worker order. */
  ghost function Outs<K, V, E, M, S>(ws: seq<LocalWorker<K, V, E, M, S>>, i: nat): seq<(K, M)>
    requires i <= |ws|
  {
    if i == 0 then [] else Outs(ws, i - 1) + ws[i - 1].outbox
  }

  /** Worker `w'` is worker `w` after superstep `it`, scanned in the order `keys`. */
  ghost predicate Stepped<K, V, E, M, S>(
      alg: Alg<K, V, E, M, S>, it: nat, w: LocalWorker<K, V, E, M, S>, keys: seq<K>, w': LocalWorker<K, V, E, M, S>)
  {
    && Lists(keys, w.vertices.Keys)
    && w'.adjacency == w.adjacency
    && Process(alg, StoreOf(w, keys), w.func, w.inbox, it)
       == Some(Processed(StoreOf(w', keys), w'.func, w'.outbox))
  }

  ghost predicate AllStepped<K, V, E, M, S>(
      alg: Alg<K, V, E, M, S>, it: nat,
      ws: seq<LocalWorker<K, V, E, M, S>>, keys: seq<seq<K>>, ws': seq<LocalWorker<K, V, E, M, S>>)
  {
    && |ws| == |keys| == |ws'|
    && (forall i :: 0 <= i < |ws| ==> Stepped(alg, it, ws[i], keys[i], ws'[i]))
  }

  lemma WorkersRepresent<K(!new), V(!new), E(!new), M(!new), S(!new)>(
      hash: K -> nat, ty: Typing<K, V, M, S>, edges: multiset<Edge<K, E>>,
      st: State<K, V, M>, it: nat, ws: seq<LocalWorker<K, V, E, M, S>>, keys: seq<seq<K>>)
    requires WorkersHold(hash, ty, edges, st, it, ws)
    requires |keys| == |ws| && forall i :: 0 <= i < |ws| ==> Lists(keys[i], ws[i].vertices.Keys)
    ensures Represents(hash, edges, ClusterOf(ws, keys), st)
    ensures Ready(ty, ClusterOf(ws, keys), it)
  {
    var c := ClusterOf(ws, keys);
    PlacedIsOwned(hash, st.verts, ws, keys);
    hide SeesVertex, VerticesPlaced, Owned;
    forall i | 0 <= i < |ws|
      ensures Sees(edges, st, c.sites[i].store, c.inboxes[i])
      ensures keys[i] != [] ==> ty.ready(ws[i].func, it)
    {
      assert Faithful(edges, st, ws[i]);
      SeesInAnyOrder(edges, st, StoreOf(ws[i], []), ws[i].inbox, keys[i]);
      ListingIsEmpty(keys[i], ws[i].vertices);
    }
  }

  lemma PlacedIsOwned<K(!new), V, E, M, S>(
      hash: K -> nat, verts: map<K, V>, ws: seq<LocalWorker<K, V, E, M, S>>, keys: seq<seq<K>>)
    requires VerticesPlaced(hash, PartsOf(ws), verts) && |keys| == |ws|
    ensures ValidCluster(ClusterOf(ws, keys))
    ensures Owned(hash, verts, ClusterOf(ws, keys))
  {
    hide PartitionOf;
    var c, parts := ClusterOf(ws, keys), PartsOf(ws);
    forall i, k | 0 <= i < |c.sites| && k in c.sites[i].store.verts
      ensures k in verts && PartitionOf(hash, k, |c.sites|) == i
    {
      assert k in parts[i].vertices;
    }
    forall k | k in verts
      ensures k in c.sites[PartitionOf(hash, k, |c.sites|)].store.verts
    {
      assert k in parts[PartitionOf(hash, k, |parts|)].vertices;
    }
  }

  lemma SteppedIsWork<K, V, E, M, S>(
      alg: Alg<K, V, E, M, S>, it: nat,
      ws: seq<LocalWorker<K, V, E, M, S>>, keys: seq<seq<K>>, ws': seq<LocalWorker<K, V, E, M, S>>, i: nat)
    requires AllStepped(alg, it, ws, keys, ws') && i < |ws|
    ensures Lists(keys[i], ws[i].vertices.Keys)
    ensures Work(alg, ClusterOf(ws, keys), it, i)
         == Some(Processed(StoreOf(ws'[i], keys[i]), ws'[i].func, ws'[i].outbox))
  {
    hide Process;
    assert Stepped(alg, it, ws[i], keys[i], ws'[i]);
  }

  lemma {:induction false} OutsAreStream<K, V, E, M, S>(
      alg: Alg<K, V, E, M, S>, it: nat,
      ws: seq<LocalWorker<K, V, E, M, S>>, keys: seq<seq<K>>, ws': seq<LocalWorker<K, V, E, M, S>>, i: nat)
    requires AllStepped(alg, it, ws, keys, ws') && |ws| >= 1 && i <= |ws|
    ensures Stream(alg, ClusterOf(ws, keys), it, i) == Outs(ws', i)
  {
    hide Work, Stepped;
    if i > 0 {
      OutsAreStream(alg, it, ws, keys, ws', i - 1);
      SteppedIsWork(alg, it, ws, keys, ws', i - 1);
    }
  }

  /** The exchange of messages between two supersteps. */
  ghost function Exchanged<K, V, E, M, S>(
      hash: K -> nat, ws: seq<LocalWorker<K, V, E, M, S>>): (r: seq<LocalWorker<K, V, E, M, S>>)
    requires |ws| >= 1
    ensures |r| == |ws|
  {
    var boxes := Route(hash, EmptyInboxes(|ws|), Outs(ws, |ws|));
    seq(|ws|, i requires 0 <= i < |ws| => ws[i].(inbox := boxes[i], outbox := []))
  }

  lemma NewSitesAreStepped<K, V, E, M, S>(
      alg: Alg<K, V, E, M, S>, it: nat,
      ws: seq<LocalWorker<K, V, E, M, S>>, keys: seq<seq<K>>, ws': seq<LocalWorker<K, V, E, M, S>>)
    requires AllStepped(alg, it, ws, keys, ws') && |ws| >= 1
    ensures Succeeds(alg, ClusterOf(ws, keys), it)
    ensures NewSites(alg, ClusterOf(ws, keys), it) == ClusterOf(ws', keys).sites
  {
    hide Work, Stepped;
    forall i | 0 <= i < |ws|
      ensures Work(alg, ClusterOf(ws, keys), it, i)
           == Some(Processed(StoreOf(ws'[i], keys[i]), ws'[i].func, ws'[i].outbox))
    {
      SteppedIsWork(alg, it, ws, keys, ws', i);
    }
  }

  lemma {:induction false} ExchangedCluster<K, V, E, M, S>(
      hash: K -> nat, ws: seq<LocalWorker<K, V, E, M, S>>, keys: seq<seq<K>>)
    requires |keys| == |ws| >= 1
    ensures ClusterOf(Exchanged(hash, ws), keys)
         == Cluster(ClusterOf(ws, keys).sites, Route(hash, EmptyInboxes(|ws|), Outs(ws, |ws|)))
  {
    hide Route, Outs;
    var c, boxes := ClusterOf(Exchanged(hash, ws), keys), Route(hash, EmptyInboxes(|ws|), Outs(ws, |ws|));
    assert c.sites == ClusterOf(ws, keys).sites;
    assert c.inboxes == boxes;
  }

  lemma {:induction false} WorkersMove<K, V, E, M, S>(
      job: Job<K, V, E, M, S>, it: nat,
      ws: seq<LocalWorker<K, V, E, M, S>>, keys: seq<seq<K>>, ws': seq<LocalWorker<K, V, E, M, S>>)
    requires AllStepped(job.alg, it, ws, keys, ws') && |ws| >= 1
    ensures var r := Round(job, ClusterOf(ws, keys), it);
            && r.Some?
            && r.value.0 == ClusterOf(Exchanged(job.hash, ws'), keys)
            && r.value.1 == (Outs(ws', |ws'|) != [])
  {
    NewSitesAreStepped(job.alg, it, ws, keys, ws');
    OutsAreStream(job.alg, it, ws, keys, ws', |ws|);
    ExchangedCluster(job.hash, ws', keys);
    hide Stepped, Succeeds, NewSites, Stream, Outs, Route, Exchanged;
  }

  lemma RepresentsWorkers<K(!new), V(!new), E(!new), M(!new), S(!new)>(
      hash: K -> nat, ty: Typing<K, V, M, S>, edges: multiset<Edge<K, E>>,
      st: State<K, V, M>, it: nat, ws: seq<LocalWorker<K, V, E, M, S>>, keys: seq<seq<K>>)
    requires |keys| == |ws|
    requires Represents(hash, edges, ClusterOf(ws, keys), st) && Ready(ty, ClusterOf(ws, keys), it)
    ensures WorkersHold(hash, ty, edges, st, it, ws)
  {
    var c := ClusterOf(ws, keys);
    forall i | 0 <= i < |ws|
      ensures Faithful(edges, st, ws[i])
      ensures ws[i].vertices != map[] ==> ty.ready(ws[i].func, it)
    {
      assert Sees(edges, st, c.sites[i].store, c.inboxes[i]);
      SeenIsFaithful(edges, st, ws[i], keys[i]);
      ListingIsEmpty(keys[i], ws[i].vertices);
    }
    OwnedIsPlaced(hash, edges, st, ws, keys);
    hide Sees, VerticesPlaced, Faithful, Owned;
  }

  lemma SeenIsFaithful<K(!new), V(!new), E(!new), M(!new), S(!new)>(
      edges: multiset<Edge<K, E>>, st: State<K, V, M>, w: LocalWorker<K, V, E, M, S>, keys: seq<K>)
    requires Sees(edges, st, StoreOf(w, keys), w.inbox)
    ensures Faithful(edges, st, w)
    ensures forall k :: k in w.vertices ==> k in st.verts && w.vertices[k] == st.verts[k]
  {
    forall k | k in w.vertices
      ensures SeesVertex(edges, st, StoreOf(w, []), w.inbox, k)
      ensures k in st.verts && w.vertices[k] == st.verts[k]
    {
      assert SeesVertex(edges, st, StoreOf(w, keys), w.inbox, k);
    }
  }

  lemma OwnedIsPlaced<K(!new), V(!new), E(!new), M(!new), S(!new)>(
      hash: K -> nat, edges: multiset<Edge<K, E>>,
      st: State<K, V, M>, ws: seq<LocalWorker<K, V, E, M, S>>, keys: seq<seq<K>>)
    requires |keys| == |ws|
    requires Represents(hash, edges, ClusterOf(ws, keys), st)
    ensures VerticesPlaced(hash, PartsOf(ws), st.verts)
  {
    var c, parts := ClusterOf(ws, keys), PartsOf(ws);
    forall i, k | 0 <= i < |parts| && k in parts[i].vertices
      ensures k in st.verts && PartitionOf(hash, k, |parts|) == i && parts[i].vertices[k] == st.verts[k]
    {
      assert k in c.sites[i].store.verts;
      assert Sees(edges, st, c.sites[i].store, c.inboxes[i]);
      SeenIsFaithful(edges, st, ws[i], keys[i]);
    }
    forall k | k in st.verts
      ensures k in parts[PartitionOf(hash, k, |parts|)].vertices
    {
      assert k in c.sites[PartitionOf(hash, k, |c.sites|)].store.verts;
    }
  }

  /** One superstep of all partitions followed by the exchange of messages is one superstep of the
      reference semantics. */
  lemma {:induction false} LocalRound<K(!new), V(!new), E(!new), M(!new), S(!new)>(
      job: Job<K, V, E, M, S>, p: Program<K, V, E, M>, ty: Typing<K, V, M, S>,
      edges: multiset<Edge<K, E>>, st: State<K, V, M>, it: nat,
      ws: seq<LocalWorker<K, V, E, M, S>>, keys: seq<seq<K>>, ws': seq<LocalWorker<K, V, E, M, S>>)
    requires Admissible(job.alg, p, ty) && OkState(ty, st, it) && it >= 1
    requires WorkersHold(job.hash, ty, edges, st, it, ws)
    requires AllStepped(job.alg, it, ws, keys, ws') && |ws'| >= 1
    ensures WorkersHold(job.hash, ty, edges, Superstep(p, edges, st, it), it + 1, Exchanged(job.hash, ws'))
    ensures Outs(ws', |ws'|) == [] <==> Superstep(p, edges, st, it).pool == multiset{}
  {
    hide Admissible, OkState, WorkersHold, Represents, Ready, Superstep, Outs, Round, Work, Exchanged, ClusterOf;
    forall i | 0 <= i < |ws|
      ensures Lists(keys[i], ws[i].vertices.Keys)
    {
      SteppedIsWork(job.alg, it, ws, keys, ws', i);
    }
    hide Stepped, Lists;
    WorkersRepresent(job.hash, ty, edges, st, it, ws, keys);
    WorkersMove(job, it, ws, keys, ws');
    RoundRefines(job, p, ty, edges, ClusterOf(ws, keys), st, it);
    RepresentsWorkers(job.hash, ty, edges, Superstep(p, edges, st, it), it + 1, Exchanged(job.hash, ws'), keys);
  }

  // ---------------------------------------------------------------------------------------
  // Flattening partitions back into one vertex list.

  /** The union of the first `i` partitions; later ones win, though none overlap. */
  ghost function Union<K, V, E>(parts: seq<GraphPartition<K, V, E>>, i: nat): map<K, V>
    requires i <= |parts|
  {
    if i == 0 then map[] else Union(parts, i - 1) + parts[i - 1].vertices
  }

  lemma {:induction false} UnionOfPlaced<K(!new), V, E>(
      hash: K -> nat, parts: seq<GraphPartition<K, V, E>>, verts: map<K, V>, i: nat)
    requires VerticesPlaced(hash, parts, verts) && i <= |parts|
    ensures forall k :: k in Union(parts, i) <==> k in verts && PartitionOf(hash, k, |parts|) < i
    ensures forall k :: k in Union(parts, i) ==> Union(parts, i)[k] == verts[k]
  {
    hide PartitionOf;
    if i > 0 {
      UnionOfPlaced(hash, parts, verts, i - 1);
    }
  }

  lemma {:induction false} UnionIsWhole<K(!new), V, E>(
      hash: K -> nat, parts: seq<GraphPartition<K, V, E>>, verts: map<K, V>)
    requires VerticesPlaced(hash, parts, verts)
    ensures Union(parts, |parts|) == verts
  {
    UnionOfPlaced(hash, parts, verts, |parts|);
    hide VerticesPlaced, Union;
  }

  ghost function Restricted<K, V>(m: map<K, V>, keys: seq<K>): map<K, V> {
    map k | k in m && k in keys :: m[k]
  }

  lemma RestrictedGrows<K, V>(base: map<K, V>, m: map<K, V>, keys: seq<K>, k: K)
    requires k in m
    ensures base + Restricted(m, keys + [k]) == (base + Restricted(m, keys))[k := m[k]]
  {
  }

  lemma {:induction false} EntriesCover<K, V>(base: map<K, V>, m: map<K, V>, order: seq<K>, list: seq<(K, V)>)
    requires |list| == |order|
    requires forall j :: 0 <= j < |list| ==> order[j] in m && list[j] == (order[j], m[order[j]])
    ensures PutAll(base, list) == base + Restricted(m, order)
  {
    if list == [] {
      assert Restricted(m, order) == map[];
    } else {
      var front, last := order[..|order| - 1], order[|order| - 1];
      EntriesCover(base, m, front, list[..|list| - 1]);
      assert order == front + [last];
      RestrictedGrows(base, m, front, last);
    }
  }

  /** The entries of a hash map, in an order of no importance: inserting them one by one anywhere
      adds the map. */
  method Entries<K(!new, ==), V(!new)>(m: map<K, V>) returns (list: seq<(K, V)>)
    ensures forall base {:trigger PutAll(base, list)} :: PutAll(base, list) == base + m
  {
    var order := ListKeys(m);
    list := seq(|order|, i requires 0 <= i < |order| => (order[i], m[order[i]]));
    forall base
      ensures PutAll(base, list) == base + m
    {
      EntriesCover(base, m, order, list);
      assert Restricted(m, order) == m;
    }
  }

  // ---------------------------------------------------------------------------------------

  /** Every partition runs its superstep; none touches another. */
  method StepAll<K(!new, ==), V(!new), E(!new), M(!new), S(!new)>(
      hash: K -> nat, alg: Alg<K, V, E, M, S>, workers: array<LocalWorker<K, V, E, M, S>>, iteration: nat,
      ghost p: Program<K, V, E, M>, ghost ty: Typing<K, V, M, S>, ghost edges: multiset<Edge<K, E>>,
      ghost st: State<K, V, M>)
    returns (ghost keys: seq<seq<K>>)
    requires Admissible(alg, p, ty) && OkState(ty, st, iteration) && iteration >= 1
    requires WorkersHold(hash, ty, edges, st, iteration, workers[..])
    modifies workers
    ensures AllStepped(alg, iteration, old(workers[..]), keys, workers[..])
  {
    hide Admissible, OkState, VerticesPlaced, Faithful, Process, Lists;
    ghost var ws := workers[..];
    keys := [];
    for i := 0 to workers.Length
      invariant |keys| == i
      invariant forall j :: i <= j < workers.Length ==> workers[j] == ws[j]
      invariant forall j :: 0 <= j < i ==> Stepped(alg, iteration, ws[j], keys[j], workers[j])
    {
      assert Faithful(edges, st, ws[i]);
      var w, listed := ComputePartition(alg, workers[i], iteration, p, ty, edges, st);
      keys := keys + [listed];
      workers[i] := w;
    }
  }

  lemma OutsStep<K, V, E, M, S>(ws: seq<LocalWorker<K, V, E, M, S>>, i: nat)
    requires i < |ws|
    ensures Outs(ws, i + 1) == Outs(ws, i) + ws[i].outbox
  {
  }

  /** The messages of all workers are drained into the inboxes of the next superstep. */
  method Exchange<K(!new, ==), V, E, M, S>(hash: K -> nat, workers: array<LocalWorker<K, V, E, M, S>>)
    returns (anyMsg: bool)
    requires workers.Length >= 1
    modifies workers
    ensures workers[..] == Exchanged(hash, old(workers[..]))
    ensures anyMsg == (Outs(old(workers[..]), workers.Length) != [])
  {
    hide Route, Outs, Deliver;
    ghost var ws := workers[..];
    var n := workers.Length;
    var nextInboxes := new Inbox<K, M>[n](_ => map[]);
    anyMsg := false;
    NothingRouted<K, V, E, M, S>(hash, ws);
    assert nextInboxes[..] == EmptyInboxes<K, M>(n);
    for i := 0 to n
      invariant nextInboxes[..] == Route(hash, EmptyInboxes(n), Outs(ws, i))
      invariant anyMsg == (Outs(ws, i) != [])
      invariant workers[..] == seq(n, j requires 0 <= j < n => if j < i then ws[j].(outbox := []) else ws[j])
    {
      assert workers[i] == workers[..][i] == ws[i];
      OutsStep(ws, i);
      RouteConcat(hash, EmptyInboxes(n), Outs(ws, i), ws[i].outbox);
      RouteOutbox(hash, workers[i].outbox, nextInboxes);
      anyMsg := anyMsg || workers[i].outbox != [];
      workers[i] := workers[i].(outbox := []);
    }
    ghost var boxes := nextInboxes[..];
    for i := 0 to n
      invariant forall j :: i <= j < n ==> nextInboxes[j] == boxes[j]
      invariant workers[..] == seq(n, j requires 0 <= j < n =>
                  if j < i then ws[j].(inbox := boxes[j], outbox := []) else ws[j].(outbox := []))
    {
      assert workers[i] == workers[..][i];
      workers[i] := workers[i].(inbox := nextInboxes[i]);
      nextInboxes[i] := map[];
    }
  }

  lemma {:induction false} NothingRouted<K, V, E, M, S>(hash: K -> nat, ws: seq<LocalWorker<K, V, E, M, S>>)
    requires |ws| >= 1
    ensures Outs(ws, 0) == []
    ensures Route(hash, EmptyInboxes<K, M>(|ws|), []) == EmptyInboxes<K, M>(|ws|)
  {
  }

  method PlaceVertices<K(!new, ==), V(!new), E(!new)>(
      hash: K -> nat, parts: array<GraphPartition<K, V, E>>, vertices: seq<(K, V)>)
    requires Partitioned(hash, parts[..], map[], [])
    modifies parts
    ensures Partitioned(hash, parts[..], PutAll(map[], vertices), [])
  {
    hide VerticesPlaced, EdgesPlaced;
    assert parts.Length >= 1 by {
      PlacedSomewhere(hash, parts[..], map[]);
    }
    for i := 0 to |vertices|
      invariant Partitioned(hash, parts[..], PutAll(map[], vertices[..i]), [])
    {
      ghost var before := parts[..];
      var (id, value) := vertices[i];
      PlacingVertex(hash, before, PutAll(map[], vertices[..i]), id, value);
      assert vertices[..i + 1][..i] == vertices[..i];
      var p := PartitionOf(hash, id, parts.Length);
      parts[p] := parts[p].(vertices := parts[p].vertices[id := value]);
      assert parts[..] == PlaceVertex(hash, before, id, value);
    }
    assert vertices[..|vertices|] == vertices;
  }

  method PlaceEdges<K(!new, ==), V(!new), E(!new)>(
      hash: K -> nat, parts: array<GraphPartition<K, V, E>>, edges: seq<Edge<K, E>>, ghost verts: map<K, V>)
    requires Partitioned(hash, parts[..], verts, [])
    modifies parts
    ensures Partitioned(hash, parts[..], verts, edges)
  {
    hide VerticesPlaced, EdgesPlaced;
    assert parts.Length >= 1 by {
      PlacedSomewhere(hash, parts[..], verts);
    }
    for i := 0 to |edges|
      invariant Partitioned(hash, parts[..], verts, edges[..i])
    {
      ghost var before := parts[..];
      var e := edges[i];
      PlacingEdge(hash, before, verts, edges[..i], e);
      assert edges[..i + 1] == edges[..i] + [e];
      var p := PartitionOf(hash, e.src, parts.Length);
      parts[p] := parts[p].(adjacency :=
        parts[p].adjacency[e.src := Adjacent(parts[p].adjacency, e.src) + [(e.dst, e.value)]]);
      assert parts[..] == PlaceEdge(hash, before, e);
    }
    assert edges[..|edges|] == edges;
  }

  lemma PlacedSomewhere<K(!new), V, E>(hash: K -> nat, parts: seq<GraphPartition<K, V, E>>, verts: map<K, V>)
    requires VerticesPlaced(hash, parts, verts)
    ensures |parts| >= 1
  {
  }

  /** Partitions to which no message has been sent yet. */
  lemma WorkersStart<K(!new), V(!new), E(!new), M(!new), S(!new)>(
      hash: K -> nat, alg: Alg<K, V, E, M, S>, p: Program<K, V, E, M>, ty: Typing<K, V, M, S>,
      edges: seq<Edge<K, E>>, parts: seq<GraphPartition<K, V, E>>, verts: map<K, V>,
      ws: seq<LocalWorker<K, V, E, M, S>>)
    requires Partitioned(hash, parts, verts, edges)
    requires Admissible(alg, p, ty) && OkStart(ty, verts)
    requires |ws| == |parts|
    requires forall i :: 0 <= i < |ws| ==>
               ws[i] == LocalWorker(parts[i].vertices, parts[i].adjacency, map[], [], alg.init)
    ensures OkState(ty, Start(verts), 1)
    ensures WorkersHold(hash, ty, multiset(edges), Start(verts), 1, ws)
  {
    hide OrderInsensitive, KeepsTyping, Faithful, EdgesPlaced;
    assert PartsOf(ws) == parts;
    forall i | 0 <= i < |ws|
      ensures Faithful(multiset(edges), Start<K, V, M>(verts), ws[i])
    {
      WorkerStarts<K, V, E, M, S>(hash, edges, parts, verts, i, ws[i]);
    }
    hide VerticesPlaced;
  }

  lemma WorkerStarts<K(!new), V(!new), E(!new), M(!new), S(!new)>(
      hash: K -> nat, edges: seq<Edge<K, E>>, parts: seq<GraphPartition<K, V, E>>, verts: map<K, V>, i: nat,
      w: LocalWorker<K, V, E, M, S>)
    requires Partitioned(hash, parts, verts, edges) && i < |parts|
    requires w.vertices == parts[i].vertices && w.adjacency == parts[i].adjacency && w.inbox == map[]
    ensures Faithful(multiset(edges), Start<K, V, M>(verts), w)
  {
    hide AreOutEdges, AreMessagesTo;
    forall k | k in w.vertices
      ensures SeesVertex(multiset(edges), Start<K, V, M>(verts), StoreOf(w, []), w.inbox, k)
    {
      assert PartitionOf(hash, k, |parts|) == i;
      EdgesFromAsBag(edges, k);
      assert Adjacent(parts[i].adjacency, k) == EdgesFrom(edges, k);
      NothingWaits<K, M>(k);
    }
  }

  /** Supersteps until the cap is passed or none of the partitions sends a message. */
  method RunWorkers<K(!new, ==), V(!new), E(!new), M(!new, ==), S(!new)>(
      hash: K -> nat, alg: Alg<K, V, E, M, S>, maxIterations: nat, workers: array<LocalWorker<K, V, E, M, S>>,
      ghost p: Program<K, V, E, M>, ghost ty: Typing<K, V, M, S>, ghost edges: multiset<Edge<K, E>>,
      ghost verts: map<K, V>)
    returns (ghost executed: nat)
    requires Admissible(alg, p, ty) && OkState(ty, Start(verts), 1)
    requires WorkersHold(hash, ty, edges, Start(verts), 1, workers[..])
    modifies workers
    ensures var (end, n) := Run(Bulk(p, edges), Start(verts), maxIterations);
            VerticesPlaced(hash, PartsOf(workers[..]), end.verts) && executed == n
  {
    hide Admissible, OkState, VerticesPlaced, Bulk, Superstep, AllStepped, Outs, Exchanged, Faithful;
    ghost var m := Bulk(p, edges);
    ghost var st: State<K, V, M> := Start(verts);
    var iteration: nat := 1;
    PlacedSomewhere(hash, PartsOf(workers[..]), verts);
    while iteration <= maxIterations
      invariant iteration >= 1
      invariant OkState(ty, st, iteration)
      invariant WorkersHold(hash, ty, edges, st, iteration, workers[..])
      invariant Run(m, Start(verts), maxIterations) == RunFrom(m, st, iteration, maxIterations)
      decreases maxIterations + 1 - iteration
    {
      hide WorkersHold;
      ghost var ws := workers[..];
      ghost var keys := StepAll(hash, alg, workers, iteration, p, ty, edges, st);
      LocalRound(Job(alg, hash, 0), p, ty, edges, st, iteration, ws, keys, workers[..]);
      AdmissibleKeepsTyping(alg, p, ty, edges, st, iteration);
      BulkSteps(p, edges, st, iteration);
      st := Superstep(p, edges, st, iteration);
      var anyMsg := Exchange(hash, workers);
      iteration := iteration + 1;
      if !anyMsg {
        break;
      }
    }
    executed := iteration - 1;
  }

  // ---------------------------------------------------------------------------------------
  // The sequential loop: one function and one outbox serve all partitions in turn.

  /** Partition `part` with the messages `box`, about to be computed by `func`. */
  function AsWorker<K, V, E, M, S>(
      part: GraphPartition<K, V, E>, box: Inbox<K, M>, func: S): LocalWorker<K, V, E, M, S>
  {
    LocalWorker(part.vertices, part.adjacency, box, [], func)
  }

  /** The partitions hold the graph in state `st`, and the one function is ready for it. */
  ghost predicate SharedHold<K(!new), V(!new), E(!new), M(!new), S>(
      hash: K -> nat, ty: Typing<K, V, M, S>, edges: multiset<Edge<K, E>>, st: State<K, V, M>, it: nat,
      parts: seq<GraphPartition<K, V, E>>, boxes: seq<Inbox<K, M>>, func: S)
  {
    && VerticesPlaced(hash, parts, st.verts) && |boxes| == |parts|
    && (forall i :: 0 <= i < |parts| ==> Faithful(edges, st, AsWorker(parts[i], boxes[i], func)))
    && (st.verts != map[] ==> ty.ready(func, it))
  }

  lemma ReadyAfter<K(!new), V(!new), E(!new), M(!new), S(!new)>(
      alg: Alg<K, V, E, M, S>, p: Program<K, V, E, M>, ty: Typing<K, V, M, S>,
      edges: multiset<Edge<K, E>>, st: State<K, V, M>, it: nat,
      w: LocalWorker<K, V, E, M, S>, keys: seq<K>, w': LocalWorker<K, V, E, M, S>)
    requires Admissible(alg, p, ty) && OkState(ty, st, it) && it >= 1
    requires Faithful(edges, st, w) && (w.vertices != map[] ==> ty.ready(w.func, it))
    requires Stepped(alg, it, w, keys, w')
    ensures w.vertices == map[] ==> w'.func == w.func
    ensures w.vertices != map[] ==> ty.ready(w'.func, it) && ty.ready(w'.func, it + 1)
  {
    hide Admissible, OkState, SeesVertex, Process;
    ListingIsEmpty(keys, w.vertices);
    SeesInAnyOrder(edges, st, StoreOf(w, []), w.inbox, keys);
    WorkCorrect(alg, p, ty, edges, st, it, StoreOf(w, keys), w.inbox, w.func);
  }

  lemma {:induction false} OutsPrefix<K, V, E, M, S>(
      ws: seq<LocalWorker<K, V, E, M, S>>, w: LocalWorker<K, V, E, M, S>, i: nat)
    requires i <= |ws|
    ensures Outs(ws + [w], i) == Outs(ws, i)
  {
    if i > 0 {
      OutsPrefix(ws, w, i - 1);
    }
  }

  lemma {:induction false} OutsExtend<K, V, E, M, S>(ws: seq<LocalWorker<K, V, E, M, S>>, w: LocalWorker<K, V, E, M, S>)
    ensures Outs(ws + [w], |ws| + 1) == Outs(ws, |ws|) + w.outbox
  {
    OutsPrefix(ws, w, |ws|);
  }

  /** What the vertices of a partition see does not depend on the function that computes them. */
  lemma FaithfulWhoever<K(!new), V, E(!new), M(!new), S>(
      edges: multiset<Edge<K, E>>, st: State<K, V, M>, part: GraphPartition<K, V, E>, box: Inbox<K, M>,
      func: S, func': S)
    requires Faithful(edges, st, AsWorker(part, box, func))
    ensures Faithful(edges, st, AsWorker(part, box, func'))
  {
    hide SeesVertex;
    forall k | k in part.vertices
      ensures SeesVertex(edges, st, StoreOf(AsWorker(part, box, func'), []), box, k)
    {
      assert SeesVertex(edges, st, StoreOf(AsWorker(part, box, func), []), box, k);
    }
  }

  lemma NonEmptyPart<K(!new), V, E>(hash: K -> nat, parts: seq<GraphPartition<K, V, E>>, verts: map<K, V>, i: nat)
    requires VerticesPlaced(hash, parts, verts) && i < |parts|
    ensures parts[i].vertices != map[] ==> verts != map[]
    ensures forall k :: k in parts[i].vertices ==> PartitionOf(hash, k, |parts|) == i
  {
    if parts[i].vertices != map[] {
      var k :| k in parts[i].vertices;
      assert k in verts;
    }
  }

  lemma SomePartNonEmpty<K(!new), V, E>(hash: K -> nat, parts: seq<GraphPartition<K, V, E>>, verts: map<K, V>)
    requires VerticesPlaced(hash, parts, verts) && verts != map[]
    ensures exists j :: 0 <= j < |parts| && parts[j].vertices != map[]
  {
    var k :| k in verts;
    assert k in parts[PartitionOf(hash, k, |parts|)].vertices;
  }

  /** The partitions, each with the function that is about to compute it, split the graph. */
  lemma SharedAreWorkers<K(!new), V(!new), E(!new), M(!new), S(!new)>(
      hash: K -> nat, ty: Typing<K, V, M, S>, edges: multiset<Edge<K, E>>, st: State<K, V, M>, it: nat,
      parts: seq<GraphPartition<K, V, E>>, boxes: seq<Inbox<K, M>>, func: S,
      ws: seq<LocalWorker<K, V, E, M, S>>)
    requires SharedHold(hash, ty, edges, st, it, parts, boxes, func)
    requires |ws| == |parts|
    requires forall j :: 0 <= j < |ws| ==> ws[j] == AsWorker(parts[j], boxes[j], ws[j].func)
    requires forall j :: 0 <= j < |ws| ==> (ws[j].vertices != map[] ==> ty.ready(ws[j].func, it))
    ensures WorkersHold(hash, ty, edges, st, it, ws)
    ensures |ws| >= 1
  {
    hide VerticesPlaced, Faithful;
    PlacedSomewhere(hash, parts, st.verts);
    assert PartsOf(ws) == parts;
    forall j | 0 <= j < |ws|
      ensures Faithful(edges, st, ws[j])
    {
      FaithfulWhoever(edges, st, parts[j], boxes[j], func, ws[j].func);
    }
  }

  lemma WorkersAreShared<K(!new), V(!new), E(!new), M(!new), S(!new)>(
      hash: K -> nat, ty: Typing<K, V, M, S>, edges: multiset<Edge<K, E>>, st: State<K, V, M>, it: nat,
      ws: seq<LocalWorker<K, V, E, M, S>>, boxes: seq<Inbox<K, M>>, func: S)
    requires WorkersHold(hash, ty, edges, st, it, ws)
    requires |boxes| == |ws| && forall j :: 0 <= j < |ws| ==> ws[j].inbox == boxes[j] && ws[j].outbox == []
    requires st.verts != map[] ==> ty.ready(func, it)
    ensures SharedHold(hash, ty, edges, st, it, PartsOf(ws), boxes, func)
  {
    hide VerticesPlaced, Faithful;
    var parts := PartsOf(ws);
    forall j | 0 <= j < |parts|
      ensures Faithful(edges, st, AsWorker(parts[j], boxes[j], func))
    {
      assert ws[j] == AsWorker(parts[j], boxes[j], ws[j].func);
      FaithfulWhoever(edges, st, parts[j], boxes[j], ws[j].func, func);
    }
  }

  lemma {:induction false} ExchangedParts<K, V, E, M, S>(hash: K -> nat, ws: seq<LocalWorker<K, V, E, M, S>>)
    requires |ws| >= 1
    ensures PartsOf(Exchanged(hash, ws)) == PartsOf(ws)
    ensures var boxes := Route(hash, EmptyInboxes(|ws|), Outs(ws, |ws|));
            forall j :: 0 <= j < |ws| ==>
              Exchanged(hash, ws)[j].inbox == boxes[j] && Exchanged(hash, ws)[j].outbox == []
  {
    hide Outs, Route;
  }

  lemma SameEmptiness<K(!new), V(!new), E(!new), M(!new)>(
      p: Program<K, V, E, M>, edges: multiset<Edge<K, E>>, st: State<K, V, M>, it: nat)
    ensures Superstep(p, edges, st, it).verts == map[] <==> st.verts == map[]
  {
    SameKeys(p, edges, st, it);
    hide Superstep;
    var next := Superstep(p, edges, st, it);
    assert next.verts.Keys == {} <==> next.verts == map[];
    assert st.verts.Keys == {} <==> st.verts == map[];
  }

  /** A round of the sequential loop is a round of workers whose functions are the successive
      states of the one function. */
  lemma {:induction false} SharedOutcome<K(!new), V(!new), E(!new), M(!new), S(!new)>(
      hash: K -> nat, alg: Alg<K, V, E, M, S>, p: Program<K, V, E, M>, ty: Typing<K, V, M, S>,
      edges: multiset<Edge<K, E>>, st: State<K, V, M>, it: nat,
      parts: seq<GraphPartition<K, V, E>>, boxes: seq<Inbox<K, M>>, func0: S,
      ws: seq<LocalWorker<K, V, E, M, S>>, keys: seq<seq<K>>, ws': seq<LocalWorker<K, V, E, M, S>>,
      func: S)
    requires Admissible(alg, p, ty) && OkState(ty, st, it) && it >= 1
    requires SharedHold(hash, ty, edges, st, it, parts, boxes, func0)
    requires |parts| == |ws| && AllStepped(alg, it, ws, keys, ws')
    requires forall j :: 0 <= j < |ws| ==> ws[j] == AsWorker(parts[j], boxes[j], ws[j].func)
    requires forall j :: 0 <= j < |ws| ==> (ws[j].vertices != map[] ==> ty.ready(ws[j].func, it))
    requires st.verts != map[] ==> ty.ready(func, it + 1)
    ensures |ws'| >= 1
    ensures SharedHold(hash, ty, edges, Superstep(p, edges, st, it), it + 1, PartsOf(ws'),
                       Route(hash, EmptyInboxes(|ws'|), Outs(ws', |ws'|)), func)
    ensures Outs(ws', |ws'|) == [] <==> Superstep(p, edges, st, it).pool == multiset{}
  {
    hide Admissible, OkState, Faithful, Superstep, VerticesPlaced, Stepped, Outs, Route, WorkersHold, Exchanged,
      PartsOf;
    SharedAreWorkers(hash, ty, edges, st, it, parts, boxes, func0, ws);
    hide SharedHold;
    LocalRound(Job(alg, hash, 0), p, ty, edges, st, it, ws, keys, ws');
    hide AllStepped;
    SameEmptiness(p, edges, st, it);
    ExchangedParts(hash, ws');
    WorkersAreShared(hash, ty, edges, Superstep(p, edges, st, it), it + 1, Exchanged(hash, ws'),
                     Route(hash, EmptyInboxes(|ws'|), Outs(ws', |ws'|)), func);
  }

  /** One partition's turn. A vertex fetches its messages by the hash of its id, which can only
      lead to the inbox of its own partition. */
  method ScanPartition<K(!new, ==), V(!new), E(!new), M(!new), S(!new)>(
      hash: K -> nat, alg: Alg<K, V, E, M, S>, part: GraphPartition<K, V, E>, inboxes: array<Inbox<K, M>>,
      func0: S, outbox0: seq<(K, M)>, iteration: nat, ghost home: nat,
      ghost p: Program<K, V, E, M>, ghost ty: Typing<K, V, M, S>, ghost edges: multiset<Edge<K, E>>,
      ghost st: State<K, V, M>)
    returns (part': GraphPartition<K, V, E>, func: S, outbox: seq<(K, M)>, ghost keys: seq<K>, ghost sent: seq<(K, M)>)
    requires Admissible(alg, p, ty) && OkState(ty, st, iteration) && iteration >= 1
    requires home < inboxes.Length
    requires forall k :: k in part.vertices ==> PartitionOf(hash, k, inboxes.Length) == home
    requires Faithful(edges, st, AsWorker(part, inboxes[home], func0))
    requires part.vertices != map[] ==> ty.ready(func0, iteration)
    modifies inboxes
    ensures forall i :: 0 <= i < inboxes.Length && i != home ==> inboxes[i] == old(inboxes[i])
    ensures outbox == outbox0 + sent
    ensures Stepped(alg, iteration, AsWorker(part, old(inboxes[home]), func0), keys,
                    LocalWorker(part'.vertices, part'.adjacency, inboxes[home], sent, func))
  {
    hide Admissible, OkState, SeesVertex, InPlace, PartitionOf, Process;
    ghost var box := inboxes[home];
    ghost var w := AsWorker(part, box, func0);
    var order := ListKeys(part.vertices);
    keys := order;
    ghost var store := StoreOf(w, keys);
    ghost var updates: seq<(K, V)> := [];
    var vertices := part.vertices;
    func, outbox, sent := func0, outbox0, [];
    SeesInAnyOrder(edges, st, StoreOf(w, []), box, keys);
    ListingIsEmpty(keys, part.vertices);
    InPlaceBegins(alg, store, func0, box, iteration);
    hide Lists, Sees;
    for j := 0 to |order|
      invariant keys == order
      invariant InPlace(alg, store, func0, box, iteration, j, Scan(func, updates, sent), vertices, inboxes[home])
      invariant outbox == outbox0 + sent
      invariant forall i :: 0 <= i < inboxes.Length && i != home ==> inboxes[i] == old(inboxes[i])
    {
      InPlaceNext(alg, p, ty, edges, st, iteration, store, func0, box, j, Scan(func, updates, sent), vertices,
                  inboxes[home]);
      var vertexId := order[j];
      var home' := PartitionOf(hash, vertexId, inboxes.Length);
      var msgs := Waiting(inboxes[home'], vertexId);
      var rest := inboxes[home'];
      inboxes[home'] := map k | k in rest && k != vertexId :: rest[k];
      var value := vertices[vertexId];
      var r := alg.compute(func, vertexId, value, Adjacent(part.adjacency, vertexId), msgs, iteration);
      updates := updates + (if r.value.1.Some? then [(vertexId, r.value.1.value)] else []);
      func := r.value.0;
      vertices := vertices[vertexId := Updated(value, r.value.1)];
      outbox := outbox + r.value.2;
      sent := sent + r.value.2;
    }
    part' := GraphPartition(vertices, part.adjacency);
    InPlaceEnds(alg, store, func0, box, iteration, Scan(func, updates, sent), vertices, inboxes[home]);
  }

  lemma KeepsAdjacency<K, V, E, M, S>(
      alg: Alg<K, V, E, M, S>, it: nat, w: LocalWorker<K, V, E, M, S>, keys: seq<K>, w': LocalWorker<K, V, E, M, S>)
    requires Stepped(alg, it, w, keys, w')
    ensures w'.adjacency == w.adjacency
  {
  }

  /** Some partitions have had their turn: `ws` is what they began with, each with the function as
      its predecessor left it, and `ws'` is what became of them. */
  ghost predicate TurnsTaken<K(!new), V(!new), E(!new), M(!new), S(!new)>(
      alg: Alg<K, V, E, M, S>, ty: Typing<K, V, M, S>, st: State<K, V, M>, it: nat,
      parts: seq<GraphPartition<K, V, E>>, boxes: seq<Inbox<K, M>>,
      now: seq<GraphPartition<K, V, E>>, nowBoxes: seq<Inbox<K, M>>,
      ws: seq<LocalWorker<K, V, E, M, S>>, keys: seq<seq<K>>, ws': seq<LocalWorker<K, V, E, M, S>>,
      func: S, outbox: seq<(K, M)>)
  {
    && |ws| == |ws'| == |keys| <= |parts| == |now| == |boxes| == |nowBoxes|
    && (forall j :: |ws| <= j < |parts| ==> now[j] == parts[j] && nowBoxes[j] == boxes[j])
    && (forall j :: 0 <= j < |ws| ==> ws[j] == AsWorker(parts[j], boxes[j], ws[j].func))
    && (forall j :: 0 <= j < |ws| ==> (ws[j].vertices != map[] ==> ty.ready(ws[j].func, it)))
    && (forall j :: 0 <= j < |ws| ==> Stepped(alg, it, ws[j], keys[j], ws'[j]))
    && (forall j :: 0 <= j < |ws| ==> now[j] == GraphPartition(ws'[j].vertices, ws'[j].adjacency))
    && outbox == Outs(ws', |ws'|)
    && (st.verts != map[] ==> ty.ready(func, it))
    && ((exists j :: 0 <= j < |ws| && parts[j].vertices != map[]) ==> ty.ready(func, it + 1))
  }

  lemma NoTurns<K(!new), V(!new), E(!new), M(!new), S(!new)>(
      hash: K -> nat, alg: Alg<K, V, E, M, S>, ty: Typing<K, V, M, S>, edges: multiset<Edge<K, E>>,
      st: State<K, V, M>, it: nat, parts: seq<GraphPartition<K, V, E>>, boxes: seq<Inbox<K, M>>, func: S)
    requires SharedHold(hash, ty, edges, st, it, parts, boxes, func)
    ensures TurnsTaken(alg, ty, st, it, parts, boxes, parts, boxes, [], [], [], func, [])
  {
    hide Faithful, VerticesPlaced;
  }

  /** The next partition is as the round began, and the function is ready for it. */
  lemma TurnComes<K(!new), V(!new), E(!new), M(!new), S(!new)>(
      hash: K -> nat, alg: Alg<K, V, E, M, S>, ty: Typing<K, V, M, S>, edges: multiset<Edge<K, E>>,
      st: State<K, V, M>, it: nat, parts: seq<GraphPartition<K, V, E>>, boxes: seq<Inbox<K, M>>, func0: S,
      now: seq<GraphPartition<K, V, E>>, nowBoxes: seq<Inbox<K, M>>,
      ws: seq<LocalWorker<K, V, E, M, S>>, keys: seq<seq<K>>, ws': seq<LocalWorker<K, V, E, M, S>>,
      func: S, outbox: seq<(K, M)>, i: nat)
    requires SharedHold(hash, ty, edges, st, it, parts, boxes, func0)
    requires TurnsTaken(alg, ty, st, it, parts, boxes, now, nowBoxes, ws, keys, ws', func, outbox)
    requires i == |ws| < |parts|
    ensures now[i] == parts[i] && nowBoxes[i] == boxes[i]
    ensures Faithful(edges, st, AsWorker(parts[i], boxes[i], func))
    ensures parts[i].vertices != map[] ==> ty.ready(func, it)
    ensures forall k :: k in parts[i].vertices ==> PartitionOf(hash, k, |parts|) == i
  {
    hide Faithful, VerticesPlaced, Stepped, Outs, PartitionOf;
    FaithfulWhoever(edges, st, parts[i], boxes[i], func0, func);
    NonEmptyPart(hash, parts, st.verts, i);
  }

  lemma TurnNext<K(!new), V(!new), E(!new), M(!new), S(!new)>(
      alg: Alg<K, V, E, M, S>, p: Program<K, V, E, M>, ty: Typing<K, V, M, S>, edges: multiset<Edge<K, E>>,
      st: State<K, V, M>, it: nat, parts: seq<GraphPartition<K, V, E>>, boxes: seq<Inbox<K, M>>,
      now: seq<GraphPartition<K, V, E>>, nowBoxes: seq<Inbox<K, M>>, nextBoxes: seq<Inbox<K, M>>,
      ws: seq<LocalWorker<K, V, E, M, S>>, keys: seq<seq<K>>, ws': seq<LocalWorker<K, V, E, M, S>>,
      func: S, outbox: seq<(K, M)>, i: nat, ks: seq<K>, w': LocalWorker<K, V, E, M, S>)
    requires Admissible(alg, p, ty) && OkState(ty, st, it) && it >= 1
    requires TurnsTaken(alg, ty, st, it, parts, boxes, now, nowBoxes, ws, keys, ws', func, outbox)
    requires i == |ws| < |parts| && |nextBoxes| == |nowBoxes|
    requires forall j :: i < j < |parts| ==> nextBoxes[j] == nowBoxes[j]
    requires Faithful(edges, st, AsWorker(parts[i], boxes[i], func))
    requires parts[i].vertices != map[] ==> ty.ready(func, it)
    requires Stepped(alg, it, AsWorker(parts[i], boxes[i], func), ks, w')
    ensures TurnsTaken(alg, ty, st, it, parts, boxes, now[i := GraphPartition(w'.vertices, w'.adjacency)], nextBoxes,
                       ws + [AsWorker(parts[i], boxes[i], func)], keys + [ks], ws' + [w'], w'.func, outbox + w'.outbox)
  {
    hide Admissible, OkState, Faithful, Stepped, Outs;
    ReadyAfter(alg, p, ty, edges, st, it, AsWorker(parts[i], boxes[i], func), ks, w');
    OutsExtend(ws', w');
  }

  /** All partitions have had their turn: the superstep is done, but for the exchange. */
  lemma {:induction false} TurnsOver<K(!new), V(!new), E(!new), M(!new), S(!new)>(
      hash: K -> nat, alg: Alg<K, V, E, M, S>, p: Program<K, V, E, M>, ty: Typing<K, V, M, S>,
      edges: multiset<Edge<K, E>>, st: State<K, V, M>, it: nat, parts: seq<GraphPartition<K, V, E>>,
      boxes: seq<Inbox<K, M>>, func0: S, now: seq<GraphPartition<K, V, E>>, nowBoxes: seq<Inbox<K, M>>,
      ws: seq<LocalWorker<K, V, E, M, S>>, keys: seq<seq<K>>, ws': seq<LocalWorker<K, V, E, M, S>>,
      func: S, outbox: seq<(K, M)>)
    requires Admissible(alg, p, ty) && OkState(ty, st, it) && it >= 1
    requires SharedHold(hash, ty, edges, st, it, parts, boxes, func0)
    requires TurnsTaken(alg, ty, st, it, parts, boxes, now, nowBoxes, ws, keys, ws', func, outbox) && |ws| == |parts|
    ensures |now| >= 1 && forall i :: 0 <= i < |now| ==> now[i].adjacency == parts[i].adjacency
    ensures SharedHold(hash, ty, edges, Superstep(p, edges, st, it), it + 1, now,
                       Route(hash, EmptyInboxes(|now|), outbox), func)
    ensures outbox == [] <==> Superstep(p, edges, st, it).pool == multiset{}
  {
    hide Admissible, OkState, Faithful, Superstep, Stepped, Outs, Route;
    assert now == PartsOf(ws');
    forall i | 0 <= i < |now|
      ensures now[i].adjacency == parts[i].adjacency
    {
      KeepsAdjacency(alg, it, ws[i], keys[i], ws'[i]);
    }
    if st.verts != map[] {
      SomePartNonEmpty(hash, parts, st.verts);
    }
    hide SharedHold;
    SharedOutcome(hash, alg, p, ty, edges, st, it, parts, boxes, func0, ws, keys, ws', func);
  }

  /** All partitions in turn, followed by the exchange of messages. */
  method SharedRound<K(!new, ==), V(!new), E(!new), M(!new), S(!new)>(
      hash: K -> nat, alg: Alg<K, V, E, M, S>, partitions: array<GraphPartition<K, V, E>>,
      inboxes: array<Inbox<K, M>>, func0: S, iteration: nat,
      ghost p: Program<K, V, E, M>, ghost ty: Typing<K, V, M, S>, ghost edges: multiset<Edge<K, E>>,
      ghost st: State<K, V, M>)
    returns (func: S, outbox: seq<(K, M)>)
    requires Admissible(alg, p, ty) && OkState(ty, st, iteration) && iteration >= 1
    requires SharedHold(hash, ty, edges, st, iteration, partitions[..], inboxes[..], func0)
    modifies partitions, inboxes
    ensures forall i :: 0 <= i < partitions.Length ==> partitions[i].adjacency == old(partitions[i].adjacency)
    ensures partitions.Length >= 1
    ensures SharedHold(hash, ty, edges, Superstep(p, edges, st, iteration), iteration + 1, partitions[..],
                       Route(hash, EmptyInboxes(partitions.Length), outbox), func)
    ensures outbox == [] <==> Superstep(p, edges, st, iteration).pool == multiset{}
  {
    hide Admissible, OkState, Faithful, Superstep, Stepped, SharedHold, TurnsTaken, PartitionOf, Route;
    func, outbox := func0, [];
    ghost var parts, boxes := partitions[..], inboxes[..];
    ghost var ws: seq<LocalWorker<K, V, E, M, S>>, ws': seq<LocalWorker<K, V, E, M, S>> := [], [];
    ghost var keys: seq<seq<K>> := [];
    SameLengths(hash, ty, edges, st, iteration, parts, boxes, func0);
    NoTurns(hash, alg, ty, edges, st, iteration, parts, boxes, func0);
    for i := 0 to partitions.Length
      invariant |ws| == i
      invariant TurnsTaken(alg, ty, st, iteration, parts, boxes, partitions[..], inboxes[..], ws, keys, ws', func,
                           outbox)
    {
      ghost var now, nowBoxes := partitions[..], inboxes[..];
      TurnComes(hash, alg, ty, edges, st, iteration, parts, boxes, func0, now, nowBoxes, ws, keys, ws', func,
                outbox, i);
      var part, f, out, ks, sent :=
        ScanPartition(hash, alg, partitions[i], inboxes, func, outbox, iteration, i, p, ty, edges, st);
      ghost var w' := LocalWorker(part.vertices, part.adjacency, inboxes[i], sent, f);
      TurnNext(alg, p, ty, edges, st, iteration, parts, boxes, now, nowBoxes, inboxes[..], ws, keys, ws', func,
               outbox, i, ks, w');
      partitions[i] := part;
      ws, ws', keys := ws + [AsWorker(parts[i], boxes[i], func)], ws' + [w'], keys + [ks];
      func, outbox := f, out;
    }
    TurnsOver(hash, alg, p, ty, edges, st, iteration, parts, boxes, func0, partitions[..], inboxes[..], ws, keys, ws',
              func, outbox);
  }

  lemma SameLengths<K(!new), V(!new), E(!new), M(!new), S(!new)>(
      hash: K -> nat, ty: Typing<K, V, M, S>, edges: multiset<Edge<K, E>>, st: State<K, V, M>, it: nat,
      parts: seq<GraphPartition<K, V, E>>, boxes: seq<Inbox<K, M>>, func: S)
    requires SharedHold(hash, ty, edges, st, it, parts, boxes, func)
    ensures |boxes| == |parts|
  {
  }

  lemma SharedStart<K(!new), V(!new), E(!new), M(!new), S(!new)>(
      hash: K -> nat, alg: Alg<K, V, E, M, S>, p: Program<K, V, E, M>, ty: Typing<K, V, M, S>,
      edges: seq<Edge<K, E>>, parts: seq<GraphPartition<K, V, E>>, verts: map<K, V>, boxes: seq<Inbox<K, M>>)
    requires Partitioned(hash, parts, verts, edges)
    requires Admissible(alg, p, ty) && OkStart(ty, verts)
    requires |boxes| == |parts| && forall i :: 0 <= i < |boxes| ==> boxes[i] == map[]
    ensures OkState(ty, Start(verts), 1)
    ensures SharedHold(hash, ty, multiset(edges), Start(verts), 1, parts, boxes, alg.init)
  {
    hide OrderInsensitive, KeepsTyping, Faithful, Partitioned;
    var ws: seq<LocalWorker<K, V, E, M, S>> :=
      seq(|parts|, i requires 0 <= i < |parts| => AsWorker(parts[i], map[], alg.init));
    WorkersStart(hash, alg, p, ty, edges, parts, verts, ws);
    assert PartsOf(ws) == parts;
    WorkersAreShared(hash, ty, multiset(edges), Start(verts), 1, ws, boxes, alg.init);
  }

  lemma HeldIsPlaced<K(!new), V(!new), E(!new), M(!new), S>(
      hash: K -> nat, ty: Typing<K, V, M, S>, edges: multiset<Edge<K, E>>, st: State<K, V, M>, it: nat,
      parts: seq<GraphPartition<K, V, E>>, boxes: seq<Inbox<K, M>>, func: S)
    requires SharedHold(hash, ty, edges, st, it, parts, boxes, func)
    ensures VerticesPlaced(hash, parts, st.verts)
  {
  }

  method MergeVertices<K(==), V, E, M, S>(workers: array<LocalWorker<K, V, E, M, S>>) returns (merged: map<K, V>)
    ensures merged == Union(PartsOf(workers[..]), workers.Length)
  {
    ghost var parts := PartsOf(workers[..]);
    merged := map[];
    for i := 0 to workers.Length
      invariant merged == Union(parts, i)
    {
      merged := merged + workers[i].vertices;
    }
  }

  class Graph<K(!new, ==), V(!new), E(!new)> {
    const hash: K -> nat
    const partitions: array<GraphPartition<K, V, E>>
    const allEdges: seq<Edge<K, E>>
    ghost var verts: map<K, V>

    ghost predicate Valid()
      reads this, partitions
    {
      Partitioned(hash, partitions[..], verts, allEdges)
    }

    constructor (hash: K -> nat, vertices: seq<(K, V)>, edges: seq<Edge<K, E>>, partitions: nat)
      ensures Valid() && fresh(this.partitions)
      ensures this.hash == hash && this.verts == PutAll(map[], vertices) && this.allEdges == edges
      ensures this.partitions.Length == (if partitions > 1 then partitions else 1)
    {
      var n := if partitions > 1 then partitions else 1;
      var parts := new GraphPartition<K, V, E>[n](_ => GraphPartition(map[], map[]));
      this.hash := hash;
      this.partitions := parts;
      this.allEdges := edges;
      this.verts := PutAll(map[], vertices);
      new;
      hide VerticesPlaced, EdgesPlaced, PutAll;
      NothingPlaced<K, V, E>(hash, parts[..]);
      PlaceVertices(hash, parts, vertices);
      PlaceEdges(hash, parts, edges, PutAll(map[], vertices));
    }

    /** The loop of the engine. Every partition has its own instance of the vertex function; the
        graph is first spread again when more parallelism is asked for than there are partitions. */
    method ComputeAlgorithm<M(!new, ==), S(!new)>(
        alg: Alg<K, V, E, M, S>, maxIterations: nat, parallelism: nat,
        ghost p: Program<K, V, E, M>, ghost ty: Typing<K, V, M, S>)
      returns (result: Graph<K, V, E>, ghost executed: nat)
      requires Valid()
      requires Admissible(alg, p, ty) && OkStart(ty, verts)
      ensures result.Valid() && result.hash == hash && result.allEdges == allEdges
      ensures result.partitions.Length == (if parallelism > partitions.Length then parallelism else partitions.Length)
      ensures var (end, n) := Run(Bulk(p, multiset(allEdges)), Start(verts), maxIterations);
              result.verts == end.verts && executed == n
    {
      hide Admissible, VerticesPlaced, EdgesPlaced, WorkersHold, Run, PutAll, Bulk, Union, PartsOf;
      PlacedSomewhere(hash, partitions[..], verts);
      var n := if parallelism > partitions.Length then parallelism else partitions.Length;
      var parts := partitions[..];
      if n != partitions.Length {
        var vertices := Vertices();
        var graph := new Graph(hash, vertices, allEdges, n);
        parts := graph.partitions[..];
      }
      var workers := new LocalWorker<K, V, E, M, S>[n](i requires 0 <= i < |parts| =>
        LocalWorker(parts[i].vertices, parts[i].adjacency, map[], [], alg.init));
      WorkersStart(hash, alg, p, ty, allEdges, parts, verts, workers[..]);
      executed := RunWorkers(hash, alg, maxIterations, workers, p, ty, multiset(allEdges), verts);
      UnionIsWhole(hash, PartsOf(workers[..]), Run(Bulk(p, multiset(allEdges)), Start(verts), maxIterations).0.verts);
      var merged := MergeVertices(workers);
      var entries := Entries(merged);
      result := new Graph(hash, entries, allEdges, n);
    }

    /** The loop without a cap. It ends because the run falls silent by superstep `bound`, and then
        leaves what a run capped at `bound` leaves. */
    method Compute<M(!new, ==), S(!new)>(
        alg: Alg<K, V, E, M, S>, ghost bound: nat, ghost p: Program<K, V, E, M>, ghost ty: Typing<K, V, M, S>)
      returns (ghost executed: nat)
      requires Valid()
      requires Admissible(alg, p, ty) && OkStart(ty, verts)
      requires bound >= 1 && Silent(After(Bulk(p, multiset(allEdges)), Start(verts), bound))
      modifies this`verts, partitions
      ensures Valid()
      ensures var (end, n) := Run(Bulk(p, multiset(allEdges)), Start(old(verts)), bound);
              verts == end.verts && executed == n
    {
      hide Admissible, VerticesPlaced, EdgesPlaced, SharedHold, OkState, OkStart, Bulk, Bsp.Superstep, Route, Deliver;
      ghost var all := multiset(allEdges);
      ghost var m := Bulk(p, all);
      ghost var first: State<K, V, M> := Start(verts);
      ghost var st := first;
      var func := alg.init;
      var n := partitions.Length;
      PlacedSomewhere(hash, partitions[..], verts);
      var inboxes := new Inbox<K, M>[n](_ => map[]);
      SharedStart<K, V, E, M, S>(hash, alg, p, ty, allEdges, partitions[..], verts, inboxes[..]);
      var iteration: nat := 1;
      while true
        invariant 1 <= iteration <= bound
        invariant inboxes.Length == partitions.Length == n && fresh(inboxes)
        invariant EdgesPlaced(hash, partitions[..], allEdges)
        invariant OkState(ty, st, iteration)
        invariant SharedHold(hash, ty, all, st, iteration, partitions[..], inboxes[..], func)
        invariant st == After(m, first, iteration - 1)
        invariant Run(m, first, bound) == RunFrom(m, st, iteration, bound)
        decreases bound - iteration
      {
        ghost var parts := partitions[..];
        ghost var next := Bsp.Superstep(p, all, st, iteration);
        var f, outbox := SharedRound(hash, alg, partitions, inboxes, func, iteration, p, ty, all, st);
        SameAdjacencyPlaced(hash, parts, partitions[..], allEdges);
        AdmissibleKeepsTyping(alg, p, ty, all, st, iteration);
        BulkSteps(p, all, st, iteration);
        HeldIsPlaced(hash, ty, all, next, iteration + 1, partitions[..],
                     Route(hash, EmptyInboxes(n), outbox), f);
        st := next;
        if outbox == [] {
          break;
        }
        var boxes := new Inbox<K, M>[n](_ => map[]);
        assert boxes[..] == EmptyInboxes<K, M>(n);
        RouteOutbox(hash, outbox, boxes);
        func, inboxes := f, boxes;
        iteration := iteration + 1;
      }
      verts := st.verts;
      executed := iteration;
    }

    method Vertices() returns (list: seq<(K, V)>)
      requires Valid()
      ensures PutAll(map[], list) == verts
    {
      hide VerticesPlaced, EdgesPlaced, PutAll;
      list := [];
      ghost var parts := partitions[..];
      NoUpdates<K, V>(map[]);
      for i := 0 to partitions.Length
        invariant PutAll(map[], list) == Union(parts, i)
      {
        var entries := Entries(partitions[i].vertices);
        PutAllConcat(map[], list, entries);
        list := list + entries;
      }
      UnionIsWhole(hash, parts, verts);
    }
  }

  lemma {:induction false} NoUpdates<K, V>(base: map<K, V>)
    ensures PutAll(base, []) == base
  {
  }
}
