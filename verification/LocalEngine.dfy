/** What the local engines share: adjacency lists, and one superstep over one hash map of vertices,
    updated in place while it is being scanned.
 */
module LocalEngine {
  import opened Options
  import opened Bags
  import opened Bsp
  import opened Selection
  import opened Shuffle
  import opened WorkerCore
  import opened Refinement

  /** The out-edges of `k` in the order of the edge list. */
  function EdgesFrom<K(==), E>(edges: seq<Edge<K, E>>, k: K): seq<(K, E)> {
    if edges == [] then
      []
    else
      var e := edges[|edges| - 1];
      EdgesFrom(edges[..|edges| - 1], k) + (if e.src == k then [(e.dst, e.value)] else [])
  }

  lemma {:induction false} EdgesFromCounts<K, E>(edges: seq<Edge<K, E>>, k: K, x: (K, E))
    ensures multiset(EdgesFrom(edges, k))[x] == multiset(edges)[Edge(k, x.0, x.1)]
  {
    if edges != [] {
      var front, e := edges[..|edges| - 1], edges[|edges| - 1];
      EdgesFromCounts(front, k, x);
      var here := if e.src == k then [(e.dst, e.value)] else [];
      assert EdgesFrom(edges, k) == EdgesFrom(front, k) + here;
      assert multiset(EdgesFrom(edges, k)) == multiset(EdgesFrom(front, k)) + multiset(here);
      assert edges == front + [e];
      assert multiset(edges) == multiset(front) + multiset{e};
      assert multiset(here)[x] == multiset{e}[Edge(k, x.0, x.1)] by {
        assert e == Edge(e.src, e.dst, e.value) && x == (x.0, x.1);
      }
    }
  }

  /** The list of a vertex is that part of the edge list which starts at it, in the order of the edge list. */
  lemma {:induction false} EdgesFromInOrder<K, E>(edges: seq<Edge<K, E>>, k: K)
    ensures var es := EdgesFrom(edges, k);
            Keeps(edges, (e: Edge<K, E>) => e.src == k,
                  seq(|es|, i requires 0 <= i < |es| => Edge(k, es[i].0, es[i].1)))
  {
    hide Keeps;
    var mine := (e: Edge<K, E>) => e.src == k;
    var es := EdgesFrom(edges, k);
    var kept := seq(|es|, i requires 0 <= i < |es| => Edge(k, es[i].0, es[i].1));
    if edges == [] {
      KeepsNothing(mine);
      assert kept == [];
    } else {
      var front, last := edges[..|edges| - 1], edges[|edges| - 1];
      EdgesFromInOrder(front, k);
      var fs := EdgesFrom(front, k);
      var before := seq(|fs|, i requires 0 <= i < |fs| => Edge(k, fs[i].0, fs[i].1));
      KeepsMore(front, mine, before, last);
      assert edges == front + [last];
      assert kept == before + (if mine(last) then [last] else []);
    }
  }

  lemma {:induction false} EdgesFromAsBag<K(!new), E(!new)>(edges: seq<Edge<K, E>>, k: K)
    ensures multiset(EdgesFrom(edges, k)) == OutEdges(multiset(edges), k)
  {
    var a, b := multiset(EdgesFrom(edges, k)), OutEdges(multiset(edges), k);
    assert AreOutEdges(multiset(edges), k, b);
    forall x
      ensures a[x] == b[x]
    {
      EdgesFromCounts(edges, k, x);
    }
  }

  function Adjacent<K(==), E>(adjacency: map<K, seq<(K, E)>>, k: K): seq<(K, E)> {
    if k in adjacency then adjacency[k] else []
  }

  /** The keys of a hash map, in an order of no importance. */
  method ListKeys<K(==), V>(m: map<K, V>) returns (order: seq<K>)
    ensures Lists(order, m.Keys)
  {
    order := [];
    var todo := m.Keys;
    while todo != {}
      invariant todo <= m.Keys
      invariant Lists(order, m.Keys - todo)
      decreases |todo|
    {
      var k :| k in todo;
      order := order + [k];
      todo := todo - {k};
    }
  }

  /** The next inbox of the whole graph holds exactly the messages sent so far. */
  ghost predicate Posted<K(!new), M>(box: Inbox<K, M>, sent: seq<(K, M)>) {
    forall k :: Waiting(box, k) == SentTo(sent, k)
  }

  lemma PostOne<K(!new), M>(box: Inbox<K, M>, sent: seq<(K, M)>, target: K, msg: M)
    requires Posted(box, sent)
    ensures Posted(box[target := Waiting(box, target) + [msg]], sent + [(target, msg)])
  {
    var next := sent + [(target, msg)];
    assert next[..|next| - 1] == sent;
    forall k
      ensures Waiting(box[target := Waiting(box, target) + [msg]], k) == SentTo(next, k)
    {
      assert SentTo(next, k) == SentTo(sent, k) + (if target == k then [msg] else []);
    }
  }

  lemma PostedMessages<K(!new), M(!new)>(box: Inbox<K, M>, sent: seq<(K, M)>, k: K)
    requires Posted(box, sent)
    ensures multiset(Waiting(box, k)) == MessagesTo(multiset(sent), k)
  {
    var b := MessagesTo(multiset(sent), k);
    assert AreMessagesTo(multiset(sent), k, b);
    forall m
      ensures multiset(Waiting(box, k))[m] == b[m]
    {
      SentToAsBag(sent, k, m);
    }
  }

  lemma NothingWaits<K(!new), M(!new)>(k: K)
    ensures multiset(Waiting<K, M>(map[], k)) == MessagesTo<K, M>(multiset{}, k)
  {
    var b := MessagesTo<K, M>(multiset{}, k);
    assert AreMessagesTo(multiset{}, k, b);
    assert forall m :: b[m] == 0;
  }

  lemma BulkSteps<K(!new), V(!new), E(!new), M(!new)>(
      p: Program<K, V, E, M>, edges: multiset<Edge<K, E>>, st: State<K, V, M>, it: nat)
    ensures var m, next := Bulk(p, edges), Superstep(p, edges, st, it);
            m.step(st, it) == next && m.silent(next) == (next.pool == multiset{})
  {
    hide Superstep;
    assert Silent(Superstep(p, edges, st, it)) == (Superstep(p, edges, st, it).pool == multiset{});
  }

  lemma SameKeys<K(!new), V(!new), E(!new), M(!new)>(
      p: Program<K, V, E, M>, edges: multiset<Edge<K, E>>, st: State<K, V, M>, it: nat)
    ensures Superstep(p, edges, st, it).verts.Keys == st.verts.Keys
  {
  }

  /** What a vertex sees does not depend on the order in which vertices are listed. */
  lemma SeesInAnyOrder<K(!new), V, E(!new), M(!new)>(
      edges: multiset<Edge<K, E>>, st: State<K, V, M>, store: Store<K, V, E>, inbox: Inbox<K, M>, order: seq<K>)
    requires forall k :: k in store.verts ==> SeesVertex(edges, st, store, inbox, k)
    requires Lists(order, store.verts.Keys)
    ensures Sees(edges, st, store.(order := order), inbox)
  {
    forall k | k in store.verts
      ensures SeesVertex(edges, st, store.(order := order), inbox, k)
    {
      assert SeesVertex(edges, st, store, inbox, k);
    }
  }

  lemma ListingIsEmpty<K, V>(order: seq<K>, m: map<K, V>)
    requires Lists(order, m.Keys)
    ensures order == [] <==> m == map[]
    ensures forall i :: 0 <= i < |order| ==> order[i] in m
    ensures forall i, j :: 0 <= i < j < |order| ==> order[i] != order[j]
  {
    assert order != [] ==> order[0] in m;
    if m != map[] {
      var k :| k in m;
      assert k in order;
    }
  }

  // ---------------------------------------------------------------------------------------

  datatype LocalWorker<K(==), V, E, M, S> = LocalWorker(
    vertices: map<K, V>,
    adjacency: map<K, seq<(K, E)>>,
    inbox: Inbox<K, M>,
    outbox: seq<(K, M)>,
    func: S)

  ghost function StoreOf<K, V, E, M, S>(w: LocalWorker<K, V, E, M, S>, order: seq<K>): Store<K, V, E> {
    Store(order, w.vertices, w.adjacency)
  }

  /** Every vertex of the worker sees what it sees in the reference semantics. */
  ghost predicate Faithful<K(!new), V, E(!new), M(!new), S>(
      edges: multiset<Edge<K, E>>, st: State<K, V, M>, w: LocalWorker<K, V, E, M, S>)
  {
    forall k :: k in w.vertices ==> SeesVertex(edges, st, StoreOf(w, []), w.inbox, k)
  }

  /** The next listed vertex can be computed, and extends the scan. */
  lemma NextVertex<K(!new), V(!new), E(!new), M(!new), S(!new)>(
      alg: Alg<K, V, E, M, S>, p: Program<K, V, E, M>, ty: Typing<K, V, M, S>,
      edges: multiset<Edge<K, E>>, st: State<K, V, M>, it: nat,
      store: Store<K, V, E>, inbox: Inbox<K, M>, s: S, acc: Scan<K, V, M, S>, j: nat)
    requires Admissible(alg, p, ty) && OkState(ty, st, it) && it >= 1
    requires Sees(edges, st, store, inbox)
    requires store.order != [] ==> ty.ready(s, it)
    requires j < |store.order| && ScanTo(alg, store, s, inbox, it, j) == Some(acc)
    ensures var k := store.order[j];
            && k in store.verts
            && var r := alg.compute(acc.algo, k, store.verts[k], Out(store, k), Waiting(inbox, k), it);
               && r.Some?
               && ScanTo(alg, store, s, inbox, it, j + 1)
                  == Some(Scan(r.value.0,
                               acc.updates + (if r.value.1.Some? then [(k, r.value.1.value)] else []),
                               acc.outbox + r.value.2))
  {
    hide Admissible, OkState, SeesVertex, ScanOk;
    ScanCorrect(alg, p, ty, edges, st, it, store, inbox, s, j + 1);
  }

  /** In-place replacement and the list of updates stay in agreement. */
  lemma {:induction false} UpdateInPlace<K, V>(
      before: map<K, V>, updates: seq<(K, V)>, now: map<K, V>, k: K, update: Option<V>)
    requires now == PutAll(before, updates) && k in now
    ensures now[k := Updated(now[k], update)]
         == PutAll(before, updates + (if update.Some? then [(k, update.value)] else []))
  {
    if update.Some? {
      PutAllAppend(before, updates, k, update.value);
    } else {
      assert updates + [] == updates;
    }
  }

  /** An in-place scan on its way: `acc` holds the results of the first `j` listed vertices, whose
      values have already been replaced in `verts` and whose messages have been taken from `inbox`. */
  ghost predicate InPlace<K(!new), V(!new), E, M(!new), S>(
      alg: Alg<K, V, E, M, S>, store: Store<K, V, E>, s: S, box: Inbox<K, M>, it: nat, j: nat,
      acc: Scan<K, V, M, S>, verts: map<K, V>, inbox: Inbox<K, M>)
  {
    && j <= |store.order|
    && ScanTo(alg, store, s, box, it, j) == Some(acc)
    && verts == PutAll(store.verts, acc.updates)
    && (forall i :: j <= i < |store.order| ==>
          && store.order[i] in verts && store.order[i] in store.verts
          && verts[store.order[i]] == store.verts[store.order[i]]
          && Waiting(inbox, store.order[i]) == Waiting(box, store.order[i]))
  }

  lemma {:induction false} InPlaceBegins<K(!new), V(!new), E, M(!new), S>(
      alg: Alg<K, V, E, M, S>, store: Store<K, V, E>, s: S, box: Inbox<K, M>, it: nat)
    requires ValidStore(store)
    ensures InPlace(alg, store, s, box, it, 0, Scan(s, [], []), store.verts, box)
  {
    ListingIsEmpty(store.order, store.verts);
  }

  lemma {:induction false} InPlaceEnds<K(!new), V(!new), E, M(!new), S>(
      alg: Alg<K, V, E, M, S>, store: Store<K, V, E>, s: S, box: Inbox<K, M>, it: nat,
      acc: Scan<K, V, M, S>, verts: map<K, V>, inbox: Inbox<K, M>)
    requires InPlace(alg, store, s, box, it, |store.order|, acc, verts, inbox)
    ensures Process(alg, store, s, box, it) == Some(Processed(store.(verts := verts), acc.algo, acc.outbox))
  {
  }

  /** The vertices still to come are not touched by the computation of the next one. */
  lemma InPlaceKeeps<K(!new), V(!new), E, M(!new), S>(
      alg: Alg<K, V, E, M, S>, store: Store<K, V, E>, s: S, box: Inbox<K, M>, it: nat, j: nat,
      acc: Scan<K, V, M, S>, verts: map<K, V>, inbox: Inbox<K, M>, v: V)
    requires ValidStore(store) && j < |store.order| && InPlace(alg, store, s, box, it, j, acc, verts, inbox)
    ensures var k := store.order[j];
            var verts', inbox' := verts[k := v], map x | x in inbox && x != k :: inbox[x];
            forall i :: j + 1 <= i < |store.order| ==>
              && store.order[i] in verts' && store.order[i] in store.verts
              && verts'[store.order[i]] == store.verts[store.order[i]]
              && Waiting(inbox', store.order[i]) == Waiting(box, store.order[i])
  {
    hide ScanTo, PutAll;
    ListingIsEmpty(store.order, store.verts);
    hide Lists;
  }

  /** The next listed vertex can be computed; its value is replaced and its messages are taken. */
  lemma {:induction false} InPlaceNext<K(!new), V(!new), E(!new), M(!new), S(!new)>(
      alg: Alg<K, V, E, M, S>, p: Program<K, V, E, M>, ty: Typing<K, V, M, S>,
      edges: multiset<Edge<K, E>>, st: State<K, V, M>, it: nat,
      store: Store<K, V, E>, s: S, box: Inbox<K, M>, j: nat, acc: Scan<K, V, M, S>, verts: map<K, V>,
      inbox: Inbox<K, M>)
    requires Admissible(alg, p, ty) && OkState(ty, st, it) && it >= 1
    requires Sees(edges, st, store, box) && (store.order != [] ==> ty.ready(s, it))
    requires j < |store.order| && InPlace(alg, store, s, box, it, j, acc, verts, inbox)
    ensures var k := store.order[j];
            && k in verts
            && var r := alg.compute(acc.algo, k, verts[k], Out(store, k), Waiting(inbox, k), it);
               && r.Some?
               && InPlace(alg, store, s, box, it, j + 1,
                          Scan(r.value.0, acc.updates + (if r.value.1.Some? then [(k, r.value.1.value)] else []),
                               acc.outbox + r.value.2),
                          verts[k := Updated(verts[k], r.value.1)],
                          map x | x in inbox && x != k :: inbox[x])
  {
    hide Admissible, OkState, SeesVertex, ScanTo, PutAll, Lists, Out;
    NextVertex(alg, p, ty, edges, st, it, store, box, s, acc, j);
    var k := store.order[j];
    assert Waiting(inbox, k) == Waiting(box, k) && verts[k] == store.verts[k];
    hide Waiting;
    var r := alg.compute(acc.algo, k, verts[k], Out(store, k), Waiting(inbox, k), it).value;
    UpdateInPlace(store.verts, acc.updates, verts, k, r.1);
    InPlaceKeeps(alg, store, s, box, it, j, acc, verts, inbox, Updated(verts[k], r.1));
  }

  /** One superstep of one partition. Values are replaced while the scan is under way, yet the
      outcome is that of the distributed worker, which writes all its updates at the end. */
  method ComputePartition<K(!new, ==), V(!new), E(!new), M(!new), S(!new)>(
      alg: Alg<K, V, E, M, S>, w: LocalWorker<K, V, E, M, S>, iteration: nat,
      ghost p: Program<K, V, E, M>, ghost ty: Typing<K, V, M, S>,
      ghost edges: multiset<Edge<K, E>>, ghost st: State<K, V, M>)
    returns (w': LocalWorker<K, V, E, M, S>, keys: seq<K>)
    requires Admissible(alg, p, ty) && OkState(ty, st, iteration) && iteration >= 1
    requires Faithful(edges, st, w)
    requires w.vertices != map[] ==> ty.ready(w.func, iteration)
    ensures Lists(keys, w.vertices.Keys)
    ensures w'.adjacency == w.adjacency
    ensures Process(alg, StoreOf(w, keys), w.func, w.inbox, iteration)
         == Some(Processed(StoreOf(w', keys), w'.func, w'.outbox))
  {
    hide Admissible, OkState, SeesVertex, InPlace, Process;
    var vertices, inbox, func := w.vertices, w.inbox, w.func;
    var outbox: seq<(K, M)> := [];
    keys := ListKeys(vertices);
    ghost var store := StoreOf(w, keys);
    ghost var updates: seq<(K, V)> := [];
    SeesInAnyOrder(edges, st, StoreOf(w, []), w.inbox, keys);
    ListingIsEmpty(keys, w.vertices);
    InPlaceBegins(alg, store, w.func, w.inbox, iteration);
    hide Lists, Sees;
    for j := 0 to |keys|
      invariant InPlace(alg, store, w.func, w.inbox, iteration, j, Scan(func, updates, outbox), vertices, inbox)
    {
      InPlaceNext(alg, p, ty, edges, st, iteration, store, w.func, w.inbox, j, Scan(func, updates, outbox), vertices,
                  inbox);
      var vertexId := keys[j];
      var value := vertices[vertexId];
      var msgs := Waiting(inbox, vertexId);
      inbox := map k | k in inbox && k != vertexId :: inbox[k];
      var edgesOut := Adjacent(w.adjacency, vertexId);
      var r := alg.compute(func, vertexId, value, edgesOut, msgs, iteration);
      updates := updates + (if r.value.1.Some? then [(vertexId, r.value.1.value)] else []);
      func := r.value.0;
      vertices := vertices[vertexId := Updated(value, r.value.1)];
      outbox := outbox + r.value.2;
    }
    InPlaceEnds(alg, store, w.func, w.inbox, iteration, Scan(func, updates, outbox), vertices, inbox);
    w' := LocalWorker(vertices, w.adjacency, inbox, outbox, func);
  }
}
