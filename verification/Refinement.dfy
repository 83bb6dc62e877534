/** A cluster computes the reference semantics, whatever the number of workers and the hash.

    A cluster represents a state of the unpartitioned graph when every vertex lies on the worker
    that owns it, with its value, its out-edges and its waiting messages. A superstep of the
    cluster takes a representation of a state to a representation of the next one.
 */
module Refinement {
  import opened Options
  import opened Bags
  import opened Runs
  import opened Bsp
  import opened Shuffle
  import opened WorkerCore
  import opened Rounds

  // ---------------------------------------------------------------------------------------
  // One worker.

  /** The worker's view of each of its vertices is the view of the reference semantics. */
  ghost predicate Sees<K(!new), V, E(!new), M(!new)>(
      edges: multiset<Edge<K, E>>, st: State<K, V, M>, store: Store<K, V, E>, inbox: Inbox<K, M>)
  {
    && ValidStore(store)
    && (forall k :: k in store.verts ==> SeesVertex(edges, st, store, inbox, k))
  }

  ghost predicate SeesVertex<K(!new), V, E(!new), M(!new)>(
      edges: multiset<Edge<K, E>>, st: State<K, V, M>, store: Store<K, V, E>, inbox: Inbox<K, M>, k: K)
    requires k in store.verts
  {
    && k in st.verts && store.verts[k] == st.verts[k]
    && multiset(Out(store, k)) == OutEdges(edges, k)
    && multiset(Waiting(inbox, k)) == MessagesTo(st.pool, k)
  }

  /** The scan after `j` vertices: their messages are collected, their updates recorded. */
  ghost predicate ScanOk<K(!new), V(!new), E(!new), M(!new), S>(
      p: Program<K, V, E, M>, ty: Typing<K, V, M, S>, edges: multiset<Edge<K, E>>,
      st: State<K, V, M>, it: nat, store: Store<K, V, E>, acc: Scan<K, V, M, S>, j: nat)
  {
    && j <= |store.order|
    && (forall x :: x in store.order ==> x in Sends(p, edges, st, it) && x in NewVerts(p, edges, st, it))
    && (j > 0 ==> ty.ready(acc.algo, it) && ty.ready(acc.algo, it + 1))
    && multiset(acc.outbox) == Collect(store.order[..j], Sends(p, edges, st, it))
    && HalfUpdated(store.verts, NewVerts(p, edges, st, it), store.order, acc.updates, j)
  }

  lemma {:induction false} PutAllAppend<K, V>(verts: map<K, V>, updates: seq<(K, V)>, k: K, v: V)
    ensures PutAll(verts, updates + [(k, v)]) == PutAll(verts, updates)[k := v]
  {
    assert (updates + [(k, v)])[..|updates|] == updates;
  }

  /** Computing one vertex does what the reference semantics does to it. */
  lemma VertexComputed<K(!new), V(!new), E(!new), M(!new), S(!new)>(
      alg: Alg<K, V, E, M, S>, p: Program<K, V, E, M>, ty: Typing<K, V, M, S>,
      edges: multiset<Edge<K, E>>, st: State<K, V, M>, it: nat,
      store: Store<K, V, E>, inbox: Inbox<K, M>, s: S, k: K)
    requires Admissible(alg, p, ty) && OkState(ty, st, it) && it >= 1
    requires k in store.verts && SeesVertex(edges, st, store, inbox, k)
    requires ty.ready(s, it)
    ensures var r := alg.compute(s, k, store.verts[k], Out(store, k), Waiting(inbox, k), it);
            && r.Some?
            && ty.ready(r.value.0, it) && ty.ready(r.value.0, it + 1)
            && Updated(store.verts[k], r.value.1) == NewVerts(p, edges, st, it)[k]
            && multiset(r.value.2) == Sends(p, edges, st, it)[k]
  {
    hide Admissible, OkState, NewVerts, Sends;
    ComputesAsReference(alg, p, ty, edges, st, it, s, k, Out(store, k), Waiting(inbox, k));
  }

  lemma FreshKey<K, V, E>(store: Store<K, V, E>, j: nat)
    requires ValidStore(store) && j < |store.order|
    ensures store.order[j] in store.verts
    ensures store.order[j] !in store.order[..j]
  {
  }

  /** The updates recorded so far leave the first `j` vertices new and the others old. */
  ghost predicate HalfUpdated<K, V>(verts: map<K, V>, news: map<K, V>, order: seq<K>, updates: seq<(K, V)>, j: nat)
    requires j <= |order| && forall k :: k in order ==> k in news
  {
    var now := PutAll(verts, updates);
    && now.Keys == verts.Keys
    && (forall k :: k in verts ==> now[k] == if k in order[..j] then news[k] else verts[k])
  }

  lemma HalfUpdatedStep<K, V>(
      verts: map<K, V>, news: map<K, V>, order: seq<K>, updates: seq<(K, V)>, j: nat, update: Option<V>)
    requires j < |order| && forall k :: k in order ==> k in news
    requires order[j] in verts && order[j] !in order[..j]
    requires HalfUpdated(verts, news, order, updates, j)
    requires Updated(verts[order[j]], update) == news[order[j]]
    ensures HalfUpdated(verts, news, order, updates + (if update.Some? then [(order[j], update.value)] else []), j + 1)
  {
    var k := order[j];
    assert order[..j + 1] == order[..j] + [k];
    if update.Some? {
      PutAllAppend(verts, updates, k, update.value);
    } else {
      assert updates + [] == updates;
    }
  }

  lemma ScanStep<K(!new), V(!new), E(!new), M(!new), S(!new)>(
      p: Program<K, V, E, M>, ty: Typing<K, V, M, S>,
      edges: multiset<Edge<K, E>>, st: State<K, V, M>, it: nat,
      store: Store<K, V, E>, acc: Scan<K, V, M, S>, j: nat,
      algo: S, update: Option<V>, sends: seq<(K, M)>)
    requires j < |store.order| && store.order[j] in store.verts && store.order[j] !in store.order[..j]
    requires ScanOk(p, ty, edges, st, it, store, acc, j)
    requires var k := store.order[j];
             && ty.ready(algo, it) && ty.ready(algo, it + 1)
             && Updated(store.verts[k], update) == NewVerts(p, edges, st, it)[k]
             && multiset(sends) == Sends(p, edges, st, it)[k]
    ensures var k := store.order[j];
            var next :=
              Scan(algo, acc.updates + (if update.Some? then [(k, update.value)] else []), acc.outbox + sends);
            ScanOk(p, ty, edges, st, it, store, next, j + 1)
  {
    hide NewVerts, Sends, PutAll;
    var k := store.order[j];
    assert store.order[..j + 1] == store.order[..j] + [k];
    CollectAppend(store.order[..j], k, Sends(p, edges, st, it));
    HalfUpdatedStep(store.verts, NewVerts(p, edges, st, it), store.order, acc.updates, j, update);
    hide HalfUpdated;
  }

  lemma SendsKeys<K(!new), V(!new), E(!new), M(!new)>(
      p: Program<K, V, E, M>, edges: multiset<Edge<K, E>>, st: State<K, V, M>, it: nat)
    ensures Sends(p, edges, st, it).Keys == st.verts.Keys
    ensures NewVerts(p, edges, st, it).Keys == st.verts.Keys
  {
  }

  lemma {:induction false} ScanCorrect<K(!new), V(!new), E(!new), M(!new), S(!new)>(
      alg: Alg<K, V, E, M, S>, p: Program<K, V, E, M>, ty: Typing<K, V, M, S>,
      edges: multiset<Edge<K, E>>, st: State<K, V, M>, it: nat,
      store: Store<K, V, E>, inbox: Inbox<K, M>, s: S, j: nat)
    requires Admissible(alg, p, ty) && OkState(ty, st, it) && it >= 1
    requires Sees(edges, st, store, inbox)
    requires store.order != [] ==> ty.ready(s, it)
    requires j <= |store.order|
    ensures var r := ScanTo(alg, store, s, inbox, it, j);
            && r.Some?
            && ScanOk(p, ty, edges, st, it, store, r.value, j)
            && (j == 0 ==> r.value.algo == s)
  {
    hide NewVerts, Sends, Admissible, OkState, SeesVertex, ScanOk;
    if j == 0 {
      SeenOrderExists(edges, st, store, inbox);
      ScanStart(p, ty, edges, st, it, store, s);
    } else {
      ScanCorrect(alg, p, ty, edges, st, it, store, inbox, s, j - 1);
      var acc := ScanTo(alg, store, s, inbox, it, j - 1).value;
      var k := store.order[j - 1];
      assert k in store.verts && SeesVertex(edges, st, store, inbox, k);
      ScanReady(p, ty, edges, st, it, store, acc, j - 1);
      VertexComputed(alg, p, ty, edges, st, it, store, inbox, acc.algo, k);
      var r := alg.compute(acc.algo, k, store.verts[k], Out(store, k), Waiting(inbox, k), it).value;
      FreshKey(store, j - 1);
      ScanStep(p, ty, edges, st, it, store, acc, j - 1, r.0, r.1, r.2);
    }
  }

  lemma SeenOrderExists<K(!new), V, E(!new), M(!new)>(
      edges: multiset<Edge<K, E>>, st: State<K, V, M>, store: Store<K, V, E>, inbox: Inbox<K, M>)
    requires Sees(edges, st, store, inbox)
    ensures forall x :: x in store.order ==> x in st.verts
  {
    forall x | x in store.order
      ensures x in st.verts
    {
      assert SeesVertex(edges, st, store, inbox, x);
    }
  }

  lemma ScanReady<K(!new), V(!new), E(!new), M(!new), S(!new)>(
      p: Program<K, V, E, M>, ty: Typing<K, V, M, S>, edges: multiset<Edge<K, E>>,
      st: State<K, V, M>, it: nat, store: Store<K, V, E>, acc: Scan<K, V, M, S>, j: nat)
    requires ScanOk(p, ty, edges, st, it, store, acc, j)
    ensures j > 0 ==> ty.ready(acc.algo, it)
  {
  }

  lemma ScanStart<K(!new), V(!new), E(!new), M(!new), S(!new)>(
      p: Program<K, V, E, M>, ty: Typing<K, V, M, S>, edges: multiset<Edge<K, E>>,
      st: State<K, V, M>, it: nat, store: Store<K, V, E>, s: S)
    requires forall x :: x in store.order ==> x in st.verts
    ensures ScanOk(p, ty, edges, st, it, store, Scan(s, [], []), 0)
  {
    SendsKeys(p, edges, st, it);
    hide NewVerts, Sends;
  }

  /** What one worker's superstep leaves behind and sends. */
  lemma WorkCorrect<K(!new), V(!new), E(!new), M(!new), S(!new)>(
      alg: Alg<K, V, E, M, S>, p: Program<K, V, E, M>, ty: Typing<K, V, M, S>,
      edges: multiset<Edge<K, E>>, st: State<K, V, M>, it: nat,
      store: Store<K, V, E>, inbox: Inbox<K, M>, s: S)
    requires Admissible(alg, p, ty) && OkState(ty, st, it) && it >= 1
    requires Sees(edges, st, store, inbox)
    requires store.order != [] ==> ty.ready(s, it)
    ensures forall x :: x in store.order ==> x in st.verts
    ensures var r := Process(alg, store, s, inbox, it);
            && r.Some?
            && r.value.store.order == store.order
            && r.value.store.adj == store.adj
            && r.value.store.verts.Keys == store.verts.Keys
            && (forall k :: k in store.verts ==> r.value.store.verts[k] == NewVerts(p, edges, st, it)[k])
            && (store.order != [] ==> ty.ready(r.value.algo, it) && ty.ready(r.value.algo, it + 1))
            && (store.order == [] ==> r.value.algo == s)
            && multiset(r.value.outbox) == Collect(store.order, Sends(p, edges, st, it))
  {
    hide NewVerts, Sends, Admissible, OkState, SeesVertex, ScanTo, Collect;
    SeenOrderExists(edges, st, store, inbox);
    ScanCorrect(alg, p, ty, edges, st, it, store, inbox, s, |store.order|);
    assert store.order[..|store.order|] == store.order;
  }

  // ---------------------------------------------------------------------------------------
  // The cluster.

  /** Each vertex lies on the worker that owns it, and on no other. */
  ghost predicate Owned<K(!new), V, E, M, S>(hash: K -> nat, verts: map<K, V>, c: Cluster<K, V, E, M, S>)
    requires ValidCluster(c)
  {
    && (forall i, k :: 0 <= i < |c.sites| && k in c.sites[i].store.verts ==>
          k in verts && PartitionOf(hash, k, |c.sites|) == i)
    && (forall k :: k in verts ==> k in c.sites[PartitionOf(hash, k, |c.sites|)].store.verts)
  }

  ghost predicate Represents<K(!new), V(!new), E(!new), M(!new), S>(
      hash: K -> nat, edges: multiset<Edge<K, E>>, c: Cluster<K, V, E, M, S>, st: State<K, V, M>)
  {
    && ValidCluster(c)
    && Owned(hash, st.verts, c)
    && (forall i :: 0 <= i < |c.sites| ==> Sees(edges, st, c.sites[i].store, c.inboxes[i]))
  }

  /** Every algorithm instance that will be used is ready for superstep `it`. */
  ghost predicate Ready<K, V, E, M, S>(ty: Typing<K, V, M, S>, c: Cluster<K, V, E, M, S>, it: nat) {
    forall i :: 0 <= i < |c.sites| && c.sites[i].store.order != [] ==> ty.ready(c.sites[i].algo, it)
  }

  ghost function AllOrders<K, V, E, M, S>(c: Cluster<K, V, E, M, S>, i: nat): seq<K>
    requires i <= |c.sites|
  {
    if i == 0 then [] else AllOrders(c, i - 1) + c.sites[i - 1].store.order
  }

  lemma DisjointConcat<T>(a: seq<T>, b: seq<T>)
    requires Distinct(a) && Distinct(b)
    requires forall x :: x in a ==> x !in b
    ensures Distinct(a + b)
  {
    forall i, j | 0 <= i < j < |a + b|
      ensures (a + b)[i] != (a + b)[j]
    {
      assert i < |a| ==> (a + b)[i] in a;
      assert j >= |a| ==> (a + b)[j] in b;
    }
  }

  /** Together the workers list every vertex exactly once. */
  lemma {:induction false} OrdersListVertices<K(!new), V, E(!new), M(!new), S>(
      hash: K -> nat, edges: multiset<Edge<K, E>>, c: Cluster<K, V, E, M, S>, st: State<K, V, M>, i: nat)
    requires ValidCluster(c) && Owned(hash, st.verts, c)
    requires forall j :: 0 <= j < |c.sites| ==> ValidStore(c.sites[j].store)
    requires i <= |c.sites|
    ensures Distinct(AllOrders(c, i))
    ensures forall k :: k in AllOrders(c, i) <==> k in st.verts && PartitionOf(hash, k, |c.sites|) < i
  {
    if i > 0 {
      OrdersListVertices(hash, edges, c, st, i - 1);
      assert ValidStore(c.sites[i - 1].store);
      assert forall k :: k in c.sites[i - 1].store.order ==> PartitionOf(hash, k, |c.sites|) == i - 1;
      DisjointConcat(AllOrders(c, i - 1), c.sites[i - 1].store.order);
    }
  }

  lemma SiteSends<K(!new), V(!new), E(!new), M(!new), S(!new)>(
      job: Job<K, V, E, M, S>, p: Program<K, V, E, M>, ty: Typing<K, V, M, S>,
      edges: multiset<Edge<K, E>>, c: Cluster<K, V, E, M, S>, st: State<K, V, M>, it: nat, i: nat)
    requires Admissible(job.alg, p, ty) && OkState(ty, st, it) && it >= 1
    requires Represents(job.hash, edges, c, st) && Ready(ty, c, it)
    requires i < |c.sites|
    ensures Work(job.alg, c, it, i).Some?
    ensures forall x :: x in c.sites[i].store.order ==> x in Sends(p, edges, st, it)
    ensures multiset(Outbox(job.alg, c, it, i)) == Collect(c.sites[i].store.order, Sends(p, edges, st, it))
  {
    hide NewVerts, Sends, Admissible, OkState, Process, Owned, SeesVertex;
    var site := c.sites[i];
    assert Sees(edges, st, site.store, c.inboxes[i]);
    hide Sees;
    WorkCorrect(job.alg, p, ty, edges, st, it, site.store, c.inboxes[i], site.algo);
    SendsKeys(p, edges, st, it);
  }

  /** The round as a whole: all workers succeed, and what they send is what the reference
      semantics sends. */
  lemma {:induction false} StreamCorrect<K(!new), V(!new), E(!new), M(!new), S(!new)>(
      job: Job<K, V, E, M, S>, p: Program<K, V, E, M>, ty: Typing<K, V, M, S>,
      edges: multiset<Edge<K, E>>, c: Cluster<K, V, E, M, S>, st: State<K, V, M>, it: nat, i: nat)
    requires Admissible(job.alg, p, ty) && OkState(ty, st, it) && it >= 1
    requires Represents(job.hash, edges, c, st) && Ready(ty, c, it)
    requires i <= |c.sites|
    ensures forall j :: 0 <= j < i ==> Work(job.alg, c, it, j).Some?
    ensures forall x :: x in AllOrders(c, i) ==> x in Sends(p, edges, st, it)
    ensures multiset(Stream(job.alg, c, it, i)) == Collect(AllOrders(c, i), Sends(p, edges, st, it))
  {
    hide NewVerts, Sends, Admissible, OkState, Work, Outbox, Owned, Sees, Ready;
    if i > 0 {
      StreamCorrect(job, p, ty, edges, c, st, it, i - 1);
      SiteSends(job, p, ty, edges, c, st, it, i - 1);
      CollectConcat(AllOrders(c, i - 1), c.sites[i - 1].store.order, Sends(p, edges, st, it));
    }
  }

  lemma {:induction false} RoundSends<K(!new), V(!new), E(!new), M(!new), S(!new)>(
      job: Job<K, V, E, M, S>, p: Program<K, V, E, M>, ty: Typing<K, V, M, S>,
      edges: multiset<Edge<K, E>>, c: Cluster<K, V, E, M, S>, st: State<K, V, M>, it: nat)
    requires Admissible(job.alg, p, ty) && OkState(ty, st, it) && it >= 1
    requires Represents(job.hash, edges, c, st) && Ready(ty, c, it)
    ensures Succeeds(job.alg, c, it)
    ensures multiset(Stream(job.alg, c, it, |c.sites|)) == Superstep(p, edges, st, it).pool
  {
    hide NewVerts, Sends, Admissible, OkState, Process, SeesVertex;
    StreamCorrect(job, p, ty, edges, c, st, it, |c.sites|);
    OrdersListVertices(job.hash, edges, c, st, |c.sites|);
    SendsKeys(p, edges, st, it);
    CollectListing(AllOrders(c, |c.sites|), Sends(p, edges, st, it));
  }

  /** After the round, one worker's view again. */
  lemma SiteAfterRound<K(!new), V(!new), E(!new), M(!new), S(!new)>(
      job: Job<K, V, E, M, S>, p: Program<K, V, E, M>, ty: Typing<K, V, M, S>,
      edges: multiset<Edge<K, E>>, c: Cluster<K, V, E, M, S>, st: State<K, V, M>, it: nat, i: nat)
    requires Admissible(job.alg, p, ty) && OkState(ty, st, it) && it >= 1
    requires Represents(job.hash, edges, c, st) && Ready(ty, c, it)
    requires i < |c.sites|
    ensures var r := Work(job.alg, c, it, i);
            && r.Some?
            && Sees(edges, Superstep(p, edges, st, it), r.value.store, NextInboxes(job, c, it)[i])
            && r.value.store.verts.Keys == c.sites[i].store.verts.Keys
            && (r.value.store.order != [] ==> ty.ready(r.value.algo, it + 1))
  {
    hide NewVerts, Sends, Admissible, OkState, Process, Route, Stream;
    var site, next := c.sites[i], Superstep(p, edges, st, it);
    var boxes := NextInboxes(job, c, it);
    var stream := Stream(job.alg, c, it, |c.sites|);
    assert Sees(edges, st, site.store, c.inboxes[i]);
    hide Sees;
    WorkCorrect(job.alg, p, ty, edges, st, it, site.store, c.inboxes[i], site.algo);
    var r := Work(job.alg, c, it, i).value;
    RoundSends(job, p, ty, edges, c, st, it);
    forall k | k in r.store.verts
      ensures SeesVertex(edges, next, r.store, boxes[i], k)
    {
      SiteVertexAfterRound(job.hash, edges, c, st, i, k);
      NewVertsKeys(p, edges, st, it);
      assert Out(r.store, k) == Out(site.store, k);
      assert multiset(Waiting(boxes[i], k)) == MessagesTo(next.pool, k) by {
        WaitingAsMessages(job.hash, |c.sites|, stream, next.pool, k);
      }
    }
    SeesIs(edges, next, r.store, boxes[i], site.store);
  }

  lemma SeesIs<K(!new), V, E(!new), M(!new)>(
      edges: multiset<Edge<K, E>>, st: State<K, V, M>, store: Store<K, V, E>, inbox: Inbox<K, M>,
      before: Store<K, V, E>)
    requires ValidStore(before) && before.order == store.order && before.verts.Keys == store.verts.Keys
    requires forall k :: k in store.verts ==> SeesVertex(edges, st, store, inbox, k)
    ensures Sees(edges, st, store, inbox)
  {
  }

  lemma SiteVertexAfterRound<K(!new), V(!new), E(!new), M(!new), S>(
      hash: K -> nat, edges: multiset<Edge<K, E>>, c: Cluster<K, V, E, M, S>, st: State<K, V, M>, i: nat, k: K)
    requires Represents(hash, edges, c, st) && i < |c.sites| && k in c.sites[i].store.verts
    ensures k in st.verts && PartitionOf(hash, k, |c.sites|) == i
    ensures multiset(Out(c.sites[i].store, k)) == OutEdges(edges, k)
    ensures ValidStore(c.sites[i].store)
  {
    assert Sees(edges, st, c.sites[i].store, c.inboxes[i]);
    assert SeesVertex(edges, st, c.sites[i].store, c.inboxes[i], k);
  }

  lemma NewVertsKeys<K(!new), V(!new), E(!new), M(!new)>(
      p: Program<K, V, E, M>, edges: multiset<Edge<K, E>>, st: State<K, V, M>, it: nat)
    ensures Superstep(p, edges, st, it).verts == NewVerts(p, edges, st, it)
    ensures NewVerts(p, edges, st, it).Keys == st.verts.Keys
  {
  }

  lemma {:induction false} WaitingAsMessages<K(!new), M(!new)>(
      hash: K -> nat, n: nat, stream: seq<(K, M)>, pool: multiset<(K, M)>, k: K)
    requires n > 0 && multiset(stream) == pool
    ensures multiset(Waiting(Route(hash, EmptyInboxes<K, M>(n), stream)[PartitionOf(hash, k, n)], k))
         == MessagesTo(pool, k)
  {
    var p := PartitionOf(hash, k, n);
    Home(hash, k, n);
    hide Route, Waiting, PartitionOf;
    var a := multiset(Waiting(Route(hash, EmptyInboxes<K, M>(n), stream)[p], k));
    var b := MessagesTo(pool, k);
    assert AreMessagesTo(pool, k, b);
    forall m
      ensures a[m] == b[m]
    {
      MessagesConserved(hash, n, stream, p, k, m);
    }
  }

  lemma OwnedAfterRound<K(!new), V, E, M, S>(
      hash: K -> nat, verts: map<K, V>, c: Cluster<K, V, E, M, S>,
      news: map<K, V>, next: Cluster<K, V, E, M, S>)
    requires ValidCluster(c) && ValidCluster(next) && Owned(hash, verts, c)
    requires news.Keys == verts.Keys && |next.sites| == |c.sites|
    requires forall i :: 0 <= i < |c.sites| ==> next.sites[i].store.verts.Keys == c.sites[i].store.verts.Keys
    ensures Owned(hash, news, next)
  {
    forall k | k in news
      ensures k in next.sites[PartitionOf(hash, k, |next.sites|)].store.verts
    {
      assert k in verts;
    }
    forall i, k | 0 <= i < |next.sites| && k in next.sites[i].store.verts
      ensures k in news && PartitionOf(hash, k, |next.sites|) == i
    {
      assert k in c.sites[i].store.verts;
    }
  }

  /** One superstep: the workers never fail, the cluster again represents the graph, and the
      driver sees a message exactly when there is one. */
  lemma RoundRefines<K(!new), V(!new), E(!new), M(!new), S(!new)>(
      job: Job<K, V, E, M, S>, p: Program<K, V, E, M>, ty: Typing<K, V, M, S>,
      edges: multiset<Edge<K, E>>, c: Cluster<K, V, E, M, S>, st: State<K, V, M>, it: nat)
    requires Admissible(job.alg, p, ty) && OkState(ty, st, it) && it >= 1
    requires Represents(job.hash, edges, c, st) && Ready(ty, c, it)
    ensures var r := Round(job, c, it);
            && r.Some?
            && |r.value.0.sites| == |c.sites|
            && Represents(job.hash, edges, r.value.0, Superstep(p, edges, st, it))
            && Ready(ty, r.value.0, it + 1)
            && (r.value.1 <==> Superstep(p, edges, st, it).pool != multiset{})
  {
    hide NewVerts, Sends, Admissible, OkState, Process, Sees, Route, Stream, Owned, Superstep;
    RoundSends(job, p, ty, edges, c, st, it);
    var next := Round(job, c, it).value.0;
    var after := Superstep(p, edges, st, it);
    forall i | 0 <= i < |c.sites|
      ensures Sees(edges, after, next.sites[i].store, next.inboxes[i])
      ensures next.sites[i].store.verts.Keys == c.sites[i].store.verts.Keys
      ensures next.sites[i].store.order != [] ==> ty.ready(next.sites[i].algo, it + 1)
    {
      SiteAfterRound(job, p, ty, edges, c, st, it, i);
    }
    NewVertsKeys(p, edges, st, it);
    OwnedAfterRound(job.hash, st.verts, c, after.verts, next);
    var stream := Stream(job.alg, c, it, |c.sites|);
    assert stream == [] <==> multiset(stream) == multiset{} by {
      if stream != [] {
        assert stream[0] in multiset(stream);
      }
    }
  }

  /** Whole runs: for every number of workers and every hash, the driver's loop executes as many
      supersteps as the reference loop and leaves a representation of its final state. */
  lemma {:induction false} ExecuteRefines<K(!new), V(!new), E(!new), M(!new), S(!new)>(
      job: Job<K, V, E, M, S>, p: Program<K, V, E, M>, ty: Typing<K, V, M, S>,
      edges: multiset<Edge<K, E>>, c: Cluster<K, V, E, M, S>, st: State<K, V, M>, it: nat)
    requires Admissible(job.alg, p, ty) && OkState(ty, st, it) && it >= 1
    requires Represents(job.hash, edges, c, st) && Ready(ty, c, it)
    ensures var r := ExecuteFrom(job, c, it);
            var (end, executed) := RunFrom(Bulk(p, edges), st, it, job.max);
            && r.Some?
            && r.value.1 == executed
            && |r.value.0.sites| == |c.sites|
            && Represents(job.hash, edges, r.value.0, end)
    decreases job.max + 1 - it
  {
    hide NewVerts, Sends, Admissible, OkState, Owned, Sees, Ready, Round;
    if it <= job.max {
      RoundRefines(job, p, ty, edges, c, st, it);
      AdmissibleKeepsTyping(job.alg, p, ty, edges, st, it);
      var next := Superstep(p, edges, st, it);
      assert Bulk(p, edges).step(st, it) == next;
      assert Bulk(p, edges).silent(next) == Silent(next);
      if !Silent(next) {
        ExecuteRefines(job, p, ty, edges, Round(job, c, it).value.0, next, it + 1);
      }
    }
  }

  lemma AdmissibleKeepsTyping<K(!new), V(!new), E(!new), M(!new), S(!new)>(
      alg: Alg<K, V, E, M, S>, p: Program<K, V, E, M>, ty: Typing<K, V, M, S>,
      edges: multiset<Edge<K, E>>, st: State<K, V, M>, it: nat)
    requires Admissible(alg, p, ty) && OkState(ty, st, it) && it >= 1
    ensures OkState(ty, Superstep(p, edges, st, it), it + 1)
  {
    hide OkState, Superstep;
    SuperstepKeepsTyping(p, ty, edges, st, it);
  }

  /** The union of the workers' stores is the vertex map that a cluster represents. */
  lemma RepresentsStores<K(!new), V(!new), E(!new), M(!new), S>(
      hash: K -> nat, edges: multiset<Edge<K, E>>, c: Cluster<K, V, E, M, S>, st: State<K, V, M>, k: K)
    requires Represents(hash, edges, c, st)
    ensures k in st.verts ==>
              && k in c.sites[PartitionOf(hash, k, |c.sites|)].store.verts
              && c.sites[PartitionOf(hash, k, |c.sites|)].store.verts[k] == st.verts[k]
    ensures forall i :: 0 <= i < |c.sites| && k in c.sites[i].store.verts ==>
              k in st.verts && c.sites[i].store.verts[k] == st.verts[k]
  {
    forall i | 0 <= i < |c.sites| && k in c.sites[i].store.verts
      ensures k in st.verts && c.sites[i].store.verts[k] == st.verts[k]
    {
      assert Sees(edges, st, c.sites[i].store, c.inboxes[i]);
      assert SeesVertex(edges, st, c.sites[i].store, c.inboxes[i], k);
    }
  }
}
