/** What PageRank's hidden variable does to whole runs.

    Every worker has its own instance of the vertex function, which takes its teleport term from the
    first positive value that the worker lists. What a run ends with may therefore depend on the
    number of workers, on the hash and on the listing order. Here is exactly when it does not.
 */
module PageRankOrder {
  import opened Options
  import opened Bags
  import opened Bsp
  import opened Shuffle
  import opened WorkerCore
  import opened Rounds
  import opened Refinement
  import opened Loading
  import opened Recovery
  import opened PageRank
  import opened PageRankMass
  import opened PageRankTerms
  import opened PageRankWorkers
  import opened EndToEnd

  // ---------------------------------------------------------------------------------------
  // Superstep 1: nothing is computed yet, whatever the hidden variable.

  /** Superstep 1 of PageRank, and nothing after it. */
  function FirstAlg<K, E>(alpha: real): Alg<K, real, E, real, Option<real>> {
    Alg(None, (s: Option<real>, k: K, v: real, es: seq<(K, E)>, ms: seq<real>, it: nat) =>
      Some(if it == 1 then PageRankCompute(alpha, s, Some(v), es, ms, it) else (s, None, [])))
  }

  function FirstProgram<K, E>(): Program<K, real, E, real> {
    (k: K, v: real, es: seq<(K, E)>, ms: seq<real>, it: nat) =>
      (None, if it == 1 then Shares(es, v) else [])
  }

  lemma FirstAdmissible<K(!new), E(!new)>(alpha: real)
    ensures Admissible(FirstAlg<K, E>(alpha), FirstProgram<K, E>(), AnyTyping<K>())
  {
    var p := FirstProgram<K, E>();
    hide Shares, OkMessages, Teleport;
    forall k: K, v: real, es: seq<(K, E)>, es': seq<(K, E)>, ms: seq<real>, ms': seq<real>, it: nat
        {:trigger p(k, v, es, ms, it), p(k, v, es', ms', it)} |
      multiset(es) == multiset(es')
      ensures p(k, v, es, ms, it).0 == p(k, v, es', ms', it).0
      ensures multiset(p(k, v, es, ms, it).1) == multiset(p(k, v, es', ms', it).1)
    {
      SharesIgnoreOrder(es, es', v);
    }
  }

  lemma {:induction false} SameScan<K(!new), E(!new)>(
      alpha: real, store: Store<K, real, E>, s: Option<real>, inbox: Inbox<K, real>, j: nat)
    requires j <= |store.order|
    ensures ScanTo(PageRankAlg<K, E>(alpha), store, s, inbox, 1, j)
         == ScanTo(FirstAlg<K, E>(alpha), store, s, inbox, 1, j)
  {
    hide PageRankCompute;
    if j > 0 {
      SameScan(alpha, store, s, inbox, j - 1);
    }
  }

  lemma {:induction false} SameStream<K(!new), E(!new)>(alpha: real, c: Cluster<K, real, E, real, Option<real>>, i: nat)
    requires ValidCluster(c) && i <= |c.sites|
    ensures Stream(PageRankAlg<K, E>(alpha), c, 1, i) == Stream(FirstAlg<K, E>(alpha), c, 1, i)
    ensures forall j :: 0 <= j < |c.sites| ==>
              Work(PageRankAlg<K, E>(alpha), c, 1, j) == Work(FirstAlg<K, E>(alpha), c, 1, j)
  {
    hide PageRankAlg, FirstAlg, ScanTo;
    forall j | 0 <= j < |c.sites|
      ensures Work(PageRankAlg<K, E>(alpha), c, 1, j) == Work(FirstAlg<K, E>(alpha), c, 1, j)
    {
      SameScan(alpha, c.sites[j].store, c.sites[j].algo, c.inboxes[j], |c.sites[j].store.order|);
    }
    hide Work;
    if i > 0 {
      SameStream(alpha, c, i - 1);
    }
  }

  lemma SameRound<K(!new), E(!new)>(
      alpha: real, hash: K -> nat, max: nat, c: Cluster<K, real, E, real, Option<real>>)
    requires ValidCluster(c)
    ensures Round(Job(PageRankAlg<K, E>(alpha), hash, max), c, 1) == Round(Job(FirstAlg<K, E>(alpha), hash, max), c, 1)
  {
    hide PageRankAlg, FirstAlg, Work, Stream, Route;
    SameStream(alpha, c, |c.sites|);
    if Succeeds(FirstAlg<K, E>(alpha), c, 1) {
      assert NewSites(PageRankAlg<K, E>(alpha), c, 1) == NewSites(FirstAlg<K, E>(alpha), c, 1);
    }
  }

  /** The values of the listed vertices, in listing order. */
  function ValuesIn<K(!new), E>(store: Store<K, real, E>, j: nat): seq<real>
    requires j <= |store.order| && forall k :: k in store.order ==> k in store.verts
  {
    seq(j, i requires 0 <= i < j => store.verts[store.order[i]])
  }

  lemma FirstCompute<K(!new), E(!new)>(
      alpha: real, s: Option<real>, k: K, v: real, es: seq<(K, E)>, ms: seq<real>)
    ensures PageRankAlg<K, E>(alpha).compute(s, k, v, es, ms, 1) == Some((Teleport(alpha, s, v), None, Shares(es, v)))
  {
  }

  lemma {:induction false} OneMoreValue<K(!new), E>(alpha: real, store: Store<K, real, E>, s: Option<real>, j: nat)
    requires ValidStore(store) && j < |store.order|
    ensures store.order[j] in store.verts
    ensures TeleportOver(alpha, s, ValuesIn(store, j + 1))
         == Teleport(alpha, TeleportOver(alpha, s, ValuesIn(store, j)), store.verts[store.order[j]])
    ensures TeleportOver(alpha, s, ValuesIn(store, 0)) == s
  {
    assert ValuesIn(store, j + 1)[..j] == ValuesIn(store, j);
  }

  /** Superstep 1 changes nothing but the hidden variable, which has then seen every value. */
  lemma {:induction false} FirstScan<K(!new), E(!new)>(
      alpha: real, store: Store<K, real, E>, s: Option<real>, inbox: Inbox<K, real>, j: nat)
    requires ValidStore(store) && j <= |store.order|
    ensures var r := ScanTo(PageRankAlg<K, E>(alpha), store, s, inbox, 1, j);
            r.Some? && r.value.updates == [] && r.value.algo == TeleportOver(alpha, s, ValuesIn(store, j))
  {
    var alg := PageRankAlg<K, E>(alpha);
    assert ValuesIn(store, 0) == [];
    hide PageRankAlg, Shares, Teleport, TeleportOver, Lists;
    if j == 0 {
      TeleportOfNone(alpha, s);
    } else {
      FirstScan(alpha, store, s, inbox, j - 1);
      hide ValuesIn;
      var acc := ScanTo(alg, store, s, inbox, 1, j - 1).value;
      OneMoreValue(alpha, store, s, j - 1);
      var k := store.order[j - 1];
      hide ScanTo;
      ScanNext(alg, store, s, inbox, 1, j - 1, acc);
      FirstCompute(alpha, acc.algo, k, store.verts[k], Out(store, k), Waiting(inbox, k));
      hide Out, Waiting, ValuesIn;
      assert acc.updates + [] == acc.updates;
    }
  }

  lemma {:induction false} TeleportOfNone(alpha: real, s: Option<real>)
    ensures TeleportOver(alpha, s, []) == s
  {
  }

  // ---------------------------------------------------------------------------------------
  // Later supersteps: each worker adds its own term.

  /** The hidden variable is not changed by any more vertices of this store. */
  ghost predicate Settled<K, E>(store: Store<K, real, E>, teleport: Option<real>) {
    teleport.Some? || forall k :: k in store.verts ==> store.verts[k] <= 0.0
  }

  function NewRank<K>(alpha: real, teleport: Option<real>, inbox: Inbox<K, real>, k: K): real {
    Rank(alpha, SumOf(Waiting(inbox, k)), teleport)
  }

  lemma {:induction false} LaterCompute<K(!new), E(!new)>(
      alpha: real, s: Option<real>, k: K, v: real, es: seq<(K, E)>, ms: seq<real>, it: nat)
    requires it >= 2 && (s.Some? || v <= 0.0)
    ensures var rank := Rank(alpha, SumOf(ms), s);
            PageRankAlg<K, E>(alpha).compute(s, k, v, es, ms, it) == Some((s, Some(rank), Shares(es, rank)))
  {
    hide Rank, Shares, SumOf;
  }

  /** The first `j` listed vertices, with the ranks they get. */
  ghost predicate RanksOf<K(!new)>(updates: seq<(K, real)>, order: seq<K>, rank: K -> real, j: nat)
    requires j <= |order|
  {
    |updates| == j && forall i :: 0 <= i < j ==> updates[i] == (order[i], rank(order[i]))
  }

  lemma NoRanks<K(!new)>(order: seq<K>, rank: K -> real)
    ensures RanksOf([], order, rank, 0)
  {
  }

  lemma OneMoreRank<K(!new)>(updates: seq<(K, real)>, order: seq<K>, rank: K -> real, j: nat)
    requires j < |order| && RanksOf(updates, order, rank, j)
    ensures RanksOf(updates + [(order[j], rank(order[j]))], order, rank, j + 1)
  {
  }

  lemma {:induction false} LaterScan<K(!new), E(!new)>(
      alpha: real, store: Store<K, real, E>, s: Option<real>, inbox: Inbox<K, real>, it: nat, rank: K -> real, j: nat)
    requires it >= 2 && ValidStore(store) && Settled(store, s) && j <= |store.order|
    requires forall k :: rank(k) == NewRank(alpha, s, inbox, k)
    ensures var r := ScanTo(PageRankAlg<K, E>(alpha), store, s, inbox, it, j);
            r.Some? && r.value.algo == s && RanksOf(r.value.updates, store.order, rank, j)
  {
    var alg := PageRankAlg<K, E>(alpha);
    hide PageRankAlg, Shares, SumOf, Rank, RanksOf;
    NoRanks(store.order, rank);
    if j > 0 {
      LaterScan(alpha, store, s, inbox, it, rank, j - 1);
      var acc := ScanTo(alg, store, s, inbox, it, j - 1).value;
      var k := store.order[j - 1];
      assert k in store.verts;
      hide ScanTo;
      ScanNext(alg, store, s, inbox, it, j - 1, acc);
      LaterCompute(alpha, s, k, store.verts[k], Out(store, k), Waiting(inbox, k), it);
      assert rank(k) == NewRank(alpha, s, inbox, k);
      hide Out, Waiting, Settled, Lists;
      OneMoreRank(acc.updates, store.order, rank, j - 1);
    }
  }

  lemma {:induction false} PutListed<K(!new)>(
      verts: map<K, real>, order: seq<K>, updates: seq<(K, real)>, rank: K -> real, j: nat)
    requires Distinct(order) && j <= |order| && RanksOf(updates, order, rank, j)
    ensures forall i :: 0 <= i < j ==>
              order[i] in PutAll(verts, updates) && PutAll(verts, updates)[order[i]] == rank(order[i])
  {
    if j > 0 {
      PutListed(verts, order, updates[..j - 1], rank, j - 1);
    }
  }

  lemma LaterProcess<K(!new), E(!new)>(
      alpha: real, store: Store<K, real, E>, s: Option<real>, inbox: Inbox<K, real>, it: nat, k: K)
    requires it >= 2 && ValidStore(store) && Settled(store, s) && k in store.verts
    ensures var r := Process(PageRankAlg<K, E>(alpha), store, s, inbox, it);
            r.Some? && k in r.value.store.verts && r.value.store.verts[k] == NewRank(alpha, s, inbox, k)
  {
    hide PageRankAlg, ScanTo, PutAll, NewRank, Settled;
    var rank: K -> real := x => NewRank(alpha, s, inbox, x);
    LaterScan(alpha, store, s, inbox, it, rank, |store.order|);
    var updates := ScanTo(PageRankAlg<K, E>(alpha), store, s, inbox, it, |store.order|).value.updates;
    PutListed(store.verts, store.order, updates, rank, |store.order|);
    assert k in store.order;
  }

  // ---------------------------------------------------------------------------------------
  // Two supersteps of a cluster.

  /** A freshly loaded cluster whose workers all have a new instance of PageRank. */
  ghost predicate RankLaunched<K(!new), E(!new)>(
      alpha: real, hash: K -> nat, vertices: seq<(K, real)>, edges: seq<Edge<K, E>>,
      c: Cluster<K, real, E, real, Option<real>>)
  {
    FreshlyLoaded(hash, vertices, edges, c) && FreshFunctions(PageRankAlg<K, E>(alpha), c.sites)
  }

  /** What superstep 1 sends. */
  ghost function FirstPool<K(!new), E(!new)>(vertices: seq<(K, real)>, edges: seq<Edge<K, E>>): multiset<(K, real)> {
    Superstep(FirstProgram<K, E>(), multiset(edges), Start(PutAll(map[], vertices)), 1).pool
  }

  /** The hidden variable of a worker that has listed its store. */
  ghost function OwnTeleport<K(!new), E>(alpha: real, store: Store<K, real, E>): Option<real>
    requires ValidStore(store)
  {
    TeleportOver(alpha, None, ValuesIn(store, |store.order|))
  }

  /** One worker after superstep 1. */
  ghost predicate Warm<K(!new), E(!new)>(
      alpha: real, pool: multiset<(K, real)>, before: Site<K, real, E, Option<real>>,
      after: Site<K, real, E, Option<real>>, inbox: Inbox<K, real>)
  {
    && ValidStore(before.store)
    && after == Site(before.store, OwnTeleport(alpha, before.store))
    && forall k :: k in before.store.verts ==> multiset(Waiting(inbox, k)) == MessagesTo(pool, k)
  }

  lemma FirstWork<K(!new), E(!new)>(alpha: real, c: Cluster<K, real, E, real, Option<real>>, i: nat)
    requires ValidCluster(c) && i < |c.sites| && ValidStore(c.sites[i].store) && c.sites[i].algo == None
    ensures var r := Work(PageRankAlg<K, E>(alpha), c, 1, i);
            && r.Some? && r.value.store == c.sites[i].store
            && r.value.algo == OwnTeleport(alpha, c.sites[i].store)
  {
    hide PageRankAlg, ScanTo, TeleportOver;
    var store := c.sites[i].store;
    FirstScan(alpha, store, None, c.inboxes[i], |store.order|);
    assert PutAll(store.verts, []) == store.verts;
  }

  lemma {:induction false} FirstRepresents<K(!new), E(!new)>(
      alpha: real, hash: K -> nat, max: nat, vertices: seq<(K, real)>, edges: seq<Edge<K, E>>,
      c: Cluster<K, real, E, real, Option<real>>)
    requires RankLaunched(alpha, hash, vertices, edges, c)
    ensures ValidCluster(c)
    ensures var r := Round(Job(PageRankAlg<K, E>(alpha), hash, max), c, 1);
            && r.Some? && |r.value.0.sites| == |c.sites|
            && Represents(hash, multiset(edges), r.value.0,
                          Superstep(FirstProgram<K, E>(), multiset(edges), Start(PutAll(map[], vertices)), 1))
            && (r.value.1 <==> FirstPool(vertices, edges) != multiset{})
  {
    LoadedRepresents(hash, vertices, edges, c);
    FirstAdmissible<K, E>(alpha);
    SameRound(alpha, hash, max, c);
    hide FreshlyLoaded, Represents, Superstep, Admissible, PageRankAlg, FirstAlg, FirstProgram, Round;
    RoundRefines(Job(FirstAlg<K, E>(alpha), hash, max), FirstProgram<K, E>(), AnyTyping<K>(), multiset(edges), c,
                 Start(PutAll(map[], vertices)), 1);
  }

  /** A worker that represents its part of a state sees the messages of its vertices. */
  lemma SiteSees<K(!new), E(!new)>(
      hash: K -> nat, edges: multiset<Edge<K, E>>, c: Cluster<K, real, E, real, Option<real>>, st: State<K, real, real>,
      i: nat)
    requires Represents(hash, edges, c, st) && i < |c.sites|
    ensures ValidStore(c.sites[i].store)
    ensures forall k :: k in c.sites[i].store.verts ==> multiset(Waiting(c.inboxes[i], k)) == MessagesTo(st.pool, k)
  {
    hide Owned;
    assert Sees(edges, st, c.sites[i].store, c.inboxes[i]);
    forall k | k in c.sites[i].store.verts
      ensures multiset(Waiting(c.inboxes[i], k)) == MessagesTo(st.pool, k)
    {
      assert SeesVertex(edges, st, c.sites[i].store, c.inboxes[i], k);
    }
  }

  lemma AfterFirst<K(!new), E(!new)>(
      alpha: real, hash: K -> nat, max: nat, vertices: seq<(K, real)>, edges: seq<Edge<K, E>>,
      c: Cluster<K, real, E, real, Option<real>>, i: nat)
    requires RankLaunched(alpha, hash, vertices, edges, c) && i < |c.sites|
    ensures ValidCluster(c)
    ensures var r := Round(Job(PageRankAlg<K, E>(alpha), hash, max), c, 1);
            && r.Some? && |r.value.0.sites| == |c.sites| == |r.value.0.inboxes|
            && Warm(alpha, FirstPool(vertices, edges), c.sites[i], r.value.0.sites[i], r.value.0.inboxes[i])
  {
    FirstRepresents(alpha, hash, max, vertices, edges, c);
    LoadedRepresents(hash, vertices, edges, c);
    hide FreshlyLoaded, Superstep, Represents;
    SiteSees(hash, multiset(edges), c, Start(PutAll(map[], vertices)), i);
    FirstWork(alpha, c, i);
    var job := Job(PageRankAlg<K, E>(alpha), hash, max);
    var next := Round(job, c, 1).value.0;
    assert next.sites[i] == Site(c.sites[i].store, OwnTeleport(alpha, c.sites[i].store)) by {
      hide Work, Stream, Route, OwnTeleport;
      assert next.sites == NewSites(job.alg, c, 1);
    }
    hide Round, OwnTeleport;
    SiteSees(hash, multiset(edges), next,
             Superstep(FirstProgram<K, E>(), multiset(edges), Start(PutAll(map[], vertices)), 1), i);
  }

  lemma OwnTeleportSettles<K(!new), E>(alpha: real, store: Store<K, real, E>)
    requires ValidStore(store)
    ensures Settled(store, OwnTeleport(alpha, store))
  {
    hide TeleportOver, Fixed;
    var values := ValuesIn(store, |store.order|);
    var i := FirstPositive(alpha, values);
    if OwnTeleport(alpha, store).None? {
      forall k | k in store.verts
        ensures store.verts[k] <= 0.0
      {
        var j :| 0 <= j < |store.order| && store.order[j] == k;
        assert values[j] <= 0.0;
      }
    }
  }

  lemma SecondSucceeds<K(!new), E(!new)>(
      alpha: real, store: Store<K, real, E>, s: Option<real>, inbox: Inbox<K, real>)
    requires ValidStore(store) && Settled(store, s)
    ensures Process(PageRankAlg<K, E>(alpha), store, s, inbox, 2).Some?
  {
    hide PageRankAlg, ScanTo, Rank;
    LaterScan(alpha, store, s, inbox, 2, x => NewRank(alpha, s, inbox, x), |store.order|);
  }

  /** A warm worker in superstep 2. */
  lemma SecondWork<K(!new), E(!new)>(
      alpha: real, pool: multiset<(K, real)>, before: Site<K, real, E, Option<real>>,
      after: Site<K, real, E, Option<real>>, inbox: Inbox<K, real>, k: K)
    requires Warm(alpha, pool, before, after, inbox)
    ensures var r := Process(PageRankAlg<K, E>(alpha), after.store, after.algo, inbox, 2);
            && r.Some?
            && (k in before.store.verts ==>
                  && k in r.value.store.verts
                  && r.value.store.verts[k] == Rank(alpha, MassTo(pool, k), OwnTeleport(alpha, before.store)))
  {
    hide PageRankAlg, Process, OwnTeleport, Settled, Rank, SumOf, Lists;
    var s := OwnTeleport(alpha, before.store);
    OwnTeleportSettles(alpha, before.store);
    SecondSucceeds(alpha, before.store, s, inbox);
    if k in before.store.verts {
      LaterProcess(alpha, before.store, s, inbox, 2, k);
      SumIgnoresOrder(Waiting(inbox, k), SeqOf(MessagesTo(pool, k)));
    }
  }

  ghost function RankAfter<K(!new), E(!new)>(
      alpha: real, hash: K -> nat, c: Cluster<K, real, E, real, Option<real>>, max: nat, k: K): Option<real>
  {
    if !ValidCluster(c) then None else
    match ExecuteFrom(Job(PageRankAlg<K, E>(alpha), hash, max), c, 1)
    case None => None
    case Some((end, _)) => ValueOf(hash, end, k)
  }

  lemma {:induction false} TwoRounds<K, V, E, M, S>(
      job: Job<K, V, E, M, S>, c: Cluster<K, V, E, M, S>, c1: Cluster<K, V, E, M, S>)
    requires ValidCluster(c) && ValidCluster(c1) && job.max == 2 && Round(job, c, 1) == Some((c1, true))
    ensures Round(job, c1, 2).Some? ==>
              && ExecuteFrom(job, c, 1).Some?
              && ExecuteFrom(job, c, 1).value.0 == Round(job, c1, 2).value.0
  {
    hide Round, ExecuteFrom;
    LoopStep(job, c, 1);
    LoopStep(job, c1, 2);
    if Round(job, c1, 2).Some? {
      LoopStep(job, Round(job, c1, 2).value.0, 3);
    }
  }

  /** The rank of every vertex after two supersteps: what flows in, and the teleport term of the
      worker that owns it. */
  lemma {:induction false} RankAfterTwo<K(!new), E(!new)>(
      alpha: real, hash: K -> nat, vertices: seq<(K, real)>, edges: seq<Edge<K, E>>,
      c: Cluster<K, real, E, real, Option<real>>, k: K)
    requires RankLaunched(alpha, hash, vertices, edges, c) && FirstPool(vertices, edges) != multiset{}
    requires k in PutAll(map[], vertices)
    ensures |c.sites| >= 1
    ensures var store := c.sites[PartitionOf(hash, k, |c.sites|)].store;
            && ValidStore(store) && k in store.verts
            && RankAfter(alpha, hash, c, 2, k)
            == Some(Rank(alpha, MassTo(FirstPool(vertices, edges), k), OwnTeleport(alpha, store)))
  {
    var job := Job(PageRankAlg<K, E>(alpha), hash, 2);
    hide *;
    var pool, n := FirstPool(vertices, edges), |c.sites|;
    var home := OwnerOf(alpha, hash, vertices, edges, c, k);
    FirstRepresents(alpha, hash, 2, vertices, edges, c);
    var c1 := Round(job, c, 1).value.0;
    forall i: nat | i < n
      ensures Warm(alpha, pool, c.sites[i], c1.sites[i], c1.inboxes[i])
    {
      AfterFirst(alpha, hash, 2, vertices, edges, c, i);
    }
    LoopStep(job, c, 1);
    TwoRounds(job, c, c1);
    SecondRound(job, alpha, pool, c, c1, k, home);
    HeldBy(alpha, hash, c, k, home, Round(job, c1, 2).value.0, 2);
  }

  lemma OwnerOf<K(!new), E(!new)>(
      alpha: real, hash: K -> nat, vertices: seq<(K, real)>, edges: seq<Edge<K, E>>,
      c: Cluster<K, real, E, real, Option<real>>, k: K) returns (home: nat)
    requires RankLaunched(alpha, hash, vertices, edges, c) && k in PutAll(map[], vertices)
    ensures ValidCluster(c) && home == PartitionOf(hash, k, |c.sites|)
    ensures home < |c.sites| && ValidStore(c.sites[home].store) && k in c.sites[home].store.verts
    ensures c.sites[home].store.verts[k] == PutAll(map[], vertices)[k]
  {
    LoadedRepresents(hash, vertices, edges, c);
    RepresentsStores(hash, multiset(edges), c, Start<K, real, real>(PutAll(map[], vertices)), k);
    home := PartitionOf(hash, k, |c.sites|);
    SiteSees(hash, multiset(edges), c, Start<K, real, real>(PutAll(map[], vertices)), home);
  }

  lemma {:induction false} HeldBy<K(!new), E(!new)>(
      alpha: real, hash: K -> nat, c: Cluster<K, real, E, real, Option<real>>, k: K, home: nat,
      end: Cluster<K, real, E, real, Option<real>>, max: nat)
    requires ValidCluster(c) && |end.sites| == |c.sites| && home == PartitionOf(hash, k, |c.sites|)
    requires ExecuteFrom(Job(PageRankAlg<K, E>(alpha), hash, max), c, 1).Some?
    requires ExecuteFrom(Job(PageRankAlg<K, E>(alpha), hash, max), c, 1).value.0 == end
    requires k in end.sites[home].store.verts
    ensures RankAfter(alpha, hash, c, max, k) == Some(end.sites[home].store.verts[k])
  {
    hide ExecuteFrom, PageRankAlg;
  }

  lemma WarmValid<K(!new), E(!new)>(
      alpha: real, pool: multiset<(K, real)>, before: Site<K, real, E, Option<real>>,
      after: Site<K, real, E, Option<real>>, inbox: Inbox<K, real>)
    requires Warm(alpha, pool, before, after, inbox)
    ensures ValidStore(before.store)
  {
  }

  /** All workers are warm: superstep 2 succeeds, and gives each vertex its rank. */
  lemma SecondRound<K(!new), E(!new)>(
      job: Job<K, real, E, real, Option<real>>, alpha: real, pool: multiset<(K, real)>,
      c: Cluster<K, real, E, real, Option<real>>, c1: Cluster<K, real, E, real, Option<real>>, k: K, home: nat)
    requires job.alg == PageRankAlg<K, E>(alpha) && ValidCluster(c1) && |c1.sites| == |c.sites| && home < |c.sites|
    requires forall i: nat :: i < |c.sites| ==> Warm(alpha, pool, c.sites[i], c1.sites[i], c1.inboxes[i])
    requires k in c.sites[home].store.verts
    ensures var r := Round(job, c1, 2);
            && r.Some? && |r.value.0.sites| == |c.sites|
            && ValidStore(c.sites[home].store)
            && k in r.value.0.sites[home].store.verts
            && r.value.0.sites[home].store.verts[k]
            == Rank(alpha, MassTo(pool, k), OwnTeleport(alpha, c.sites[home].store))
  {
    hide Warm, PageRankAlg, Process, Stream, Route, OwnTeleport, Rank, MassTo, Lists;
    forall i: nat | i < |c.sites|
      ensures Work(job.alg, c1, 2, i).Some?
    {
      SecondWork(alpha, pool, c.sites[i], c1.sites[i], c1.inboxes[i], k);
    }
    SecondWork(alpha, pool, c.sites[home], c1.sites[home], c1.inboxes[home], k);
    WarmValid(alpha, pool, c.sites[home], c1.sites[home], c1.inboxes[home]);
    assert Succeeds(job.alg, c1, 2);
  }

  /** A run in which superstep 1 sends nothing ends with the values it started with. */
  lemma {:induction false} RankUnsent<K(!new), E(!new)>(
      alpha: real, hash: K -> nat, vertices: seq<(K, real)>, edges: seq<Edge<K, E>>,
      c: Cluster<K, real, E, real, Option<real>>, max: nat, k: K)
    requires RankLaunched(alpha, hash, vertices, edges, c) && FirstPool(vertices, edges) == multiset{}
    requires k in PutAll(map[], vertices)
    ensures RankAfter(alpha, hash, c, max, k) == Some(PutAll(map[], vertices)[k])
  {
    var job := Job(PageRankAlg<K, E>(alpha), hash, max);
    hide *;
    var home := OwnerOf(alpha, hash, vertices, edges, c, k);
    FirstRepresents(alpha, hash, max, vertices, edges, c);
    var c1 := Round(job, c, 1).value.0;
    LoopStep(job, c, 1);
    if max == 0 {
      HeldBy(alpha, hash, c, k, home, c, max);
    } else {
      AfterFirst(alpha, hash, max, vertices, edges, c, home);
      WarmStays(alpha, FirstPool(vertices, edges), c.sites[home], c1.sites[home], c1.inboxes[home]);
      HeldBy(alpha, hash, c, k, home, c1, max);
    }
  }

  lemma WarmStays<K(!new), E(!new)>(
      alpha: real, pool: multiset<(K, real)>, before: Site<K, real, E, Option<real>>,
      after: Site<K, real, E, Option<real>>, inbox: Inbox<K, real>)
    requires Warm(alpha, pool, before, after, inbox)
    ensures after.store == before.store
  {
  }

  // ---------------------------------------------------------------------------------------
  // When all clusters agree.

  /** What a vertex alone on its worker would make of its value. */
  function Effective(value: real): real {
    if value > 0.0 then value else 1.0
  }

  ghost predicate SameEffective<K(!new)>(verts: map<K, real>) {
    forall a, b :: a in verts && b in verts ==> Effective(verts[a]) == Effective(verts[b])
  }

  /** The rank when the hidden variable comes from a value that is effectively `e`. */
  ghost function RankFrom(alpha: real, sum: real, e: real): real {
    sum * alpha + Fixed(alpha, e)
  }

  /** The worker's term comes from the first positive value it lists, or from 1 if there is none. */
  lemma TermComesFrom<K(!new), E>(alpha: real, store: Store<K, real, E>, sum: real, k: K) returns (from: K)
    requires ValidStore(store) && k in store.verts
    ensures from in store.verts
    ensures Rank(alpha, sum, OwnTeleport(alpha, store)) == RankFrom(alpha, sum, Effective(store.verts[from]))
    ensures store.order != [] && store.verts[store.order[0]] > 0.0 ==> from == store.order[0]
  {
    hide TeleportOver;
    var values := ValuesIn(store, |store.order|);
    var i := FirstPositive(alpha, values);
    if i < |values| {
      from := store.order[i];
      assert store.verts[from] == values[i];
      assert store.order != [] && values[0] > 0.0 ==> i == 0;
    } else {
      from := k;
      var j :| 0 <= j < |store.order| && store.order[j] == k;
      assert values[j] == store.verts[k];
      assert store.order != [] ==> values[0] == store.verts[store.order[0]];
    }
  }

  lemma RankFromAgrees(alpha: real, sum: real, a: real, b: real)
    ensures RankFrom(alpha, sum, a) == RankFrom(alpha, sum, b) <==> alpha == 1.0 || a == b
  {
    hide Fixed;
    FixedAgrees(alpha, a, b);
  }

  /** All clusters, whatever their workers, hashes and listing orders, end a run capped at `max` with
      the same ranks. */
  ghost predicate Agree<K(!new), E(!new)>(alpha: real, vertices: seq<(K, real)>, edges: seq<Edge<K, E>>, max: nat) {
    forall hashA: K -> nat, a: Cluster<K, real, E, real, Option<real>>,
           hashB: K -> nat, b: Cluster<K, real, E, real, Option<real>>, k: K ::
      RankLaunched(alpha, hashA, vertices, edges, a) && RankLaunched(alpha, hashB, vertices, edges, b)
      && k in PutAll(map[], vertices) ==>
        RankAfter(alpha, hashA, a, max, k) == RankAfter(alpha, hashB, b, max, k)
  }

  /** The rank of a vertex after two supersteps, traced to the value that its owner's term is from. */
  lemma RankTraced<K(!new), E(!new)>(
      alpha: real, hash: K -> nat, vertices: seq<(K, real)>, edges: seq<Edge<K, E>>,
      c: Cluster<K, real, E, real, Option<real>>, k: K) returns (from: K)
    requires RankLaunched(alpha, hash, vertices, edges, c) && FirstPool(vertices, edges) != multiset{}
    requires k in PutAll(map[], vertices)
    ensures var verts := PutAll(map[], vertices);
            && from in verts && |c.sites| >= 1
            && PartitionOf(hash, from, |c.sites|) == PartitionOf(hash, k, |c.sites|)
            && RankAfter(alpha, hash, c, 2, k)
            == Some(RankFrom(alpha, MassTo(FirstPool(vertices, edges), k), Effective(verts[from])))
            && var order := c.sites[PartitionOf(hash, k, |c.sites|)].store.order;
               order != [] && order[0] in verts && verts[order[0]] > 0.0 ==> from == order[0]
  {
    hide *;
    RankAfterTwo(alpha, hash, vertices, edges, c, k);
    var home := PartitionOf(hash, k, |c.sites|);
    var store := c.sites[home].store;
    from := TermComesFrom(alpha, store, MassTo(FirstPool(vertices, edges), k), k);
    StoredValue(alpha, hash, vertices, edges, c, home, from);
    if store.order != [] && store.order[0] in PutAll(map[], vertices) {
      ListedFirst(store);
      StoredValue(alpha, hash, vertices, edges, c, home, store.order[0]);
    }
  }

  lemma ListedFirst<K(!new), E>(store: Store<K, real, E>)
    requires ValidStore(store) && store.order != []
    ensures store.order[0] in store.verts
  {
  }

  lemma {:induction false} StoredValue<K(!new), E(!new)>(
      alpha: real, hash: K -> nat, vertices: seq<(K, real)>, edges: seq<Edge<K, E>>,
      c: Cluster<K, real, E, real, Option<real>>, i: nat, k: K)
    requires RankLaunched(alpha, hash, vertices, edges, c) && i < |c.sites| && k in c.sites[i].store.verts
    ensures k in PutAll(map[], vertices) && c.sites[i].store.verts[k] == PutAll(map[], vertices)[k]
    ensures PartitionOf(hash, k, |c.sites|) == i
  {
    LoadedRepresents(hash, vertices, edges, c);
    hide RankLaunched, PutAll, PartitionOf;
    SiteVertexAfterRound(hash, multiset(edges), c, Start<K, real, real>(PutAll(map[], vertices)), i, k);
    RepresentsStores(hash, multiset(edges), c, Start<K, real, real>(PutAll(map[], vertices)), k);
  }

  // ---------------------------------------------------------------------------------------
  // Clusters with a given vertex listed first.

  lemma ListingWith<T>(keys: set<T>, x: T) returns (order: seq<T>)
    ensures Lists(order, keys)
    ensures x in keys ==> order != [] && order[0] == x
  {
    order := SeqOf(multiset(keys));
    if x in keys {
      assert x in multiset(order);
      var p, q := TakeOut(order, x);
      order := [x] + (p + q);
    }
    BagListsSet(order, keys);
  }

  lemma NoOutEdges<K(!new), E(!new)>(edges: multiset<Edge<K, E>>, k: K)
    requires forall e :: e in edges ==> e.src != k
    ensures OutEdges(edges, k) == multiset{}
  {
    var r := OutEdges(edges, k);
    assert AreOutEdges(edges, k, r);
    forall x
      ensures r[x] == 0
    {
      assert r[x] == edges[Edge(k, x.0, x.1)];
    }
  }

  /** Any contents can be held by a store that lists a given vertex first. */
  lemma StoreExists<K(!new), E(!new)>(c: Contents<K, real, E>, x: K) returns (store: Store<K, real, E>)
    ensures StoreHolds(store, c)
    ensures x in c.verts ==> store.order != [] && store.order[0] == x
  {
    var order := ListingWith(c.verts.Keys, x);
    var sources := set e | e in c.edges :: e.src;
    var adj := map src | src in sources :: SeqOf(OutEdges(c.edges, src));
    store := Store(order, c.verts, adj);
    forall k
      ensures multiset(Out(store, k)) == OutEdges(c.edges, k)
    {
      if k !in sources {
        NoOutEdges(c.edges, k);
      }
    }
  }

  /** The store of worker `i`, which lists `x` first if it holds it. */
  ghost predicate HoldsWithFirst<K(!new), E(!new)>(
      hash: K -> nat, n: nat, vertices: seq<(K, real)>, edges: seq<Edge<K, E>>, x: K, i: nat, store: Store<K, real, E>)
    requires n >= 1
  {
    && StoreHolds(store, Share(hash, n, vertices, edges, i))
    && (x in store.verts ==> store.order != [] && store.order[0] == x)
  }

  lemma ShareHeld<K(!new), E(!new)>(
      hash: K -> nat, n: nat, vertices: seq<(K, real)>, edges: seq<Edge<K, E>>, x: K, i: nat)
    returns (store: Store<K, real, E>)
    requires n >= 1
    ensures HoldsWithFirst(hash, n, vertices, edges, x, i, store)
  {
    hide Share;
    store := StoreExists(Share(hash, n, vertices, edges, i), x);
    StoreHoldsVerts(store, Share(hash, n, vertices, edges, i));
    hide StoreHolds;
  }

  /** Any number of workers can be loaded, each listing `x` first if it holds it. */
  lemma ClusterExists<K(!new), E(!new)>(
      alpha: real, hash: K -> nat, n: nat, vertices: seq<(K, real)>, edges: seq<Edge<K, E>>, x: K)
    returns (c: Cluster<K, real, E, real, Option<real>>)
    requires n >= 1
    ensures RankLaunched(alpha, hash, vertices, edges, c) && |c.sites| == n
    ensures forall i :: 0 <= i < n && x in c.sites[i].store.verts ==>
              c.sites[i].store.order != [] && c.sites[i].store.order[0] == x
  {
    hide HoldsWithFirst;
    var stores: seq<Store<K, real, E>> := [];
    for i := 0 to n
      invariant |stores| == i
      invariant forall j :: 0 <= j < i ==> HoldsWithFirst(hash, n, vertices, edges, x, j, stores[j])
    {
      var store := ShareHeld(hash, n, vertices, edges, x, i);
      stores := stores + [store];
    }
    c := Cluster(seq(n, i requires 0 <= i < n => Site(stores[i], None)), EmptyInboxes(n));
    StoresLaunched(alpha, hash, vertices, edges, x, stores, c);
  }

  lemma StoresLaunched<K(!new), E(!new)>(
      alpha: real, hash: K -> nat, vertices: seq<(K, real)>, edges: seq<Edge<K, E>>, x: K,
      stores: seq<Store<K, real, E>>, c: Cluster<K, real, E, real, Option<real>>)
    requires |stores| >= 1 && |c.sites| == |stores| && c.inboxes == EmptyInboxes(|stores|)
    requires forall i :: 0 <= i < |stores| ==> HoldsWithFirst(hash, |stores|, vertices, edges, x, i, stores[i])
    requires forall i :: 0 <= i < |stores| ==> c.sites[i] == Site(stores[i], None)
    ensures RankLaunched(alpha, hash, vertices, edges, c)
    ensures forall i :: 0 <= i < |stores| && x in c.sites[i].store.verts ==>
              c.sites[i].store.order != [] && c.sites[i].store.order[0] == x
  {
    hide Share, StoreHolds;
  }

  lemma StoreHoldsVerts<K(!new), E(!new)>(store: Store<K, real, E>, c: Contents<K, real, E>)
    requires StoreHolds(store, c)
    ensures store.verts == c.verts
  {
  }

  // ---------------------------------------------------------------------------------------
  // The exact condition.

  /** From effectively equal values, or when nothing teleports, all clusters agree. */
  lemma {:induction false} EffectivelyEqualAgree<K(!new), E(!new)>(
      alpha: real, vertices: seq<(K, real)>, edges: seq<Edge<K, E>>)
    requires FirstPool(vertices, edges) != multiset{}
    requires alpha == 1.0 || SameEffective(PutAll(map[], vertices))
    ensures Agree(alpha, vertices, edges, 2)
  {
    hide RankLaunched, FirstPool, PutAll, RankAfter, RankFrom, PartitionOf, Effective;
    forall hashA: K -> nat, a: Cluster<K, real, E, real, Option<real>>,
           hashB: K -> nat, b: Cluster<K, real, E, real, Option<real>>, k: K |
      RankLaunched(alpha, hashA, vertices, edges, a) && RankLaunched(alpha, hashB, vertices, edges, b)
      && k in PutAll(map[], vertices)
      ensures RankAfter(alpha, hashA, a, 2, k) == RankAfter(alpha, hashB, b, 2, k)
    {
      var verts := PutAll(map[], vertices);
      var x := RankTraced(alpha, hashA, vertices, edges, a, k);
      var y := RankTraced(alpha, hashB, vertices, edges, b, k);
      RankFromAgrees(alpha, MassTo(FirstPool(vertices, edges), k), Effective(verts[x]), Effective(verts[y]));
    }
  }

  /** A vertex that is alone with its worker. */
  lemma AloneRank<K(!new), E(!new)>(alpha: real, vertices: seq<(K, real)>, edges: seq<Edge<K, E>>, a: K)
    returns (hash: K -> nat, c: Cluster<K, real, E, real, Option<real>>)
    requires FirstPool(vertices, edges) != multiset{} && a in PutAll(map[], vertices)
    ensures RankLaunched(alpha, hash, vertices, edges, c)
    ensures RankAfter(alpha, hash, c, 2, a)
         == Some(RankFrom(alpha, MassTo(FirstPool(vertices, edges), a), Effective(PutAll(map[], vertices)[a])))
  {
    hash := k => if k == a then 0 else 1;
    assert forall k :: PartitionOf(hash, k, 2) == if k == a then 0 else 1;
    hide *;
    c := ClusterExists(alpha, hash, 2, vertices, edges, a);
    var from := RankTraced(alpha, hash, vertices, edges, c, a);
    assert from == a;
  }

  /** All vertices on one worker, which lists a positive `b` first. */
  lemma TogetherRank<K(!new), E(!new)>(
      alpha: real, hash: K -> nat, vertices: seq<(K, real)>, edges: seq<Edge<K, E>>, a: K, b: K)
    returns (c: Cluster<K, real, E, real, Option<real>>)
    requires FirstPool(vertices, edges) != multiset{} && a in PutAll(map[], vertices)
    requires b in PutAll(map[], vertices) && PutAll(map[], vertices)[b] > 0.0
    ensures RankLaunched(alpha, hash, vertices, edges, c) && |c.sites| == 1
    ensures RankAfter(alpha, hash, c, 2, a)
         == Some(RankFrom(alpha, MassTo(FirstPool(vertices, edges), a), Effective(PutAll(map[], vertices)[b])))
  {
    assert forall k :: PartitionOf(hash, k, 1) == 0;
    hide *;
    c := ClusterExists(alpha, hash, 1, vertices, edges, b);
    var home := OwnerOf(alpha, hash, vertices, edges, c, b);
    var from := RankTraced(alpha, hash, vertices, edges, c, a);
    assert from == b;
  }

  /** Two clusters that disagree about `a`: one where it is alone with its worker, and one where a
      single worker lists a positive `b` first. */
  lemma {:induction false} Disagree<K(!new), E(!new)>(
      alpha: real, vertices: seq<(K, real)>, edges: seq<Edge<K, E>>, a: K, b: K)
    requires FirstPool(vertices, edges) != multiset{} && alpha != 1.0
    requires a in PutAll(map[], vertices) && b in PutAll(map[], vertices)
    requires var verts := PutAll(map[], vertices);
             verts[b] > 0.0 && Effective(verts[a]) != Effective(verts[b])
    ensures !Agree(alpha, vertices, edges, 2)
  {
    hide FirstPool, PutAll, RankAfter, RankFrom, Effective, RankLaunched;
    var verts := PutAll(map[], vertices);
    var apart, many := AloneRank(alpha, vertices, edges, a);
    var together: K -> nat := k => 0;
    var one := TogetherRank(alpha, together, vertices, edges, a, b);
    RankFromAgrees(alpha, MassTo(FirstPool(vertices, edges), a), Effective(verts[a]), Effective(verts[b]));
    assert RankAfter(alpha, apart, many, 2, a) != RankAfter(alpha, together, one, 2, a);
  }

  /** Superstep 1 is silent exactly when no vertex has an out-edge. */
  lemma {:induction false} FirstSilentExactlyWhen<K(!new), E(!new)>(vertices: seq<(K, real)>, edges: seq<Edge<K, E>>)
    ensures FirstPool(vertices, edges) != multiset{} <==> Leaving(multiset(edges), PutAll(map[], vertices))
  {
    var p, all := FirstProgram<K, E>(), multiset(edges);
    var st: State<K, real, real> := Start(PutAll(map[], vertices));
    hide Superstep, Shares, PutAll;
    forall u | u in st.verts
      ensures exists value: real :: Bsp.Compute(p, all, st, 1, u).1 == Shares(SeqOf(OutEdges(all, u)), value)
    {
      assert Bsp.Compute(p, all, st, 1, u).1 == Shares(SeqOf(OutEdges(all, u)), st.verts[u]);
    }
    SilentExactlyWhen(p, all, st, 1);
  }

  /** After two supersteps all clusters agree exactly when nothing teleports, or no vertex has an
      out-edge, or all starting values are effectively equal: each positive, and then the same; or not
      positive, and then as if it were 1. */
  lemma {:induction false} AgreeAfterTwoExactlyWhen<K(!new), E(!new)>(
      alpha: real, vertices: seq<(K, real)>, edges: seq<Edge<K, E>>)
    ensures Agree(alpha, vertices, edges, 2)
       <==> || alpha == 1.0
            || !Leaving(multiset(edges), PutAll(map[], vertices))
            || SameEffective(PutAll(map[], vertices))
  {
    FirstSilentExactlyWhen(vertices, edges);
    hide RankLaunched, FirstPool, PutAll, RankAfter;
    if FirstPool(vertices, edges) == multiset{} {
      UnsentAgree(alpha, vertices, edges, 2);
    } else if alpha == 1.0 || SameEffective(PutAll(map[], vertices)) {
      EffectivelyEqualAgree(alpha, vertices, edges);
    } else {
      var verts := PutAll(map[], vertices);
      var a, b :| a in verts && b in verts && Effective(verts[a]) != Effective(verts[b]);
      if verts[b] > 0.0 {
        Disagree(alpha, vertices, edges, a, b);
      } else {
        Disagree(alpha, vertices, edges, b, a);
      }
    }
  }

  lemma UnsentAgree<K(!new), E(!new)>(alpha: real, vertices: seq<(K, real)>, edges: seq<Edge<K, E>>, max: nat)
    requires FirstPool(vertices, edges) == multiset{}
    ensures Agree(alpha, vertices, edges, max)
  {
    hide RankLaunched, FirstPool, PutAll, RankAfter;
    forall hashA: K -> nat, a: Cluster<K, real, E, real, Option<real>>,
           hashB: K -> nat, b: Cluster<K, real, E, real, Option<real>>, k: K |
      RankLaunched(alpha, hashA, vertices, edges, a) && RankLaunched(alpha, hashB, vertices, edges, b)
      && k in PutAll(map[], vertices)
      ensures RankAfter(alpha, hashA, a, max, k) == RankAfter(alpha, hashB, b, max, k)
    {
      RankUnsent(alpha, hashA, vertices, edges, a, max, k);
      RankUnsent(alpha, hashB, vertices, edges, b, max, k);
    }
  }

  /** When nothing teleports, the hidden variable holds 0 or nothing, which comes to the same. */
  function NoTeleportTyping<K>(): Typing<K, real, real, Option<real>> {
    Typing((s: Option<real>, it: nat) => s == None || s == Some(0.0), (k: K, v: real, it: nat) => true,
           (m: real) => true)
  }

  lemma NothingTeleports(s: Option<real>, v: real, sum: real)
    requires s == None || s == Some(0.0)
    ensures var s' := Teleport(1.0, s, v);
            && (s' == None || s' == Some(0.0))
            && Rank(1.0, sum, s') == Rank(1.0, sum, Some(0.0))
            && Teleport(1.0, Some(0.0), v) == Some(0.0)
  {
  }

  lemma UndampedAdmissible<K(!new), E(!new)>()
    ensures Admissible(PageRankAlg<K, E>(1.0), PageRankProgram<K, E>(1.0, 0.0), NoTeleportTyping<K>())
  {
    var alg, p, ty := PageRankAlg<K, E>(1.0), PageRankProgram<K, E>(1.0, 0.0), NoTeleportTyping<K>();
    hide Shares, SumOf, Rank, Teleport, OkMessages;
    forall s: Option<real>, k: K, v: real, es: seq<(K, E)>, ms: seq<real>, it: nat
        {:trigger alg.compute(s, k, v, es, ms, it)} |
      it >= 1 && ty.ready(s, it)
      ensures var r := alg.compute(s, k, v, es, ms, it);
              && r.Some?
              && (r.value.1, r.value.2) == p(k, v, es, ms, it)
              && ty.ready(r.value.0, it) && ty.ready(r.value.0, it + 1)
    {
      NothingTeleports(s, v, SumOf(ms));
    }
    forall k: K, v: real, es: seq<(K, E)>, es': seq<(K, E)>, ms: seq<real>, ms': seq<real>, it: nat
        {:trigger p(k, v, es, ms, it), p(k, v, es', ms', it)} |
      multiset(es) == multiset(es') && multiset(ms) == multiset(ms')
      ensures p(k, v, es, ms, it).0 == p(k, v, es', ms', it).0
      ensures multiset(p(k, v, es, ms, it).1) == multiset(p(k, v, es', ms', it).1)
    {
      SumIgnoresOrder(ms, ms');
      SharesIgnoreOrder(es, es', v);
      NothingTeleports(Some(0.0), v, SumOf(ms));
      SharesIgnoreOrder(es, es', Rank(1.0, SumOf(ms), Some(0.0)));
    }
  }

  lemma {:induction false} UndampedAgree<K(!new), E(!new)>(
      vertices: seq<(K, real)>, edges: seq<Edge<K, E>>, max: nat)
    ensures Agree(1.0, vertices, edges, max)
  {
    UndampedAdmissible<K, E>();
    var p, ty := PageRankProgram<K, E>(1.0, 0.0), NoTeleportTyping<K>();
    assert OkStart(ty, PutAll(map[], vertices));
    hide Admissible, OkStart, PageRankProgram, NoTeleportTyping, PutAll, FreshlyLoaded, FreshFunctions, ExecuteFrom,
      PageRankAlg, ValueOf;
    forall hashA: K -> nat, a: Cluster<K, real, E, real, Option<real>>,
           hashB: K -> nat, b: Cluster<K, real, E, real, Option<real>>, k: K |
      RankLaunched(1.0, hashA, vertices, edges, a) && RankLaunched(1.0, hashB, vertices, edges, b)
      && k in PutAll(map[], vertices)
      ensures RankAfter(1.0, hashA, a, max, k) == RankAfter(1.0, hashB, b, max, k)
    {
      IndependentOfWorkers(Job(PageRankAlg<K, E>(1.0), hashA, max), Job(PageRankAlg<K, E>(1.0), hashB, max),
                           p, ty, vertices, edges, a, b, k);
    }
  }

  lemma {:induction false} UniformAgree<K(!new), E(!new)>(
      alpha: real, v0: real, vertices: seq<(K, real)>, edges: seq<Edge<K, E>>, max: nat)
    requires v0 > 0.0 && forall k :: k in PutAll(map[], vertices) ==> PutAll(map[], vertices)[k] == v0
    ensures Agree(alpha, vertices, edges, max)
  {
    hide PutAll, FreshlyLoaded, FreshFunctions, ExecuteFrom, PageRankAlg, ValueOf;
    forall hashA: K -> nat, a: Cluster<K, real, E, real, Option<real>>,
           hashB: K -> nat, b: Cluster<K, real, E, real, Option<real>>, k: K |
      RankLaunched(alpha, hashA, vertices, edges, a) && RankLaunched(alpha, hashB, vertices, edges, b)
      && k in PutAll(map[], vertices)
      ensures RankAfter(alpha, hashA, a, max, k) == RankAfter(alpha, hashB, b, max, k)
    {
      PageRankOnAnyCluster(alpha, v0, max, hashA, hashB, vertices, edges, a, b, k);
    }
  }

  /** From positive starting values (1.0, unless the vertex file says otherwise) all clusters agree on every run
      exactly when nothing teleports, or no vertex has an out-edge, or all values are the same. */
  lemma {:induction false} AgreeAlwaysExactlyWhen<K(!new), E(!new)>(
      alpha: real, vertices: seq<(K, real)>, edges: seq<Edge<K, E>>)
    requires forall k :: k in PutAll(map[], vertices) ==> PutAll(map[], vertices)[k] > 0.0
    ensures (forall max: nat :: Agree(alpha, vertices, edges, max))
       <==> || alpha == 1.0
            || !Leaving(multiset(edges), PutAll(map[], vertices))
            || (forall a, b :: a in PutAll(map[], vertices) && b in PutAll(map[], vertices) ==>
                  PutAll(map[], vertices)[a] == PutAll(map[], vertices)[b])
  {
    var verts := PutAll(map[], vertices);
    FirstSilentExactlyWhen(vertices, edges);
    AgreeAfterTwoExactlyWhen(alpha, vertices, edges);
    hide Agree, PutAll, FirstPool;
    if FirstPool(vertices, edges) == multiset{} {
      forall max: nat
        ensures Agree(alpha, vertices, edges, max)
      {
        UnsentAgree(alpha, vertices, edges, max);
      }
    } else if alpha == 1.0 {
      forall max: nat
        ensures Agree(alpha, vertices, edges, max)
      {
        UndampedAgree(vertices, edges, max);
      }
    } else if forall a, b :: a in verts && b in verts ==> verts[a] == verts[b] {
      var v0 := if k :| k in verts then verts[k] else 1.0;
      forall max: nat
        ensures Agree(alpha, vertices, edges, max)
      {
        UniformAgree(alpha, v0, vertices, edges, max);
      }
    } else {
      assert !SameEffective(verts);
    }
  }

  /** A vertex that no edge leads to gets nothing. */
  lemma {:induction false} NoInflow<K(!new), E(!new)>(vertices: seq<(K, real)>, edges: seq<Edge<K, E>>, k: K)
    requires forall e :: e in edges ==> e.dst != k
    ensures MassTo(FirstPool(vertices, edges), k) == 0.0
  {
    var p, all := FirstProgram<K, E>(), multiset(edges);
    var st: State<K, real, real> := Start(PutAll(map[], vertices));
    var pool := FirstPool(vertices, edges);
    hide Superstep, PutAll, FirstPool;
    forall m
      ensures MessagesTo(pool, k)[m] == 0
    {
      if (k, m) in pool {
        FirstPoolIs(vertices, edges);
        InFlight(p, all, st, 1, (k, m));
        var u :| u in st.verts && (k, m) in Bsp.Compute(p, all, st, 1, u).1;
        var es := SeqOf(OutEdges(all, u));
        var i :| 0 <= i < |es| && es[i].0 == k;
        OutEdgeOf(all, u, es[i]);
        assert false;
      }
    }
    assert MessagesTo(pool, k) == multiset{};
    assert SeqOf(MessagesTo(pool, k)) == [];
  }

  lemma {:induction false} FirstPoolIs<K(!new), E(!new)>(vertices: seq<(K, real)>, edges: seq<Edge<K, E>>)
    ensures FirstPool(vertices, edges)
         == Superstep(FirstProgram<K, E>(), multiset(edges), Start(PutAll(map[], vertices)), 1).pool
  {
  }

  lemma {:induction false} TwoValues(vertices: seq<(int, real)>)
    requires vertices == [(1, 1.0), (2, 2.0)]
    ensures PutAll(map[], vertices) == map[1 := 1.0, 2 := 2.0]
  {
    assert vertices[..1] == [(1, 1.0)] && vertices[..1][..0] == [];
    assert PutAll(map[], vertices[..1]) == map[1 := 1.0];
  }

  lemma {:induction false} PairGraph(vertices: seq<(int, real)>, edges: seq<Edge<int, ()>>)
    requires vertices == [(1, 1.0), (2, 2.0)] && edges == [Edge(1, 2, ())]
    ensures PutAll(map[], vertices) == map[1 := 1.0, 2 := 2.0]
    ensures FirstPool(vertices, edges) != multiset{} && MassTo(FirstPool(vertices, edges), 1) == 0.0
  {
    TwoValues(vertices);
    assert edges[0] in edges;
    hide FirstPool, MassTo, PutAll;
    FirstSilentExactlyWhen(vertices, edges);
    NoInflow(vertices, edges, 1);
  }

  lemma HalfDamped()
    ensures RankFrom(0.5, 0.0, Effective(1.0)) == 0.5 && RankFrom(0.5, 0.0, Effective(2.0)) == 1.0
  {
  }

  /** At one graph: vertices 1 and 2 with values 1 and 2 and an edge from 1 to 2, damped by 1/2. A
      single worker that lists 1 first ends two supersteps with vertex 1 ranked 1/2; one that lists
      2 first, with vertex 1 ranked 1. */
  lemma {:induction false} ListingOrderMatters(hash: int -> nat)
    ensures var vertices, edges := [(1, 1.0), (2, 2.0)], [Edge(1, 2, ())];
            exists a: Cluster<int, real, (), real, Option<real>>, b: Cluster<int, real, (), real, Option<real>> ::
              && RankLaunched(0.5, hash, vertices, edges, a) && RankLaunched(0.5, hash, vertices, edges, b)
              && |a.sites| == |b.sites| == 1
              && RankAfter(0.5, hash, a, 2, 1) == Some(0.5) && RankAfter(0.5, hash, b, 2, 1) == Some(1.0)
  {
    hide *;
    var vertices, edges := [(1, 1.0), (2, 2.0)], [Edge(1, 2, ())];
    PairGraph(vertices, edges);
    HalfDamped();
    var a := TogetherRank(0.5, hash, vertices, edges, 1, 1);
    var b := TogetherRank(0.5, hash, vertices, edges, 1, 2);
  }
}
