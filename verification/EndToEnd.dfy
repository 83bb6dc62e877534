/** What the repository promises of whole jobs: every engine, every number of workers and every
    schedule give the same answer, and the answer is the right one.
 */
module EndToEnd {
  import opened Options
  import opened Runs
  import opened Bsp
  import opened Shuffle
  import opened WorkerCore
  import opened Rounds
  import opened Refinement
  import opened Loading
  import opened Recovery
  import opened Codec
  import opened GraphStore
  import opened Walks
  import opened MinPropagation
  import opened Wcc
  import opened LocalWcc
  import opened Sssp
  import opened PageRank
  import Protocol
  import ProtocolTheorems
  import Disk
  import opened Attempts
  import Scheduler
  import Worker
  import Launch
  import Driver
  import MemGraph
  import PartitionedGraph

  // ---------------------------------------------------------------------------------------
  // Any schedule, any number of workers.

  /** The driver's loop on a freshly loaded cluster does what the reference loop does. */
  lemma {:induction false} LaunchedExecutes<K(!new), V(!new), E(!new), M(!new), S(!new)>(
      job: Job<K, V, E, M, S>, p: Program<K, V, E, M>, ty: Typing<K, V, M, S>,
      vertices: seq<(K, V)>, edges: seq<Edge<K, E>>, c0: Cluster<K, V, E, M, S>)
    requires Launched(job, p, ty, vertices, edges, c0)
    ensures ValidCluster(c0)
    ensures var r := ExecuteFrom(job, c0, 1);
            var (end, executed) := Run(Bulk(p, multiset(edges)), Start(PutAll(map[], vertices)), job.max);
            && r.Some? && r.value.1 == executed
            && |r.value.0.sites| == |c0.sites|
            && Represents(job.hash, multiset(edges), r.value.0, end)
  {
    hide Admissible, OkStart, OkState, Represents, Ready, Bulk, FreshlyLoaded;
    LaunchedStands(job, p, ty, vertices, edges, c0);
    hide Launched;
    StandsValid(job, p, ty, vertices, edges, c0, 0);
    StandsTyped(job, p, ty, vertices, edges, c0, 0, 1);
    ExecuteRefines(job, p, ty, multiset(edges), c0, StateAfter(p, vertices, edges, 0), 1);
  }

  /** Schedule independence, worker-count independence and refinement in one: however the steps of
      driver and workers interleave, a job never fails, and when it is over the workers together hold
      the final state of the reference run, after as many supersteps. */
  lemma {:induction false} EveryScheduleComputes<K(!new), V(!new), E(!new), M(!new), S(!new)>(
      job: Job<K, V, E, M, S>, p: Program<K, V, E, M>, ty: Typing<K, V, M, S>,
      vertices: seq<(K, V)>, edges: seq<Edge<K, E>>, c0: Cluster<K, V, E, M, S>,
      sys: Protocol.System<K, V, E, M, S>, schedule: seq<Protocol.Step<K, M>>, end: Protocol.System<K, V, E, M, S>)
    requires Launched(job, p, ty, vertices, edges, c0)
    requires Protocol.Initial(sys, c0, 1) && Protocol.Leads(job, sys, schedule, end)
    ensures !end.driver.Failed?
    ensures end.driver.Finished? ==>
              var (st, executed) := Run(Bulk(p, multiset(edges)), Start(PutAll(map[], vertices)), job.max);
              && end.driver.executed == executed
              && Represents(job.hash, multiset(edges), Protocol.ClusterOf(end.links, end.driver.result), st)
  {
    hide Launched, Represents, Bulk, Protocol.Leads, Protocol.Initial, ExecuteFrom;
    LaunchedExecutes(job, p, ty, vertices, edges, c0);
    ProtocolTheorems.EveryScheduleAgrees(job, c0, 1, sys, schedule, end);
  }

  /** Two jobs on the same graph, on any two clusters, end after as many supersteps with the same
      value for every vertex. */
  lemma {:induction false} IndependentOfWorkers<K(!new), V(!new), E(!new), M(!new), S(!new)>(
      a: Job<K, V, E, M, S>, b: Job<K, V, E, M, S>, p: Program<K, V, E, M>, ty: Typing<K, V, M, S>,
      vertices: seq<(K, V)>, edges: seq<Edge<K, E>>, ca: Cluster<K, V, E, M, S>, cb: Cluster<K, V, E, M, S>, k: K)
    requires Launched(a, p, ty, vertices, edges, ca) && Launched(b, p, ty, vertices, edges, cb) && a.max == b.max
    requires k in PutAll(map[], vertices)
    ensures ValidCluster(ca) && ValidCluster(cb)
    ensures var ra, rb := ExecuteFrom(a, ca, 1), ExecuteFrom(b, cb, 1);
            && ra.Some? && rb.Some? && ra.value.1 == rb.value.1
            && ValueOf(a.hash, ra.value.0, k) == ValueOf(b.hash, rb.value.0, k) != None
  {
    hide Launched, Represents, Bulk, ExecuteFrom;
    LaunchedExecutes(a, p, ty, vertices, edges, ca);
    LaunchedExecutes(b, p, ty, vertices, edges, cb);
    var end := Run(Bulk(p, multiset(edges)), Start(PutAll(map[], vertices)), a.max).0;
    RunKeepsKeys(p, multiset(edges), PutAll(map[], vertices), a.max);
    HeldValue(a.hash, multiset(edges), ExecuteFrom(a, ca, 1).value.0, end, k);
    HeldValue(b.hash, multiset(edges), ExecuteFrom(b, cb, 1).value.0, end, k);
  }

  /** What the worker that owns `k` holds for it. */
  ghost function ValueOf<K, V, E, M, S>(hash: K -> nat, c: Cluster<K, V, E, M, S>, k: K): Option<V> {
    if |c.sites| == 0 then None else
    var store := c.sites[PartitionOf(hash, k, |c.sites|)].store;
    if k in store.verts then Some(store.verts[k]) else None
  }

  lemma HeldValue<K(!new), V(!new), E(!new), M(!new), S>(
      hash: K -> nat, edges: multiset<Edge<K, E>>, c: Cluster<K, V, E, M, S>, st: State<K, V, M>, k: K)
    requires Represents(hash, edges, c, st) && k in st.verts
    ensures ValueOf(hash, c, k) == Some(st.verts[k])
  {
    hide Sees, PartitionOf, Owned;
    RepresentsStores(hash, edges, c, st, k);
  }

  lemma RunKeepsKeys<K(!new), V(!new), E(!new), M(!new)>(
      p: Program<K, V, E, M>, edges: multiset<Edge<K, E>>, verts: map<K, V>, max: nat)
    ensures Run(Bulk(p, edges), Start<K, V, M>(verts), max).0.verts.Keys == verts.Keys
  {
    hide Bulk;
    RunStops(Bulk(p, edges), Start<K, V, M>(verts), max);
    AfterKeepsKeys(p, edges, verts, Run(Bulk(p, edges), Start<K, V, M>(verts), max).1);
  }

  // ---------------------------------------------------------------------------------------
  // Component labelling.

  /** Vertex ids and values of the job's input are encoded numbers. */
  ghost predicate EncodedInput(vertices: seq<(Bytes, Bytes)>) {
    forall i :: 0 <= i < |vertices| ==> |vertices[i].0| == 8 && |vertices[i].1| == 8
  }

  lemma {:induction false} EncodedInputMap(vertices: seq<(Bytes, Bytes)>)
    requires EncodedInput(vertices)
    ensures EncodedVertices(PutAll(map[], vertices))
  {
    if vertices != [] {
      EncodedInputMap(vertices[..|vertices| - 1]);
    }
  }

  ghost predicate WccLaunched(
      job: Job<Bytes, Bytes, Bytes, Bytes, ()>, vertices: seq<(Bytes, Bytes)>, edges: seq<Edge<Bytes, Bytes>>,
      c0: Cluster<Bytes, Bytes, Bytes, Bytes, ()>)
  {
    && job.alg == WccAlg() && EncodedInput(vertices)
    && FreshlyLoaded(job.hash, vertices, edges, c0)
  }

  lemma {:induction false} WccIsLaunched(
      job: Job<Bytes, Bytes, Bytes, Bytes, ()>, vertices: seq<(Bytes, Bytes)>, edges: seq<Edge<Bytes, Bytes>>,
      c0: Cluster<Bytes, Bytes, Bytes, Bytes, ()>)
    requires WccLaunched(job, vertices, edges, c0)
    ensures Launched(job, WccProgram(), WccTyping(), vertices, edges, c0)
    ensures NothingHidden(job.alg, WccTyping())
    ensures EncodedVertices(PutAll(map[], vertices))
  {
    hide FreshlyLoaded, Admissible;
    WccAdmissible();
    EncodedInputMap(vertices);
    forall i | 0 <= i < |c0.sites|
      ensures c0.sites[i].algo == job.alg.init
    {
      assert c0.sites[i].algo == ();
    }
  }

  /** Every owner holds, for each of its vertices, the least id that reaches it. */
  ghost predicate ComponentsFound<S>(
      hash: Bytes -> nat, c: Cluster<Bytes, Bytes, Bytes, Bytes, S>, verts: map<Bytes, Bytes>,
      edges: multiset<Edge<Bytes, Bytes>>)
  {
    forall v :: v in verts ==>
      ValueOf(hash, c, v).Some? && LeastReaching(verts.Keys, edges, v, Number(ValueOf(hash, c, v).value))
  }

  lemma RepresentsComponents(
      hash: Bytes -> nat, c: Cluster<Bytes, Bytes, Bytes, Bytes, ()>, verts: map<Bytes, Bytes>,
      edges: multiset<Edge<Bytes, Bytes>>, max: nat)
    requires EncodedVertices(verts) && max >= 1 && max >= |verts|
    requires Represents(hash, edges, c, Run(Bulk(WccProgram(), edges), Start(verts), max).0)
    ensures ComponentsFound(hash, c, verts, edges)
  {
    hide Represents, LeastReaching, EncodedVertices, Bulk, ValueOf;
    WccReachesFixpoint(edges, verts, max);
    var end := Run(Bulk(WccProgram(), edges), Start(verts), max).0;
    forall v | v in verts
      ensures ValueOf(hash, c, v).Some? && LeastReaching(verts.Keys, edges, v, Number(ValueOf(hash, c, v).value))
    {
      HeldValue(hash, edges, c, end, v);
    }
  }

  /** Distributed labelling, end to end: any graph of encoded ids, any number of workers, any hash,
      any interleaving. A finished job has found the components, in at most |V| + 1 supersteps. */
  lemma {:induction false} WccEverySchedule(
      job: Job<Bytes, Bytes, Bytes, Bytes, ()>, vertices: seq<(Bytes, Bytes)>, edges: seq<Edge<Bytes, Bytes>>,
      c0: Cluster<Bytes, Bytes, Bytes, Bytes, ()>,
      sys: Protocol.System<Bytes, Bytes, Bytes, Bytes, ()>, schedule: seq<Protocol.Step<Bytes, Bytes>>,
      end: Protocol.System<Bytes, Bytes, Bytes, Bytes, ()>)
    requires WccLaunched(job, vertices, edges, c0)
    requires job.max >= 1 && job.max >= |PutAll(map[], vertices)|
    requires Protocol.Initial(sys, c0, 1) && Protocol.Leads(job, sys, schedule, end)
    ensures !end.driver.Failed?
    ensures end.driver.Finished? ==>
              && end.driver.executed <= |PutAll(map[], vertices)| + 1
              && ComponentsFound(job.hash, Protocol.ClusterOf(end.links, end.driver.result),
                                 PutAll(map[], vertices), multiset(edges))
  {
    hide WccLaunched, Launched, NothingHidden, EncodedVertices, Represents, Bulk, ComponentsFound,
      Protocol.Leads, Protocol.Initial, Protocol.ClusterOf, PutAll;
    WccIsLaunched(job, vertices, edges, c0);
    EveryScheduleComputes(job, WccProgram(), WccTyping(), vertices, edges, c0, sys, schedule, end);
    WccStops(multiset(edges), PutAll(map[], vertices), job.max);
    if end.driver.Finished? {
      RepresentsComponents(job.hash, Protocol.ClusterOf(end.links, end.driver.result), PutAll(map[], vertices),
                           multiset(edges), job.max);
    }
  }

  /** Labelling that crashes any number of times, each time with a complete latest checkpoint, and is
      taken over by as many workers, ends with the components, and with the same labels in every store
      as the run that never crashed. */
  lemma {:induction false} WccSurvivesCrashes(
      a: Attempt<Bytes, Bytes, Bytes, Bytes, ()>, vertices: seq<(Bytes, Bytes)>, edges: seq<Edge<Bytes, Bytes>>,
      crashes: seq<Crash<Bytes, Bytes, Bytes, Bytes, ()>>, i: nat)
    requires WccLaunched(a.job, vertices, edges, a.c0) && a.First() == 1
    requires a.job.max >= 1 && a.job.max >= |PutAll(map[], vertices)|
    requires ValidCluster(a.c0) && Chain(a, crashes) && i < |a.c0.sites|
    ensures var b := Last(a, crashes);
            && b.Outcome().Some? && a.Outcome().Some?
            && |b.Outcome().value.0.sites| == |a.Outcome().value.0.sites| == |a.c0.sites|
            && b.Outcome().value.0.sites[i].store.verts == a.Outcome().value.0.sites[i].store.verts
            && ComponentsFound(a.job.hash, b.Outcome().value.0, PutAll(map[], vertices), multiset(edges))
  {
    hide Launched, NothingHidden, EncodedVertices, Represents, Bulk, ComponentsFound, PutAll, Quiescent, Stands,
      ExecuteFrom, FreshlyLoaded, Chain, Last;
    WccIsLaunched(a.job, vertices, edges, a.c0);
    hide WccLaunched;
    WccQuiescent();
    LaunchedStands(a.job, WccProgram(), WccTyping(), vertices, edges, a.c0);
    ChainPreservesAnswer(a, WccProgram(), WccTyping(), vertices, edges, 0, crashes);
    LaunchedExecutes(a.job, WccProgram(), WccTyping(), vertices, edges, a.c0);
    var end := Answer(WccProgram(), vertices, edges, a.job.max);
    SameValues(a.job.hash, multiset(edges), Last(a, crashes).Outcome().value.0, a.Outcome().value.0, end, i);
    RepresentsComponents(a.job.hash, Last(a, crashes).Outcome().value.0, PutAll(map[], vertices), multiset(edges),
                         a.job.max);
  }

  /** A labelling job stands after superstep `k0` where the attempt `a` begins, and `a` found no
      snapshot of a later superstep. */
  ghost predicate WccStands(
      a: Attempt<Bytes, Bytes, Bytes, Bytes, ()>, vertices: seq<(Bytes, Bytes)>, edges: seq<Edge<Bytes, Bytes>>,
      k0: nat)
  {
    && a.job.alg == WccAlg() && EncodedInput(vertices)
    && Stands(a.job, WccProgram(), WccTyping(), vertices, edges, a.c0, k0) && ValidCluster(a.c0)
    && a.First() == k0 + 1 && NothingAbove(a.disk, k0)
  }

  lemma {:induction false} WccTakenOver(
      a: Attempt<Bytes, Bytes, Bytes, Bytes, ()>, vertices: seq<(Bytes, Bytes)>, edges: seq<Edge<Bytes, Bytes>>,
      k0: nat, d: Disk.DiskState<Bytes, Bytes, Bytes, Bytes>, sites: seq<Site<Bytes, Bytes, Bytes, ()>>)
    requires WccStands(a, vertices, edges, k0)
    requires a.job.max >= 1 && a.job.max >= |PutAll(map[], vertices)|
    requires a.spec.On() && LeftBehind(a, d) && d.latest != a.disk.latest && |sites| == |a.c0.sites|
    ensures TakesOver(a, d, sites)
    ensures var b := Successor(a, d, sites);
            && b.Outcome().Some? && |b.Outcome().value.0.sites| == |sites|
            && (Scheduler.Unblocked(a.spec, d, |sites|, b.First(), b.Outcome().value.1) <==>
                NothingAbove(d, d.latest.value.iteration))
            && ComponentsFound(a.job.hash, b.Outcome().value.0, PutAll(map[], vertices), multiset(edges))
  {
    WccAlwaysReady();
    AllFresh(a.job.alg, sites);
    EncodedInputMap(vertices);
    hide Launched, NothingHidden, EncodedVertices, Represents, Bulk, ComponentsFound, PutAll, Quiescent, Stands,
      ExecuteFrom, NothingAbove, Consistent, FreshFunctions, Scheduler.Unblocked;
    MovedSurvives(a, d);
    hide LeftBehind, Survives;
    WccQuiescent();
    RecoveryPreservesAnswer(a, WccProgram(), WccTyping(), vertices, edges, k0, d, sites);
    RecoveryReturnsExactlyWhen(a, WccProgram(), WccTyping(), vertices, edges, k0, d, sites);
    RepresentsComponents(a.job.hash, Successor(a, d, sites).Outcome().value.0, PutAll(map[], vertices), multiset(edges),
                         a.job.max);
  }

  lemma WccAlwaysReady()
    ensures NothingHidden(WccAlg(), WccTyping())
  {
  }

  /** The attempt that takes over, as the scheduler sees it. */
  lemma {:induction false} SuccessorOf(
      a: Attempt<Bytes, Bytes, Bytes, Bytes, ()>, vertices: seq<(Bytes, Bytes)>, edges: seq<Edge<Bytes, Bytes>>,
      k0: nat, d: Disk.DiskState<Bytes, Bytes, Bytes, Bytes>, sites: seq<Site<Bytes, Bytes, Bytes, ()>>)
    returns (b: Attempt<Bytes, Bytes, Bytes, Bytes, ()>)
    requires WccStands(a, vertices, edges, k0)
    requires a.job.max >= 1 && a.job.max >= |PutAll(map[], vertices)|
    requires a.spec.On() && LeftBehind(a, d) && d.latest != a.disk.latest && |sites| == |a.c0.sites|
    ensures d.latest.Some? && SameWorkers(a.spec, d, |sites|) && Scheduler.InboxesSaved(a.spec, d)
    ensures b == Attempt(a.job, a.spec, d, Beginning(a.spec, d, sites)) && ValidCluster(b.c0)
    ensures b.Outcome().Some? && |b.Outcome().value.0.sites| == |sites|
    ensures Scheduler.Unblocked(a.spec, d, |sites|, b.First(), b.Outcome().value.1) <==>
            NothingAbove(d, d.latest.value.iteration)
    ensures ComponentsFound(a.job.hash, b.Outcome().value.0, PutAll(map[], vertices), multiset(edges))
  {
    WccTakenOver(a, vertices, edges, k0, d, sites);
    hide WccStands, LeftBehind, ExecuteFrom, Scheduler.Unblocked, NothingAbove, ComponentsFound;
    b := Successor(a, d, sites);
  }

  /** The same of the scheduler itself, on a disk that a crash of a run, fresh or recovered, left
      behind after it moved `latest`: with as many fresh workers it returns exactly when no snapshot
      is numbered above the latest checkpoint, and when it returns it has found the components. */
  method RecoverLabels(
      driver: Driver.DistributedDriver<Bytes, Bytes, Bytes, Bytes, ()>, disk: Disk.Disk<Bytes, Bytes, Bytes, Bytes>,
      spec: CheckpointSpec, maxIterations: nat,
      ghost vertices: seq<(Bytes, Bytes)>, ghost edges: seq<Edge<Bytes, Bytes>>,
      ghost crashed: Attempt<Bytes, Bytes, Bytes, Bytes, ()>, ghost k0: nat)
    returns (r: Option<int>)
    requires driver.Idle() && driver.alg == WccAlg()
    requires crashed.job == Job(WccAlg(), driver.hash, maxIterations) && crashed.spec == spec && spec.On()
    requires WccStands(crashed, vertices, edges, k0)
    requires maxIterations >= 1 && maxIterations >= |PutAll(map[], vertices)|
    requires LeftBehind(crashed, disk.now) && disk.now.latest != crashed.disk.latest
    requires driver.workers.Length == |crashed.c0.sites|
    modifies driver.workers, driver.responses, disk
    ensures old(disk.now).latest.Some?
    ensures r.Some? <==> NothingAbove(old(disk.now), old(disk.now).latest.value.iteration)
    ensures var end := Cluster(driver.Sites(), EmptyInboxes<Bytes, Bytes>(driver.workers.Length));
            r.Some? ==> ComponentsFound(driver.hash, end, PutAll(map[], vertices), multiset(edges))
  {
    hide *;
    ghost var d, sites := disk.now, driver.Sites();
    ghost var b := SuccessorOf(crashed, vertices, edges, k0, d, sites);
    ghost var hs;
    r, hs := Scheduler.Run(driver, disk, spec, maxIterations);
    if r.Some? {
      SameSitesFound(driver.hash, b.Outcome().value.0,
                     Cluster(driver.Sites(), EmptyInboxes<Bytes, Bytes>(driver.workers.Length)),
                     PutAll(map[], vertices), multiset(edges));
    }
  }

  lemma SameSitesFound(
      hash: Bytes -> nat, c: Cluster<Bytes, Bytes, Bytes, Bytes, ()>, c': Cluster<Bytes, Bytes, Bytes, Bytes, ()>,
      verts: map<Bytes, Bytes>, edges: multiset<Edge<Bytes, Bytes>>)
    requires ComponentsFound(hash, c, verts, edges) && c'.sites == c.sites
    ensures ComponentsFound(hash, c', verts, edges)
  {
    hide LeastReaching;
    forall v | v in verts
      ensures ValueOf(hash, c', v) == ValueOf(hash, c, v)
    {
    }
  }

  lemma AllFresh(alg: Alg<Bytes, Bytes, Bytes, Bytes, ()>, sites: seq<Site<Bytes, Bytes, Bytes, ()>>)
    ensures FreshFunctions(alg, sites)
  {
    forall i | 0 <= i < |sites|
      ensures sites[i].algo == alg.init
    {
      assert sites[i].algo == ();
    }
  }

  /** Labels fit the store of a worker. */
  lemma WccValuesAreSmall()
    ensures Worker.SmallValues(WccAlg())
  {
  }

  lemma {:induction false} EncodedFits(vertices: seq<(Bytes, Bytes)>, edges: seq<StoredEdge>)
    requires EncodedInput(vertices) && forall e :: e in edges ==> EdgeFits(e)
    ensures Launch.Encodable(vertices, edges)
  {
    forall v | v in vertices
      ensures Fits(v.0) && Fits(v.1)
    {
      var i :| 0 <= i < |vertices| && vertices[i] == v;
      assert |vertices[i].0| == 8;
    }
  }

  /** A labelling job from the graph to the point where supersteps can begin: the workers, each with
      its own byte tables, take the load and the algorithm. They are then a launched cluster,
      each is what the driver's protocol takes it to be, and every batch of a superstep can be handed
      to it, since its labels fit its store. */
  method LaunchLabelling(
      hash: Bytes -> nat, vertices: seq<(Bytes, Bytes)>, edges: seq<StoredEdge>, workers: seq<Worker.Worker<()>>,
      ghost max: nat)
    requires |workers| >= 1 && Launch.Separate(workers)
    requires EncodedInput(vertices) && forall e :: e in edges ==> EdgeFits(e)
    requires forall p: nat :: p < |workers| ==> |EdgesFor(hash, |workers|, edges, p)| <= INDEX_LIMIT
    requires forall w :: w in workers ==> Launch.Connected(w, (), |workers|) && w.alg == WccAlg()
    modifies Launch.States(workers), Launch.Counters(workers), set w | w in workers :: w
    ensures WccLaunched(Job(WccAlg(), hash, max), vertices, edges, Launch.ClusterOf(workers, ()))
    ensures forall i :: 0 <= i < |workers| ==>
              Launch.StandsBy(workers[i], Launch.ClusterOf(workers, ()).sites[i]) && Worker.SmallValues(workers[i].alg)
  {
    EncodedFits(vertices, edges);
    WccValuesAreSmall();
    hide *;
    Launch.LaunchJob(hash, vertices, edges, workers, ());
    WccLaunchedIs(hash, max, vertices, edges, Launch.ClusterOf(workers, ()));
  }

  lemma WccLaunchedIs(
      hash: Bytes -> nat, max: nat, vertices: seq<(Bytes, Bytes)>, edges: seq<StoredEdge>,
      c0: Cluster<Bytes, Bytes, Bytes, Bytes, ()>)
    requires EncodedInput(vertices) && FreshlyLoaded(hash, vertices, edges, c0)
    ensures WccLaunched(Job(WccAlg(), hash, max), vertices, edges, c0)
  {
  }

  /** `l` is the least id among the vertices that reach `v`. */
  ghost predicate LeastIdReaching(vs: set<nat>, edges: multiset<Edge<nat, nat>>, v: nat, l: nat) {
    Reaches(vs, edges, l, v) && forall u: nat :: Reaches(vs, edges, u, v) ==> l <= u
  }

  lemma LeastLocally(vs: set<nat>, edges: multiset<Edge<nat, nat>>, v: nat, l: nat)
    requires IsLeast(LocalWccReading(), vs, edges, v, l) && v in vs && v < U64_LIMIT
    ensures LeastIdReaching(vs, edges, v, l)
  {
    var x := LocalWccReading();
    forall u: nat | Reaches(vs, edges, u, v)
      ensures l <= u
    {
      var w :| IsWalk(vs, edges, u, w, v);
      LocalWeightlessCost(w);
      assert Carries(x, vs, edges, u, w, v, u);
    }
    assert IsWalk(vs, edges, v, [], v);
    assert Reaches(vs, edges, v, v);
    var u, w :| Carries(x, vs, edges, u, w, v, l);
    LocalWeightlessCost(w);
    assert Reaches(vs, edges, u, v);
  }

  /** Labelling on the partitioned engine without any cap: the loop ends on its own within |V| + 1
      supersteps, with the least reaching id on every vertex. */
  method LabelComponents(graph: PartitionedGraph.Graph<nat, nat, nat>) returns (ghost executed: nat)
    requires graph.Valid() && U64Vertices(graph.verts)
    modifies graph`verts, graph.partitions
    ensures graph.Valid() && graph.verts.Keys == old(graph.verts).Keys
    ensures executed <= |old(graph.verts)| + 1
    ensures forall v: nat :: v in graph.verts ==>
              LeastIdReaching(graph.verts.Keys, multiset(graph.allEdges), v, graph.verts[v])
  {
    hide PartitionedGraph.Partitioned, Bulk, IsLeast, Suitable, LeastIdReaching, Admissible;
    ghost var verts, edges := graph.verts, multiset(graph.allEdges);
    ghost var bound := |verts| + 1;
    LocalWccAdmissible();
    LocalWccFallsSilent(edges, verts);
    LocalWccSuitable(edges, verts);
    LocalWccQuiescent();
    executed := graph.Compute(LocalWccAlg(), bound, LocalWccProgram(), U64Typing());
    FinalLabels(LocalWccProgram(), LocalWccReading(), U64Typing(), edges, verts, bound);
    forall v: nat | v in verts
      ensures LeastIdReaching(verts.Keys, edges, v, graph.verts[v])
    {
      LeastLocally(verts.Keys, edges, v, graph.verts[v]);
    }
  }

  // ---------------------------------------------------------------------------------------
  // Shortest paths.

  const U64_MAX: nat := U64_LIMIT - 1

  /** Shortest paths on the in-memory engine, with the largest iteration cap there is. */
  method ShortestPaths(graph: MemGraph.InMemoryGraph<int, int, int>, src: int) returns (executed: nat)
    requires graph.Valid() && Weighted(graph.vertices, multiset(graph.edges)) && |graph.vertices| <= U64_MAX
    modifies graph`vertices
    ensures graph.vertices.Keys == old(graph.vertices).Keys
    ensures var edges, verts, right := multiset(graph.edges), old(graph.vertices),
              (forall v :: v in graph.vertices ==>
                 IsDistance(graph.vertices.Keys, multiset(graph.edges), src, v, graph.vertices[v]));
            && (NoOverflow(src, verts, edges) ==> right && executed <= |verts| + 1)
            && (right && |verts| < U64_MAX ==> NoOverflow(src, verts, edges))
  {
    hide Bulk, IsDistance, Admissible, Weighted, NoOverflow;
    ghost var verts := graph.vertices;
    SsspAdmissible(src);
    if |verts| < U64_MAX {
      SsspExactlyWhen(src, verts, multiset(graph.edges), U64_MAX);
    }
    if NoOverflow(src, verts, multiset(graph.edges)) {
      SsspComputesDistances(src, verts, multiset(graph.edges), U64_MAX);
    }
    RunKeepsKeys(SsspProgram(src), multiset(graph.edges), verts, U64_MAX);
    executed := graph.RunWithFunction(SsspAlg(src), U64_MAX, SsspProgram(src), AnyTyping());
  }

  // ---------------------------------------------------------------------------------------
  // PageRank.

  /** From a uniform start, PageRank on any number of workers, with any hash and any listing order,
      ends with the same values. */
  lemma {:induction false} PageRankOnAnyCluster<K(!new), E(!new)>(
      alpha: real, v0: real, max: nat, hashA: K -> nat, hashB: K -> nat,
      vertices: seq<(K, real)>, edges: seq<Edge<K, E>>,
      ca: Cluster<K, real, E, real, Option<real>>, cb: Cluster<K, real, E, real, Option<real>>, k: K)
    requires v0 > 0.0 && forall k :: k in PutAll(map[], vertices) ==> PutAll(map[], vertices)[k] == v0
    requires FreshlyLoaded(hashA, vertices, edges, ca) && FreshlyLoaded(hashB, vertices, edges, cb)
    requires FreshFunctions(PageRankAlg<K, E>(alpha), ca.sites) && FreshFunctions(PageRankAlg<K, E>(alpha), cb.sites)
    requires k in PutAll(map[], vertices)
    ensures ValidCluster(ca) && ValidCluster(cb)
    ensures var ra := ExecuteFrom(Job(PageRankAlg<K, E>(alpha), hashA, max), ca, 1);
            var rb := ExecuteFrom(Job(PageRankAlg<K, E>(alpha), hashB, max), cb, 1);
            && ra.Some? && rb.Some? && ra.value.1 == rb.value.1
            && ValueOf(hashA, ra.value.0, k) == ValueOf(hashB, rb.value.0, k) != None
  {
    var t := (1.0 - alpha) * v0;
    var p, ty := PageRankProgram<K, E>(alpha, t), PageRankTyping<K>(v0, t);
    PageRankAdmissible<K, E>(alpha, v0);
    assert OkStart(ty, PutAll(map[], vertices));
    hide Admissible, FreshlyLoaded, ExecuteFrom, PageRankProgram, PageRankTyping, PageRankAlg;
    IndependentOfWorkers(Job(PageRankAlg<K, E>(alpha), hashA, max), Job(PageRankAlg<K, E>(alpha), hashB, max),
                         p, ty, vertices, edges, ca, cb, k);
  }

  // ---------------------------------------------------------------------------------------
  // All engines.

  /** The job on a cluster of freshly loaded workers ends as the reference run does. */
  method ClusterRuns<K(!new, ==), V(!new), E(!new), M(!new, ==), S(!new)>(
      alg: Alg<K, V, E, M, S>, hash: K -> nat, ghost vertices: seq<(K, V)>, ghost edges: seq<Edge<K, E>>,
      stores: seq<Store<K, V, E>>, max: nat, ghost p: Program<K, V, E, M>, ghost ty: Typing<K, V, M, S>)
    returns (cluster: Driver.DistributedDriver<K, V, E, M, S>, executed: Option<int>)
    requires Admissible(alg, p, ty) && OkStart(ty, PutAll(map[], vertices))
    requires |stores| >= 1
    requires forall i :: 0 <= i < |stores| ==> StoreHolds(stores[i], Share(hash, |stores|, vertices, edges, i))
    ensures var (end, n) := Run(Bulk(p, multiset(edges)), Start(PutAll(map[], vertices)), max);
            && executed == Some(n)
            && end.verts.Keys == PutAll(map[], vertices).Keys
            && forall k :: k in end.verts ==>
                 ValueOf(hash, Cluster(cluster.Sites(), EmptyInboxes<K, M>(|cluster.Sites()|)), k) == Some(end.verts[k])
  {
    hide Admissible, Bulk, StoreHolds, Share, ExecuteFrom, Represents, PutAll, OkStart, Run;
    cluster := new Driver.DistributedDriver(hash, alg, stores);
    ghost var c0 := Cluster(cluster.Sites(), EmptyInboxes<K, M>(|stores|));
    ghost var job := Job(alg, hash, max);
    StoresLaunch(job, p, ty, vertices, edges, stores, c0);
    LaunchedExecutes(job, p, ty, vertices, edges, c0);
    executed := cluster.Execute(max);
    RunKeepsKeys(p, multiset(edges), PutAll(map[], vertices), max);
    SitesHold(hash, multiset(edges), ExecuteFrom(job, c0, 1).value.0,
              Cluster(cluster.Sites(), EmptyInboxes<K, M>(|cluster.Sites()|)),
              Run(Bulk(p, multiset(edges)), Start<K, V, M>(PutAll(map[], vertices)), max).0);
  }

  lemma SitesHold<K(!new), V(!new), E(!new), M(!new), S>(
      hash: K -> nat, edges: multiset<Edge<K, E>>, c: Cluster<K, V, E, M, S>, c': Cluster<K, V, E, M, S>,
      st: State<K, V, M>)
    requires Represents(hash, edges, c, st) && c'.sites == c.sites
    ensures forall k :: k in st.verts ==> ValueOf(hash, c', k) == Some(st.verts[k])
  {
    hide Represents;
    forall k | k in st.verts
      ensures ValueOf(hash, c', k) == Some(st.verts[k])
    {
      HeldValue(hash, edges, c, st, k);
    }
  }

  /** The same job on the in-memory engine, on the partitioned engine and on a cluster, with any
      parallelism and any number of workers: the same final value for every vertex, the edge list
      untouched, and as many supersteps. */
  method EnginesAgree<K(!new, ==), V(!new), E(!new), M(!new, ==), S(!new)>(
      alg: Alg<K, V, E, M, S>, hash: K -> nat, vertices: seq<(K, V)>, edges: seq<Edge<K, E>>,
      partitions: nat, parallelism: nat, stores: seq<Store<K, V, E>>, max: nat,
      ghost p: Program<K, V, E, M>, ghost ty: Typing<K, V, M, S>)
    returns (mem: MemGraph.InMemoryGraph<K, V, E>, part: PartitionedGraph.Graph<K, V, E>,
             cluster: Driver.DistributedDriver<K, V, E, M, S>, executedHere: nat, ghost executedInParts: nat,
             executedThere: Option<int>)
    requires Admissible(alg, p, ty) && OkStart(ty, PutAll(map[], vertices))
    requires |stores| >= 1
    requires forall i :: 0 <= i < |stores| ==> StoreHolds(stores[i], Share(hash, |stores|, vertices, edges, i))
    ensures part.verts == mem.vertices && part.allEdges == mem.edges == edges
    ensures executedInParts == executedHere && executedThere == Some(executedHere)
    ensures forall k :: k in mem.vertices ==>
              ValueOf(hash, Cluster(cluster.Sites(), EmptyInboxes<K, M>(|cluster.Sites()|)), k) == Some(mem.vertices[k])
  {
    hide Admissible, Bulk, StoreHolds, Share, PutAll, OkStart, ValueOf, Run;
    mem := new MemGraph.InMemoryGraph(vertices, edges);
    executedHere := mem.RunWithFunction(alg, max, p, ty);
    var spread := new PartitionedGraph.Graph(hash, vertices, edges, partitions);
    part, executedInParts := spread.ComputeAlgorithm(alg, max, parallelism, p, ty);
    cluster, executedThere := ClusterRuns(alg, hash, vertices, edges, stores, max, p, ty);
  }

  lemma {:induction false} StoresLaunch<K(!new), V(!new), E(!new), M(!new), S(!new)>(
      job: Job<K, V, E, M, S>, p: Program<K, V, E, M>, ty: Typing<K, V, M, S>,
      vertices: seq<(K, V)>, edges: seq<Edge<K, E>>, stores: seq<Store<K, V, E>>, c0: Cluster<K, V, E, M, S>)
    requires Admissible(job.alg, p, ty) && OkStart(ty, PutAll(map[], vertices)) && |stores| >= 1
    requires forall i :: 0 <= i < |stores| ==> StoreHolds(stores[i], Share(job.hash, |stores|, vertices, edges, i))
    requires c0.sites == seq(|stores|, i requires 0 <= i < |stores| => Site(stores[i], job.alg.init))
    requires c0.inboxes == EmptyInboxes<K, M>(|stores|)
    ensures Launched(job, p, ty, vertices, edges, c0)
  {
    hide Admissible, StoreHolds, Share;
  }
}
