/** Recovery from crashes: what a run that starts from the latest checkpoint ends with, after any
    number of crashes, and when it is that it does not return.
 */
module Recovery {
  import opened Options
  import opened Bags
  import opened Runs
  import opened Bsp
  import opened Shuffle
  import opened WorkerCore
  import opened Rounds
  import opened Refinement
  import opened Loading
  import opened Disk
  import opened Attempts
  import opened Scheduler

  /** Nothing a vertex function hides needs saving: a fresh instance is ready for any superstep. */
  ghost predicate NothingHidden<K, V, E, M, S>(alg: Alg<K, V, E, M, S>, ty: Typing<K, V, M, S>) {
    forall it: nat :: ty.ready(alg.init, it)
  }

  /** Every worker runs a fresh instance of the vertex function. */
  ghost predicate FreshFunctions<K, V, E, S, M>(alg: Alg<K, V, E, M, S>, sites: seq<Site<K, V, E, S>>) {
    forall i :: 0 <= i < |sites| ==> sites[i].algo == alg.init
  }

  /** A job whose vertex function is admissible, on a freshly loaded cluster. */
  ghost predicate Launched<K(!new), V(!new), E(!new), M(!new), S(!new)>(
      job: Job<K, V, E, M, S>, p: Program<K, V, E, M>, ty: Typing<K, V, M, S>,
      vertices: seq<(K, V)>, edges: seq<Edge<K, E>>, c0: Cluster<K, V, E, M, S>)
  {
    && Admissible(job.alg, p, ty)
    && OkStart(ty, PutAll(map[], vertices))
    && FreshlyLoaded(job.hash, vertices, edges, c0)
    && FreshFunctions(job.alg, c0.sites)
  }

  /** The state of the graph after superstep `k` of the job. */
  ghost function StateAfter<K(!new), V(!new), E(!new), M(!new)>(
      p: Program<K, V, E, M>, vertices: seq<(K, V)>, edges: seq<Edge<K, E>>, k: nat): State<K, V, M>
  {
    After(Bulk(p, multiset(edges)), Start(PutAll(map[], vertices)), k)
  }

  /** What the uninterrupted job ends with. */
  ghost function Answer<K(!new), V(!new), E(!new), M(!new)>(
      p: Program<K, V, E, M>, vertices: seq<(K, V)>, edges: seq<Edge<K, E>>, max: nat): State<K, V, M>
  {
    Runs.Run(Bulk(p, multiset(edges)), Start(PutAll(map[], vertices)), max).0
  }

  /** The cluster `c` is where the job is after superstep `k`, and ready to go on. A freshly loaded
      cluster is, for k == 0; so is what a recovery finds. */
  ghost predicate Stands<K(!new), V(!new), E(!new), M(!new), S(!new)>(
      job: Job<K, V, E, M, S>, p: Program<K, V, E, M>, ty: Typing<K, V, M, S>,
      vertices: seq<(K, V)>, edges: seq<Edge<K, E>>, c: Cluster<K, V, E, M, S>, k: nat)
  {
    && Admissible(job.alg, p, ty)
    && OkStart(ty, PutAll(map[], vertices))
    && Represents(job.hash, multiset(edges), c, StateAfter(p, vertices, edges, k))
    && Ready(ty, c, k + 1)
  }

  lemma LaunchedStands<K(!new), V(!new), E(!new), M(!new), S(!new)>(
      job: Job<K, V, E, M, S>, p: Program<K, V, E, M>, ty: Typing<K, V, M, S>,
      vertices: seq<(K, V)>, edges: seq<Edge<K, E>>, c0: Cluster<K, V, E, M, S>)
    requires Launched(job, p, ty, vertices, edges, c0)
    ensures Stands(job, p, ty, vertices, edges, c0, 0)
  {
    hide OrderInsensitive, KeepsTyping;
    LoadedRepresents(job.hash, vertices, edges, c0);
    assert ty.ready(job.alg.init, 1);
    hide FreshlyLoaded;
  }

  lemma StandsValid<K(!new), V(!new), E(!new), M(!new), S(!new)>(
      job: Job<K, V, E, M, S>, p: Program<K, V, E, M>, ty: Typing<K, V, M, S>,
      vertices: seq<(K, V)>, edges: seq<Edge<K, E>>, c: Cluster<K, V, E, M, S>, k: nat)
    requires Stands(job, p, ty, vertices, edges, c, k)
    ensures ValidCluster(c)
  {
    hide Admissible, OkStart;
  }

  lemma StandsTyped<K(!new), V(!new), E(!new), M(!new), S(!new)>(
      job: Job<K, V, E, M, S>, p: Program<K, V, E, M>, ty: Typing<K, V, M, S>,
      vertices: seq<(K, V)>, edges: seq<Edge<K, E>>, c: Cluster<K, V, E, M, S>, k: nat, it: nat)
    requires Stands(job, p, ty, vertices, edges, c, k) && it == k + 1
    ensures Admissible(job.alg, p, ty) && OkState(ty, StateAfter(p, vertices, edges, k), it)
  {
    hide OkState, Bulk, Behaves, OrderInsensitive, Represents, Ready;
    AfterKeepsTyping(p, ty, multiset(edges), PutAll(map[], vertices), k, it);
  }

  /** A round takes the cluster where the job is after the next superstep. */
  lemma StandsNext<K(!new), V(!new), E(!new), M(!new), S(!new)>(
      job: Job<K, V, E, M, S>, p: Program<K, V, E, M>, ty: Typing<K, V, M, S>,
      vertices: seq<(K, V)>, edges: seq<Edge<K, E>>, c: Cluster<K, V, E, M, S>, k: nat, it: nat)
    requires Stands(job, p, ty, vertices, edges, c, k) && it == k + 1
    ensures ValidCluster(c) && Round(job, c, it).Some?
    ensures Stands(job, p, ty, vertices, edges, Round(job, c, it).value.0, it)
  {
    hide Admissible, OkStart, OkState, Represents, Ready, Round, Superstep, Bulk;
    StandsValid(job, p, ty, vertices, edges, c, k);
    StandsTyped(job, p, ty, vertices, edges, c, k, it);
    BulkAfter(p, multiset(edges), Start<K, V, M>(PutAll(map[], vertices)), k, it);
    RoundRefines(job, p, ty, multiset(edges), c, StateAfter(p, vertices, edges, k), it);
  }

  /** Every cut of a run, fresh or recovered, is where the job is after as many supersteps. */
  lemma {:induction false} CutRepresents<K(!new), V(!new), E(!new), M(!new), S(!new)>(
      job: Job<K, V, E, M, S>, p: Program<K, V, E, M>, ty: Typing<K, V, M, S>,
      vertices: seq<(K, V)>, edges: seq<Edge<K, E>>, c0: Cluster<K, V, E, M, S>, k0: nat, k: nat)
    requires Stands(job, p, ty, vertices, edges, c0, k0) && k0 <= k
    ensures ValidCluster(c0)
    ensures var c := Cut(job, c0, k0 + 1, k);
            c.Some? && Stands(job, p, ty, vertices, edges, c.value, k)
    decreases k
  {
    hide Stands, Round;
    StandsValid(job, p, ty, vertices, edges, c0, k0);
    if k > k0 {
      CutRepresents(job, p, ty, vertices, edges, c0, k0, k - 1);
      StandsNext(job, p, ty, vertices, edges, Cut(job, c0, k0 + 1, k - 1).value, k - 1, k);
    }
  }

  /** A cluster of other workers with the same stores and inboxes represents the same state. */
  lemma SameStores<K(!new), V(!new), E(!new), M(!new), S>(
      hash: K -> nat, edges: multiset<Edge<K, E>>, c: Cluster<K, V, E, M, S>, c': Cluster<K, V, E, M, S>,
      st: State<K, V, M>)
    requires Represents(hash, edges, c, st)
    requires |c'.sites| == |c.sites| && c'.inboxes == c.inboxes
    requires forall i :: 0 <= i < |c.sites| ==> c'.sites[i].store == c.sites[i].store
    ensures Represents(hash, edges, c', st)
  {
    hide Sees, PartitionOf;
    forall i | 0 <= i < |c'.sites|
      ensures Sees(edges, st, c'.sites[i].store, c'.inboxes[i])
    {
      assert Sees(edges, st, c.sites[i].store, c.inboxes[i]);
    }
  }

  // ---------------------------------------------------------------------------------------
  // One recovery.

  /** A crash of the attempt `a` left `d`, whose latest checkpoint is a complete cut, and `sites` are
      the workers that take over: as many, with fresh vertex functions. */
  ghost predicate TakesOver<K, V, E, M, S>(
      a: Attempt<K, V, E, M, S>, d: DiskState<K, V, E, M>, sites: seq<Site<K, V, E, S>>)
    requires ValidCluster(a.c0)
  {
    a.spec.On() && Survives(a, d) && |sites| == |a.c0.sites| && FreshFunctions(a.job.alg, sites)
  }

  /** The attempt that follows. */
  ghost function Successor<K, V, E, M, S>(
      a: Attempt<K, V, E, M, S>, d: DiskState<K, V, E, M>, sites: seq<Site<K, V, E, S>>): (b: Attempt<K, V, E, M, S>)
    requires ValidCluster(a.c0) && TakesOver(a, d, sites)
    ensures SameWorkers(a.spec, d, |sites|) && InboxesSaved(a.spec, d)
    ensures b == Attempt(a.job, a.spec, d, Beginning(a.spec, d, sites))
    ensures ValidCluster(b.c0) && |b.c0.sites| == |a.c0.sites| && b.First() == d.latest.value.iteration + 1
  {
    Attempt(a.job, a.spec, d, Beginning(a.spec, d, sites))
  }

  /** A run that moved `latest` can be taken over, whatever else its crash left behind. */
  lemma MovedSurvives<K, V, E, M, S>(a: Attempt<K, V, E, M, S>, d: DiskState<K, V, E, M>)
    requires ValidCluster(a.c0) && Consistent(a, d) && d.latest != a.disk.latest
    ensures Survives(a, d)
  {
    hide HoldsCut;
  }

  /** The history of a run has, for every checkpoint that was due, a disk from which it can be taken
      over at that checkpoint. */
  lemma DueCheckpointSurvives<K, V, E, M, S>(
      a: Attempt<K, V, E, M, S>, hs: seq<DiskState<K, V, E, M>>, last: int, k: nat, sites: seq<Site<K, V, E, S>>)
    requires ValidCluster(a.c0) && AllLeftBehind(a, hs) && AllStages(a, hs, last)
    requires a.First() <= k <= last && a.spec.DueAt(k) && a.disk.latest != Some(CheckpointMeta(k))
    requires |sites| == |a.c0.sites| && FreshFunctions(a.job.alg, sites)
    ensures exists j :: 0 <= j < |hs| && LeftBehind(a, hs[j]) && TakesOver(a, hs[j], sites)
                        && hs[j].latest == Some(CheckpointMeta(k))
  {
    hide LeftBehind, Survives, FreshFunctions, Begun, SameAbove;
    assert Stages(a.disk, hs, k, |a.c0.sites|);
    var j :| 0 <= j < |hs| && hs[j].latest == Some(CheckpointMeta(k)) && SameAbove(a.disk, hs[j], k);
    assert LeftBehind(a, hs[j]);
    LeftConsistent(a, hs[j]);
    MovedSurvives(a, hs[j]);
  }

  lemma LeftConsistent<K, V, E, M, S>(a: Attempt<K, V, E, M, S>, d: DiskState<K, V, E, M>)
    requires ValidCluster(a.c0) && LeftBehind(a, d)
    ensures Consistent(a, d)
  {
    hide Consistent, Traced, LiveStores;
  }

  /** The stores and inboxes that a run takes over are those of the cut. */
  lemma {:induction false} SuccessorRepresents<K(!new), V(!new), E(!new), M(!new), S(!new)>(
      a: Attempt<K, V, E, M, S>, edges: multiset<Edge<K, E>>, st: State<K, V, M>, d: DiskState<K, V, E, M>,
      sites: seq<Site<K, V, E, S>>)
    requires ValidCluster(a.c0) && TakesOver(a, d, sites)
    requires CutOf(a, d.latest.value.iteration).Some?
    requires Represents(a.job.hash, edges, CutOf(a, d.latest.value.iteration).value, st)
    ensures Represents(a.job.hash, edges, Successor(a, d, sites).c0, st)
  {
    hide Cut, Represents;
    var k := d.latest.value.iteration;
    var c, c' := CutOf(a, k).value, Successor(a, d, sites).c0;
    forall i: nat | i < |c.sites|
      ensures c'.sites[i].store == c.sites[i].store
    {
      assert (k, i) in d.snapshots;
    }
    SameStores(a.job.hash, edges, c, c', st);
  }

  /** The run that recovers begins where the job was after the superstep of the checkpoint. */
  lemma {:induction false} BeginsAtCut<K(!new), V(!new), E(!new), M(!new), S(!new)>(
      a: Attempt<K, V, E, M, S>, p: Program<K, V, E, M>, ty: Typing<K, V, M, S>,
      vertices: seq<(K, V)>, edges: seq<Edge<K, E>>, k0: nat, d: DiskState<K, V, E, M>, sites: seq<Site<K, V, E, S>>)
    requires Stands(a.job, p, ty, vertices, edges, a.c0, k0) && a.First() == k0 + 1 && NothingHidden(a.job.alg, ty)
    requires ValidCluster(a.c0) && TakesOver(a, d, sites)
    ensures Stands(a.job, p, ty, vertices, edges, Successor(a, d, sites).c0, d.latest.value.iteration)
  {
    hide Cut, Represents, Admissible, OkStart;
    var k := d.latest.value.iteration;
    CutRepresents(a.job, p, ty, vertices, edges, a.c0, k0, k);
    SuccessorRepresents(a, multiset(edges), StateAfter(p, vertices, edges, k), d, sites);
  }

  /** A run that recovers goes on with the supersteps that follow the checkpoint, whether or not the
      vertex function falls silent by itself. */
  lemma {:induction false} RecoveryGoesOn<K(!new), V(!new), E(!new), M(!new), S(!new)>(
      a: Attempt<K, V, E, M, S>, p: Program<K, V, E, M>, ty: Typing<K, V, M, S>,
      vertices: seq<(K, V)>, edges: seq<Edge<K, E>>, k0: nat, d: DiskState<K, V, E, M>, sites: seq<Site<K, V, E, S>>)
    requires Stands(a.job, p, ty, vertices, edges, a.c0, k0) && a.First() == k0 + 1 && NothingHidden(a.job.alg, ty)
    requires ValidCluster(a.c0) && TakesOver(a, d, sites)
    ensures var b, k := Successor(a, d, sites), d.latest.value.iteration;
            var rest := RunFrom(Bulk(p, multiset(edges)), StateAfter(p, vertices, edges, k), k + 1, a.job.max);
            && b.Outcome().Some? && b.Outcome().value.1 == rest.1
            && |b.Outcome().value.0.sites| == |a.c0.sites|
            && Represents(a.job.hash, multiset(edges), b.Outcome().value.0, rest.0)
  {
    hide Represents, NothingHidden, HoldsCut, ExecuteFrom, Beginning, Bulk, FreshFunctions, Admissible, OkStart,
      OkState, Ready;
    BeginsAtCut(a, p, ty, vertices, edges, k0, d, sites);
    var b, k := Successor(a, d, sites), d.latest.value.iteration;
    hide TakesOver;
    StandsTyped(a.job, p, ty, vertices, edges, b.c0, k, k + 1);
    ExecuteRefines(a.job, p, ty, multiset(edges), b.c0, StateAfter(p, vertices, edges, k), k + 1);
  }

  /** If the run would have got past the checkpoint, the recovered run ends where it would have ended,
      after as many supersteps. */
  lemma {:induction false} RecoveryEndsAsJob<K(!new), V(!new), E(!new), M(!new), S(!new)>(
      a: Attempt<K, V, E, M, S>, p: Program<K, V, E, M>, ty: Typing<K, V, M, S>,
      vertices: seq<(K, V)>, edges: seq<Edge<K, E>>, k0: nat, d: DiskState<K, V, E, M>, sites: seq<Site<K, V, E, S>>)
    requires Stands(a.job, p, ty, vertices, edges, a.c0, k0) && a.First() == k0 + 1 && NothingHidden(a.job.alg, ty)
    requires ValidCluster(a.c0) && TakesOver(a, d, sites)
    requires a.Outcome().Some? ==> a.Outcome().value.1 > d.latest.value.iteration
    ensures var b := Successor(a, d, sites);
            var (end, executed) :=
              RunFrom(Bulk(p, multiset(edges)), StateAfter(p, vertices, edges, k0), k0 + 1, a.job.max);
            && a.Outcome().Some? && b.Outcome().Some?
            && a.Outcome().value.1 == b.Outcome().value.1 == executed
            && Represents(a.job.hash, multiset(edges), a.Outcome().value.0, end)
            && Represents(a.job.hash, multiset(edges), b.Outcome().value.0, end)
  {
    hide Represents, NothingHidden, HoldsCut, ExecuteFrom, Beginning, Bulk, FreshFunctions, Admissible, OkStart,
      OkState, Ready, Successor;
    StandsTyped(a.job, p, ty, vertices, edges, a.c0, k0, k0 + 1);
    ExecuteRefines(a.job, p, ty, multiset(edges), a.c0, StateAfter(p, vertices, edges, k0), k0 + 1);
    RecoveryGoesOn(a, p, ty, vertices, edges, k0, d, sites);
    RunFromMiddle(Bulk(p, multiset(edges)), Start<K, V, M>(PutAll(map[], vertices)), k0, d.latest.value.iteration,
                  a.job.max);
  }

  lemma {:induction false} ResumedAnswer<K(!new), V(!new), E(!new), M(!new)>(
      p: Program<K, V, E, M>, vertices: seq<(K, V)>, edges: seq<Edge<K, E>>, k: nat, max: nat)
    requires Quiescent(p) && k <= max
    ensures RunFrom(Bulk(p, multiset(edges)), StateAfter(p, vertices, edges, k), k + 1, max).0
         == Answer(p, vertices, edges, max)
  {
    hide Bulk, Quiescent, Settles;
    QuiescentSettles(p, multiset(edges));
    if k > 0 {
      ResumeIsHarmless(Bulk(p, multiset(edges)), Start<K, V, M>(PutAll(map[], vertices)), k, max);
    }
  }

  /** From wherever the job stands, the rest of it takes the cluster to the answer, even if the last
      superstep was already silent. */
  lemma {:induction false} StandsToAnswer<K(!new), V(!new), E(!new), M(!new), S(!new)>(
      job: Job<K, V, E, M, S>, p: Program<K, V, E, M>, ty: Typing<K, V, M, S>,
      vertices: seq<(K, V)>, edges: seq<Edge<K, E>>, c: Cluster<K, V, E, M, S>, k: nat)
    requires Stands(job, p, ty, vertices, edges, c, k) && Quiescent(p) && k <= job.max
    ensures ValidCluster(c)
    ensures var run := ExecuteFrom(job, c, k + 1);
            && run.Some? && |run.value.0.sites| == |c.sites|
            && run.value.1 == RunFrom(Bulk(p, multiset(edges)), StateAfter(p, vertices, edges, k), k + 1, job.max).1
            && Represents(job.hash, multiset(edges), run.value.0, Answer(p, vertices, edges, job.max))
  {
    hide Admissible, OkStart, OkState, Represents, Ready, Quiescent, Bulk;
    StandsValid(job, p, ty, vertices, edges, c, k);
    StandsTyped(job, p, ty, vertices, edges, c, k, k + 1);
    ResumedAnswer(p, vertices, edges, k, job.max);
    ExecuteRefines(job, p, ty, multiset(edges), c, StateAfter(p, vertices, edges, k), k + 1);
  }

  /** Crash recovery preserves the answer. Take any disk that a crash of any run, fresh or recovered,
      may leave behind with a complete checkpoint named by `latest`. A run of the same job with as
      many fresh workers that recovers from it has no failing superstep, ends with the graph in the
      state that the uninterrupted job ends with, and would itself be recovered from in this way. */
  lemma {:induction false} RecoveryPreservesAnswer<K(!new), V(!new), E(!new), M(!new), S(!new)>(
      a: Attempt<K, V, E, M, S>, p: Program<K, V, E, M>, ty: Typing<K, V, M, S>,
      vertices: seq<(K, V)>, edges: seq<Edge<K, E>>, k0: nat, d: DiskState<K, V, E, M>, sites: seq<Site<K, V, E, S>>)
    requires Stands(a.job, p, ty, vertices, edges, a.c0, k0) && a.First() == k0 + 1
    requires Quiescent(p) && NothingHidden(a.job.alg, ty)
    requires ValidCluster(a.c0) && TakesOver(a, d, sites)
    ensures var b := Successor(a, d, sites);
            && Stands(a.job, p, ty, vertices, edges, b.c0, d.latest.value.iteration)
            && b.Outcome().Some? && |b.Outcome().value.0.sites| == |a.c0.sites|
            && Represents(a.job.hash, multiset(edges), b.Outcome().value.0, Answer(p, vertices, edges, a.job.max))
  {
    hide Stands, Represents, Quiescent, NothingHidden, Answer, HoldsCut, ExecuteFrom, Beginning, Bulk, FreshFunctions;
    BeginsAtCut(a, p, ty, vertices, edges, k0, d, sites);
    hide TakesOver;
    StandsToAnswer(a.job, p, ty, vertices, edges, Successor(a, d, sites).c0, d.latest.value.iteration);
  }

  // ---------------------------------------------------------------------------------------
  // Any number of recoveries.

  /** A crash: the disk it left behind, and the workers that take over. */
  datatype Crash<K(==), V, E, M, S> = Crash(disk: DiskState<K, V, E, M>, sites: seq<Site<K, V, E, S>>)

  /** Each run crashes, and the next one takes over. */
  ghost predicate Chain<K, V, E, M, S>(a: Attempt<K, V, E, M, S>, crashes: seq<Crash<K, V, E, M, S>>)
    requires ValidCluster(a.c0)
    decreases |crashes|
  {
    crashes == []
    || (TakesOver(a, crashes[0].disk, crashes[0].sites)
        && Chain(Successor(a, crashes[0].disk, crashes[0].sites), crashes[1..]))
  }

  /** The run after the last crash. */
  ghost function Last<K, V, E, M, S>(
      a: Attempt<K, V, E, M, S>, crashes: seq<Crash<K, V, E, M, S>>): (b: Attempt<K, V, E, M, S>)
    requires ValidCluster(a.c0) && Chain(a, crashes)
    ensures ValidCluster(b.c0) && b.job == a.job && b.spec == a.spec
    decreases |crashes|
  {
    if crashes == [] then a else Last(Successor(a, crashes[0].disk, crashes[0].sites), crashes[1..])
  }

  /** However often a job crashes and is taken over from a complete latest checkpoint, the last run
      ends with the state that the uninterrupted job ends with. */
  lemma {:induction false} ChainPreservesAnswer<K(!new), V(!new), E(!new), M(!new), S(!new)>(
      a: Attempt<K, V, E, M, S>, p: Program<K, V, E, M>, ty: Typing<K, V, M, S>,
      vertices: seq<(K, V)>, edges: seq<Edge<K, E>>, k0: nat, crashes: seq<Crash<K, V, E, M, S>>)
    requires Stands(a.job, p, ty, vertices, edges, a.c0, k0) && a.First() == k0 + 1 && k0 <= a.job.max
    requires Quiescent(p) && NothingHidden(a.job.alg, ty)
    requires ValidCluster(a.c0) && Chain(a, crashes)
    ensures var b := Last(a, crashes);
            && Stands(b.job, p, ty, vertices, edges, b.c0, b.First() - 1) && b.First() - 1 <= b.job.max
            && |b.c0.sites| == |a.c0.sites|
            && b.Outcome().Some? && |b.Outcome().value.0.sites| == |a.c0.sites|
            && Represents(a.job.hash, multiset(edges), b.Outcome().value.0, Answer(p, vertices, edges, a.job.max))
    decreases |crashes|
  {
    hide Stands, Represents, Quiescent, NothingHidden, Answer, HoldsCut;
    if crashes == [] {
      StandsToAnswer(a.job, p, ty, vertices, edges, a.c0, k0);
    } else {
      var d, sites := crashes[0].disk, crashes[0].sites;
      BeginsAtCut(a, p, ty, vertices, edges, k0, d, sites);
      ChainPreservesAnswer(Successor(a, d, sites), p, ty, vertices, edges, d.latest.value.iteration, crashes[1..]);
    }
  }

  // ---------------------------------------------------------------------------------------
  // A recovered run that crashed before it moved `latest`.

  lemma {:induction false} CutKeepsShape<K, V, E, M, S>(
      job: Job<K, V, E, M, S>, c0: Cluster<K, V, E, M, S>, it0: nat, k: nat, i: nat)
    requires ValidCluster(c0) && it0 >= 1 && i < |c0.sites|
    requires forall j :: 0 <= j < |c0.sites| ==> ValidStore(c0.sites[j].store)
    ensures var c := Cut(job, c0, it0, k);
            c.Some? ==>
              && ValidStore(c.value.sites[i].store)
              && c.value.sites[i].store.order == c0.sites[i].store.order
              && c.value.sites[i].store.adj == c0.sites[i].store.adj
    decreases k
  {
    hide Process, Stream, Route;
    if k >= it0 && Cut(job, c0, it0, k).Some? {
      CutKeepsShape(job, c0, it0, k - 1, i);
      var c := Cut(job, c0, it0, k - 1).value;
      ProcessKeepsShape(job.alg, c.sites[i].store, c.sites[i].algo, c.inboxes[i], k);
    }
  }

  lemma RepresentsValidStores<K(!new), V(!new), E(!new), M(!new), S>(
      hash: K -> nat, edges: multiset<Edge<K, E>>, c: Cluster<K, V, E, M, S>, st: State<K, V, M>)
    requires Represents(hash, edges, c, st)
    ensures forall j :: 0 <= j < |c.sites| ==> ValidStore(c.sites[j].store)
  {
    forall j | 0 <= j < |c.sites|
      ensures ValidStore(c.sites[j].store)
    {
      assert Sees(edges, st, c.sites[j].store, c.inboxes[j]);
    }
  }

  /** No worker's value on disk differs from what was opened. */
  ghost predicate Untouched<K, V, E, M, S>(a: Attempt<K, V, E, M, S>, d: DiskState<K, V, E, M>, k: nat) {
    forall i: nat :: i < |a.c0.sites| ==>
      (k, i) in d.snapshots && d.snapshots[(k, i)].verts == a.c0.sites[i].store.verts
  }

  /** A recovered run that crashed without moving `latest` can be taken over exactly when none of its
      live writes has changed a value; otherwise the next run begins with a state that is not the one
      its saved inboxes belong to. */
  lemma {:induction false} UnmovedSurvivesExactlyWhen<K(!new), V(!new), E(!new), M(!new), S(!new)>(
      a: Attempt<K, V, E, M, S>, p: Program<K, V, E, M>, ty: Typing<K, V, M, S>,
      vertices: seq<(K, V)>, edges: seq<Edge<K, E>>, k: nat, d: DiskState<K, V, E, M>, sites: seq<Site<K, V, E, S>>)
    requires Stands(a.job, p, ty, vertices, edges, a.c0, k) && ValidCluster(a.c0) && k <= a.job.max
    requires Recovers(a.spec, a.disk) && a.First() == k + 1 && Complete(a.disk, k, |a.c0.sites|)
    requires a.disk.inboxes[k] == a.c0.inboxes
    requires LeftBehind(a, d) && d.latest == a.disk.latest && |sites| == |a.c0.sites|
    ensures SameWorkers(a.spec, d, |sites|)
    ensures Survives(a, d) <==> Untouched(a, d, k)
    ensures Represents(a.job.hash, multiset(edges), Beginning(a.spec, d, sites), StateAfter(p, vertices, edges, k))
       <==> Untouched(a, d, k)
  {
    hide Represents, Admissible, OkStart, Cut, LeftBehind, Consistent, Traced;
    LiveStoresLeft(a, d, k);
    CutBefore(a);
    RepresentsValidStores(a.job.hash, multiset(edges), a.c0, StateAfter(p, vertices, edges, k));
    var c := Beginning(a.spec, d, sites);
    forall i: nat | i < |a.c0.sites|
      ensures (k, i) in d.snapshots && c.sites[i].store == d.snapshots[(k, i)]
      ensures d.snapshots[(k, i)].order == a.c0.sites[i].store.order
      ensures d.snapshots[(k, i)].adj == a.c0.sites[i].store.adj
    {
      assert IsCutStore(a, i, d.snapshots[(k, i)]);
      var j: nat :| j >= a.First() - 1 && CutOf(a, j).Some? && d.snapshots[(k, i)] == CutOf(a, j).value.sites[i].store;
      CutKeepsShape(a.job, a.c0, a.First(), j, i);
    }
    if Untouched(a, d, k) {
      SameStores(a.job.hash, multiset(edges), a.c0, c, StateAfter(p, vertices, edges, k));
    }
    if Represents(a.job.hash, multiset(edges), c, StateAfter(p, vertices, edges, k)) {
      forall i: nat | i < |a.c0.sites|
        ensures d.snapshots[(k, i)].verts == a.c0.sites[i].store.verts
      {
        SameValues(a.job.hash, multiset(edges), a.c0, c, StateAfter(p, vertices, edges, k), i);
      }
    }
  }

  /** Where the next run begins in any case: with the messages of the checkpoint, and for each vertex a
      value that it had after some superstep from then on. */
  lemma {:induction false} LiveBeginning<K(!new), V(!new), E(!new), M(!new), S(!new)>(
      a: Attempt<K, V, E, M, S>, p: Program<K, V, E, M>, ty: Typing<K, V, M, S>,
      vertices: seq<(K, V)>, edges: seq<Edge<K, E>>, k: nat, d: DiskState<K, V, E, M>, sites: seq<Site<K, V, E, S>>)
    returns (st: State<K, V, M>)
    requires Stands(a.job, p, ty, vertices, edges, a.c0, k) && ValidCluster(a.c0) && k <= a.job.max
    requires Recovers(a.spec, a.disk) && a.First() == k + 1 && Complete(a.disk, k, |a.c0.sites|)
    requires a.disk.inboxes[k] == a.c0.inboxes
    requires LeftBehind(a, d) && d.latest == a.disk.latest && |sites| == |a.c0.sites|
    ensures SameWorkers(a.spec, d, |sites|)
    ensures Represents(a.job.hash, multiset(edges), Beginning(a.spec, d, sites), st)
    ensures st.pool == StateAfter(p, vertices, edges, k).pool
    ensures st.verts.Keys == PutAll(map[], vertices).Keys
    ensures forall v :: v in st.verts ==> HadLater(p, vertices, edges, k, v, st.verts[v])
  {
    hide Admissible, OkStart, Cut, LeftBehind, Consistent, Traced, Bulk, PutAll, Represents;
    LiveStoresLeft(a, d, k);
    CutBefore(a);
    var cut, c := StateAfter(p, vertices, edges, k), Beginning(a.spec, d, sites);
    AfterKeepsKeys(p, multiset(edges), PutAll(map[], vertices), k);
    RepresentsValidStores(a.job.hash, multiset(edges), a.c0, cut);
    var n := |a.c0.sites|;
    var verts := map v | v in cut.verts :: OwnedValue(a.job.hash, c, v, cut.verts[v]);
    st := State(verts, cut.pool);
    hide StateAfter;
    forall i: nat | i < n
      ensures c.sites[i].store.order == a.c0.sites[i].store.order && c.sites[i].store.adj == a.c0.sites[i].store.adj
      ensures ValidStore(c.sites[i].store)
      ensures forall v :: v in c.sites[i].store.verts ==>
                HadLater(p, vertices, edges, k, v, c.sites[i].store.verts[v])
    {
      LiveSite(a, p, ty, vertices, edges, k, d, sites, i);
    }
    hide HadLater, Stands, LiveStores, Beginning, Recovers, Complete;
    LiveRepresents(a.job.hash, multiset(edges), a.c0, c, cut, st);
    forall v | v in st.verts
      ensures HadLater(p, vertices, edges, k, v, st.verts[v])
    {
      RepresentsStores(a.job.hash, multiset(edges), c, st, v);
    }
  }

  /** `v` has this value after superstep `k` or a later one. */
  ghost predicate HadLater<K(!new), V(!new), E(!new), M(!new)>(
      p: Program<K, V, E, M>, vertices: seq<(K, V)>, edges: seq<Edge<K, E>>, k: nat, v: K, value: V)
  {
    exists j: nat :: j >= k && HadAt(p, vertices, edges, j, v, value)
  }

  ghost predicate HadAt<K(!new), V(!new), E(!new), M(!new)>(
      p: Program<K, V, E, M>, vertices: seq<(K, V)>, edges: seq<Edge<K, E>>, j: nat, v: K, value: V)
  {
    v in StateAfter(p, vertices, edges, j).verts && StateAfter(p, vertices, edges, j).verts[v] == value
  }

  ghost function OwnedValue<K, V, E, M, S>(hash: K -> nat, c: Cluster<K, V, E, M, S>, v: K, default: V): V {
    if |c.sites| == 0 then default else
    var store := c.sites[PartitionOf(hash, v, |c.sites|)].store;
    if v in store.verts then store.verts[v] else default
  }

  /** A store on disk is one that its worker had after a superstep from `k` on. */
  lemma {:induction false} LiveSite<K(!new), V(!new), E(!new), M(!new), S(!new)>(
      a: Attempt<K, V, E, M, S>, p: Program<K, V, E, M>, ty: Typing<K, V, M, S>,
      vertices: seq<(K, V)>, edges: seq<Edge<K, E>>, k: nat, d: DiskState<K, V, E, M>, sites: seq<Site<K, V, E, S>>,
      i: nat)
    requires Stands(a.job, p, ty, vertices, edges, a.c0, k) && ValidCluster(a.c0)
    requires Recovers(a.spec, d) && a.First() == k + 1 && d.latest.value.iteration == k
    requires LiveStores(a, k, d) && |sites| == |a.c0.sites| && i < |a.c0.sites|
    requires SameWorkers(a.spec, d, |sites|)
    ensures var store := Beginning(a.spec, d, sites).sites[i].store;
            && store.order == a.c0.sites[i].store.order && store.adj == a.c0.sites[i].store.adj && ValidStore(store)
            && forall v :: v in store.verts ==> HadLater(p, vertices, edges, k, v, store.verts[v])
  {
    hide Admissible, OkStart, Cut, Bulk, PutAll, Represents, StateAfter;
    RepresentsValidStores(a.job.hash, multiset(edges), a.c0, StateAfter(p, vertices, edges, k));
    assert IsCutStore(a, i, d.snapshots[(k, i)]);
    var j: nat :| j >= a.First() - 1 && CutOf(a, j).Some? && d.snapshots[(k, i)] == CutOf(a, j).value.sites[i].store;
    CutKeepsShape(a.job, a.c0, a.First(), j, i);
    CutRepresents(a.job, p, ty, vertices, edges, a.c0, k, j);
    var store := d.snapshots[(k, i)];
    forall v | v in store.verts
      ensures HadLater(p, vertices, edges, k, v, store.verts[v])
    {
      RepresentsStores(a.job.hash, multiset(edges), CutOf(a, j).value, StateAfter(p, vertices, edges, j), v);
      assert HadAt(p, vertices, edges, j, v, store.verts[v]);
    }
  }

  /** Stores with the vertices, order and edges of a cluster, and its inboxes, represent a state with
      their own values. */
  lemma {:induction false} LiveRepresents<K(!new), V(!new), E(!new), M(!new), S>(
      hash: K -> nat, edges: multiset<Edge<K, E>>, c: Cluster<K, V, E, M, S>, c': Cluster<K, V, E, M, S>,
      cut: State<K, V, M>, st: State<K, V, M>)
    requires Represents(hash, edges, c, cut)
    requires |c'.sites| == |c.sites| && c'.inboxes == c.inboxes && st.pool == cut.pool
    requires forall i: nat :: i < |c.sites| ==>
               && c'.sites[i].store.order == c.sites[i].store.order
               && c'.sites[i].store.adj == c.sites[i].store.adj && ValidStore(c'.sites[i].store)
    requires st.verts == map v | v in cut.verts :: OwnedValue(hash, c', v, cut.verts[v])
    ensures Represents(hash, edges, c', st)
  {
    RepresentsValidStores(hash, edges, c, cut);
    forall i: nat | i < |c.sites|
      ensures c'.sites[i].store.verts.Keys == c.sites[i].store.verts.Keys
    {
      ListsOneSet(c.sites[i].store.order, c.sites[i].store.verts.Keys, c'.sites[i].store.verts.Keys);
    }
    RepresentsOwned(hash, edges, c, cut);
    hide Represents, Sees, PartitionOf, ValidStore, OwnedValue, Owned;
    LiveOwned(hash, c, c', cut.verts, st.verts);
    forall i | 0 <= i < |c'.sites|
      ensures Sees(edges, st, c'.sites[i].store, c'.inboxes[i])
    {
      LiveSees(edges, cut, st, c.sites[i].store, c'.sites[i].store, c.inboxes[i]);
    }
    RepresentsFrom(hash, edges, c', st);
  }

  lemma RepresentsOwned<K(!new), V(!new), E(!new), M(!new), S>(
      hash: K -> nat, edges: multiset<Edge<K, E>>, c: Cluster<K, V, E, M, S>, st: State<K, V, M>)
    requires Represents(hash, edges, c, st)
    ensures ValidCluster(c) && Owned(hash, st.verts, c)
    ensures forall i :: 0 <= i < |c.sites| ==> Sees(edges, st, c.sites[i].store, c.inboxes[i])
  {
    hide Owned, Sees;
  }

  lemma RepresentsFrom<K(!new), V(!new), E(!new), M(!new), S>(
      hash: K -> nat, edges: multiset<Edge<K, E>>, c: Cluster<K, V, E, M, S>, st: State<K, V, M>)
    requires ValidCluster(c) && Owned(hash, st.verts, c)
    requires forall i :: 0 <= i < |c.sites| ==> Sees(edges, st, c.sites[i].store, c.inboxes[i])
    ensures Represents(hash, edges, c, st)
  {
    hide Owned, Sees;
  }

  lemma {:induction false} LiveOwned<K(!new), V(!new), E, M, S>(
      hash: K -> nat, c: Cluster<K, V, E, M, S>, c': Cluster<K, V, E, M, S>, cut: map<K, V>, verts: map<K, V>)
    requires ValidCluster(c) && ValidCluster(c') && |c'.sites| == |c.sites| && Owned(hash, cut, c)
    requires forall i: nat :: i < |c.sites| ==> c'.sites[i].store.verts.Keys == c.sites[i].store.verts.Keys
    requires verts == map v | v in cut :: OwnedValue(hash, c', v, cut[v])
    ensures Owned(hash, verts, c')
    ensures forall i, v :: 0 <= i < |c'.sites| && v in c'.sites[i].store.verts ==>
              v in verts && verts[v] == c'.sites[i].store.verts[v]
  {
    hide PartitionOf;
    forall i, v | 0 <= i < |c'.sites| && v in c'.sites[i].store.verts
      ensures v in verts && PartitionOf(hash, v, |c'.sites|) == i && verts[v] == c'.sites[i].store.verts[v]
    {
      assert v in c'.sites[i].store.verts.Keys;
      assert v in c.sites[i].store.verts;
    }
    forall v | v in verts
      ensures v in c'.sites[PartitionOf(hash, v, |c'.sites|)].store.verts
    {
      assert v in c.sites[PartitionOf(hash, v, |c.sites|)].store.verts.Keys;
    }
  }

  lemma ListsOneSet<T>(order: seq<T>, a: set<T>, b: set<T>)
    requires Lists(order, a) && Lists(order, b)
    ensures a == b
  {
  }

  lemma LiveSees<K(!new), V(!new), E(!new), M(!new)>(
      edges: multiset<Edge<K, E>>, cut: State<K, V, M>, st: State<K, V, M>, store: Store<K, V, E>,
      store': Store<K, V, E>, inbox: Inbox<K, M>)
    requires Sees(edges, cut, store, inbox) && ValidStore(store') && store'.verts.Keys == store.verts.Keys
    requires store'.adj == store.adj && st.pool == cut.pool
    requires forall v :: v in store'.verts ==> v in st.verts && st.verts[v] == store'.verts[v]
    ensures Sees(edges, st, store', inbox)
  {
    hide OutEdges, MessagesTo;
    forall v | v in store'.verts
      ensures SeesVertex(edges, st, store', inbox, v)
    {
      assert v in store.verts.Keys;
      assert SeesVertex(edges, cut, store, inbox, v);
    }
  }

  lemma LiveStoresLeft<K, V, E, M, S>(a: Attempt<K, V, E, M, S>, d: DiskState<K, V, E, M>, k: nat)
    requires ValidCluster(a.c0) && LeftBehind(a, d)
    requires Recovers(a.spec, a.disk) && a.First() == k + 1 && Complete(a.disk, k, |a.c0.sites|)
    ensures LiveStores(a, k, d)
  {
    hide LiveStores, Consistent, Traced;
  }

  /** Two clusters of as many workers that represent one state hold the same values, worker by
      worker. */
  lemma SameValues<K(!new), V(!new), E(!new), M(!new), S>(
      hash: K -> nat, edges: multiset<Edge<K, E>>, a: Cluster<K, V, E, M, S>, b: Cluster<K, V, E, M, S>,
      st: State<K, V, M>, i: nat)
    requires Represents(hash, edges, a, st) && Represents(hash, edges, b, st)
    requires |a.sites| == |b.sites| && i < |a.sites|
    ensures a.sites[i].store.verts == b.sites[i].store.verts
  {
    hide Sees, PartitionOf;
    forall k
      ensures k in a.sites[i].store.verts <==> k in b.sites[i].store.verts
      ensures k in a.sites[i].store.verts ==> a.sites[i].store.verts[k] == b.sites[i].store.verts[k]
    {
      RepresentsStores(hash, edges, a, st, k);
      RepresentsStores(hash, edges, b, st, k);
    }
  }

  // ---------------------------------------------------------------------------------------
  // When a recovered run returns.

  /** No snapshot on the disk is numbered above the latest checkpoint. */
  ghost predicate NothingAbove<K, V, E, M>(d: DiskState<K, V, E, M>, k: nat) {
    forall x {:trigger x in d.snapshots} :: x in d.snapshots ==> x.0 <= k
  }

  lemma SnapshotBlocks<K, V, E, M, S>(
      a: Attempt<K, V, E, M, S>, d: DiskState<K, V, E, M>, k0: nat, x: (nat, nat))
    requires ValidCluster(a.c0) && LeftBehind(a, d) && a.First() == k0 + 1 && NothingAbove(a.disk, k0)
    requires x in d.snapshots && x.0 > k0
    ensures Blocked(a.spec, d, |a.c0.sites|, x.0) && GetsTo(a, x.0)
  {
    hide Consistent, LiveStores, GetsTo;
    assert Begun(d, x.0, |a.c0.sites|) by {
      assert (x.0, x.1) == x;
    }
  }

  /** A run that found no snapshots of its supersteps, and moved `latest`, leaves a disk from which a
      recovery returns exactly when no snapshot on it is numbered above the latest checkpoint. */
  lemma {:induction false} RecoveryReturnsExactlyWhen<K(!new), V(!new), E(!new), M(!new), S(!new)>(
      a: Attempt<K, V, E, M, S>, p: Program<K, V, E, M>, ty: Typing<K, V, M, S>,
      vertices: seq<(K, V)>, edges: seq<Edge<K, E>>, k0: nat, d: DiskState<K, V, E, M>, sites: seq<Site<K, V, E, S>>)
    requires Stands(a.job, p, ty, vertices, edges, a.c0, k0) && a.First() == k0 + 1 && NothingAbove(a.disk, k0)
    requires Quiescent(p) && NothingHidden(a.job.alg, ty)
    requires ValidCluster(a.c0) && TakesOver(a, d, sites) && LeftBehind(a, d)
    ensures var b := Successor(a, d, sites);
            && b.Outcome().Some?
            && (Unblocked(a.spec, d, |sites|, b.First(), b.Outcome().value.1) <==>
                NothingAbove(d, d.latest.value.iteration))
  {
    hide Stands, Quiescent, NothingHidden, Represents, Bulk, HoldsCut, LeftBehind, Answer, ExecuteFrom, Successor,
      Blocked;
    var k, b := d.latest.value.iteration, Successor(a, d, sites);
    BeginsAtCut(a, p, ty, vertices, edges, k0, d, sites);
    StandsToAnswer(a.job, p, ty, vertices, edges, b.c0, k);
    StandsToAnswer(a.job, p, ty, vertices, edges, a.c0, k0);
    if x :| x in d.snapshots && x.0 > k {
      SnapshotBlocks(a, d, k0, x);
      RunFromMiddle(Bulk(p, multiset(edges)), Start<K, V, M>(PutAll(map[], vertices)), k0, k, a.job.max);
    } else {
      NothingAboveUnblocks(a.spec, d, |sites|, k, b.Outcome().value.1);
    }
  }

  lemma NothingAboveUnblocks<K, V, E, M>(
      spec: CheckpointSpec, d: DiskState<K, V, E, M>, n: nat, k: nat, executed: int)
    requires NothingAbove(d, k)
    ensures Unblocked(spec, d, n, k + 1, executed)
  {
  }
}
