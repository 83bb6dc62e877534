/** PageRank from values that may be 0, with 0 <= alpha < 1.

    A worker that lists no positive value in superstep 1 takes the term 1 - alpha in superstep 2, as if
    its vertices had value 1, and fixes its hidden variable only in superstep 3, at the first rank it
    lists. Whether clusters agree is decided then.
 */
module PageRankZeros {
  import opened Options
  import opened Bags
  import opened Runs
  import opened Bsp
  import opened Shuffle
  import opened WorkerCore
  import opened Rounds
  import opened Refinement
  import opened PageRank
  import opened PageRankMass
  import opened PageRankTerms
  import opened PageRankWorkers
  import opened PageRankOrder
  import EndToEnd
  import Recovery

  ghost predicate ZeroOrOne<K(!new)>(verts: map<K, real>) {
    forall v :: v in verts ==> verts[v] == 0.0 || verts[v] == 1.0
  }

  // ---------------------------------------------------------------------------------------
  // Superstep 2: workers without a hidden variable compute as if it were 1 - alpha.

  /** The worker with the term that it uses as long as it has none. */
  ghost function Filled<K, E>(
      alpha: real, site: Site<K, real, E, Option<real>>): Site<K, real, E, Option<real>>
  {
    if site.algo == None then Site(site.store, Some(1.0 - alpha)) else site
  }

  ghost function FilledCluster<K, E>(
      alpha: real, c: Cluster<K, real, E, real, Option<real>>): (r: Cluster<K, real, E, real, Option<real>>)
    ensures |r.sites| == |c.sites| && r.inboxes == c.inboxes
    ensures forall i :: 0 <= i < |c.sites| ==> r.sites[i] == Filled(alpha, c.sites[i])
  {
    Cluster(seq(|c.sites|, i requires 0 <= i < |c.sites| => Filled(alpha, c.sites[i])), c.inboxes)
  }

  lemma RankOfNone(alpha: real, sum: real)
    ensures Rank(alpha, sum, None) == Rank(alpha, sum, Some(1.0 - alpha))
  {
  }

  lemma FilledComputes<K(!new), E(!new)>(
      alpha: real, k: K, v: real, es: seq<(K, E)>, ms: seq<real>, it: nat)
    requires v <= 0.0 && it >= 2
    ensures var r := PageRankAlg<K, E>(alpha).compute(None, k, v, es, ms, it);
            var s := PageRankAlg<K, E>(alpha).compute(Some(1.0 - alpha), k, v, es, ms, it);
            && r.Some? && s.Some? && r.value.0 == None && s.value.0 == Some(1.0 - alpha)
            && r.value.1 == s.value.1 && r.value.2 == s.value.2
  {
    RankOfNone(alpha, SumOf(ms));
    hide SumOf, Shares, Rank;
  }

  /** Two scans that differ in the hidden variable only. */
  ghost predicate SameButAlgo<K, E>(
      x: Option<Scan<K, real, real, Option<real>>>, y: Option<Scan<K, real, real, Option<real>>>, alpha: real)
  {
    && x.Some? && y.Some? && x.value.algo == None && y.value.algo == Some(1.0 - alpha)
    && x.value.updates == y.value.updates && x.value.outbox == y.value.outbox
  }

  lemma {:induction false} FilledScan<K(!new), E(!new)>(
      alpha: real, store: Store<K, real, E>, inbox: Inbox<K, real>, it: nat, j: nat)
    requires it >= 2 && ValidStore(store) && j <= |store.order|
    requires forall k :: k in store.verts ==> store.verts[k] <= 0.0
    ensures SameButAlgo<K, E>(ScanTo(PageRankAlg<K, E>(alpha), store, None, inbox, it, j),
                              ScanTo(PageRankAlg<K, E>(alpha), store, Some(1.0 - alpha), inbox, it, j), alpha)
  {
    if j > 0 {
      FilledScan(alpha, store, inbox, it, j - 1);
      var k := store.order[j - 1];
      assert k in store.verts;
      FilledComputes(alpha, k, store.verts[k], Out(store, k), Waiting(inbox, k), it);
      hide PageRankAlg, Out, Waiting, Lists;
    }
  }

  /** A site as superstep 1 leaves it: with the hidden variable 1 - alpha, or with none and no positive value. */
  ghost predicate Undecided<K(!new), E>(alpha: real, site: Site<K, real, E, Option<real>>) {
    && ValidStore(site.store)
    && (site.algo == Some(1.0 - alpha)
        || (site.algo == None && forall k :: k in site.store.verts ==> site.store.verts[k] <= 0.0))
  }

  lemma FilledWork<K(!new), E(!new)>(
      alpha: real, c: Cluster<K, real, E, real, Option<real>>, it: nat, i: nat)
    requires it >= 2 && ValidCluster(c) && i < |c.sites| && Undecided(alpha, c.sites[i])
    ensures var r := Work(PageRankAlg<K, E>(alpha), c, it, i);
            var s := Work(PageRankAlg<K, E>(alpha), FilledCluster(alpha, c), it, i);
            && (r.Some? <==> s.Some?)
            && (r.Some? ==>
                  && r.value.store == s.value.store && r.value.outbox == s.value.outbox
                  && (c.sites[i].algo == None ==> r.value.algo == None)
                  && (c.sites[i].algo.Some? ==> r.value.algo == s.value.algo))
  {
    hide PageRankAlg, ScanTo;
    if c.sites[i].algo == None {
      FilledScan(alpha, c.sites[i].store, c.inboxes[i], it, |c.sites[i].store.order|);
    }
  }

  lemma {:induction false} FilledStream<K(!new), E(!new)>(
      alg: Alg<K, real, E, real, Option<real>>, c: Cluster<K, real, E, real, Option<real>>,
      c': Cluster<K, real, E, real, Option<real>>, it: nat, i: nat)
    requires ValidCluster(c) && ValidCluster(c') && |c'.sites| == |c.sites| && i <= |c.sites|
    requires forall j: nat :: j < |c.sites| ==> Outbox(alg, c, it, j) == Outbox(alg, c', it, j)
    ensures Stream(alg, c, it, i) == Stream(alg, c', it, i)
  {
    hide Outbox;
    if i > 0 {
      FilledStream(alg, c, c', it, i - 1);
    }
  }

  /** What two rounds have in common. */
  ghost predicate SameButAlgos<K, E>(
      x: Option<(Cluster<K, real, E, real, Option<real>>, bool)>,
      y: Option<(Cluster<K, real, E, real, Option<real>>, bool)>, n: nat)
  {
    && x.Some? && y.Some? && x.value.1 == y.value.1 && |x.value.0.sites| == |y.value.0.sites| == n
    && x.value.0.inboxes == y.value.0.inboxes
    && forall i :: 0 <= i < n ==> x.value.0.sites[i].store == y.value.0.sites[i].store
  }

  lemma {:induction false} FilledRound<K(!new), E(!new)>(
      alpha: real, hash: K -> nat, max: nat, c: Cluster<K, real, E, real, Option<real>>, it: nat)
    requires it >= 2 && ValidCluster(c) && forall i: nat :: i < |c.sites| ==> Undecided(alpha, c.sites[i])
    requires Round(Job(PageRankAlg<K, E>(alpha), hash, max), FilledCluster(alpha, c), it).Some?
    requires HasTerms(Everywhere<K>(1.0 - alpha), FilledCluster(alpha, c))
    ensures var job := Job(PageRankAlg<K, E>(alpha), hash, max);
            var r := Round(job, c, it);
            && SameButAlgos<K, E>(r, Round(job, FilledCluster(alpha, c), it), |c.sites|)
            && forall i :: 0 <= i < |c.sites| ==> r.value.0.sites[i].algo == c.sites[i].algo
  {
    var job, c' := Job(PageRankAlg<K, E>(alpha), hash, max), FilledCluster(alpha, c);
    hide PageRankAlg, Work, Stream, Route, Undecided, Filled;
    assert Succeeds(job.alg, c', it);
    forall i: nat | i < |c.sites|
      ensures var r, s := Work(job.alg, c, it, i), Work(job.alg, c', it, i);
              && r.Some? && s.Some? && r.value.store == s.value.store && r.value.outbox == s.value.outbox
              && r.value.algo == c.sites[i].algo
    {
      FilledWork(alpha, c, it, i);
      assert Work(job.alg, c', it, i).Some?;
      TermWork(alpha, Everywhere<K>(1.0 - alpha), c', it, i);
      FilledAlgo(alpha, c.sites[i]);
    }
    FilledStream(job.alg, c, c', it, |c.sites|);
    assert Succeeds(job.alg, c, it);
    assert Round(job, c, it).value.0.sites == NewSites(job.alg, c, it);
    assert Round(job, c', it).value.0.sites == NewSites(job.alg, c', it);
  }

  lemma FilledAlgo<K, E>(alpha: real, site: Site<K, real, E, Option<real>>)
    ensures Filled(alpha, site).algo == if site.algo == None then Some(1.0 - alpha) else site.algo
    ensures Filled(alpha, site).store == site.store
  {
  }

  // ---------------------------------------------------------------------------------------
  // Two supersteps.

  lemma {:induction false} OwnTeleportIs<K(!new), E>(alpha: real, store: Store<K, real, E>)
    requires ValidStore(store) && ZeroOrOne(store.verts)
    ensures Undecided(alpha, Site(store, OwnTeleport(alpha, store)))
    ensures OwnTeleport(alpha, store) == None <==> forall k :: k in store.verts ==> store.verts[k] <= 0.0
  {
    var values := ValuesIn(store, |store.order|);
    var i := FirstPositive(alpha, values);
    hide TeleportOver;
    if i < |values| {
      assert values[i] == store.verts[store.order[i]] && store.order[i] in store.verts;
      assert values[i] == 1.0;
      assert Fixed(alpha, 1.0) == 1.0 - alpha;
    } else {
      forall k | k in store.verts
        ensures store.verts[k] <= 0.0
      {
        var j :| 0 <= j < |store.order| && store.order[j] == k;
        assert values[j] == store.verts[k];
      }
    }
  }

  /** The state after superstep 1. */
  ghost function FirstState<K(!new), E(!new)>(vertices: seq<(K, real)>, edges: seq<Edge<K, E>>): State<K, real, real> {
    Superstep(FirstProgram<K, E>(), multiset(edges), Start(PutAll(map[], vertices)), 1)
  }

  lemma FirstSends<K(!new), E(!new)>(k: K, v: real, es: seq<(K, E)>, ms: seq<real>)
    ensures FirstProgram<K, E>()(k, v, es, ms, 1) == (None, Shares(es, v))
  {
  }

  lemma FirstSplit<K(!new), E(!new)>(edges: multiset<Edge<K, E>>, verts: map<K, real>)
    ensures var p, st := FirstProgram<K, E>(), Start<K, real, real>(verts);
            && NewVerts(p, edges, st, 1) == verts && Sends(p, edges, st, 1).Keys == verts.Keys
            && forall u :: u in verts ==> Sends(p, edges, st, 1)[u] == multiset(Shares(Targets(edges, u), verts[u]))
  {
    var p, st := FirstProgram<K, E>(), Start<K, real, real>(verts);
    hide FirstProgram, Shares;
    forall u | u in verts
      ensures Bsp.Compute(p, edges, st, 1, u) == (None, Shares(Targets(edges, u), verts[u]))
    {
      FirstSends(u, verts[u], SeqOf(OutEdges(edges, u)), SeqOf(MessagesTo(st.pool, u)));
    }
    hide Bsp.Compute, Targets;
    assert NewVerts(p, edges, st, 1) == verts;
  }

  lemma {:induction false} FirstFlows<K(!new), E(!new)>(vertices: seq<(K, real)>, edges: seq<Edge<K, E>>, us: seq<K>)
    requires Lists(us, PutAll(map[], vertices).Keys)
    ensures FirstState(vertices, edges).verts == PutAll(map[], vertices)
    ensures Flowing(multiset(edges), us, FirstState(vertices, edges))
    ensures FirstState(vertices, edges).pool == FirstPool(vertices, edges)
  {
    var all, verts := multiset(edges), PutAll(map[], vertices);
    var sends := Sends(FirstProgram<K, E>(), all, Start<K, real, real>(verts), 1);
    hide PutAll, MassTo, PageRankMass.Inflow, CollectAll, FirstProgram, Shares, Targets, NewVerts, Sends, Lists;
    FirstSplit(all, verts);
    forall v
      ensures MassTo(CollectAll(sends), v) == Inflow(all, us, verts, v)
    {
      SplitsFlow(all, us, verts, sends, v);
    }
  }

  /** The ranks after superstep 2 from values 0 and 1. */
  ghost function SecondRanks<K(!new), E(!new)>(
      alpha: real, vertices: seq<(K, real)>, edges: seq<Edge<K, E>>, us: seq<K>): (x: map<K, real>)
    requires Lists(us, PutAll(map[], vertices).Keys)
    ensures x.Keys == PutAll(map[], vertices).Keys
  {
    NextRanks(alpha, Everywhere<K>(1.0 - alpha), multiset(edges), us, PutAll(map[], vertices))
  }

  lemma {:induction false} SecondRanksPositive<K(!new), E(!new)>(
      alpha: real, vertices: seq<(K, real)>, edges: seq<Edge<K, E>>, us: seq<K>)
    requires 0.0 <= alpha < 1.0 && Lists(us, PutAll(map[], vertices).Keys) && ZeroOrOne(PutAll(map[], vertices))
    ensures forall v :: v in SecondRanks(alpha, vertices, edges, us) ==>
              SecondRanks(alpha, vertices, edges, us)[v] > 0.0
  {
    hide PageRankMass.Inflow, Rank, PutAll;
    forall v | v in PutAll(map[], vertices)
      ensures SecondRanks(alpha, vertices, edges, us)[v] > 0.0
    {
      InflowNotNegative(multiset(edges), us, PutAll(map[], vertices), v);
      RankAtLeast(alpha, Inflow(multiset(edges), us, PutAll(map[], vertices), v), 1.0 - alpha);
    }
  }

  /** A cluster after two supersteps. */
  ghost predicate Second<K(!new), E(!new)>(
      alpha: real, hash: K -> nat, vertices: seq<(K, real)>, edges: seq<Edge<K, E>>, us: seq<K>,
      c: Cluster<K, real, E, real, Option<real>>, c2: Cluster<K, real, E, real, Option<real>>,
      st: State<K, real, real>)
    requires Lists(us, PutAll(map[], vertices).Keys)
  {
    && Represents(hash, multiset(edges), c2, st) && |c2.sites| == |c.sites|
    && st.verts == SecondRanks(alpha, vertices, edges, us) && Flowing(multiset(edges), us, st)
    && (forall i :: 0 <= i < |c.sites| ==> SecondSite(alpha, c.sites[i], c2.sites[i]))
  }

  /** The hidden variable is 1 - alpha, or none if there is no positive value. */
  ghost predicate SecondSite<K(!new), E(!new)>(
      alpha: real, before: Site<K, real, E, Option<real>>, after: Site<K, real, E, Option<real>>)
  {
    && ValidStore(before.store) && ValidStore(after.store) && after.store.order == before.store.order
    && after.algo == OwnTeleport(alpha, before.store)
  }

  lemma {:induction false} FirstIsUndecided<K(!new), E(!new)>(
      alpha: real, hash: K -> nat, max: nat, vertices: seq<(K, real)>, edges: seq<Edge<K, E>>,
      c: Cluster<K, real, E, real, Option<real>>, i: nat)
    requires RankLaunched(alpha, hash, vertices, edges, c) && i < |c.sites| && ZeroOrOne(PutAll(map[], vertices))
    ensures ValidCluster(c) && ValidStore(c.sites[i].store) && ZeroOrOne(c.sites[i].store.verts)
    ensures var r := Round(Job(PageRankAlg<K, E>(alpha), hash, max), c, 1);
            && r.Some? && |r.value.0.sites| == |c.sites|
            && r.value.0.sites[i] == Site(c.sites[i].store, OwnTeleport(alpha, c.sites[i].store))
            && Undecided(alpha, r.value.0.sites[i])
  {
    hide ExecuteFrom, PageRankAlg, Process, PutAll, FirstPool, OwnTeleport, Represents, Round, Undecided;
    AfterFirst(alpha, hash, max, vertices, edges, c, i);
    Loading.LoadedRepresents(hash, vertices, edges, c);
    hide RankLaunched;
    forall v | v in c.sites[i].store.verts
      ensures c.sites[i].store.verts[v] == 0.0 || c.sites[i].store.verts[v] == 1.0
    {
      RepresentsStores(hash, multiset(edges), c, Start<K, real, real>(PutAll(map[], vertices)), v);
    }
    OwnTeleportIs(alpha, c.sites[i].store);
  }

  lemma FilledHasTerms<K(!new), E(!new)>(alpha: real, c: Cluster<K, real, E, real, Option<real>>)
    requires ValidCluster(c) && forall i: nat :: i < |c.sites| ==> Undecided(alpha, c.sites[i])
    ensures HasTerms(Everywhere<K>(1.0 - alpha), FilledCluster(alpha, c))
  {
    forall i, k | 0 <= i < |c.sites| && k in c.sites[i].store.order
      ensures FilledCluster(alpha, c).sites[i].algo == Some(Everywhere<K>(1.0 - alpha)(k))
    {
      assert Undecided(alpha, c.sites[i]);
    }
  }

  /** Superstep 2. */
  lemma {:induction false} SecondRound<K(!new), E(!new)>(
      alpha: real, hash: K -> nat, max: nat, edges: multiset<Edge<K, E>>, us: seq<K>,
      c1: Cluster<K, real, E, real, Option<real>>, st: State<K, real, real>)
    returns (next: State<K, real, real>)
    requires Represents(hash, edges, c1, st) && Flowing(edges, us, st)
    requires forall i: nat :: i < |c1.sites| ==> Undecided(alpha, c1.sites[i])
    ensures ValidCluster(c1)
    ensures var r := Round(Job(PageRankAlg<K, E>(alpha), hash, max), c1, 2);
            && r.Some? && |r.value.0.sites| == |c1.sites| && Represents(hash, edges, r.value.0, next)
            && (r.value.1 <==> Leaving(edges, st.verts))
            && forall i :: 0 <= i < |c1.sites| ==> r.value.0.sites[i].algo == c1.sites[i].algo
    ensures next.verts == NextRanks(alpha, Everywhere<K>(1.0 - alpha), edges, us, st.verts)
    ensures Flowing(edges, us, next)
  {
    var job, c' := Job(PageRankAlg<K, E>(alpha), hash, max), FilledCluster(alpha, c1);
    var term := Everywhere<K>(1.0 - alpha);
    Recovery.RepresentsOwned(hash, edges, c1, st);
    hide Represents, PageRankAlg, TermAlg, TermProgram, Round, Undecided, Flowing, RanksBy, NextRanks, Leaving,
      HasTerms, Superstep, Admissible, Filled, Owned, Sees, FilledCluster, Everywhere;
    FilledHasTerms(alpha, c1);
    FilledRepresents(alpha, hash, edges, c1, st);
    TermRound(alpha, term, hash, max, c', 2);
    TermAdmissible<K, E>(alpha, term);
    AnyOk(st, c', 2);
    RoundRefines(Job(TermAlg<K, E>(alpha, term), hash, max), TermProgram<K, E>(alpha, term), AnyTyping<K>(), edges, c',
                 st, 2);
    FilledRound(alpha, hash, max, c1, 2);
    TermProgramRanks<K, E>(alpha, term);
    RankStep(TermProgram<K, E>(alpha, term), alpha, term, edges, us, st, 2);
    next := Superstep(TermProgram<K, E>(alpha, term), edges, st, 2);
    Recovery.SameStores(hash, edges, Round(job, c', 2).value.0, Round(job, c1, 2).value.0, next);
  }

  lemma AnyOk<K(!new), E>(st: State<K, real, real>, c: Cluster<K, real, E, real, Option<real>>, it: nat)
    ensures OkState(AnyTyping<K>(), st, it) && Ready(AnyTyping<K>(), c, it)
  {
  }

  lemma FilledRepresents<K(!new), E(!new)>(
      alpha: real, hash: K -> nat, edges: multiset<Edge<K, E>>, c: Cluster<K, real, E, real, Option<real>>,
      st: State<K, real, real>)
    requires Represents(hash, edges, c, st)
    ensures Represents(hash, edges, FilledCluster(alpha, c), st)
  {
    hide Represents, Filled;
    forall i | 0 <= i < |c.sites|
      ensures FilledCluster(alpha, c).sites[i].store == c.sites[i].store
    {
      FilledAlgo(alpha, c.sites[i]);
    }
    Recovery.SameStores(hash, edges, c, FilledCluster(alpha, c), st);
  }

  lemma {:induction false} AfterTwo<K(!new), E(!new)>(
      alpha: real, hash: K -> nat, max: nat, vertices: seq<(K, real)>, edges: seq<Edge<K, E>>, us: seq<K>,
      c: Cluster<K, real, E, real, Option<real>>)
    returns (c2: Cluster<K, real, E, real, Option<real>>, st: State<K, real, real>)
    requires RankLaunched(alpha, hash, vertices, edges, c) && ZeroOrOne(PutAll(map[], vertices)) && max >= 2
    requires Leaving(multiset(edges), PutAll(map[], vertices)) && Lists(us, PutAll(map[], vertices).Keys)
    ensures ValidCluster(c) && ValidCluster(c2) && Second(alpha, hash, vertices, edges, us, c, c2, st)
    ensures var job := Job(PageRankAlg<K, E>(alpha), hash, max);
            ExecuteFrom(job, c, 1) == ExecuteFrom(job, c2, 3)
  {
    hide *;
    var job := Job(PageRankAlg<K, E>(alpha), hash, max);
    FirstRepresents(alpha, hash, max, vertices, edges, c);
    FirstSilentExactlyWhen(vertices, edges);
    FirstFlows(vertices, edges, us);
    FirstStateIs(vertices, edges);
    var c1 := Round(job, c, 1).value.0;
    forall i: nat | i < |c.sites|
      ensures Undecided(alpha, c1.sites[i])
      ensures ValidStore(c.sites[i].store)
      ensures c1.sites[i] == Site(c.sites[i].store, OwnTeleport(alpha, c.sites[i].store))
    {
      FirstIsUndecided(alpha, hash, max, vertices, edges, c, i);
    }
    st := SecondRound(alpha, hash, max, multiset(edges), us, c1, FirstState(vertices, edges));
    c2 := Round(job, c1, 2).value.0;
    LoopStep(job, c, 1);
    LoopStep(job, c1, 2);
    forall i: nat | i < |c.sites|
      ensures SecondSite(alpha, c.sites[i], c2.sites[i])
    {
      SecondSiteIs(job, multiset(edges), c1, st, alpha, c.sites[i], i);
    }
    SecondFrom(alpha, hash, vertices, edges, us, c, c2, st);
  }

  lemma {:induction false} FirstStateIs<K(!new), E(!new)>(vertices: seq<(K, real)>, edges: seq<Edge<K, E>>)
    ensures FirstState(vertices, edges)
         == Superstep(FirstProgram<K, E>(), multiset(edges), Start(PutAll(map[], vertices)), 1)
  {
    hide Superstep;
  }

  lemma {:induction false} SecondSiteIs<K(!new), E(!new)>(
      job: Job<K, real, E, real, Option<real>>, edges: multiset<Edge<K, E>>,
      c1: Cluster<K, real, E, real, Option<real>>, st: State<K, real, real>, alpha: real,
      before: Site<K, real, E, Option<real>>, i: nat)
    requires ValidCluster(c1) && i < |c1.sites| && Round(job, c1, 2).Some?
    requires |Round(job, c1, 2).value.0.sites| == |c1.sites|
    requires ValidStore(before.store) && c1.sites[i] == Site(before.store, OwnTeleport(alpha, before.store))
    requires Round(job, c1, 2).value.0.sites[i].algo == c1.sites[i].algo
    ensures SecondSite(alpha, before, Round(job, c1, 2).value.0.sites[i])
  {
    hide Process, Stream, Route, OwnTeleport;
    ProcessKeepsShape(job.alg, c1.sites[i].store, c1.sites[i].algo, c1.inboxes[i], 2);
    assert Work(job.alg, c1, 2, i).Some?;
    assert Round(job, c1, 2).value.0.sites == NewSites(job.alg, c1, 2);
  }

  lemma {:induction false} SecondFrom<K(!new), E(!new)>(
      alpha: real, hash: K -> nat, vertices: seq<(K, real)>, edges: seq<Edge<K, E>>, us: seq<K>,
      c: Cluster<K, real, E, real, Option<real>>, c2: Cluster<K, real, E, real, Option<real>>,
      st: State<K, real, real>)
    requires Lists(us, PutAll(map[], vertices).Keys) && Represents(hash, multiset(edges), c2, st)
    requires |c2.sites| == |c.sites| && Flowing(multiset(edges), us, st)
    requires st.verts == NextRanks(alpha, Everywhere<K>(1.0 - alpha), multiset(edges), us, PutAll(map[], vertices))
    requires forall i: nat :: i < |c.sites| ==> SecondSite(alpha, c.sites[i], c2.sites[i])
    ensures Second(alpha, hash, vertices, edges, us, c, c2, st)
  {
    hide Represents, Flowing, SecondSite, NextRanks, PutAll, Lists;
  }

  // ---------------------------------------------------------------------------------------
  // From superstep 3 on.

  /** The term of `v` from superstep 3 on: 1 - alpha if its worker had a positive value, and otherwise
      the one taken from the rank of the vertex that its worker lists first. */
  ghost predicate ThirdTerm<K(!new), E(!new)>(
      alpha: real, hash: K -> nat, c: Cluster<K, real, E, real, Option<real>>, x: map<K, real>, v: K, t: real)
    requires ValidCluster(c)
  {
    var store := c.sites[PartitionOf(hash, v, |c.sites|)].store;
    && ValidStore(store) && v in store.verts && store.order != [] && store.order[0] in x
    && t == if OwnTeleport(alpha, store).Some? then 1.0 - alpha else Fixed(alpha, x[store.order[0]])
  }

  lemma {:induction false} SecondWakes<K(!new), E(!new)>(
      alpha: real, hash: K -> nat, vertices: seq<(K, real)>, edges: seq<Edge<K, E>>, us: seq<K>,
      c: Cluster<K, real, E, real, Option<real>>, c2: Cluster<K, real, E, real, Option<real>>,
      st: State<K, real, real>, i: nat)
    requires 0.0 <= alpha < 1.0 && Lists(us, PutAll(map[], vertices).Keys) && ZeroOrOne(PutAll(map[], vertices))
    requires Second(alpha, hash, vertices, edges, us, c, c2, st) && i < |c2.sites|
    ensures Wakes(c2.sites[i])
  {
    SecondRanksPositive(alpha, vertices, edges, us);
    assert SecondSite(alpha, c.sites[i], c2.sites[i]);
    hide Represents, SecondRanks, ZeroOrOne, PutAll, Flowing, OwnTeleport;
    forall v | v in c2.sites[i].store.verts
      ensures c2.sites[i].store.verts[v] > 0.0
    {
      RepresentsStores(hash, multiset(edges), c2, st, v);
    }
  }

  lemma {:induction false} ThirdTermIs<K(!new), E(!new)>(
      alpha: real, hash: K -> nat, vertices: seq<(K, real)>, edges: seq<Edge<K, E>>, us: seq<K>,
      c: Cluster<K, real, E, real, Option<real>>, c2: Cluster<K, real, E, real, Option<real>>,
      st: State<K, real, real>, v: K)
    requires Lists(us, PutAll(map[], vertices).Keys) && ZeroOrOne(PutAll(map[], vertices)) && v in st.verts
    requires ValidCluster(c) && ValidCluster(c2) && Second(alpha, hash, vertices, edges, us, c, c2, st)
    requires forall i :: 0 <= i < |c.sites| ==> ValidStore(c.sites[i].store) && ZeroOrOne(c.sites[i].store.verts)
    ensures ThirdTerm(alpha, hash, c, SecondRanks(alpha, vertices, edges, us), v, OwnerTerm(alpha, hash, c2)(v))
  {
    var i := PartitionOf(hash, v, |c.sites|);
    var store, store2 := c.sites[i].store, c2.sites[i].store;
    hide SecondRanks, PutAll, Flowing, OwnTeleport, Fixed, ZeroOrOne, PartitionOf, Represents;
    assert SecondSite(alpha, c.sites[i], c2.sites[i]);
    RepresentsStores(hash, multiset(edges), c2, st, v);
    FirstOf(store.order, store.verts.Keys, store2.verts.Keys, v);
    RepresentsStores(hash, multiset(edges), c2, st, store2.order[0]);
    OwnTeleportIs(alpha, store);
    hide Lists, Second;
  }

  lemma FirstOf<T>(order: seq<T>, a: set<T>, b: set<T>, v: T)
    requires Lists(order, a) && Lists(order, b) && v in b
    ensures v in a && order != [] && order[0] in a && order[0] in b
  {
  }

  /** The ranks that a run from values 0 and 1 ends with. */
  lemma {:induction false} RanksFromThree<K(!new), E(!new)>(
      alpha: real, hash: K -> nat, max: nat, vertices: seq<(K, real)>, edges: seq<Edge<K, E>>, us: seq<K>,
      c: Cluster<K, real, E, real, Option<real>>) returns (term: K -> real)
    requires 0.0 <= alpha < 1.0 && max >= 2
    requires RankLaunched(alpha, hash, vertices, edges, c) && ZeroOrOne(PutAll(map[], vertices))
    requires Leaving(multiset(edges), PutAll(map[], vertices)) && Lists(us, PutAll(map[], vertices).Keys)
    ensures ValidCluster(c)
    ensures var x := SecondRanks(alpha, vertices, edges, us);
            forall v :: v in x.Keys ==>
              && ThirdTerm(alpha, hash, c, x, v, term(v))
              && RankAfter(alpha, hash, c, max, v)
              == Some(Ranks(alpha, term, multiset(edges), us, x, max - 2)[v])
  {
    hide *;
    var x := SecondRanks(alpha, vertices, edges, us);
    ListedIn(us, PutAll(map[], vertices).Keys);
    var c2, st := AfterTwo(alpha, hash, max, vertices, edges, us, c);
    SecondParts(alpha, hash, vertices, edges, us, c, c2, st);
    term := OwnerTerm(alpha, hash, c2);
    forall i: nat | i < |c2.sites|
      ensures Wakes(c2.sites[i])
      ensures ValidStore(c.sites[i].store) && ZeroOrOne(c.sites[i].store.verts)
    {
      SecondWakes(alpha, hash, vertices, edges, us, c, c2, st, i);
      FirstIsUndecided(alpha, hash, max, vertices, edges, c, i);
    }
    WokenRefine(alpha, hash, max, multiset(edges), c2, st, 3);
    LeavingKeys(multiset(edges), PutAll(map[], vertices), st.verts);
    TermProgramRanks<K, E>(alpha, term);
    RunRanks(TermProgram<K, E>(alpha, term), alpha, term, multiset(edges), us, st, 3, max);
    var end := RunFrom(Bulk(TermProgram<K, E>(alpha, term), multiset(edges)), st, 3, max).0;
    forall v | v in x.Keys
      ensures ThirdTerm(alpha, hash, c, x, v, term(v))
      ensures RankAfter(alpha, hash, c, max, v) == Some(Ranks(alpha, term, multiset(edges), us, x, max - 2)[v])
    {
      ThirdTermIs(alpha, hash, vertices, edges, us, c, c2, st, v);
      RankHeld(alpha, hash, multiset(edges), c, max, end, v);
    }
  }

  lemma {:induction false} SecondParts<K(!new), E(!new)>(
      alpha: real, hash: K -> nat, vertices: seq<(K, real)>, edges: seq<Edge<K, E>>, us: seq<K>,
      c: Cluster<K, real, E, real, Option<real>>, c2: Cluster<K, real, E, real, Option<real>>,
      st: State<K, real, real>)
    requires Lists(us, PutAll(map[], vertices).Keys) && Second(alpha, hash, vertices, edges, us, c, c2, st)
    ensures Represents(hash, multiset(edges), c2, st) && |c2.sites| == |c.sites|
    ensures st.verts == SecondRanks(alpha, vertices, edges, us) && Flowing(multiset(edges), us, st)
    ensures st.verts.Keys == PutAll(map[], vertices).Keys
  {
    hide Represents, Flowing, SecondSite, Lists, PutAll;
  }

  lemma {:induction false} RankHeld<K(!new), E(!new)>(
      alpha: real, hash: K -> nat, edges: multiset<Edge<K, E>>, c: Cluster<K, real, E, real, Option<real>>, max: nat,
      end: State<K, real, real>, v: K)
    requires ValidCluster(c) && v in end.verts.Keys
    requires var r := ExecuteFrom(Job(PageRankAlg<K, E>(alpha), hash, max), c, 1);
             r.Some? && Represents(hash, edges, r.value.0, end)
    ensures RankAfter(alpha, hash, c, max, v) == Some(end.verts[v])
  {
    hide PageRankAlg, ExecuteFrom, Represents, EndToEnd.ValueOf;
    EndToEnd.HeldValue(hash, edges, ExecuteFrom(Job(PageRankAlg<K, E>(alpha), hash, max), c, 1).value.0, end, v);
  }

  // ---------------------------------------------------------------------------------------
  // When all clusters agree.

  ghost predicate AllZero<K(!new)>(verts: map<K, real>) {
    forall v :: v in verts ==> verts[v] == 0.0
  }

  /** What flows to every vertex of value 0 in superstep 2 makes its rank 1, unless nothing counts. */
  ghost predicate ZerosGetOne<K(!new), E(!new)>(alpha: real, vertices: seq<(K, real)>, edges: seq<Edge<K, E>>) {
    forall z :: z in PutAll(map[], vertices) && PutAll(map[], vertices)[z] == 0.0 ==>
      alpha * MassTo(FirstPool(vertices, edges), z) == alpha
  }

  lemma {:induction false} SecondRankIs<K(!new), E(!new)>(
      alpha: real, vertices: seq<(K, real)>, edges: seq<Edge<K, E>>, us: seq<K>, v: K)
    requires Lists(us, PutAll(map[], vertices).Keys) && v in PutAll(map[], vertices).Keys
    ensures SecondRanks(alpha, vertices, edges, us)[v]
         == Rank(alpha, MassTo(FirstPool(vertices, edges), v), Some(1.0 - alpha))
    ensures AllZero(PutAll(map[], vertices)) ==> SecondRanks(alpha, vertices, edges, us)[v] == 1.0 - alpha
  {
    FirstFlows(vertices, edges, us);
    hide MassTo, PageRankMass.Inflow, PutAll, Rank, FirstState, FirstPool;
    var verts := PutAll(map[], vertices);
    assert MassTo(FirstPool(vertices, edges), v) == Inflow(multiset(edges), us, verts, v);
    if AllZero(verts) {
      NoInflowFromZero(multiset(edges), us, verts, v);
      NothingAdded(alpha, 1.0 - alpha);
    }
  }

  lemma RankIsOneExactlyWhen(alpha: real, mass: real)
    ensures Rank(alpha, mass, Some(1.0 - alpha)) == 1.0 <==> alpha * mass == alpha
  {
  }

  /** A vertex of a worker without positive values has value 0. */
  lemma {:induction false} OwnedZero<K(!new), E(!new)>(
      alpha: real, hash: K -> nat, vertices: seq<(K, real)>, edges: seq<Edge<K, E>>,
      c: Cluster<K, real, E, real, Option<real>>, i: nat, u: K)
    requires RankLaunched(alpha, hash, vertices, edges, c) && ZeroOrOne(PutAll(map[], vertices)) && i < |c.sites|
    requires ValidStore(c.sites[i].store) && u in c.sites[i].store.order
    ensures u in PutAll(map[], vertices).Keys
    ensures OwnTeleport(alpha, c.sites[i].store) == None ==> PutAll(map[], vertices)[u] == 0.0
    ensures AllZero(PutAll(map[], vertices)) ==> OwnTeleport(alpha, c.sites[i].store) == None
  {
    var store := c.sites[i].store;
    Loading.LoadedRepresents(hash, vertices, edges, c);
    hide RankLaunched, Represents, PutAll, OwnTeleport;
    var st := Start<K, real, real>(PutAll(map[], vertices));
    forall v | v in store.verts
      ensures v in PutAll(map[], vertices) && store.verts[v] == PutAll(map[], vertices)[v]
    {
      RepresentsStores(hash, multiset(edges), c, st, v);
    }
    OwnTeleportIs(alpha, store);
  }

  /** The term that all vertices get when clusters agree. */
  function CommonTerm(alpha: real, zero: bool): real {
    if zero then Fixed(alpha, 1.0 - alpha) else 1.0 - alpha
  }

  lemma {:induction false} TermIsCommon<K(!new), E(!new)>(
      alpha: real, hash: K -> nat, vertices: seq<(K, real)>, edges: seq<Edge<K, E>>, us: seq<K>,
      c: Cluster<K, real, E, real, Option<real>>, v: K, t: real)
    requires RankLaunched(alpha, hash, vertices, edges, c) && ZeroOrOne(PutAll(map[], vertices))
    requires ValidCluster(c) && Lists(us, PutAll(map[], vertices).Keys)
    requires ThirdTerm(alpha, hash, c, SecondRanks(alpha, vertices, edges, us), v, t)
    requires AllZero(PutAll(map[], vertices)) || ZerosGetOne(alpha, vertices, edges)
    ensures t == CommonTerm(alpha, AllZero(PutAll(map[], vertices)))
  {
    var i := PartitionOf(hash, v, |c.sites|);
    var store := c.sites[i].store;
    var first := store.order[0];
    assert first in store.order;
    hide RankLaunched, PutAll, OwnTeleport, Fixed, SecondRanks, PartitionOf, ValidStore, Lists, FirstPool, Rank, MassTo;
    OwnedZero(alpha, hash, vertices, edges, c, i, first);
    SecondRankIs(alpha, vertices, edges, us, first);
    RankIsOneExactlyWhen(alpha, MassTo(FirstPool(vertices, edges), first));
    FixedOfOne(alpha);
  }

  lemma FixedOfOne(alpha: real)
    ensures Fixed(alpha, 1.0) == 1.0 - alpha
  {
  }

  lemma {:induction false} CommonRank<K(!new), E(!new)>(
      alpha: real, hash: K -> nat, max: nat, vertices: seq<(K, real)>, edges: seq<Edge<K, E>>, us: seq<K>,
      c: Cluster<K, real, E, real, Option<real>>, v: K)
    requires 0.0 <= alpha < 1.0 && max >= 2 && v in PutAll(map[], vertices).Keys
    requires RankLaunched(alpha, hash, vertices, edges, c) && ZeroOrOne(PutAll(map[], vertices))
    requires Leaving(multiset(edges), PutAll(map[], vertices)) && Lists(us, PutAll(map[], vertices).Keys)
    requires AllZero(PutAll(map[], vertices)) || ZerosGetOne(alpha, vertices, edges)
    ensures forall u :: u in us ==> u in SecondRanks(alpha, vertices, edges, us)
    ensures var t := CommonTerm(alpha, AllZero(PutAll(map[], vertices)));
            RankAfter(alpha, hash, c, max, v)
            == Some(Ranks(alpha, Everywhere(t), multiset(edges), us, SecondRanks(alpha, vertices, edges, us),
                          max - 2)[v])
  {
    hide *;
    ListedIn(us, PutAll(map[], vertices).Keys);
    var x, t := SecondRanks(alpha, vertices, edges, us), CommonTerm(alpha, AllZero(PutAll(map[], vertices)));
    var term := RanksFromThree(alpha, hash, max, vertices, edges, us, c);
    EverywhereIs<K>(t);
    forall u | u in x.Keys
      ensures term(u) == t
    {
      TermIsCommon(alpha, hash, vertices, edges, us, c, u, term(u));
    }
    SameTermsSameRanks(alpha, term, Everywhere(t), multiset(edges), us, x, max - 2);
  }

  lemma {:induction false} CommonAgree<K(!new), E(!new)>(
      alpha: real, vertices: seq<(K, real)>, edges: seq<Edge<K, E>>, max: nat)
    requires 0.0 <= alpha < 1.0 && max >= 2 && ZeroOrOne(PutAll(map[], vertices))
    requires Leaving(multiset(edges), PutAll(map[], vertices))
    requires AllZero(PutAll(map[], vertices)) || ZerosGetOne(alpha, vertices, edges)
    ensures Agree(alpha, vertices, edges, max)
  {
    var us := ListingOf(PutAll(map[], vertices));
    hide RankLaunched, PutAll, RankAfter, Leaving, AllZero, ZerosGetOne, ZeroOrOne, Lists, CommonTerm, Ranks,
      SecondRanks;
    forall hashA: K -> nat, a: Cluster<K, real, E, real, Option<real>>,
           hashB: K -> nat, b: Cluster<K, real, E, real, Option<real>>, k: K |
      RankLaunched(alpha, hashA, vertices, edges, a) && RankLaunched(alpha, hashB, vertices, edges, b)
      && k in PutAll(map[], vertices)
      ensures RankAfter(alpha, hashA, a, max, k) == RankAfter(alpha, hashB, b, max, k)
    {
      assert k in PutAll(map[], vertices).Keys;
      CommonRank(alpha, hashA, max, vertices, edges, us, a, k);
      CommonRank(alpha, hashB, max, vertices, edges, us, b, k);
    }
  }

  /** Up to superstep 1 nothing is computed. */
  lemma {:induction false} EarlyRank<K(!new), E(!new)>(
      alpha: real, hash: K -> nat, max: nat, vertices: seq<(K, real)>, edges: seq<Edge<K, E>>,
      c: Cluster<K, real, E, real, Option<real>>, k: K)
    requires RankLaunched(alpha, hash, vertices, edges, c) && max <= 1 && k in PutAll(map[], vertices)
    ensures RankAfter(alpha, hash, c, max, k) == Some(PutAll(map[], vertices)[k])
  {
    var job := Job(PageRankAlg<K, E>(alpha), hash, max);
    hide *;
    var home := OwnerOf(alpha, hash, vertices, edges, c, k);
    FirstRepresents(alpha, hash, max, vertices, edges, c);
    var c1 := Round(job, c, 1).value.0;
    LoopStep(job, c, 1);
    if max == 0 {
      HeldBy(alpha, hash, c, k, home, c, max);
    } else {
      LoopStep(job, c1, 2);
      AfterFirst(alpha, hash, max, vertices, edges, c, home);
      WarmStays(alpha, FirstPool(vertices, edges), c.sites[home], c1.sites[home], c1.inboxes[home]);
      HeldBy(alpha, hash, c, k, home, c1, max);
    }
  }

  lemma EarlyAgree<K(!new), E(!new)>(alpha: real, vertices: seq<(K, real)>, edges: seq<Edge<K, E>>, max: nat)
    requires max <= 1
    ensures Agree(alpha, vertices, edges, max)
  {
    hide RankLaunched, PutAll, RankAfter;
    forall hashA: K -> nat, a: Cluster<K, real, E, real, Option<real>>,
           hashB: K -> nat, b: Cluster<K, real, E, real, Option<real>>, k: K |
      RankLaunched(alpha, hashA, vertices, edges, a) && RankLaunched(alpha, hashB, vertices, edges, b)
      && k in PutAll(map[], vertices)
      ensures RankAfter(alpha, hashA, a, max, k) == RankAfter(alpha, hashB, b, max, k)
    {
      EarlyRank(alpha, hashA, max, vertices, edges, a, k);
      EarlyRank(alpha, hashB, max, vertices, edges, b, k);
    }
  }

  // ---------------------------------------------------------------------------------------
  // When they do not.

  /** In superstep 3 a vertex adds its term to what flows in. */
  lemma {:induction false} RankOfTerm<K(!new), E(!new)>(
      alpha: real, term: K -> real, edges: multiset<Edge<K, E>>, us: seq<K>, x: map<K, real>, v: K)
    requires (forall u :: u in us ==> u in x) && v in x.Keys
    ensures Ranks(alpha, term, edges, us, x, 1)[v] == Rank(alpha, Inflow(edges, us, x, v), Some(term(v)))
  {
    hide PageRankMass.Inflow, Rank;
    RanksNext(alpha, term, edges, us, x, 0);
  }

  /** The rank of `v` after superstep 3, on some cluster where its term is `t`. */
  ghost predicate ThirdRank<K(!new), E(!new)>(
      alpha: real, hash: K -> nat, c: Cluster<K, real, E, real, Option<real>>, inflow: real, v: K, t: real)
  {
    RankAfter(alpha, hash, c, 3, v) == Some(Rank(alpha, inflow, Some(t)))
  }

  lemma {:induction false} RankAfterThree<K(!new), E(!new)>(
      alpha: real, hash: K -> nat, vertices: seq<(K, real)>, edges: seq<Edge<K, E>>, us: seq<K>,
      c: Cluster<K, real, E, real, Option<real>>, v: K) returns (t: real)
    requires 0.0 <= alpha < 1.0 && v in PutAll(map[], vertices).Keys
    requires RankLaunched(alpha, hash, vertices, edges, c) && ZeroOrOne(PutAll(map[], vertices))
    requires Leaving(multiset(edges), PutAll(map[], vertices)) && Lists(us, PutAll(map[], vertices).Keys)
    ensures forall u :: u in us ==> u in SecondRanks(alpha, vertices, edges, us)
    ensures ValidCluster(c) && ThirdTerm(alpha, hash, c, SecondRanks(alpha, vertices, edges, us), v, t)
    ensures ThirdRank(alpha, hash, c, Inflow(multiset(edges), us, SecondRanks(alpha, vertices, edges, us), v), v, t)
  {
    hide RankLaunched, PutAll, ThirdTerm, SecondRanks, Lists, RankAfter, PageRankMass.Inflow, Rank, ZeroOrOne, Ranks;
    ListedIn(us, PutAll(map[], vertices).Keys);
    var term := RanksFromThree(alpha, hash, 3, vertices, edges, us, c);
    RankOfTerm(alpha, term, multiset(edges), us, SecondRanks(alpha, vertices, edges, us), v);
    t := term(v);
  }

  /** A vertex of value 0 that is alone with its worker takes its term from its own rank. */
  lemma {:induction false} AloneTerm<K(!new), E(!new)>(
      alpha: real, vertices: seq<(K, real)>, edges: seq<Edge<K, E>>, us: seq<K>, z: K)
    returns (hash: K -> nat, c: Cluster<K, real, E, real, Option<real>>)
    requires 0.0 <= alpha < 1.0 && z in PutAll(map[], vertices).Keys && PutAll(map[], vertices)[z] == 0.0
    requires ZeroOrOne(PutAll(map[], vertices))
    requires Leaving(multiset(edges), PutAll(map[], vertices)) && Lists(us, PutAll(map[], vertices).Keys)
    ensures RankLaunched(alpha, hash, vertices, edges, c)
    ensures forall u :: u in us ==> u in SecondRanks(alpha, vertices, edges, us)
    ensures var x := SecondRanks(alpha, vertices, edges, us);
            ThirdRank(alpha, hash, c, Inflow(multiset(edges), us, x, z), z, Fixed(alpha, x[z]))
  {
    hash := k => if k == z then 0 else 1;
    assert forall k :: PartitionOf(hash, k, 2) == if k == z then 0 else 1;
    hide *;
    c := ClusterExists(alpha, hash, 2, vertices, edges, z);
    var t := RankAfterThree(alpha, hash, vertices, edges, us, c, z);
    var home := OwnerOf(alpha, hash, vertices, edges, c, z);
    AloneIsZero(alpha, hash, vertices, edges, c, z, home);
    ThirdTermOfNone(alpha, hash, c, SecondRanks(alpha, vertices, edges, us), z, t);
  }

  lemma {:induction false} AloneIsZero<K(!new), E(!new)>(
      alpha: real, hash: K -> nat, vertices: seq<(K, real)>, edges: seq<Edge<K, E>>,
      c: Cluster<K, real, E, real, Option<real>>, z: K, home: nat)
    requires RankLaunched(alpha, hash, vertices, edges, c) && ValidCluster(c) && home < |c.sites|
    requires ZeroOrOne(PutAll(map[], vertices))
    requires z in PutAll(map[], vertices).Keys && PutAll(map[], vertices)[z] == 0.0
    requires ValidStore(c.sites[home].store) && home == PartitionOf(hash, z, |c.sites|)
    requires forall k :: PartitionOf(hash, k, |c.sites|) == home ==> k == z
    ensures OwnTeleport(alpha, c.sites[home].store) == None
  {
    var store := c.sites[home].store;
    Loading.LoadedRepresents(hash, vertices, edges, c);
    hide RankLaunched, PutAll, OwnTeleport, PartitionOf, Sees;
    var st := Start<K, real, real>(PutAll(map[], vertices));
    forall v | v in store.verts
      ensures v == z && store.verts[v] == 0.0
    {
      RepresentsStores(hash, multiset(edges), c, st, v);
    }
    OwnTeleportIs(alpha, store);
  }

  lemma ThirdTermOfNone<K(!new), E(!new)>(
      alpha: real, hash: K -> nat, c: Cluster<K, real, E, real, Option<real>>, x: map<K, real>, v: K, t: real)
    requires ValidCluster(c) && ThirdTerm(alpha, hash, c, x, v, t)
    requires var store := c.sites[PartitionOf(hash, v, |c.sites|)].store;
             ValidStore(store) && (v in store.verts ==> store.order != [] && store.order[0] == v)
             && OwnTeleport(alpha, store) == None
    ensures v in x && t == Fixed(alpha, x[v])
  {
    hide OwnTeleport, Fixed, PartitionOf, ValidStore;
  }

  lemma ThirdTermOfSome<K(!new), E(!new)>(
      alpha: real, hash: K -> nat, c: Cluster<K, real, E, real, Option<real>>, x: map<K, real>, v: K, t: real)
    requires ValidCluster(c) && ThirdTerm(alpha, hash, c, x, v, t)
    requires var store := c.sites[PartitionOf(hash, v, |c.sites|)].store;
             ValidStore(store) && OwnTeleport(alpha, store).Some?
    ensures t == 1.0 - alpha
  {
    hide OwnTeleport, Fixed, PartitionOf, ValidStore;
  }

  /** On one worker that also has a vertex of value 1, its term is 1 - alpha. */
  lemma {:induction false} TogetherTerm<K(!new), E(!new)>(
      alpha: real, hash: K -> nat, vertices: seq<(K, real)>, edges: seq<Edge<K, E>>, us: seq<K>, z: K, o: K)
    returns (c: Cluster<K, real, E, real, Option<real>>)
    requires 0.0 <= alpha < 1.0 && z in PutAll(map[], vertices).Keys && o in PutAll(map[], vertices).Keys
    requires PutAll(map[], vertices)[o] == 1.0 && ZeroOrOne(PutAll(map[], vertices))
    requires Leaving(multiset(edges), PutAll(map[], vertices)) && Lists(us, PutAll(map[], vertices).Keys)
    ensures RankLaunched(alpha, hash, vertices, edges, c)
    ensures forall u :: u in us ==> u in SecondRanks(alpha, vertices, edges, us)
    ensures var x := SecondRanks(alpha, vertices, edges, us);
            ThirdRank(alpha, hash, c, Inflow(multiset(edges), us, x, z), z, 1.0 - alpha)
  {
    assert forall k :: PartitionOf(hash, k, 1) == 0;
    hide *;
    c := ClusterExists(alpha, hash, 1, vertices, edges, o);
    var t := RankAfterThree(alpha, hash, vertices, edges, us, c, z);
    var home := OwnerOf(alpha, hash, vertices, edges, c, o);
    HasPositive(alpha, hash, vertices, edges, c, o, home);
    ThirdTermOfSome(alpha, hash, c, SecondRanks(alpha, vertices, edges, us), z, t);
  }

  lemma {:induction false} HasPositive<K(!new), E(!new)>(
      alpha: real, hash: K -> nat, vertices: seq<(K, real)>, edges: seq<Edge<K, E>>,
      c: Cluster<K, real, E, real, Option<real>>, o: K, home: nat)
    requires RankLaunched(alpha, hash, vertices, edges, c) && ZeroOrOne(PutAll(map[], vertices)) && home < |c.sites|
    requires ValidStore(c.sites[home].store) && o in c.sites[home].store.verts && c.sites[home].store.verts[o] == 1.0
    ensures OwnTeleport(alpha, c.sites[home].store).Some?
  {
    hide OwnTeleport, RankLaunched, PutAll;
    FirstIsUndecided(alpha, hash, 3, vertices, edges, c, home);
    OwnTeleportIs(alpha, c.sites[home].store);
  }

  lemma ThirdRanksDiffer(alpha: real, inflow: real, r: real)
    requires alpha != 1.0 && r != 1.0
    ensures Rank(alpha, inflow, Some(Fixed(alpha, r))) != Rank(alpha, inflow, Some(1.0 - alpha))
  {
    FixedOfOne(alpha);
    FixedAgrees(alpha, r, 1.0);
    hide Fixed;
  }

  lemma {:induction false} DisagreeAtThree<K(!new), E(!new)>(
      alpha: real, vertices: seq<(K, real)>, edges: seq<Edge<K, E>>, z: K, o: K)
    requires 0.0 <= alpha < 1.0 && z in PutAll(map[], vertices).Keys && o in PutAll(map[], vertices).Keys
    requires PutAll(map[], vertices)[z] == 0.0 && PutAll(map[], vertices)[o] == 1.0
    requires ZeroOrOne(PutAll(map[], vertices))
    requires Leaving(multiset(edges), PutAll(map[], vertices))
    requires alpha * MassTo(FirstPool(vertices, edges), z) != alpha
    ensures !Agree(alpha, vertices, edges, 3)
  {
    hide RankLaunched, PutAll, ThirdTerm, SecondRanks, Lists, RankAfter, PageRankMass.Inflow, Rank, ZeroOrOne,
      FirstPool, MassTo, Fixed, Leaving;
    var us := ListingOf(PutAll(map[], vertices));
    var x := SecondRanks(alpha, vertices, edges, us);
    SecondRankIs(alpha, vertices, edges, us, z);
    RankIsOneExactlyWhen(alpha, MassTo(FirstPool(vertices, edges), z));
    var apart, many := AloneTerm(alpha, vertices, edges, us, z);
    var together: K -> nat := k => 0;
    var one := TogetherTerm(alpha, together, vertices, edges, us, z, o);
    ThirdRanksDiffer(alpha, Inflow(multiset(edges), us, x, z), x[z]);
    assert z in PutAll(map[], vertices);
    assert RankAfter(alpha, apart, many, 3, z) != RankAfter(alpha, together, one, 3, z);
  }

  // ---------------------------------------------------------------------------------------
  // The exact condition.

  ghost predicate AllEqual<K(!new)>(verts: map<K, real>) {
    forall a, b :: a in verts && b in verts ==> verts[a] == verts[b]
  }

  /** From values that are not negative, for 0 <= alpha <= 1, all clusters agree on every run exactly when
      nothing teleports, or no vertex has an out-edge, or all values are equal, or they are 0 and 1 and
      every vertex of value 0 gets as much from its neighbours as if it had value 1. */
  lemma {:induction false} AgreeFromZerosExactlyWhen<K(!new), E(!new)>(
      alpha: real, vertices: seq<(K, real)>, edges: seq<Edge<K, E>>)
    requires 0.0 <= alpha <= 1.0
    requires forall k :: k in PutAll(map[], vertices) ==> PutAll(map[], vertices)[k] >= 0.0
    ensures var verts := PutAll(map[], vertices);
            (forall max: nat :: Agree(alpha, vertices, edges, max))
            <==> || alpha == 1.0
                 || !Leaving(multiset(edges), verts)
                 || AllEqual(verts)
                 || (ZeroOrOne(verts) && ZerosGetOne(alpha, vertices, edges))
  {
    var verts := PutAll(map[], vertices);
    FirstSilentExactlyWhen(vertices, edges);
    hide Agree, PutAll, FirstPool, Leaving, MassTo;
    if alpha == 1.0 || !Leaving(multiset(edges), verts) || AllEqual(verts)
       || (ZeroOrOne(verts) && ZerosGetOne(alpha, vertices, edges)) {
      forall max: nat
        ensures Agree(alpha, vertices, edges, max)
      {
        AgreeWhen(alpha, vertices, edges, max);
      }
    } else {
      DisagreeWhen(alpha, vertices, edges);
    }
  }

  lemma {:induction false} AgreeWhen<K(!new), E(!new)>(
      alpha: real, vertices: seq<(K, real)>, edges: seq<Edge<K, E>>, max: nat)
    requires 0.0 <= alpha <= 1.0
    requires forall k :: k in PutAll(map[], vertices) ==> PutAll(map[], vertices)[k] >= 0.0
    requires alpha == 1.0 || !Leaving(multiset(edges), PutAll(map[], vertices)) || AllEqual(PutAll(map[], vertices))
             || (ZeroOrOne(PutAll(map[], vertices)) && ZerosGetOne(alpha, vertices, edges))
    ensures Agree(alpha, vertices, edges, max)
  {
    var verts := PutAll(map[], vertices);
    FirstSilentExactlyWhen(vertices, edges);
    hide Agree, PutAll, FirstPool, Leaving, MassTo, ZerosGetOne;
    if alpha == 1.0 {
      UndampedAgree(vertices, edges, max);
    } else if !Leaving(multiset(edges), verts) {
      UnsentAgree(alpha, vertices, edges, max);
    } else if max <= 1 {
      EarlyAgree(alpha, vertices, edges, max);
    } else if k :| k in verts && AllEqual(verts) && verts[k] > 0.0 {
      UniformAgree(alpha, verts[k], vertices, edges, max);
    } else {
      CommonAgree(alpha, vertices, edges, max);
    }
  }

  lemma {:induction false} DisagreeWhen<K(!new), E(!new)>(
      alpha: real, vertices: seq<(K, real)>, edges: seq<Edge<K, E>>)
    requires 0.0 <= alpha < 1.0 && Leaving(multiset(edges), PutAll(map[], vertices))
    requires forall k :: k in PutAll(map[], vertices) ==> PutAll(map[], vertices)[k] >= 0.0
    requires !AllEqual(PutAll(map[], vertices))
    requires !(ZeroOrOne(PutAll(map[], vertices)) && ZerosGetOne(alpha, vertices, edges))
    ensures exists max: nat :: !Agree(alpha, vertices, edges, max)
  {
    var verts := PutAll(map[], vertices);
    AgreeAfterTwoExactlyWhen(alpha, vertices, edges);
    hide Agree, PutAll, FirstPool, Leaving, MassTo;
    if SameEffective(verts) {
      var a, b :| a in verts && b in verts && verts[a] != verts[b];
      var o := if verts[a] > 0.0 then a else b;
      assert forall v :: v in verts ==> Effective(verts[v]) == Effective(verts[o]) == 1.0 by {
        assert Effective(verts[a]) == Effective(verts[b]);
      }
      assert ZeroOrOne(verts) && verts[o] == 1.0;
      var z :| z in verts && verts[z] == 0.0 && alpha * MassTo(FirstPool(vertices, edges), z) != alpha;
      DisagreeAtThree(alpha, vertices, edges, z, o);
    }
  }

  lemma {:induction false} ZeroAndOne(vertices: seq<(int, real)>)
    requires vertices == [(1, 0.0), (2, 1.0)]
    ensures PutAll(map[], vertices) == map[1 := 0.0, 2 := 1.0]
  {
    assert vertices[..1] == [(1, 0.0)] && vertices[..1][..0] == [];
    assert PutAll(map[], vertices[..1]) == map[1 := 0.0];
  }

  lemma ZeroValues(verts: map<int, real>)
    requires verts == map[1 := 0.0, 2 := 1.0]
    ensures ZeroOrOne(verts) && SameEffective(verts)
  {
  }

  lemma HalfOfNothing(mass: real)
    requires mass == 0.0
    ensures 0.5 * mass != 0.5
  {
  }

  lemma {:induction false} ZeroGraph(vertices: seq<(int, real)>, edges: seq<Edge<int, ()>>)
    requires vertices == [(1, 0.0), (2, 1.0)] && edges == [Edge(1, 2, ())]
    ensures 1 in PutAll(map[], vertices).Keys && 2 in PutAll(map[], vertices).Keys
    ensures PutAll(map[], vertices)[1] == 0.0 && PutAll(map[], vertices)[2] == 1.0
    ensures ZeroOrOne(PutAll(map[], vertices)) && SameEffective(PutAll(map[], vertices))
    ensures Leaving(multiset(edges), PutAll(map[], vertices))
    ensures 0.5 * MassTo(FirstPool(vertices, edges), 1) != 0.5
  {
    ZeroAndOne(vertices);
    assert edges[0] in multiset(edges) && edges[0].src in PutAll(map[], vertices);
    hide FirstPool, MassTo, PutAll, SameEffective, ZeroOrOne;
    ZeroValues(PutAll(map[], vertices));
    NoInflow(vertices, edges, 1);
    HalfOfNothing(MassTo(FirstPool(vertices, edges), 1));
  }

  /** A vertex of value 0 with an edge to one of value 1, damped by 1/2: all clusters agree after two
      supersteps, and not after three. */
  lemma {:induction false} ZeroIsDecidedLate()
    ensures var vertices, edges := [(1, 0.0), (2, 1.0)], [Edge(1, 2, ())];
            Agree(0.5, vertices, edges, 2) && !Agree(0.5, vertices, edges, 3)
  {
    hide *;
    var vertices, edges := [(1, 0.0), (2, 1.0)], [Edge(1, 2, ())];
    ZeroGraph(vertices, edges);
    AgreeAfterTwoExactlyWhen(0.5, vertices, edges);
    DisagreeAtThree(0.5, vertices, edges, 1, 2);
  }
}
