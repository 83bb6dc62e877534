/** PageRank and recovery: the hidden variable is not saved.

    The workers that take over have new instances of the vertex function, which take their teleport
    term from the first positive value that they list: no longer the value that every vertex started
    with, but whatever rank that vertex has by then. And a job on a graph without out-edges ends with
    its first superstep, while its recovery computes one more. Here is exactly when the recovered run
    ends with the ranks of the job.
 */
module PageRankRecovery {
  import opened Options
  import opened Bags
  import opened Runs
  import opened Bsp
  import opened Shuffle
  import opened WorkerCore
  import opened Rounds
  import opened Refinement
  import opened Disk
  import opened Attempts
  import opened Recovery
  import opened PageRank
  import opened PageRankMass
  import opened PageRankTerms
  import opened PageRankWorkers
  import opened PageRankOrder
  import EndToEnd
  import Scheduler

  // ---------------------------------------------------------------------------------------
  // The job and its continuation, on the reference graph.

  /** The state of the job after superstep `k`, when every teleport term is `t`. */
  ghost function JobState<K(!new), E(!new)>(
      alpha: real, t: real, vertices: seq<(K, real)>, edges: seq<Edge<K, E>>, k: nat): State<K, real, real>
  {
    StateAfter(PageRankProgram<K, E>(alpha, t), vertices, edges, k)
  }

  lemma {:induction false} NextJobState<K(!new), E(!new)>(
      alpha: real, t: real, vertices: seq<(K, real)>, edges: seq<Edge<K, E>>, k: nat, it: nat)
    requires it == k + 1
    ensures JobState(alpha, t, vertices, edges, it)
         == Superstep(PageRankProgram<K, E>(alpha, t), multiset(edges), JobState(alpha, t, vertices, edges, k), it)
  {
    hide Superstep, PageRankProgram, Bulk;
    BulkAfter(PageRankProgram<K, E>(alpha, t), multiset(edges), Start<K, real, real>(PutAll(map[], vertices)), k, it);
  }

  lemma {:induction false} JobFlows<K(!new), E(!new)>(
      alpha: real, t: real, vertices: seq<(K, real)>, edges: seq<Edge<K, E>>, us: seq<K>, k: nat)
    requires k >= 1 && Lists(us, PutAll(map[], vertices).Keys)
    ensures Flowing(multiset(edges), us, JobState(alpha, t, vertices, edges, k))
    ensures JobState(alpha, t, vertices, edges, k).verts.Keys == PutAll(map[], vertices).Keys
  {
    hide Superstep, PageRankProgram, Bulk, MassTo, PageRankMass.Inflow, PutAll;
    var p := PageRankProgram<K, E>(alpha, t);
    var before := JobState(alpha, t, vertices, edges, k - 1);
    NextJobState(alpha, t, vertices, edges, k - 1, k);
    AfterKeepsKeys(p, multiset(edges), PutAll(map[], vertices), k - 1);
    AfterKeepsKeys(p, multiset(edges), PutAll(map[], vertices), k);
    forall v
      ensures var st := JobState(alpha, t, vertices, edges, k);
              MassTo(st.pool, v) == Inflow(multiset(edges), us, st.verts, v)
    {
      PoolInflow(alpha, t, multiset(edges), before, k, us, v);
    }
  }

  lemma {:induction false} FirstJobState<K(!new), E(!new)>(
      alpha: real, t: real, vertices: seq<(K, real)>, edges: seq<Edge<K, E>>)
    ensures var st := JobState(alpha, t, vertices, edges, 1);
            && st.verts == PutAll(map[], vertices)
            && (st.pool != multiset{} <==> Leaving(multiset(edges), PutAll(map[], vertices)))
  {
    var p, all := PageRankProgram<K, E>(alpha, t), multiset(edges);
    var st: State<K, real, real> := Start(PutAll(map[], vertices));
    FirstKeepsValues(alpha, t, all, PutAll(map[], vertices));
    NextJobState(alpha, t, vertices, edges, 0, 1);
    hide Superstep, Shares, PutAll, Bulk;
    forall u | u in st.verts
      ensures exists value: real :: Bsp.Compute(p, all, st, 1, u).1 == Shares(SeqOf(OutEdges(all, u)), value)
    {
      assert Bsp.Compute(p, all, st, 1, u).1 == Shares(SeqOf(OutEdges(all, u)), st.verts[u]);
    }
    SilentExactlyWhen(p, all, st, 1);
  }

  ghost function JobRun<K(!new), E(!new)>(
      alpha: real, t: real, vertices: seq<(K, real)>, edges: seq<Edge<K, E>>, max: nat): (State<K, real, real>, int)
  {
    Run(Bulk(PageRankProgram<K, E>(alpha, t), multiset(edges)), JobState(alpha, t, vertices, edges, 0), max)
  }

  /** The run that continues after superstep `k` with a term for each vertex. */
  ghost function Continued<K(!new), E(!new)>(
      alpha: real, t: real, term: K -> real, vertices: seq<(K, real)>, edges: seq<Edge<K, E>>, k: nat, max: nat)
    : (State<K, real, real>, int)
  {
    RunFrom(Bulk(TermProgram<K, E>(alpha, term), multiset(edges)), JobState(alpha, t, vertices, edges, k), k + 1, max)
  }

  lemma {:induction false} ContinuedIs<K(!new), E(!new)>(
      alpha: real, t: real, term: K -> real, vertices: seq<(K, real)>, edges: seq<Edge<K, E>>, k: nat, max: nat)
    ensures Continued(alpha, t, term, vertices, edges, k, max)
         == RunFrom(Bulk(TermProgram<K, E>(alpha, term), multiset(edges)), JobState(alpha, t, vertices, edges, k),
                    k + 1, max)
  {
    hide JobState, Bulk, TermProgram;
  }

  /** A job on a graph without out-edges ends with superstep 1, and the values it started with. */
  lemma {:induction false} JobStopsAtOnce<K(!new), E(!new)>(
      alpha: real, t: real, vertices: seq<(K, real)>, edges: seq<Edge<K, E>>, max: nat)
    requires max >= 1 && !Leaving(multiset(edges), PutAll(map[], vertices))
    ensures JobRun(alpha, t, vertices, edges, max).0.verts == PutAll(map[], vertices)
    ensures JobRun(alpha, t, vertices, edges, max).1 == 1
  {
    FirstJobState(alpha, t, vertices, edges);
    JobFirstStep(alpha, t, vertices, edges);
    hide Leaving, Bulk;
  }

  lemma JobFirstStep<K(!new), E(!new)>(
      alpha: real, t: real, vertices: seq<(K, real)>, edges: seq<Edge<K, E>>)
    ensures var m := Bulk(PageRankProgram<K, E>(alpha, t), multiset(edges));
            var st := JobState(alpha, t, vertices, edges, 1);
            m.step(JobState(alpha, t, vertices, edges, 0), 1) == st && (m.silent(st) <==> st.pool == multiset{})
  {
    hide Superstep, PageRankProgram;
    NextJobState(alpha, t, vertices, edges, 0, 1);
    var st := JobState(alpha, t, vertices, edges, 1);
    assert Silent(st) <==> st.pool == multiset{};
  }

  lemma {:induction false} JobUsesUp<K(!new), E(!new)>(
      alpha: real, t: real, vertices: seq<(K, real)>, edges: seq<Edge<K, E>>, us: seq<K>, max: nat)
    requires max >= 1 && Lists(us, PutAll(map[], vertices).Keys)
    requires Leaving(multiset(edges), PutAll(map[], vertices))
    ensures JobRun(alpha, t, vertices, edges, max).1 == max
  {
    FirstJobState(alpha, t, vertices, edges);
    JobFirstStep(alpha, t, vertices, edges);
    hide Bulk, PageRankProgram, RanksBy, NextRanks, PutAll, JobState, Leaving, Ranks;
    ContinuesWithRanks(PageRankProgram<K, E>(alpha, t), alpha, t, Everywhere(t), vertices, edges, us, 1, max) by {
      PageRankProgramRanks<K, E>(alpha, t);
    }
  }

  /** What a run that goes on after superstep `k` ends with. */
  lemma {:induction false} ContinuesWithRanks<K(!new), E(!new)>(
      p: Program<K, real, E, real>, alpha: real, t: real, term: K -> real, vertices: seq<(K, real)>,
      edges: seq<Edge<K, E>>, us: seq<K>, k: nat, max: nat)
    requires 1 <= k <= max && RanksBy(p, alpha, term) && Lists(us, PutAll(map[], vertices).Keys)
    ensures var st := JobState(alpha, t, vertices, edges, k);
            var (end, executed) := RunFrom(Bulk(p, multiset(edges)), st, k + 1, max);
            && st.verts.Keys == PutAll(map[], vertices).Keys
            && if Leaving(multiset(edges), PutAll(map[], vertices)) then
                 executed == max && end.verts == Ranks(alpha, term, multiset(edges), us, st.verts, max - k)
               else k < max ==>
                 && executed == k + 1 && end.verts.Keys == st.verts.Keys
                 && forall v :: v in end.verts ==> end.verts[v] == term(v)
  {
    hide *;
    var st := JobState(alpha, t, vertices, edges, k);
    JobFlows(alpha, t, vertices, edges, us, k);
    LeavingKeys(multiset(edges), PutAll(map[], vertices), st.verts);
    if Leaving(multiset(edges), PutAll(map[], vertices)) {
      RunRanks(p, alpha, term, multiset(edges), us, st, k + 1, max);
    } else if k < max {
      RunStopsAtOnce(p, alpha, term, multiset(edges), us, st, k + 1, max);
      IsolatedRanks(alpha, term, multiset(edges), us, st.verts);
    }
  }

  lemma {:induction false} IsolatedRanks<K(!new), E(!new)>(
      alpha: real, term: K -> real, edges: multiset<Edge<K, E>>, us: seq<K>, x: map<K, real>)
    requires Lists(us, x.Keys) && forall v :: Inflow(edges, us, x, v) == 0.0
    ensures forall v :: v in NextRanks(alpha, term, edges, us, x) ==>
              NextRanks(alpha, term, edges, us, x)[v] == term(v)
  {
    hide PageRankMass.Inflow, Rank;
    forall v | v in x
      ensures NextRanks(alpha, term, edges, us, x)[v] == term(v)
    {
      NothingAdded(alpha, term(v));
    }
  }

  /** Otherwise it uses up its supersteps, and its ranks come from those after any superstep. */
  lemma {:induction false} JobGoesOn<K(!new), E(!new)>(
      alpha: real, t: real, vertices: seq<(K, real)>, edges: seq<Edge<K, E>>, us: seq<K>, k: nat, max: nat)
    requires 1 <= k < max && Lists(us, PutAll(map[], vertices).Keys)
    requires Leaving(multiset(edges), PutAll(map[], vertices))
    ensures var (end, executed) := JobRun(alpha, t, vertices, edges, max);
            var st := JobState(alpha, t, vertices, edges, k);
            && executed == max && st.verts.Keys == PutAll(map[], vertices).Keys
            && end.verts == Ranks(alpha, Everywhere(t), multiset(edges), us, st.verts, max - k)
  {
    hide *;
    JobUsesUp(alpha, t, vertices, edges, us, max);
    PageRankProgramRanks<K, E>(alpha, t);
    ContinuesWithRanks(PageRankProgram<K, E>(alpha, t), alpha, t, Everywhere(t), vertices, edges, us, k, max);
    JobFromMiddle(alpha, t, vertices, edges, k, max);
  }

  /** A job that gets past superstep `k` is the run that goes on from there. */
  lemma {:induction false} JobFromMiddle<K(!new), E(!new)>(
      alpha: real, t: real, vertices: seq<(K, real)>, edges: seq<Edge<K, E>>, k: nat, max: nat)
    requires JobRun(alpha, t, vertices, edges, max).1 > k
    ensures RunFrom(Bulk(PageRankProgram<K, E>(alpha, t), multiset(edges)), JobState(alpha, t, vertices, edges, k),
                    k + 1, max)
         == JobRun(alpha, t, vertices, edges, max)
  {
    hide PageRankProgram, Bulk;
    RunFromMiddle(Bulk(PageRankProgram<K, E>(alpha, t), multiset(edges)),
                  Start<K, real, real>(PutAll(map[], vertices)), 0, k, max);
  }

  // ---------------------------------------------------------------------------------------
  // When the continuation ends with the ranks of the job.

  /** Without out-edges, all vertices have one value after superstep `k`. */
  lemma {:induction false} IsolatedValues<K(!new), E(!new)>(
      alpha: real, v0: real, vertices: seq<(K, real)>, edges: seq<Edge<K, E>>, us: seq<K>, k: nat, u: K)
    requires k >= 1 && Uniform(PutAll(map[], vertices), v0) && u in PutAll(map[], vertices)
    requires Lists(us, PutAll(map[], vertices).Keys) && !Leaving(multiset(edges), PutAll(map[], vertices))
    ensures var st := JobState(alpha, Fixed(alpha, v0), vertices, edges, k);
            u in st.verts && st.verts[u] == if k == 1 then v0 else Fixed(alpha, v0)
  {
    var t, verts := Fixed(alpha, v0), PutAll(map[], vertices);
    assert JobState(alpha, t, vertices, edges, k).verts == Values(alpha, t, multiset(edges), verts, k);
    hide Values, Fixed, JobState, PageRankMass.Inflow, Rank, PutAll;
    ValuesKeys(alpha, t, multiset(edges), verts, k);
    if k == 1 {
      FirstKeepsValues(alpha, t, multiset(edges), verts);
    } else {
      ValuesKeys(alpha, t, multiset(edges), verts, k - 1);
      ValuesStep(alpha, t, multiset(edges), verts, us, k - 1, k);
      var x := Values(alpha, t, multiset(edges), verts, k - 1);
      assert !Leaving(multiset(edges), x);
      NothingFlows(multiset(edges), us, x, u);
      NothingAdded(alpha, t);
    }
  }

  lemma Damped(alpha: real, x: real)
    requires 0.0 < alpha < 1.0 && x > 0.0
    ensures 0.0 < Fixed(alpha, x) < x
  {
    assert alpha * x > 0.0;
    assert (1.0 - alpha) * x > 0.0;
    assert (1.0 - alpha) * x == x - alpha * x;
  }

  lemma Undamped(x: real)
    ensures Fixed(0.0, x) == x
  {
  }

  lemma DampedExactlyWhen(alpha: real, v0: real, r: real)
    requires 0.0 <= alpha < 1.0 && v0 > 0.0 && (r == v0 || r == Fixed(alpha, v0))
    ensures Fixed(alpha, r) == v0 <==> alpha == 0.0
    ensures alpha == 0.0 ==> Fixed(alpha, r) == Fixed(alpha, v0)
  {
    hide Fixed;
    if alpha > 0.0 {
      Damped(alpha, v0);
      Damped(alpha, r);
    } else {
      Undamped(v0);
      Undamped(r);
    }
  }

  /** Every vertex gets the term that some vertex's rank makes. */
  ghost predicate TermsFrom<K(!new)>(alpha: real, term: K -> real, x: map<K, real>) {
    forall v :: v in x ==> TermMadeOf(alpha, term, x, v)
  }

  ghost predicate TermMadeOf<K(!new)>(alpha: real, term: K -> real, x: map<K, real>, v: K) {
    exists u :: u in x && term(v) == Fixed(alpha, x[u])
  }

  lemma TermFrom<K(!new)>(alpha: real, term: K -> real, x: map<K, real>, v: K) returns (u: K)
    requires TermsFrom(alpha, term, x) && v in x.Keys
    ensures u in x.Keys && term(v) == Fixed(alpha, x[u])
  {
    hide Fixed;
    assert TermMadeOf(alpha, term, x, v);
    u :| u in x && term(v) == Fixed(alpha, x[u]);
  }

  lemma EndIsUniform<K(!new)>(end: map<K, real>, verts: map<K, real>, term: K -> real, v0: real)
    requires end.Keys == verts.Keys && Uniform(verts, v0) && forall v :: v in end ==> end[v] == term(v)
    ensures end == verts <==> forall v :: v in verts ==> term(v) == v0
  {
  }

  /** The continuation ends with the ranks of the job exactly when all terms are those of the job, and
      superstep 1 of the job was not its last one, or does not matter. */
  lemma {:induction false} ContinuedExactlyWhen<K(!new), E(!new)>(
      alpha: real, v0: real, term: K -> real, vertices: seq<(K, real)>, edges: seq<Edge<K, E>>, k: nat, max: nat)
    requires 0.0 <= alpha < 1.0 && v0 > 0.0 && Uniform(PutAll(map[], vertices), v0) && 1 <= k < max
    requires TermsFrom(alpha, term, JobState(alpha, Fixed(alpha, v0), vertices, edges, k).verts)
    ensures var t, verts := Fixed(alpha, v0), PutAll(map[], vertices);
            Continued(alpha, t, term, vertices, edges, k, max).0.verts == JobRun(alpha, t, vertices, edges, max).0.verts
            <==> (forall v :: v in verts ==> term(v) == t)
                 && (alpha == 0.0 || Leaving(multiset(edges), verts) || verts == map[])
    ensures Leaving(multiset(edges), PutAll(map[], vertices)) ==>
              && Continued(alpha, Fixed(alpha, v0), term, vertices, edges, k, max).1 == max
              && JobRun(alpha, Fixed(alpha, v0), vertices, edges, max).1 == max
  {
    hide *;
    var t, verts := Fixed(alpha, v0), PutAll(map[], vertices);
    var us := ListingOf(verts);
    EverywhereIs<K>(t);
    TermProgramRanks<K, E>(alpha, term);
    ContinuesWithRanks(TermProgram<K, E>(alpha, term), alpha, t, term, vertices, edges, us, k, max);
    ContinuedIs(alpha, t, term, vertices, edges, k, max);
    if Leaving(multiset(edges), verts) {
      JobGoesOn(alpha, t, vertices, edges, us, k, max);
      var x := JobState(alpha, t, vertices, edges, k).verts;
      SameRanksExactlyWhen(alpha, term, Everywhere(t), multiset(edges), us, x, max - k);
    } else {
      JobStopsAtOnce(alpha, t, vertices, edges, max);
      IsolatedExactlyWhen(alpha, v0, term, vertices, edges, us, k, max);
      EndIsUniform(Continued(alpha, t, term, vertices, edges, k, max).0.verts, verts, term, v0);
    }
  }

  lemma {:induction false} IsolatedExactlyWhen<K(!new), E(!new)>(
      alpha: real, v0: real, term: K -> real, vertices: seq<(K, real)>, edges: seq<Edge<K, E>>, us: seq<K>, k: nat,
      max: nat)
    requires 0.0 <= alpha < 1.0 && v0 > 0.0 && Uniform(PutAll(map[], vertices), v0) && 1 <= k < max
    requires TermsFrom(alpha, term, JobState(alpha, Fixed(alpha, v0), vertices, edges, k).verts)
    requires Lists(us, PutAll(map[], vertices).Keys) && !Leaving(multiset(edges), PutAll(map[], vertices))
    ensures var verts := PutAll(map[], vertices);
            (forall v :: v in verts ==> term(v) == v0)
            <==> (forall v :: v in verts ==> term(v) == Fixed(alpha, v0)) && (alpha == 0.0 || verts == map[])
  {
    hide *;
    var t, verts := Fixed(alpha, v0), PutAll(map[], vertices);
    var x := JobState(alpha, t, vertices, edges, k).verts;
    JobFlows(alpha, t, vertices, edges, us, k);
    forall v | v in verts
      ensures term(v) == v0 <==> alpha == 0.0
      ensures alpha == 0.0 ==> term(v) == t
    {
      var u := TermFrom(alpha, term, x, v);
      IsolatedValues(alpha, v0, vertices, edges, us, k, u);
      DampedExactlyWhen(alpha, v0, x[u]);
    }
  }

  // ---------------------------------------------------------------------------------------
  // Recovery from a crash.

  /** A PageRank job on a freshly loaded cluster, from the uniform start `v0`. */
  ghost predicate RankJob<K(!new), E(!new)>(
      a: Attempt<K, real, E, real, Option<real>>, alpha: real, v0: real, vertices: seq<(K, real)>,
      edges: seq<Edge<K, E>>)
  {
    && v0 > 0.0 && Uniform(PutAll(map[], vertices), v0)
    && a.job.alg == PageRankAlg<K, E>(alpha) && a.First() == 1
    && RankLaunched(alpha, a.job.hash, vertices, edges, a.c0)
  }

  lemma {:induction false} RankTypedAdmissible<K(!new), E(!new)>(alpha: real, v0: real)
    requires v0 > 0.0
    ensures var t := Fixed(alpha, v0);
            Admissible(PageRankAlg<K, E>(alpha), PageRankProgram<K, E>(alpha, t), PageRankTyping<K>(v0, t))
  {
    hide Admissible;
    PageRankAdmissible<K, E>(alpha, v0);
  }

  lemma {:induction false} RankJobIs<K(!new), E(!new)>(
      a: Attempt<K, real, E, real, Option<real>>, alpha: real, v0: real, vertices: seq<(K, real)>,
      edges: seq<Edge<K, E>>)
    requires RankJob(a, alpha, v0, vertices, edges)
    ensures a.job == Job(PageRankAlg<K, E>(alpha), a.job.hash, a.job.max)
    ensures v0 > 0.0 && Uniform(PutAll(map[], vertices), v0) && a.First() == 1
    ensures RankLaunched(alpha, a.job.hash, vertices, edges, a.c0)
  {
  }

  lemma {:induction false} RankJobStands<K(!new), E(!new)>(
      a: Attempt<K, real, E, real, Option<real>>, alpha: real, v0: real, vertices: seq<(K, real)>,
      edges: seq<Edge<K, E>>, k: nat)
    requires RankJob(a, alpha, v0, vertices, edges)
    ensures ValidCluster(a.c0) && CutOf(a, k).Some?
    ensures Represents(a.job.hash, multiset(edges), CutOf(a, k).value,
                       JobState(alpha, Fixed(alpha, v0), vertices, edges, k))
    ensures a.Outcome().Some? && |a.Outcome().value.0.sites| == |a.c0.sites|
    ensures var (end, executed) := JobRun(alpha, Fixed(alpha, v0), vertices, edges, a.job.max);
            a.Outcome().value.1 == executed && Represents(a.job.hash, multiset(edges), a.Outcome().value.0, end)
  {
    var t := Fixed(alpha, v0);
    var p, ty := PageRankProgram<K, E>(alpha, t), PageRankTyping<K>(v0, t);
    RankTypedAdmissible<K, E>(alpha, v0);
    assert OkStart(ty, PutAll(map[], vertices));
    hide Admissible, PageRankAlg, PageRankProgram, PageRankTyping, Fixed, Uniform, OkStart, Loading.FreshlyLoaded,
      Represents, Bulk;
    LaunchedStands(a.job, p, ty, vertices, edges, a.c0);
    CutRepresents(a.job, p, ty, vertices, edges, a.c0, 0, k);
    EndToEnd.LaunchedExecutes(a.job, p, ty, vertices, edges, a.c0);
  }

  lemma {:induction false} RanksPositive<K(!new), E(!new)>(
      alpha: real, v0: real, vertices: seq<(K, real)>, edges: seq<Edge<K, E>>, k: nat, v: K)
    requires 0.0 <= alpha < 1.0 && v0 > 0.0 && Uniform(PutAll(map[], vertices), v0)
    ensures var st := JobState(alpha, Fixed(alpha, v0), vertices, edges, k);
            v in st.verts ==> st.verts[v] > 0.0 && (k <= 1 ==> st.verts[v] == v0)
  {
    var verts := PutAll(map[], vertices);
    var us := ListingOf(verts);
    assert Fixed(alpha, v0) > 0.0;
    assert JobState(alpha, Fixed(alpha, v0), vertices, edges, k).verts
        == Values(alpha, Fixed(alpha, v0), multiset(edges), verts, k);
    hide Values, Fixed, JobState;
    MassBounded(alpha, v0, multiset(edges), verts, us, k);
    if k <= 1 {
      FirstValues(alpha, Fixed(alpha, v0), multiset(edges), verts, v0, us, k);
    }
  }

  /** The cluster is where the job is after some superstep, but with new instances. */
  ghost predicate Restarted<K(!new), E(!new)>(
      hash: K -> nat, edges: multiset<Edge<K, E>>, c: Cluster<K, real, E, real, Option<real>>,
      st: State<K, real, real>)
  {
    && Represents(hash, edges, c, st)
    && forall i :: 0 <= i < |c.sites| ==> Wakes(c.sites[i]) && c.sites[i].algo == None
  }

  lemma {:induction false} RecoveredRestarts<K(!new), E(!new)>(
      a: Attempt<K, real, E, real, Option<real>>, alpha: real, v0: real, vertices: seq<(K, real)>,
      edges: seq<Edge<K, E>>, d: DiskState<K, real, E, real>, sites: seq<Site<K, real, E, Option<real>>>)
    requires RankJob(a, alpha, v0, vertices, edges) && 0.0 <= alpha < 1.0
    requires ValidCluster(a.c0) && TakesOver(a, d, sites)
    ensures Restarted(a.job.hash, multiset(edges), Successor(a, d, sites).c0,
                      JobState(alpha, Fixed(alpha, v0), vertices, edges, d.latest.value.iteration))
  {
    var k, b := d.latest.value.iteration, Successor(a, d, sites);
    var st := JobState(alpha, Fixed(alpha, v0), vertices, edges, k);
    RankJobStands(a, alpha, v0, vertices, edges, k);
    hide Represents, JobState, JobRun, Survives, Cut;
    SuccessorRepresents(a, multiset(edges), st, d, sites);
    forall i: nat | i < |b.c0.sites|
      ensures Wakes(b.c0.sites[i]) && b.c0.sites[i].algo == None
    {
      SiteSees(a.job.hash, multiset(edges), b.c0, st, i);
      assert b.c0.sites[i].algo == sites[i].algo == None;
      forall v | v in b.c0.sites[i].store.verts
        ensures b.c0.sites[i].store.verts[v] > 0.0
      {
        RepresentsStores(a.job.hash, multiset(edges), b.c0, st, v);
        RanksPositive(alpha, v0, vertices, edges, k, v);
      }
    }
  }

  /** Every worker that has vertices lists first one that still has the value it started with. */
  ghost predicate FirstsUnchanged<K(!new), E>(v0: real, c: Cluster<K, real, E, real, Option<real>>) {
    forall i :: 0 <= i < |c.sites| && c.sites[i].store.order != [] ==>
      var store := c.sites[i].store;
      store.order[0] in store.verts && store.verts[store.order[0]] == v0
  }

  /** The term of a vertex comes from the vertex that its worker lists first. */
  lemma {:induction false} OwnerTermIs<K(!new), E(!new)>(
      alpha: real, hash: K -> nat, edges: multiset<Edge<K, E>>, c: Cluster<K, real, E, real, Option<real>>,
      st: State<K, real, real>, v: K) returns (i: nat)
    requires Restarted(hash, edges, c, st) && v in st.verts
    ensures ValidCluster(c) && i < |c.sites| && c.sites[i].store.order != []
    ensures var first := c.sites[i].store.order[0];
            && first in c.sites[i].store.verts && first in st.verts && c.sites[i].store.verts[first] == st.verts[first]
            && OwnerTerm(alpha, hash, c)(v) == Fixed(alpha, st.verts[first])
  {
    i := PartitionOf(hash, v, |c.sites|);
    var store := c.sites[i].store;
    RepresentsStores(hash, edges, c, st, v);
    assert v in store.verts && Wakes(c.sites[i]);
    assert v in store.order;
    assert store.order[0] in store.verts;
    RepresentsStores(hash, edges, c, st, store.order[0]);
    hide Fixed, Represents;
  }

  /** And each worker that has vertices owns one. */
  lemma {:induction false} FirstOwned<K(!new), E(!new)>(
      alpha: real, hash: K -> nat, edges: multiset<Edge<K, E>>, c: Cluster<K, real, E, real, Option<real>>,
      st: State<K, real, real>, i: nat)
    requires Restarted(hash, edges, c, st) && i < |c.sites| && c.sites[i].store.order != []
    ensures ValidCluster(c)
    ensures var first := c.sites[i].store.order[0];
            && first in c.sites[i].store.verts && first in st.verts
            && OwnerTerm(alpha, hash, c)(first) == Fixed(alpha, c.sites[i].store.verts[first])
  {
    var first := c.sites[i].store.order[0];
    assert Wakes(c.sites[i]);
    assert first in c.sites[i].store.verts;
    assert first in st.verts && PartitionOf(hash, first, |c.sites|) == i;
    hide Fixed, Represents;
  }

  lemma RestartedValid<K(!new), E(!new)>(
      hash: K -> nat, edges: multiset<Edge<K, E>>, c: Cluster<K, real, E, real, Option<real>>,
      st: State<K, real, real>)
    requires Restarted(hash, edges, c, st)
    ensures ValidCluster(c) && Represents(hash, edges, c, st)
    ensures forall i :: 0 <= i < |c.sites| ==> Wakes(c.sites[i])
  {
    hide Owned, Sees, Wakes;
  }

  lemma {:induction false} OwnerTermsExactlyWhen<K(!new), E(!new)>(
      alpha: real, v0: real, hash: K -> nat, edges: multiset<Edge<K, E>>,
      c: Cluster<K, real, E, real, Option<real>>, st: State<K, real, real>)
    requires alpha != 1.0 && Restarted(hash, edges, c, st)
    ensures ValidCluster(c) && TermsFrom(alpha, OwnerTerm(alpha, hash, c), st.verts)
    ensures (forall v :: v in st.verts ==> OwnerTerm(alpha, hash, c)(v) == Fixed(alpha, v0)) <==> FirstsUnchanged(v0, c)
  {
    hide OwnerTerm, Fixed, Restarted, ValidCluster, FirstsUnchanged, Represents, Wakes, TermMadeOf;
    RestartedValid(hash, edges, c, st);
    var term := OwnerTerm(alpha, hash, c);
    forall v | v in st.verts
      ensures TermMadeOf(alpha, term, st.verts, v)
      ensures FirstsUnchanged(v0, c) ==> term(v) == Fixed(alpha, v0)
    {
      OwnerTermMade(alpha, v0, hash, edges, c, st, v);
    }
    if forall v :: v in st.verts ==> term(v) == Fixed(alpha, v0) {
      FirstsFromTerms(alpha, v0, hash, edges, c, st);
    }
  }

  lemma OwnerTermMade<K(!new), E(!new)>(
      alpha: real, v0: real, hash: K -> nat, edges: multiset<Edge<K, E>>,
      c: Cluster<K, real, E, real, Option<real>>, st: State<K, real, real>, v: K)
    requires ValidCluster(c) && Restarted(hash, edges, c, st) && v in st.verts
    ensures TermMadeOf(alpha, OwnerTerm(alpha, hash, c), st.verts, v)
    ensures FirstsUnchanged(v0, c) ==> OwnerTerm(alpha, hash, c)(v) == Fixed(alpha, v0)
  {
    hide OwnerTerm, Fixed, Restarted, ValidCluster, FirstsUnchanged;
    var i := OwnerTermIs(alpha, hash, edges, c, st, v);
    FirstUnchanged(v0, c, i);
  }

  lemma FirstUnchanged<K(!new), E>(v0: real, c: Cluster<K, real, E, real, Option<real>>, i: nat)
    requires i < |c.sites| && c.sites[i].store.order != [] && c.sites[i].store.order[0] in c.sites[i].store.verts
    ensures FirstsUnchanged(v0, c) ==> c.sites[i].store.verts[c.sites[i].store.order[0]] == v0
  {
  }

  lemma {:induction false} FirstsFromTerms<K(!new), E(!new)>(
      alpha: real, v0: real, hash: K -> nat, edges: multiset<Edge<K, E>>,
      c: Cluster<K, real, E, real, Option<real>>, st: State<K, real, real>)
    requires alpha != 1.0 && ValidCluster(c) && Restarted(hash, edges, c, st)
    requires forall v :: v in st.verts ==> OwnerTerm(alpha, hash, c)(v) == Fixed(alpha, v0)
    ensures FirstsUnchanged(v0, c)
  {
    hide OwnerTerm, Fixed, Restarted, ValidCluster, Represents, Wakes;
    forall i | 0 <= i < |c.sites| && c.sites[i].store.order != []
      ensures var store := c.sites[i].store;
              store.order[0] in store.verts && store.verts[store.order[0]] == v0
    {
      FirstOwned(alpha, hash, edges, c, st, i);
      FixedAgrees(alpha, c.sites[i].store.verts[c.sites[i].store.order[0]], v0);
    }
  }

  /** Two runs return, with the same values in every worker's store. */
  ghost predicate SameEnd<K, V, E, M, S>(
      x: Option<(Cluster<K, V, E, M, S>, int)>, y: Option<(Cluster<K, V, E, M, S>, int)>)
  {
    && x.Some? && y.Some? && |x.value.0.sites| == |y.value.0.sites|
    && forall i :: 0 <= i < |x.value.0.sites| ==> x.value.0.sites[i].store.verts == y.value.0.sites[i].store.verts
  }

  lemma {:induction false} SameEndExactlyWhen<K(!new), V(!new), E(!new), M(!new), S>(
      hash: K -> nat, edges: multiset<Edge<K, E>>, x: Option<(Cluster<K, V, E, M, S>, int)>,
      y: Option<(Cluster<K, V, E, M, S>, int)>, stx: State<K, V, M>, sty: State<K, V, M>)
    requires x.Some? && y.Some? && |x.value.0.sites| == |y.value.0.sites|
    requires Represents(hash, edges, x.value.0, stx) && Represents(hash, edges, y.value.0, sty)
    ensures SameEnd(x, y) <==> stx.verts == sty.verts
  {
    hide Sees, PartitionOf;
    var c, c' := x.value.0, y.value.0;
    if SameEnd(x, y) {
      forall k
        ensures k in stx.verts <==> k in sty.verts
        ensures k in stx.verts ==> stx.verts[k] == sty.verts[k]
      {
        RepresentsStores(hash, edges, c, stx, k);
        RepresentsStores(hash, edges, c', sty, k);
      }
    } else if stx.verts == sty.verts {
      var i :| 0 <= i < |c.sites| && c.sites[i].store.verts != c'.sites[i].store.verts;
      SameVertsSameStore(hash, edges, c, c', stx, sty, i);
    }
  }

  lemma SameVertsSameStore<K(!new), V(!new), E(!new), M(!new), S>(
      hash: K -> nat, edges: multiset<Edge<K, E>>, c: Cluster<K, V, E, M, S>, c': Cluster<K, V, E, M, S>,
      st: State<K, V, M>, st': State<K, V, M>, i: nat)
    requires Represents(hash, edges, c, st) && Represents(hash, edges, c', st') && st.verts == st'.verts
    requires |c.sites| == |c'.sites| && i < |c.sites|
    ensures c.sites[i].store.verts == c'.sites[i].store.verts
  {
    hide Sees, PartitionOf;
    forall k
      ensures k in c.sites[i].store.verts <==> k in c'.sites[i].store.verts
      ensures k in c.sites[i].store.verts ==> c.sites[i].store.verts[k] == c'.sites[i].store.verts[k]
    {
      RepresentsStores(hash, edges, c, st, k);
      RepresentsStores(hash, edges, c', st', k);
    }
  }

  /** What a recovered run ends with. */
  lemma {:induction false} RecoveredOutcome<K(!new), E(!new)>(
      a: Attempt<K, real, E, real, Option<real>>, alpha: real, v0: real, vertices: seq<(K, real)>,
      edges: seq<Edge<K, E>>, d: DiskState<K, real, E, real>, sites: seq<Site<K, real, E, Option<real>>>, k: nat)
    requires RankJob(a, alpha, v0, vertices, edges) && 0.0 <= alpha < 1.0
    requires ValidCluster(a.c0) && TakesOver(a, d, sites) && d.latest == Some(CheckpointMeta(k))
    ensures var b := Successor(a, d, sites);
            var rest := Continued(alpha, Fixed(alpha, v0), OwnerTerm(alpha, a.job.hash, b.c0), vertices, edges, k,
                                  a.job.max);
            && b.Outcome().Some? && b.Outcome().value.1 == rest.1
            && |b.Outcome().value.0.sites| == |a.c0.sites|
            && Represents(a.job.hash, multiset(edges), b.Outcome().value.0, rest.0)
  {
    hide *;
    var b := Successor(a, d, sites);
    RankJobIs(a, alpha, v0, vertices, edges);
    var st := JobState(alpha, Fixed(alpha, v0), vertices, edges, k);
    RecoveredRestarts(a, alpha, v0, vertices, edges, d, sites);
    RestartedValid(a.job.hash, multiset(edges), b.c0, st);
    OutcomeIs(b);
    WokenRefine(alpha, a.job.hash, a.job.max, multiset(edges), b.c0, st, k + 1);
    ContinuedIs(alpha, Fixed(alpha, v0), OwnerTerm(alpha, a.job.hash, b.c0), vertices, edges, k, a.job.max);
  }

  /** PageRank from a uniform start, recovered from checkpoint k: every vertex ends with the rank it has
      at the end of the uninterrupted job exactly when every worker with vertices finds the value `v0` in
      the first snapshot entry it lists, and the graph has an out-edge, unless nothing is damped or there
      is no vertex. With an out-edge, both runs use up their supersteps. */
  lemma {:induction false} RankRecoversExactlyWhen<K(!new), E(!new)>(
      a: Attempt<K, real, E, real, Option<real>>, alpha: real, v0: real, vertices: seq<(K, real)>,
      edges: seq<Edge<K, E>>, d: DiskState<K, real, E, real>, sites: seq<Site<K, real, E, Option<real>>>, k: nat)
    requires RankJob(a, alpha, v0, vertices, edges) && 0.0 <= alpha < 1.0
    requires ValidCluster(a.c0) && TakesOver(a, d, sites)
    requires d.latest == Some(CheckpointMeta(k)) && 1 <= k < a.job.max
    ensures var b, verts := Successor(a, d, sites), PutAll(map[], vertices);
            && a.Outcome().Some? && b.Outcome().Some?
            && (SameEnd(a.Outcome(), b.Outcome()) <==>
                FirstsUnchanged(v0, b.c0) && (alpha == 0.0 || Leaving(multiset(edges), verts) || verts == map[]))
            && (Leaving(multiset(edges), verts) ==> a.Outcome().value.1 == b.Outcome().value.1 == a.job.max)
  {
    hide *;
    var b, t := Successor(a, d, sites), Fixed(alpha, v0);
    RankJobIs(a, alpha, v0, vertices, edges);
    var st := JobState(alpha, t, vertices, edges, k);
    var term := OwnerTerm(alpha, a.job.hash, b.c0);
    RankJobStands(a, alpha, v0, vertices, edges, k);
    RecoveredRestarts(a, alpha, v0, vertices, edges, d, sites);
    RecoveredOutcome(a, alpha, v0, vertices, edges, d, sites, k);
    OwnerTermsExactlyWhen(alpha, v0, a.job.hash, multiset(edges), b.c0, st);
    JobKeys(alpha, t, vertices, edges, k);
    ContinuedExactlyWhen(alpha, v0, term, vertices, edges, k, a.job.max);
    SameEndExactlyWhen(a.job.hash, multiset(edges), a.Outcome(), b.Outcome(),
                       JobRun(alpha, t, vertices, edges, a.job.max).0,
                       Continued(alpha, t, term, vertices, edges, k, a.job.max).0);
  }

  lemma {:induction false} JobKeys<K(!new), E(!new)>(
      alpha: real, t: real, vertices: seq<(K, real)>, edges: seq<Edge<K, E>>, k: nat)
    ensures JobState(alpha, t, vertices, edges, k).verts.Keys == PutAll(map[], vertices).Keys
    ensures forall v :: v in JobState(alpha, t, vertices, edges, k).verts <==> v in PutAll(map[], vertices)
  {
    hide PutAll, Bulk, PageRankProgram;
    AfterKeepsKeys(PageRankProgram<K, E>(alpha, t), multiset(edges), PutAll(map[], vertices), k);
    var st := JobState(alpha, t, vertices, edges, k);
    assert forall v :: v in st.verts.Keys <==> v in PutAll(map[], vertices).Keys;
  }

  // ---------------------------------------------------------------------------------------
  // Undamped jobs, and jobs that had used up their supersteps.

  lemma UndampedLaunched<K(!new), E(!new)>(
      job: Job<K, real, E, real, Option<real>>, vertices: seq<(K, real)>, edges: seq<Edge<K, E>>,
      c: Cluster<K, real, E, real, Option<real>>)
    requires job.alg == PageRankAlg<K, E>(1.0) && RankLaunched(1.0, job.hash, vertices, edges, c)
    ensures Launched(job, PageRankProgram<K, E>(1.0, 0.0), NoTeleportTyping<K>(), vertices, edges, c)
    ensures NothingHidden(job.alg, NoTeleportTyping<K>())
  {
    UndampedAdmissible<K, E>();
    hide Admissible, Loading.FreshlyLoaded;
  }

  lemma UndampedEnds<K(!new)>(verts: map<K, real>, end: map<K, real>)
    requires end.Keys == verts.Keys && forall v :: v in end ==> end[v] == Everywhere<K>(0.0)(v)
    ensures end == verts <==> forall v :: v in verts ==> verts[v] == 0.0
  {
  }

  lemma {:induction false} UndampedContinuedExactlyWhen<K(!new), E(!new)>(
      vertices: seq<(K, real)>, edges: seq<Edge<K, E>>, k: nat, max: nat)
    requires 1 <= k < max
    ensures var p, verts := PageRankProgram<K, E>(1.0, 0.0), PutAll(map[], vertices);
            var rest := RunFrom(Bulk(p, multiset(edges)), JobState(1.0, 0.0, vertices, edges, k), k + 1, max);
            rest.0.verts == JobRun(1.0, 0.0, vertices, edges, max).0.verts
            <==> Leaving(multiset(edges), verts) || forall v :: v in verts ==> verts[v] == 0.0
  {
    hide *;
    var p, verts := PageRankProgram<K, E>(1.0, 0.0), PutAll(map[], vertices);
    var us := ListingOf(verts);
    PageRankProgramRanks<K, E>(1.0, 0.0);
    ContinuesWithRanks(p, 1.0, 0.0, Everywhere(0.0), vertices, edges, us, k, max);
    if Leaving(multiset(edges), verts) {
      JobGoesOn(1.0, 0.0, vertices, edges, us, k, max);
    } else {
      JobStopsAtOnce(1.0, 0.0, vertices, edges, max);
      UndampedEnds(verts,
                   RunFrom(Bulk(p, multiset(edges)), JobState(1.0, 0.0, vertices, edges, k), k + 1, max).0.verts);
    }
  }

  /** With alpha == 1 nothing teleports. From any starting values, a recovered run ends with the ranks of
      the job exactly when the graph has an out-edge, or all starting values are 0. */
  lemma {:induction false} UndampedRecoversExactlyWhen<K(!new), E(!new)>(
      a: Attempt<K, real, E, real, Option<real>>, vertices: seq<(K, real)>, edges: seq<Edge<K, E>>,
      d: DiskState<K, real, E, real>, sites: seq<Site<K, real, E, Option<real>>>, k: nat)
    requires a.job.alg == PageRankAlg<K, E>(1.0) && RankLaunched(1.0, a.job.hash, vertices, edges, a.c0)
    requires ValidCluster(a.c0) && a.First() == 1 && TakesOver(a, d, sites)
    requires d.latest == Some(CheckpointMeta(k)) && 1 <= k < a.job.max
    ensures var b, verts := Successor(a, d, sites), PutAll(map[], vertices);
            && a.Outcome().Some? && b.Outcome().Some?
            && (SameEnd(a.Outcome(), b.Outcome()) <==>
                Leaving(multiset(edges), verts) || forall v :: v in verts ==> verts[v] == 0.0)
  {
    hide *;
    var p, ty, b := PageRankProgram<K, E>(1.0, 0.0), NoTeleportTyping<K>(), Successor(a, d, sites);
    UndampedLaunched(a.job, vertices, edges, a.c0);
    LaunchedStands(a.job, p, ty, vertices, edges, a.c0);
    EndToEnd.LaunchedExecutes(a.job, p, ty, vertices, edges, a.c0);
    RecoveryGoesOn(a, p, ty, vertices, edges, 0, d, sites);
    OutcomeIs(a);
    JobRunIs(1.0, 0.0, vertices, edges, k, a.job.max);
    UndampedContinuedExactlyWhen(vertices, edges, k, a.job.max);
    SameEndExactlyWhen(a.job.hash, multiset(edges), a.Outcome(), b.Outcome(),
                       JobRun(1.0, 0.0, vertices, edges, a.job.max).0,
                       RunFrom(Bulk(p, multiset(edges)), JobState(1.0, 0.0, vertices, edges, k), k + 1, a.job.max).0);
  }

  lemma {:induction false} JobRunIs<K(!new), E(!new)>(
      alpha: real, t: real, vertices: seq<(K, real)>, edges: seq<Edge<K, E>>, k: nat, max: nat)
    ensures JobRun(alpha, t, vertices, edges, max)
         == Run(Bulk(PageRankProgram<K, E>(alpha, t), multiset(edges)), Start(PutAll(map[], vertices)), max)
    ensures JobState(alpha, t, vertices, edges, k)
         == StateAfter(PageRankProgram<K, E>(alpha, t), vertices, edges, k)
  {
    hide PageRankProgram, Bulk, RunFrom, PutAll;
  }

  /** A checkpoint taken after the last superstep that was executed holds what the job ends with, and a
      recovery from it that may execute no more returns that. */
  lemma {:induction false} LastCheckpointRecovers<K(!new), E(!new)>(
      a: Attempt<K, real, E, real, Option<real>>, alpha: real, v0: real, vertices: seq<(K, real)>,
      edges: seq<Edge<K, E>>, d: DiskState<K, real, E, real>, sites: seq<Site<K, real, E, Option<real>>>)
    requires RankJob(a, alpha, v0, vertices, edges) && ValidCluster(a.c0) && TakesOver(a, d, sites)
    requires d.latest == Some(CheckpointMeta(a.job.max)) && GetsTo(a, a.job.max)
    ensures SameEnd(a.Outcome(), Successor(a, d, sites).Outcome())
  {
    hide *;
    var b, t := Successor(a, d, sites), Fixed(alpha, v0);
    var k := a.job.max;
    RankJobStands(a, alpha, v0, vertices, edges, k);
    SuccessorRepresents(a, multiset(edges), JobState(alpha, t, vertices, edges, k), d, sites);
    OutcomeIs(b);
    LoopStep(b.job, b.c0, b.First());
    GetsToEnd(a);
    JobAtEnd(alpha, t, vertices, edges, k);
    SameEndExactlyWhen(a.job.hash, multiset(edges), a.Outcome(), b.Outcome(),
                       JobRun(alpha, t, vertices, edges, k).0, JobState(alpha, t, vertices, edges, k));
  }

  lemma GetsToEnd<K, V, E, M, S>(a: Attempt<K, V, E, M, S>)
    requires ValidCluster(a.c0) && GetsTo(a, a.job.max) && a.Outcome().Some?
    ensures a.Outcome().value.1 >= a.job.max
  {
  }

  lemma {:induction false} JobAtEnd<K(!new), E(!new)>(
      alpha: real, t: real, vertices: seq<(K, real)>, edges: seq<Edge<K, E>>, max: nat)
    requires JobRun(alpha, t, vertices, edges, max).1 >= max
    ensures JobRun(alpha, t, vertices, edges, max).0 == JobState(alpha, t, vertices, edges, max)
  {
    hide PageRankProgram, Bulk;
    RunStops(Bulk(PageRankProgram<K, E>(alpha, t), multiset(edges)), Start<K, real, real>(PutAll(map[], vertices)),
             max);
  }

  // ---------------------------------------------------------------------------------------
  // Jobs whose recovery goes wrong.

  /** The run returns after superstep `executed` with `x` at `v`. */
  ghost predicate EndsWith<K(!new), E>(a: Attempt<K, real, E, real, Option<real>>, v: K, x: real, executed: int) {
    && ValidCluster(a.c0) && a.Outcome().Some? && a.Outcome().value.1 == executed
    && EndToEnd.ValueOf(a.job.hash, a.Outcome().value.0, v) == Some(x)
  }

  lemma EndsWithValue<K(!new), E(!new)>(
      a: Attempt<K, real, E, real, Option<real>>, edges: multiset<Edge<K, E>>, st: State<K, real, real>, v: K, n: int)
    requires ValidCluster(a.c0) && a.Outcome().Some? && a.Outcome().value.1 == n
    requires Represents(a.job.hash, edges, a.Outcome().value.0, st) && v in st.verts.Keys
    ensures EndsWith(a, v, st.verts[v], n)
  {
    hide Represents, EndToEnd.ValueOf, ExecuteFrom;
    EndToEnd.HeldValue(a.job.hash, edges, a.Outcome().value.0, st, v);
  }

  lemma {:induction false} OutlivesFrom<K(!new), E(!new)>(
      a: Attempt<K, real, E, real, Option<real>>, alpha: real, v0: real, vertices: seq<(K, real)>,
      edges: seq<Edge<K, E>>, d: DiskState<K, real, E, real>, sites: seq<Site<K, real, E, Option<real>>>, v: K)
    requires RankJob(a, alpha, v0, vertices, edges) && 0.0 <= alpha < 1.0 && a.job.max >= 2
    requires !Leaving(multiset(edges), PutAll(map[], vertices)) && v in PutAll(map[], vertices).Keys
    requires ValidCluster(a.c0) && TakesOver(a, d, sites) && d.latest == Some(CheckpointMeta(1))
    ensures EndsWith(a, v, v0, 1) && EndsWith(Successor(a, d, sites), v, Fixed(alpha, v0), 2)
  {
    hide *;
    var b, t, max := Successor(a, d, sites), Fixed(alpha, v0), a.job.max;
    var st := JobState(alpha, t, vertices, edges, 1);
    var us := ListingOf(PutAll(map[], vertices));
    var term := OwnerTerm(alpha, a.job.hash, b.c0);
    RankJobIs(a, alpha, v0, vertices, edges);
    RankJobStands(a, alpha, v0, vertices, edges, 1);
    JobStopsAtOnce(alpha, t, vertices, edges, max);
    EndsWithValue(a, multiset(edges), JobRun(alpha, t, vertices, edges, max).0, v, 1);
    UniformValue(PutAll(map[], vertices), v0, v);
    RecoveredOutcome(a, alpha, v0, vertices, edges, d, sites, 1);
    TermProgramRanks<K, E>(alpha, term);
    ContinuesWithRanks(TermProgram<K, E>(alpha, term), alpha, t, term, vertices, edges, us, 1, max);
    ContinuedIs(alpha, t, term, vertices, edges, 1, max);
    RecoveredRestarts(a, alpha, v0, vertices, edges, d, sites);
    var i := OwnerTermIs(alpha, a.job.hash, multiset(edges), b.c0, st, v);
    RanksPositive(alpha, v0, vertices, edges, 1, b.c0.sites[i].store.order[0]);
    EndsWithValue(b, multiset(edges), Continued(alpha, t, term, vertices, edges, 1, max).0, v, 2);
  }

  lemma UniformValue<K>(verts: map<K, real>, v0: real, v: K)
    requires Uniform(verts, v0) && v in verts.Keys
    ensures verts[v] == v0
  {
  }

  /** A job without out-edges that crashes after its one superstep: the job ends with the values it
      started with, and the recovered run computes a second superstep, which damps them. */
  lemma {:induction false} RecoveryOutlivesJob<K(!new), E(!new)>(
      a: Attempt<K, real, E, real, Option<real>>, alpha: real, v0: real, vertices: seq<(K, real)>,
      edges: seq<Edge<K, E>>, hs: seq<DiskState<K, real, E, real>>, sites: seq<Site<K, real, E, Option<real>>>, v: K)
    requires RankJob(a, alpha, v0, vertices, edges) && 0.0 <= alpha < 1.0 && a.job.max >= 2
    requires !Leaving(multiset(edges), PutAll(map[], vertices)) && v in PutAll(map[], vertices)
    requires ValidCluster(a.c0) && a.disk.latest == None && a.spec.DueAt(1)
    requires |sites| == |a.c0.sites| && FreshFunctions(a.job.alg, sites)
    requires AllLeftBehind(a, hs) && Scheduler.AllStages(a, hs, 1)
    ensures exists j :: 0 <= j < |hs| && TakesOver(a, hs[j], sites) && hs[j].latest == Some(CheckpointMeta(1))
                        && EndsWith(a, v, v0, 1)
                        && EndsWith(Successor(a, hs[j], sites), v, Fixed(alpha, v0), 2)
  {
    hide LeftBehind, AllLeftBehind, Fixed, Represents, RankJob, Survives, TakesOver, Continued, JobRun, JobState,
      OwnerTerm, PutAll, Leaving, EndsWith, Scheduler.AllStages, Successor, Uniform, FreshFunctions, FirstStep;
    RankJobIs(a, alpha, v0, vertices, edges);
    DueCheckpointSurvives(a, hs, 1, 1, sites);
    var j :| 0 <= j < |hs| && LeftBehind(a, hs[j]) && TakesOver(a, hs[j], sites)
             && hs[j].latest == Some(CheckpointMeta(1));
    OutlivesFrom(a, alpha, v0, vertices, edges, hs[j], sites, v);
  }

  /** Two vertices of value 1 and an edge from 1 to 2, damped by 1/2, on one worker that lists 1 first;
      checkpoint 2 is due, and there is a superstep after it. */
  ghost predicate OnPair(a: Attempt<int, real, (), real, Option<real>>) {
    && RankJob(a, 0.5, 1.0, [(1, 1.0), (2, 1.0)], [Edge(1, 2, ())])
    && |a.c0.sites| == 1 && a.c0.sites[0].store.order != [] && a.c0.sites[0].store.order[0] == 1
    && a.disk.latest == None && a.spec.DueAt(2) && a.job.max >= 3
  }

  lemma OnPairIs(a: Attempt<int, real, (), real, Option<real>>)
    requires OnPair(a)
    ensures RankJob(a, 0.5, 1.0, [(1, 1.0), (2, 1.0)], [Edge(1, 2, ())])
    ensures |a.c0.sites| == 1 && a.c0.sites[0].store.order != [] && a.c0.sites[0].store.order[0] == 1
    ensures a.disk.latest == None && a.spec.DueAt(2) && a.job.max >= 3
  {
    hide RankJob;
  }

  lemma {:induction false} PairValues(vertices: seq<(int, real)>)
    requires vertices == [(1, 1.0), (2, 1.0)]
    ensures PutAll(map[], vertices) == map[1 := 1.0, 2 := 1.0]
  {
    assert vertices[..1] == [(1, 1.0)] && vertices[..1][..0] == [];
    assert PutAll(map[], vertices[..1]) == map[1 := 1.0];
  }

  /** There is such a job, on an empty disk, and it begins with freshly loaded workers. */
  lemma {:induction false} PairJobExists(hash: int -> nat, max: nat, spec: CheckpointSpec)
    returns (a: Attempt<int, real, (), real, Option<real>>)
    requires max >= 3 && spec.DueAt(2)
    ensures OnPair(a) && a.job.hash == hash && a.job.max == max && a.spec == spec
    ensures a.disk == DiskState(map[], map[], map[], None)
    ensures SameWorkers(a.spec, a.disk, |a.c0.sites|) && a.c0 == Beginning(a.spec, a.disk, a.c0.sites)
  {
    var vertices, edges := [(1, 1.0), (2, 1.0)], [Edge(1, 2, ())];
    PairValues(vertices);
    assert forall k: int :: PartitionOf(hash, k, 1) == 0;
    var c := ClusterExists(0.5, hash, 1, vertices, edges, 1);
    var home := OwnerOf(0.5, hash, vertices, edges, c, 1);
    hide Loading.StoreHolds, Loading.Share;
    assert c.inboxes == EmptyInboxes<int, real>(1);
    a := Attempt(Job(PageRankAlg<int, ()>(0.5), hash, max), spec, DiskState(map[], map[], map[], None), c);
  }

  /** A vertex that no edge leads to has the rank of its term. */
  lemma {:induction false} SourceRank<K(!new), E(!new)>(
      alpha: real, term: K -> real, edges: multiset<Edge<K, E>>, us: seq<K>, x: map<K, real>, m: nat, v: K)
    requires m >= 1 && Lists(us, x.Keys) && v in x.Keys && forall e :: e in edges ==> e.dst != v
    ensures Ranks(alpha, term, edges, us, x, m)[v] == term(v)
  {
    hide PageRankMass.Inflow, Rank;
    RanksNext(alpha, term, edges, us, x, m - 1);
    var y := Ranks(alpha, term, edges, us, x, m - 1);
    NothingFlowsTo(edges, us, y, v);
    NothingAdded(alpha, term(v));
  }

  lemma {:induction false} NothingFlowsTo<K(!new), E(!new)>(
      edges: multiset<Edge<K, E>>, us: seq<K>, x: map<K, real>, v: K)
    requires (forall u :: u in us ==> u in x) && forall e :: e in edges ==> e.dst != v
    ensures Inflow(edges, us, x, v) == 0.0
  {
    if us != [] {
      var u := us[|us| - 1];
      NothingFlowsTo(edges, us[..|us| - 1], x, v);
      forall i | 0 <= i < |Targets(edges, u)|
        ensures Targets(edges, u)[i].0 != v
      {
        OutEdgeOf(edges, u, Targets(edges, u)[i]);
      }
      NoLinkTo(Targets(edges, u), v);
    }
  }

  lemma {:induction false} NoLinkTo<K, E>(es: seq<(K, E)>, v: K)
    requires forall i :: 0 <= i < |es| ==> es[i].0 != v
    ensures Links(es, v) == 0
  {
    if es != [] {
      NoLinkTo(es[..|es| - 1], v);
    }
  }

  /** At vertex 1, which no edge leads to, every rank of the job after superstep 1 is 1/2. */
  lemma {:induction false} PairRanks(vertices: seq<(int, real)>, edges: seq<Edge<int, ()>>, us: seq<int>, max: nat)
    requires vertices == [(1, 1.0), (2, 1.0)] && edges == [Edge(1, 2, ())] && max >= 3
    requires Lists(us, PutAll(map[], vertices).Keys)
    ensures var t := Fixed(0.5, 1.0);
            && 1 in JobState(0.5, t, vertices, edges, 2).verts.Keys
            && JobState(0.5, t, vertices, edges, 2).verts[1] == 0.5
            && JobRun(0.5, t, vertices, edges, max).1 == max
            && 1 in JobRun(0.5, t, vertices, edges, max).0.verts.Keys
            && JobRun(0.5, t, vertices, edges, max).0.verts[1] == 0.5
    ensures Leaving(multiset(edges), PutAll(map[], vertices))
    ensures forall e :: e in multiset(edges) ==> e.dst != 1
  {
    var all, t := multiset(edges), Fixed(0.5, 1.0);
    PairValues(vertices);
    assert edges[0] in all && edges[0].src in PutAll(map[], vertices);
    assert t == 0.5;
    EverywhereIs<int>(t);
    hide JobState, JobRun, PutAll, Fixed, Ranks, Lists;
    JobKeys(0.5, t, vertices, edges, 2);
    JobKeys(0.5, t, vertices, edges, 1);
    JobGoesOn(0.5, t, vertices, edges, us, 2, max);
    SourceRank(0.5, Everywhere(t), all, us, JobState(0.5, t, vertices, edges, 2).verts, max - 2, 1);
    JobGoesOn(0.5, t, vertices, edges, us, 1, 2);
    JobAtEnd(0.5, t, vertices, edges, 2);
    SourceRank(0.5, Everywhere(t), all, us, JobState(0.5, t, vertices, edges, 1).verts, 1, 1);
  }

  /** The worker that takes over lists vertices in the same order. */
  lemma {:induction false} SuccessorLists<K(!new), E(!new)>(
      a: Attempt<K, real, E, real, Option<real>>, alpha: real, vertices: seq<(K, real)>, edges: seq<Edge<K, E>>,
      d: DiskState<K, real, E, real>, sites: seq<Site<K, real, E, Option<real>>>, i: nat)
    requires RankLaunched(alpha, a.job.hash, vertices, edges, a.c0) && ValidCluster(a.c0) && TakesOver(a, d, sites)
    requires i < |a.c0.sites|
    ensures Successor(a, d, sites).c0.sites[i].store.order == a.c0.sites[i].store.order
  {
    var k := d.latest.value.iteration;
    Loading.LoadedRepresents(a.job.hash, vertices, edges, a.c0);
    hide Represents, Cut, Loading.FreshlyLoaded;
    forall j: nat | j < |a.c0.sites|
      ensures ValidStore(a.c0.sites[j].store)
    {
      SiteSees(a.job.hash, multiset(edges), a.c0, Start<K, real, real>(PutAll(map[], vertices)), j);
    }
    CutKeepsShape(a.job, a.c0, a.First(), k, i);
    assert (k, i) in d.snapshots;
  }

  lemma {:induction false} PairGoesWrong(
      a: Attempt<int, real, (), real, Option<real>>, d: DiskState<int, real, (), real>,
      site: Site<int, real, (), Option<real>>)
    requires OnPair(a) && ValidCluster(a.c0) && TakesOver(a, d, [site]) && d.latest == Some(CheckpointMeta(2))
    ensures EndsWith(a, 1, 0.5, a.job.max) && EndsWith(Successor(a, d, [site]), 1, 0.25, a.job.max)
  {
    hide *;
    var vertices, edges := [(1, 1.0), (2, 1.0)], [Edge(1, 2, ())];
    var b, t, max := Successor(a, d, [site]), Fixed(0.5, 1.0), a.job.max;
    var st := JobState(0.5, t, vertices, edges, 2);
    var us := ListingOf(PutAll(map[], vertices));
    var term := OwnerTerm(0.5, a.job.hash, b.c0);
    OnPairIs(a);
    RankJobIs(a, 0.5, 1.0, vertices, edges);
    PairRanks(vertices, edges, us, max);
    RankJobStands(a, 0.5, 1.0, vertices, edges, 2);
    EndsWithValue(a, multiset(edges), JobRun(0.5, t, vertices, edges, max).0, 1, max);
    RecoveredOutcome(a, 0.5, 1.0, vertices, edges, d, [site], 2);
    TermProgramRanks<int, ()>(0.5, term);
    ContinuesWithRanks(TermProgram<int, ()>(0.5, term), 0.5, t, term, vertices, edges, us, 2, max);
    ContinuedIs(0.5, t, term, vertices, edges, 2, max);
    RecoveredRestarts(a, 0.5, 1.0, vertices, edges, d, [site]);
    var i := OwnerTermIs(0.5, a.job.hash, multiset(edges), b.c0, st, 1);
    SuccessorLists(a, 0.5, vertices, edges, d, [site], 0);
    QuarterOfOne();
    SourceRank(0.5, term, multiset(edges), us, st.verts, max - 2, 1);
    EndsWithValue(b, multiset(edges), Continued(0.5, t, term, vertices, edges, 2, max).0, 1, max);
  }

  lemma QuarterOfOne()
    ensures Fixed(0.5, 0.5) == 0.25
  {
  }

  /** Every history of that job has a disk with checkpoint 2 from which a new worker takes over. The job
      ends with vertex 1 ranked 1/2, and the recovered run with vertex 1 ranked 1/4. */
  lemma {:induction false} RankRecoveryGoesWrong(
      a: Attempt<int, real, (), real, Option<real>>, hs: seq<DiskState<int, real, (), real>>,
      site: Site<int, real, (), Option<real>>)
    requires OnPair(a) && ValidCluster(a.c0) && AllLeftBehind(a, hs) && Scheduler.AllStages(a, hs, a.job.max)
    requires FreshFunctions(a.job.alg, [site])
    ensures exists j :: 0 <= j < |hs| && TakesOver(a, hs[j], [site]) && hs[j].latest == Some(CheckpointMeta(2))
                        && EndsWith(a, 1, 0.5, a.job.max)
                        && EndsWith(Successor(a, hs[j], [site]), 1, 0.25, a.job.max)
  {
    hide *;
    OnPairIs(a);
    RankJobIs(a, 0.5, 1.0, [(1, 1.0), (2, 1.0)], [Edge(1, 2, ())]);
    DueCheckpointSurvives(a, hs, a.job.max, 2, [site]);
    var j :| 0 <= j < |hs| && LeftBehind(a, hs[j]) && TakesOver(a, hs[j], [site])
             && hs[j].latest == Some(CheckpointMeta(2));
    PairGoesWrong(a, hs[j], site);
  }
}
