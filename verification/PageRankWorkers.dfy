/** Clusters whose workers have fixed PageRank's hidden variable, or are about to.

    Every worker has its own instance of the vertex function, so that a vertex gets the teleport
    term of the worker that owns it. Such a cluster computes the program of `PageRankTerms` with
    these terms. That covers workers with new instances, when all their values are positive: each
    fixes its term at the first vertex it lists.
 */
module PageRankWorkers {
  import opened Options
  import opened Runs
  import opened Bsp
  import opened Shuffle
  import opened WorkerCore
  import opened Rounds
  import opened Refinement
  import opened PageRank
  import opened PageRankTerms
  import Recovery
  import Scheduler

  function AnyTyping<K>(): Typing<K, real, real, Option<real>> {
    Typing((s: Option<real>, it: nat) => true, (k: K, v: real, it: nat) => true, (m: real) => true)
  }

  /** The vertex function that takes its term from the vertex. */
  function TermAlg<K, E>(alpha: real, term: K -> real): Alg<K, real, E, real, Option<real>> {
    Alg(None, (s: Option<real>, k: K, v: real, es: seq<(K, E)>, ms: seq<real>, it: nat) =>
      var r := PageRankCompute(alpha, Some(term(k)), Some(v), es, ms, it);
      Some((s, r.1, r.2)))
  }

  lemma TermAdmissible<K(!new), E(!new)>(alpha: real, term: K -> real)
    ensures Admissible(TermAlg<K, E>(alpha, term), TermProgram<K, E>(alpha, term), AnyTyping<K>())
  {
    var p := TermProgram<K, E>(alpha, term);
    hide Shares, SumOf, Rank, Teleport, OkMessages;
    forall k: K, v: real, es: seq<(K, E)>, es': seq<(K, E)>, ms: seq<real>, ms': seq<real>, it: nat
        {:trigger p(k, v, es, ms, it), p(k, v, es', ms', it)} |
      multiset(es) == multiset(es') && multiset(ms) == multiset(ms')
      ensures p(k, v, es, ms, it).0 == p(k, v, es', ms', it).0
      ensures multiset(p(k, v, es, ms, it).1) == multiset(p(k, v, es', ms', it).1)
    {
      SumIgnoresOrder(ms, ms');
      SharesIgnoreOrder(es, es', v);
      SharesIgnoreOrder(es, es', Rank(alpha, SumOf(ms), Teleport(alpha, Some(term(k)), v)));
    }
  }

  // ---------------------------------------------------------------------------------------
  // Fixed terms.

  /** Every worker's instance holds the term of each of its vertices. */
  ghost predicate HasTerms<K(!new), E>(term: K -> real, c: Cluster<K, real, E, real, Option<real>>) {
    && ValidCluster(c)
    && forall i, k :: 0 <= i < |c.sites| && k in c.sites[i].store.order ==> c.sites[i].algo == Some(term(k))
  }

  lemma TermComputes<K(!new), E(!new)>(
      alpha: real, term: K -> real, s: Option<real>, k: K, v: real, es: seq<(K, E)>, ms: seq<real>, it: nat)
    requires s == Some(term(k))
    ensures PageRankAlg<K, E>(alpha).compute(s, k, v, es, ms, it)
         == TermAlg<K, E>(alpha, term).compute(s, k, v, es, ms, it)
    ensures PageRankAlg<K, E>(alpha).compute(s, k, v, es, ms, it).Some?
    ensures PageRankAlg<K, E>(alpha).compute(s, k, v, es, ms, it).value.0 == s
  {
    hide Shares, SumOf, Rank;
  }

  lemma {:induction false} TermScan<K(!new), E(!new)>(
      alpha: real, term: K -> real, store: Store<K, real, E>, s: Option<real>, inbox: Inbox<K, real>, it: nat, j: nat)
    requires j <= |store.order| && forall k :: k in store.order ==> s == Some(term(k))
    ensures var r := ScanTo(PageRankAlg<K, E>(alpha), store, s, inbox, it, j);
            && r == ScanTo(TermAlg<K, E>(alpha, term), store, s, inbox, it, j)
            && (r.Some? ==> r.value.algo == s)
  {
    if j > 0 {
      TermScan(alpha, term, store, s, inbox, it, j - 1);
      var k := store.order[j - 1];
      if k in store.verts {
        TermComputes(alpha, term, s, k, store.verts[k], Out(store, k), Waiting(inbox, k), it);
      }
      hide PageRankAlg, TermAlg, Out, Waiting;
    }
  }

  lemma TermWork<K(!new), E(!new)>(
      alpha: real, term: K -> real, c: Cluster<K, real, E, real, Option<real>>, it: nat, i: nat)
    requires HasTerms(term, c) && i < |c.sites|
    ensures var r := Work(PageRankAlg<K, E>(alpha), c, it, i);
            && r == Work(TermAlg<K, E>(alpha, term), c, it, i)
            && (r.Some? ==> r.value.algo == c.sites[i].algo && r.value.store.order == c.sites[i].store.order)
  {
    hide PageRankAlg, TermAlg, ScanTo;
    TermScan(alpha, term, c.sites[i].store, c.sites[i].algo, c.inboxes[i], it, |c.sites[i].store.order|);
  }

  /** Rounds are determined by what each worker does. */
  lemma {:induction false} SameWorkSameStream<K(!new), V, E, M, S>(
      alg: Alg<K, V, E, M, S>, c: Cluster<K, V, E, M, S>, alg': Alg<K, V, E, M, S>, c': Cluster<K, V, E, M, S>,
      it: nat, i: nat)
    requires ValidCluster(c) && ValidCluster(c') && |c'.sites| == |c.sites| && i <= |c.sites|
    requires forall j :: 0 <= j < |c.sites| ==> Work(alg, c, it, j) == Work(alg', c', it, j)
    ensures Stream(alg, c, it, i) == Stream(alg', c', it, i)
  {
    hide Work;
    if i > 0 {
      SameWorkSameStream(alg, c, alg', c', it, i - 1);
    }
  }

  lemma {:induction false} SameWorkSameRound<K(!new), V, E, M, S>(
      job: Job<K, V, E, M, S>, c: Cluster<K, V, E, M, S>, job': Job<K, V, E, M, S>, c': Cluster<K, V, E, M, S>,
      it: nat)
    requires ValidCluster(c) && ValidCluster(c') && |c'.sites| == |c.sites| && job'.hash == job.hash
    requires forall j :: 0 <= j < |c.sites| ==> Work(job.alg, c, it, j) == Work(job'.alg, c', it, j)
    ensures Round(job, c, it) == Round(job', c', it)
  {
    SameWorkSameStream(job.alg, c, job'.alg, c', it, |c.sites|);
    hide Work, Stream, Route;
    assert Succeeds(job.alg, c, it) <==> Succeeds(job'.alg, c', it);
    if Succeeds(job.alg, c, it) {
      assert NewSites(job.alg, c, it) == NewSites(job'.alg, c', it);
    }
  }

  lemma {:induction false} TermRound<K(!new), E(!new)>(
      alpha: real, term: K -> real, hash: K -> nat, max: nat, c: Cluster<K, real, E, real, Option<real>>, it: nat)
    requires HasTerms(term, c)
    ensures var r := Round(Job(PageRankAlg<K, E>(alpha), hash, max), c, it);
            && r == Round(Job(TermAlg<K, E>(alpha, term), hash, max), c, it)
            && (r.Some? ==> HasTerms(term, r.value.0))
  {
    var job, job' := Job(PageRankAlg<K, E>(alpha), hash, max), Job(TermAlg<K, E>(alpha, term), hash, max);
    hide PageRankAlg, TermAlg, Work, Stream, Route;
    forall j: nat | j < |c.sites|
      ensures var r := Work(job.alg, c, it, j);
              && r == Work(job'.alg, c, it, j)
              && (r.Some? ==> r.value.algo == c.sites[j].algo && r.value.store.order == c.sites[j].store.order)
    {
      TermWork(alpha, term, c, it, j);
    }
    SameWorkSameRound(job, c, job', c, it);
    if Round(job, c, it).Some? {
      var next := Round(job, c, it).value.0;
      assert Succeeds(job.alg, c, it) && next.sites == NewSites(job.alg, c, it);
    }
  }

  /** One pass of the driver's loop. */
  lemma {:induction false} LoopStep<K, V, E, M, S>(job: Job<K, V, E, M, S>, c: Cluster<K, V, E, M, S>, it: nat)
    requires ValidCluster(c)
    ensures it > job.max ==> ExecuteFrom(job, c, it) == Some((c, it - 1))
    ensures it <= job.max && Round(job, c, it).None? ==> ExecuteFrom(job, c, it) == None
    ensures it <= job.max && Round(job, c, it).Some? ==>
              var (next, any) := Round(job, c, it).value;
              && ValidCluster(next)
              && ExecuteFrom(job, c, it) == if any then ExecuteFrom(job, next, it + 1) else Some((next, it))
  {
    Scheduler.RoundSites(job, c, it);
    hide Round;
  }

  lemma {:induction false} TermExecutes<K(!new), E(!new)>(
      alpha: real, term: K -> real, hash: K -> nat, max: nat, c: Cluster<K, real, E, real, Option<real>>, it: nat)
    requires HasTerms(term, c)
    ensures ExecuteFrom(Job(PageRankAlg<K, E>(alpha), hash, max), c, it)
         == ExecuteFrom(Job(TermAlg<K, E>(alpha, term), hash, max), c, it)
    decreases max + 1 - it
  {
    var job, job' := Job(PageRankAlg<K, E>(alpha), hash, max), Job(TermAlg<K, E>(alpha, term), hash, max);
    hide PageRankAlg, TermAlg, Round, ExecuteFrom;
    LoopStep(job, c, it);
    LoopStep(job', c, it);
    if it <= max {
      TermRound(alpha, term, hash, max, c, it);
      if Round(job, c, it).Some? {
        TermExecutes(alpha, term, hash, max, Round(job, c, it).value.0, it + 1);
      }
    }
  }

  /** A cluster with fixed terms does what the program with these terms does. */
  lemma {:induction false} TermsRefine<K(!new), E(!new)>(
      alpha: real, term: K -> real, hash: K -> nat, max: nat, edges: multiset<Edge<K, E>>,
      c: Cluster<K, real, E, real, Option<real>>, st: State<K, real, real>, it: nat)
    requires HasTerms(term, c) && Represents(hash, edges, c, st) && it >= 1
    ensures var r := ExecuteFrom(Job(PageRankAlg<K, E>(alpha), hash, max), c, it);
            var rest := RunFrom(Bulk(TermProgram<K, E>(alpha, term), edges), st, it, max);
            && r.Some? && r.value.1 == rest.1 && |r.value.0.sites| == |c.sites|
            && Represents(hash, edges, r.value.0, rest.0)
  {
    hide Represents, PageRankAlg, TermAlg, TermProgram, ExecuteFrom, Bulk, Admissible;
    TermAdmissible<K, E>(alpha, term);
    TermExecutes(alpha, term, hash, max, c, it);
    ExecuteRefines(Job(TermAlg<K, E>(alpha, term), hash, max), TermProgram<K, E>(alpha, term), AnyTyping<K>(), edges,
                   c, st, it);
  }

  // ---------------------------------------------------------------------------------------
  // A new instance is the instance that its first vertex makes of it.

  /** A worker whose instance has its term, or will take it from the first value it lists. */
  ghost predicate Wakes<K(!new), E>(site: Site<K, real, E, Option<real>>) {
    && ValidStore(site.store)
    && (site.algo == None ==> forall k :: k in site.store.verts ==> site.store.verts[k] > 0.0)
  }

  /** The worker with the hidden variable that its first listed vertex will fix. */
  ghost function Primed<K(!new), E>(
      alpha: real, site: Site<K, real, E, Option<real>>): Site<K, real, E, Option<real>>
  {
    var store := site.store;
    if site.algo == None && store.order != [] && store.order[0] in store.verts then
      Site(store, Some(Fixed(alpha, store.verts[store.order[0]])))
    else
      site
  }

  lemma FirstFixes<K(!new), E(!new)>(
      alpha: real, k: K, v: real, es: seq<(K, E)>, ms: seq<real>, it: nat)
    requires v > 0.0
    ensures PageRankAlg<K, E>(alpha).compute(None, k, v, es, ms, it)
         == PageRankAlg<K, E>(alpha).compute(Some(Fixed(alpha, v)), k, v, es, ms, it)
  {
    hide Fixed, Rank, SumOf, Shares;
  }

  lemma {:induction false} PrimedScan<K(!new), E(!new)>(
      alpha: real, store: Store<K, real, E>, s: Option<real>, inbox: Inbox<K, real>, it: nat, j: nat)
    requires 1 <= j <= |store.order| && store.order[0] in store.verts && store.verts[store.order[0]] > 0.0
    requires s == Some(Fixed(alpha, store.verts[store.order[0]]))
    ensures ScanTo(PageRankAlg<K, E>(alpha), store, None, inbox, it, j)
         == ScanTo(PageRankAlg<K, E>(alpha), store, s, inbox, it, j)
  {
    var k := store.order[0];
    FirstFixes(alpha, k, store.verts[k], Out(store, k), Waiting(inbox, k), it);
    hide PageRankAlg, Fixed;
    if j > 1 {
      PrimedScan(alpha, store, s, inbox, it, j - 1);
    }
  }

  /** Priming the workers changes nothing in what the next superstep makes of them. */
  lemma {:induction false} PrimedProcess<K(!new), E(!new)>(
      alpha: real, site: Site<K, real, E, Option<real>>, inbox: Inbox<K, real>, it: nat)
    requires Wakes(site)
    ensures Process(PageRankAlg<K, E>(alpha), site.store, site.algo, inbox, it)
         == Process(PageRankAlg<K, E>(alpha), site.store, Primed(alpha, site).algo, inbox, it)
  {
    hide PageRankAlg, ScanTo, Fixed;
    var store := site.store;
    if site.algo == None && store.order != [] {
      assert store.order[0] in store.verts;
      PrimedScan(alpha, store, Primed(alpha, site).algo, inbox, it, |store.order|);
    }
  }

  ghost function PrimedCluster<K(!new), E>(
      alpha: real, c: Cluster<K, real, E, real, Option<real>>): (r: Cluster<K, real, E, real, Option<real>>)
    ensures |r.sites| == |c.sites| && r.inboxes == c.inboxes
    ensures forall i :: 0 <= i < |c.sites| ==> r.sites[i] == Primed(alpha, c.sites[i])
  {
    Cluster(seq(|c.sites|, i requires 0 <= i < |c.sites| => Primed(alpha, c.sites[i])), c.inboxes)
  }

  lemma {:induction false} PrimedRound<K(!new), E(!new)>(
      alpha: real, hash: K -> nat, max: nat, c: Cluster<K, real, E, real, Option<real>>, it: nat)
    requires ValidCluster(c) && forall i :: 0 <= i < |c.sites| ==> Wakes(c.sites[i])
    ensures var job := Job(PageRankAlg<K, E>(alpha), hash, max);
            Round(job, c, it) == Round(job, PrimedCluster(alpha, c), it)
  {
    var job := Job(PageRankAlg<K, E>(alpha), hash, max);
    var c' := PrimedCluster(alpha, c);
    hide PageRankAlg, Process, Primed, Wakes;
    forall j | 0 <= j < |c.sites|
      ensures Work(job.alg, c, it, j) == Work(job.alg, c', it, j)
    {
      PrimedProcess(alpha, c.sites[j], c.inboxes[j], it);
      PrimedStore(alpha, c.sites[j]);
    }
    SameWorkSameRound(job, c, job, c', it);
  }

  lemma PrimedStore<K(!new), E>(alpha: real, site: Site<K, real, E, Option<real>>)
    ensures Primed(alpha, site).store == site.store
  {
  }

  /** The term that a vertex will get: its worker's, or the one taken from the first value listed. */
  ghost function OwnerTerm<K(!new), E>(
      alpha: real, hash: K -> nat, c: Cluster<K, real, E, real, Option<real>>): K -> real
    requires ValidCluster(c)
  {
    k =>
      var s := Primed(alpha, c.sites[PartitionOf(hash, k, |c.sites|)]).algo;
      if s.Some? then s.value else 0.0
  }

  lemma {:induction false} PrimedHasTerms<K(!new), E(!new)>(
      alpha: real, hash: K -> nat, edges: multiset<Edge<K, E>>, c: Cluster<K, real, E, real, Option<real>>,
      st: State<K, real, real>)
    requires Represents(hash, edges, c, st) && forall i :: 0 <= i < |c.sites| ==> Wakes(c.sites[i])
    ensures HasTerms(OwnerTerm(alpha, hash, c), PrimedCluster(alpha, c))
    ensures Represents(hash, edges, PrimedCluster(alpha, c), st)
  {
    var c' := PrimedCluster(alpha, c);
    hide Fixed, Sees, PartitionOf;
    forall i, k | 0 <= i < |c'.sites| && k in c'.sites[i].store.order
      ensures c'.sites[i].algo == Some(OwnerTerm(alpha, hash, c)(k))
    {
      assert Wakes(c.sites[i]);
      assert k in c.sites[i].store.verts;
      assert c.sites[i].store.order[0] in c.sites[i].store.verts;
    }
    hide Primed, Represents;
    forall i | 0 <= i < |c.sites|
      ensures c'.sites[i].store == c.sites[i].store
    {
      PrimedStore(alpha, c.sites[i]);
    }
    Recovery.SameStores(hash, edges, c, c', st);
  }

  /** A cluster of such workers goes on with the program of their terms. */
  lemma {:induction false} WokenRefine<K(!new), E(!new)>(
      alpha: real, hash: K -> nat, max: nat, edges: multiset<Edge<K, E>>,
      c: Cluster<K, real, E, real, Option<real>>, st: State<K, real, real>, it: nat)
    requires Represents(hash, edges, c, st) && (forall i :: 0 <= i < |c.sites| ==> Wakes(c.sites[i])) && it >= 1
    ensures ValidCluster(c)
    ensures var r := ExecuteFrom(Job(PageRankAlg<K, E>(alpha), hash, max), c, it);
            var rest := RunFrom(Bulk(TermProgram<K, E>(alpha, OwnerTerm(alpha, hash, c)), edges), st, it, max);
            && r.Some? && r.value.1 == rest.1 && |r.value.0.sites| == |c.sites|
            && Represents(hash, edges, r.value.0, rest.0)
  {
    var job, c' := Job(PageRankAlg<K, E>(alpha), hash, max), PrimedCluster(alpha, c);
    PrimedHasTerms(alpha, hash, edges, c, st);
    PrimedRound(alpha, hash, max, c, it);
    hide Represents, PageRankAlg, TermProgram, Bulk, ExecuteFrom, OwnerTerm, PrimedCluster, Wakes, HasTerms, Round;
    TermsRefine(alpha, OwnerTerm(alpha, hash, c), hash, max, edges, c', st, it);
    LoopStep(job, c, it);
    LoopStep(job, c', it);
  }
}
