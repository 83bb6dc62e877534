/** PageRank in which every vertex has a teleport term of its own.

    This is what instances of the vertex function that fixed their hidden variable at different
    values compute together. Once superstep 1 is over, the ranks of one superstep are a function of
    those of the one before, and two different assignments of terms never lead from the same ranks
    to the same ranks.
 */
module PageRankTerms {
  import opened Options
  import opened Bags
  import opened Runs
  import opened Bsp
  import opened PageRank
  import opened PageRankMass

  function TermProgram<K, E>(alpha: real, term: K -> real): Program<K, real, E, real> {
    (k: K, v: real, es: seq<(K, E)>, ms: seq<real>, it: nat) =>
      var r := PageRankCompute(alpha, Some(term(k)), Some(v), es, ms, it);
      (r.1, r.2)
  }

  function Everywhere<K>(t: real): K -> real {
    k => t
  }

  lemma EverywhereIs<K(!new)>(t: real)
    ensures forall v :: Everywhere<K>(t)(v) == t
  {
  }

  lemma ListingOf<K, V>(verts: map<K, V>) returns (us: seq<K>)
    ensures Lists(us, verts.Keys)
  {
    us := SeqOf(multiset(verts.Keys));
    BagListsSet(us, verts.Keys);
  }

  /** From superstep 2 on the program gives each vertex the rank with its own term, and splits it. */
  ghost predicate RanksBy<K(!new), E(!new)>(p: Program<K, real, E, real>, alpha: real, term: K -> real) {
    forall k, v, es, ms, it {:trigger p(k, v, es, ms, it)} :: it >= 2 ==>
      p(k, v, es, ms, it) == RankAndShares(alpha, es, ms, term(k))
  }

  function RankAndShares<K, E>(
      alpha: real, es: seq<(K, E)>, ms: seq<real>, t: real): (Option<real>, seq<(K, real)>)
  {
    var rank := Rank(alpha, SumOf(ms), Some(t));
    (Some(rank), Shares(es, rank))
  }

  lemma TermProgramRanks<K(!new), E(!new)>(alpha: real, term: K -> real)
    ensures RanksBy(TermProgram<K, E>(alpha, term), alpha, term)
  {
    hide Rank, SumOf, Shares;
    assert forall t: real, v: real :: Teleport(alpha, Some(t), v) == Some(t);
  }

  lemma PageRankProgramRanks<K(!new), E(!new)>(alpha: real, t: real)
    ensures RanksBy(PageRankProgram<K, E>(alpha, t), alpha, Everywhere<K>(t))
  {
    hide Rank, SumOf, Shares;
    assert forall v: real :: Teleport(alpha, Some(t), v) == Some(t);
  }

  // ---------------------------------------------------------------------------------------
  // Ranks as a function of ranks.

  ghost function NextRanks<K(!new), E(!new)>(
      alpha: real, term: K -> real, edges: multiset<Edge<K, E>>, us: seq<K>, x: map<K, real>): (y: map<K, real>)
    requires forall u :: u in us ==> u in x
    ensures y.Keys == x.Keys
  {
    map v | v in x :: Rank(alpha, Inflow(edges, us, x, v), Some(term(v)))
  }

  /** The ranks `m` supersteps after the ranks `x`. */
  ghost function Ranks<K(!new), E(!new)>(
      alpha: real, term: K -> real, edges: multiset<Edge<K, E>>, us: seq<K>, x: map<K, real>, m: nat)
    : (y: map<K, real>)
    requires forall u :: u in us ==> u in x
    ensures y.Keys == x.Keys
  {
    if m == 0 then x else NextRanks(alpha, term, edges, us, Ranks(alpha, term, edges, us, x, m - 1))
  }

  lemma {:induction false} RanksFromNext<K(!new), E(!new)>(
      alpha: real, term: K -> real, edges: multiset<Edge<K, E>>, us: seq<K>, x: map<K, real>, m: nat)
    requires forall u :: u in us ==> u in x
    ensures Ranks(alpha, term, edges, us, NextRanks(alpha, term, edges, us, x), m)
         == Ranks(alpha, term, edges, us, x, m + 1)
  {
    hide NextRanks;
    if m > 0 {
      RanksFromNext(alpha, term, edges, us, x, m - 1);
    }
  }

  // ---------------------------------------------------------------------------------------
  // Runs.

  /** Some vertex has an out-edge. */
  ghost predicate Leaving<K(!new), E(!new)>(edges: multiset<Edge<K, E>>, verts: map<K, real>) {
    exists e :: e in edges && e.src in verts
  }

  lemma LeavingKeys<K(!new), E(!new)>(edges: multiset<Edge<K, E>>, x: map<K, real>, y: map<K, real>)
    requires x.Keys == y.Keys
    ensures Leaving(edges, x) <==> Leaving(edges, y)
  {
    assert forall k :: k in x <==> k in y;
  }

  lemma OutEdgeOf<K(!new), E(!new)>(edges: multiset<Edge<K, E>>, k: K, out: (K, E))
    requires out in SeqOf(OutEdges(edges, k)) || Edge(k, out.0, out.1) in edges
    ensures out in SeqOf(OutEdges(edges, k)) && Edge(k, out.0, out.1) in edges
  {
    var r := OutEdges(edges, k);
    assert AreOutEdges(edges, k, r);
    assert r[out] == edges[Edge(k, out.0, out.1)];
    assert out in multiset(SeqOf(r)) <==> out in r;
  }

  lemma SharesNeedEdges<K, E>(es: seq<(K, E)>, value: real, x: (K, real))
    requires x in Shares(es, value)
    ensures es != []
  {
  }

  lemma SharesOfEdges<K, E>(es: seq<(K, E)>, value: real)
    requires es != []
    ensures Shares(es, value) != []
  {
  }

  /** Every vertex splits something over its out-edges in superstep `it`. */
  ghost predicate Splits<K(!new), E(!new)>(
      p: Program<K, real, E, real>, edges: multiset<Edge<K, E>>, st: State<K, real, real>, it: nat)
  {
    forall u :: u in st.verts ==>
      exists value: real :: Bsp.Compute(p, edges, st, it, u).1 == Shares(SeqOf(OutEdges(edges, u)), value)
  }

  /** A superstep in which vertices split values is silent exactly when no vertex has an out-edge. */
  lemma {:induction false} SilentExactlyWhen<K(!new), E(!new)>(
      p: Program<K, real, E, real>, edges: multiset<Edge<K, E>>, st: State<K, real, real>, it: nat)
    requires Splits(p, edges, st, it)
    ensures Superstep(p, edges, st, it).pool != multiset{} <==> Leaving(edges, st.verts)
  {
    hide Superstep, Shares, Bsp.Compute;
    var pool := Superstep(p, edges, st, it).pool;
    if Leaving(edges, st.verts) {
      var e :| e in edges && e.src in st.verts;
      OutEdgeOf(edges, e.src, (e.dst, e.value));
      var es := SeqOf(OutEdges(edges, e.src));
      var value :| Bsp.Compute(p, edges, st, it, e.src).1 == Shares(es, value);
      SharesOfEdges(es, value);
      InFlight(p, edges, st, it, Shares(es, value)[0]);
    }
    if x :| x in pool {
      InFlight(p, edges, st, it, x);
      var u :| u in st.verts && x in Bsp.Compute(p, edges, st, it, u).1;
      var es := SeqOf(OutEdges(edges, u));
      var value :| Bsp.Compute(p, edges, st, it, u).1 == Shares(es, value);
      SharesNeedEdges(es, value, x);
      OutEdgeOf(edges, u, es[0]);
      assert Edge(u, es[0].0, es[0].1) in edges;
    }
  }

  /** What is in flight to each vertex is what its in-neighbours split. */
  ghost predicate Flowing<K(!new), E(!new)>(edges: multiset<Edge<K, E>>, us: seq<K>, st: State<K, real, real>) {
    Lists(us, st.verts.Keys) && forall v :: MassTo(st.pool, v) == Inflow(edges, us, st.verts, v)
  }

  lemma ProgramRanks<K(!new), E(!new)>(
      p: Program<K, real, E, real>, alpha: real, term: K -> real, k: K, v: real, es: seq<(K, E)>, ms: seq<real>,
      it: nat)
    requires RanksBy(p, alpha, term) && it >= 2
    ensures p(k, v, es, ms, it) == RankAndShares(alpha, es, ms, term(k))
  {
    hide RankAndShares;
  }

  lemma FlowingLists<K(!new), E(!new)>(edges: multiset<Edge<K, E>>, us: seq<K>, st: State<K, real, real>)
    requires Flowing(edges, us, st)
    ensures Lists(us, st.verts.Keys)
  {
    hide Lists, MassTo, Inflow;
  }

  lemma ListedIn<K>(us: seq<K>, keys: set<K>)
    requires Lists(us, keys)
    ensures forall u :: u in us ==> u in keys
  {
  }

  lemma RankedVertex<K(!new), E(!new)>(
      p: Program<K, real, E, real>, alpha: real, term: K -> real, edges: multiset<Edge<K, E>>, us: seq<K>,
      st: State<K, real, real>, it: nat, u: K)
    requires RanksBy(p, alpha, term) && it >= 2 && Flowing(edges, us, st) && u in st.verts
    ensures var rank := NextRanks(alpha, term, edges, us, st.verts)[u];
            && NewVerts(p, edges, st, it)[u] == rank
            && Bsp.Compute(p, edges, st, it, u).1 == Shares(SeqOf(OutEdges(edges, u)), rank)
            && Sends(p, edges, st, it)[u] == multiset(Shares(Targets(edges, u), rank))
  {
    hide Rank, Shares, Inflow;
    assert MassTo(st.pool, u) == Inflow(edges, us, st.verts, u);
    ProgramRanks(p, alpha, term, u, st.verts[u], SeqOf(OutEdges(edges, u)), SeqOf(MessagesTo(st.pool, u)), it);
  }

  /** A superstep makes ranks of ranks, and is silent only if no vertex has an out-edge. */
  lemma {:induction false} RankStep<K(!new), E(!new)>(
      p: Program<K, real, E, real>, alpha: real, term: K -> real, edges: multiset<Edge<K, E>>, us: seq<K>,
      st: State<K, real, real>, it: nat)
    requires RanksBy(p, alpha, term) && it >= 2 && Flowing(edges, us, st)
    ensures var next := Superstep(p, edges, st, it);
            && next.verts == NextRanks(alpha, term, edges, us, st.verts) && Flowing(edges, us, next)
            && (next.pool != multiset{} <==> Leaving(edges, st.verts))
  {
    hide RanksBy, MassTo, Inflow, Bsp.Compute, Targets, Shares, NextRanks, Leaving, CollectAll;
    var next := Superstep(p, edges, st, it);
    var sends, ranks := Sends(p, edges, st, it), NextRanks(alpha, term, edges, us, st.verts);
    forall u | u in st.verts
      ensures NewVerts(p, edges, st, it)[u] == ranks[u]
      ensures sends[u] == multiset(Shares(Targets(edges, u), ranks[u]))
      ensures exists value: real :: Bsp.Compute(p, edges, st, it, u).1 == Shares(SeqOf(OutEdges(edges, u)), value)
    {
      RankedVertex(p, alpha, term, edges, us, st, it, u);
    }
    assert next.verts == ranks;
    SilentExactlyWhen(p, edges, st, it);
    forall v
      ensures MassTo(next.pool, v) == Inflow(edges, us, ranks, v)
    {
      SplitsFlow(edges, us, ranks, sends, v);
    }
  }

  lemma {:induction false} SplitsFlow<K(!new), E(!new)>(
      edges: multiset<Edge<K, E>>, us: seq<K>, x: map<K, real>, sends: map<K, multiset<(K, real)>>, v: K)
    requires Lists(us, x.Keys) && sends.Keys == x.Keys
    requires forall u :: u in x ==> sends[u] == multiset(Shares(Targets(edges, u), x[u]))
    ensures MassTo(CollectAll(sends), v) == Inflow(edges, us, x, v)
  {
    hide MassTo, Inflow, Targets, Shares;
    CollectListing(us, sends);
    MassOfSends(edges, us, x, sends, v);
  }

  /** When some vertex has an out-edge the loop never falls silent. */
  lemma {:induction false} RunRanks<K(!new), E(!new)>(
      p: Program<K, real, E, real>, alpha: real, term: K -> real, edges: multiset<Edge<K, E>>, us: seq<K>,
      st: State<K, real, real>, it: nat, max: nat)
    requires RanksBy(p, alpha, term) && 2 <= it <= max + 1 && Flowing(edges, us, st) && Leaving(edges, st.verts)
    ensures var (end, executed) := RunFrom(Bulk(p, edges), st, it, max);
            executed == max && end.verts == Ranks(alpha, term, edges, us, st.verts, max + 1 - it)
    decreases max + 1 - it
  {
    hide RanksBy, Flowing, Superstep, NextRanks, Bulk, RunFrom, Leaving;
    ListedIn(us, st.verts.Keys) by {
      FlowingLists(edges, us, st);
    }
    RunNext(p, edges, st, it, max);
    if it <= max {
      RankStep(p, alpha, term, edges, us, st, it);
      var next := Superstep(p, edges, st, it);
      LeavingKeys(edges, st.verts, next.verts);
      RunRanks(p, alpha, term, edges, us, next, it + 1, max);
      RanksFromNext(alpha, term, edges, us, st.verts, max - it);
    }
  }

  /** When none has, the next superstep is the last one. */
  lemma {:induction false} RunStopsAtOnce<K(!new), E(!new)>(
      p: Program<K, real, E, real>, alpha: real, term: K -> real, edges: multiset<Edge<K, E>>, us: seq<K>,
      st: State<K, real, real>, it: nat, max: nat)
    requires RanksBy(p, alpha, term) && 2 <= it <= max && Flowing(edges, us, st) && !Leaving(edges, st.verts)
    ensures var (end, executed) := RunFrom(Bulk(p, edges), st, it, max);
            executed == it && end.verts == NextRanks(alpha, term, edges, us, st.verts)
    ensures forall v :: Inflow(edges, us, st.verts, v) == 0.0
  {
    hide RanksBy, MassTo, Inflow, Superstep, NextRanks, Bulk;
    RunNext(p, edges, st, it, max);
    RankStep(p, alpha, term, edges, us, st, it);
    forall v
      ensures Inflow(edges, us, st.verts, v) == 0.0
    {
      NothingFlows(edges, us, st.verts, v);
    }
  }

  lemma {:induction false} NothingFlows<K(!new), E(!new)>(
      edges: multiset<Edge<K, E>>, us: seq<K>, x: map<K, real>, v: K)
    requires !Leaving(edges, x) && forall u :: u in us ==> u in x
    ensures Inflow(edges, us, x, v) == 0.0
  {
    if us != [] {
      var u := us[|us| - 1];
      NothingFlows(edges, us[..|us| - 1], x, v);
      if Targets(edges, u) != [] {
        var out := Targets(edges, u)[0];
        OutEdgeOf(edges, u, out);
        assert false;
      }
    }
  }

  // ---------------------------------------------------------------------------------------
  // Different terms lead to different ranks.

  ghost function Minus<K>(x: map<K, real>, y: map<K, real>): (d: map<K, real>)
    requires x.Keys == y.Keys
    ensures d.Keys == x.Keys
  {
    map u | u in x :: x[u] - y[u]
  }

  ghost function Zero<K>(x: map<K, real>): (z: map<K, real>)
    ensures z.Keys == x.Keys
  {
    map u | u in x :: 0.0
  }

  lemma FlowOfDifference(links: nat, n: nat, a: real, b: real)
    ensures Flow(links, n, a - b) == Flow(links, n, a) - Flow(links, n, b)
  {
    var l := links as real;
    if n > 0 {
      var m := n as real;
      assert (a - b) / m == a / m - b / m;
      assert l * (a / m - b / m) == l * (a / m) - l * (b / m);
    }
  }

  lemma {:induction false} InflowOfDifference<K(!new), E(!new)>(
      edges: multiset<Edge<K, E>>, us: seq<K>, x: map<K, real>, y: map<K, real>, v: K)
    requires x.Keys == y.Keys && forall u :: u in us ==> u in x
    ensures Inflow(edges, us, Minus(x, y), v) == Inflow(edges, us, x, v) - Inflow(edges, us, y, v)
  {
    hide Targets, Links, Flow;
    if us != [] {
      var u := us[|us| - 1];
      InflowOfDifference(edges, us[..|us| - 1], x, y, v);
      FlowOfDifference(Links(Targets(edges, u), v), |Targets(edges, u)|, x[u], y[u]);
    }
  }

  function TermMinus<K>(a: K -> real, b: K -> real): K -> real {
    k => a(k) - b(k)
  }

  lemma RankOfDifference(alpha: real, a: real, b: real, t: real, s: real)
    ensures Rank(alpha, a - b, Some(t - s)) == Rank(alpha, a, Some(t)) - Rank(alpha, b, Some(s))
  {
  }

  /** The error of one assignment of terms against another is itself a run, from zero. */
  lemma {:induction false} RanksOfDifference<K(!new), E(!new)>(
      alpha: real, a: K -> real, b: K -> real, edges: multiset<Edge<K, E>>, us: seq<K>, x: map<K, real>, m: nat)
    requires forall u :: u in us ==> u in x
    ensures Minus(Ranks(alpha, a, edges, us, x, m), Ranks(alpha, b, edges, us, x, m))
         == Ranks(alpha, TermMinus(a, b), edges, us, Zero(x), m)
  {
    hide Ranks, NextRanks;
    RanksNext(alpha, a, edges, us, x, 0);
    RanksNext(alpha, b, edges, us, x, 0);
    RanksNext(alpha, TermMinus(a, b), edges, us, Zero(x), 0);
    if m == 0 {
      assert Minus(x, x) == Zero(x);
    } else {
      hide Zero, TermMinus, Minus;
      RanksOfDifference(alpha, a, b, edges, us, x, m - 1);
      var ya, yb := Ranks(alpha, a, edges, us, x, m - 1), Ranks(alpha, b, edges, us, x, m - 1);
      NextOfDifference(alpha, a, b, edges, us, ya, yb);
      RanksNext(alpha, a, edges, us, x, m - 1);
      RanksNext(alpha, b, edges, us, x, m - 1);
      RanksNext(alpha, TermMinus(a, b), edges, us, Zero(x), m - 1);
    }
  }

  lemma RanksNext<K(!new), E(!new)>(
      alpha: real, term: K -> real, edges: multiset<Edge<K, E>>, us: seq<K>, x: map<K, real>, m: nat)
    requires forall u :: u in us ==> u in x
    ensures Ranks(alpha, term, edges, us, x, m + 1)
         == NextRanks(alpha, term, edges, us, Ranks(alpha, term, edges, us, x, m))
    ensures Ranks(alpha, term, edges, us, x, 0) == x
  {
    hide NextRanks;
  }

  lemma NextOfDifference<K(!new), E(!new)>(
      alpha: real, a: K -> real, b: K -> real, edges: multiset<Edge<K, E>>, us: seq<K>, x: map<K, real>,
      y: map<K, real>)
    requires x.Keys == y.Keys && forall u :: u in us ==> u in x
    ensures Minus(NextRanks(alpha, a, edges, us, x), NextRanks(alpha, b, edges, us, y))
         == NextRanks(alpha, TermMinus(a, b), edges, us, Minus(x, y))
  {
    hide Inflow, Rank;
    forall v | v in x
      ensures Rank(alpha, Inflow(edges, us, Minus(x, y), v), Some(TermMinus(a, b)(v)))
           == Rank(alpha, Inflow(edges, us, x, v), Some(a(v))) - Rank(alpha, Inflow(edges, us, y, v), Some(b(v)))
    {
      InflowOfDifference(edges, us, x, y, v);
      RankOfDifference(alpha, Inflow(edges, us, x, v), Inflow(edges, us, y, v), a(v), b(v));
    }
  }

  /** Successive ranks come closer geometrically. */
  lemma {:induction false} RanksContract<K(!new), E(!new)>(
      alpha: real, term: K -> real, edges: multiset<Edge<K, E>>, us: seq<K>, x: map<K, real>, m: nat)
    requires alpha >= 0.0 && Lists(us, x.Keys)
    ensures Distance(us, Ranks(alpha, term, edges, us, x, m + 1), Ranks(alpha, term, edges, us, x, m))
         <= Power(alpha, m) * Distance(us, Ranks(alpha, term, edges, us, x, 1), x)
  {
    hide Ranks, Distance, NextRanks;
    RanksNext(alpha, term, edges, us, x, 0);
    if m > 0 {
      RanksContract(alpha, term, edges, us, x, m - 1);
      var y, z := Ranks(alpha, term, edges, us, x, m - 1), Ranks(alpha, term, edges, us, x, m);
      RanksNext(alpha, term, edges, us, x, m - 1);
      RanksNext(alpha, term, edges, us, x, m);
      NextContracts(alpha, term, edges, us, y, z);
      PowerStep(alpha, m - 1, Distance(us, Ranks(alpha, term, edges, us, x, 1), x), Distance(us, z, y),
                Distance(us, NextRanks(alpha, term, edges, us, z), z));
    }
  }

  lemma NextContracts<K(!new), E(!new)>(
      alpha: real, term: K -> real, edges: multiset<Edge<K, E>>, us: seq<K>, x: map<K, real>, y: map<K, real>)
    requires alpha >= 0.0 && Lists(us, x.Keys) && y.Keys == x.Keys
    ensures Distance(us, NextRanks(alpha, term, edges, us, y), NextRanks(alpha, term, edges, us, x))
         <= alpha * Distance(us, y, x)
  {
    hide Inflow, Rank, Distance;
    var x', y' := NextRanks(alpha, term, edges, us, x), NextRanks(alpha, term, edges, us, y);
    forall v | v in x
      ensures MovesBy(alpha, edges, us, x, y, x', y', v)
    {
      RankMoves(alpha, Inflow(edges, us, y, v), Inflow(edges, us, x, v), term(v));
    }
    StepContracts(alpha, edges, us, x, y, x', y');
  }

  lemma {:induction false} PowerBelowOne(alpha: real, m: nat)
    requires 0.0 <= alpha < 1.0 && m >= 1
    ensures 0.0 <= Power(alpha, m) < 1.0
  {
    if m == 1 {
      assert Power(alpha, 1) == alpha * Power(alpha, 0) == alpha;
    } else {
      PowerBelowOne(alpha, m - 1);
      var q := Power(alpha, m - 1);
      ScaleMonotone(q, 1.0, alpha);
      assert alpha * q == q * alpha;
    }
  }

  lemma {:induction false} SumOfNotNegative<K>(us: seq<K>, x: map<K, real>, u: K)
    requires (forall k :: k in us ==> k in x && x[k] >= 0.0)
    ensures Sum(us, x) >= 0.0
    ensures u in us ==> x[u] <= Sum(us, x)
  {
    if us != [] {
      SumOfNotNegative(us[..|us| - 1], x, u);
    }
  }

  lemma ShrinksStrictly(q: real, d: real)
    requires q < 1.0 && d > 0.0
    ensures q * d < d
  {
    assert (1.0 - q) * d > 0.0;
  }

  lemma {:induction false} NoDistance<K>(us: seq<K>, x: map<K, real>, y: map<K, real>, q: real, d: real)
    requires Lists(us, x.Keys) && x.Keys == y.Keys && 0.0 <= q < 1.0
    requires Distance(us, x, y) == d <= q * d
    ensures x == y
  {
    ApartNotNegative(x, y);
    forall u | u in x
      ensures x[u] == y[u]
    {
      SumOfNotNegative(us, Apart(x, y), u);
      if d > 0.0 {
        ShrinksStrictly(q, d);
        assert false;
      }
    }
  }

  /** From the same ranks, two assignments of terms lead to the same ranks, after any number of
      supersteps, exactly when they are the same. */
  lemma {:induction false} SameRanksExactlyWhen<K(!new), E(!new)>(
      alpha: real, a: K -> real, b: K -> real, edges: multiset<Edge<K, E>>, us: seq<K>, x: map<K, real>, m: nat)
    requires 0.0 <= alpha < 1.0 && Lists(us, x.Keys) && m >= 1
    ensures Ranks(alpha, a, edges, us, x, m) == Ranks(alpha, b, edges, us, x, m)
       <==> forall v :: v in x ==> a(v) == b(v)
  {
    hide Ranks, NextRanks;
    if Ranks(alpha, a, edges, us, x, m) == Ranks(alpha, b, edges, us, x, m) {
      var d := TermMinus(a, b);
      RanksOfDifference(alpha, a, b, edges, us, x, m);
      assert Ranks(alpha, d, edges, us, Zero(x), m) == Zero(x);
      ReturnToZero(alpha, d, edges, us, x, m);
    }
    if forall v :: v in x ==> a(v) == b(v) {
      SameTermsSameRanks(alpha, a, b, edges, us, x, m);
    }
  }

  lemma {:induction false} ReturnToZero<K(!new), E(!new)>(
      alpha: real, d: K -> real, edges: multiset<Edge<K, E>>, us: seq<K>, x: map<K, real>, m: nat)
    requires 0.0 <= alpha < 1.0 && Lists(us, x.Keys) && m >= 1
    requires Ranks(alpha, d, edges, us, Zero(x), m) == Zero(x)
    ensures forall v :: v in x ==> d(v) == 0.0
  {
    hide Ranks, Distance, Inflow, Rank;
    var z := Zero(x);
    RanksContract(alpha, d, edges, us, z, m);
    RanksNext(alpha, d, edges, us, z, m);
    RanksNext(alpha, d, edges, us, z, 0);
    PowerBelowOne(alpha, m);
    var next := NextRanks(alpha, d, edges, us, z);
    var after, first := Ranks(alpha, d, edges, us, z, m + 1), Ranks(alpha, d, edges, us, z, 1);
    assert Ranks(alpha, d, edges, us, z, m) == z;
    assert after == next && first == next;
    var dist := Distance(us, first, z);
    assert Distance(us, after, z) == dist;
    assert Distance(us, after, z) <= Power(alpha, m) * dist;
    NoDistance(us, next, z, Power(alpha, m), dist);
    forall v | v in x
      ensures d(v) == 0.0
    {
      NoInflowFromZero(edges, us, z, v);
      NothingAdded(alpha, d(v));
      assert NextRanks(alpha, d, edges, us, z)[v] == z[v];
    }
  }

  lemma NothingAdded(alpha: real, t: real)
    ensures Rank(alpha, 0.0, Some(t)) == t
  {
  }

  lemma {:induction false} NoInflowFromZero<K(!new), E(!new)>(
      edges: multiset<Edge<K, E>>, us: seq<K>, x: map<K, real>, v: K)
    requires forall u :: u in us ==> u in x && x[u] == 0.0
    ensures Inflow(edges, us, x, v) == 0.0
  {
    if us != [] {
      var u := us[|us| - 1];
      NoInflowFromZero(edges, us[..|us| - 1], x, v);
      assert Flow(Links(Targets(edges, u), v), |Targets(edges, u)|, 0.0) == 0.0;
    }
  }

  lemma {:induction false} SameTermsSameRanks<K(!new), E(!new)>(
      alpha: real, a: K -> real, b: K -> real, edges: multiset<Edge<K, E>>, us: seq<K>, x: map<K, real>, m: nat)
    requires forall u :: u in us ==> u in x
    requires forall v :: v in x ==> a(v) == b(v)
    ensures Ranks(alpha, a, edges, us, x, m) == Ranks(alpha, b, edges, us, x, m)
  {
    hide Inflow, Rank;
    if m > 0 {
      SameTermsSameRanks(alpha, a, b, edges, us, x, m - 1);
    }
  }
}
