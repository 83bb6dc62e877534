/** What PageRank does to the total of the values: conservation, an upper and a lower bound, and
    contraction of successive value vectors.

    From superstep 1 on, each superstep maps the vector of values x to alpha * In(x) + t, where
    In(x) at a vertex adds up the shares that its in-neighbours split evenly over their out-edges.
 */
module PageRankMass {
  import opened Options
  import opened Bags
  import opened Runs
  import opened Bsp
  import opened VertexContext
  import opened PageRank

  ghost function Targets<K(!new), E(!new)>(edges: multiset<Edge<K, E>>, u: K): seq<(K, E)> {
    SeqOf(OutEdges(edges, u))
  }

  /** How many of the edges lead to `v`. */
  ghost function Links<K, E>(es: seq<(K, E)>, v: K): nat {
    if es == [] then 0 else Links(es[..|es| - 1], v) + (if es[|es| - 1].0 == v then 1 else 0)
  }

  function Portion(degree: nat, value: real): real {
    if degree > 0 then value / degree as real else 0.0
  }

  /** What `links` of a vertex's `degree` out-edges carry. */
  function Flow(links: nat, degree: nat, value: real): real {
    links as real * Portion(degree, value)
  }

  /** What `v` receives from the vertices `us` when their values are `x`. */
  ghost function Inflow<K(!new), E(!new)>(edges: multiset<Edge<K, E>>, us: seq<K>, x: map<K, real>, v: K): real
    requires forall u :: u in us ==> u in x
  {
    if us == [] then
      0.0
    else
      var u := us[|us| - 1];
      Inflow(edges, us[..|us| - 1], x, v)
      + Flow(Links(Targets(edges, u), v), |Targets(edges, u)|, x[u])
  }

  ghost function Sum<K>(us: seq<K>, x: map<K, real>): real
    requires forall u :: u in us ==> u in x
  {
    if us == [] then 0.0 else Sum(us[..|us| - 1], x) + x[us[|us| - 1]]
  }

  // ---------------------------------------------------------------------------------------
  // One superstep as a linear map.

  /** The sum of the messages of a pool that are addressed to `v`. */
  ghost function MassTo<K(!new)>(pool: multiset<(K, real)>, v: K): real {
    SumOf(SeqOf(MessagesTo(pool, v)))
  }

  lemma MassOfSum<K(!new)>(a: multiset<(K, real)>, b: multiset<(K, real)>, v: K)
    ensures MassTo(a + b, v) == MassTo(a, v) + MassTo(b, v)
  {
    var ma, mb, m := MessagesTo(a, v), MessagesTo(b, v), MessagesTo(a + b, v);
    assert AreMessagesTo(a, v, ma) && AreMessagesTo(b, v, mb) && AreMessagesTo(a + b, v, m);
    forall x: real
      ensures m[x] == (ma + mb)[x]
    {
      assert (a + b)[(v, x)] == a[(v, x)] + b[(v, x)];
    }
    assert m == ma + mb;
    SumIgnoresOrder(SeqOf(m), SeqOf(ma) + SeqOf(mb));
    SumConcat(SeqOf(ma), SeqOf(mb));
  }

  lemma MassOfNothing<K(!new)>(v: K)
    ensures MassTo<K>(multiset{}, v) == 0.0
  {
    var m := MessagesTo<K, real>(multiset{}, v);
    assert AreMessagesTo(multiset{}, v, m);
    assert forall x: real :: m[x] == 0;
    assert m == multiset{};
  }

  lemma MassOfOne<K(!new)>(target: K, x: real, v: K)
    ensures MassTo(multiset{(target, x)}, v) == if target == v then x else 0.0
  {
    var pool := multiset{(target, x)};
    var m := MessagesTo(pool, v);
    assert AreMessagesTo(pool, v, m);
    var expected := if target == v then multiset{x} else multiset{};
    forall y: real
      ensures m[y] == expected[y]
    {
      assert pool[(v, y)] == if target == v && y == x then 1 else 0;
    }
    assert m == expected;
    SumIgnoresOrder(SeqOf(m), if target == v then [x] else []);
    assert SumOf([x]) == SumOf([]) + x;
  }

  lemma {:induction false} MassOfBroadcast<K(!new), E(!new)>(es: seq<(K, E)>, x: real, v: K)
    ensures MassTo(multiset(Broadcast(es, x)), v) == Links(es, v) as real * x
  {
    hide MassTo;
    if es == [] {
      assert Broadcast(es, x) == [];
      MassOfNothing(v);
    } else {
      var front, last := es[..|es| - 1], es[|es| - 1];
      MassOfBroadcast(front, x, v);
      assert Broadcast(es, x) == Broadcast(front, x) + [(last.0, x)];
      MassOfSum(multiset(Broadcast(front, x)), multiset{(last.0, x)}, v);
      MassOfOne(last.0, x, v);
      OneMore(Links(front, v), x);
    }
  }

  lemma OneMore(n: nat, x: real)
    ensures (n + 1) as real * x == n as real * x + x
    ensures (n + 0) as real * x == n as real * x
  {
  }

  /** What the listed vertices send is what flows in. */
  lemma {:induction false} MassOfSends<K(!new), E(!new)>(
      edges: multiset<Edge<K, E>>, us: seq<K>, x: map<K, real>, sends: map<K, multiset<(K, real)>>, v: K)
    requires forall u :: u in us ==> u in x && u in sends && sends[u] == multiset(Shares(Targets(edges, u), x[u]))
    ensures MassTo(Collect(us, sends), v) == Inflow(edges, us, x, v)
  {
    hide MassTo, Targets, Flow, Shares;
    if us == [] {
      MassOfNothing(v);
    } else {
      var front, u := us[..|us| - 1], us[|us| - 1];
      MassOfSends(edges, front, x, sends, v);
      MassOfSum(Collect(front, sends), sends[u], v);
      MassOfShares(Targets(edges, u), x[u], v);
    }
  }

  lemma {:induction false} MassOfShares<K(!new), E(!new)>(es: seq<(K, E)>, value: real, v: K)
    ensures MassTo(multiset(Shares(es, value)), v) == Flow(Links(es, v), |es|, value)
  {
    hide MassTo;
    if |es| > 0 {
      MassOfBroadcast(es, Portion(|es|, value), v);
    } else {
      MassOfNothing(v);
    }
  }

  /** In every superstep a vertex splits its new value evenly over its out-edges. */
  lemma SendsShares<K(!new), E(!new)>(
      alpha: real, t: real, edges: multiset<Edge<K, E>>, st: State<K, real, real>, it: nat, u: K)
    requires u in st.verts && it >= 1
    ensures var p := PageRankProgram<K, E>(alpha, t);
            && Sends(p, edges, st, it)[u] == multiset(Shares(Targets(edges, u), NewVerts(p, edges, st, it)[u]))
            && (it == 1 ==> NewVerts(p, edges, st, it)[u] == st.verts[u])
            && (it >= 2 ==> NewVerts(p, edges, st, it)[u] == Rank(alpha, MassTo(st.pool, u), Some(t)))
  {
    hide Shares, SumOf, Rank, Teleport;
    TeleportSet(alpha, t, st.verts[u]);
  }

  lemma TeleportSet(alpha: real, t: real, v: real)
    ensures Teleport(alpha, Some(t), v) == Some(t)
  {
  }

  lemma {:induction false} PoolInflow<K(!new), E(!new)>(
      alpha: real, t: real, edges: multiset<Edge<K, E>>, st: State<K, real, real>, it: nat, us: seq<K>, v: K)
    requires it >= 1 && Lists(us, st.verts.Keys)
    ensures var next := Superstep(PageRankProgram<K, E>(alpha, t), edges, st, it);
            next.verts.Keys == st.verts.Keys && MassTo(next.pool, v) == Inflow(edges, us, next.verts, v)
  {
    hide MassTo, Inflow, Compute, Targets, Shares;
    var p := PageRankProgram<K, E>(alpha, t);
    var sends, news := Sends(p, edges, st, it), NewVerts(p, edges, st, it);
    forall u | u in us
      ensures u in news && u in sends && sends[u] == multiset(Shares(Targets(edges, u), news[u]))
    {
      SendsShares(alpha, t, edges, st, it, u);
    }
    assert sends.Keys == st.verts.Keys;
    CollectListing(us, sends);
    MassOfSends(edges, us, news, sends, v);
  }

  /** `y` is the value vector one superstep after `x`. */
  ghost predicate Steps<K(!new), E(!new)>(
      alpha: real, t: real, edges: multiset<Edge<K, E>>, us: seq<K>, x: map<K, real>, y: map<K, real>)
  {
    && Lists(us, x.Keys) && y.Keys == x.Keys
    && (forall v :: v in x ==> y[v] == Rank(alpha, Inflow(edges, us, x, v), Some(t)))
  }

  /** The values after exactly `k` supersteps. */
  ghost function Values<K(!new), E(!new)>(
      alpha: real, t: real, edges: multiset<Edge<K, E>>, verts: map<K, real>, k: nat): map<K, real>
  {
    After(Bulk(PageRankProgram<K, E>(alpha, t), edges), Start(verts), k).verts
  }

  lemma ValuesKeys<K(!new), E(!new)>(
      alpha: real, t: real, edges: multiset<Edge<K, E>>, verts: map<K, real>, k: nat)
    ensures Values(alpha, t, edges, verts, k).Keys == verts.Keys
  {
    hide Bulk, PageRankProgram;
    AfterKeepsKeys(PageRankProgram<K, E>(alpha, t), edges, verts, k);
  }

  lemma FirstKeepsValues<K(!new), E(!new)>(
      alpha: real, t: real, edges: multiset<Edge<K, E>>, verts: map<K, real>)
    ensures Values(alpha, t, edges, verts, 1) == verts
  {
    var p := PageRankProgram<K, E>(alpha, t);
    var st := Start<K, real, real>(verts);
    BulkAfter(p, edges, st, 0, 1);
    forall u | u in verts
      ensures NewVerts(p, edges, st, 1)[u] == verts[u]
    {
      SendsShares(alpha, t, edges, st, 1, u);
    }
    assert NewVerts(p, edges, st, 1) == verts;
  }

  lemma StatesStep<K(!new), E(!new)>(
      alpha: real, t: real, edges: multiset<Edge<K, E>>, before: State<K, real, real>, us: seq<K>, k: nat, k': nat)
    requires k >= 1 && k' == k + 1 && Lists(us, before.verts.Keys)
    ensures var p := PageRankProgram<K, E>(alpha, t);
            var st := Superstep(p, edges, before, k);
            Steps(alpha, t, edges, us, st.verts, Superstep(p, edges, st, k').verts)
  {
    hide MassTo, Inflow, Compute, CollectAll, Rank, Sends, Shares;
    var p := PageRankProgram<K, E>(alpha, t);
    var st := Superstep(p, edges, before, k);
    assert st.verts.Keys == before.verts.Keys;
    forall v | v in st.verts
      ensures NewVerts(p, edges, st, k')[v] == Rank(alpha, Inflow(edges, us, st.verts, v), Some(t))
    {
      PoolInflow(alpha, t, edges, before, k, us, v);
      SendsShares(alpha, t, edges, st, k', v);
    }
  }

  /** Superstep k + 1 maps the values after superstep k >= 1 linearly. */
  lemma ValuesStep<K(!new), E(!new)>(
      alpha: real, t: real, edges: multiset<Edge<K, E>>, verts: map<K, real>, us: seq<K>, k: nat, k': nat)
    requires k >= 1 && k' == k + 1 && Lists(us, verts.Keys)
    ensures Steps(alpha, t, edges, us, Values(alpha, t, edges, verts, k), Values(alpha, t, edges, verts, k'))
  {
    hide Steps, Superstep, Bulk, Lists, PageRankProgram;
    var p := PageRankProgram<K, E>(alpha, t);
    var before := After(Bulk(p, edges), Start<K, real, real>(verts), k - 1);
    BulkAfter(p, edges, Start<K, real, real>(verts), k - 1, k);
    BulkAfter(p, edges, Start<K, real, real>(verts), k, k');
    ValuesKeys(alpha, t, edges, verts, k - 1);
    StatesStep(alpha, t, edges, before, us, k, k');
  }

  // ---------------------------------------------------------------------------------------
  // Exchanging the order of summation.

  ghost function SumInflow<K(!new), E(!new)>(
      edges: multiset<Edge<K, E>>, us: seq<K>, x: map<K, real>, vs: seq<K>): real
    requires forall u :: u in us ==> u in x
  {
    if vs == [] then 0.0 else SumInflow(edges, us, x, vs[..|vs| - 1]) + Inflow(edges, us, x, vs[|vs| - 1])
  }

  /** How many of the edges lead to one of `vs`. */
  ghost function LinksInto<K, E>(es: seq<(K, E)>, vs: seq<K>): nat {
    if vs == [] then 0 else LinksInto(es, vs[..|vs| - 1]) + Links(es, vs[|vs| - 1])
  }

  ghost function SumOutflow<K(!new), E(!new)>(
      edges: multiset<Edge<K, E>>, us: seq<K>, x: map<K, real>, vs: seq<K>): real
    requires forall u :: u in us ==> u in x
  {
    if us == [] then
      0.0
    else
      var u := us[|us| - 1];
      SumOutflow(edges, us[..|us| - 1], x, vs)
      + Flow(LinksInto(Targets(edges, u), vs), |Targets(edges, u)|, x[u])
  }

  lemma FlowsAdd(a: nat, b: nat, degree: nat, value: real)
    ensures Flow(a + b, degree, value) == Flow(a, degree, value) + Flow(b, degree, value)
  {
  }

  lemma {:induction false} OutflowGrows<K(!new), E(!new)>(
      edges: multiset<Edge<K, E>>, us: seq<K>, x: map<K, real>, vs: seq<K>, v: K)
    requires forall u :: u in us ==> u in x
    ensures SumOutflow(edges, us, x, vs + [v]) == SumOutflow(edges, us, x, vs) + Inflow(edges, us, x, v)
  {
    hide Targets, Flow, Links;
    if us != [] {
      var u := us[|us| - 1];
      OutflowGrows(edges, us[..|us| - 1], x, vs, v);
      var es := Targets(edges, u);
      assert (vs + [v])[..|vs|] == vs;
      FlowsAdd(LinksInto(es, vs), Links(es, v), |es|, x[u]);
    }
  }

  lemma {:induction false} NoOutflow<K(!new), E(!new)>(edges: multiset<Edge<K, E>>, us: seq<K>, x: map<K, real>)
    requires forall u :: u in us ==> u in x
    ensures SumOutflow(edges, us, x, []) == 0.0
  {
    if us != [] {
      NoOutflow(edges, us[..|us| - 1], x);
    }
  }

  lemma {:induction false} InflowIsOutflow<K(!new), E(!new)>(
      edges: multiset<Edge<K, E>>, us: seq<K>, x: map<K, real>, vs: seq<K>)
    requires forall u :: u in us ==> u in x
    ensures SumInflow(edges, us, x, vs) == SumOutflow(edges, us, x, vs)
  {
    if vs == [] {
      NoOutflow(edges, us, x);
    } else {
      var front, v := vs[..|vs| - 1], vs[|vs| - 1];
      InflowIsOutflow(edges, us, x, front);
      assert vs == front + [v];
      OutflowGrows(edges, us, x, front, v);
    }
  }

  lemma {:induction false} LinksToOne<K, E>(e: (K, E), es: seq<(K, E)>, vs: seq<K>)
    requires Distinct(vs)
    ensures LinksInto(es + [e], vs) == LinksInto(es, vs) + (if e.0 in vs then 1 else 0)
  {
    if vs != [] {
      var front, v := vs[..|vs| - 1], vs[|vs| - 1];
      LinksToOne(e, es, front);
      assert (es + [e])[..|es|] == es;
      assert vs == front + [v];
      assert v !in front;
    }
  }

  /** Edges lead to at most one of several distinct vertices each. */
  lemma {:induction false} LinksBounded<K, E>(es: seq<(K, E)>, vs: seq<K>)
    requires Distinct(vs)
    ensures LinksInto(es, vs) <= |es|
    ensures (forall i :: 0 <= i < |es| ==> es[i].0 in vs) ==> LinksInto(es, vs) == |es|
  {
    if es == [] {
      NoLinks<K, E>(vs);
    } else {
      var front, e := es[..|es| - 1], es[|es| - 1];
      LinksBounded(front, vs);
      assert es == front + [e];
      LinksToOne(e, front, vs);
    }
  }

  lemma {:induction false} NoLinks<K, E>(vs: seq<K>)
    ensures LinksInto<K, E>([], vs) == 0
  {
    if vs != [] {
      NoLinks<K, E>(vs[..|vs| - 1]);
    }
  }

  lemma SharesAddUp(n: nat, links: nat, value: real)
    requires links <= n
    ensures value >= 0.0 ==> 0.0 <= Flow(links, n, value) <= value
    ensures n > 0 && links == n ==> Flow(links, n, value) == value
  {
    if n > 0 {
      var s := value / n as real;
      assert n as real * s == value;
      if value >= 0.0 {
        assert s >= 0.0;
        ScaleMonotone(links as real, n as real, s);
      }
    } else {
      assert Flow(links, n, value) == 0.0;
    }
  }

  lemma ScaleMonotone(a: real, b: real, s: real)
    requires 0.0 <= a <= b && s >= 0.0
    ensures 0.0 <= a * s <= b * s
  {
  }

  lemma {:induction false} OutflowBounded<K(!new), E(!new)>(
      edges: multiset<Edge<K, E>>, us: seq<K>, x: map<K, real>, vs: seq<K>)
    requires forall u :: u in us ==> u in x && x[u] >= 0.0
    requires Distinct(vs)
    ensures SumOutflow(edges, us, x, vs) <= Sum(us, x)
  {
    hide Targets, LinksInto, Flow, Distinct;
    if us != [] {
      var u := us[|us| - 1];
      OutflowBounded(edges, us[..|us| - 1], x, vs);
      LinksBounded(Targets(edges, u), vs);
      SharesAddUp(|Targets(edges, u)|, LinksInto(Targets(edges, u), vs), x[u]);
    }
  }

  /** Every vertex has an out-edge, and every out-edge leads to a vertex. */
  ghost predicate NothingLeaks<K(!new), E(!new)>(edges: multiset<Edge<K, E>>, us: seq<K>, vs: seq<K>) {
    forall u :: u in us ==>
      && Targets(edges, u) != []
      && (forall i :: 0 <= i < |Targets(edges, u)| ==> Targets(edges, u)[i].0 in vs)
  }

  lemma {:induction false} OutflowExact<K(!new), E(!new)>(
      edges: multiset<Edge<K, E>>, us: seq<K>, x: map<K, real>, vs: seq<K>)
    requires forall u :: u in us ==> u in x
    requires Distinct(vs) && NothingLeaks(edges, us, vs)
    ensures SumOutflow(edges, us, x, vs) == Sum(us, x)
  {
    hide LinksInto, Flow, Distinct, Targets;
    if us != [] {
      var u := us[|us| - 1];
      assert NothingLeaks(edges, us[..|us| - 1], vs);
      OutflowExact(edges, us[..|us| - 1], x, vs);
      assert u in us;
      LinksBounded(Targets(edges, u), vs);
      SharesAddUp(|Targets(edges, u)|, LinksInto(Targets(edges, u), vs), x[u]);
    }
  }

  // ---------------------------------------------------------------------------------------
  // Totals.

  lemma {:induction false} SumOfStep<K(!new), E(!new)>(
      alpha: real, t: real, edges: multiset<Edge<K, E>>, us: seq<K>, x: map<K, real>, y: map<K, real>, vs: seq<K>)
    requires forall u :: u in us ==> u in x
    requires forall v :: v in vs ==> v in y && y[v] == Rank(alpha, Inflow(edges, us, x, v), Some(t))
    ensures Sum(vs, y) == Combine(alpha, SumInflow(edges, us, x, vs), |vs|, t)
  {
    hide Inflow;
    if vs != [] {
      var front, v := vs[..|vs| - 1], vs[|vs| - 1];
      SumOfStep(alpha, t, edges, us, x, y, front);
      CombineOne(alpha, SumInflow(edges, us, x, front), Inflow(edges, us, x, v), |front|, t);
    } else {
      assert Combine(alpha, 0.0, 0, t) == 0.0;
    }
  }

  ghost function Combine(alpha: real, inflow: real, n: nat, t: real): real {
    alpha * inflow + n as real * t
  }

  lemma CombineOne(alpha: real, total: real, one: real, n: nat, t: real)
    ensures Combine(alpha, total, n, t) + Rank(alpha, one, Some(t)) == Combine(alpha, total + one, n + 1, t)
  {
    assert alpha * (total + one) == alpha * total + one * alpha;
    assert (n + 1) as real * t == n as real * t + t;
  }

  lemma Balance(alpha: real, n: nat, v0: real, total: real)
    requires total == n as real * v0
    ensures Combine(alpha, total, n, Fixed(alpha, v0)) == total
  {
    var m := n as real;
    assert m * ((1.0 - alpha) * v0) == m * v0 - alpha * (m * v0);
  }

  lemma CombineMonotone(alpha: real, a: real, b: real, n: nat, t: real)
    requires alpha >= 0.0 && a <= b
    ensures Combine(alpha, a, n, t) <= Combine(alpha, b, n, t)
  {
    assert alpha * (b - a) >= 0.0;
  }

  lemma {:induction false} SumUniform<K>(us: seq<K>, x: map<K, real>, v0: real)
    requires forall u :: u in us ==> u in x && x[u] == v0
    ensures Sum(us, x) == |us| as real * v0
  {
    if us != [] {
      SumUniform(us[..|us| - 1], x, v0);
      OneMore(|us| - 1, v0);
    }
  }

  ghost predicate Uniform<K>(verts: map<K, real>, v0: real) {
    forall v :: v in verts ==> verts[v] == v0
  }

  /** What a run from a uniform start maintains between supersteps. */
  lemma {:induction false} TotalOfStep<K(!new), E(!new)>(
      alpha: real, v0: real, edges: multiset<Edge<K, E>>, us: seq<K>, x: map<K, real>, y: map<K, real>,
      total: real)
    requires Steps(alpha, Fixed(alpha, v0), edges, us, x, y)
    requires Sum(us, x) == total == |us| as real * v0
    requires NothingLeaks(edges, us, us)
    ensures Sum(us, y) == total
  {
    hide NothingLeaks, Combine, Fixed, Inflow, Rank;
    SumOfStep(alpha, Fixed(alpha, v0), edges, us, x, y, us);
    InflowIsOutflow(edges, us, x, us);
    OutflowExact(edges, us, x, us);
    Balance(alpha, |us|, v0, total);
  }

  lemma {:induction false} FirstValues<K(!new), E(!new)>(
      alpha: real, t: real, edges: multiset<Edge<K, E>>, verts: map<K, real>, v0: real, us: seq<K>, k: nat)
    requires Uniform(verts, v0) && Lists(us, verts.Keys) && k <= 1
    ensures Values(alpha, t, edges, verts, k) == verts
    ensures Sum(us, verts) == |us| as real * v0
  {
    FirstKeepsValues(alpha, t, edges, verts);
    SumUniform(us, verts, v0);
  }

  /** Mass conservation: when every vertex has an out-edge and every target exists, the total of
      all values is |V| * v0 after every superstep. */
  lemma {:induction false} MassConserved<K(!new), E(!new)>(
      alpha: real, v0: real, edges: multiset<Edge<K, E>>, verts: map<K, real>, us: seq<K>, k: nat)
    requires Uniform(verts, v0) && Lists(us, verts.Keys)
    requires NothingLeaks(edges, us, us)
    ensures var x := Values(alpha, Fixed(alpha, v0), edges, verts, k);
            x.Keys == verts.Keys && Sum(us, x) == |us| as real * v0
  {
    var t := Fixed(alpha, v0);
    hide Values, NothingLeaks, Fixed, Inflow;
    ValuesKeys(alpha, t, edges, verts, k);
    if k <= 1 {
      FirstValues(alpha, t, edges, verts, v0, us, k);
    } else {
      MassConserved(alpha, v0, edges, verts, us, k - 1);
      ValuesStep(alpha, t, edges, verts, us, k - 1, k);
      TotalOfStep(alpha, v0, edges, us, Values(alpha, t, edges, verts, k - 1), Values(alpha, t, edges, verts, k),
                  |us| as real * v0);
    }
  }

  lemma {:induction false} InflowNotNegative<K(!new), E(!new)>(
      edges: multiset<Edge<K, E>>, us: seq<K>, x: map<K, real>, v: K)
    requires forall u :: u in us ==> u in x && x[u] >= 0.0
    ensures Inflow(edges, us, x, v) >= 0.0
  {
    hide Targets, Links, Flow;
    if us != [] {
      var u := us[|us| - 1];
      InflowNotNegative(edges, us[..|us| - 1], x, v);
      ShareNotNegative(|Targets(edges, u)|, Links(Targets(edges, u), v), x[u]);
    }
  }

  lemma ShareNotNegative(n: nat, links: nat, value: real)
    requires value >= 0.0
    ensures Flow(links, n, value) >= 0.0
  {
  }

  lemma RankAtLeast(alpha: real, inflow: real, t: real)
    requires alpha >= 0.0 && inflow >= 0.0
    ensures Rank(alpha, inflow, Some(t)) >= t
  {
    assert inflow * alpha >= 0.0;
  }

  /** Mass bounds, dangling vertices and absent targets included: for 0 <= alpha <= 1 the total
      never exceeds |V| * v0, and from superstep 2 on no value is below (1 - alpha) * v0. */
  lemma {:induction false} MassBounded<K(!new), E(!new)>(
      alpha: real, v0: real, edges: multiset<Edge<K, E>>, verts: map<K, real>, us: seq<K>, k: nat)
    requires 0.0 <= alpha <= 1.0 && v0 >= 0.0
    requires Uniform(verts, v0) && Lists(us, verts.Keys)
    ensures var x := Values(alpha, Fixed(alpha, v0), edges, verts, k);
            && x.Keys == verts.Keys
            && (forall v :: v in x ==> x[v] >= 0.0)
            && (k >= 2 ==> forall v :: v in x ==> x[v] >= Fixed(alpha, v0))
            && Sum(us, x) <= |us| as real * v0
  {
    var t := Fixed(alpha, v0);
    assert t >= 0.0;
    hide Values, Fixed, Inflow, Combine, Rank;
    ValuesKeys(alpha, t, edges, verts, k);
    if k <= 1 {
      FirstValues(alpha, t, edges, verts, v0, us, k);
    } else {
      MassBounded(alpha, v0, edges, verts, us, k - 1);
      ValuesStep(alpha, t, edges, verts, us, k - 1, k);
      var x, y := Values(alpha, t, edges, verts, k - 1), Values(alpha, t, edges, verts, k);
      forall v | v in y
        ensures y[v] >= t
      {
        InflowNotNegative(edges, us, x, v);
        RankAtLeast(alpha, Inflow(edges, us, x, v), t);
      }
      TotalDoesNotGrow(alpha, v0, edges, us, x, y, |us| as real * v0);
    }
  }

  lemma {:induction false} TotalDoesNotGrow<K(!new), E(!new)>(
      alpha: real, v0: real, edges: multiset<Edge<K, E>>, us: seq<K>, x: map<K, real>, y: map<K, real>,
      total: real)
    requires Steps(alpha, Fixed(alpha, v0), edges, us, x, y) && alpha >= 0.0
    requires forall v :: v in x ==> x[v] >= 0.0
    requires Sum(us, x) <= total == |us| as real * v0
    ensures Sum(us, y) <= total
  {
    hide Combine, Rank, Fixed, Inflow;
    SumOfStep(alpha, Fixed(alpha, v0), edges, us, x, y, us);
    InflowIsOutflow(edges, us, x, us);
    OutflowBounded(edges, us, x, us);
    CombineMonotone(alpha, SumInflow(edges, us, x, us), total, |us|, Fixed(alpha, v0));
    Balance(alpha, |us|, v0, total);
  }

  // ---------------------------------------------------------------------------------------
  // Contraction.

  function Abs(x: real): real {
    if x < 0.0 then -x else x
  }

  ghost function Apart<K>(x: map<K, real>, y: map<K, real>): (d: map<K, real>)
    requires x.Keys == y.Keys
    ensures d.Keys == x.Keys
  {
    map u | u in x :: Abs(x[u] - y[u])
  }

  /** The L1 distance of two value vectors. */
  ghost function Distance<K>(us: seq<K>, x: map<K, real>, y: map<K, real>): real
    requires x.Keys == y.Keys && forall u :: u in us ==> u in x
  {
    Sum(us, Apart(x, y))
  }

  lemma TermApart(n: nat, links: nat, a: real, b: real, dx: real, x: real, y: real)
    requires dx >= Abs(x - y)
    ensures dx + Flow(links, n, Abs(a - b)) >= Abs((x + Flow(links, n, a)) - (y + Flow(links, n, b)))
  {
    var l, sa, sb := links as real, Portion(n, a), Portion(n, b);
    ShareOfDifference(n, a, b);
    assert l * sa - l * sb == l * (sa - sb);
    ScaleOfAbs(l, sa - sb);
    hide Portion;
  }

  lemma ShareOfDifference(n: nat, a: real, b: real)
    ensures Portion(n, Abs(a - b)) == Abs(Portion(n, a) - Portion(n, b))
  {
    if n > 0 {
      var m := n as real;
      assert a / m - b / m == (a - b) / m;
    }
  }

  lemma AbsOfZero()
    ensures Abs(0.0) == 0.0
  {
  }

  lemma ScaleOfAbs(l: real, d: real)
    requires l >= 0.0
    ensures l * Abs(d) == Abs(l * d)
  {
    if d >= 0.0 {
      assert l * d >= 0.0;
    } else {
      assert l * (-d) >= 0.0;
    }
  }

  lemma {:induction false} InflowApart<K(!new), E(!new)>(
      edges: multiset<Edge<K, E>>, us: seq<K>, x: map<K, real>, y: map<K, real>, v: K)
    requires x.Keys == y.Keys && forall u :: u in us ==> u in x
    ensures Inflow(edges, us, Apart(x, y), v) >= Abs(Inflow(edges, us, x, v) - Inflow(edges, us, y, v))
  {
    hide Targets, Links, Flow, Abs;
    if us == [] {
      assert Abs(0.0) == 0.0 by {
        AbsOfZero();
      }
    } else {
      var front, u := us[..|us| - 1], us[|us| - 1];
      InflowApart(edges, front, x, y, v);
      TermApart(|Targets(edges, u)|, Links(Targets(edges, u), v), x[u], y[u],
                Inflow(edges, front, Apart(x, y), v), Inflow(edges, front, x, v), Inflow(edges, front, y, v));
    }
  }

  lemma {:induction false} DistanceOfStep<K(!new), E(!new)>(
      alpha: real, edges: multiset<Edge<K, E>>, us: seq<K>,
      x: map<K, real>, x': map<K, real>, y: map<K, real>, y': map<K, real>, vs: seq<K>)
    requires alpha >= 0.0 && x.Keys == x'.Keys && y.Keys == y'.Keys && forall u :: u in us ==> u in x
    requires forall v :: v in vs ==> v in y && MovesBy(alpha, edges, us, x, x', y, y', v)
    ensures Sum(vs, Apart(y', y)) <= alpha * SumInflow(edges, us, Apart(x', x), vs)
  {
    hide Inflow, Abs, MovesBy;
    if vs != [] {
      var front, v := vs[..|vs| - 1], vs[|vs| - 1];
      DistanceOfStep(alpha, edges, us, x, x', y, y', front);
      MovesApart(alpha, edges, us, x, x', y, y', v);
      ScaleOfSum(alpha, SumInflow(edges, us, Apart(x', x), front), Inflow(edges, us, Apart(x', x), v));
    }
  }

  /** The change from y to y' at `v` is alpha times that of what flows in. */
  ghost predicate MovesBy<K(!new), E(!new)>(
      alpha: real, edges: multiset<Edge<K, E>>, us: seq<K>,
      x: map<K, real>, x': map<K, real>, y: map<K, real>, y': map<K, real>, v: K)
    requires forall u :: u in us ==> u in x && u in x'
    requires v in y && v in y'
  {
    y'[v] - y[v] == (Inflow(edges, us, x', v) - Inflow(edges, us, x, v)) * alpha
  }

  lemma {:induction false} MovesApart<K(!new), E(!new)>(
      alpha: real, edges: multiset<Edge<K, E>>, us: seq<K>,
      x: map<K, real>, x': map<K, real>, y: map<K, real>, y': map<K, real>, v: K)
    requires alpha >= 0.0 && x.Keys == x'.Keys && y.Keys == y'.Keys && forall u :: u in us ==> u in x
    requires v in y && MovesBy(alpha, edges, us, x, x', y, y', v)
    ensures Apart(y', y)[v] <= alpha * Inflow(edges, us, Apart(x', x), v)
  {
    hide Inflow, Abs;
    InflowApart(edges, us, x', x, v);
    var d := Inflow(edges, us, x', v) - Inflow(edges, us, x, v);
    ScaleOfAbs(alpha, d);
    ScaleOrder(alpha, Abs(d), Inflow(edges, us, Apart(x', x), v));
    assert y'[v] - y[v] == alpha * d;
  }

  lemma ScaleOfSum(alpha: real, a: real, b: real)
    ensures alpha * (a + b) == alpha * a + alpha * b
  {
  }

  lemma ScaleOrder(alpha: real, a: real, b: real)
    requires alpha >= 0.0 && a <= b
    ensures alpha * a <= alpha * b
  {
    assert alpha * (b - a) >= 0.0;
  }

  lemma ApartNotNegative<K>(x: map<K, real>, y: map<K, real>)
    requires x.Keys == y.Keys
    ensures forall u :: u in Apart(x, y) ==> Apart(x, y)[u] >= 0.0
  {
  }

  /** Whatever each vertex adds to its rank, value vectors come closer by a factor alpha in every
      superstep, with dangling vertices and absent targets too. */
  lemma StepContracts<K(!new), E(!new)>(
      alpha: real, edges: multiset<Edge<K, E>>, us: seq<K>,
      x: map<K, real>, x': map<K, real>, y: map<K, real>, y': map<K, real>)
    requires alpha >= 0.0 && Lists(us, x.Keys) && x'.Keys == y.Keys == y'.Keys == x.Keys
    requires forall v :: v in x ==> MovesBy(alpha, edges, us, x, x', y, y', v)
    ensures Distance(us, y', y) <= alpha * Distance(us, x', x)
  {
    hide Inflow, Abs, Apart, MovesBy;
    DistanceOfStep(alpha, edges, us, x, x', y, y', us);
    ApartNotNegative(x', x);
    InflowIsOutflow(edges, us, Apart(x', x), us);
    OutflowBounded(edges, us, Apart(x', x), us);
    ScaleOrder(alpha, SumInflow(edges, us, Apart(x', x), us), Distance(us, x', x));
  }

  lemma RankMoves(alpha: real, a: real, b: real, t: real)
    ensures Rank(alpha, a, Some(t)) - Rank(alpha, b, Some(t)) == (a - b) * alpha
  {
  }

  lemma StepsMove<K(!new), E(!new)>(
      alpha: real, t: real, edges: multiset<Edge<K, E>>, us: seq<K>,
      x: map<K, real>, x': map<K, real>, y: map<K, real>, y': map<K, real>, v: K)
    requires Steps(alpha, t, edges, us, x, y) && Steps(alpha, t, edges, us, x', y') && v in x && v in x'
    ensures MovesBy(alpha, edges, us, x, x', y, y', v)
  {
    hide Inflow, Rank;
    RankMoves(alpha, Inflow(edges, us, x', v), Inflow(edges, us, x, v), t);
  }

  /** Contraction: successive value vectors come closer by a factor alpha in every superstep. */
  lemma Contracts<K(!new), E(!new)>(
      alpha: real, t: real, edges: multiset<Edge<K, E>>, verts: map<K, real>, us: seq<K>, k: nat)
    requires alpha >= 0.0 && Lists(us, verts.Keys) && k >= 1
    ensures var x, y, z := Values(alpha, t, edges, verts, k), Values(alpha, t, edges, verts, k + 1),
                           Values(alpha, t, edges, verts, k + 2);
            && x.Keys == y.Keys == z.Keys == verts.Keys
            && Distance(us, z, y) <= alpha * Distance(us, y, x)
  {
    hide Values, Inflow, Distance, MovesBy;
    var x, y, z := Values(alpha, t, edges, verts, k), Values(alpha, t, edges, verts, k + 1),
                   Values(alpha, t, edges, verts, k + 2);
    ValuesStep(alpha, t, edges, verts, us, k, k + 1);
    ValuesStep(alpha, t, edges, verts, us, k + 1, k + 2);
    ValuesKeys(alpha, t, edges, verts, k);
    ValuesKeys(alpha, t, edges, verts, k + 1);
    ValuesKeys(alpha, t, edges, verts, k + 2);
    forall v | v in x
      ensures MovesBy(alpha, edges, us, x, y, y, z, v)
    {
      StepsMove(alpha, t, edges, us, x, y, y, z, v);
    }
    StepContracts(alpha, edges, us, x, y, y, z);
  }

  function Power(alpha: real, n: nat): real {
    if n == 0 then 1.0 else alpha * Power(alpha, n - 1)
  }

  lemma PowerStep(alpha: real, n: nat, d: real, before: real, now: real)
    requires alpha >= 0.0 && before <= Power(alpha, n) * d && now <= alpha * before
    ensures now <= Power(alpha, n + 1) * d
  {
    assert alpha * (Power(alpha, n) * d) == (alpha * Power(alpha, n)) * d;
    ScaleOrder(alpha, before, Power(alpha, n) * d);
  }

  /** Over a run the steps shrink geometrically. */
  lemma {:induction false} ContractsGeometrically<K(!new), E(!new)>(
      alpha: real, t: real, edges: multiset<Edge<K, E>>, verts: map<K, real>, us: seq<K>, n: nat)
    requires alpha >= 0.0 && Lists(us, verts.Keys)
    ensures var first, second := Values(alpha, t, edges, verts, 1), Values(alpha, t, edges, verts, 2);
            var x, y := Values(alpha, t, edges, verts, n + 1), Values(alpha, t, edges, verts, n + 2);
            && first.Keys == second.Keys == x.Keys == y.Keys == verts.Keys
            && Distance(us, y, x) <= Power(alpha, n) * Distance(us, second, first)
  {
    hide Values, Distance;
    ValuesKeys(alpha, t, edges, verts, 1);
    ValuesKeys(alpha, t, edges, verts, 2);
    ValuesKeys(alpha, t, edges, verts, n + 1);
    ValuesKeys(alpha, t, edges, verts, n + 2);
    if n > 0 {
      ContractsGeometrically(alpha, t, edges, verts, us, n - 1);
      Contracts(alpha, t, edges, verts, us, n);
      PowerStep(alpha, n - 1, Distance(us, Values(alpha, t, edges, verts, 2), Values(alpha, t, edges, verts, 1)),
                Distance(us, Values(alpha, t, edges, verts, n + 1), Values(alpha, t, edges, verts, n)),
                Distance(us, Values(alpha, t, edges, verts, n + 2), Values(alpha, t, edges, verts, n + 1)));
    }
  }
}
