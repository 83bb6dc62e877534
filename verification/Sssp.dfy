/** Single-source shortest paths on 32-bit distances: minimum propagation from one seed.

    The addition of an edge value wraps around as 32-bit arithmetic does. The run ends with the exact
    distances, as far as they can be represented, if and only if no distance that a vertex has at some
    time makes the addition wrap on an edge to another vertex.
 */
module Sssp {
  import opened Options
  import opened Bags
  import opened Runs
  import opened Bsp
  import opened VertexContext
  import opened Walks
  import opened MinPropagation

  const I32_MAX: int := 0x7FFF_FFFF

  /** Two's complement addition. */
  function AddI32(a: int, b: int): int {
    (a + b + 0x8000_0000) % 0x1_0000_0000 - 0x8000_0000
  }

  /** The sum modulo 2^32, as a signed 32-bit number. */
  lemma AddI32Wraps(a: int, b: int)
    ensures -0x8000_0000 <= AddI32(a, b) < 0x8000_0000
    ensures exists q: int :: AddI32(a, b) == a + b - q * 0x1_0000_0000
  {
    var q := (a + b + 0x8000_0000) / 0x1_0000_0000;
    assert AddI32(a, b) == a + b - q * 0x1_0000_0000;
  }

  function MinDist(current: int, ms: seq<int>): int {
    if ms == [] then
      current
    else
      var d := MinDist(current, ms[..|ms| - 1]);
      if ms[|ms| - 1] < d then ms[|ms| - 1] else d
  }

  function Relaxed(es: seq<(int, int)>, d: int): seq<(int, int)> {
    seq(|es|, i requires 0 <= i < |es| => (es[i].0, AddI32(d, es[i].1)))
  }

  /** A vertex without a value has distance I32_MAX; in the first superstep the source has 0. */
  function SsspCompute(
      src: int, id: int, value: Option<int>, es: seq<(int, int)>, ms: seq<int>, it: nat): (Option<int>, seq<(int, int)>)
  {
    var current := if value.Some? then value.value else I32_MAX;
    var isSource := it == 1 && id == src;
    var start := if isSource then 0 else current;
    var d := MinDist(start, ms);
    if isSource || d < start then (Some(d), Relaxed(es, d)) else (None, [])
  }

  /** What a vertex does: it starts from its distance, the largest number if it has none, and the source
      from 0 in superstep 1; it adopts the least message if that is less than the start, the source in
      superstep 1 whatever it has, and offers what it adopted, plus the value of the edge modulo 2^32,
      along every edge. */
  ghost predicate Relaxes(
      src: int, id: int, value: Option<int>, es: seq<(int, int)>, ms: seq<int>, it: nat,
      r: (Option<int>, seq<(int, int)>))
  {
    var first := it == 1 && id == src;
    var (next, sends) := r;
    var start := if first then 0 else if value.Some? then value.value else 0x7FFF_FFFF;
    && (next.None? <==> !first && forall m :: m in ms ==> start <= m)
    && (next.Some? ==> next.value == start || next.value in ms)
    && (next.Some? ==> next.value <= start && forall m :: m in ms ==> next.value <= m)
    && |sends| == (if next.Some? then |es| else 0)
    && (forall i :: 0 <= i < |sends| ==>
          && sends[i].0 == es[i].0 && -0x8000_0000 <= sends[i].1 < 0x8000_0000
          && exists q: int :: sends[i].1 == next.value + es[i].1 - q * 0x1_0000_0000)
  }

  lemma SsspRelaxes(src: int, id: int, value: Option<int>, es: seq<(int, int)>, ms: seq<int>, it: nat)
    ensures Relaxes(src, id, value, es, ms, it, SsspCompute(src, id, value, es, ms, it))
  {
    var first := it == 1 && id == src;
    var start := if first then 0 else if value.Some? then value.value else I32_MAX;
    var d := MinDist(start, ms);
    MinDistFacts(start, ms);
    forall m | m in ms
      ensures d <= m
    {
      var i :| 0 <= i < |ms| && ms[i] == m;
    }
    forall i | 0 <= i < |es|
      ensures -0x8000_0000 <= Relaxed(es, d)[i].1 < 0x8000_0000
      ensures exists q: int :: Relaxed(es, d)[i].1 == d + es[i].1 - q * 0x1_0000_0000
    {
      AddI32Wraps(d, es[i].1);
    }
  }

  class SsspAlgorithm {
    const srcId: int

    constructor (srcId: int)
      ensures this.srcId == srcId
    {
      this.srcId := srcId;
    }

    method Compute(vertexId: int, messages: seq<int>, context: Context<int, int, int, int>)
      modifies context
      ensures var r := SsspCompute(srcId, vertexId, old(context.vertexValue), context.edges, messages,
                                   context.iteration);
              && context.outMessages == old(context.outMessages) + r.1
              && context.vertexValue == (if r.0.Some? then r.0 else old(context.vertexValue))
              && Relaxes(srcId, vertexId, old(context.vertexValue), context.edges, messages, context.iteration, r)
    {
      hide Relaxes, AddI32;
      SsspRelaxes(srcId, vertexId, context.vertexValue, context.edges, messages, context.iteration);
      var currentVal := if context.vertexValue.Some? then context.vertexValue.value else I32_MAX;
      var minDist := currentVal;
      var updated := false;
      if context.iteration == 1 && vertexId == srcId {
        minDist := 0;
        updated := true;
      }
      ghost var start := minDist;
      ghost var isSource := updated;
      for i := 0 to |messages|
        invariant minDist == MinDist(start, messages[..i])
        invariant updated <==> isSource || minDist < start
        invariant context.vertexValue == old(context.vertexValue)
        invariant context.outMessages == old(context.outMessages)
      {
        assert messages[..i + 1][..i] == messages[..i];
        MinDistFacts(start, messages[..i]);
        if messages[i] < minDist {
          minDist := messages[i];
          updated := true;
        }
      }
      assert messages[..|messages|] == messages;
      if updated {
        context.SetNewVertexValue(minDist);
        for i := 0 to |context.edges|
          invariant context.outMessages == old(context.outMessages) + Relaxed(context.edges[..i], minDist)
          invariant context.vertexValue == Some(minDist)
        {
          context.SendMessage(context.edges[i].0, AddI32(minDist, context.edges[i].1));
        }
        assert context.edges[..|context.edges|] == context.edges;
      }
    }
  }

  lemma {:induction false} MinDistFacts(current: int, ms: seq<int>)
    ensures MinDist(current, ms) <= current
    ensures forall i :: 0 <= i < |ms| ==> MinDist(current, ms) <= ms[i]
    ensures MinDist(current, ms) == current || MinDist(current, ms) in ms
  {
    if ms != [] {
      var front := ms[..|ms| - 1];
      MinDistFacts(current, front);
      assert forall i :: 0 <= i < |front| ==> front[i] == ms[i];
    }
  }

  function SsspProgram(src: int): Program<int, int, int, int> {
    (k: int, v: int, es: seq<(int, int)>, ms: seq<int>, it: nat) => SsspCompute(src, k, Some(v), es, ms, it)
  }

  function SsspAlg(src: int): Alg<int, int, int, int, ()> {
    Alg((), (s: (), k, v, es, ms, it) =>
      var r := SsspCompute(src, k, Some(v), es, ms, it);
      Some((s, r.0, r.1)))
  }

  /** The function as an engine may use it: on any numbers whatever. */
  function AnyTyping(): Typing<int, int, int, ()> {
    Typing((s, it) => true, (k, v, it) => true, m => true)
  }

  /** Distances that have not wrapped around. */
  function DistanceTyping(): Typing<int, int, int, ()> {
    Typing((s, it) => true, (k, v, it) => 0 <= v <= I32_MAX, m => 0 <= m <= I32_MAX)
  }

  function SsspReading(src: int): Reading<int, int, int, int> {
    Reading(v => if v < 0 then 0 else v, m => if m < 0 then 0 else m, e => if e < 0 then 0 else e,
            e => e >= 0, k => if k == src then Some(0) else None, I32_MAX)
  }

  // ---------------------------------------------------------------------------------------
  // Any engine may run it.

  lemma {:induction false} MinDistIgnoresOrder(current: int, ms: seq<int>, ms': seq<int>)
    requires multiset(ms) == multiset(ms')
    ensures MinDist(current, ms) == MinDist(current, ms')
  {
    assert forall m :: m in ms <==> m in multiset(ms);
    assert forall m :: m in ms' <==> m in multiset(ms');
    MinDistFacts(current, ms);
    MinDistFacts(current, ms');
    var d, d' := MinDist(current, ms), MinDist(current, ms');
    assert d in ms ==> d in ms';
    assert d' in ms' ==> d' in ms;
  }

  lemma RelaxedIgnoresOrder(es: seq<(int, int)>, es': seq<(int, int)>, d: int)
    requires multiset(es) == multiset(es')
    ensures multiset(Relaxed(es, d)) == multiset(Relaxed(es', d))
  {
    assert forall e :: e in es <==> e in multiset(es);
    assert forall e :: e in es' <==> e in multiset(es');
    var sends := map e | e in es :: multiset{(e.0, AddI32(d, e.1))};
    RelaxedAsCollect(es, d, sends);
    RelaxedAsCollect(es', d, sends);
    CollectPermutation(es, es', sends);
  }

  lemma {:induction false} RelaxedAsCollect(es: seq<(int, int)>, d: int, sends: map<(int, int), multiset<(int, int)>>)
    requires forall e :: e in es ==> e in sends && sends[e] == multiset{(e.0, AddI32(d, e.1))}
    ensures multiset(Relaxed(es, d)) == Collect(es, sends)
  {
    if es != [] {
      var front, last := es[..|es| - 1], es[|es| - 1];
      RelaxedAsCollect(front, d, sends);
      assert Relaxed(es, d) == Relaxed(front, d) + [(last.0, AddI32(d, last.1))];
    }
  }

  lemma SsspAdmissible(src: int)
    ensures Admissible(SsspAlg(src), SsspProgram(src), AnyTyping())
  {
    var p, ty := SsspProgram(src), AnyTyping();
    forall k, v, es, es', ms, ms', it {:trigger p(k, v, es, ms, it), p(k, v, es', ms', it)} |
      multiset(es) == multiset(es') && multiset(ms) == multiset(ms')
      ensures p(k, v, es, ms, it).0 == p(k, v, es', ms', it).0
      ensures multiset(p(k, v, es, ms, it).1) == multiset(p(k, v, es', ms', it).1)
    {
      var start := if it == 1 && k == src then 0 else v;
      MinDistIgnoresOrder(start, ms, ms');
      RelaxedIgnoresOrder(es, es', MinDist(start, ms));
    }
  }

  lemma SsspQuiescent(src: int)
    ensures Quiescent(SsspProgram(src))
  {
  }

  // ---------------------------------------------------------------------------------------
  // It computes distances.

  lemma {:induction false} LeastIsMinDist(src: int, bound: nat, ms: seq<int>)
    requires forall i :: 0 <= i < |ms| ==> ms[i] >= 0
    ensures Least(SsspReading(src), bound, ms) == MinDist(bound, ms)
  {
    if ms != [] {
      LeastIsMinDist(src, bound, ms[..|ms| - 1]);
    }
  }

  lemma SsspPropagates(src: int)
    ensures Propagates(SsspProgram(src), SsspReading(src), DistanceTyping())
  {
    var p, x, ty := SsspProgram(src), SsspReading(src), DistanceTyping();
    forall k, v, es: seq<(int, int)>, ms, it {:trigger p(k, v, es, ms, it)} |
      && it >= 1 && ty.okVertex(k, v, it) && OkMessages(ty, ms) && (it == 1 ==> ms == [])
      && (forall i :: 0 <= i < |es| ==> x.okEdge(es[i].1))
      ensures Offers(x, p(k, v, es, ms, it), Better(x, k, v, ms, it), es)
      ensures StaysOk(x, ty, k, v, it, Better(x, k, v, ms, it), es, p(k, v, es, ms, it))
    {
      forall i | 0 <= i < |ms|
        ensures 0 <= ms[i] <= I32_MAX
      {
        assert ty.okMessage(ms[i]);
      }
      SsspOffers(src, k, v, es, ms, it);
    }
  }

  lemma SsspOffers(src: int, k: int, v: int, es: seq<(int, int)>, ms: seq<int>, it: nat)
    requires it >= 1 && 0 <= v <= I32_MAX && (it == 1 ==> ms == [])
    requires forall i :: 0 <= i < |ms| ==> 0 <= ms[i] <= I32_MAX
    requires forall i :: 0 <= i < |es| ==> es[i].1 >= 0
    ensures var x, out := SsspReading(src), SsspCompute(src, k, Some(v), es, ms, it);
            && Offers(x, out, Better(x, k, v, ms, it), es)
            && StaysOk(x, DistanceTyping(), k, v, it, Better(x, k, v, ms, it), es, out)
            && (Better(x, k, v, ms, it).Some? ==>
                  && Better(x, k, v, ms, it).value <= I32_MAX
                  && out.1 == Relaxed(es, Better(x, k, v, ms, it).value))
  {
    var x := SsspReading(src);
    var better := Better(x, k, v, ms, it);
    LeastIsMinDist(src, v, ms);
    MinDistFacts(v, ms);
    if better.Some? {
      var d := better.value;
      forall i | 0 <= i < |es| && d + es[i].1 <= I32_MAX
        ensures AddI32(d, es[i].1) == d + es[i].1
      {
      }
    }
  }

  /** `d` is the length of a shortest walk from `src` to `v` inside the vertex set, as far as it can be
      represented: I32_MAX stands for everything from there on, and for no walk at all. */
  ghost predicate IsDistance(vs: set<int>, edges: multiset<Edge<int, int>>, src: int, v: int, d: int) {
    && d <= I32_MAX
    && (d < I32_MAX ==> exists w :: IsWalk(vs, edges, src, w, v) && d == Cost(SsspReading(src).weight, w))
    && (forall w :: IsWalk(vs, edges, src, w, v) ==> d <= Cost(SsspReading(src).weight, w))
  }

  /** The input the algorithm is meant for: every vertex starts at I32_MAX, and weights are 32-bit
      numbers that are not negative. */
  ghost predicate Weighted(verts: map<int, int>, edges: multiset<Edge<int, int>>) {
    && (forall e :: e in edges ==> 0 <= e.value <= I32_MAX)
    && (forall k :: k in verts ==> verts[k] == I32_MAX)
  }

  /** `d` is the least cost over walks of at most `length` edges from `src` to `v`. */
  ghost predicate LeastCost(
      vs: set<int>, edges: multiset<Edge<int, int>>, src: int, v: int, length: nat, d: int)
  {
    && (exists w :: |w| <= length && IsWalk(vs, edges, src, w, v) && d == Cost(SsspReading(src).weight, w))
    && (forall w :: |w| <= length && IsWalk(vs, edges, src, w, v) ==> d <= Cost(SsspReading(src).weight, w))
  }

  /** A least cost within some number of edges is what a vertex may hold at some time. Offering it along
      an edge to another vertex does not overflow. */
  ghost predicate NoOverflow(src: int, verts: map<int, int>, edges: multiset<Edge<int, int>>) {
    forall e, length: nat, d: int ::
      e in edges && e.src in verts && e.dst in verts && d < I32_MAX
      && LeastCost(verts.Keys, edges, src, e.src, length, d) ==>
        d + e.value <= I32_MAX
  }

  lemma {:induction false} SourceCarries(
      src: int, vs: set<int>, edges: multiset<Edge<int, int>>, u: int, w: seq<Edge<int, int>>, v: int, c: nat)
    ensures Carries(SsspReading(src), vs, edges, u, w, v, c)
       <==> u == src && IsWalk(vs, edges, src, w, v) && c == Cost(SsspReading(src).weight, w)
  {
  }

  lemma LeastCostExactlyWhen(
      src: int, vs: set<int>, edges: multiset<Edge<int, int>>, v: int, length: nat, d: nat)
    requires d < I32_MAX
    ensures LeastCost(vs, edges, src, v, length, d) <==> IsLeastWithin(SsspReading(src), vs, edges, v, length, d)
  {
    var x := SsspReading(src);
    hide IsWalk, Cost;
    if LeastCost(vs, edges, src, v, length, d) {
      var w :| |w| <= length && IsWalk(vs, edges, src, w, v) && d == Cost(x.weight, w);
      SourceCarries(src, vs, edges, src, w, v, d);
      forall u, w', c: nat | |w'| <= length && Carries(x, vs, edges, u, w', v, c)
        ensures d <= c
      {
        SourceCarries(src, vs, edges, u, w', v, c);
      }
    }
    if IsLeastWithin(x, vs, edges, v, length, d) {
      var u, w :| |w| <= length && Carries(x, vs, edges, u, w, v, d);
      SourceCarries(src, vs, edges, u, w, v, d);
      forall w' | |w'| <= length && IsWalk(vs, edges, src, w', v)
        ensures d <= Cost(x.weight, w')
      {
        SourceCarries(src, vs, edges, src, w', v, Cost(x.weight, w'));
      }
    }
  }

  lemma NoOverflowExactlyWhen(src: int, verts: map<int, int>, edges: multiset<Edge<int, int>>)
    requires Weighted(verts, edges)
    ensures NoOverflow(src, verts, edges) <==> InRange(SsspReading(src), verts.Keys, edges)
  {
    var x, vs := SsspReading(src), verts.Keys;
    if NoOverflow(src, verts, edges) {
      forall e, length: nat, c: nat |
        e in edges && e.src in vs && e.dst in vs && c < x.inf && IsLeastWithin(x, vs, edges, e.src, length, c)
        ensures c + x.weight(e.value) <= x.inf
      {
        hide IsLeastWithin, LeastCost;
        LeastCostExactlyWhen(src, vs, edges, e.src, length, c);
      }
    }
    if InRange(x, vs, edges) {
      forall e, length: nat, d: int |
        e in edges && e.src in verts && e.dst in verts && d < I32_MAX
        && LeastCost(vs, edges, src, e.src, length, d)
        ensures d + e.value <= I32_MAX
      {
        assert d >= 0;
        hide IsLeastWithin, LeastCost;
        LeastCostExactlyWhen(src, vs, edges, e.src, length, d);
        assert x.weight(e.value) == e.value;
      }
    }
  }

  lemma SsspFits(src: int, verts: map<int, int>, edges: multiset<Edge<int, int>>)
    requires Weighted(verts, edges)
    ensures Provides(SsspProgram(src), SsspReading(src), DistanceTyping(), edges, verts)
  {
    SsspPropagates(src);
    hide Propagates;
    forall k | k in verts
      ensures DistanceTyping().okVertex(k, verts[k], 1)
    {
      assert verts[k] == I32_MAX;
    }
  }

  lemma LeastIsDistance(src: int, vs: set<int>, edges: multiset<Edge<int, int>>, v: int, d: int)
    requires 0 <= d && IsLeast(SsspReading(src), vs, edges, v, d)
    ensures IsDistance(vs, edges, src, v, d)
  {
    var x := SsspReading(src);
    forall w | IsWalk(vs, edges, src, w, v)
      ensures d <= Cost(x.weight, w)
    {
      SourceCarries(src, vs, edges, src, w, v, Cost(x.weight, w));
    }
    if d < I32_MAX {
      var u, w :| Carries(x, vs, edges, u, w, v, d);
      SourceCarries(src, vs, edges, u, w, v, d);
    }
  }

  /** Without overflow, the run stops within |V| + 1 supersteps on its own, and leaves the exact
      distances. */
  lemma SsspComputesDistances(src: int, verts: map<int, int>, edges: multiset<Edge<int, int>>, max: nat)
    requires Weighted(verts, edges) && NoOverflow(src, verts, edges) && max >= 1 && max >= |verts|
    ensures var (end, executed) := Run(Bulk(SsspProgram(src), edges), Start(verts), max);
            && executed <= |verts| + 1
            && end.verts.Keys == verts.Keys
            && (forall v :: v in verts ==> IsDistance(verts.Keys, edges, src, v, end.verts[v]))
  {
    SsspFits(src, verts, edges);
    NoOverflowExactlyWhen(src, verts, edges);
    var p, x, m := SsspProgram(src), SsspReading(src), Bulk(SsspProgram(src), edges);
    assert Suitable(p, x, DistanceTyping(), edges, verts);
    hide Suitable, Provides, InRange, IsLeast, Weighted, NoOverflow, IsDistance, Quiescent, Settled, OkInside;
    SsspQuiescent(src);
    FinalLabels(p, x, DistanceTyping(), edges, verts, max);
    var end := Run(m, Start(verts), max).0;
    QuiescentSettles(p, edges);
    EarlyStopIsHarmless(m, Start(verts), max);
    LabelsAfter(p, x, DistanceTyping(), edges, verts, max, max - 1);
    forall v | v in verts
      ensures IsDistance(verts.Keys, edges, src, v, end.verts[v])
    {
      OkDistance(end, max + 1, v);
      assert IsLeast(x, verts.Keys, edges, v, Label(x, end, v));
      LeastIsDistance(src, verts.Keys, edges, v, end.verts[v]);
    }
  }

  // ---------------------------------------------------------------------------------------
  // With overflow it does not.

  /** A negative distance has been offered to a vertex. */
  ghost predicate Wraps(st: State<int, int, int>, v: int) {
    v in st.verts && exists m :: (v, m) in st.pool && m < 0
  }

  lemma OverflowWraps(d: int, w: int)
    requires 0 <= d <= I32_MAX && 0 <= w <= I32_MAX && d + w > I32_MAX
    ensures AddI32(d, w) < 0
  {
  }

  /** What is adopted is offered, and wraps around. */
  lemma OverflowIsSent(
      src: int, edges: multiset<Edge<int, int>>, st: State<int, int, int>, it: nat, e: Edge<int, int>)
    requires OkInside(DistanceTyping(), st, it) && it >= 1 && (it == 1 ==> st.pool == multiset{})
    requires (forall x :: x in edges ==> 0 <= x.value <= I32_MAX) && e in edges && e.src in st.verts
    requires e.dst in st.verts && Adopts(SsspReading(src), st, it, e.src).Some?
    requires Adopts(SsspReading(src), st, it, e.src).value + e.value > I32_MAX
    ensures Wraps(Superstep(SsspProgram(src), edges, st, it), e.dst)
  {
    var u := e.src;
    var es, ms := SeqOf(OutEdges(edges, u)), Received(st, u);
    OkReceived(DistanceTyping(), st, it, u);
    ReceivedExactly(st, u);
    OutEdgeInBag(edges, u, es);
    assert 0 <= st.verts[u] <= I32_MAX by {
      OkDistance(st, it, u);
    }
    forall i | 0 <= i < |ms|
      ensures 0 <= ms[i] <= I32_MAX
    {
      assert DistanceTyping().okMessage(ms[i]);
    }
    forall i | 0 <= i < |es|
      ensures es[i].1 >= 0
    {
      assert Edge(u, es[i].0, es[i].1) in edges;
    }
    SsspOffers(src, u, st.verts[u], es, ms, it);
    var l := Adopts(SsspReading(src), st, it, u).value;
    var i :| 0 <= i < |es| && es[i] == (e.dst, e.value);
    hide OutEdges, Received, ListsEdges, SsspCompute;
    OverflowWraps(l, e.value);
    assert Relaxed(es, l)[i] == (e.dst, AddI32(l, e.value));
    InFlight(SsspProgram(src), edges, st, it, (e.dst, AddI32(l, e.value)));
    NextKeys(SsspProgram(src), edges, st, it);
  }

  /** A vertex that receives a negative distance keeps one. */
  lemma WrappedIsAdopted(src: int, edges: multiset<Edge<int, int>>, st: State<int, int, int>, it: nat, v: int)
    requires it >= 2 && v in st.verts && (Wraps(st, v) || st.verts[v] < 0)
    ensures v in Superstep(SsspProgram(src), edges, st, it).verts
    ensures Superstep(SsspProgram(src), edges, st, it).verts[v] < 0
  {
    var ms := Received(st, v);
    ReceivedExactly(st, v);
    MinDistFacts(st.verts[v], ms);
    if Wraps(st, v) {
      var m :| (v, m) in st.pool && m < 0;
      assert m in ms;
    }
    hide Received, MinDist, Relaxed, CollectAll;
    assert MinDist(st.verts[v], ms) < 0;
  }

  lemma {:induction false} StaysNegative(
      src: int, edges: multiset<Edge<int, int>>, verts: map<int, int>, j: nat, k: nat, v: int)
    requires 1 <= j < k
    requires Wraps(After(Bulk(SsspProgram(src), edges), Start<int, int, int>(verts), j), v)
    ensures var st := After(Bulk(SsspProgram(src), edges), Start<int, int, int>(verts), k);
            v in st.verts && st.verts[v] < 0
    decreases k
  {
    hide Bulk, SsspProgram, Superstep, Wraps;
    var before := After(Bulk(SsspProgram(src), edges), Start<int, int, int>(verts), k - 1);
    BulkAfter(SsspProgram(src), edges, Start<int, int, int>(verts), k - 1, k);
    if k - 1 > j {
      StaysNegative(src, edges, verts, j, k - 1, v);
    } else {
      WrapsAt(before, v);
    }
    WrappedIsAdopted(src, edges, before, k, v);
  }

  lemma WrapsAt(st: State<int, int, int>, v: int)
    requires Wraps(st, v)
    ensures v in st.verts
  {
  }

  lemma NegativeIsNoDistance(vs: set<int>, edges: multiset<Edge<int, int>>, src: int, v: int, d: int)
    requires d < 0
    ensures !IsDistance(vs, edges, src, v, d)
  {
  }

  /** A run that overflows leaves a negative distance at some vertex. */
  lemma OverflowGoesWrong(
      src: int, verts: map<int, int>, edges: multiset<Edge<int, int>>, max: nat) returns (v: int)
    requires Weighted(verts, edges) && !NoOverflow(src, verts, edges) && max > |verts|
    ensures v in verts.Keys
    ensures var end := Run(Bulk(SsspProgram(src), edges), Start(verts), max).0;
            v in end.verts && end.verts[v] < 0
  {
    var j := OverflowHappens(src, verts, edges);
    hide *;
    v := WrappedVertex(src, verts, edges, j);
    StaysNegative(src, edges, verts, j, max, v);
    SsspQuiescent(src);
    QuiescentSettles(SsspProgram(src), edges);
    EarlyStopIsHarmless(Bulk(SsspProgram(src), edges), Start<int, int, int>(verts), max);
    AfterKeepsKeys(SsspProgram(src), edges, verts, max);
  }

  lemma WrappedVertex(src: int, verts: map<int, int>, edges: multiset<Edge<int, int>>, j: nat) returns (v: int)
    requires WrapsSomewhere(After(Bulk(SsspProgram(src), edges), Start<int, int, int>(verts), j))
    ensures Wraps(After(Bulk(SsspProgram(src), edges), Start<int, int, int>(verts), j), v)
  {
    hide Wraps, Bulk, SsspProgram;
    v :| Wraps(After(Bulk(SsspProgram(src), edges), Start<int, int, int>(verts), j), v);
  }

  ghost predicate WrapsSomewhere(st: State<int, int, int>) {
    exists v :: Wraps(st, v)
  }

  lemma OverflowHappens(src: int, verts: map<int, int>, edges: multiset<Edge<int, int>>) returns (j: nat)
    requires Weighted(verts, edges) && !NoOverflow(src, verts, edges)
    ensures 1 <= j <= |verts|
    ensures WrapsSomewhere(After(Bulk(SsspProgram(src), edges), Start<int, int, int>(verts), j))
  {
    hide Provides, NoOverflow, InRange, Adopts, Bulk, OkInside, Wraps, Superstep, SsspProgram, Weighted;
    SsspFits(src, verts, edges);
    NoOverflowExactlyWhen(src, verts, edges);
    var i, e := FirstOverflow(SsspProgram(src), SsspReading(src), DistanceTyping(), edges, verts);
    var st := After(Bulk(SsspProgram(src), edges), Start<int, int, int>(verts), i);
    WeightsFit(src, verts, edges, e);
    j := i + 1;
    OverflowIsSent(src, edges, st, j, e);
    BulkAfter(SsspProgram(src), edges, Start<int, int, int>(verts), i, j);
  }

  lemma WeightsFit(src: int, verts: map<int, int>, edges: multiset<Edge<int, int>>, e: Edge<int, int>)
    requires Weighted(verts, edges) && e in edges
    ensures SsspReading(src).weight(e.value) == e.value && SsspReading(src).inf == I32_MAX
    ensures forall x :: x in edges ==> 0 <= x.value <= I32_MAX
  {
  }

  /** With room for |V| + 1 supersteps, a run leaves the exact distances exactly when nothing overflows. */
  lemma SsspExactlyWhen(src: int, verts: map<int, int>, edges: multiset<Edge<int, int>>, max: nat)
    requires Weighted(verts, edges) && max > |verts|
    ensures var end := Run(Bulk(SsspProgram(src), edges), Start(verts), max).0;
            && end.verts.Keys == verts.Keys
            && ((forall v :: v in verts ==> IsDistance(verts.Keys, edges, src, v, end.verts[v]))
                <==> NoOverflow(src, verts, edges))
  {
    hide Weighted, NoOverflow, IsDistance, Bulk, SsspProgram;
    var end := Run(Bulk(SsspProgram(src), edges), Start(verts), max).0;
    RunStops(Bulk(SsspProgram(src), edges), Start<int, int, int>(verts), max);
    AfterKeepsKeys(SsspProgram(src), edges, verts, Run(Bulk(SsspProgram(src), edges), Start(verts), max).1);
    if NoOverflow(src, verts, edges) {
      SsspComputesDistances(src, verts, edges, max);
    } else {
      var v := OverflowGoesWrong(src, verts, edges, max);
      NegativeIsNoDistance(verts.Keys, edges, src, v, end.verts[v]);
    }
  }

  // ---------------------------------------------------------------------------------------
  // At three graphs.

  function Unvisited(vs: set<int>): map<int, int> {
    map v | v in vs :: I32_MAX
  }

  lemma {:induction false} OneEdge(src: int, vs: set<int>, edges: multiset<Edge<int, int>>, e: Edge<int, int>)
    requires e in edges && e.src == src && e.src in vs && e.dst in vs && e.value >= 0
    ensures IsWalk(vs, edges, src, [e], e.dst) && Cost(SsspReading(src).weight, [e]) == e.value
  {
    assert [e][..0] == [];
  }

  lemma AtSource(src: int, vs: set<int>, edges: multiset<Edge<int, int>>, length: nat, d: int)
    requires LeastCost(vs, edges, src, src, length, d) && src in vs
    ensures d <= 0
  {
    var w: seq<Edge<int, int>> := [];
    assert IsWalk(vs, edges, src, w, src) && Cost(SsspReading(src).weight, w) == 0;
  }

  lemma Beyond(src: int, vs: set<int>, edges: multiset<Edge<int, int>>, e: Edge<int, int>, length: nat, d: int)
    requires e in edges && e.src == src && e.src in vs && e.dst in vs && e.value >= 0 && e.dst != src
    requires LeastCost(vs, edges, src, e.dst, length, d)
    ensures length >= 1 && d <= e.value
  {
    OneEdge(src, vs, edges, e);
    var w :| |w| <= length && IsWalk(vs, edges, src, w, e.dst);
    assert w != [];
  }

  /** Two vertices joined both ways by edges of weight 10^9: walking round the cycle would overflow, but
      no vertex holds what that costs. */
  lemma HeavyCycleFits()
    ensures NoOverflow(0, Unvisited({0, 1}), multiset{Edge(0, 1, 1_000_000_000), Edge(1, 0, 1_000_000_000)})
  {
    var edges := multiset{Edge(0, 1, 1_000_000_000), Edge(1, 0, 1_000_000_000)};
    var verts := Unvisited({0, 1});
    hide LeastCost;
    forall e, length: nat, d: int |
      e in edges && e.src in verts && e.dst in verts && d < I32_MAX
      && LeastCost(verts.Keys, edges, 0, e.src, length, d)
      ensures d + e.value <= I32_MAX
    {
      if e.src == 0 {
        AtSource(0, verts.Keys, edges, length, d);
      } else {
        Beyond(0, verts.Keys, edges, Edge(0, 1, 1_000_000_000), length, d);
      }
    }
  }

  /** A simple path whose cost would overflow, but which nobody takes: the direct edge from 0 to 2 is
      found first. */
  lemma HeavyPathFits()
    ensures NoOverflow(0, Unvisited({0, 1, 2, 3}), multiset{Edge(0, 1, 1), Edge(1, 2, 2_000_000_000), Edge(0, 2, 1),
                                                 Edge(2, 3, 1_000_000_000)})
  {
    var edges := multiset{Edge(0, 1, 1), Edge(1, 2, 2_000_000_000), Edge(0, 2, 1), Edge(2, 3, 1_000_000_000)};
    var verts := Unvisited({0, 1, 2, 3});
    hide LeastCost;
    forall e, length: nat, d: int |
      e in edges && e.src in verts && e.dst in verts && d < I32_MAX
      && LeastCost(verts.Keys, edges, 0, e.src, length, d)
      ensures d + e.value <= I32_MAX
    {
      if e.src == 0 {
        AtSource(0, verts.Keys, edges, length, d);
      } else {
        Beyond(0, verts.Keys, edges, Edge(0, e.src, 1), length, d);
      }
    }
  }

  lemma HeavyPathIsOutOfRange()
    ensures !NoOverflow(0, Unvisited({0, 1, 2}), multiset{Edge(0, 1, 2_000_000_000), Edge(1, 2, 2_000_000_000)})
  {
    var edges := multiset{Edge(0, 1, 2_000_000_000), Edge(1, 2, 2_000_000_000)};
    var verts := Unvisited({0, 1, 2});
    var e := Edge(0, 1, 2_000_000_000);
    OneEdge(0, verts.Keys, edges, e);
    forall w | |w| <= 1 && IsWalk(verts.Keys, edges, 0, w, 1)
      ensures 2_000_000_000 <= Cost(SsspReading(0).weight, w)
    {
      assert w == [e];
    }
    assert |[e]| <= 1;
    assert LeastCost(verts.Keys, edges, 0, 1, 1, 2_000_000_000);
    hide LeastCost;
    assert Edge(1, 2, 2_000_000_000) in edges;
  }

  lemma ThreeVertices(verts: map<int, int>)
    requires verts == Unvisited({0, 1, 2})
    ensures |verts| == 3
  {
    assert verts.Keys == {0, 1, 2};
    assert |verts| == |verts.Keys|;
  }

  /** Two edges of weight 2 * 10^9 in a row: some vertex ends with a negative distance. */
  lemma HeavyPathOverflows(max: nat) returns (v: int)
    requires max >= 4
    ensures var edges := multiset{Edge(0, 1, 2_000_000_000), Edge(1, 2, 2_000_000_000)};
            var end := Run(Bulk(SsspProgram(0), edges), Start(Unvisited({0, 1, 2})), max).0;
            v in end.verts && end.verts[v] < 0
  {
    var edges := multiset{Edge(0, 1, 2_000_000_000), Edge(1, 2, 2_000_000_000)};
    var verts := Unvisited({0, 1, 2});
    HeavyPathIsOutOfRange();
    ThreeVertices(verts);
    hide NoOverflow, Bulk, SsspProgram, RunFrom;
    v := OverflowGoesWrong(0, verts, edges, max);
  }

  lemma OkDistance(st: State<int, int, int>, it: nat, v: int)
    requires OkInside(DistanceTyping(), st, it) && v in st.verts
    ensures 0 <= st.verts[v] <= I32_MAX
  {
    assert DistanceTyping().okVertex(v, st.verts[v], it);
  }
}
