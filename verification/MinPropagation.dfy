/** Propagating minima along edges, sending only when a label drops.

    Component labelling and shortest paths are both of this kind: some vertices start with a label,
    a vertex that finds a smaller one adopts it and offers it, plus the edge weight, to its
    successors, and a vertex whose label did not drop sends nothing. For every such program the
    label after superstep k is exactly the least cost over walks of fewer than k edges, the
    messages die out after at most one superstep more than there are vertices, and the final
    labels are least over all walks, however long.
 */
module MinPropagation {
  import opened Options
  import opened Bags
  import opened Runs
  import opened Bsp
  import opened Walks

  /** How to read values, messages and the admitted edge values as numbers; `seed` gives the label
      that a vertex starts with in the first superstep, `inf` stands for "no label". */
  datatype Reading<!K, !V, !E, !M> = Reading(
    val: V -> nat, msg: M -> nat, weight: E -> nat, okEdge: E -> bool, seed: K -> Option<nat>, inf: nat)

  ghost function Least<K, V, E, M>(x: Reading<K, V, E, M>, bound: nat, ms: seq<M>): nat {
    if ms == [] then
      bound
    else
      var l := Least(x, bound, ms[..|ms| - 1]);
      if x.msg(ms[|ms| - 1]) < l then x.msg(ms[|ms| - 1]) else l
  }

  /** The label a vertex adopts in superstep `it`, if any. */
  ghost function Better<K, V, E, M>(x: Reading<K, V, E, M>, k: K, v: V, ms: seq<M>, it: nat): Option<nat> {
    if it == 1 then
      x.seed(k)
    else
      var l := Least(x, x.val(v), ms);
      if l < x.val(v) then Some(l) else None
  }

  /** The messages follow the list of edges, and carry what they should as long as it can be represented. */
  ghost predicate Follows<K, V, E, M>(x: Reading<K, V, E, M>, es: seq<(K, E)>, l: nat, out: seq<(K, M)>) {
    && |out| == |es|
    && (forall i :: 0 <= i < |es| ==>
          && out[i].0 == es[i].0
          && (l + x.weight(es[i].1) <= x.inf ==> x.msg(out[i].1) == l + x.weight(es[i].1)))
  }

  ghost predicate Offers<K, V, E, M>(
      x: Reading<K, V, E, M>, out: (Option<V>, seq<(K, M)>), better: Option<nat>, es: seq<(K, E)>)
  {
    match better
    case None => out.0.None? && out.1 == []
    case Some(l) => out.0.Some? && x.val(out.0.value) == l && Follows(x, es, l, out.1)
  }

  /** The outcome is well formed for the next superstep, but for offers that cannot be represented. */
  ghost predicate StaysOk<K, V, E, M, S>(
      x: Reading<K, V, E, M>, ty: Typing<K, V, M, S>, k: K, v: V, it: nat, better: Option<nat>, es: seq<(K, E)>,
      out: (Option<V>, seq<(K, M)>))
  {
    && ty.okVertex(k, Updated(v, out.0), it + 1)
    && (better.Some? ==>
          forall i :: 0 <= i < |out.1| && i < |es| && better.value + x.weight(es[i].1) <= x.inf ==>
            ty.okMessage(out.1[i].1))
  }

  /** `p` adopts and offers minima. */
  ghost predicate Propagates<K(!new), V(!new), E(!new), M(!new), S>(
      p: Program<K, V, E, M>, x: Reading<K, V, E, M>, ty: Typing<K, V, M, S>)
  {
    forall k: K, v: V, es: seq<(K, E)>, ms: seq<M>, it: nat {:trigger p(k, v, es, ms, it)} ::
      && it >= 1 && ty.okVertex(k, v, it) && OkMessages(ty, ms) && (it == 1 ==> ms == [])
      && (forall i :: 0 <= i < |es| ==> x.okEdge(es[i].1)) ==>
        && Offers(x, p(k, v, es, ms, it), Better(x, k, v, ms, it), es)
        && StaysOk(x, ty, k, v, it, Better(x, k, v, ms, it), es, p(k, v, es, ms, it))
  }

  ghost predicate OkEdges<K(!new), V, E(!new), M>(x: Reading<K, V, E, M>, edges: multiset<Edge<K, E>>) {
    forall e :: e in edges ==> x.okEdge(e.value)
  }

  /** The vertex map before the first superstep holds no labels but those of seeds. */
  ghost predicate Unlabelled<K, V, E, M>(x: Reading<K, V, E, M>, verts: map<K, V>) {
    forall k :: k in verts && x.seed(k).None? ==> x.val(verts[k]) == x.inf
  }

  // ---------------------------------------------------------------------------------------
  // Reference definition of the labels.

  /** A walk from a seed, with the cost of what it carries. */
  ghost predicate Carries<K, V, E, M>(
      x: Reading<K, V, E, M>, vs: set<K>, edges: multiset<Edge<K, E>>, u: K, w: seq<Edge<K, E>>, v: K, c: nat)
  {
    x.seed(u).Some? && IsWalk(vs, edges, u, w, v) && c == x.seed(u).value + Cost(x.weight, w)
  }

  ghost predicate Attained<K(!new), V, E(!new), M>(
      x: Reading<K, V, E, M>, vs: set<K>, edges: multiset<Edge<K, E>>, v: K, length: nat, c: nat)
  {
    exists u, w :: |w| <= length && Carries(x, vs, edges, u, w, v, c)
  }

  ghost predicate Bounds<K(!new), V, E(!new), M>(
      x: Reading<K, V, E, M>, vs: set<K>, edges: multiset<Edge<K, E>>, v: K, length: nat, c: nat)
  {
    forall u, w, d: nat :: |w| <= length && Carries(x, vs, edges, u, w, v, d) ==> c <= d
  }

  /** `c` is the least cost over walks of at most `length` edges to `v`, or inf if there is none. */
  ghost predicate IsLeastWithin<K(!new), V, E(!new), M>(
      x: Reading<K, V, E, M>, vs: set<K>, edges: multiset<Edge<K, E>>, v: K, length: nat, c: nat)
  {
    && c <= x.inf
    && (c < x.inf ==> Attained(x, vs, edges, v, length, c))
    && Bounds(x, vs, edges, v, length, c)
  }

  /** `c` is brought by some walk to `v`, however long, and no walk of at most `length` edges is better. */
  ghost predicate IsAhead<K(!new), V, E(!new), M>(
      x: Reading<K, V, E, M>, vs: set<K>, edges: multiset<Edge<K, E>>, v: K, length: nat, c: nat)
  {
    && c <= x.inf
    && (c < x.inf ==> Brought(x, vs, edges, v, c))
    && Bounds(x, vs, edges, v, length, c)
  }

  ghost predicate Brought<K(!new), V, E(!new), M>(
      x: Reading<K, V, E, M>, vs: set<K>, edges: multiset<Edge<K, E>>, v: K, c: nat)
  {
    exists u, w :: Carries(x, vs, edges, u, w, v, c)
  }

  lemma AttainedIsBrought<K(!new), V, E(!new), M>(
      x: Reading<K, V, E, M>, vs: set<K>, edges: multiset<Edge<K, E>>, v: K, length: nat, c: nat)
    requires Attained(x, vs, edges, v, length, c)
    ensures Brought(x, vs, edges, v, c)
  {
    var u, w :| |w| <= length && Carries(x, vs, edges, u, w, v, c);
  }

  lemma BroughtFurther<K(!new), V, E(!new), M>(
      x: Reading<K, V, E, M>, vs: set<K>, edges: multiset<Edge<K, E>>, e: Edge<K, E>, c: nat)
    requires e in edges && e.src in vs && Brought(x, vs, edges, e.src, c)
    ensures Brought(x, vs, edges, e.dst, c + x.weight(e.value))
  {
    var u, w :| Carries(x, vs, edges, u, w, e.src, c);
    assert (w + [e])[..|w|] == w;
    assert Carries(x, vs, edges, u, w + [e], e.dst, c + x.weight(e.value));
  }

  /** The same over all walks. */
  ghost predicate IsLeast<K(!new), V, E(!new), M>(
      x: Reading<K, V, E, M>, vs: set<K>, edges: multiset<Edge<K, E>>, v: K, c: nat)
  {
    && c <= x.inf
    && (c < x.inf ==> exists u, w :: Carries(x, vs, edges, u, w, v, c))
    && (forall u, w, d: nat :: Carries(x, vs, edges, u, w, v, d) ==> c <= d)
  }

  /** No vertex has, among walks of some bounded length, a least cost that its edges to other vertices
      make too expensive to be represented. */
  ghost predicate InRange<K(!new), V, E(!new), M>(x: Reading<K, V, E, M>, vs: set<K>, edges: multiset<Edge<K, E>>) {
    forall e, length: nat, c: nat ::
      e in edges && e.src in vs && e.dst in vs && c < x.inf && IsLeastWithin(x, vs, edges, e.src, length, c) ==>
        c + x.weight(e.value) <= x.inf
  }

  /** Walks of |V| - 1 edges are as good as any. */
  lemma AheadIsLeast<K(!new), V, E(!new), M>(
      x: Reading<K, V, E, M>, vs: set<K>, edges: multiset<Edge<K, E>>, v: K, length: nat, c: nat)
    requires IsAhead(x, vs, edges, v, length, c)
    requires v in vs && length + 1 >= |vs|
    ensures IsLeast(x, vs, edges, v, c)
  {
    forall u, w, d | Carries(x, vs, edges, u, w, v, d)
      ensures c <= d
    {
      var short := ShortWalk(x.weight, vs, edges, u, w, v);
      assert Carries(x, vs, edges, u, short, v, x.seed(u).value + Cost(x.weight, short));
    }
  }

  lemma LeastIsAhead<K(!new), V, E(!new), M>(
      x: Reading<K, V, E, M>, vs: set<K>, edges: multiset<Edge<K, E>>, v: K, length: nat, c: nat)
    requires IsLeastWithin(x, vs, edges, v, length, c)
    ensures IsAhead(x, vs, edges, v, length, c)
  {
    hide Bounds, Attained, Brought;
    if c < x.inf {
      AttainedIsBrought(x, vs, edges, v, length, c);
    }
  }

  /** A cost attained with `length` edges and below everything attained with fewer is attained by a
      simple walk: a cycle in it could be left out. */
  lemma StrictImprovementIsSimple<K(!new), V, E(!new), M>(
      x: Reading<K, V, E, M>, vs: set<K>, edges: multiset<Edge<K, E>>, v: K, length: nat, old_: nat, c: nat)
    returns (u: K, w: seq<Edge<K, E>>)
    requires v in vs && length >= 1
    requires Bounds(x, vs, edges, v, length - 1, old_) && c < old_
    requires Attained(x, vs, edges, v, length, c)
    ensures Carries(x, vs, edges, u, w, v, c) && Simple(u, w)
    ensures length == |w| < |vs|
  {
    u, w :| |w| <= length && Carries(x, vs, edges, u, w, v, c);
    if !Simple(u, w) {
      var shorter := RemoveCycle(x.weight, vs, edges, u, w, v);
      assert Carries(x, vs, edges, u, shorter, v, x.seed(u).value + Cost(x.weight, shorter));
    }
    SimpleIsShort(vs, edges, u, w, v);
  }

  // ---------------------------------------------------------------------------------------
  // One vertex in one superstep.

  ghost function Label<K, V, E, M>(x: Reading<K, V, E, M>, st: State<K, V, M>, k: K): nat
    requires k in st.verts
  {
    x.val(st.verts[k])
  }

  /** `out` offers `l`, plus the weight, along exactly the out-edges of `k` that lead to vertices. */
  ghost predicate OffersAlong<K(!new), V, E(!new), M(!new)>(
      x: Reading<K, V, E, M>, edges: multiset<Edge<K, E>>, vs: set<K>, k: K, l: nat, out: seq<(K, M)>)
  {
    && (forall e :: e in edges && e.src == k && e.dst in vs ==> OfferFor(x, out, e, l))
    && (forall i :: 0 <= i < |out| && out[i].0 in vs ==> OfferFrom(x, edges, k, l, out[i].0, out[i].1))
  }

  ghost predicate OfferFor<K, V, E, M>(x: Reading<K, V, E, M>, out: seq<(K, M)>, e: Edge<K, E>, l: nat) {
    exists i :: 0 <= i < |out| && out[i].0 == e.dst && x.msg(out[i].1) == l + x.weight(e.value)
  }

  ghost predicate OfferFrom<K(!new), V, E(!new), M>(
      x: Reading<K, V, E, M>, edges: multiset<Edge<K, E>>, k: K, l: nat, t: K, m: M)
  {
    exists e :: e in edges && e.src == k && e.dst == t && x.msg(m) == l + x.weight(e.value)
  }

  /** What the program makes of a vertex whose label becomes `better`. */
  ghost predicate MovesTo<K(!new), V, E(!new), M(!new)>(
      x: Reading<K, V, E, M>, edges: multiset<Edge<K, E>>, vs: set<K>, k: K, better: Option<nat>,
      out: (Option<V>, seq<(K, M)>))
  {
    match better
    case None => out.0.None? && out.1 == []
    case Some(l) => out.0.Some? && x.val(out.0.value) == l && OffersAlong(x, edges, vs, k, l, out.1)
  }

  /** `es` lists edges out of `k`, and all of them. */
  ghost predicate ListsEdges<K(!new), E(!new)>(edges: multiset<Edge<K, E>>, k: K, es: seq<(K, E)>) {
    && (forall i :: 0 <= i < |es| ==> Edge(k, es[i].0, es[i].1) in edges)
    && (forall e :: e in edges && e.src == k ==> exists i :: 0 <= i < |es| && es[i] == (e.dst, e.value))
  }

  lemma OutEdgeInBag<K(!new), E(!new)>(edges: multiset<Edge<K, E>>, k: K, es: seq<(K, E)>)
    requires multiset(es) == OutEdges(edges, k)
    ensures ListsEdges(edges, k, es)
  {
    var r := OutEdges(edges, k);
    assert AreOutEdges(edges, k, r);
    forall i | 0 <= i < |es|
      ensures Edge(k, es[i].0, es[i].1) in edges
    {
      assert es[i] in multiset(es);
      assert r[es[i]] > 0;
    }
    forall e | e in edges && e.src == k
      ensures exists i :: 0 <= i < |es| && es[i] == (e.dst, e.value)
    {
      assert r[(e.dst, e.value)] == edges[Edge(k, e.dst, e.value)];
      assert (e.dst, e.value) in multiset(es);
    }
  }

  lemma EveryEdgeIsOffered<K(!new), V(!new), E(!new), M(!new)>(
      x: Reading<K, V, E, M>, edges: multiset<Edge<K, E>>, k: K, l: nat, es: seq<(K, E)>, out: seq<(K, M)>,
      e: Edge<K, E>)
    requires ListsEdges(edges, k, es) && Follows(x, es, l, out)
    requires e in edges && e.src == k && l + x.weight(e.value) <= x.inf
    ensures OfferFor(x, out, e, l)
  {
    var i :| 0 <= i < |es| && es[i] == (e.dst, e.value);
    hide ListsEdges;
    assert out[i].0 == e.dst;
  }

  lemma EveryOfferHasAnEdge<K(!new), V(!new), E(!new), M(!new)>(
      x: Reading<K, V, E, M>, edges: multiset<Edge<K, E>>, vs: set<K>, k: K, l: nat, es: seq<(K, E)>,
      out: seq<(K, M)>, i: nat)
    requires ListsEdges(edges, k, es) && Follows(x, es, l, out) && Affordable(x, edges, vs, k, Some(l))
    requires i < |out| && out[i].0 in vs
    ensures OfferFrom(x, edges, k, l, out[i].0, out[i].1)
  {
    var e := Edge(k, es[i].0, es[i].1);
    assert e in edges;
    hide ListsEdges;
    assert out[i].0 == e.dst && x.msg(out[i].1) == l + x.weight(e.value);
  }

  lemma OffersAreAlong<K(!new), V(!new), E(!new), M(!new)>(
      x: Reading<K, V, E, M>, edges: multiset<Edge<K, E>>, vs: set<K>, k: K, better: Option<nat>,
      es: seq<(K, E)>, out: (Option<V>, seq<(K, M)>))
    requires ListsEdges(edges, k, es)
    requires Offers(x, out, better, es)
    requires Affordable(x, edges, vs, k, better)
    ensures MovesTo(x, edges, vs, k, better, out)
  {
    hide ListsEdges, OfferFor, OfferFrom;
    if better.Some? {
      var l := better.value;
      forall e | e in edges && e.src == k && e.dst in vs
        ensures OfferFor(x, out.1, e, l)
      {
        EveryEdgeIsOffered(x, edges, k, l, es, out.1, e);
      }
      forall i | 0 <= i < |out.1| && out.1[i].0 in vs
        ensures OfferFrom(x, edges, k, l, out.1[i].0, out.1[i].1)
      {
        EveryOfferHasAnEdge(x, edges, vs, k, l, es, out.1, i);
      }
    }
  }

  /** What is sent to vertices is well formed. */
  ghost predicate SendsOk<K, V, M, S>(
      ty: Typing<K, V, M, S>, vs: set<K>, k: K, v: V, it: nat, out: (Option<V>, seq<(K, M)>))
  {
    && ty.okVertex(k, Updated(v, out.0), it + 1)
    && (forall i :: 0 <= i < |out.1| && out.1[i].0 in vs ==> ty.okMessage(out.1[i].1))
  }

  lemma OffersAreOk<K(!new), V(!new), E(!new), M(!new), S>(
      x: Reading<K, V, E, M>, ty: Typing<K, V, M, S>, edges: multiset<Edge<K, E>>, vs: set<K>, k: K, v: V, it: nat,
      better: Option<nat>, es: seq<(K, E)>, out: (Option<V>, seq<(K, M)>))
    requires ListsEdges(edges, k, es) && Offers(x, out, better, es) && StaysOk(x, ty, k, v, it, better, es, out)
    requires Affordable(x, edges, vs, k, better)
    ensures SendsOk(ty, vs, k, v, it, out)
  {
    if better.Some? {
      forall i | 0 <= i < |out.1| && out.1[i].0 in vs
        ensures ty.okMessage(out.1[i].1)
      {
        assert Edge(k, es[i].0, es[i].1) in edges;
      }
    }
  }

  lemma ListedEdgesOk<K(!new), V(!new), E(!new), M(!new)>(
      x: Reading<K, V, E, M>, edges: multiset<Edge<K, E>>, k: K, es: seq<(K, E)>)
    requires ListsEdges(edges, k, es) && OkEdges(x, edges)
    ensures forall i :: 0 <= i < |es| ==> x.okEdge(es[i].1)
  {
    forall i | 0 <= i < |es|
      ensures x.okEdge(es[i].1)
    {
      assert Edge(k, es[i].0, es[i].1) in edges;
    }
  }

  ghost function Received<K(!new), V, M(!new)>(st: State<K, V, M>, k: K): seq<M> {
    SeqOf(MessagesTo(st.pool, k))
  }

  ghost function Adopts<K(!new), V, E, M(!new)>(
      x: Reading<K, V, E, M>, st: State<K, V, M>, it: nat, k: K): Option<nat>
    requires k in st.verts
  {
    Better(x, k, st.verts[k], Received(st, k), it)
  }

  /** The offers of an adopted label to vertices can be represented. */
  ghost predicate Affordable<K(!new), V(!new), E(!new), M(!new)>(
      x: Reading<K, V, E, M>, edges: multiset<Edge<K, E>>, vs: set<K>, k: K, better: Option<nat>)
  {
    better.Some? ==>
      forall e :: e in edges && e.src == k && e.dst in vs ==> better.value + x.weight(e.value) <= x.inf
  }

  ghost predicate AllAffordable<K(!new), V(!new), E(!new), M(!new)>(
      x: Reading<K, V, E, M>, edges: multiset<Edge<K, E>>, st: State<K, V, M>, it: nat)
  {
    forall k :: k in st.verts ==> Affordable(x, edges, st.verts.Keys, k, Adopts(x, st, it, k))
  }

  /** Vertices, and messages to vertices, are well formed. */
  ghost predicate OkInside<K(!new), V, M(!new), S>(ty: Typing<K, V, M, S>, st: State<K, V, M>, it: nat) {
    && (forall k :: k in st.verts ==> ty.okVertex(k, st.verts[k], it))
    && (forall t, m {:trigger st.pool[(t, m)]} :: (t, m) in st.pool && t in st.verts ==> ty.okMessage(m))
  }

  lemma OkReceived<K(!new), V(!new), M(!new), S>(ty: Typing<K, V, M, S>, st: State<K, V, M>, it: nat, k: K)
    requires OkInside(ty, st, it) && k in st.verts
    ensures OkMessages(ty, Received(st, k))
  {
    ReceivedExactly(st, k);
    var ms := Received(st, k);
    hide Received;
    forall i | 0 <= i < |ms|
      ensures ty.okMessage(ms[i])
    {
      assert ms[i] in ms;
      assert st.pool[(k, ms[i])] > 0;
    }
  }

  lemma VertexMoves<K(!new), V(!new), E(!new), M(!new), S>(
      p: Program<K, V, E, M>, x: Reading<K, V, E, M>, ty: Typing<K, V, M, S>,
      edges: multiset<Edge<K, E>>, st: State<K, V, M>, it: nat, k: K)
    requires Propagates(p, x, ty) && OkInside(ty, st, it) && it >= 1
    requires k in st.verts && OkEdges(x, edges)
    requires it == 1 ==> st.pool == multiset{}
    requires Affordable(x, edges, st.verts.Keys, k, Adopts(x, st, it, k))
    ensures MovesTo(x, edges, st.verts.Keys, k, Adopts(x, st, it, k), Compute(p, edges, st, it, k))
    ensures SendsOk(ty, st.verts.Keys, k, st.verts[k], it, Compute(p, edges, st, it, k))
  {
    var es, ms := SeqOf(OutEdges(edges, k)), Received(st, k);
    OkReceived(ty, st, it, k);
    ReceivedExactly(st, k);
    hide OkMessages, Better;
    OutEdgeInBag(edges, k, es);
    ListedEdgesOk(x, edges, k, es);
    hide OutEdges;
    assert Offers(x, p(k, st.verts[k], es, ms, it), Adopts(x, st, it, k), es);
    assert StaysOk(x, ty, k, st.verts[k], it, Adopts(x, st, it, k), es, Compute(p, edges, st, it, k));
    hide Propagates, Offers, StaysOk, Affordable;
    OffersAreAlong(x, edges, st.verts.Keys, k, Adopts(x, st, it, k), es, Compute(p, edges, st, it, k));
    OffersAreOk(x, ty, edges, st.verts.Keys, k, st.verts[k], it, Adopts(x, st, it, k), es,
                Compute(p, edges, st, it, k));
  }

  lemma ReceivedExactly<K(!new), V(!new), M(!new)>(st: State<K, V, M>, k: K)
    ensures forall m :: m in Received(st, k) <==> (k, m) in st.pool
    ensures st.pool == multiset{} ==> Received(st, k) == []
  {
    var bag := MessagesTo(st.pool, k);
    assert AreMessagesTo(st.pool, k, bag);
    assert Arranges(Received(st, k), bag);
    forall m
      ensures m in Received(st, k) <==> (k, m) in st.pool
    {
      assert m in Received(st, k) <==> m in multiset(Received(st, k));
      assert bag[m] == st.pool[(k, m)];
    }
    assert st.pool == multiset{} ==> forall m :: m !in Received(st, k);
    assert Received(st, k) != [] ==> Received(st, k)[0] in Received(st, k);
  }

  lemma {:induction false} LeastFacts<K, V, E, M>(x: Reading<K, V, E, M>, bound: nat, ms: seq<M>)
    ensures Least(x, bound, ms) <= bound
    ensures forall i :: 0 <= i < |ms| ==> Least(x, bound, ms) <= x.msg(ms[i])
    ensures Least(x, bound, ms) == bound || exists i :: 0 <= i < |ms| && x.msg(ms[i]) == Least(x, bound, ms)
  {
    if ms != [] {
      var front := ms[..|ms| - 1];
      LeastFacts(x, bound, front);
      if Least(x, bound, front) != bound {
        var i :| 0 <= i < |front| && x.msg(front[i]) == Least(x, bound, front);
        assert ms[i] == front[i];
      }
      assert forall i :: 0 <= i < |front| ==> front[i] == ms[i];
    }
  }

  // ---------------------------------------------------------------------------------------
  // The superstep as a whole.

  ghost predicate Offered<K, V, E, M(!new)>(x: Reading<K, V, E, M>, st: State<K, V, M>, t: K, c: nat) {
    exists m :: (t, m) in st.pool && x.msg(m) == c
  }

  /** The successor's label already accounts for the edge, or an offer along it is on its way. */
  ghost predicate EdgeCovered<K, V, E, M(!new)>(x: Reading<K, V, E, M>, st: State<K, V, M>, e: Edge<K, E>)
    requires e.src in st.verts && e.dst in st.verts
  {
    Label(x, st, e.src) < x.inf ==>
      || Label(x, st, e.dst) <= Label(x, st, e.src) + x.weight(e.value)
      || Offered(x, st, e.dst, Label(x, st, e.src) + x.weight(e.value))
  }

  /** A message in flight is an offer of its sender's current label. */
  ghost predicate Justified<K(!new), V, E(!new), M>(
      x: Reading<K, V, E, M>, edges: multiset<Edge<K, E>>, st: State<K, V, M>, t: K, m: M)
  {
    exists e :: && e in edges && e.src in st.verts && e.dst == t
                && Label(x, st, e.src) < x.inf && x.msg(m) == Label(x, st, e.src) + x.weight(e.value)
  }

  /** The state after a superstep whose labels are at least as good as walks of at most `length` edges. */
  ghost predicate Ahead<K(!new), V(!new), E(!new), M(!new)>(
      x: Reading<K, V, E, M>, edges: multiset<Edge<K, E>>, vs: set<K>, st: State<K, V, M>, length: nat)
  {
    && st.verts.Keys == vs
    && (forall k :: k in st.verts ==> IsAhead(x, vs, edges, k, length, Label(x, st, k)))
    && (forall e :: e in edges && e.src in st.verts && e.dst in st.verts ==> EdgeCovered(x, st, e))
    && (forall t, m {:trigger st.pool[(t, m)]} ::
          (t, m) in st.pool && t in st.verts ==> Justified(x, edges, st, t, m))
  }

  /** The labels are exactly the least over such walks. */
  ghost predicate Settled<K(!new), V(!new), E(!new), M(!new)>(
      x: Reading<K, V, E, M>, edges: multiset<Edge<K, E>>, vs: set<K>, st: State<K, V, M>, length: nat)
  {
    && Ahead(x, edges, vs, st, length)
    && (forall k :: k in st.verts ==> IsLeastWithin(x, vs, edges, k, length, Label(x, st, k)))
  }

  /** Every vertex moves to the label it adopts. */
  ghost predicate AllMove<K(!new), V(!new), E(!new), M(!new)>(
      p: Program<K, V, E, M>, x: Reading<K, V, E, M>, edges: multiset<Edge<K, E>>, st: State<K, V, M>, it: nat)
  {
    forall k :: k in st.verts ==>
      MovesTo(x, edges, st.verts.Keys, k, Adopts(x, st, it, k), Compute(p, edges, st, it, k))
  }

  ghost predicate AllOk<K(!new), V(!new), E(!new), M(!new), S>(
      p: Program<K, V, E, M>, ty: Typing<K, V, M, S>, edges: multiset<Edge<K, E>>, st: State<K, V, M>, it: nat)
  {
    forall k :: k in st.verts ==> SendsOk(ty, st.verts.Keys, k, st.verts[k], it, Compute(p, edges, st, it, k))
  }

  lemma OkNext<K(!new), V(!new), E(!new), M(!new), S>(
      p: Program<K, V, E, M>, ty: Typing<K, V, M, S>, edges: multiset<Edge<K, E>>, st: State<K, V, M>, it: nat,
      next: nat)
    requires AllOk(p, ty, edges, st, it) && next == it + 1
    ensures OkInside(ty, Superstep(p, edges, st, it), next)
  {
    hide Compute, CollectAll;
    var after := Superstep(p, edges, st, it);
    forall k | k in after.verts
      ensures ty.okVertex(k, after.verts[k], next)
    {
      assert SendsOk(ty, st.verts.Keys, k, st.verts[k], it, Compute(p, edges, st, it, k));
    }
    forall t, m | (t, m) in after.pool && t in after.verts
      ensures ty.okMessage(m)
    {
      InFlight(p, edges, st, it, (t, m));
      var u :| u in st.verts && (t, m) in Compute(p, edges, st, it, u).1;
      var out := Compute(p, edges, st, it, u);
      assert SendsOk(ty, st.verts.Keys, u, st.verts[u], it, out);
      var i :| 0 <= i < |out.1| && out.1[i] == (t, m);
    }
  }

  lemma NextLabel<K(!new), V(!new), E(!new), M(!new)>(
      p: Program<K, V, E, M>, x: Reading<K, V, E, M>, edges: multiset<Edge<K, E>>, st: State<K, V, M>, it: nat, k: K)
    requires AllMove(p, x, edges, st, it)
    ensures Superstep(p, edges, st, it).verts.Keys == st.verts.Keys
    ensures k in st.verts ==>
              Label(x, Superstep(p, edges, st, it), k) == NextOf(x, st, it, k)
  {
    hide Sends, Compute, Adopts;
    if k in st.verts {
      assert MovesTo(x, edges, st.verts.Keys, k, Adopts(x, st, it, k), Compute(p, edges, st, it, k));
    }
  }

  /** Whatever is in flight to a vertex afterwards was offered by a vertex that adopted a label. */
  lemma NextPoolJustified<K(!new), V(!new), E(!new), M(!new)>(
      p: Program<K, V, E, M>, x: Reading<K, V, E, M>, edges: multiset<Edge<K, E>>, st: State<K, V, M>, it: nat,
      t: K, m: M)
    returns (e: Edge<K, E>)
    requires AllMove(p, x, edges, st, it)
    requires (t, m) in Superstep(p, edges, st, it).pool && t in st.verts
    ensures e in edges && e.src in st.verts && e.dst == t
    ensures Adopts(x, st, it, e.src).Some?
    ensures x.msg(m) == Adopts(x, st, it, e.src).value + x.weight(e.value)
  {
    InFlight(p, edges, st, it, (t, m));
    hide Superstep, Compute, Adopts, OfferFor;
    var u :| u in st.verts && (t, m) in Compute(p, edges, st, it, u).1;
    var out := Compute(p, edges, st, it, u);
    assert MovesTo(x, edges, st.verts.Keys, u, Adopts(x, st, it, u), out);
    var i :| 0 <= i < |out.1| && out.1[i] == (t, m);
    assert OfferFrom(x, edges, u, Adopts(x, st, it, u).value, out.1[i].0, out.1[i].1);
    e :| e in edges && e.src == u && e.dst == t
         && x.msg(m) == Adopts(x, st, it, u).value + x.weight(e.value);
  }

  /** A vertex that adopted a label offers it along all its edges to vertices. */
  lemma NextPoolOffers<K(!new), V(!new), E(!new), M(!new)>(
      p: Program<K, V, E, M>, x: Reading<K, V, E, M>, edges: multiset<Edge<K, E>>, st: State<K, V, M>, it: nat,
      e: Edge<K, E>)
    requires AllMove(p, x, edges, st, it)
    requires e in edges && e.src in st.verts && e.dst in st.verts && Adopts(x, st, it, e.src).Some?
    ensures Offered(x, Superstep(p, edges, st, it), e.dst, Adopts(x, st, it, e.src).value + x.weight(e.value))
  {
    hide Superstep, Compute, Adopts, OfferFrom;
    var out := Compute(p, edges, st, it, e.src);
    var l := Adopts(x, st, it, e.src).value;
    assert MovesTo(x, edges, st.verts.Keys, e.src, Adopts(x, st, it, e.src), out);
    assert OfferFor(x, out.1, e, l);
    var i :| 0 <= i < |out.1| && out.1[i].0 == e.dst && x.msg(out.1[i].1) == l + x.weight(e.value);
    var m := out.1[i].1;
    assert out.1[i] == (e.dst, m);
    InFlight(p, edges, st, it, (e.dst, m));
  }

  // ---------------------------------------------------------------------------------------
  // Why the labels are right.

  lemma Extend<K(!new), V, E(!new), M>(
      x: Reading<K, V, E, M>, vs: set<K>, edges: multiset<Edge<K, E>>, e: Edge<K, E>, length: nat, c: nat)
    requires e in edges && e.src in vs && Attained(x, vs, edges, e.src, length, c)
    ensures Attained(x, vs, edges, e.dst, length + 1, c + x.weight(e.value))
  {
    var u, w :| |w| <= length && Carries(x, vs, edges, u, w, e.src, c);
    assert (w + [e])[..|w|] == w;
    assert Carries(x, vs, edges, u, w + [e], e.dst, c + x.weight(e.value));
  }

  /** What a vertex receives is brought by a walk, of one more edge than its sender's label. */
  lemma MessageBrought<K(!new), V(!new), E(!new), M(!new)>(
      x: Reading<K, V, E, M>, edges: multiset<Edge<K, E>>, vs: set<K>, st: State<K, V, M>, length: nat, t: K, m: M)
    requires Ahead(x, edges, vs, st, length) && (t, m) in st.pool && t in st.verts
    ensures Brought(x, vs, edges, t, x.msg(m))
    ensures Settled(x, edges, vs, st, length) ==> Attained(x, vs, edges, t, length + 1, x.msg(m))
  {
    assert st.pool[(t, m)] > 0;
    assert Justified(x, edges, st, t, m);
    var e :| && e in edges && e.src in st.verts && e.dst == t
             && Label(x, st, e.src) < x.inf && x.msg(m) == Label(x, st, e.src) + x.weight(e.value);
    assert IsAhead(x, vs, edges, e.src, length, Label(x, st, e.src));
    assert Settled(x, edges, vs, st, length) ==> IsLeastWithin(x, vs, edges, e.src, length, Label(x, st, e.src));
    hide Attained, Brought, Bounds, EdgeCovered, Ahead, Settled;
    BroughtFurther(x, vs, edges, e, Label(x, st, e.src));
    if Settled(x, edges, vs, st, length) {
      Extend(x, vs, edges, e, length, Label(x, st, e.src));
    }
  }

  /** An adopted label is new, below the old one, and brought by a walk. */
  lemma AdoptedLabel<K(!new), V(!new), E(!new), M(!new)>(
      x: Reading<K, V, E, M>, edges: multiset<Edge<K, E>>, vs: set<K>, st: State<K, V, M>, length: nat, it: nat, k: K)
    requires Ahead(x, edges, vs, st, length) && it >= 2 && k in st.verts
    ensures Adopts(x, st, it, k).Some? ==>
              && Adopts(x, st, it, k).value < Label(x, st, k)
              && Brought(x, vs, edges, k, Adopts(x, st, it, k).value)
              && (Settled(x, edges, vs, st, length) ==>
                    Attained(x, vs, edges, k, length + 1, Adopts(x, st, it, k).value))
    ensures forall m :: (k, m) in st.pool ==> NextOf(x, st, it, k) <= x.msg(m)
  {
    var ms := Received(st, k);
    ReceivedExactly(st, k);
    LeastFacts(x, Label(x, st, k), ms);
    hide Attained, Brought, Received, Least, Settled, Ahead;
    if Adopts(x, st, it, k).Some? {
      var i :| 0 <= i < |ms| && x.msg(ms[i]) == Adopts(x, st, it, k).value;
      assert ms[i] in ms;
      MessageBrought(x, edges, vs, st, length, k, ms[i]);
    }
  }

  /** The label of `k` after superstep `it`. */
  ghost function NextOf<K(!new), V, E, M(!new)>(x: Reading<K, V, E, M>, st: State<K, V, M>, it: nat, k: K): nat
    requires k in st.verts
  {
    if Adopts(x, st, it, k).Some? then Adopts(x, st, it, k).value else Label(x, st, k)
  }

  /** The new labels account for walks that may be one edge longer. */
  lemma LabelStaysAhead<K(!new), V(!new), E(!new), M(!new)>(
      x: Reading<K, V, E, M>, edges: multiset<Edge<K, E>>, vs: set<K>,
      st: State<K, V, M>, length: nat, it: nat, k: K)
    requires Ahead(x, edges, vs, st, length) && it >= 2 && k in st.verts
    ensures IsAhead(x, vs, edges, k, length + 1, NextOf(x, st, it, k))
  {
    AdoptedLabel(x, edges, vs, st, length, it, k);
    hide Adopts, Settled, Brought;
    var l := NextOf(x, st, it, k);
    assert IsAhead(x, vs, edges, k, length, Label(x, st, k));
    forall u, w, d: nat | |w| <= length + 1 && Carries(x, vs, edges, u, w, k, d)
      ensures l <= d
    {
      if |w| == length + 1 {
        LastEdgeBounds(x, edges, vs, st, length, k, l, u, w, d);
      }
    }
  }

  /** And are least over them if the old ones were. */
  lemma LabelStaysLeast<K(!new), V(!new), E(!new), M(!new)>(
      x: Reading<K, V, E, M>, edges: multiset<Edge<K, E>>, vs: set<K>,
      st: State<K, V, M>, length: nat, it: nat, k: K)
    requires Settled(x, edges, vs, st, length) && it >= 2 && k in st.verts
    ensures IsLeastWithin(x, vs, edges, k, length + 1, NextOf(x, st, it, k))
  {
    AdoptedLabel(x, edges, vs, st, length, it, k);
    LabelStaysAhead(x, edges, vs, st, length, it, k);
    assert IsLeastWithin(x, vs, edges, k, length, Label(x, st, k));
    hide Adopts, Settled, Ahead, Bounds, Brought;
    var l := NextOf(x, st, it, k);
    if l < x.inf && l == Label(x, st, k) {
      var u, w :| |w| <= length && Carries(x, vs, edges, u, w, k, l);
    }
  }

  /** A walk that uses its last allowed edge is bounded by the label at the edge's source. */
  lemma LastEdgeBounds<K(!new), V(!new), E(!new), M(!new)>(
      x: Reading<K, V, E, M>, edges: multiset<Edge<K, E>>, vs: set<K>, st: State<K, V, M>, length: nat,
      k: K, l: nat, u: K, w: seq<Edge<K, E>>, d: nat)
    requires Ahead(x, edges, vs, st, length) && k in st.verts
    requires l <= Label(x, st, k) && l <= x.inf
    requires forall m :: (k, m) in st.pool ==> l <= x.msg(m)
    requires |w| == length + 1 && Carries(x, vs, edges, u, w, k, d)
    ensures l <= d
  {
    var e, front := w[|w| - 1], w[..|w| - 1];
    assert IsAhead(x, vs, edges, e.src, length, Label(x, st, e.src));
    assert Carries(x, vs, edges, u, front, e.src, x.seed(u).value + Cost(x.weight, front));
    assert EdgeCovered(x, st, e);
    hide Brought, Justified;
  }

  /** A label is adopted only if a simple walk brings it. */
  lemma AdoptedIsShort<K(!new), V(!new), E(!new), M(!new)>(
      x: Reading<K, V, E, M>, edges: multiset<Edge<K, E>>, vs: set<K>, st: State<K, V, M>, length: nat, it: nat, k: K)
    requires Settled(x, edges, vs, st, length) && it >= 2 && k in st.verts
    ensures Adopts(x, st, it, k).Some? ==> length + 1 < |vs|
  {
    AdoptedLabel(x, edges, vs, st, length, it, k);
    if Adopts(x, st, it, k).Some? {
      assert IsLeastWithin(x, vs, edges, k, length, Label(x, st, k));
      hide Settled, Adopts, Bounds;
      var u, w := StrictImprovementIsSimple(x, vs, edges, k, length + 1, Label(x, st, k), Adopts(x, st, it, k).value);
    }
  }

  /** In range, the offers of adopted labels can be represented. */
  lemma AdoptedIsAffordable<K(!new), V(!new), E(!new), M(!new)>(
      x: Reading<K, V, E, M>, edges: multiset<Edge<K, E>>, vs: set<K>, st: State<K, V, M>, length: nat, it: nat)
    requires Settled(x, edges, vs, st, length) && it >= 2 && InRange(x, vs, edges)
    ensures AllAffordable(x, edges, st, it)
  {
    hide Adopts, InRange;
    forall k | k in st.verts
      ensures Affordable(x, edges, st.verts.Keys, k, Adopts(x, st, it, k))
    {
      LabelStaysLeast(x, edges, vs, st, length, it, k);
      AdoptedLabel(x, edges, vs, st, length, it, k);
      SettledLabel(x, edges, vs, st, length, k);
      hide Settled, Attained, Bounds;
      LeastIsAffordable(x, edges, vs, k, length + 1, Adopts(x, st, it, k));
    }
  }

  lemma LeastIsAffordable<K(!new), V(!new), E(!new), M(!new)>(
      x: Reading<K, V, E, M>, edges: multiset<Edge<K, E>>, vs: set<K>, k: K, length: nat, better: Option<nat>)
    requires InRange(x, vs, edges) && k in vs
    requires better.Some? ==> better.value < x.inf && IsLeastWithin(x, vs, edges, k, length, better.value)
    ensures Affordable(x, edges, vs, k, better)
  {
    hide IsLeastWithin;
  }

  lemma SettledLabel<K(!new), V(!new), E(!new), M(!new)>(
      x: Reading<K, V, E, M>, edges: multiset<Edge<K, E>>, vs: set<K>, st: State<K, V, M>, length: nat, k: K)
    requires Settled(x, edges, vs, st, length) && k in vs
    ensures k in st.verts && IsLeastWithin(x, vs, edges, k, length, Label(x, st, k)) && st.verts.Keys == vs
  {
    hide IsLeastWithin, IsAhead, EdgeCovered, Justified;
  }

  lemma StepMoves<K(!new), V(!new), E(!new), M(!new), S>(
      p: Program<K, V, E, M>, x: Reading<K, V, E, M>, ty: Typing<K, V, M, S>,
      edges: multiset<Edge<K, E>>, st: State<K, V, M>, it: nat)
    requires Propagates(p, x, ty) && OkInside(ty, st, it) && it >= 1 && (it == 1 ==> st.pool == multiset{})
    requires AllAffordable(x, edges, st, it) && OkEdges(x, edges)
    ensures AllMove(p, x, edges, st, it)
    ensures AllOk(p, ty, edges, st, it)
  {
    hide Propagates, OkInside, Adopts, Compute, MovesTo, Affordable, SendsOk, OkEdges;
    forall k | k in st.verts
      ensures MovesTo(x, edges, st.verts.Keys, k, Adopts(x, st, it, k), Compute(p, edges, st, it, k))
      ensures SendsOk(ty, st.verts.Keys, k, st.verts[k], it, Compute(p, edges, st, it, k))
    {
      VertexMoves(p, x, ty, edges, st, it, k);
    }
  }

  /** One superstep lengthens the walks that are accounted for by one edge. */
  lemma AheadStep<K(!new), V(!new), E(!new), M(!new)>(
      p: Program<K, V, E, M>, x: Reading<K, V, E, M>, edges: multiset<Edge<K, E>>, vs: set<K>,
      st: State<K, V, M>, length: nat, longer: nat, it: nat)
    requires Ahead(x, edges, vs, st, length) && it >= 2 && longer == length + 1
    requires AllMove(p, x, edges, st, it)
    ensures Ahead(x, edges, vs, Superstep(p, edges, st, it), longer)
  {
    var next := Superstep(p, edges, st, it);
    hide AllMove, Superstep, IsAhead, EdgeCovered, Justified, NextOf;
    NextKeys(p, edges, st, it);
    forall k | k in st.verts
      ensures IsAhead(x, vs, edges, k, longer, Label(x, next, k))
    {
      LabelStaysAhead(x, edges, vs, st, length, it, k);
      NextLabel(p, x, edges, st, it, k);
    }
    forall e | e in edges && e.src in st.verts && e.dst in st.verts
      ensures EdgeCovered(x, next, e)
    {
      EdgeStaysCovered(p, x, edges, vs, st, length, it, e);
    }
    forall t, m | (t, m) in next.pool && t in next.verts
      ensures Justified(x, edges, next, t, m)
    {
      OfferIsCurrent(p, x, edges, vs, st, length, it, t, m);
    }
  }

  lemma SettledStep<K(!new), V(!new), E(!new), M(!new)>(
      p: Program<K, V, E, M>, x: Reading<K, V, E, M>, edges: multiset<Edge<K, E>>, vs: set<K>,
      st: State<K, V, M>, length: nat, longer: nat, it: nat)
    requires Settled(x, edges, vs, st, length) && it >= 2 && longer == length + 1
    requires AllMove(p, x, edges, st, it)
    ensures Settled(x, edges, vs, Superstep(p, edges, st, it), longer)
  {
    var next := Superstep(p, edges, st, it);
    hide AllMove, Superstep, IsLeastWithin, Ahead, NextOf;
    AheadStep(p, x, edges, vs, st, length, longer, it);
    NextKeys(p, edges, st, it);
    forall k | k in st.verts
      ensures IsLeastWithin(x, vs, edges, k, longer, Label(x, next, k))
    {
      LabelStaysLeast(x, edges, vs, st, length, it, k);
      NextLabel(p, x, edges, st, it, k);
    }
  }

  lemma NextKeys<K(!new), V(!new), E(!new), M(!new)>(
      p: Program<K, V, E, M>, edges: multiset<Edge<K, E>>, st: State<K, V, M>, it: nat)
    ensures Superstep(p, edges, st, it).verts.Keys == st.verts.Keys
  {
  }

  lemma SettledKeys<K(!new), V(!new), E(!new), M(!new)>(
      x: Reading<K, V, E, M>, edges: multiset<Edge<K, E>>, vs: set<K>, st: State<K, V, M>, length: nat)
    requires Settled(x, edges, vs, st, length)
    ensures st.verts.Keys == vs
  {
  }

  lemma EdgeStaysCovered<K(!new), V(!new), E(!new), M(!new)>(
      p: Program<K, V, E, M>, x: Reading<K, V, E, M>, edges: multiset<Edge<K, E>>, vs: set<K>,
      st: State<K, V, M>, length: nat, it: nat, e: Edge<K, E>)
    requires Ahead(x, edges, vs, st, length) && it >= 2
    requires AllMove(p, x, edges, st, it)
    requires e in edges && e.src in st.verts && e.dst in st.verts
    ensures e.src in Superstep(p, edges, st, it).verts && e.dst in Superstep(p, edges, st, it).verts
    ensures EdgeCovered(x, Superstep(p, edges, st, it), e)
  {
    NextLabel(p, x, edges, st, it, e.src);
    NextLabel(p, x, edges, st, it, e.dst);
    AdoptedLabel(x, edges, vs, st, length, it, e.src);
    AdoptedLabel(x, edges, vs, st, length, it, e.dst);
    assert EdgeCovered(x, st, e);
    if Adopts(x, st, it, e.src).Some? {
      NextPoolOffers(p, x, edges, st, it, e);
    }
    hide Adopts, AllMove, Ahead, Settled, Superstep, Attained, Brought;
  }

  lemma OfferIsCurrent<K(!new), V(!new), E(!new), M(!new)>(
      p: Program<K, V, E, M>, x: Reading<K, V, E, M>, edges: multiset<Edge<K, E>>, vs: set<K>,
      st: State<K, V, M>, length: nat, it: nat, t: K, m: M)
    requires Ahead(x, edges, vs, st, length) && it >= 2
    requires AllMove(p, x, edges, st, it)
    requires (t, m) in Superstep(p, edges, st, it).pool && t in st.verts
    ensures Justified(x, edges, Superstep(p, edges, st, it), t, m)
  {
    var e := NextPoolJustified(p, x, edges, st, it, t, m);
    NextLabel(p, x, edges, st, it, e.src);
    AdoptedLabel(x, edges, vs, st, length, it, e.src);
    assert IsAhead(x, vs, edges, e.src, length, Label(x, st, e.src));
    hide Adopts, AllMove, Ahead, Settled, Superstep, Attained, Brought, Bounds;
  }

  // ---------------------------------------------------------------------------------------
  // The first superstep.

  /** The label that every vertex begins with is below inf. */
  ghost predicate SeedsFit<K, V, E, M>(x: Reading<K, V, E, M>, vs: set<K>) {
    forall k :: k in vs && x.seed(k).Some? ==> x.seed(k).value < x.inf
  }

  lemma FirstLabels<K(!new), V(!new), E(!new), M(!new)>(
      x: Reading<K, V, E, M>, edges: multiset<Edge<K, E>>, verts: map<K, V>, k: K)
    requires SeedsFit(x, verts.Keys) && Unlabelled(x, verts) && k in verts
    ensures IsLeastWithin(x, verts.Keys, edges, k, 0,
                          (if x.seed(k).Some? then x.seed(k).value else x.val(verts[k])))
  {
    if x.seed(k).Some? {
      assert Carries(x, verts.Keys, edges, k, [], k, x.seed(k).value);
    }
  }

  lemma SeedsAreAffordable<K(!new), V(!new), E(!new), M(!new)>(
      x: Reading<K, V, E, M>, edges: multiset<Edge<K, E>>, verts: map<K, V>)
    requires InRange(x, verts.Keys, edges) && SeedsFit(x, verts.Keys) && Unlabelled(x, verts)
    ensures AllAffordable(x, edges, Start(verts), 1)
  {
    hide InRange, Unlabelled, IsLeastWithin;
    forall k | k in verts
      ensures Affordable(x, edges, verts.Keys, k, x.seed(k))
    {
      FirstLabels(x, edges, verts, k);
      LeastIsAffordable(x, edges, verts.Keys, k, 0, x.seed(k));
    }
  }

  lemma FirstStepLabels<K(!new), V(!new), E(!new), M(!new)>(
      p: Program<K, V, E, M>, x: Reading<K, V, E, M>, edges: multiset<Edge<K, E>>, verts: map<K, V>, k: K)
    requires AllMove(p, x, edges, Start(verts), 1)
    requires SeedsFit(x, verts.Keys) && Unlabelled(x, verts) && k in verts
    ensures k in Superstep(p, edges, Start(verts), 1).verts
    ensures x.seed(k).Some? ==>
              x.seed(k).value < x.inf && Label(x, Superstep(p, edges, Start(verts), 1), k) == x.seed(k).value
    ensures x.seed(k).None? ==> Label(x, Superstep(p, edges, Start(verts), 1), k) == x.inf
    ensures IsLeastWithin(x, verts.Keys, edges, k, 0, Label(x, Superstep(p, edges, Start(verts), 1), k))
  {
    hide AllMove, Superstep;
    NextLabel(p, x, edges, Start(verts), 1, k);
    FirstLabels(x, edges, verts, k);
    hide IsLeastWithin;
  }

  lemma FirstStepCovers<K(!new), V(!new), E(!new), M(!new)>(
      p: Program<K, V, E, M>, x: Reading<K, V, E, M>, edges: multiset<Edge<K, E>>, verts: map<K, V>, e: Edge<K, E>)
    requires AllMove(p, x, edges, Start(verts), 1)
    requires SeedsFit(x, verts.Keys) && Unlabelled(x, verts)
    requires e in edges && e.src in verts && e.dst in verts
    ensures e.src in Superstep(p, edges, Start(verts), 1).verts && e.dst in Superstep(p, edges, Start(verts), 1).verts
    ensures EdgeCovered(x, Superstep(p, edges, Start(verts), 1), e)
  {
    hide AllMove, Superstep, SeedsFit, Unlabelled, IsLeastWithin, Offered;
    FirstStepLabels(p, x, edges, verts, e.src);
    FirstStepLabels(p, x, edges, verts, e.dst);
    if x.seed(e.src).Some? {
      NextPoolOffers(p, x, edges, Start(verts), 1, e);
    }
  }

  lemma FirstStepJustifies<K(!new), V(!new), E(!new), M(!new)>(
      p: Program<K, V, E, M>, x: Reading<K, V, E, M>, edges: multiset<Edge<K, E>>, verts: map<K, V>, t: K, m: M)
    requires AllMove(p, x, edges, Start(verts), 1)
    requires SeedsFit(x, verts.Keys) && Unlabelled(x, verts)
    requires (t, m) in Superstep(p, edges, Start(verts), 1).pool && t in verts
    ensures Justified(x, edges, Superstep(p, edges, Start(verts), 1), t, m)
  {
    hide AllMove, Superstep, SeedsFit, Unlabelled, IsLeastWithin;
    var e := NextPoolJustified(p, x, edges, Start(verts), 1, t, m);
    FirstStepLabels(p, x, edges, verts, e.src);
  }

  lemma FirstStepSettles<K(!new), V(!new), E(!new), M(!new)>(
      p: Program<K, V, E, M>, x: Reading<K, V, E, M>, edges: multiset<Edge<K, E>>, verts: map<K, V>)
    requires AllMove(p, x, edges, Start(verts), 1)
    requires SeedsFit(x, verts.Keys) && Unlabelled(x, verts)
    ensures Settled(x, edges, verts.Keys, Superstep(p, edges, Start(verts), 1), 0)
  {
    var next := Superstep(p, edges, Start(verts), 1);
    hide AllMove, Superstep, SeedsFit, Unlabelled, IsLeastWithin, EdgeCovered, Justified;
    NextKeys(p, edges, Start(verts), 1);
    forall k | k in verts
      ensures IsLeastWithin(x, verts.Keys, edges, k, 0, Label(x, next, k))
    {
      FirstStepLabels(p, x, edges, verts, k);
    }
    forall e | e in edges && e.src in verts && e.dst in verts
      ensures EdgeCovered(x, next, e)
    {
      FirstStepCovers(p, x, edges, verts, e);
    }
    forall t, m | (t, m) in next.pool && t in next.verts
      ensures Justified(x, edges, next, t, m)
    {
      FirstStepJustifies(p, x, edges, verts, t, m);
    }
  }

  // ---------------------------------------------------------------------------------------
  // Whole runs.

  /** What a job of this kind must provide. */
  ghost predicate Provides<K(!new), V(!new), E(!new), M(!new), S>(
      p: Program<K, V, E, M>, x: Reading<K, V, E, M>, ty: Typing<K, V, M, S>,
      edges: multiset<Edge<K, E>>, verts: map<K, V>)
  {
    && Propagates(p, x, ty)
    && OkStart(ty, verts) && Unlabelled(x, verts)
    && SeedsFit(x, verts.Keys) && OkEdges(x, edges)
  }

  ghost predicate Suitable<K(!new), V(!new), E(!new), M(!new), S>(
      p: Program<K, V, E, M>, x: Reading<K, V, E, M>, ty: Typing<K, V, M, S>,
      edges: multiset<Edge<K, E>>, verts: map<K, V>)
  {
    Provides(p, x, ty, edges, verts) && InRange(x, verts.Keys, edges)
  }

  lemma FirstStep<K(!new), V(!new), E(!new), M(!new), S>(
      p: Program<K, V, E, M>, x: Reading<K, V, E, M>, ty: Typing<K, V, M, S>,
      edges: multiset<Edge<K, E>>, verts: map<K, V>)
    requires Provides(p, x, ty, edges, verts) && AllAffordable(x, edges, Start(verts), 1)
    ensures AllMove(p, x, edges, Start(verts), 1)
    ensures Settled(x, edges, verts.Keys, Superstep(p, edges, Start(verts), 1), 0)
    ensures OkInside(ty, Superstep(p, edges, Start(verts), 1), 2)
  {
    assert OkInside(ty, Start<K, V, M>(verts), 1) by {
      hide Propagates, Unlabelled, OkEdges;
    }
    hide AllMove, AllOk, Settled, Superstep, SeedsFit, Propagates, Unlabelled, OkStart, OkInside, OkEdges,
      AllAffordable;
    StepMoves(p, x, ty, edges, Start(verts), 1);
    OkNext(p, ty, edges, Start(verts), 1, 2);
    FirstStepSettles(p, x, edges, verts);
  }

  lemma LaterStep<K(!new), V(!new), E(!new), M(!new), S>(
      p: Program<K, V, E, M>, x: Reading<K, V, E, M>, ty: Typing<K, V, M, S>,
      edges: multiset<Edge<K, E>>, verts: map<K, V>, st: State<K, V, M>, length: nat, longer: nat, it: nat)
    requires Provides(p, x, ty, edges, verts) && OkInside(ty, st, it) && AllAffordable(x, edges, st, it)
    requires Settled(x, edges, verts.Keys, st, length) && it >= 2 && longer == length + 1
    ensures AllMove(p, x, edges, st, it)
    ensures Settled(x, edges, verts.Keys, Superstep(p, edges, st, it), longer)
    ensures longer >= |verts| ==> Silent(Superstep(p, edges, st, it))
    ensures OkInside(ty, Superstep(p, edges, st, it), it + 1)
  {
    hide AllMove, AllOk, Settled, Superstep, SeedsFit, Propagates, Unlabelled, OkStart, OkInside, Adopts, OkEdges,
      AllAffordable;
    StepMoves(p, x, ty, edges, st, it);
    OkNext(p, ty, edges, st, it, it + 1);
    SettledStep(p, x, edges, verts.Keys, st, length, longer, it);
    SettledKeys(x, edges, verts.Keys, st, length);
    if longer >= |verts| {
      assert |verts.Keys| == |verts|;
      forall k | k in st.verts
        ensures Adopts(x, st, it, k).None?
      {
        AdoptedIsShort(x, edges, verts.Keys, st, length, it, k);
      }
      NothingInFlight(p, x, edges, st, it);
    }
  }

  /** Every offer of the first `k` supersteps to a vertex can be represented. */
  ghost predicate AffordableUpTo<K(!new), V(!new), E(!new), M(!new)>(
      p: Program<K, V, E, M>, x: Reading<K, V, E, M>, edges: multiset<Edge<K, E>>, verts: map<K, V>, k: nat)
  {
    forall j: nat {:trigger AffordableAt(p, x, edges, verts, j)} :: j < k ==> AffordableAt(p, x, edges, verts, j)
  }

  ghost predicate AffordableAt<K(!new), V(!new), E(!new), M(!new)>(
      p: Program<K, V, E, M>, x: Reading<K, V, E, M>, edges: multiset<Edge<K, E>>, verts: map<K, V>, j: nat)
  {
    AllAffordable(x, edges, After(Bulk(p, edges), Start(verts), j), j + 1)
  }

  lemma {:induction false} LabelsWhileAffordable<K(!new), V(!new), E(!new), M(!new), S>(
      p: Program<K, V, E, M>, x: Reading<K, V, E, M>, ty: Typing<K, V, M, S>,
      edges: multiset<Edge<K, E>>, verts: map<K, V>, k: nat, length: nat)
    requires Provides(p, x, ty, edges, verts) && AffordableUpTo(p, x, edges, verts, k)
    requires k == length + 1
    ensures Settled(x, edges, verts.Keys, After(Bulk(p, edges), Start(verts), k), length)
    ensures OkInside(ty, After(Bulk(p, edges), Start(verts), k), k + 1)
  {
    hide *;
    var st := After(Bulk(p, edges), Start(verts), length);
    BulkAfter(p, edges, Start(verts), length, k);
    AffordableBefore(p, x, edges, verts, k, length);
    if length == 0 {
      StartIsAfterNothing(p, edges, verts);
      FirstStep(p, x, ty, edges, verts);
    } else {
      LabelsWhileAffordable(p, x, ty, edges, verts, length, length - 1);
      LaterStep(p, x, ty, edges, verts, st, length - 1, length, k);
    }
  }

  lemma {:induction false} AffordableBefore<K(!new), V(!new), E(!new), M(!new)>(
      p: Program<K, V, E, M>, x: Reading<K, V, E, M>, edges: multiset<Edge<K, E>>, verts: map<K, V>, k: nat, j: nat)
    requires AffordableUpTo(p, x, edges, verts, k) && k == j + 1
    ensures AffordableUpTo(p, x, edges, verts, j)
    ensures AllAffordable(x, edges, After(Bulk(p, edges), Start(verts), j), k)
  {
    hide AllAffordable, Bulk;
    assert AffordableAt(p, x, edges, verts, j);
  }

  /** In range, they always can. */
  lemma {:induction false} InRangeIsAffordable<K(!new), V(!new), E(!new), M(!new), S>(
      p: Program<K, V, E, M>, x: Reading<K, V, E, M>, ty: Typing<K, V, M, S>,
      edges: multiset<Edge<K, E>>, verts: map<K, V>, k: nat)
    requires Suitable(p, x, ty, edges, verts)
    ensures AffordableUpTo(p, x, edges, verts, k)
  {
    hide AllAffordable, InRange, Propagates, OkStart, Unlabelled, SeedsFit, OkEdges, AffordableAt, Settled, OkInside;
    if k > 0 {
      InRangeIsAffordable(p, x, ty, edges, verts, k - 1);
      NextIsAffordable(p, x, ty, edges, verts, k - 1);
    }
  }

  lemma NextIsAffordable<K(!new), V(!new), E(!new), M(!new), S>(
      p: Program<K, V, E, M>, x: Reading<K, V, E, M>, ty: Typing<K, V, M, S>,
      edges: multiset<Edge<K, E>>, verts: map<K, V>, j: nat)
    requires Suitable(p, x, ty, edges, verts) && AffordableUpTo(p, x, edges, verts, j)
    ensures AffordableAt(p, x, edges, verts, j)
  {
    hide AllAffordable, InRange, Propagates, OkStart, Unlabelled, SeedsFit, OkEdges, Settled, OkInside, Bulk,
      AffordableUpTo;
    if j == 0 {
      StartIsAfterNothing(p, edges, verts);
      SeedsAreAffordable(x, edges, verts);
    } else {
      LabelsWhileAffordable(p, x, ty, edges, verts, j, j - 1);
      AdoptedIsAffordable(x, edges, verts.Keys, After(Bulk(p, edges), Start(verts), j), j - 1, j + 1);
    }
  }

  /** The superstep invariant: after superstep k the label of every vertex is the least cost over
      walks of at most k - 1 edges, although a vertex sends only when its label dropped. */
  lemma {:induction false} LabelsAfter<K(!new), V(!new), E(!new), M(!new), S>(
      p: Program<K, V, E, M>, x: Reading<K, V, E, M>, ty: Typing<K, V, M, S>,
      edges: multiset<Edge<K, E>>, verts: map<K, V>, k: nat, length: nat)
    requires Suitable(p, x, ty, edges, verts)
    requires k == length + 1
    ensures Settled(x, edges, verts.Keys, After(Bulk(p, edges), Start(verts), k), length)
    ensures OkInside(ty, After(Bulk(p, edges), Start(verts), k), k + 1)
  {
    InRangeIsAffordable(p, x, ty, edges, verts, k);
    hide Provides, InRange, AffordableUpTo, Settled, OkInside, Bulk;
    LabelsWhileAffordable(p, x, ty, edges, verts, k, length);
  }

  lemma StartIsAfterNothing<K(!new), V(!new), E(!new), M(!new)>(
      p: Program<K, V, E, M>, edges: multiset<Edge<K, E>>, verts: map<K, V>)
    ensures After(Bulk(p, edges), Start(verts), 0) == Start(verts)
  {
  }

  /** Superstep |V| + 1 sends nothing, and for |V| = 0 the first one already. */
  lemma {:induction false} SilentAfterAllVertices<K(!new), V(!new), E(!new), M(!new), S>(
      p: Program<K, V, E, M>, x: Reading<K, V, E, M>, ty: Typing<K, V, M, S>,
      edges: multiset<Edge<K, E>>, verts: map<K, V>)
    requires Suitable(p, x, ty, edges, verts)
    ensures Silent(After(Bulk(p, edges), Start(verts), |verts| + 1))
  {
    InRangeIsAffordable(p, x, ty, edges, verts, |verts| + 1);
    SuitableProvides(p, x, ty, edges, verts);
    hide *;
    SilentWhenAffordable(p, x, ty, edges, verts);
  }

  lemma SuitableProvides<K(!new), V(!new), E(!new), M(!new), S>(
      p: Program<K, V, E, M>, x: Reading<K, V, E, M>, ty: Typing<K, V, M, S>,
      edges: multiset<Edge<K, E>>, verts: map<K, V>)
    requires Suitable(p, x, ty, edges, verts)
    ensures Provides(p, x, ty, edges, verts) && InRange(x, verts.Keys, edges)
  {
    hide Provides, InRange;
  }

  lemma {:induction false} SilentWhenAffordable<K(!new), V(!new), E(!new), M(!new), S>(
      p: Program<K, V, E, M>, x: Reading<K, V, E, M>, ty: Typing<K, V, M, S>,
      edges: multiset<Edge<K, E>>, verts: map<K, V>)
    requires Provides(p, x, ty, edges, verts) && AffordableUpTo(p, x, edges, verts, |verts| + 1)
    ensures Silent(After(Bulk(p, edges), Start(verts), |verts| + 1))
  {
    hide *;
    var n, it := |verts|, |verts| + 1;
    var st := After(Bulk(p, edges), Start(verts), n);
    BulkAfter(p, edges, Start(verts), n, it);
    AffordableBefore(p, x, edges, verts, it, n);
    if n == 0 {
      StartIsAfterNothing(p, edges, verts);
      FirstStep(p, x, ty, edges, verts);
      EmptyGraphIsSilent(p, x, edges, verts);
    } else {
      LabelsWhileAffordable(p, x, ty, edges, verts, n, n - 1);
      LaterStep(p, x, ty, edges, verts, st, n - 1, n, it);
    }
  }

  lemma EmptyGraphIsSilent<K(!new), V(!new), E(!new), M(!new)>(
      p: Program<K, V, E, M>, x: Reading<K, V, E, M>, edges: multiset<Edge<K, E>>, verts: map<K, V>)
    requires AllMove(p, x, edges, Start(verts), 1) && |verts| == 0
    ensures Silent(Superstep(p, edges, Start(verts), 1))
  {
    hide AllMove, Superstep;
    NothingInFlight(p, x, edges, Start(verts), 1);
  }

  lemma NothingInFlight<K(!new), V(!new), E(!new), M(!new)>(
      p: Program<K, V, E, M>, x: Reading<K, V, E, M>, edges: multiset<Edge<K, E>>, st: State<K, V, M>, it: nat)
    requires AllMove(p, x, edges, st, it)
    requires forall k :: k in st.verts ==> Adopts(x, st, it, k).None?
    ensures Silent(Superstep(p, edges, st, it))
  {
    hide Superstep, Compute, Adopts, OffersAlong;
    forall u | u in st.verts
      ensures Compute(p, edges, st, it, u).1 == []
    {
      assert MovesTo(x, edges, st.verts.Keys, u, Adopts(x, st, it, u), Compute(p, edges, st, it, u));
    }
    var pool := Superstep(p, edges, st, it).pool;
    forall y
      ensures y !in pool
    {
      InFlight(p, edges, st, it, y);
    }
    assert pool == multiset{};
  }

  /** The final labels of a run with room for |V| supersteps are least over all walks, whether the
      run stopped early or not, and the run takes at most |V| + 1 supersteps. */
  lemma FinalLabels<K(!new), V(!new), E(!new), M(!new), S>(
      p: Program<K, V, E, M>, x: Reading<K, V, E, M>, ty: Typing<K, V, M, S>,
      edges: multiset<Edge<K, E>>, verts: map<K, V>, max: nat)
    requires Suitable(p, x, ty, edges, verts) && Quiescent(p)
    requires max >= 1 && max >= |verts|
    ensures var (end, executed) := Run(Bulk(p, edges), Start(verts), max);
            && end.verts.Keys == verts.Keys
            && executed <= |verts| + 1
            && (forall k :: k in verts ==> IsLeast(x, verts.Keys, edges, k, Label(x, end, k)))
  {
    var m := Bulk(p, edges);
    var end := Run(m, Start(verts), max).0;
    hide Suitable, Settled, IsLeast, IsLeastWithin, IsAhead;
    QuiescentSettles(p, edges);
    EarlyStopIsHarmless(m, Start(verts), max);
    LabelsAfter(p, x, ty, edges, verts, max, max - 1);
    SettledKeys(x, edges, verts.Keys, end, max - 1);
    assert |verts.Keys| == |verts|;
    forall k | k in verts
      ensures IsLeast(x, verts.Keys, edges, k, Label(x, end, k))
    {
      SettledLabel(x, edges, verts.Keys, end, max - 1, k);
      LeastIsAhead(x, verts.Keys, edges, k, max - 1, Label(x, end, k));
      AheadIsLeast(x, verts.Keys, edges, k, max - 1, Label(x, end, k));
    }
    RunLength(p, x, ty, edges, verts, max);
  }

  /** A run takes at most |V| + 1 supersteps, whatever its cap. */
  lemma RunLength<K(!new), V(!new), E(!new), M(!new), S>(
      p: Program<K, V, E, M>, x: Reading<K, V, E, M>, ty: Typing<K, V, M, S>,
      edges: multiset<Edge<K, E>>, verts: map<K, V>, max: nat)
    requires Suitable(p, x, ty, edges, verts)
    ensures var executed := Run(Bulk(p, edges), Start(verts), max).1;
            executed <= max && executed <= |verts| + 1
  {
    var m := Bulk(p, edges);
    hide Suitable;
    SilentAfterAllVertices(p, x, ty, edges, verts);
    RunStops(m, Start(verts), max);
    var executed := Run(m, Start(verts), max).1;
    var last := After(m, Start(verts), |verts| + 1);
    assert m.silent(last) == Silent(last);
    assert !(|verts| + 1 < executed);
  }

  // ---------------------------------------------------------------------------------------
  // Out of range, some offer cannot be represented.

  /** The label after superstep k was adopted in it, or was there before. */
  lemma {:induction false} AdoptedOrKept<K(!new), V(!new), E(!new), M(!new), S>(
      p: Program<K, V, E, M>, x: Reading<K, V, E, M>, ty: Typing<K, V, M, S>,
      edges: multiset<Edge<K, E>>, verts: map<K, V>, j: nat, k: nat, u: K)
    requires Provides(p, x, ty, edges, verts) && AffordableUpTo(p, x, edges, verts, k) && k == j + 1 && u in verts.Keys
    ensures var before, st := After(Bulk(p, edges), Start(verts), j), After(Bulk(p, edges), Start(verts), k);
            && u in st.verts && u in before.verts
            && Label(x, st, u) == NextOf(x, before, k, u)
            && (j == 0 && Adopts(x, before, k, u).None? ==> Label(x, before, u) == x.inf)
  {
    hide *;
    var before := After(Bulk(p, edges), Start(verts), j);
    BulkAfter(p, edges, Start(verts), j, k);
    AffordableBefore(p, x, edges, verts, k, j);
    AfterKeepsKeys(p, edges, verts, j);
    AfterKeepsKeys(p, edges, verts, k);
    if j == 0 {
      StartIsAfterNothing(p, edges, verts);
      FirstStep(p, x, ty, edges, verts);
      SeededLabel(x, p, ty, edges, verts, u);
    } else {
      LabelsWhileAffordable(p, x, ty, edges, verts, j, j - 1);
      LaterStep(p, x, ty, edges, verts, before, j - 1, j, k);
    }
    NextLabel(p, x, edges, before, k, u);
  }

  lemma NextOfIs<K(!new), V(!new), E(!new), M(!new)>(x: Reading<K, V, E, M>, st: State<K, V, M>, it: nat, k: K)
    requires k in st.verts
    ensures NextOf(x, st, it, k) == (if Adopts(x, st, it, k).Some? then Adopts(x, st, it, k).value else Label(x, st, k))
  {
  }

  /** A label below inf was adopted in some superstep. */
  lemma {:induction false} AdoptedOnce<K(!new), V(!new), E(!new), M(!new), S>(
      p: Program<K, V, E, M>, x: Reading<K, V, E, M>, ty: Typing<K, V, M, S>,
      edges: multiset<Edge<K, E>>, verts: map<K, V>, k: nat, u: K, c: nat) returns (j: nat)
    requires Provides(p, x, ty, edges, verts) && AffordableUpTo(p, x, edges, verts, k) && k >= 1
    requires u in verts.Keys && c < x.inf
    requires var st := After(Bulk(p, edges), Start(verts), k); u in st.verts && Label(x, st, u) == c
    ensures j < k
    ensures var st := After(Bulk(p, edges), Start(verts), j);
            u in st.verts && Adopts(x, st, j + 1, u) == Some(c)
  {
    hide *;
    var before := After(Bulk(p, edges), Start(verts), k - 1);
    AdoptedOrKept(p, x, ty, edges, verts, k - 1, k, u);
    NextOfIs(x, before, k, u);
    if Adopts(x, before, k, u).Some? {
      j := k - 1;
    } else {
      AffordableBefore(p, x, edges, verts, k, k - 1);
      j := AdoptedOnce(p, x, ty, edges, verts, k - 1, u, c);
    }
  }

  lemma SeededLabel<K(!new), V(!new), E(!new), M(!new), S>(
      x: Reading<K, V, E, M>, p: Program<K, V, E, M>, ty: Typing<K, V, M, S>, edges: multiset<Edge<K, E>>,
      verts: map<K, V>, u: K)
    requires Provides(p, x, ty, edges, verts) && u in verts
    ensures Adopts(x, Start<K, V, M>(verts), 1, u).None? ==> Label(x, Start<K, V, M>(verts), u) == x.inf
    ensures Start<K, V, M>(verts).verts == verts
  {
    hide Propagates, OkEdges, OkStart;
  }

  lemma {:induction false} OneLeast<K(!new), V, E(!new), M>(
      x: Reading<K, V, E, M>, vs: set<K>, edges: multiset<Edge<K, E>>, v: K, length: nat, c: nat, d: nat)
    requires IsLeastWithin(x, vs, edges, v, length, c) && IsLeastWithin(x, vs, edges, v, length, d)
    ensures c == d
  {
  }

  /** If all offers of all supersteps can be represented, the job is in range. */
  lemma {:induction false} AffordableIsInRange<K(!new), V(!new), E(!new), M(!new), S>(
      p: Program<K, V, E, M>, x: Reading<K, V, E, M>, ty: Typing<K, V, M, S>,
      edges: multiset<Edge<K, E>>, verts: map<K, V>)
    requires Provides(p, x, ty, edges, verts) && forall k: nat :: AffordableUpTo(p, x, edges, verts, k)
    ensures InRange(x, verts.Keys, edges)
  {
    hide Provides, AffordableUpTo, IsLeastWithin, Bulk, Settled, OkInside, Adopts, AllAffordable, Label;
    forall e, length: nat, c: nat |
      e in edges && e.src in verts.Keys && e.dst in verts.Keys && c < x.inf
      && IsLeastWithin(x, verts.Keys, edges, e.src, length, c)
      ensures c + x.weight(e.value) <= x.inf
    {
      var k := length + 1;
      LabelsWhileAffordable(p, x, ty, edges, verts, k, length);
      var st := After(Bulk(p, edges), Start<K, V, M>(verts), k);
      SettledLabel(x, edges, verts.Keys, st, length, e.src);
      OneLeast(x, verts.Keys, edges, e.src, length, c, Label(x, st, e.src));
      var j := AdoptedOnce(p, x, ty, edges, verts, k, e.src, c);
      AfterKeepsKeys(p, edges, verts, j);
      AffordableEarlier(p, x, edges, verts, k, j + 1);
      AdoptedFits(p, x, ty, edges, verts, j, j + 1, e, c);
    }
  }

  lemma AffordableEarlier<K(!new), V(!new), E(!new), M(!new)>(
      p: Program<K, V, E, M>, x: Reading<K, V, E, M>, edges: multiset<Edge<K, E>>, verts: map<K, V>, k: nat, j: nat)
    requires AffordableUpTo(p, x, edges, verts, k) && j <= k
    ensures AffordableUpTo(p, x, edges, verts, j)
  {
    hide AffordableAt;
  }

  lemma {:induction false} AdoptedFits<K(!new), V(!new), E(!new), M(!new), S>(
      p: Program<K, V, E, M>, x: Reading<K, V, E, M>, ty: Typing<K, V, M, S>,
      edges: multiset<Edge<K, E>>, verts: map<K, V>, j: nat, it: nat, e: Edge<K, E>, c: nat)
    requires it == j + 1 && AffordableUpTo(p, x, edges, verts, it) && e in edges && e.dst in verts
    requires var st := After(Bulk(p, edges), Start(verts), j);
             st.verts.Keys == verts.Keys && e.src in st.verts && Adopts(x, st, it, e.src) == Some(c)
    ensures c + x.weight(e.value) <= x.inf
  {
    hide Adopts, Bulk;
    AffordableBefore(p, x, edges, verts, it, j);
  }

  /** Out of range, the offers of some first superstep cannot all be represented: up to then the labels are
      right, and it comes not later than superstep |V|. */
  lemma {:induction false} FirstOverflow<K(!new), V(!new), E(!new), M(!new), S>(
      p: Program<K, V, E, M>, x: Reading<K, V, E, M>, ty: Typing<K, V, M, S>,
      edges: multiset<Edge<K, E>>, verts: map<K, V>) returns (j: nat, e: Edge<K, E>)
    requires Provides(p, x, ty, edges, verts) && !InRange(x, verts.Keys, edges)
    ensures var st := After(Bulk(p, edges), Start(verts), j);
            && j < |verts| && st.verts.Keys == verts.Keys && OkInside(ty, st, j + 1) && (j == 0 ==> st == Start(verts))
            && e in edges && e.src in verts && e.dst in verts && Adopts(x, st, j + 1, e.src).Some?
            && Adopts(x, st, j + 1, e.src).value + x.weight(e.value) > x.inf
  {
    hide Provides, InRange, IsLeastWithin, Bulk, Settled, OkInside, Adopts, AllAffordable;
    assert exists k: nat :: !AffordableUpTo(p, x, edges, verts, k) by {
      if forall k: nat :: AffordableUpTo(p, x, edges, verts, k) {
        AffordableIsInRange(p, x, ty, edges, verts);
      }
    }
    var k: nat :| !AffordableUpTo(p, x, edges, verts, k);
    j := LeastUnaffordable(p, x, edges, verts, k);
    e := OverflowAt(p, x, ty, edges, verts, j, j + 1);
  }

  lemma {:induction false} LeastUnaffordable<K(!new), V(!new), E(!new), M(!new)>(
      p: Program<K, V, E, M>, x: Reading<K, V, E, M>, edges: multiset<Edge<K, E>>, verts: map<K, V>, k: nat)
    returns (j: nat)
    requires !AffordableUpTo(p, x, edges, verts, k)
    ensures AffordableUpTo(p, x, edges, verts, j) && !AffordableAt(p, x, edges, verts, j)
  {
    hide AffordableAt;
    if k > 0 && !AffordableUpTo(p, x, edges, verts, k - 1) {
      j := LeastUnaffordable(p, x, edges, verts, k - 1);
    } else {
      j := k - 1;
    }
  }

  lemma {:induction false} OverflowAt<K(!new), V(!new), E(!new), M(!new), S>(
      p: Program<K, V, E, M>, x: Reading<K, V, E, M>, ty: Typing<K, V, M, S>,
      edges: multiset<Edge<K, E>>, verts: map<K, V>, j: nat, it: nat) returns (e: Edge<K, E>)
    requires Provides(p, x, ty, edges, verts) && it == j + 1
    requires AffordableUpTo(p, x, edges, verts, j) && !AffordableAt(p, x, edges, verts, j)
    ensures var st := After(Bulk(p, edges), Start(verts), j);
            && j < |verts| && st.verts.Keys == verts.Keys && OkInside(ty, st, it) && (j == 0 ==> st == Start(verts))
            && e in edges && e.src in verts && e.dst in verts && Adopts(x, st, it, e.src).Some?
            && Adopts(x, st, it, e.src).value + x.weight(e.value) > x.inf
  {
    hide Bulk, Settled, OkInside, Adopts, AffordableUpTo, Propagates, OkEdges, Unlabelled, SeedsFit;
    var st := After(Bulk(p, edges), Start<K, V, M>(verts), j);
    if j == 0 {
      StartIsAfterNothing(p, edges, verts);
      StartIsOk(ty, verts);
    } else {
      LabelsWhileAffordable(p, x, ty, edges, verts, j, j - 1);
      SettledKeys(x, edges, verts.Keys, st, j - 1);
    }
    var k :| k in st.verts && !Affordable(x, edges, st.verts.Keys, k, Adopts(x, st, it, k));
    e :| e in edges && e.src == k && e.dst in st.verts.Keys
         && Adopts(x, st, it, k).value + x.weight(e.value) > x.inf;
    assert |verts.Keys| == |verts|;
    if j > 0 {
      AdoptedIsShort(x, edges, verts.Keys, st, j - 1, it, k);
    } else {
      assert k in verts.Keys;
    }
  }

  lemma StartIsOk<K(!new), V(!new), M(!new), S>(ty: Typing<K, V, M, S>, verts: map<K, V>)
    requires OkStart(ty, verts)
    ensures OkInside(ty, Start<K, V, M>(verts), 1)
  {
  }

  // ---------------------------------------------------------------------------------------
  // Runs that begin with labels that are ahead of the messages.

  /** Edges add nothing to a label, so every offer can be represented. */
  ghost predicate Weightless<K(!new), V, E(!new), M>(x: Reading<K, V, E, M>, edges: multiset<Edge<K, E>>) {
    forall e :: e in edges ==> x.weight(e.value) == 0
  }

  lemma WeightlessIsAffordable<K(!new), V(!new), E(!new), M(!new)>(
      x: Reading<K, V, E, M>, edges: multiset<Edge<K, E>>, st: State<K, V, M>, it: nat)
    requires Weightless(x, edges) && it >= 2 && forall k :: k in st.verts ==> Label(x, st, k) <= x.inf
    ensures AllAffordable(x, edges, st, it)
  {
    hide Received, Least;
  }

  /** Without messages, every label is least over all walks. */
  lemma {:induction false} SilentBounds<K(!new), V(!new), E(!new), M(!new)>(
      x: Reading<K, V, E, M>, edges: multiset<Edge<K, E>>, vs: set<K>, st: State<K, V, M>, length: nat,
      u: K, w: seq<Edge<K, E>>, v: K, d: nat)
    requires Ahead(x, edges, vs, st, length) && Silent(st) && v in st.verts && Carries(x, vs, edges, u, w, v, d)
    ensures Label(x, st, v) <= d
    decreases |w|
  {
    assert IsAhead(x, vs, edges, v, length, Label(x, st, v));
    if w != [] {
      var e, front := w[|w| - 1], w[..|w| - 1];
      assert Carries(x, vs, edges, u, front, e.src, x.seed(u).value + Cost(x.weight, front));
      SilentBounds(x, edges, vs, st, length, u, front, e.src, x.seed(u).value + Cost(x.weight, front));
      assert EdgeCovered(x, st, e);
      hide Ahead, Brought, Bounds;
    }
  }

  lemma SilentIsLeast<K(!new), V(!new), E(!new), M(!new)>(
      x: Reading<K, V, E, M>, edges: multiset<Edge<K, E>>, vs: set<K>, st: State<K, V, M>, length: nat, v: K)
    requires Ahead(x, edges, vs, st, length) && Silent(st) && v in st.verts
    ensures IsLeast(x, vs, edges, v, Label(x, st, v))
  {
    assert IsAhead(x, vs, edges, v, length, Label(x, st, v));
    hide Ahead, Carries;
    forall u, w, d: nat | Carries(x, vs, edges, u, w, v, d)
      ensures Label(x, st, v) <= d
    {
      SilentBounds(x, edges, vs, st, length, u, w, v, d);
    }
  }

  ghost predicate AllLeast<K(!new), V(!new), E(!new), M(!new)>(
      x: Reading<K, V, E, M>, edges: multiset<Edge<K, E>>, vs: set<K>, st: State<K, V, M>)
  {
    st.verts.Keys == vs && forall k :: k in st.verts ==> IsLeast(x, vs, edges, k, Label(x, st, k))
  }

  lemma AheadEnds<K(!new), V(!new), E(!new), M(!new)>(
      x: Reading<K, V, E, M>, edges: multiset<Edge<K, E>>, vs: set<K>, st: State<K, V, M>, length: nat)
    requires Ahead(x, edges, vs, st, length) && (Silent(st) || length + 1 >= |vs|)
    ensures AllLeast(x, edges, vs, st)
  {
    hide IsAhead, IsLeast, EdgeCovered, Justified;
    forall k | k in st.verts
      ensures IsLeast(x, vs, edges, k, Label(x, st, k))
    {
      if Silent(st) {
        SilentIsLeast(x, edges, vs, st, length, k);
      } else {
        AheadIsLeast(x, vs, edges, k, length, Label(x, st, k));
      }
    }
  }

  /** A step of such a run succeeds. */
  lemma AheadMoves<K(!new), V(!new), E(!new), M(!new), S>(
      p: Program<K, V, E, M>, x: Reading<K, V, E, M>, ty: Typing<K, V, M, S>,
      edges: multiset<Edge<K, E>>, st: State<K, V, M>, it: nat, next: nat)
    requires Propagates(p, x, ty) && OkEdges(x, edges) && Weightless(x, edges)
    requires OkInside(ty, st, it) && it >= 2 && next == it + 1
    requires forall k :: k in st.verts ==> Label(x, st, k) <= x.inf
    ensures AllMove(p, x, edges, st, it) && OkInside(ty, Superstep(p, edges, st, it), next)
  {
    WeightlessIsAffordable(x, edges, st, it);
    hide Propagates, OkEdges, Weightless, OkInside, AllMove, AllAffordable, Superstep, AllOk;
    StepMoves(p, x, ty, edges, st, it);
    OkNext(p, ty, edges, st, it, next);
  }

  lemma AheadBelowInf<K(!new), V(!new), E(!new), M(!new)>(
      x: Reading<K, V, E, M>, edges: multiset<Edge<K, E>>, vs: set<K>, st: State<K, V, M>, length: nat)
    requires Ahead(x, edges, vs, st, length)
    ensures forall k :: k in st.verts ==> Label(x, st, k) <= x.inf
  {
    hide Brought, Bounds, EdgeCovered, Justified;
    forall k | k in st.verts
      ensures Label(x, st, k) <= x.inf
    {
      assert IsAhead(x, vs, edges, k, length, Label(x, st, k));
    }
  }

  lemma {:induction false} AheadRun<K(!new), V(!new), E(!new), M(!new), S>(
      p: Program<K, V, E, M>, x: Reading<K, V, E, M>, ty: Typing<K, V, M, S>,
      edges: multiset<Edge<K, E>>, vs: set<K>, st: State<K, V, M>, length: nat, it: nat, max: nat)
    requires Propagates(p, x, ty) && OkEdges(x, edges) && Weightless(x, edges) && OkInside(ty, st, it)
    requires Ahead(x, edges, vs, st, length) && it == length + 2 && max >= |vs|
    ensures AllLeast(x, edges, vs, RunFrom(Bulk(p, edges), st, it, max).0)
    decreases max + 1 - it
  {
    hide Propagates, OkEdges, Weightless, OkInside, Ahead, AllLeast, AllMove, Superstep;
    if it > max {
      AheadEnds(x, edges, vs, st, length);
    } else {
      var next := Superstep(p, edges, st, it);
      AheadBelowInf(x, edges, vs, st, length);
      AheadMoves(p, x, ty, edges, st, it, it + 1);
      AheadStep(p, x, edges, vs, st, length, length + 1, it);
      assert Bulk(p, edges).step(st, it) == next;
      assert Bulk(p, edges).silent(next) == Silent(next);
      if Silent(next) {
        AheadEnds(x, edges, vs, next, length + 1);
      } else {
        AheadRun(p, x, ty, edges, vs, next, length + 1, it + 1, max);
      }
    }
  }

  /** `st` has the messages of `cut`, and labels that walks bring, at least as good as those of `cut`. */
  ghost predicate Overtakes<K(!new), V(!new), E(!new), M(!new)>(
      x: Reading<K, V, E, M>, edges: multiset<Edge<K, E>>, vs: set<K>, st: State<K, V, M>, cut: State<K, V, M>)
  {
    && st.verts.Keys == cut.verts.Keys == vs && st.pool == cut.pool
    && forall k :: k in st.verts ==>
         Label(x, st, k) <= Label(x, cut, k) && (Label(x, st, k) < x.inf ==> Brought(x, vs, edges, k, Label(x, st, k)))
  }

  /** Every edge will be accounted for: in superstep `it` its target gets to the source's label, or the
      source changes and offers its new one. */
  ghost predicate CatchesUp<K(!new), V(!new), E(!new), M(!new)>(
      x: Reading<K, V, E, M>, edges: multiset<Edge<K, E>>, st: State<K, V, M>, it: nat)
  {
    forall e :: e in edges && e.src in st.verts && e.dst in st.verts && Label(x, st, e.src) < x.inf ==>
      || NextOf(x, st, it, e.dst) <= Label(x, st, e.src) + x.weight(e.value)
      || NextOf(x, st, it, e.src) < Label(x, st, e.src)
  }

  /** With its own labels a cut always does. */
  lemma {:induction false} SettledCatchesUp<K(!new), V(!new), E(!new), M(!new)>(
      x: Reading<K, V, E, M>, edges: multiset<Edge<K, E>>, vs: set<K>, cut: State<K, V, M>, length: nat, it: nat)
    requires Settled(x, edges, vs, cut, length) && it >= 2
    ensures CatchesUp(x, edges, cut, it)
  {
    forall e | e in edges && e.src in cut.verts && e.dst in cut.verts && Label(x, cut, e.src) < x.inf
      ensures NextOf(x, cut, it, e.dst) <= Label(x, cut, e.src) + x.weight(e.value)
    {
      AdoptedLabel(x, edges, vs, cut, length, it, e.dst);
      assert EdgeCovered(x, cut, e);
      hide Settled, Ahead, Adopts, Attained, Brought;
    }
  }

  lemma OvertakenLabel<K(!new), V(!new), E(!new), M(!new)>(
      x: Reading<K, V, E, M>, edges: multiset<Edge<K, E>>, vs: set<K>, st: State<K, V, M>, cut: State<K, V, M>,
      length: nat, it: nat, k: K)
    requires Settled(x, edges, vs, cut, length) && Overtakes(x, edges, vs, st, cut) && it >= 2 && k in st.verts
    ensures IsAhead(x, vs, edges, k, length, Label(x, st, k))
    ensures IsAhead(x, vs, edges, k, length + 1, NextOf(x, st, it, k))
    ensures Adopts(x, st, it, k).Some? ==> Adopts(x, st, it, k).value < Label(x, st, k) <= x.inf
  {
    var ms, l := Received(st, k), NextOf(x, st, it, k);
    ReceivedExactly(st, k);
    LeastFacts(x, Label(x, st, k), ms);
    assert IsAhead(x, vs, edges, k, length, Label(x, cut, k));
    hide Received, Least, Brought;
    if Adopts(x, st, it, k).Some? {
      var i :| 0 <= i < |ms| && x.msg(ms[i]) == Adopts(x, st, it, k).value;
      assert ms[i] in ms;
      MessageBrought(x, edges, vs, cut, length, k, ms[i]);
    }
    hide Adopts;
    forall u, w, d: nat | |w| <= length + 1 && Carries(x, vs, edges, u, w, k, d)
      ensures l <= d
    {
      if |w| == length + 1 {
        LastEdgeBounds(x, edges, vs, cut, length, k, l, u, w, d);
      }
    }
  }

  /** One superstep later nothing of the difference is left. */
  lemma {:induction false} CaughtUp<K(!new), V(!new), E(!new), M(!new)>(
      p: Program<K, V, E, M>, x: Reading<K, V, E, M>, edges: multiset<Edge<K, E>>, vs: set<K>,
      st: State<K, V, M>, cut: State<K, V, M>, length: nat, longer: nat, it: nat)
    requires Settled(x, edges, vs, cut, length) && Overtakes(x, edges, vs, st, cut) && CatchesUp(x, edges, st, it)
    requires AllMove(p, x, edges, st, it) && it >= 2 && longer == length + 1
    ensures Ahead(x, edges, vs, Superstep(p, edges, st, it), longer)
  {
    var next := Superstep(p, edges, st, it);
    hide AllMove, Superstep, IsAhead, EdgeCovered, Justified, Settled, Adopts, Brought;
    NextKeys(p, edges, st, it);
    forall k | k in st.verts
      ensures IsAhead(x, vs, edges, k, longer, Label(x, next, k))
    {
      OvertakenLabel(x, edges, vs, st, cut, length, it, k);
      NextLabel(p, x, edges, st, it, k);
    }
    forall e | e in edges && e.src in st.verts && e.dst in st.verts
      ensures EdgeCovered(x, next, e)
    {
      CaughtUpEdge(p, x, edges, vs, st, cut, length, it, e);
    }
    forall t, m | (t, m) in next.pool && t in next.verts
      ensures Justified(x, edges, next, t, m)
    {
      CaughtUpOffer(p, x, edges, vs, st, cut, length, it, t, m);
    }
  }

  lemma CaughtUpEdge<K(!new), V(!new), E(!new), M(!new)>(
      p: Program<K, V, E, M>, x: Reading<K, V, E, M>, edges: multiset<Edge<K, E>>, vs: set<K>,
      st: State<K, V, M>, cut: State<K, V, M>, length: nat, it: nat, e: Edge<K, E>)
    requires Settled(x, edges, vs, cut, length) && Overtakes(x, edges, vs, st, cut) && CatchesUp(x, edges, st, it)
    requires AllMove(p, x, edges, st, it) && it >= 2 && e in edges && e.src in st.verts && e.dst in st.verts
    ensures e.src in Superstep(p, edges, st, it).verts && e.dst in Superstep(p, edges, st, it).verts
    ensures EdgeCovered(x, Superstep(p, edges, st, it), e)
  {
    NextLabel(p, x, edges, st, it, e.src);
    NextLabel(p, x, edges, st, it, e.dst);
    OvertakenLabel(x, edges, vs, st, cut, length, it, e.src);
    if Adopts(x, st, it, e.src).Some? {
      NextPoolOffers(p, x, edges, st, it, e);
    }
    hide Adopts, AllMove, Settled, Overtakes, Superstep, IsAhead;
  }

  lemma CaughtUpOffer<K(!new), V(!new), E(!new), M(!new)>(
      p: Program<K, V, E, M>, x: Reading<K, V, E, M>, edges: multiset<Edge<K, E>>, vs: set<K>,
      st: State<K, V, M>, cut: State<K, V, M>, length: nat, it: nat, t: K, m: M)
    requires Settled(x, edges, vs, cut, length) && Overtakes(x, edges, vs, st, cut)
    requires AllMove(p, x, edges, st, it) && it >= 2 && (t, m) in Superstep(p, edges, st, it).pool && t in st.verts
    ensures Justified(x, edges, Superstep(p, edges, st, it), t, m)
  {
    var e := NextPoolJustified(p, x, edges, st, it, t, m);
    NextLabel(p, x, edges, st, it, e.src);
    OvertakenLabel(x, edges, vs, st, cut, length, it, e.src);
    hide Adopts, AllMove, Settled, Overtakes, Superstep, IsAhead;
  }

  /** A run that begins with the messages of superstep k and with labels that are already ahead of them
      ends with the least labels, if every edge will be accounted for. */
  lemma {:induction false} OvertakenRun<K(!new), V(!new), E(!new), M(!new), S>(
      p: Program<K, V, E, M>, x: Reading<K, V, E, M>, ty: Typing<K, V, M, S>,
      edges: multiset<Edge<K, E>>, vs: set<K>, st: State<K, V, M>, cut: State<K, V, M>, length: nat, it: nat, max: nat)
    requires Propagates(p, x, ty) && OkEdges(x, edges) && Weightless(x, edges) && OkInside(ty, st, it)
    requires Settled(x, edges, vs, cut, length) && Overtakes(x, edges, vs, st, cut) && CatchesUp(x, edges, st, it)
    requires it == length + 2 && max >= |vs|
    ensures AllLeast(x, edges, vs, RunFrom(Bulk(p, edges), st, it, max).0)
  {
    hide Propagates, OkEdges, Weightless, OkInside, Ahead, AllMove, Superstep, Settled, CatchesUp, IsAhead, IsLeast,
      Adopts, NextOf, Brought;
    forall k | k in st.verts
      ensures Label(x, st, k) <= x.inf
      ensures it > max ==> IsLeast(x, vs, edges, k, Label(x, st, k))
    {
      OvertakenLabel(x, edges, vs, st, cut, length, it, k);
      AheadBelow(x, vs, edges, k, length, Label(x, st, k));
      if it > max {
        AheadIsLeast(x, vs, edges, k, length, Label(x, st, k));
      }
    }
    if it <= max {
      hide Overtakes, AllLeast;
      var next := Superstep(p, edges, st, it);
      AheadMoves(p, x, ty, edges, st, it, it + 1);
      CaughtUp(p, x, edges, vs, st, cut, length, length + 1, it);
      assert Bulk(p, edges).step(st, it) == next;
      assert Bulk(p, edges).silent(next) == Silent(next);
      if Silent(next) {
        AheadEnds(x, edges, vs, next, length + 1);
      } else {
        AheadRun(p, x, ty, edges, vs, next, length + 1, it + 1, max);
      }
    }
  }

  lemma AheadBelow<K(!new), V(!new), E(!new), M(!new)>(
      x: Reading<K, V, E, M>, vs: set<K>, edges: multiset<Edge<K, E>>, v: K, length: nat, c: nat)
    requires IsAhead(x, vs, edges, v, length, c)
    ensures c <= x.inf
  {
  }
}
