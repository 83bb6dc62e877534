/** The reference semantics: bulk-synchronous supersteps over one unpartitioned graph.

    A state is the vertex map plus the pool of messages in flight. One superstep runs the vertex
    program once on every vertex, with exactly the messages addressed to it, and replaces the
    pool by everything that was sent; messages to absent vertices are dropped with the old pool.
    Nothing here mentions workers, channels, batches or the order in which vertices are visited:
    every engine of the repository is proved against this module.
 */
module Bsp {
  import opened Options
  import opened Bags
  import opened Runs

  datatype Edge<+K, +E> = Edge(src: K, dst: K, value: E)

  /** (id, value, out-edges, messages, superstep) to (new value if any, messages sent). */
  type Program<!K, !V, !E, !M> =
    (K, V, seq<(K, E)>, seq<M>, nat) -> (Option<V>, seq<(K, M)>)

  datatype State<K(==), V, M(==)> = State(verts: map<K, V>, pool: multiset<(K, M)>)

  ghost predicate AreOutEdges<K(!new), E(!new)>(
      edges: multiset<Edge<K, E>>, k: K, r: multiset<(K, E)>)
  {
    forall x {:trigger r[x]} :: r[x] == edges[Edge(k, x.0, x.1)]
  }

  /** The out-edges of `k`, as (target, value) pairs. */
  ghost function OutEdges<K(!new), E(!new)>(edges: multiset<Edge<K, E>>, k: K): multiset<(K, E)> {
    OutEdgesExist(edges, k);
    var r :| AreOutEdges(edges, k, r);
    r
  }

  lemma {:induction false} OutEdgesExist<K(!new), E(!new)>(edges: multiset<Edge<K, E>>, k: K)
    ensures exists r :: AreOutEdges(edges, k, r)
    decreases |edges|
  {
    if edges == multiset{} {
      assert AreOutEdges(edges, k, multiset{});
    } else {
      var x :| x in edges;
      OutEdgesExist(edges - multiset{x}, k);
      var rest :| AreOutEdges(edges - multiset{x}, k, rest);
      var r := if x.src == k then rest + multiset{(x.dst, x.value)} else rest;
      assert AreOutEdges(edges, k, r);
    }
  }

  ghost predicate AreMessagesTo<K(!new), M(!new)>(pool: multiset<(K, M)>, k: K, r: multiset<M>) {
    forall m {:trigger r[m]} :: r[m] == pool[(k, m)]
  }

  /** The messages of the pool that are addressed to `k`. */
  ghost function MessagesTo<K(!new), M(!new)>(pool: multiset<(K, M)>, k: K): multiset<M> {
    MessagesToExist(pool, k);
    var r :| AreMessagesTo(pool, k, r);
    r
  }

  lemma {:induction false} MessagesToExist<K(!new), M(!new)>(pool: multiset<(K, M)>, k: K)
    ensures exists r :: AreMessagesTo(pool, k, r)
    decreases |pool|
  {
    if pool == multiset{} {
      assert AreMessagesTo(pool, k, multiset{});
    } else {
      var x :| x in pool;
      MessagesToExist(pool - multiset{x}, k);
      var rest :| AreMessagesTo(pool - multiset{x}, k, rest);
      var r := if x.0 == k then rest + multiset{x.1} else rest;
      assert AreMessagesTo(pool, k, r);
    }
  }

  function Updated<V>(value: V, update: Option<V>): V {
    if update.Some? then update.value else value
  }

  ghost function Compute<K(!new), V, E(!new), M(!new)>(
      p: Program<K, V, E, M>, edges: multiset<Edge<K, E>>, st: State<K, V, M>, it: nat, k: K)
    : (Option<V>, seq<(K, M)>)
    requires k in st.verts
  {
    p(k, st.verts[k], SeqOf(OutEdges(edges, k)), SeqOf(MessagesTo(st.pool, k)), it)
  }

  ghost function NewVerts<K(!new), V, E(!new), M(!new)>(
      p: Program<K, V, E, M>, edges: multiset<Edge<K, E>>, st: State<K, V, M>, it: nat)
    : map<K, V>
  {
    map k | k in st.verts :: Updated(st.verts[k], Compute(p, edges, st, it, k).0)
  }

  ghost function Sends<K(!new), V, E(!new), M(!new)>(
      p: Program<K, V, E, M>, edges: multiset<Edge<K, E>>, st: State<K, V, M>, it: nat)
    : map<K, multiset<(K, M)>>
  {
    map k | k in st.verts :: multiset(Compute(p, edges, st, it, k).1)
  }

  ghost function Superstep<K(!new), V, E(!new), M(!new)>(
      p: Program<K, V, E, M>, edges: multiset<Edge<K, E>>, st: State<K, V, M>, it: nat)
    : State<K, V, M>
  {
    State(NewVerts(p, edges, st, it), CollectAll(Sends(p, edges, st, it)))
  }

  ghost function Start<K, V, M>(verts: map<K, V>): State<K, V, M> {
    State(verts, multiset{})
  }

  ghost predicate Silent<K, V, M>(st: State<K, V, M>) {
    st.pool == multiset{}
  }

  ghost predicate IsBulk<K(!new), V(!new), E(!new), M(!new)>(
      p: Program<K, V, E, M>, edges: multiset<Edge<K, E>>, m: Machine<State<K, V, M>>)
  {
    && (forall st, it {:trigger Superstep(p, edges, st, it)} :: m.step(st, it) == Superstep(p, edges, st, it))
    && (forall st {:trigger Silent(st)} :: m.silent(st) == Silent(st))
  }

  /** The reference machine of a program on an edge set. */
  ghost function Bulk<K(!new), V(!new), E(!new), M(!new)>(
      p: Program<K, V, E, M>, edges: multiset<Edge<K, E>>): Machine<State<K, V, M>>
  {
    BulkExists(p, edges);
    var m :| IsBulk(p, edges, m);
    m
  }

  lemma BulkExists<K(!new), V(!new), E(!new), M(!new)>(p: Program<K, V, E, M>, edges: multiset<Edge<K, E>>)
    ensures exists m :: IsBulk(p, edges, m)
  {
    var m := Machine((st, it) => Superstep(p, edges, st, it), st => Silent(st));
    assert IsBulk(p, edges, m);
  }

  lemma {:induction false} BulkAfter<K(!new), V(!new), E(!new), M(!new)>(
      p: Program<K, V, E, M>, edges: multiset<Edge<K, E>>, st: State<K, V, M>, j: nat, k: nat)
    requires k == j + 1
    ensures After(Bulk(p, edges), st, k) == Superstep(p, edges, After(Bulk(p, edges), st, j), k)
    ensures Bulk(p, edges).silent(st) == Silent(st)
  {
    hide Superstep;
  }

  /** One pass of the loop. */
  lemma {:induction false} RunNext<K(!new), V(!new), E(!new), M(!new)>(
      p: Program<K, V, E, M>, edges: multiset<Edge<K, E>>, st: State<K, V, M>, it: nat, max: nat)
    ensures var next := Superstep(p, edges, st, it);
            RunFrom(Bulk(p, edges), st, it, max)
            == if it > max then (st, it - 1)
               else if next.pool == multiset{} then (next, it)
               else RunFrom(Bulk(p, edges), next, it + 1, max)
  {
    hide Superstep;
    var next := Superstep(p, edges, st, it);
    assert Silent(next) <==> next.pool == multiset{};
  }

  // ---------------------------------------------------------------------------------------
  // What an engine needs to know about a vertex function.

  /** A vertex function as the engines hold it: it carries mutable state and may fail. */
  datatype Alg<!K, !V, !E, !M, !S> = Alg(
    init: S,
    compute: (S, K, V, seq<(K, E)>, seq<M>, nat) -> Option<(S, Option<V>, seq<(K, M)>)>)

  /** What is known of the data at each superstep: which hidden states a vertex function may be
      in before a vertex is computed, and which vertex values and messages are well formed. */
  datatype Typing<!K, !V, !M, !S> = Typing(
    ready: (S, nat) -> bool,
    okVertex: (K, V, nat) -> bool,
    okMessage: M -> bool)

  ghost predicate OkMessages<K, V, M, S>(ty: Typing<K, V, M, S>, ms: seq<M>) {
    forall i :: 0 <= i < |ms| ==> ty.okMessage(ms[i])
  }

  /** On well-formed data the stateful function never fails and is observed as `p`. */
  ghost predicate Behaves<K(!new), V(!new), E(!new), M(!new), S(!new)>(
      alg: Alg<K, V, E, M, S>, p: Program<K, V, E, M>, ty: Typing<K, V, M, S>)
  {
    && ty.ready(alg.init, 1)
    && forall s, k, v, es, ms, it {:trigger alg.compute(s, k, v, es, ms, it)} ::
        it >= 1 && ty.ready(s, it) && ty.okVertex(k, v, it) && OkMessages(ty, ms) ==>
          var r := alg.compute(s, k, v, es, ms, it);
          && r.Some?
          && (r.value.1, r.value.2) == p(k, v, es, ms, it)
          && ty.ready(r.value.0, it)
          && ty.ready(r.value.0, it + 1)
  }

  /** The program maps well-formed data to well-formed data. */
  ghost predicate KeepsTyping<K(!new), V(!new), E(!new), M(!new), S>(
      p: Program<K, V, E, M>, ty: Typing<K, V, M, S>)
  {
    forall k, v, es, ms, it {:trigger p(k, v, es, ms, it)} ::
      it >= 1 && ty.okVertex(k, v, it) && OkMessages(ty, ms) ==>
        var out := p(k, v, es, ms, it);
        && ty.okVertex(k, Updated(v, out.0), it + 1)
        && (forall i :: 0 <= i < |out.1| ==> ty.okMessage(out.1[i].1))
  }

  /** Neither the order of the messages nor that of the out-edges matters. */
  ghost predicate OrderInsensitive<K(!new), V(!new), E(!new), M(!new), S>(
      p: Program<K, V, E, M>, ty: Typing<K, V, M, S>)
  {
    forall k, v, es, es', ms, ms', it {:trigger p(k, v, es, ms, it), p(k, v, es', ms', it)} ::
      && it >= 1 && ty.okVertex(k, v, it) && OkMessages(ty, ms)
      && multiset(es) == multiset(es') && multiset(ms) == multiset(ms') ==>
        && p(k, v, es, ms, it).0 == p(k, v, es', ms', it).0
        && multiset(p(k, v, es, ms, it).1) == multiset(p(k, v, es', ms', it).1)
  }

  /** The hypothesis under which every engine is shown to compute the reference semantics. */
  ghost predicate Admissible<K(!new), V(!new), E(!new), M(!new), S(!new)>(
      alg: Alg<K, V, E, M, S>, p: Program<K, V, E, M>, ty: Typing<K, V, M, S>)
  {
    Behaves(alg, p, ty) && KeepsTyping(p, ty) && OrderInsensitive(p, ty)
  }

  ghost predicate OkState<K(!new), V, M(!new), S>(ty: Typing<K, V, M, S>, st: State<K, V, M>, it: nat) {
    && (forall k :: k in st.verts ==> ty.okVertex(k, st.verts[k], it))
    && (forall x {:trigger st.pool[x]} :: x in st.pool ==> ty.okMessage(x.1))
  }

  /** The initial vertex values are well formed for the first superstep. */
  ghost predicate OkStart<K(!new), V, M, S>(ty: Typing<K, V, M, S>, verts: map<K, V>) {
    forall k :: k in verts ==> ty.okVertex(k, verts[k], 1)
  }

  lemma OkMessagesOfBag<K(!new), V, M(!new), S>(
      ty: Typing<K, V, M, S>, st: State<K, V, M>, it: nat, k: K, ms: seq<M>)
    requires OkState(ty, st, it)
    requires multiset(ms) == MessagesTo(st.pool, k)
    ensures OkMessages(ty, ms)
  {
    forall i | 0 <= i < |ms|
      ensures ty.okMessage(ms[i])
    {
      assert ms[i] in multiset(ms);
      assert st.pool[(k, ms[i])] > 0;
    }
  }

  /** Whatever order an engine presents edges and messages in, it computes what the reference
      semantics computes. */
  lemma AnyOrder<K(!new), V(!new), E(!new), M(!new), S>(
      p: Program<K, V, E, M>, ty: Typing<K, V, M, S>, edges: multiset<Edge<K, E>>,
      st: State<K, V, M>, it: nat, k: K, es: seq<(K, E)>, ms: seq<M>)
    requires OrderInsensitive(p, ty) && OkState(ty, st, it) && it >= 1
    requires k in st.verts
    requires multiset(es) == OutEdges(edges, k)
    requires multiset(ms) == MessagesTo(st.pool, k)
    ensures OkMessages(ty, ms)
    ensures p(k, st.verts[k], es, ms, it).0 == Compute(p, edges, st, it, k).0
    ensures multiset(p(k, st.verts[k], es, ms, it).1) == multiset(Compute(p, edges, st, it, k).1)
  {
    OkMessagesOfBag(ty, st, it, k, ms);
  }

  /** The pool after a superstep holds exactly what some vertex sent. */
  lemma InFlight<K(!new), V, E(!new), M(!new)>(
      p: Program<K, V, E, M>, edges: multiset<Edge<K, E>>, st: State<K, V, M>, it: nat, x: (K, M))
    ensures x in Superstep(p, edges, st, it).pool <==>
            exists u :: u in st.verts && x in Compute(p, edges, st, it, u).1
  {
    hide Compute, CollectAll;
    var sends := Sends(p, edges, st, it);
    CollectAllMember(sends, x);
    forall u | u in st.verts
      ensures x in sends[u] <==> x in Compute(p, edges, st, it, u).1
    {
    }
  }

  /** An engine that hands a vertex its edges and messages, in whatever order, to a function in a
      state that is ready for them, gets what the reference semantics computes. */
  lemma ComputesAsReference<K(!new), V(!new), E(!new), M(!new), S(!new)>(
      alg: Alg<K, V, E, M, S>, p: Program<K, V, E, M>, ty: Typing<K, V, M, S>,
      edges: multiset<Edge<K, E>>, st: State<K, V, M>, it: nat, s: S, k: K, es: seq<(K, E)>, ms: seq<M>)
    requires Admissible(alg, p, ty) && OkState(ty, st, it) && it >= 1
    requires k in st.verts && ty.ready(s, it)
    requires multiset(es) == OutEdges(edges, k)
    requires multiset(ms) == MessagesTo(st.pool, k)
    ensures var r := alg.compute(s, k, st.verts[k], es, ms, it);
            && r.Some?
            && ty.ready(r.value.0, it) && ty.ready(r.value.0, it + 1)
            && Updated(st.verts[k], r.value.1) == NewVerts(p, edges, st, it)[k]
            && multiset(r.value.2) == Sends(p, edges, st, it)[k]
  {
    AnyOrder(p, ty, edges, st, it, k, es, ms);
    hide OrderInsensitive, KeepsTyping, OkState, OkMessages;
    var r := alg.compute(s, k, st.verts[k], es, ms, it);
    assert (r.value.1, r.value.2) == p(k, st.verts[k], es, ms, it);
  }

  lemma SuperstepKeepsTyping<K(!new), V(!new), E(!new), M(!new), S>(
      p: Program<K, V, E, M>, ty: Typing<K, V, M, S>, edges: multiset<Edge<K, E>>,
      st: State<K, V, M>, it: nat)
    requires KeepsTyping(p, ty) && OkState(ty, st, it) && it >= 1
    ensures OkState(ty, Superstep(p, edges, st, it), it + 1)
  {
    var next := Superstep(p, edges, st, it);
    forall k | k in st.verts
      ensures ty.okVertex(k, next.verts[k], it + 1)
      ensures forall i :: 0 <= i < |Compute(p, edges, st, it, k).1| ==>
                            ty.okMessage(Compute(p, edges, st, it, k).1[i].1)
    {
      OkMessagesOfBag(ty, st, it, k, SeqOf(MessagesTo(st.pool, k)));
    }
    forall k, m | (k, m) in next.pool
      ensures ty.okMessage(m)
    {
      var sends := Sends(p, edges, st, it);
      CollectAllMember(sends, (k, m));
      var u :| u in sends && (k, m) in sends[u];
      var out := Compute(p, edges, st, it, u).1;
      assert (k, m) in out;
    }
  }

  lemma {:induction false} AfterKeepsTyping<K(!new), V(!new), E(!new), M(!new), S>(
      p: Program<K, V, E, M>, ty: Typing<K, V, M, S>, edges: multiset<Edge<K, E>>,
      verts: map<K, V>, k: nat, it: nat)
    requires KeepsTyping(p, ty) && OkStart(ty, verts) && it == k + 1
    ensures OkState(ty, After(Bulk(p, edges), Start(verts), k), it)
  {
    if k > 0 {
      AfterKeepsTyping(p, ty, edges, verts, k - 1, k);
      SuperstepKeepsTyping(p, ty, edges, After(Bulk(p, edges), Start(verts), k - 1), k);
    }
  }

  /** Supersteps neither add nor remove vertices. */
  lemma {:induction false} AfterKeepsKeys<K(!new), V(!new), E(!new), M(!new)>(
      p: Program<K, V, E, M>, edges: multiset<Edge<K, E>>, verts: map<K, V>, k: nat)
    ensures After(Bulk(p, edges), Start<K, V, M>(verts), k).verts.Keys == verts.Keys
  {
    hide Bulk, Compute, Sends;
    if k > 0 {
      AfterKeepsKeys(p, edges, verts, k - 1);
      BulkAfter(p, edges, Start<K, V, M>(verts), k - 1, k);
    }
  }

  /** From the second superstep on, a vertex without messages neither changes nor sends. */
  ghost predicate Quiescent<K(!new), V(!new), E(!new), M>(p: Program<K, V, E, M>) {
    forall k, v, es, it {:trigger p(k, v, es, [], it)} :: it >= 2 ==> p(k, v, es, [], it) == (None, [])
  }

  lemma {:induction false} CollectNothing<K, T>(keys: seq<K>, outs: map<K, multiset<T>>)
    requires forall k :: k in keys ==> k in outs && outs[k] == multiset{}
    ensures Collect(keys, outs) == multiset{}
  {
    if keys != [] {
      CollectNothing(keys[..|keys| - 1], outs);
    }
  }

  /** Silence is final. */
  lemma SilentIsFinal<K(!new), V(!new), E(!new), M(!new)>(
      p: Program<K, V, E, M>, edges: multiset<Edge<K, E>>, st: State<K, V, M>, it: nat)
    requires Quiescent(p) && it >= 2 && st.pool == multiset{}
    ensures Superstep(p, edges, st, it) == st
  {
    forall k | k in st.verts
      ensures Compute(p, edges, st, it, k) == (None, [])
    {
      assert MessagesTo(st.pool, k) == multiset{} by {
        forall m
          ensures MessagesTo(st.pool, k)[m] == 0
        {
          assert st.pool[(k, m)] == 0;
        }
      }
      assert SeqOf(MessagesTo(st.pool, k)) == [];
    }
    var sends := Sends(p, edges, st, it);
    var order := SeqOf(multiset(sends.Keys));
    BagListsSet(order, sends.Keys);
    CollectNothing(order, sends);
  }

  lemma QuiescentSettles<K(!new), V(!new), E(!new), M(!new)>(
      p: Program<K, V, E, M>, edges: multiset<Edge<K, E>>)
    requires Quiescent(p)
    ensures Settles(Bulk(p, edges))
  {
    var m := Bulk(p, edges);
    forall st: State<K, V, M>, it: nat {:trigger m.step(st, it)} | it >= 2 && m.silent(st)
      ensures m.step(st, it) == st
    {
      assert Silent(st);
      SilentIsFinal(p, edges, st, it);
    }
  }
}
