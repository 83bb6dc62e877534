/** The local form of component labelling, on numbers instead of their encodings. */
module LocalWcc {
  import opened Options
  import opened Runs
  import opened Bsp
  import opened Codec
  import opened VertexContext
  import opened Walks
  import opened MinPropagation
  import opened Wcc

  function LocalWccCompute(
      id: nat, value: Option<nat>, es: seq<(nat, nat)>, ms: seq<nat>, it: nat): (Option<nat>, seq<(nat, nat)>)
  {
    var current := if value.Some? then value.value else id;
    if it == 1 then
      (Some(id), Broadcast(es, id))
    else
      var l := MinLabel(current, ms);
      if l < current then (Some(l), Broadcast(es, l)) else (None, [])
  }

  class WccFunction {
    constructor ()
    {
    }

    method Compute(vertexId: nat, messages: seq<nat>, context: Context<nat, nat, nat, nat>)
      modifies context
      ensures var r := LocalWccCompute(vertexId, old(context.vertexValue), context.edges, messages, context.iteration);
              && context.outMessages == old(context.outMessages) + r.1
              && context.vertexValue == (if r.0.Some? then r.0 else old(context.vertexValue))
    {
      var current := if context.vertexValue.Some? then context.vertexValue.value else vertexId;
      if context.iteration == 1 {
        context.SetNewVertexValue(vertexId);
        SendToAll(context, vertexId);
        return;
      }
      var minComp := current;
      for i := 0 to |messages|
        invariant minComp == MinLabel(current, messages[..i])
        invariant context.vertexValue == old(context.vertexValue)
        invariant context.outMessages == old(context.outMessages)
      {
        assert messages[..i + 1][..i] == messages[..i];
        if messages[i] < minComp {
          minComp := messages[i];
        }
      }
      assert messages[..|messages|] == messages;
      if minComp < current {
        context.SetNewVertexValue(minComp);
        SendToAll(context, minComp);
      }
    }
  }

  function LocalWccProgram(): Program<nat, nat, nat, nat> {
    (k: nat, v: nat, es: seq<(nat, nat)>, ms: seq<nat>, it: nat) => LocalWccCompute(k, Some(v), es, ms, it)
  }

  function LocalWccAlg(): Alg<nat, nat, nat, nat, ()> {
    Alg((), (s: (), k: nat, v: nat, es: seq<(nat, nat)>, ms: seq<nat>, it: nat) =>
      var r := LocalWccCompute(k, Some(v), es, ms, it);
      Some((s, r.0, r.1)))
  }

  function U64Typing(): Typing<nat, nat, nat, ()> {
    Typing((s, it) => true, (k: nat, v: nat, it: nat) => k < U64_LIMIT && v < U64_LIMIT, (m: nat) => m < U64_LIMIT)
  }

  function LocalWccReading(): Reading<nat, nat, nat, nat> {
    Reading((v: nat) => v, (m: nat) => m, (e: nat) => 0, (e: nat) => true, (k: nat) => Some(k), U64_LIMIT)
  }

  // ---------------------------------------------------------------------------------------
  // The two forms agree.

  function EncodedEdges(es: seq<(nat, nat)>): seq<(Bytes, Bytes)> {
    seq(|es|, i requires 0 <= i < |es| => (EncodeU64(es[i].0), EncLE(es[i].1, 1)))
  }

  function EncodedLabels(ms: seq<nat>): seq<Bytes> {
    seq(|ms|, i requires 0 <= i < |ms| => EncodeU64(ms[i]))
  }

  function EncodedSends(out: seq<(nat, nat)>): seq<(Bytes, Bytes)> {
    seq(|out|, i requires 0 <= i < |out| => (EncodeU64(out[i].0), EncodeU64(out[i].1)))
  }

  lemma {:induction false} DecodeOfEncodedLabels(ms: seq<nat>)
    requires forall i :: 0 <= i < |ms| ==> ms[i] < U64_LIMIT
    ensures DecodeAll(EncodedLabels(ms)) == Some(ms)
  {
    if ms != [] {
      var front := ms[..|ms| - 1];
      DecodeOfEncodedLabels(front);
      U64RoundTrip(ms[|ms| - 1]);
      assert EncodedLabels(ms)[..|ms| - 1] == EncodedLabels(front);
      assert front + [ms[|ms| - 1]] == ms;
    }
  }

  /** On encodings of the same data the distributed form does, encoded, what the local form does. */
  lemma FormsAgree(id: nat, value: Option<nat>, es: seq<(nat, nat)>, ms: seq<nat>, it: nat)
    requires id < U64_LIMIT && (value.Some? ==> value.value < U64_LIMIT)
    requires forall i :: 0 <= i < |ms| ==> ms[i] < U64_LIMIT
    ensures var here := LocalWccCompute(id, value, es, ms, it);
            var there := WccCompute(EncodeU64(id), (if value.Some? then Some(EncodeU64(value.value)) else None),
                                    EncodedEdges(es), EncodedLabels(ms), it);
            there == Some(((if here.0.Some? then Some(EncodeU64(here.0.value)) else None), EncodedSends(here.1)))
  {
    U64RoundTrip(id);
    if value.Some? {
      U64RoundTrip(value.value);
    }
    DecodeOfEncodedLabels(ms);
    var current := if value.Some? then value.value else id;
    var l := if it == 1 then id else MinLabel(current, ms);
    assert EncodedSends(Broadcast<nat, nat, nat>(es, l))
        == Broadcast<Bytes, Bytes, Bytes>(EncodedEdges(es), EncodeU64(l));
    assert EncodedSends([]) == [];
  }

  // ---------------------------------------------------------------------------------------
  // It is minimum propagation.

  lemma {:induction false} MinLabelIgnoresOrder(current: nat, ms: seq<nat>, ms': seq<nat>)
    requires multiset(ms) == multiset(ms')
    ensures MinLabel(current, ms) == MinLabel(current, ms')
  {
    assert forall m :: m in ms <==> m in multiset(ms);
    assert forall m :: m in ms' <==> m in multiset(ms');
    MinLabelFacts(current, ms);
    MinLabelFacts(current, ms');
    var l, l' := MinLabel(current, ms), MinLabel(current, ms');
    assert l in ms ==> l in ms';
    assert l' in ms' ==> l' in ms;
  }

  lemma LocalWccOutputs(k: nat, v: nat, es: seq<(nat, nat)>, ms: seq<nat>, it: nat)
    requires k < U64_LIMIT && v < U64_LIMIT && forall i :: 0 <= i < |ms| ==> ms[i] < U64_LIMIT
    ensures var out := LocalWccCompute(k, Some(v), es, ms, it);
            && Updated(v, out.0) < U64_LIMIT
            && (forall i :: 0 <= i < |out.1| ==> out.1[i].1 < U64_LIMIT)
  {
    MinLabelFacts(v, ms);
  }

  lemma SmallMessages(ms: seq<nat>)
    requires OkMessages(U64Typing(), ms)
    ensures forall i :: 0 <= i < |ms| ==> ms[i] < U64_LIMIT
  {
    forall i | 0 <= i < |ms|
      ensures ms[i] < U64_LIMIT
    {
      assert U64Typing().okMessage(ms[i]);
    }
  }

  lemma LocalWccAdmissible()
    ensures Admissible(LocalWccAlg(), LocalWccProgram(), U64Typing())
  {
    var p, ty := LocalWccProgram(), U64Typing();
    forall k: nat, v: nat, es: seq<(nat, nat)>, ms: seq<nat>, it: nat {:trigger p(k, v, es, ms, it)} |
      it >= 1 && ty.okVertex(k, v, it) && OkMessages(ty, ms)
      ensures var out := p(k, v, es, ms, it);
              && ty.okVertex(k, Updated(v, out.0), it + 1)
              && (forall i :: 0 <= i < |out.1| ==> ty.okMessage(out.1[i].1))
    {
      SmallMessages(ms);
      LocalWccOutputs(k, v, es, ms, it);
    }
    forall k: nat, v: nat, es: seq<(nat, nat)>, es': seq<(nat, nat)>, ms: seq<nat>, ms': seq<nat>, it: nat
      {:trigger p(k, v, es, ms, it), p(k, v, es', ms', it)} |
      multiset(es) == multiset(es') && multiset(ms) == multiset(ms')
      ensures p(k, v, es, ms, it).0 == p(k, v, es', ms', it).0
      ensures multiset(p(k, v, es, ms, it).1) == multiset(p(k, v, es', ms', it).1)
    {
      MinLabelIgnoresOrder(v, ms, ms');
      BroadcastIgnoresOrder<nat, nat, nat>(es, es', if it == 1 then k else MinLabel(v, ms));
    }
  }

  lemma LocalWccQuiescent()
    ensures Quiescent(LocalWccProgram())
  {
  }

  lemma {:induction false} LeastIsLocalMin(bound: nat, ms: seq<nat>)
    ensures Least(LocalWccReading(), bound, ms) == MinLabel(bound, ms)
  {
    if ms != [] {
      LeastIsLocalMin(bound, ms[..|ms| - 1]);
    }
  }

  lemma {:induction false} LocalWeightlessCost(w: seq<Edge<nat, nat>>)
    ensures Cost(LocalWccReading().weight, w) == 0
  {
    if w != [] {
      LocalWeightlessCost(w[..|w| - 1]);
    }
  }

  lemma LocalWccPropagates()
    ensures Propagates(LocalWccProgram(), LocalWccReading(), U64Typing())
  {
    var p, x, ty := LocalWccProgram(), LocalWccReading(), U64Typing();
    forall k: nat, v: nat, es: seq<(nat, nat)>, ms: seq<nat>, it: nat {:trigger p(k, v, es, ms, it)} |
      it >= 1 && ty.okVertex(k, v, it) && OkMessages(ty, ms) && (it == 1 ==> ms == [])
      ensures Offers(x, p(k, v, es, ms, it), Better(x, k, v, ms, it), es)
      ensures StaysOk(x, ty, k, v, it, Better(x, k, v, ms, it), es, p(k, v, es, ms, it))
    {
      LeastIsLocalMin(v, ms);
      SmallMessages(ms);
      LocalWccOutputs(k, v, es, ms, it);
    }
  }

  ghost predicate U64Vertices(verts: map<nat, nat>) {
    forall k :: k in verts ==> k < U64_LIMIT && verts[k] < U64_LIMIT
  }

  lemma LocalWccSuitable(edges: multiset<Edge<nat, nat>>, verts: map<nat, nat>)
    requires U64Vertices(verts)
    ensures Suitable(LocalWccProgram(), LocalWccReading(), U64Typing(), edges, verts)
  {
    LocalWccPropagates();
    hide Propagates;
  }

  /** Local labelling falls silent after at most |V| + 1 supersteps, so it needs no cap. */
  lemma {:induction false} LocalWccFallsSilent(edges: multiset<Edge<nat, nat>>, verts: map<nat, nat>)
    requires U64Vertices(verts)
    ensures Silent(After(Bulk(LocalWccProgram(), edges), Start(verts), |verts| + 1))
  {
    hide Suitable;
    LocalWccSuitable(edges, verts);
    SilentAfterAllVertices(LocalWccProgram(), LocalWccReading(), U64Typing(), edges, verts);
  }
}
