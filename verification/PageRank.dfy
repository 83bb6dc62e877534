/** PageRank over real numbers: no rounding, and no claim about it.

    The vertex function keeps one hidden variable, `teleport`, set at the first vertex it meets.
    The distributed and the local form differ only in how they are handed their data.
 */
module PageRank {
  import opened Options
  import opened Bags
  import opened Bsp
  import opened VertexContext
  import opened Wcc

  function SumOf(ms: seq<real>): real {
    if ms == [] then 0.0 else SumOf(ms[..|ms| - 1]) + ms[|ms| - 1]
  }

  /** What the first positive value fixes the hidden variable to. */
  function Fixed(alpha: real, value: real): real {
    (1.0 - alpha) * value
  }

  /** The hidden variable after a vertex with value `value`. */
  function Teleport(alpha: real, teleport: Option<real>, value: real): Option<real> {
    if teleport.None? && value > 0.0 then Some(Fixed(alpha, value)) else teleport
  }

  function Rank(alpha: real, sum: real, teleport: Option<real>): real {
    sum * alpha + (if teleport.Some? then teleport.value else 1.0 - alpha)
  }

  /** The share of `value` that each out-edge carries. */
  function Shares<K, E>(es: seq<(K, E)>, value: real): seq<(K, real)> {
    if |es| > 0 then Broadcast(es, value / |es| as real) else []
  }

  /** New hidden variable, new value if any, messages. */
  function PageRankCompute<K, E>(
      alpha: real, teleport: Option<real>, value: Option<real>, es: seq<(K, E)>, ms: seq<real>, it: nat)
    : (Option<real>, Option<real>, seq<(K, real)>)
  {
    var v := if value.Some? then value.value else 0.0;
    var teleport' := Teleport(alpha, teleport, v);
    if it == 1 then
      (teleport', None, Shares(es, v))
    else
      var pr := Rank(alpha, SumOf(ms), teleport');
      (teleport', Some(pr), Shares(es, pr))
  }

  class PageRankAlgorithm {
    const iterations: nat
    const alpha: real
    var teleport: Option<real>

    constructor (iterations: nat, alpha: real)
      ensures this.iterations == iterations && this.alpha == alpha && teleport == None
    {
      this.iterations := iterations;
      this.alpha := alpha;
      this.teleport := None;
    }

    method FixTeleport(value: real)
      modifies this
      ensures teleport == Teleport(alpha, old(teleport), value)
    {
      if teleport.None? && value > 0.0 {
        teleport := Some((1.0 - alpha) * value);
      }
    }

    method ComputeVertex<K, E>(
        vertexId: K, vertexValue: Option<real>, outEdges: seq<(K, E)>, messages: seq<real>, iteration: nat)
      returns (update: Option<real>, out: seq<(K, real)>)
      modifies this
      ensures (teleport, update, out)
           == PageRankCompute(alpha, old(teleport), vertexValue, outEdges, messages, iteration)
    {
      hide Rank, Teleport;
      var outDegree := |outEdges| as real;
      var value := if vertexValue.Some? then vertexValue.value else 0.0;
      FixTeleport(value);
      if iteration == 1 {
        if outDegree > 0.0 {
          return None, Broadcast(outEdges, value / outDegree);
        }
        return None, [];
      }
      var sum := 0.0;
      for i := 0 to |messages|
        invariant sum == SumOf(messages[..i])
      {
        assert messages[..i + 1][..i] == messages[..i];
        sum := sum + messages[i];
      }
      assert messages[..|messages|] == messages;
      var pr := Rank(alpha, sum, teleport);
      out := [];
      if outDegree > 0.0 {
        out := Broadcast(outEdges, pr / outDegree);
      }
      update := Some(pr);
    }
  }

  class PageRankFunction {
    const alpha: real
    var teleport: Option<real>

    constructor (alpha: real)
      ensures this.alpha == alpha && teleport == None
    {
      this.alpha := alpha;
      this.teleport := None;
    }

    method FixTeleport(value: real)
      modifies this
      ensures teleport == Teleport(alpha, old(teleport), value)
    {
      if teleport.None? && value > 0.0 {
        teleport := Some((1.0 - alpha) * value);
      }
    }

    method Compute<K, E>(vertexId: K, messages: seq<real>, context: Context<K, real, E, real>)
      modifies this, context
      ensures var r := PageRankCompute(alpha, old(teleport), old(context.vertexValue), context.edges, messages,
                                       context.iteration);
              && teleport == r.0
              && context.vertexValue == (if r.1.Some? then r.1 else old(context.vertexValue))
              && context.outMessages == old(context.outMessages) + r.2
    {
      hide Rank, Teleport;
      var value := if context.vertexValue.Some? then context.vertexValue.value else 0.0;
      var outDegree := |context.edges| as real;
      FixTeleport(value);
      if context.iteration == 1 {
        if outDegree > 0.0 {
          SendToAll(context, value / outDegree);
        }
        return;
      }
      var sum := 0.0;
      for i := 0 to |messages|
        invariant sum == SumOf(messages[..i])
        invariant context.vertexValue == old(context.vertexValue)
        invariant context.outMessages == old(context.outMessages)
        invariant teleport == Teleport(alpha, old(teleport), value)
      {
        assert messages[..i + 1][..i] == messages[..i];
        sum := sum + messages[i];
      }
      assert messages[..|messages|] == messages;
      var pr := Rank(alpha, sum, teleport);
      context.SetNewVertexValue(pr);
      if outDegree > 0.0 {
        SendToAll(context, pr / outDegree);
      }
    }
  }

  // ---------------------------------------------------------------------------------------
  // The hidden variable is invisible, from a uniform positive start.

  /** The algorithm as the engines hold it: the hidden variable is its state. */
  function PageRankAlg<K, E>(alpha: real): Alg<K, real, E, real, Option<real>> {
    Alg(None, (s: Option<real>, k: K, v: real, es: seq<(K, E)>, ms: seq<real>, it: nat) =>
      Some(PageRankCompute(alpha, s, Some(v), es, ms, it)))
  }

  /** The stateless program it is observed as, for a given teleport term. */
  function PageRankProgram<K, E>(alpha: real, t: real): Program<K, real, E, real> {
    (k: K, v: real, es: seq<(K, E)>, ms: seq<real>, it: nat) =>
      var r := PageRankCompute(alpha, Some(t), Some(v), es, ms, it);
      (r.1, r.2)
  }

  /** In superstep 1 every value is still `v0`; from then on the hidden variable is set. */
  function PageRankTyping<K>(v0: real, t: real): Typing<K, real, real, Option<real>> {
    Typing((s: Option<real>, it: nat) => s == Some(t) || (it == 1 && s == None),
           (k: K, v: real, it: nat) => it == 1 ==> v == v0,
           (m: real) => true)
  }

  lemma {:induction false} SumAppend(a: seq<real>, x: real)
    ensures SumOf(a + [x]) == SumOf(a) + x
  {
    assert (a + [x])[..|a|] == a;
  }

  lemma {:induction false} SumConcat(a: seq<real>, b: seq<real>)
    ensures SumOf(a + b) == SumOf(a) + SumOf(b)
  {
    if b == [] {
      assert a + b == a;
    } else {
      var front, x := b[..|b| - 1], b[|b| - 1];
      SumConcat(a, front);
      assert a + b == (a + front) + [x];
      SumAppend(a + front, x);
    }
  }

  lemma {:induction false} SumWithout(p: seq<real>, x: real, q: seq<real>)
    ensures SumOf(p + [x] + q) == SumOf(p + q) + x
  {
    SumConcat(p + [x], q);
    SumAppend(p, x);
    SumConcat(p, q);
    hide SumOf;
  }

  lemma {:induction false} SumIgnoresOrder(a: seq<real>, b: seq<real>)
    requires multiset(a) == multiset(b)
    ensures SumOf(a) == SumOf(b)
    decreases |a|
  {
    if a == [] {
      assert |multiset(b)| == 0;
    } else {
      var front, x := a[..|a| - 1], a[|a| - 1];
      assert a == front + [x];
      assert multiset(front) == multiset(a) - multiset{x};
      var p, q := TakeOut(b, x);
      SumWithout(p, x, q);
      SumAppend(front, x);
      SumIgnoresOrder(front, p + q);
    }
  }

  lemma SharesIgnoreOrder<K(!new), E(!new)>(es: seq<(K, E)>, es': seq<(K, E)>, value: real)
    requires multiset(es) == multiset(es')
    ensures multiset(Shares(es, value)) == multiset(Shares(es', value))
  {
    assert |es| == |multiset(es)| == |es'|;
    if |es| > 0 {
      BroadcastIgnoresOrder(es, es', value / |es| as real);
    }
  }

  lemma TeleportFixed(alpha: real, s: Option<real>, v: real, v0: real)
    requires s == Some((1.0 - alpha) * v0) || (s == None && v == v0 > 0.0)
    ensures Teleport(alpha, s, v) == Some((1.0 - alpha) * v0)
  {
  }

  /** From a uniform start v0 > 0 every instance of the function fixes its hidden variable to
      (1 - alpha) * v0 at its first vertex and never changes it: on any worker, in any order, it
      is observed as the same stateless program. */
  lemma PageRankAdmissible<K(!new), E(!new)>(alpha: real, v0: real)
    requires v0 > 0.0
    ensures var t := (1.0 - alpha) * v0;
            Admissible(PageRankAlg<K, E>(alpha), PageRankProgram<K, E>(alpha, t), PageRankTyping<K>(v0, t))
  {
    var t := (1.0 - alpha) * v0;
    var alg, p, ty := PageRankAlg<K, E>(alpha), PageRankProgram<K, E>(alpha, t), PageRankTyping<K>(v0, t);
    hide Shares, SumOf, Rank, Teleport, OkMessages;
    forall s: Option<real>, k: K, v: real, es: seq<(K, E)>, ms: seq<real>, it: nat
        {:trigger alg.compute(s, k, v, es, ms, it)} |
      it >= 1 && ty.ready(s, it) && ty.okVertex(k, v, it)
      ensures var r := alg.compute(s, k, v, es, ms, it);
              && r.Some?
              && (r.value.1, r.value.2) == p(k, v, es, ms, it)
              && ty.ready(r.value.0, it) && ty.ready(r.value.0, it + 1)
    {
      TeleportFixed(alpha, s, v, v0);
    }
    forall k: K, v: real, es: seq<(K, E)>, es': seq<(K, E)>, ms: seq<real>, ms': seq<real>, it: nat
        {:trigger p(k, v, es, ms, it), p(k, v, es', ms', it)} |
      multiset(es) == multiset(es') && multiset(ms) == multiset(ms')
      ensures p(k, v, es, ms, it).0 == p(k, v, es', ms', it).0
      ensures multiset(p(k, v, es, ms, it).1) == multiset(p(k, v, es', ms', it).1)
    {
      SumIgnoresOrder(ms, ms');
      SharesIgnoreOrder(es, es', v);
      SharesIgnoreOrder(es, es', Rank(alpha, SumOf(ms), Some(t)));
      TeleportFixed(alpha, Some(t), v, v0);
    }
  }

  // ---------------------------------------------------------------------------------------
  // What the hidden variable depends on, from any start.

  /** The hidden variable after vertices with these values, met in this order. */
  function TeleportOver(alpha: real, teleport: Option<real>, values: seq<real>): Option<real> {
    if values == [] then
      teleport
    else
      Teleport(alpha, TeleportOver(alpha, teleport, values[..|values| - 1]), values[|values| - 1])
  }

  ghost predicate PositivesEqual(values: seq<real>) {
    forall i, j :: 0 <= i < |values| && 0 <= j < |values| && values[i] > 0.0 && values[j] > 0.0 ==>
      values[i] == values[j]
  }

  /** It is taken from the first positive value, if there is one. */
  lemma {:induction false} FirstPositive(alpha: real, values: seq<real>) returns (i: nat)
    ensures i <= |values| && forall j :: 0 <= j < i ==> values[j] <= 0.0
    ensures i < |values| ==> values[i] > 0.0
    ensures TeleportOver(alpha, None, values) == if i < |values| then Some(Fixed(alpha, values[i])) else None
  {
    if values == [] {
      i := 0;
    } else {
      hide Fixed;
      var front, last := values[..|values| - 1], values[|values| - 1];
      i := FirstPositive(alpha, front);
      assert forall j :: 0 <= j < |front| ==> front[j] == values[j];
      assert TeleportOver(alpha, None, values) == Teleport(alpha, TeleportOver(alpha, None, front), last);
      if i < |front| {
        assert front[i] == values[i];
      } else if last <= 0.0 {
        i := |values|;
      } else {
        assert TeleportOver(alpha, None, front) == None;
        assert values[i] == last;
      }
    }
  }

  lemma FixedAgrees(alpha: real, a: real, b: real)
    ensures Fixed(alpha, a) == Fixed(alpha, b) <==> alpha == 1.0 || a == b
  {
    if alpha != 1.0 && a != b {
      NoZeroProduct(1.0 - alpha, a - b);
    }
  }

  lemma NoZeroProduct(x: real, y: real)
    requires x != 0.0 && y != 0.0
    ensures x * y != 0.0
  {
  }

  lemma {:induction false} BringToFront(values: seq<real>, i: nat) returns (other: seq<real>)
    requires i < |values|
    ensures multiset(other) == multiset(values) && other != [] && other[0] == values[i]
  {
    var p, q := TakeOut(values, values[i]);
    other := [values[i]] + (p + q);
  }

  lemma SameElements(a: seq<real>, b: seq<real>, i: nat) returns (j: nat)
    requires multiset(a) == multiset(b) && i < |a|
    ensures j < |b| && b[j] == a[i]
  {
    assert a[i] in multiset(a);
    assert a[i] in multiset(b);
    j :| 0 <= j < |b| && b[j] == a[i];
  }

  /** The first value decides, if it is positive. */
  lemma {:induction false} FirstDecides(alpha: real, values: seq<real>)
    requires values != [] && values[0] > 0.0
    ensures TeleportOver(alpha, None, values) == Some(Fixed(alpha, values[0]))
  {
    hide TeleportOver, Fixed;
    var i := FirstPositive(alpha, values);
    assert !(0 < i);
  }

  lemma {:induction false} EqualPositivesForgetOrder(alpha: real, a: seq<real>, b: seq<real>)
    requires multiset(a) == multiset(b) && (alpha == 1.0 || PositivesEqual(a))
    ensures TeleportOver(alpha, None, a) == TeleportOver(alpha, None, b)
  {
    hide TeleportOver, Fixed;
    var i := FirstPositive(alpha, a);
    var k := FirstPositive(alpha, b);
    if i < |a| {
      var j := SameElements(a, b, i);
      assert k <= j;
      var l := SameElements(b, a, k);
      assert alpha == 1.0 || a[i] == a[l];
      FixedAgrees(alpha, a[i], b[k]);
    } else if k < |b| {
      var l := SameElements(b, a, k);
      assert false;
    }
  }

  /** Every order of the same values leaves the same hidden variable exactly when nothing teleports or
      all positive values agree. */
  lemma {:induction false} TeleportForgetsOrderExactlyWhen(alpha: real, values: seq<real>)
    ensures (forall other: seq<real> :: multiset(other) == multiset(values) ==>
              TeleportOver(alpha, None, other) == TeleportOver(alpha, None, values))
       <==> alpha == 1.0 || PositivesEqual(values)
  {
    hide TeleportOver, Fixed;
    if alpha == 1.0 || PositivesEqual(values) {
      forall other: seq<real> | multiset(other) == multiset(values)
        ensures TeleportOver(alpha, None, other) == TeleportOver(alpha, None, values)
      {
        EqualPositivesForgetOrder(alpha, values, other);
      }
    } else {
      var i, j :|
        0 <= i < |values| && 0 <= j < |values| && values[i] > 0.0 && values[j] > 0.0 && values[i] != values[j];
      var a := BringToFront(values, i);
      var b := BringToFront(values, j);
      FirstDecides(alpha, a);
      FirstDecides(alpha, b);
      FixedAgrees(alpha, values[i], values[j]);
    }
  }
}
