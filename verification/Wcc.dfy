/** Component labelling: every vertex ends up with the least id that reaches it.

    The distributed form works on encoded ids and values and fails on bytes it cannot decode; the
    local form works on numbers. Both are minimum propagation with weightless edges, in which every
    vertex starts with its own id.
 */
module Wcc {
  import opened Options
  import opened Bags
  import opened Runs
  import opened Bsp
  import opened Codec
  import opened VertexContext
  import opened Walks
  import opened MinPropagation

  function MinLabel(current: nat, labels: seq<nat>): nat {
    if labels == [] then
      current
    else
      var l := MinLabel(current, labels[..|labels| - 1]);
      if labels[|labels| - 1] < l then labels[|labels| - 1] else l
  }

  function DecodeAll(ms: seq<Bytes>): Option<seq<nat>> {
    if ms == [] then
      Some([])
    else
      match (DecodeAll(ms[..|ms| - 1]), DecodeU64(ms[|ms| - 1]))
      case (Some(front), Some(l)) => Some(front + [l])
      case _ => None
  }

  // ---------------------------------------------------------------------------------------
  // The distributed form.

  /** New value and messages; None when some bytes cannot be decoded. */
  function WccCompute(
      id: Bytes, value: Option<Bytes>, es: seq<(Bytes, Bytes)>, ms: seq<Bytes>, it: nat)
    : Option<(Option<Bytes>, seq<(Bytes, Bytes)>)>
  {
    match DecodeU64(id)
    case None => None
    case Some(vid) =>
      match (if value.Some? then DecodeU64(value.value) else Some(vid))
      case None => None
      case Some(current) =>
        if it == 1 then
          Some((Some(EncodeU64(vid)), Broadcast(es, EncodeU64(vid))))
        else
          match DecodeAll(ms)
          case None => None
          case Some(labels) =>
            var l := MinLabel(current, labels);
            if l < current then Some((Some(EncodeU64(l)), Broadcast(es, EncodeU64(l)))) else Some((None, []))
  }

  /** The number that eight bytes stand for: byte `i` weighs 256^i. */
  function Number(bs: Bytes): nat {
    if |bs| < 8 then
      0
    else
      var b: seq<nat> := bs;
      b[0] + 0x100 * b[1] + 0x1_0000 * b[2] + 0x100_0000 * b[3]
      + 0x1_0000_0000 * b[4] + 0x100_0000_0000 * b[5] + 0x1_0000_0000_0000 * b[6] + 0x100_0000_0000_0000 * b[7]
  }

  lemma NumberDecodes(bs: Bytes)
    ensures DecodeU64(bs) == if |bs| < 8 then None else Some(Number(bs))
  {
    if |bs| >= 8 {
      DecodesLittleEndian(bs);
    }
  }

  /** Different words stand for different numbers. */
  lemma NumberInjective(a: Bytes, b: Bytes)
    requires |a| == |b| == 8 && Number(a) == Number(b)
    ensures a == b
  {
    hide Number;
    NumberDecodes(a);
    NumberDecodes(b);
    U64Canonical(a);
    U64Canonical(b);
  }

  lemma NumberEncoded(x: nat)
    requires x < U64_LIMIT
    ensures Number(EncodeU64(x)) == x
  {
    NumberDecodes(EncodeU64(x));
    U64RoundTrip(x);
  }

  /** What a vertex does, in terms of the numbers its bytes stand for: it fails exactly when the id,
      the value or, from superstep 2 on, a message is shorter than eight bytes; otherwise it adopts
      its id in superstep 1, and later the least message if that is less than its label, and sends
      what it has adopted along every edge. */
  ghost predicate Answers(
      id: Bytes, value: Option<Bytes>, es: seq<(Bytes, Bytes)>, ms: seq<Bytes>, it: nat,
      r: Option<(Option<Bytes>, seq<(Bytes, Bytes)>)>)
  {
    && (r.None? <==>
          || |id| < 8 || (value.Some? && |value.value| < 8)
          || (it != 1 && exists m :: m in ms && |m| < 8))
    && (r.Some? ==>
          var current := Number(if value.Some? then value.value else id);
          var (next, sends) := r.value;
          && (next.None? <==> it != 1 && forall m :: m in ms ==> current <= Number(m))
          && (next.Some? && it == 1 ==> Number(next.value) == Number(id))
          && (next.Some? && it != 1 ==>
                && (exists m :: m in ms && Number(m) == Number(next.value))
                && (forall m :: m in ms ==> Number(next.value) <= Number(m)))
          && (next.Some? ==> |next.value| == 8)
          && |sends| == (if next.Some? then |es| else 0)
          && (forall i :: 0 <= i < |sends| ==> sends[i] == (es[i].0, next.value)))
  }

  class WccAlgorithm {
    const iterations: nat

    constructor (iterations: nat)
      ensures this.iterations == iterations
    {
      this.iterations := iterations;
    }

    method ComputeVertex(
        vertexId: Bytes, vertexValue: Option<Bytes>, outEdges: seq<(Bytes, Bytes)>, messages: seq<Bytes>,
        iteration: nat)
      returns (r: Option<(Option<Bytes>, seq<(Bytes, Bytes)>)>)
      ensures r == WccCompute(vertexId, vertexValue, outEdges, messages, iteration)
      ensures Answers(vertexId, vertexValue, outEdges, messages, iteration, r)
    {
      hide Answers;
      WccAnswers(vertexId, vertexValue, outEdges, messages, iteration);
      var vid := DecodeU64(vertexId);
      if vid.None? { return None; }
      var current := vid;
      if vertexValue.Some? {
        current := DecodeU64(vertexValue.value);
        if current.None? { return None; }
      }
      if iteration == 1 {
        var msg := EncodeU64(vid.value);
        return Some((Some(msg), Broadcast(outEdges, msg)));
      }
      var minComp := current.value;
      for i := 0 to |messages|
        invariant DecodeAll(messages[..i]).Some?
        invariant minComp == MinLabel(current.value, DecodeAll(messages[..i]).value)
      {
        assert messages[..i + 1][..i] == messages[..i];
        var v := DecodeU64(messages[i]);
        if v.None? {
          DecodeAllFails(messages, i + 1);
          return None;
        }
        var front := DecodeAll(messages[..i]).value;
        assert (front + [v.value])[..|front|] == front;
        if v.value < minComp {
          minComp := v.value;
        }
      }
      assert messages[..|messages|] == messages;
      if minComp < current.value {
        var msg := EncodeU64(minComp);
        return Some((Some(msg), Broadcast(outEdges, msg)));
      }
      return Some((None, []));
    }
  }

  lemma {:induction false} DecodeAllFails(ms: seq<Bytes>, i: nat)
    requires i <= |ms| && DecodeAll(ms[..i]).None?
    ensures DecodeAll(ms).None?
    decreases |ms| - i
  {
    if i < |ms| {
      assert ms[..i + 1][..i] == ms[..i];
      DecodeAllFails(ms, i + 1);
    } else {
      assert ms[..i] == ms;
    }
  }

  /** The algorithm as the workers run it: it has no state. */
  function WccAlg(): Alg<Bytes, Bytes, Bytes, Bytes, ()> {
    Alg((),
        (s: (), k, v, es, ms, it) =>
          match WccCompute(k, Some(v), es, ms, it)
          case None => None
          case Some(r) => Some((s, r.0, r.1)))
  }

  /** What it is observed to do where it does not fail. */
  function WccProgram(): Program<Bytes, Bytes, Bytes, Bytes> {
    (k, v, es, ms, it) =>
      match WccCompute(k, Some(v), es, ms, it)
      case None => (None, [])
      case Some(r) => r
  }

  /** Ids, values and messages are encoded numbers. */
  function WccTyping(): Typing<Bytes, Bytes, Bytes, ()> {
    Typing((s, it) => true, (k: Bytes, v: Bytes, it) => |k| == 8 && |v| == 8, (m: Bytes) => |m| == 8)
  }

  function WccReading(): Reading<Bytes, Bytes, Bytes, Bytes> {
    Reading(v => Number(v), m => Number(m), e => 0, e => true, k => Some(Number(k)), U64_LIMIT)
  }

  // ---------------------------------------------------------------------------------------
  // Independence of order.

  lemma {:induction false} MinLabelFacts(current: nat, labels: seq<nat>)
    ensures MinLabel(current, labels) <= current
    ensures forall i :: 0 <= i < |labels| ==> MinLabel(current, labels) <= labels[i]
    ensures MinLabel(current, labels) == current || MinLabel(current, labels) in labels
  {
    if labels != [] {
      var front := labels[..|labels| - 1];
      MinLabelFacts(current, front);
      assert forall i :: 0 <= i < |front| ==> front[i] == labels[i];
    }
  }

  lemma {:induction false} DecodeAllExactlyWhen(ms: seq<Bytes>)
    ensures DecodeAll(ms).None? <==> exists m :: m in ms && |m| < 8
    ensures DecodeAll(ms).Some? ==> |DecodeAll(ms).value| == |ms|
    ensures DecodeAll(ms).Some? ==> forall i :: 0 <= i < |ms| ==> DecodeAll(ms).value[i] == Number(ms[i])
  {
    hide Number, DecodeU64;
    if ms != [] {
      var front, last := ms[..|ms| - 1], ms[|ms| - 1];
      DecodeAllExactlyWhen(front);
      NumberDecodes(last);
      assert forall m :: m in ms <==> m in front || m == last;
    }
  }

  lemma {:induction false} MinOfMessages(current: nat, ms: seq<Bytes>)
    requires forall i :: 0 <= i < |ms| ==> |ms[i]| == 8
    ensures DecodeAll(ms).Some?
    ensures var l := MinLabel(current, DecodeAll(ms).value);
            && l <= current
            && (forall m :: m in ms ==> l <= Number(m))
            && (l == current || exists m :: m in ms && l == Number(m))
  {
    DecodeAllExactlyWhen(ms);
    var labels := DecodeAll(ms).value;
    MinLabelFacts(current, labels);
    var l := MinLabel(current, labels);
    if l != current {
      var i :| 0 <= i < |labels| && labels[i] == l;
      assert ms[i] in ms;
    }
  }

  lemma {:induction false} MinIgnoresOrder(current: nat, ms: seq<Bytes>, ms': seq<Bytes>)
    requires forall i :: 0 <= i < |ms| ==> |ms[i]| == 8
    requires multiset(ms) == multiset(ms')
    ensures forall i :: 0 <= i < |ms'| ==> |ms'[i]| == 8
    ensures DecodeAll(ms).Some? && DecodeAll(ms').Some?
    ensures MinLabel(current, DecodeAll(ms).value) == MinLabel(current, DecodeAll(ms').value)
  {
    assert forall m :: m in ms <==> m in multiset(ms);
    assert forall m :: m in ms' <==> m in multiset(ms');
    forall i | 0 <= i < |ms'|
      ensures |ms'[i]| == 8
    {
      assert ms'[i] in ms;
    }
    MinOfMessages(current, ms);
    MinOfMessages(current, ms');
  }

  /** Broadcasting along permuted edges sends the same messages. */
  lemma BroadcastIgnoresOrder<K(!new), E(!new), M>(es: seq<(K, E)>, es': seq<(K, E)>, msg: M)
    requires multiset(es) == multiset(es')
    ensures multiset(Broadcast(es, msg)) == multiset(Broadcast(es', msg))
  {
    assert forall e :: e in es <==> e in multiset(es);
    assert forall e :: e in es' <==> e in multiset(es');
    var sends := map e | e in es :: multiset{(e.0, msg)};
    BroadcastAsCollect(es, msg, sends);
    BroadcastAsCollect(es', msg, sends);
    CollectPermutation(es, es', sends);
  }

  lemma {:induction false} BroadcastAsCollect<K, E, M>(es: seq<(K, E)>, msg: M, sends: map<(K, E), multiset<(K, M)>>)
    requires forall e :: e in es ==> e in sends && sends[e] == multiset{(e.0, msg)}
    ensures multiset(Broadcast(es, msg)) == Collect(es, sends)
  {
    if es != [] {
      var front, last := es[..|es| - 1], es[|es| - 1];
      BroadcastAsCollect(front, msg, sends);
      assert Broadcast(es, msg) == Broadcast(front, msg) + [(last.0, msg)];
    }
  }

  lemma {:induction false} WccDecodes(k: Bytes, v: Bytes, es: seq<(Bytes, Bytes)>, ms: seq<Bytes>, it: nat)
    requires |k| == 8 && |v| == 8 && forall i :: 0 <= i < |ms| ==> |ms[i]| == 8
    ensures DecodeU64(k) == Some(Number(k)) && DecodeU64(v) == Some(Number(v))
    ensures DecodeAll(ms).Some?
    ensures var r := WccCompute(k, Some(v), es, ms, it);
            && r.Some?
            && (it == 1 ==> r.value == (Some(EncodeU64(Number(k))), Broadcast(es, EncodeU64(Number(k)))))
            && (it != 1 ==>
                  var l := MinLabel(Number(v), DecodeAll(ms).value);
                  r.value == if l < Number(v) then (Some(EncodeU64(l)), Broadcast(es, EncodeU64(l))) else (None, []))
  {
    hide Number, DecodeU64, EncodeU64;
    DecodeAllExactlyWhen(ms);
    NumberDecodes(k);
    NumberDecodes(v);
  }

  lemma {:induction false} LeastAnswers(current: nat, ms: seq<Bytes>, l: nat)
    requires DecodeAll(ms).Some? && l == MinLabel(current, DecodeAll(ms).value)
    ensures l <= current
    ensures l == current <==> forall m :: m in ms ==> current <= Number(m)
    ensures l < current ==> (exists m :: m in ms && Number(m) == l) && l < U64_LIMIT
    ensures forall m :: m in ms ==> l <= Number(m)
  {
    hide Number, DecodeU64;
    DecodeAllExactlyWhen(ms);
    var labels := DecodeAll(ms).value;
    MinLabelFacts(current, labels);
    forall m | m in ms
      ensures l <= Number(m)
    {
      var i :| 0 <= i < |ms| && ms[i] == m;
      assert l <= labels[i];
    }
    if l < current {
      var i :| 0 <= i < |labels| && labels[i] == l;
      assert ms[i] in ms;
      NumberInRange(ms[i]);
    }
  }

  lemma WccAnswers(id: Bytes, value: Option<Bytes>, es: seq<(Bytes, Bytes)>, ms: seq<Bytes>, it: nat)
    ensures Answers(id, value, es, ms, it, WccCompute(id, value, es, ms, it))
  {
    hide Number, DecodeU64, EncodeU64, DecodeAll;
    var text := if value.Some? then value.value else id;
    NumberDecodes(id);
    NumberDecodes(text);
    DecodeAllExactlyWhen(ms);
    if |id| >= 8 && |text| >= 8 {
      if it == 1 {
        NumberInRange(id);
        NumberEncoded(Number(id));
      } else if DecodeAll(ms).Some? {
        var l := MinLabel(Number(text), DecodeAll(ms).value);
        hide MinLabel;
        LeastAnswers(Number(text), ms, l);
        if l < Number(text) {
          NumberEncoded(l);
        }
      }
    }
  }

  lemma WccBehaves()
    ensures Behaves(WccAlg(), WccProgram(), WccTyping())
  {
    var alg, p, ty := WccAlg(), WccProgram(), WccTyping();
    forall s, k, v, es, ms, it {:trigger alg.compute(s, k, v, es, ms, it)} |
      it >= 1 && ty.ready(s, it) && ty.okVertex(k, v, it) && OkMessages(ty, ms)
      ensures var r := alg.compute(s, k, v, es, ms, it);
              && r.Some?
              && (r.value.1, r.value.2) == p(k, v, es, ms, it)
              && ty.ready(r.value.0, it) && ty.ready(r.value.0, it + 1)
    {
      WordMessages(ms);
      WccDecodes(k, v, es, ms, it);
    }
  }

  lemma WordMessages(ms: seq<Bytes>)
    requires OkMessages(WccTyping(), ms)
    ensures forall i :: 0 <= i < |ms| ==> |ms[i]| == 8
  {
    forall i | 0 <= i < |ms|
      ensures |ms[i]| == 8
    {
      assert WccTyping().okMessage(ms[i]);
    }
  }

  lemma WccKeepsTyping()
    ensures KeepsTyping(WccProgram(), WccTyping())
  {
    var p, ty := WccProgram(), WccTyping();
    forall k, v, es, ms, it {:trigger p(k, v, es, ms, it)} |
      it >= 1 && ty.okVertex(k, v, it) && OkMessages(ty, ms)
      ensures var out := p(k, v, es, ms, it);
              && ty.okVertex(k, Updated(v, out.0), it + 1)
              && (forall i :: 0 <= i < |out.1| ==> ty.okMessage(out.1[i].1))
    {
      WordMessages(ms);
      WccDecodes(k, v, es, ms, it);
    }
  }

  lemma WccOrderInsensitive()
    ensures OrderInsensitive(WccProgram(), WccTyping())
  {
    var p, ty := WccProgram(), WccTyping();
    forall k, v, es, es', ms, ms', it {:trigger p(k, v, es, ms, it), p(k, v, es', ms', it)} |
      && it >= 1 && ty.okVertex(k, v, it) && OkMessages(ty, ms)
      && multiset(es) == multiset(es') && multiset(ms) == multiset(ms')
      ensures p(k, v, es, ms, it).0 == p(k, v, es', ms', it).0
      ensures multiset(p(k, v, es, ms, it).1) == multiset(p(k, v, es', ms', it).1)
    {
      WordMessages(ms);
      SameForPermutations(k, v, es, es', ms, ms', it);
    }
  }

  lemma SameForPermutations(
      k: Bytes, v: Bytes, es: seq<(Bytes, Bytes)>, es': seq<(Bytes, Bytes)>, ms: seq<Bytes>, ms': seq<Bytes>, it: nat)
    requires |k| == 8 && |v| == 8 && forall i :: 0 <= i < |ms| ==> |ms[i]| == 8
    requires multiset(es) == multiset(es') && multiset(ms) == multiset(ms')
    ensures WccCompute(k, Some(v), es, ms, it).Some? && WccCompute(k, Some(v), es', ms', it).Some?
    ensures var a, b := WccCompute(k, Some(v), es, ms, it).value, WccCompute(k, Some(v), es', ms', it).value;
            a.0 == b.0 && multiset(a.1) == multiset(b.1)
  {
    var labels := if DecodeAll(ms).Some? then DecodeAll(ms).value else [];
    var l := if it == 1 then Number(k) else MinLabel(Number(v), labels);
    MinIgnoresOrder(Number(v), ms, ms');
    WccDecodes(k, v, es, ms, it);
    WccDecodes(k, v, es', ms', it);
    BroadcastIgnoresOrder(es, es', EncodeU64(l));
  }

  lemma WccQuiescent()
    ensures Quiescent(WccProgram())
  {
    var p := WccProgram();
    forall k, v, es, it {:trigger p(k, v, es, [], it)} | it >= 2
      ensures p(k, v, es, [], it) == (None, [])
    {
      assert DecodeAll([]) == Some([]);
    }
  }

  /** Labels are decoded, compared and re-encoded without loss. */
  lemma WccPropagates()
    ensures Propagates(WccProgram(), WccReading(), WccTyping())
  {
    var p, x, ty := WccProgram(), WccReading(), WccTyping();
    forall k, v, es, ms, it {:trigger p(k, v, es, ms, it)} |
      it >= 1 && ty.okVertex(k, v, it) && OkMessages(ty, ms) && (it == 1 ==> ms == [])
      ensures Offers(x, p(k, v, es, ms, it), Better(x, k, v, ms, it), es)
      ensures StaysOk(x, ty, k, v, it, Better(x, k, v, ms, it), es, p(k, v, es, ms, it))
    {
      WordMessages(ms);
      WccDecodes(k, v, es, ms, it);
      LeastIsMinLabel(Number(v), ms);
      var l := if it == 1 then Number(k) else MinLabel(Number(v), DecodeAll(ms).value);
      U64Canonical(k);
      U64Canonical(v);
      MinOfMessages(Number(v), ms);
      NumberEncoded(l);
    }
  }

  lemma {:induction false} LeastIsMinLabel(bound: nat, ms: seq<Bytes>)
    requires forall i :: 0 <= i < |ms| ==> |ms[i]| == 8
    ensures DecodeAll(ms).Some?
    ensures Least(WccReading(), bound, ms) == MinLabel(bound, DecodeAll(ms).value)
  {
    hide Number, DecodeU64;
    if ms != [] {
      LeastIsMinLabel(bound, ms[..|ms| - 1]);
      NumberDecodes(ms[|ms| - 1]);
      var front := DecodeAll(ms[..|ms| - 1]).value;
      assert (front + [Number(ms[|ms| - 1])])[..|front|] == front;
    }
  }

  lemma WccAdmissible()
    ensures Admissible(WccAlg(), WccProgram(), WccTyping())
  {
    WccBehaves();
    WccKeepsTyping();
    WccOrderInsensitive();
    hide Behaves, KeepsTyping, OrderInsensitive;
  }

  // ---------------------------------------------------------------------------------------
  // What the labels mean.

  /** The job's input: ids and values are encoded numbers. Edges may lead anywhere. */
  ghost predicate EncodedVertices(verts: map<Bytes, Bytes>) {
    forall k :: k in verts ==> |k| == 8 && |verts[k]| == 8
  }

  /** `l` is the least id among the vertices that reach `v` inside the vertex set. */
  ghost predicate LeastReaching(vs: set<Bytes>, edges: multiset<Edge<Bytes, Bytes>>, v: Bytes, l: nat) {
    && (exists u :: Reaches(vs, edges, u, v) && Number(u) == l)
    && (forall u :: Reaches(vs, edges, u, v) ==> l <= Number(u))
  }

  /** The same over paths of at most `length` edges. */
  ghost predicate LeastReachingWithin(
      vs: set<Bytes>, edges: multiset<Edge<Bytes, Bytes>>, v: Bytes, length: nat, l: nat)
  {
    && (exists u, w :: |w| <= length && IsWalk(vs, edges, u, w, v) && Number(u) == l)
    && (forall u, w :: |w| <= length && IsWalk(vs, edges, u, w, v) ==> l <= Number(u))
  }

  lemma {:induction false} WeightlessCost(w: seq<Edge<Bytes, Bytes>>)
    ensures Cost(WccReading().weight, w) == 0
  {
    if w != [] {
      WeightlessCost(w[..|w| - 1]);
    }
  }

  lemma {:induction false} WccCarries(
      vs: set<Bytes>, edges: multiset<Edge<Bytes, Bytes>>, u: Bytes, w: seq<Edge<Bytes, Bytes>>, v: Bytes, c: nat)
    ensures Carries(WccReading(), vs, edges, u, w, v, c) <==> IsWalk(vs, edges, u, w, v) && c == Number(u)
  {
    WeightlessCost(w);
  }

  lemma NumberInRange(bs: Bytes)
    ensures Number(bs) < U64_LIMIT
  {
    DecodedInRange(bs);
    NumberDecodes(bs);
  }

  lemma WccSuitable(edges: multiset<Edge<Bytes, Bytes>>, verts: map<Bytes, Bytes>)
    requires EncodedVertices(verts)
    ensures Suitable(WccProgram(), WccReading(), WccTyping(), edges, verts)
  {
    WccPropagates();
    hide Propagates;
    forall k | k in verts
      ensures Number(k) < U64_LIMIT
    {
      NumberInRange(k);
    }
  }

  lemma WccLeastWithin(vs: set<Bytes>, edges: multiset<Edge<Bytes, Bytes>>, v: Bytes, length: nat, l: nat)
    requires IsLeastWithin(WccReading(), vs, edges, v, length, l) && v in vs
    ensures LeastReachingWithin(vs, edges, v, length, l)
  {
    var x := WccReading();
    forall u, w | |w| <= length && IsWalk(vs, edges, u, w, v)
      ensures l <= Number(u)
    {
      WccCarries(vs, edges, u, w, v, Number(u));
    }
    assert IsWalk(vs, edges, v, [], v);
    NumberInRange(v);
    var u, w :| |w| <= length && Carries(x, vs, edges, u, w, v, l);
    WccCarries(vs, edges, u, w, v, l);
  }

  lemma WccLeast(vs: set<Bytes>, edges: multiset<Edge<Bytes, Bytes>>, v: Bytes, l: nat)
    requires IsLeast(WccReading(), vs, edges, v, l) && v in vs
    ensures LeastReaching(vs, edges, v, l)
  {
    var x := WccReading();
    forall u | Reaches(vs, edges, u, v)
      ensures l <= Number(u)
    {
      var w :| IsWalk(vs, edges, u, w, v);
      WccCarries(vs, edges, u, w, v, Number(u));
    }
    assert IsWalk(vs, edges, v, [], v);
    assert Reaches(vs, edges, v, v);
    NumberInRange(v);
    var u, w :| Carries(x, vs, edges, u, w, v, l);
    WccCarries(vs, edges, u, w, v, l);
    assert Reaches(vs, edges, u, v);
  }

  /** After superstep k the label of v is exactly the least id over vertices that reach v by a path
      of at most k - 1 edges. */
  lemma {:induction false} WccSuperstepInvariant(
      edges: multiset<Edge<Bytes, Bytes>>, verts: map<Bytes, Bytes>, k: nat, v: Bytes)
    requires EncodedVertices(verts) && k >= 1 && v in verts
    ensures var st := After(Bulk(WccProgram(), edges), Start(verts), k);
            v in st.verts && LeastReachingWithin(verts.Keys, edges, v, k - 1, Number(st.verts[v]))
  {
    hide LeastReachingWithin, IsLeastWithin, Suitable, Settled;
    WccSuitable(edges, verts);
    LabelsAfter(WccProgram(), WccReading(), WccTyping(), edges, verts, k, k - 1);
    var st := After(Bulk(WccProgram(), edges), Start(verts), k);
    SettledLabel(WccReading(), edges, verts.Keys, st, k - 1, v);
    WccLeastWithin(verts.Keys, edges, v, k - 1, Number(st.verts[v]));
  }

  /** With room for |V| supersteps, the final label of every vertex is the least id that reaches
      it, however long the path, and no more than |V| + 1 supersteps are executed. */
  lemma WccReachesFixpoint(edges: multiset<Edge<Bytes, Bytes>>, verts: map<Bytes, Bytes>, max: nat)
    requires EncodedVertices(verts) && max >= 1 && max >= |verts|
    ensures var (end, executed) := Run(Bulk(WccProgram(), edges), Start(verts), max);
            && end.verts.Keys == verts.Keys
            && executed <= |verts| + 1
            && (forall v :: v in verts ==> LeastReaching(verts.Keys, edges, v, Number(end.verts[v])))
  {
    hide LeastReaching, IsLeast, Suitable, Quiescent;
    WccSuitable(edges, verts);
    WccQuiescent();
    FinalLabels(WccProgram(), WccReading(), WccTyping(), edges, verts, max);
    var end := Run(Bulk(WccProgram(), edges), Start(verts), max).0;
    forall v | v in verts
      ensures LeastReaching(verts.Keys, edges, v, Number(end.verts[v]))
    {
      assert IsLeast(WccReading(), verts.Keys, edges, v, Label(WccReading(), end, v));
      WccLeast(verts.Keys, edges, v, Number(end.verts[v]));
    }
  }

  /** A run takes at most |V| + 1 supersteps, whatever its cap, and leaves the state it would leave
      if it never stopped early. */
  lemma WccStops(edges: multiset<Edge<Bytes, Bytes>>, verts: map<Bytes, Bytes>, max: nat)
    requires EncodedVertices(verts)
    ensures var (end, executed) := Run(Bulk(WccProgram(), edges), Start(verts), max);
            && executed <= max && executed <= |verts| + 1
            && end == After(Bulk(WccProgram(), edges), Start(verts), max)
    ensures Silent(After(Bulk(WccProgram(), edges), Start(verts), |verts| + 1))
  {
    hide Suitable, Quiescent, After;
    WccSuitable(edges, verts);
    WccQuiescent();
    RunLength(WccProgram(), WccReading(), WccTyping(), edges, verts, max);
    QuiescentSettles(WccProgram(), edges);
    EarlyStopIsHarmless(Bulk(WccProgram(), edges), Start(verts), max);
    SilentAfterAllVertices(WccProgram(), WccReading(), WccTyping(), edges, verts);
  }

  lemma SharedLabelConnects(
      vs: set<Bytes>, edges: multiset<Edge<Bytes, Bytes>>, a: Bytes, b: Bytes, l: nat)
    requires Symmetric(vs, edges) && a in vs && b in vs
    requires forall v :: v in vs ==> |v| == 8
    requires LeastReaching(vs, edges, a, l) && LeastReaching(vs, edges, b, l)
    ensures Reaches(vs, edges, a, b)
  {
    var u :| Reaches(vs, edges, u, a) && Number(u) == l;
    var u' :| Reaches(vs, edges, u', b) && Number(u') == l;
    hide LeastReaching, Symmetric, Reaches, Number;
    ReachingIsInside(vs, edges, u, a);
    ReachingIsInside(vs, edges, u', b);
    NumberInjective(u, u');
    ReachesBack(vs, edges, u, a);
    ReachesThrough(vs, edges, a, u, b);
  }

  lemma ReachableLabelIsNoGreater(
      vs: set<Bytes>, edges: multiset<Edge<Bytes, Bytes>>, a: Bytes, la: nat, b: Bytes, lb: nat)
    requires LeastReaching(vs, edges, a, la) && LeastReaching(vs, edges, b, lb)
    requires Reaches(vs, edges, a, b)
    ensures lb <= la
  {
    var u :| Reaches(vs, edges, u, a) && Number(u) == la;
    ReachesThrough(vs, edges, u, a, b);
  }

  /** On a symmetric edge set two vertices share their least reaching id exactly if they are
      connected. */
  lemma SharedLabelMeansConnected(
      vs: set<Bytes>, edges: multiset<Edge<Bytes, Bytes>>, a: Bytes, la: nat, b: Bytes, lb: nat)
    requires Symmetric(vs, edges) && a in vs && b in vs
    requires forall v :: v in vs ==> |v| == 8
    requires LeastReaching(vs, edges, a, la) && LeastReaching(vs, edges, b, lb)
    ensures la == lb <==> Reaches(vs, edges, a, b)
  {
    hide LeastReaching, Symmetric, Reaches;
    if la == lb {
      SharedLabelConnects(vs, edges, a, b, la);
    }
    if Reaches(vs, edges, a, b) {
      ReachesBack(vs, edges, a, b);
      ReachableLabelIsNoGreater(vs, edges, a, la, b, lb);
      ReachableLabelIsNoGreater(vs, edges, b, lb, a, la);
    }
  }

  lemma WccFindsComponents(edges: multiset<Edge<Bytes, Bytes>>, verts: map<Bytes, Bytes>, max: nat, a: Bytes, b: Bytes)
    requires EncodedVertices(verts) && max >= 1 && max >= |verts|
    requires Symmetric(verts.Keys, edges) && a in verts && b in verts
    ensures var end := Run(Bulk(WccProgram(), edges), Start(verts), max).0;
            && end.verts.Keys == verts.Keys
            && (Number(end.verts[a]) == Number(end.verts[b]) <==> Reaches(verts.Keys, edges, a, b))
  {
    hide LeastReaching;
    WccReachesFixpoint(edges, verts, max);
    var end := Run(Bulk(WccProgram(), edges), Start(verts), max).0;
    SharedLabelMeansConnected(verts.Keys, edges, a, Number(end.verts[a]), b, Number(end.verts[b]));
  }
}
