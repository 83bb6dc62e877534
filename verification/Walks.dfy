/** Walks in a directed graph with natural edge weights, and the removal of their cycles. */
module Walks {
  import opened Bags
  import opened Bsp

  /** `w` leads from `u` to `v` along edges that leave vertices of `vs`; `v` itself may be absent. */
  ghost predicate IsWalk<K, E>(vs: set<K>, edges: multiset<Edge<K, E>>, u: K, w: seq<Edge<K, E>>, v: K) {
    if w == [] then
      u == v && u in vs
    else
      var e := w[|w| - 1];
      && e in edges && e.src in vs && e.dst == v
      && IsWalk(vs, edges, u, w[..|w| - 1], e.src)
  }

  ghost function Cost<K, E>(weight: E -> nat, w: seq<Edge<K, E>>): nat {
    if w == [] then 0 else Cost(weight, w[..|w| - 1]) + weight(w[|w| - 1].value)
  }

  /** The vertex reached after the first `i` edges. */
  ghost function At<K, E>(u: K, w: seq<Edge<K, E>>, i: nat): K
    requires i <= |w|
  {
    if i == 0 then u else w[i - 1].dst
  }

  lemma {:induction false} Split<K, E>(
      weight: E -> nat, vs: set<K>, edges: multiset<Edge<K, E>>, u: K, w: seq<Edge<K, E>>, v: K, i: nat)
    requires IsWalk(vs, edges, u, w, v) && i <= |w| && At(u, w, i) in vs
    ensures IsWalk(vs, edges, u, w[..i], At(u, w, i))
    ensures IsWalk(vs, edges, At(u, w, i), w[i..], v)
    ensures Cost(weight, w) == Cost(weight, w[..i]) + Cost(weight, w[i..])
  {
    if i == |w| {
      assert w[..i] == w && w[i..] == [];
    } else {
      var front, e := w[..|w| - 1], w[|w| - 1];
      Split(weight, vs, edges, u, front, e.src, i);
      assert w[..i] == front[..i];
      assert w[i..][..|w[i..]| - 1] == front[i..];
    }
  }

  lemma {:induction false} Join<K, E>(
      weight: E -> nat, vs: set<K>, edges: multiset<Edge<K, E>>, u: K, a: seq<Edge<K, E>>, x: K,
      b: seq<Edge<K, E>>, v: K)
    requires IsWalk(vs, edges, u, a, x) && IsWalk(vs, edges, x, b, v)
    ensures IsWalk(vs, edges, u, a + b, v)
    ensures Cost(weight, a + b) == Cost(weight, a) + Cost(weight, b)
  {
    if b == [] {
      assert a + b == a;
    } else {
      Join(weight, vs, edges, u, a, x, b[..|b| - 1], b[|b| - 1].src);
      assert (a + b)[..|a + b| - 1] == a + b[..|b| - 1];
    }
  }

  lemma {:induction false} VisitsVertices<K, E>(
      vs: set<K>, edges: multiset<Edge<K, E>>, u: K, w: seq<Edge<K, E>>, v: K, i: nat)
    requires IsWalk(vs, edges, u, w, v) && v in vs && i <= |w|
    ensures At(u, w, i) in vs
  {
    if i < |w| {
      VisitsVertices(vs, edges, u, w[..|w| - 1], w[|w| - 1].src, i);
      assert At(u, w[..|w| - 1], i) == At(u, w, i);
    }
  }

  lemma {:induction false} DistinctFits<T>(s: seq<T>, vs: set<T>)
    requires Distinct(s) && forall x :: x in s ==> x in vs
    ensures |s| <= |vs|
  {
    if s != [] {
      var last := s[|s| - 1];
      var front := s[..|s| - 1];
      forall x | x in front
        ensures x in vs - {last}
      {
      }
      DistinctFits(front, vs - {last});
    }
  }

  /** The vertices of a walk, in order. */
  ghost function Visited<K, E>(u: K, w: seq<Edge<K, E>>): (r: seq<K>)
    ensures |r| == |w| + 1
  {
    seq(|w| + 1, i requires 0 <= i <= |w| => At(u, w, i))
  }

  /** A walk that visits no vertex twice. */
  ghost predicate Simple<K, E>(u: K, w: seq<Edge<K, E>>) {
    Distinct(Visited(u, w))
  }

  /** A simple walk inside the vertex set has fewer edges than there are vertices. */
  lemma {:induction false} SimpleIsShort<K, E>(vs: set<K>, edges: multiset<Edge<K, E>>, u: K, w: seq<Edge<K, E>>, v: K)
    requires IsWalk(vs, edges, u, w, v) && v in vs && Simple(u, w)
    ensures |w| < |vs|
  {
    forall i: nat | i <= |w|
      ensures At(u, w, i) in vs
    {
      VisitsVertices(vs, edges, u, w, v, i);
    }
    DistinctFits(Visited(u, w), vs);
  }

  /** Without a cycle a walk is shorter and costs no more. */
  lemma RemoveCycle<K, E>(
      weight: E -> nat, vs: set<K>, edges: multiset<Edge<K, E>>, u: K, w: seq<Edge<K, E>>, v: K)
    returns (shorter: seq<Edge<K, E>>)
    requires IsWalk(vs, edges, u, w, v) && v in vs && !Simple(u, w)
    ensures IsWalk(vs, edges, u, shorter, v)
    ensures |shorter| < |w| && Cost(weight, shorter) <= Cost(weight, w)
  {
    var i, j :| 0 <= i < j < |w| + 1 && Visited(u, w)[i] == Visited(u, w)[j];
    VisitsVertices(vs, edges, u, w, v, i);
    VisitsVertices(vs, edges, u, w, v, j);
    Split(weight, vs, edges, u, w, v, i);
    Split(weight, vs, edges, u, w, v, j);
    shorter := w[..i] + w[j..];
    Join(weight, vs, edges, u, w[..i], At(u, w, i), w[j..], v);
    CostOfPrefix(weight, w, i, j);
  }

  lemma {:induction false} CostOfPrefix<K, E>(weight: E -> nat, w: seq<Edge<K, E>>, i: nat, j: nat)
    requires i <= j <= |w|
    ensures Cost(weight, w[..i]) <= Cost(weight, w[..j])
    decreases j
  {
    if i < j {
      CostOfPrefix(weight, w, i, j - 1);
      assert w[..j][..j - 1] == w[..j - 1];
    }
  }

  /** Every walk can be cut down to a simple one, with fewer edges than there are vertices, at no
      extra cost. */
  lemma {:induction false} ShortWalk<K, E>(
      weight: E -> nat, vs: set<K>, edges: multiset<Edge<K, E>>, u: K, w: seq<Edge<K, E>>, v: K)
    returns (short: seq<Edge<K, E>>)
    requires IsWalk(vs, edges, u, w, v) && v in vs
    ensures IsWalk(vs, edges, u, short, v) && Simple(u, short)
    ensures |short| < |vs| && |short| <= |w| && Cost(weight, short) <= Cost(weight, w)
    decreases |w|
  {
    if Simple(u, w) {
      short := w;
      SimpleIsShort(vs, edges, u, w, v);
    } else {
      var shorter := RemoveCycle(weight, vs, edges, u, w, v);
      short := ShortWalk(weight, vs, edges, u, shorter, v);
    }
  }

  // ---------------------------------------------------------------------------------------
  // Reachability.

  /** There is a directed path inside the vertex set. */
  ghost predicate Reaches<K(!new), E(!new)>(vs: set<K>, edges: multiset<Edge<K, E>>, u: K, v: K) {
    exists w :: IsWalk(vs, edges, u, w, v)
  }

  /** Every edge between two vertices has a reverse. */
  ghost predicate Symmetric<K(!new), E(!new)>(vs: set<K>, edges: multiset<Edge<K, E>>) {
    forall e :: e in edges && e.src in vs && e.dst in vs ==>
      exists back :: back in edges && back.src == e.dst && back.dst == e.src
  }

  lemma ReachesThrough<K(!new), E(!new)>(vs: set<K>, edges: multiset<Edge<K, E>>, u: K, x: K, v: K)
    requires Reaches(vs, edges, u, x) && Reaches(vs, edges, x, v)
    ensures Reaches(vs, edges, u, v)
  {
    var a :| IsWalk(vs, edges, u, a, x);
    var b :| IsWalk(vs, edges, x, b, v);
    Join((e: E) => 0, vs, edges, u, a, x, b, v);
  }

  lemma ReachingIsInside<K(!new), E(!new)>(vs: set<K>, edges: multiset<Edge<K, E>>, u: K, v: K)
    requires Reaches(vs, edges, u, v)
    ensures u in vs
  {
    var w :| IsWalk(vs, edges, u, w, v);
    WalkStartsInside(vs, edges, u, w, v);
  }

  lemma {:induction false} WalkStartsInside<K, E>(
      vs: set<K>, edges: multiset<Edge<K, E>>, u: K, w: seq<Edge<K, E>>, v: K)
    requires IsWalk(vs, edges, u, w, v)
    ensures u in vs
  {
    if w != [] {
      WalkStartsInside(vs, edges, u, w[..|w| - 1], w[|w| - 1].src);
    }
  }

  lemma ReachesBack<K(!new), E(!new)>(vs: set<K>, edges: multiset<Edge<K, E>>, u: K, v: K)
    requires Symmetric(vs, edges) && Reaches(vs, edges, u, v) && v in vs
    ensures Reaches(vs, edges, v, u)
  {
    var w :| IsWalk(vs, edges, u, w, v);
    WalkBack(vs, edges, u, w, v);
  }

  lemma EdgeBack<K(!new), E(!new)>(vs: set<K>, edges: multiset<Edge<K, E>>, e: Edge<K, E>)
    requires Symmetric(vs, edges) && e in edges && e.src in vs && e.dst in vs
    ensures Reaches(vs, edges, e.dst, e.src)
  {
    var back :| back in edges && back.src == e.dst && back.dst == e.src;
    hide Symmetric;
    var w := [back];
    assert w[..|w| - 1] == [];
    assert IsWalk(vs, edges, e.dst, [], back.src);
    assert IsWalk(vs, edges, e.dst, w, e.src);
  }

  lemma {:induction false} WalkBack<K(!new), E(!new)>(
      vs: set<K>, edges: multiset<Edge<K, E>>, u: K, w: seq<Edge<K, E>>, v: K)
    requires Symmetric(vs, edges) && IsWalk(vs, edges, u, w, v) && v in vs
    ensures Reaches(vs, edges, v, u)
    decreases |w|
  {
    hide Symmetric;
    if w == [] {
      assert IsWalk(vs, edges, v, [], u);
    } else {
      var e := w[|w| - 1];
      WalkBack(vs, edges, u, w[..|w| - 1], e.src);
      EdgeBack(vs, edges, e);
      ReachesThrough(vs, edges, v, e.src, u);
    }
  }
}
