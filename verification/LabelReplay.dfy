/** Labelling after a recovered run that crashed without moving `latest`.

    Its workers may have written labels into the opened checkpoint that are ahead of the saved
    messages. The next run then begins between two cuts, and may lose a label on the way. Here is a
    condition on the disk under which it ends with the right labels all the same.
 */
module LabelReplay {
  import opened Options
  import opened Runs
  import opened Bsp
  import opened WorkerCore
  import opened Rounds
  import opened Refinement
  import opened Disk
  import opened Attempts
  import opened Recovery
  import opened Codec
  import Walks
  import opened MinPropagation
  import opened Wcc
  import EndToEnd

  /** Every edge between vertices will be accounted for: with the saved messages its target gets to a
      label not above that of its source, or its source gets a lower one, which it will send. */
  ghost predicate EveryEdgePending(edges: multiset<Edge<Bytes, Bytes>>, st: State<Bytes, Bytes, Bytes>, it: nat) {
    CatchesUp(WccReading(), edges, st, it)
  }

  // ---------------------------------------------------------------------------------------
  // Labels on the disk are ahead of the cut.

  lemma {:induction false} LabelAt(vertices: seq<(Bytes, Bytes)>, edges: seq<Edge<Bytes, Bytes>>, k: nat, v: Bytes)
    requires EncodedVertices(PutAll(map[], vertices)) && k >= 1 && v in PutAll(map[], vertices).Keys
    ensures var st := StateAfter(WccProgram(), vertices, edges, k);
            && v in st.verts && |st.verts[v]| == 8
            && IsLeastWithin(WccReading(), PutAll(map[], vertices).Keys, multiset(edges), v, k - 1,
                             Label(WccReading(), st, v))
  {
    hide *;
    var st := StateAfter(WccProgram(), vertices, edges, k);
    CutIsSettled(vertices, edges, k);
    SettledLabel(WccReading(), multiset(edges), PutAll(map[], vertices).Keys, st, k - 1, v);
    OkLabel(st, k + 1, v);
  }

  lemma {:induction false} CutIsSettled(vertices: seq<(Bytes, Bytes)>, edges: seq<Edge<Bytes, Bytes>>, k: nat)
    requires EncodedVertices(PutAll(map[], vertices)) && k >= 1
    ensures var cut := StateAfter(WccProgram(), vertices, edges, k);
            && Settled(WccReading(), multiset(edges), PutAll(map[], vertices).Keys, cut, k - 1)
            && OkInside(WccTyping(), cut, k + 1)
  {
    hide Suitable, Settled, EncodedVertices, Bulk, PutAll, OkInside;
    WccSuitable(multiset(edges), PutAll(map[], vertices));
    LabelsAfter(WccProgram(), WccReading(), WccTyping(), multiset(edges), PutAll(map[], vertices), k, k - 1);
  }

  lemma {:induction false} LaterLabel(
      vertices: seq<(Bytes, Bytes)>, edges: seq<Edge<Bytes, Bytes>>, k: nat, j: nat, v: Bytes)
    requires EncodedVertices(PutAll(map[], vertices)) && 1 <= k <= j && v in PutAll(map[], vertices).Keys
    ensures var x, vs := WccReading(), PutAll(map[], vertices).Keys;
            var cut := StateAfter(WccProgram(), vertices, edges, k);
            var later := StateAfter(WccProgram(), vertices, edges, j);
            && v in cut.verts && v in later.verts
            && Label(x, later, v) <= Label(x, cut, v)
            && (Label(x, later, v) < x.inf ==> Brought(x, vs, multiset(edges), v, Label(x, later, v)))
            && |later.verts[v]| == 8
  {
    hide *;
    var x := WccReading();
    var cut := StateAfter(WccProgram(), vertices, edges, k);
    var later := StateAfter(WccProgram(), vertices, edges, j);
    LabelAt(vertices, edges, k, v);
    LabelAt(vertices, edges, j, v);
    LongerIsBetter(PutAll(map[], vertices).Keys, multiset(edges), v, k - 1, j - 1, Label(x, cut, v),
                   Label(x, later, v));
  }

  lemma OkLabel(st: State<Bytes, Bytes, Bytes>, it: nat, v: Bytes)
    requires OkInside(WccTyping(), st, it) && v in st.verts
    ensures |st.verts[v]| == 8
  {
    assert WccTyping().okVertex(v, st.verts[v], it);
  }

  lemma LongerIsBetter(
      vs: set<Bytes>, edges: multiset<Edge<Bytes, Bytes>>, v: Bytes, short: nat, long: nat, c: nat, d: nat)
    requires short <= long
    requires IsLeastWithin(WccReading(), vs, edges, v, short, c) && IsLeastWithin(WccReading(), vs, edges, v, long, d)
    ensures d <= c && (d < WccReading().inf ==> Brought(WccReading(), vs, edges, v, d))
  {
    hide Carries;
    if c < WccReading().inf {
      var u, w :| |w| <= short && Carries(WccReading(), vs, edges, u, w, v, c);
    }
    if d < WccReading().inf {
      AttainedIsBrought(WccReading(), vs, edges, v, long, d);
    }
  }

  /** A state with the messages of the cut, and values that its vertices had then or later. */
  ghost predicate Between(
      vertices: seq<(Bytes, Bytes)>, edges: seq<Edge<Bytes, Bytes>>, k: nat, st: State<Bytes, Bytes, Bytes>)
  {
    && st.pool == StateAfter(WccProgram(), vertices, edges, k).pool
    && st.verts.Keys == PutAll(map[], vertices).Keys
    && forall v :: v in st.verts ==> HadLater(WccProgram(), vertices, edges, k, v, st.verts[v])
  }

  lemma {:induction false} BetweenLabel(
      vertices: seq<(Bytes, Bytes)>, edges: seq<Edge<Bytes, Bytes>>, k: nat, st: State<Bytes, Bytes, Bytes>, v: Bytes)
    requires EncodedVertices(PutAll(map[], vertices)) && k >= 1 && Between(vertices, edges, k, st) && v in st.verts
    ensures var x, vs := WccReading(), PutAll(map[], vertices).Keys;
            var cut := StateAfter(WccProgram(), vertices, edges, k);
            && v in cut.verts && Label(x, st, v) <= Label(x, cut, v)
            && (Label(x, st, v) < x.inf ==> Brought(x, vs, multiset(edges), v, Label(x, st, v)))
            && |st.verts[v]| == 8
  {
    hide EncodedVertices, Brought, StateAfter, PutAll, WccProgram;
    assert HadLater(WccProgram(), vertices, edges, k, v, st.verts[v]);
    var j: nat :| j >= k && HadAt(WccProgram(), vertices, edges, j, v, st.verts[v]);
    assert v in PutAll(map[], vertices).Keys;
    LaterLabel(vertices, edges, k, j, v);
  }

  lemma {:induction false} BetweenOvertakes(
      vertices: seq<(Bytes, Bytes)>, edges: seq<Edge<Bytes, Bytes>>, k: nat, st: State<Bytes, Bytes, Bytes>)
    requires EncodedVertices(PutAll(map[], vertices)) && k >= 1 && Between(vertices, edges, k, st)
    ensures Overtakes(WccReading(), multiset(edges), PutAll(map[], vertices).Keys, st,
                      StateAfter(WccProgram(), vertices, edges, k))
  {
    hide PutAll, EncodedVertices, Brought, Between, WccReading, StateAfter, WccProgram;
    var x, vs, cut := WccReading(), PutAll(map[], vertices).Keys, StateAfter(WccProgram(), vertices, edges, k);
    CutKeys(vertices, edges, k);
    BetweenIs(vertices, edges, k, st);
    forall v | v in st.verts
      ensures v in cut.verts && Label(x, st, v) <= Label(x, cut, v)
      ensures Label(x, st, v) < x.inf ==> Brought(x, vs, multiset(edges), v, Label(x, st, v))
    {
      BetweenLabel(vertices, edges, k, st, v);
    }
  }

  lemma {:induction false} CutKeys(vertices: seq<(Bytes, Bytes)>, edges: seq<Edge<Bytes, Bytes>>, k: nat)
    ensures StateAfter(WccProgram(), vertices, edges, k).verts.Keys == PutAll(map[], vertices).Keys
  {
    hide WccProgram, Bulk, PutAll;
    AfterKeepsKeys(WccProgram(), multiset(edges), PutAll(map[], vertices), k);
  }

  lemma {:induction false} BetweenIsOk(
      vertices: seq<(Bytes, Bytes)>, edges: seq<Edge<Bytes, Bytes>>, k: nat, st: State<Bytes, Bytes, Bytes>)
    requires EncodedVertices(PutAll(map[], vertices)) && k >= 1 && Between(vertices, edges, k, st)
    ensures OkState(WccTyping(), st, k + 1) && OkInside(WccTyping(), st, k + 1)
  {
    var ty, verts := WccTyping(), PutAll(map[], vertices);
    hide PutAll, EncodedVertices, Between, WccProgram, Bulk;
    CutIsOk(vertices, edges, k);
    BetweenIs(vertices, edges, k, st);
    forall v | v in st.verts
      ensures |v| == 8 && |st.verts[v]| == 8
    {
      BetweenLabel(vertices, edges, k, st, v);
      assert v in verts.Keys;
      IdIsEncoded(verts, v);
    }
  }

  lemma {:induction false} CutIsOk(vertices: seq<(Bytes, Bytes)>, edges: seq<Edge<Bytes, Bytes>>, k: nat)
    requires EncodedVertices(PutAll(map[], vertices))
    ensures OkState(WccTyping(), StateAfter(WccProgram(), vertices, edges, k), k + 1)
  {
    hide PutAll, EncodedVertices, Behaves, OrderInsensitive, OkStart, KeepsTyping, WccProgram, OkState, Bulk;
    WccAdmissible();
    WccStartOk(PutAll(map[], vertices));
    AfterKeepsTyping(WccProgram(), WccTyping(), multiset(edges), PutAll(map[], vertices), k, k + 1);
  }

  lemma {:induction false} BetweenIs(
      vertices: seq<(Bytes, Bytes)>, edges: seq<Edge<Bytes, Bytes>>, k: nat, st: State<Bytes, Bytes, Bytes>)
    requires Between(vertices, edges, k, st)
    ensures st.pool == StateAfter(WccProgram(), vertices, edges, k).pool
    ensures st.verts.Keys == PutAll(map[], vertices).Keys
  {
  }

  lemma WccStartOk(verts: map<Bytes, Bytes>)
    requires EncodedVertices(verts)
    ensures OkStart(WccTyping(), verts)
  {
  }

  lemma IdIsEncoded(verts: map<Bytes, Bytes>, v: Bytes)
    requires EncodedVertices(verts) && v in verts.Keys
    ensures |v| == 8
  {
  }

  // ---------------------------------------------------------------------------------------
  // The reference run from there.

  lemma {:induction false} ReplayedLabels(
      vertices: seq<(Bytes, Bytes)>, edges: seq<Edge<Bytes, Bytes>>, k: nat, st: State<Bytes, Bytes, Bytes>, max: nat)
    requires EncodedVertices(PutAll(map[], vertices)) && k >= 1 && Between(vertices, edges, k, st)
    requires EveryEdgePending(multiset(edges), st, k + 1) && max >= |PutAll(map[], vertices)|
    ensures var end := RunFrom(Bulk(WccProgram(), multiset(edges)), st, k + 1, max).0;
            var vs := PutAll(map[], vertices).Keys;
            && end.verts.Keys == vs
            && forall v :: v in vs ==> LeastReaching(vs, multiset(edges), v, Number(end.verts[v]))
  {
    hide *;
    var x, vs := WccReading(), PutAll(map[], vertices).Keys;
    KeysCount(PutAll(map[], vertices));
    WccWeightless(multiset(edges));
    WccPropagates();
    BetweenOvertakes(vertices, edges, k, st);
    BetweenIsOk(vertices, edges, k, st);
    CutIsSettled(vertices, edges, k);
    PendingCatchesUp(multiset(edges), st, k + 1);
    OvertakenRun(WccProgram(), x, WccTyping(), multiset(edges), vs, st, StateAfter(WccProgram(), vertices, edges, k),
                 k - 1, k + 1, max);
    var end := RunFrom(Bulk(WccProgram(), multiset(edges)), st, k + 1, max).0;
    AllLeastKeys(multiset(edges), vs, end);
    forall v | v in vs
      ensures LeastReaching(vs, multiset(edges), v, Number(end.verts[v]))
    {
      AllLeastReaching(multiset(edges), vs, end, v);
    }
  }

  lemma KeysCount<K, V>(m: map<K, V>)
    ensures |m.Keys| == |m|
  {
  }

  lemma WccWeightless(edges: multiset<Edge<Bytes, Bytes>>)
    ensures OkEdges(WccReading(), edges) && Weightless(WccReading(), edges)
  {
  }

  lemma PendingCatchesUp(edges: multiset<Edge<Bytes, Bytes>>, st: State<Bytes, Bytes, Bytes>, it: nat)
    requires EveryEdgePending(edges, st, it)
    ensures CatchesUp(WccReading(), edges, st, it)
  {
  }

  lemma AllLeastKeys(edges: multiset<Edge<Bytes, Bytes>>, vs: set<Bytes>, st: State<Bytes, Bytes, Bytes>)
    requires AllLeast(WccReading(), edges, vs, st)
    ensures st.verts.Keys == vs
  {
  }

  lemma AllLeastReaching(edges: multiset<Edge<Bytes, Bytes>>, vs: set<Bytes>, st: State<Bytes, Bytes, Bytes>, v: Bytes)
    requires AllLeast(WccReading(), edges, vs, st) && v in vs
    ensures v in st.verts && LeastReaching(vs, edges, v, Number(st.verts[v]))
  {
    hide IsLeast, LeastReaching;
    WccLeast(vs, edges, v, Number(st.verts[v]));
  }

  /** The condition holds of the cut itself, so that it covers disks on which nothing was changed. */
  lemma {:induction false} CutIsPending(vertices: seq<(Bytes, Bytes)>, edges: seq<Edge<Bytes, Bytes>>, k: nat)
    requires EncodedVertices(PutAll(map[], vertices)) && k >= 1
    ensures EveryEdgePending(multiset(edges), StateAfter(WccProgram(), vertices, edges, k), k + 1)
  {
    hide Settled, EncodedVertices, StateAfter, PutAll, OkInside, WccProgram, CatchesUp;
    CutIsSettled(vertices, edges, k);
    SettledCatchesUp(WccReading(), multiset(edges), PutAll(map[], vertices).Keys,
                     StateAfter(WccProgram(), vertices, edges, k), k - 1, k + 1);
  }

  /** And of every disk on which all labels are final. */
  lemma FinalIsPending(vs: set<Bytes>, edges: multiset<Edge<Bytes, Bytes>>, st: State<Bytes, Bytes, Bytes>, it: nat)
    requires st.verts.Keys == vs && it >= 2
    requires forall v :: v in vs ==> LeastReaching(vs, edges, v, Number(st.verts[v]))
    ensures EveryEdgePending(edges, st, it)
  {
    var x := WccReading();
    hide LeastReaching;
    forall e | e in edges && e.src in st.verts && e.dst in st.verts
      ensures NextOf(x, st, it, e.dst) <= Label(x, st, e.src)
    {
      LeastFacts(x, Label(x, st, e.dst), Received(st, e.dst));
      LeastAlongEdge(vs, edges, e, Number(st.verts[e.src]), Number(st.verts[e.dst]));
      hide Received, Least;
    }
  }

  lemma LeastAlongEdge(vs: set<Bytes>, edges: multiset<Edge<Bytes, Bytes>>, e: Edge<Bytes, Bytes>, a: nat, b: nat)
    requires e in edges && e.src in vs
    requires LeastReaching(vs, edges, e.src, a) && LeastReaching(vs, edges, e.dst, b)
    ensures b <= a
  {
    var u :| Walks.Reaches(vs, edges, u, e.src) && Number(u) == a;
    var w :| Walks.IsWalk(vs, edges, u, w, e.src);
    assert (w + [e])[..|w|] == w;
    assert Walks.IsWalk(vs, edges, u, w + [e], e.dst);
    assert Walks.Reaches(vs, edges, u, e.dst);
  }

  // ---------------------------------------------------------------------------------------
  // The next run.

  /** A recovered labelling run crashed without moving `latest`. Whatever its workers had written, the
      next run begins with a state `st` between two cuts; and if every edge is pending in it, the run
      succeeds and finds the components. */
  lemma {:induction false} UnmovedFindsComponents(
      a: Attempt<Bytes, Bytes, Bytes, Bytes, ()>, vertices: seq<(Bytes, Bytes)>, edges: seq<Edge<Bytes, Bytes>>,
      k: nat, d: DiskState<Bytes, Bytes, Bytes, Bytes>, sites: seq<Site<Bytes, Bytes, Bytes, ()>>)
    returns (st: State<Bytes, Bytes, Bytes>)
    requires a.job.alg == WccAlg() && EndToEnd.EncodedInput(vertices) && ValidCluster(a.c0)
    requires Stands(a.job, WccProgram(), WccTyping(), vertices, edges, a.c0, k)
    requires 1 <= k <= a.job.max && a.job.max >= |PutAll(map[], vertices)|
    requires Recovers(a.spec, a.disk) && a.First() == k + 1 && Complete(a.disk, k, |a.c0.sites|)
    requires a.disk.inboxes[k] == a.c0.inboxes
    requires LeftBehind(a, d) && d.latest == a.disk.latest && |sites| == |a.c0.sites|
    ensures SameWorkers(a.spec, d, |sites|)
    ensures Represents(a.job.hash, multiset(edges), Beginning(a.spec, d, sites), st)
    ensures Between(vertices, edges, k, st)
    ensures var b := Attempt(a.job, a.spec, d, Beginning(a.spec, d, sites));
            EveryEdgePending(multiset(edges), st, k + 1) ==>
              && ValidCluster(b.c0) && b.First() == k + 1 && b.Outcome().Some?
              && EndToEnd.ComponentsFound(a.job.hash, b.Outcome().value.0, PutAll(map[], vertices), multiset(edges))
  {
    EndToEnd.EncodedInputMap(vertices);
    st := LiveBeginning(a, WccProgram(), WccTyping(), vertices, edges, k, d, sites);
    var b := Attempt(a.job, a.spec, d, Beginning(a.spec, d, sites));
    assert b.First() == k + 1;
    hide PutAll, Stands, Represents, EncodedVertices, LeftBehind, Complete, Recovers, Beginning, StateAfter, HadLater,
      EveryEdgePending, EndToEnd.ComponentsFound, EndToEnd.EncodedInput, ExecuteFrom;
    if EveryEdgePending(multiset(edges), st, k + 1) {
      PendingFindsComponents(b, vertices, edges, k, st);
    }
  }

  lemma WccAlwaysReady(c: Cluster<Bytes, Bytes, Bytes, Bytes, ()>, it: nat)
    ensures Ready(WccTyping(), c, it)
  {
  }

  lemma {:induction false} PendingFindsComponents(
      b: Attempt<Bytes, Bytes, Bytes, Bytes, ()>, vertices: seq<(Bytes, Bytes)>, edges: seq<Edge<Bytes, Bytes>>,
      k: nat, st: State<Bytes, Bytes, Bytes>)
    requires b.job.alg == WccAlg() && EncodedVertices(PutAll(map[], vertices)) && b.First() == k + 1
    requires k >= 1 && b.job.max >= |PutAll(map[], vertices)|
    requires Represents(b.job.hash, multiset(edges), b.c0, st) && Between(vertices, edges, k, st)
    requires EveryEdgePending(multiset(edges), st, k + 1)
    ensures ValidCluster(b.c0) && b.Outcome().Some?
    ensures EndToEnd.ComponentsFound(b.job.hash, b.Outcome().value.0, PutAll(map[], vertices), multiset(edges))
  {
    hide PutAll, Represents, EncodedVertices, EveryEdgePending, ExecuteFrom, Between, Admissible, Ready, OkState,
      OkInside, Overtakes, Settled, Bulk, LeastReaching, WccProgram, WccTyping, EndToEnd.ValueOf, RunFrom;
    WccAlwaysReady(b.c0, k + 1);
    WccAdmissible();
    BetweenIsOk(vertices, edges, k, st);
    ExecuteRefines(b.job, WccProgram(), WccTyping(), multiset(edges), b.c0, st, k + 1);
    ReplayedLabels(vertices, edges, k, st, b.job.max);
    RepresentsOwned(b.job.hash, multiset(edges), b.c0, st);
    OutcomeIs(b);
    var end := RunFrom(Bulk(WccProgram(), multiset(edges)), st, k + 1, b.job.max).0;
    forall v | v in PutAll(map[], vertices)
      ensures var x := EndToEnd.ValueOf(b.job.hash, b.Outcome().value.0, v);
              x.Some? && LeastReaching(PutAll(map[], vertices).Keys, multiset(edges), v, Number(x.value))
    {
      assert v in end.verts.Keys;
      EndToEnd.HeldValue(b.job.hash, multiset(edges), b.Outcome().value.0, end, v);
    }
  }
}
