/** The driver, on one schedule of the protocol: a worker reacts to a message as soon as it is sent.

    Every other schedule leads to the same outcome (ProtocolTheorems.EveryScheduleAgrees), so what
    is shown here of the driver's loops holds of all of them.
 */
module Driver {
  import opened Options
  import opened Bsp
  import opened Batching
  import opened Shuffle
  import opened WorkerCore
  import opened Rounds
  import opened LocalEngine
  import opened Refinement

  // ---------------------------------------------------------------------------------------
  // One worker's part of a superstep.

  ghost predicate Waits<K, V, E, M, S>(w: WorkerState<K, V, E, M, S>) {
    w.pendingIteration == None && w.pendingInbox == map[]
  }

  /** The worker once it has absorbed these entries of superstep `it`. */
  ghost function Partway<K, V, E, M, S>(
      w: WorkerState<K, V, E, M, S>, it: nat, entries: seq<(K, seq<M>)>): WorkerState<K, V, E, M, S>
  {
    w.(pendingIteration := Some(it), pendingInbox := Merge(map[], entries))
  }

  ghost function Finished<K, V, E, M, S>(r: Processed<K, V, E, M, S>): WorkerState<K, V, E, M, S> {
    WorkerState(r.store, r.algo, None, map[])
  }

  lemma {:induction false} AbsorbedChunk<K, V, E, M, S>(
      w: WorkerState<K, V, E, M, S>, it: nat, entries: seq<(K, seq<M>)>, chunk: Chunk<(K, seq<M>)>)
    requires Waits(w)
    ensures Absorbed(Partway(w, it, entries), SuperstepBatch(it, chunk)) == Merge(map[], entries + chunk.items)
    ensures entries == [] ==> Absorbed(w, SuperstepBatch(it, chunk)) == Merge(map[], entries + chunk.items)
  {
    MergeConcat(map[], entries, chunk.items);
    assert [] + chunk.items == chunk.items;
  }

  /** What the next batch does to a worker that has absorbed all batches before it. */
  lemma {:induction false} ChunkHandled<K, V, E, M, S>(
      alg: Alg<K, V, E, M, S>, w: WorkerState<K, V, E, M, S>, now: WorkerState<K, V, E, M, S>, it: nat,
      entries: seq<(K, seq<M>)>, chunk: Chunk<(K, seq<M>)>)
    requires Waits(w)
    requires now == Partway(w, it, entries) || (entries == [] && now == w)
    ensures var r := Handle(alg, now, SuperstepBatch(it, chunk));
            && (!chunk.last ==> r == Some((Partway(w, it, entries + chunk.items), [])))
            && (chunk.last ==>
                  r == match Process(alg, w.store, w.algo, Merge(map[], entries + chunk.items), it)
                       case None => None
                       case Some(p) => Some((Finished(p), Replies(it, Chunks(p.outbox)))))
  {
    hide Process, Merge, Chunks;
    AbsorbedChunk(w, it, entries, chunk);
  }

  lemma JoinedStep<T>(chunks: seq<Chunk<T>>, j: nat)
    requires j < |chunks|
    ensures Joined(chunks[..j + 1]) == Joined(chunks[..j]) + chunks[j].items
    ensures Joined(chunks[..0]) == []
  {
    assert chunks[..j + 1][..j] == chunks[..j];
  }

  /** The entries of an inbox, in an order of no importance; the inbox is left empty. */
  method Drain<K(!new, ==), M>(inbox: Inbox<K, M>) returns (entries: seq<(K, seq<M>)>)
    ensures Drains(entries, inbox)
  {
    var order := ListKeys(inbox);
    entries := [];
    for i := 0 to |order|
      invariant |entries| == i
      invariant forall j :: 0 <= j < i ==> entries[j] == (order[j], inbox[order[j]])
    {
      entries := entries + [(order[i], inbox[order[i]])];
    }
    forall k | k in inbox
      ensures exists i :: 0 <= i < |entries| && entries[i].0 == k
    {
      var i :| 0 <= i < |order| && order[i] == k;
      assert entries[i].0 == k;
    }
  }

  lemma RepliesTail<K, M>(it: nat, chunks: seq<Chunk<(K, M)>>, j: nat)
    requires j < |chunks|
    ensures Replies(it, chunks)[j..][0] == SuperstepResultBatch(it, chunks[j])
    ensures Replies(it, chunks)[j..][1..] == Replies(it, chunks)[j + 1..]
  {
  }

  /** The cluster in the middle of a round: the first `i` workers have done their superstep. */
  ghost predicate RoundUnderWay<K(!new), V, E, M, S>(
      alg: Alg<K, V, E, M, S>, c: Cluster<K, V, E, M, S>, it: nat, i: nat,
      before: seq<WorkerState<K, V, E, M, S>>, now: seq<WorkerState<K, V, E, M, S>>, queues: seq<seq<ToDriver<K, M>>>)
    requires ValidCluster(c) && i <= |c.sites| && |before| == |now| == |queues| == |c.sites|
  {
    && (forall k: nat :: k < i ==>
          && Work(alg, c, it, k).Some?
          && now[k] == Finished(Work(alg, c, it, k).value)
          && queues[k] == Replies(it, Chunks(Outbox(alg, c, it, k))))
    && (forall k: nat :: i <= k < |now| ==> now[k] == before[k] && queues[k] == [])
  }

  lemma SendingNext<K(!new), V, E, M, S>(
      alg: Alg<K, V, E, M, S>, c: Cluster<K, V, E, M, S>, it: nat, i: nat,
      before: seq<WorkerState<K, V, E, M, S>>, now: seq<WorkerState<K, V, E, M, S>>, queues: seq<seq<ToDriver<K, M>>>)
    requires ValidCluster(c) && i < |c.sites| && |before| == |now| == |queues| == |c.sites|
    requires RoundUnderWay(alg, c, it, i, before, now, queues)
    requires Work(alg, c, it, i).Some?
    ensures RoundUnderWay(alg, c, it, i + 1, before, now[i := Finished(Work(alg, c, it, i).value)],
                   queues[i := Replies(it, Chunks(Outbox(alg, c, it, i)))])
  {
    hide Work, Chunks, Replies;
  }

  lemma AllSent<K(!new), V, E, M, S>(
      job: Job<K, V, E, M, S>, c: Cluster<K, V, E, M, S>, it: nat,
      before: seq<WorkerState<K, V, E, M, S>>, now: seq<WorkerState<K, V, E, M, S>>, queues: seq<seq<ToDriver<K, M>>>)
    requires ValidCluster(c) && |before| == |now| == |queues| == |c.sites|
    requires RoundUnderWay(job.alg, c, it, |c.sites|, before, now, queues)
    ensures Succeeds(job.alg, c, it) && SitesOf(now) == NewSites(job.alg, c, it)
    ensures forall k :: 0 <= k < |now| ==> Waits(now[k])
  {
    hide Work, Chunks, Replies;
    assert forall k: nat :: k < |now| ==>
      Work(job.alg, c, it, k).Some? && now[k] == Finished(Work(job.alg, c, it, k).value);
  }

  /** The vertices of a store in listing order. */
  function Listed<K, V, E>(store: Store<K, V, E>): seq<(K, V)>
    requires forall k :: k in store.order ==> k in store.verts
  {
    seq(|store.order|, i requires 0 <= i < |store.order| => (store.order[i], store.verts[store.order[i]]))
  }

  method ListStore<K, V, E>(store: Store<K, V, E>) returns (out: seq<(K, V)>)
    requires ValidStore(store)
    ensures out == Listed(store)
  {
    out := [];
    for i := 0 to |store.order|
      invariant out == Listed(store)[..i]
    {
      out := out + [(store.order[i], store.verts[store.order[i]])];
    }
  }

  /** What the first `i` workers answer when asked for their vertices. */
  ghost function Fetched<K, V, E, S>(sites: seq<Site<K, V, E, S>>, i: nat): seq<(K, V)>
    requires i <= |sites| && forall j :: 0 <= j < |sites| ==> ValidStore(sites[j].store)
  {
    if i == 0 then [] else Fetched(sites, i - 1) + Listed(sites[i - 1].store)
  }

  lemma {:induction false} FetchedOrders<K, V, E, M, S>(c: Cluster<K, V, E, M, S>, i: nat)
    requires i <= |c.sites| && forall j :: 0 <= j < |c.sites| ==> ValidStore(c.sites[j].store)
    ensures |Fetched(c.sites, i)| == |AllOrders(c, i)|
    ensures forall x :: 0 <= x < |AllOrders(c, i)| ==> Fetched(c.sites, i)[x].0 == AllOrders(c, i)[x]
  {
    if i > 0 {
      FetchedOrders(c, i - 1);
    }
  }

  lemma {:induction false} FetchedHeld<K, V, E, S>(sites: seq<Site<K, V, E, S>>, i: nat, x: (K, V))
    requires i <= |sites| && forall j :: 0 <= j < |sites| ==> ValidStore(sites[j].store)
    requires x in Fetched(sites, i)
    ensures exists j :: 0 <= j < i && x.0 in sites[j].store.verts && sites[j].store.verts[x.0] == x.1
  {
    if i > 0 {
      if x in Fetched(sites, i - 1) {
        FetchedHeld(sites, i - 1, x);
      } else {
        assert x in Listed(sites[i - 1].store);
      }
    }
  }

  /** What the driver fetches from a cluster that represents a state is the vertex map of that state:
      every vertex exactly once, with its value, whatever the number of workers. */
  lemma FetchedIsResult<K(!new), V(!new), E(!new), M(!new), S>(
      hash: K -> nat, edges: multiset<Edge<K, E>>, c: Cluster<K, V, E, M, S>, st: State<K, V, M>)
    requires Represents(hash, edges, c, st)
    ensures forall j :: 0 <= j < |c.sites| ==> ValidStore(c.sites[j].store)
    ensures var out := Fetched(c.sites, |c.sites|);
            && (forall x :: 0 <= x < |out| ==> out[x].0 in st.verts && st.verts[out[x].0] == out[x].1)
            && (forall x, y :: 0 <= x < y < |out| ==> out[x].0 != out[y].0)
            && (forall k :: k in st.verts ==> (k, st.verts[k]) in out)
  {
    forall j | 0 <= j < |c.sites|
      ensures ValidStore(c.sites[j].store)
    {
      assert Sees(edges, st, c.sites[j].store, c.inboxes[j]);
    }
    var n := |c.sites|;
    var out := Fetched(c.sites, n);
    OrdersListVertices(hash, edges, c, st, n);
    FetchedOrders(c, n);
    hide Fetched, AllOrders, Sees, ValidStore;
    forall x | 0 <= x < |out|
      ensures out[x].0 in st.verts && st.verts[out[x].0] == out[x].1
    {
      assert out[x] in out;
      FetchedHeld(c.sites, n, out[x]);
      RepresentsStores(hash, edges, c, st, out[x].0);
    }
    forall k | k in st.verts
      ensures (k, st.verts[k]) in out
    {
      assert k in AllOrders(c, n);
      var x :| 0 <= x < |AllOrders(c, n)| && AllOrders(c, n)[x] == k;
      assert out[x] == (k, st.verts[k]);
    }
  }

  class DistributedDriver<K(!new, ==), V, E, M(==), S> {
    const hash: K -> nat
    const alg: Alg<K, V, E, M, S>
    /** The workers at the far ends of the connections. */
    const workers: array<WorkerState<K, V, E, M, S>>
    /** What each worker has sent and the driver has not received yet. */
    const responses: array<seq<ToDriver<K, M>>>

    ghost predicate Connected()
      reads this
    {
      workers.Length == responses.Length >= 1
    }

    /** Between supersteps: nothing in any channel, no worker with a partly received inbox. */
    ghost predicate Idle()
      reads this, workers, responses
    {
      && Connected()
      && (forall i :: 0 <= i < workers.Length ==> Waits(workers[i]) && responses[i] == [])
    }

    ghost function Sites(): (sites: seq<Site<K, V, E, S>>)
      reads this, workers
      ensures |sites| == workers.Length
    {
      SitesOf(workers[..])
    }

    constructor (hash: K -> nat, alg: Alg<K, V, E, M, S>, stores: seq<Store<K, V, E>>)
      requires |stores| >= 1
      ensures Idle() && fresh(workers) && fresh(responses)
      ensures this.hash == hash && this.alg == alg
      ensures Sites() == seq(|stores|, i requires 0 <= i < |stores| => Site(stores[i], alg.init))
    {
      this.hash := hash;
      this.alg := alg;
      this.workers := new WorkerState<K, V, E, M, S>[|stores|](i requires 0 <= i < |stores| =>
        WorkerState(stores[i], alg.init, None, map[]));
      this.responses := new seq<ToDriver<K, M>>[|stores|](_ => []);
    }

    /** A message to worker `i`; false when the worker dies of it. */
    method Send(i: nat, msg: ToWorker<K, M>) returns (ok: bool)
      requires Connected() && i < workers.Length
      modifies workers, responses
      ensures ok == Handle(alg, old(workers[i]), msg).Some?
      ensures ok ==>
                var r := Handle(alg, old(workers[i]), msg).value;
                && workers[..] == old(workers[..])[i := r.0]
                && responses[..] == old(responses[..])[i := old(responses[i]) + r.1]
    {
      hide Handle;
      var r := Handle(alg, workers[i], msg);
      if r.None? {
        return false;
      }
      workers[i] := r.value.0;
      responses[i] := responses[i] + r.value.1;
      ok := true;
    }

    /** Worker `i` gets its inbox, batch by batch, and has computed its superstep when the last one
        is out. */
    method SendInbox(i: nat, iteration: nat, inbox: Inbox<K, M>) returns (ok: bool)
      requires Connected() && i < workers.Length && Waits(workers[i])
      modifies workers, responses
      ensures var r := Process(alg, old(workers[i]).store, old(workers[i]).algo, inbox, iteration);
              && ok == r.Some?
              && (ok ==>
                    && workers[..] == old(workers[..])[i := Finished(r.value)]
                    && responses[..] == old(responses[..])[i :=
                         old(responses[i]) + Replies(iteration, Chunks(r.value.outbox))])
    {
      hide Process, Handle, Merge, Chunks, Joined, Drains, Waits;
      ghost var w, queued := workers[i], responses[i];
      ghost var before, queues := workers[..], responses[..];
      var entries := Drain(inbox);
      MergeDrained(entries, inbox);
      var chunks := Split(entries);
      ChunksRoundTrip(entries);
      JoinedStep(chunks, 0);
      for j := 0 to |chunks|
        invariant j < |chunks| ==>
                    && (workers[i] == Partway(w, iteration, Joined(chunks[..j]))
                        || (Joined(chunks[..j]) == [] && workers[i] == w))
                    && workers[..] == before[i := workers[i]] && responses[..] == queues
        invariant j == |chunks| ==>
                    var r := Process(alg, w.store, w.algo, inbox, iteration);
                    && r.Some?
                    && workers[..] == before[i := Finished(r.value)]
                    && responses[..] == queues[i := queued + Replies(iteration, Chunks(r.value.outbox))]
      {
        JoinedStep(chunks, j);
        ChunkHandled(alg, w, workers[i], iteration, Joined(chunks[..j]), chunks[j]);
        assert j == |chunks| - 1 ==> chunks[..j + 1] == chunks;
        var sent := Send(i, SuperstepBatch(iteration, chunks[j]));
        if !sent {
          return false;
        }
        assert queued + [] == queued;
      }
      ok := true;
    }

    /** Worker `i`'s answers are received, batch by batch, up to the one marked last, and routed. */
    method ReceiveOutbox(i: nat, nextInboxes: array<Inbox<K, M>>, anyMsg0: bool, ghost iteration: nat,
                         ghost outbox: seq<(K, M)>)
      returns (anyMsg: bool)
      requires Connected() && i < responses.Length && nextInboxes.Length >= 1
      requires responses[i] == Replies(iteration, Chunks(outbox))
      modifies responses, nextInboxes
      ensures responses[..] == old(responses[..])[i := []]
      ensures nextInboxes[..] == Route(hash, old(nextInboxes[..]), outbox)
      ensures anyMsg == (anyMsg0 || outbox != [])
    {
      hide Route, Joined;
      ghost var queues, boxes := responses[..], nextInboxes[..];
      ghost var chunks := Chunks(outbox);
      ghost var j := 0;
      ChunksRoundTrip(outbox);
      hide Chunks;
      JoinedStep(chunks, 0);
      NothingToRoute(hash, boxes);
      assert Replies(iteration, chunks)[0..] == Replies(iteration, chunks);
      anyMsg := anyMsg0;
      while true
        invariant 0 <= j < |chunks|
        invariant responses[..] == queues[i := Replies(iteration, chunks)[j..]]
        invariant nextInboxes[..] == Route(hash, boxes, Joined(chunks[..j]))
        invariant anyMsg == (anyMsg0 || Joined(chunks[..j]) != [])
        decreases |chunks| - j
      {
        RepliesTail(iteration, chunks, j);
        assert responses[i] == Replies(iteration, chunks)[j..];
        var resp := responses[i][0];
        responses[i] := responses[i][1..];
        if resp.batch.items != [] {
          anyMsg := true;
        }
        RouteConcat(hash, boxes, Joined(chunks[..j]), resp.batch.items);
        JoinedStep(chunks, j);
        RouteOutbox(hash, resp.batch.items, nextInboxes);
        j := j + 1;
        if resp.batch.last {
          break;
        }
      }
      assert chunks[..j] == chunks;
    }

    /** One superstep of the cluster: all inboxes out, all outboxes back and routed. None when a
        worker died. */
    method SuperstepRound(iteration: nat, inboxes: array<Inbox<K, M>>, ghost job: Job<K, V, E, M, S>)
      returns (r: Option<(array<Inbox<K, M>>, bool)>)
      requires Idle() && inboxes.Length == workers.Length
      requires job.alg == alg && job.hash == hash
      modifies workers, responses, inboxes
      ensures var before := Cluster(old(Sites()), old(inboxes[..]));
              match Round(job, before, iteration)
              case None => r == None
              case Some((after, any)) =>
                && r.Some? && Idle() && fresh(r.value.0) && r.value.0.Length == workers.Length
                && Sites() == after.sites && r.value.0[..] == after.inboxes && r.value.1 == any
    {
      hide Process, Chunks, Route, Replies, RoundUnderWay, Stream, Waits, Deliver;
      var n := workers.Length;
      ghost var c := Cluster(Sites(), inboxes[..]);
      ghost var before := workers[..];
      NothingSent(alg, c, iteration, before, responses[..]);
      for i := 0 to n
        invariant RoundUnderWay(alg, c, iteration, i, before, workers[..], responses[..])
        invariant forall k :: i <= k < n ==> inboxes[k] == c.inboxes[k]
      {
        ghost var now, queues := workers[..], responses[..];
        NotYetSent(alg, c, iteration, i, before, now, queues);
        var inbox := inboxes[i];
        inboxes[i] := map[];
        var ok := SendInbox(i, iteration, inbox);
        if !ok {
          assert Work(alg, c, iteration, i).None?;
          return None;
        }
        SendingNext(alg, c, iteration, i, before, now, queues);
        assert [] + Replies(iteration, Chunks(Outbox(alg, c, iteration, i)))
            == Replies(iteration, Chunks(Outbox(alg, c, iteration, i)));
      }
      AllSent(job, c, iteration, before, workers[..], responses[..]);
      ghost var computed, answers := workers[..], responses[..];
      var nextInboxes := new Inbox<K, M>[n](_ => map[]);
      assert nextInboxes[..] == EmptyInboxes<K, M>(n);
      NothingToRoute(hash, nextInboxes[..]);
      StreamStarts(alg, c, iteration);
      var anyMsg := false;
      for i := 0 to n
        invariant workers[..] == computed
        invariant forall k :: 0 <= k < n ==> responses[k] == if k < i then [] else answers[k]
        invariant nextInboxes[..] == Route(hash, EmptyInboxes(n), Stream(alg, c, iteration, i))
        invariant anyMsg == (Stream(alg, c, iteration, i) != [])
      {
        Answered(alg, c, iteration, i, before, computed, answers);
        StreamGrows(alg, c, iteration, i);
        RouteConcat(hash, EmptyInboxes(n), Stream(alg, c, iteration, i), Outbox(alg, c, iteration, i));
        anyMsg := ReceiveOutbox(i, nextInboxes, anyMsg, iteration, Outbox(alg, c, iteration, i));
      }
      r := Some((nextInboxes, anyMsg));
    }

    /** The vertices of all workers, in worker order, each as its store lists it. */
    method FetchVertices() returns (out: seq<(K, V)>)
      requires forall i :: 0 <= i < workers.Length ==> ValidStore(workers[i].store)
      ensures forall i :: 0 <= i < |Sites()| ==> ValidStore(Sites()[i].store)
      ensures out == Fetched(Sites(), |Sites()|)
    {
      out := [];
      for i := 0 to workers.Length
        invariant out == Fetched(Sites(), i)
      {
        assert Sites()[i].store == workers[i].store;
        var listed := ListStore(workers[i].store);
        out := out + listed;
      }
    }

    /** Supersteps until the cap is passed or no worker sends a message; the number executed, or
        None when a worker died. */
    method Execute(iterations: nat) returns (r: Option<int>)
      requires Idle()
      modifies workers, responses
      ensures match ExecuteFrom(Job(alg, hash, iterations),
                                Cluster(old(Sites()), EmptyInboxes(workers.Length)), 1)
              case None => r == None
              case Some((end, executed)) => r == Some(executed) && Idle() && Sites() == end.sites
    {
      hide Round, Waits;
      ghost var job := Job(alg, hash, iterations);
      ghost var first := Cluster(Sites(), EmptyInboxes<K, M>(workers.Length));
      var inboxes := new Inbox<K, M>[workers.Length](_ => map[]);
      assert inboxes[..] == EmptyInboxes<K, M>(workers.Length);
      var iteration: nat := 1;
      while iteration <= iterations
        invariant iteration >= 1 && Idle() && inboxes.Length == workers.Length && fresh(inboxes)
        invariant ExecuteFrom(job, first, 1) == ExecuteFrom(job, Cluster(Sites(), inboxes[..]), iteration)
        decreases iterations + 1 - iteration
      {
        ghost var c := Cluster(Sites(), inboxes[..]);
        var round := SuperstepRound(iteration, inboxes, job);
        if round.None? {
          return None;
        }
        inboxes := round.value.0;
        iteration := iteration + 1;
        if !round.value.1 {
          break;
        }
      }
      r := Some(iteration - 1);
    }
  }

  lemma {:induction false} NothingToRoute<K, M>(hash: K -> nat, boxes: seq<Inbox<K, M>>)
    requires |boxes| > 0
    ensures Route(hash, boxes, []) == boxes
  {
  }

  lemma {:induction false} StreamStarts<K, V, E, M, S>(alg: Alg<K, V, E, M, S>, c: Cluster<K, V, E, M, S>, it: nat)
    requires ValidCluster(c)
    ensures Stream(alg, c, it, 0) == []
  {
  }

  lemma StreamGrows<K, V, E, M, S>(alg: Alg<K, V, E, M, S>, c: Cluster<K, V, E, M, S>, it: nat, i: nat)
    requires ValidCluster(c) && i < |c.sites|
    ensures Stream(alg, c, it, i + 1) == Stream(alg, c, it, i) + Outbox(alg, c, it, i)
  {
  }

  lemma NothingSent<K(!new), V, E, M, S>(
      alg: Alg<K, V, E, M, S>, c: Cluster<K, V, E, M, S>, it: nat,
      before: seq<WorkerState<K, V, E, M, S>>, queues: seq<seq<ToDriver<K, M>>>)
    requires ValidCluster(c) && |before| == |queues| == |c.sites|
    requires forall k :: 0 <= k < |queues| ==> queues[k] == []
    ensures RoundUnderWay(alg, c, it, 0, before, before, queues)
  {
  }

  lemma NotYetSent<K(!new), V, E, M, S>(
      alg: Alg<K, V, E, M, S>, c: Cluster<K, V, E, M, S>, it: nat, i: nat,
      before: seq<WorkerState<K, V, E, M, S>>, now: seq<WorkerState<K, V, E, M, S>>, queues: seq<seq<ToDriver<K, M>>>)
    requires ValidCluster(c) && i < |c.sites| && |before| == |now| == |queues| == |c.sites|
    requires RoundUnderWay(alg, c, it, i, before, now, queues)
    ensures now[i] == before[i] && queues[i] == []
  {
  }

  lemma Answered<K(!new), V, E, M, S>(
      alg: Alg<K, V, E, M, S>, c: Cluster<K, V, E, M, S>, it: nat, i: nat,
      before: seq<WorkerState<K, V, E, M, S>>, now: seq<WorkerState<K, V, E, M, S>>, queues: seq<seq<ToDriver<K, M>>>)
    requires ValidCluster(c) && i < |c.sites| && |before| == |now| == |queues| == |c.sites|
    requires RoundUnderWay(alg, c, it, |c.sites|, before, now, queues)
    ensures queues[i] == Replies(it, Chunks(Outbox(alg, c, it, i)))
  {
  }

  ghost function SitesOf<K, V, E, M, S>(ws: seq<WorkerState<K, V, E, M, S>>): (sites: seq<Site<K, V, E, S>>)
    ensures |sites| == |ws|
  {
    seq(|ws|, i requires 0 <= i < |ws| => Site(ws[i].store, ws[i].algo))
  }
}
