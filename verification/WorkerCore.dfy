/** What one worker does with one message, as a function of its state.

    A worker owns a store (vertices, their listing order, the out-edges of each), the state of its
    vertex algorithm, and a partly received inbox. The imperative worker is proved to compute
    these functions; the protocol of all the workers together is built from them.
 */
module WorkerCore {
  import opened Options
  import opened Bags
  import opened Bsp
  import opened Batching
  import opened Shuffle

  /** `order` is the order in which the store lists its vertices. */
  datatype Store<K(==), V, E> = Store(order: seq<K>, verts: map<K, V>, adj: map<K, seq<(K, E)>>)

  ghost predicate ValidStore<K, V, E>(store: Store<K, V, E>) {
    Lists(store.order, store.verts.Keys)
  }

  function Out<K, V, E>(store: Store<K, V, E>, k: K): seq<(K, E)> {
    if k in store.adj then store.adj[k] else []
  }

  function PutAll<K, V>(verts: map<K, V>, updates: seq<(K, V)>): map<K, V> {
    if updates == [] then
      verts
    else
      var (k, v) := updates[|updates| - 1];
      PutAll(verts, updates[..|updates| - 1])[k := v]
  }

  // ---------------------------------------------------------------------------------------
  // One superstep on one store: compute every listed vertex, then write all updates at once.

  datatype Scan<K, V, M, S> = Scan(algo: S, updates: seq<(K, V)>, outbox: seq<(K, M)>)

  /** The accumulated results after the first `j` listed vertices; None when one of them failed.
      (A listed vertex without a value would fail too; no valid store has one.) */
  function ScanTo<K(==), V, E, M, S>(
      alg: Alg<K, V, E, M, S>, store: Store<K, V, E>, algo: S, inbox: Inbox<K, M>, it: nat, j: nat)
    : Option<Scan<K, V, M, S>>
    requires j <= |store.order|
  {
    if j == 0 then
      Some(Scan(algo, [], []))
    else
      match ScanTo(alg, store, algo, inbox, it, j - 1)
      case None => None
      case Some(acc) => ScanOne(alg, store, acc, inbox, it, store.order[j - 1])
  }

  function ScanOne<K(==), V, E, M, S>(
      alg: Alg<K, V, E, M, S>, store: Store<K, V, E>, acc: Scan<K, V, M, S>, inbox: Inbox<K, M>, it: nat, k: K)
    : Option<Scan<K, V, M, S>>
  {
    if k !in store.verts then None else
    match alg.compute(acc.algo, k, store.verts[k], Out(store, k), Waiting(inbox, k), it)
    case None => None
    case Some((algo, update, sends)) =>
      Some(Scan(
             algo,
             acc.updates + (if update.Some? then [(k, update.value)] else []),
             acc.outbox + sends))
  }

  datatype Processed<K(==), V, E, M, S> = Processed(store: Store<K, V, E>, algo: S, outbox: seq<(K, M)>)

  function Process<K(==), V, E, M, S>(
      alg: Alg<K, V, E, M, S>, store: Store<K, V, E>, algo: S, inbox: Inbox<K, M>, it: nat)
    : Option<Processed<K, V, E, M, S>>
  {
    match ScanTo(alg, store, algo, inbox, it, |store.order|)
    case None => None
    case Some(acc) =>
      Some(Processed(store.(verts := PutAll(store.verts, acc.updates)), acc.algo, acc.outbox))
  }

  // ---------------------------------------------------------------------------------------
  // The worker's message loop.

  datatype ToWorker<+K, +M> = SuperstepBatch(iteration: nat, batch: Chunk<(K, seq<M>)>)

  datatype ToDriver<+K, +M> = SuperstepResultBatch(iteration: nat, batch: Chunk<(K, M)>)

  datatype WorkerState<K(==), V, E, M, S> = WorkerState(
    store: Store<K, V, E>,
    algo: S,
    pendingIteration: Option<nat>,
    pendingInbox: Inbox<K, M>)

  /** Appending received entries to the pending inbox. */
  function Merge<K, M>(inbox: Inbox<K, M>, entries: seq<(K, seq<M>)>): Inbox<K, M> {
    if entries == [] then
      inbox
    else
      var (k, ms) := entries[|entries| - 1];
      var front := Merge(inbox, entries[..|entries| - 1]);
      front[k := Waiting(front, k) + ms]
  }

  function Requests<K, M>(it: nat, chunks: seq<Chunk<(K, seq<M>)>>): seq<ToWorker<K, M>> {
    seq(|chunks|, j requires 0 <= j < |chunks| => SuperstepBatch(it, chunks[j]))
  }

  function Replies<K, M>(it: nat, chunks: seq<Chunk<(K, M)>>): seq<ToDriver<K, M>> {
    seq(|chunks|, j requires 0 <= j < |chunks| => SuperstepResultBatch(it, chunks[j]))
  }

  /** The inbox a worker holds once it has absorbed a batch: a batch of another superstep than the
      pending one starts afresh. */
  function Absorbed<K, V, E, M, S>(w: WorkerState<K, V, E, M, S>, msg: ToWorker<K, M>): Inbox<K, M> {
    Merge(if w.pendingIteration == Some(msg.iteration) then w.pendingInbox else map[], msg.batch.items)
  }

  /** The state after one message and the replies to it; None when the worker dies of an error. */
  function Handle<K(==), V, E, M, S>(
      alg: Alg<K, V, E, M, S>, w: WorkerState<K, V, E, M, S>, msg: ToWorker<K, M>)
    : Option<(WorkerState<K, V, E, M, S>, seq<ToDriver<K, M>>)>
  {
    var inbox := Absorbed(w, msg);
    if !msg.batch.last then
      Some((w.(pendingIteration := Some(msg.iteration), pendingInbox := inbox), []))
    else
      match Process(alg, w.store, w.algo, inbox, msg.iteration)
      case None => None
      case Some(r) =>
        Some((WorkerState(r.store, r.algo, None, map[]), Replies(msg.iteration, Chunks(r.outbox))))
  }

  // ---------------------------------------------------------------------------------------
  // Facts.

  lemma ScanNext<K, V, E, M, S>(
      alg: Alg<K, V, E, M, S>, store: Store<K, V, E>, algo: S, inbox: Inbox<K, M>, it: nat, j: nat,
      acc: Scan<K, V, M, S>)
    requires j < |store.order| && store.order[j] in store.verts
    requires ScanTo(alg, store, algo, inbox, it, j) == Some(acc)
    ensures var k := store.order[j];
            ScanTo(alg, store, algo, inbox, it, j + 1)
            == match alg.compute(acc.algo, k, store.verts[k], Out(store, k), Waiting(inbox, k), it)
               case None => None
               case Some(r) =>
                 Some(Scan(r.0, acc.updates + (if r.1.Some? then [(k, r.1.value)] else []), acc.outbox + r.2))
  {
  }

  lemma {:induction false} PutAllConcat<K, V>(base: map<K, V>, a: seq<(K, V)>, b: seq<(K, V)>)
    ensures PutAll(base, a + b) == PutAll(PutAll(base, a), b)
  {
    if b == [] {
      assert a + b == a;
    } else {
      PutAllConcat(base, a, b[..|b| - 1]);
      assert (a + b)[..|a + b| - 1] == a + b[..|b| - 1];
    }
  }

  /** Of several writes to one key the last one counts; a key that is not written stays as it was. */
  lemma {:induction false} LastWriteWins<K, V>(verts: map<K, V>, updates: seq<(K, V)>, k: K)
    ensures k in PutAll(verts, updates) <==> k in verts || exists i :: 0 <= i < |updates| && updates[i].0 == k
    ensures (forall i :: 0 <= i < |updates| ==> updates[i].0 != k) && k in verts ==>
              PutAll(verts, updates)[k] == verts[k]
    ensures forall i :: 0 <= i < |updates| && updates[i].0 == k
                        && (forall j :: i < j < |updates| ==> updates[j].0 != k) ==>
              PutAll(verts, updates)[k] == updates[i].1
  {
    if updates != [] {
      var front := updates[..|updates| - 1];
      LastWriteWins(verts, front, k);
      forall i | 0 <= i < |updates| && updates[i].0 == k && (forall j :: i < j < |updates| ==> updates[j].0 != k)
        ensures PutAll(verts, updates)[k] == updates[i].1
      {
        if i < |front| {
          assert front[i] == updates[i];
          assert updates[|front|].0 != k;
          assert forall j :: i < j < |front| ==> front[j] == updates[j];
        }
      }
    }
  }

  lemma {:induction false} PutAllKeys<K, V>(verts: map<K, V>, updates: seq<(K, V)>)
    requires forall i :: 0 <= i < |updates| ==> updates[i].0 in verts
    ensures PutAll(verts, updates).Keys == verts.Keys
  {
    if updates != [] {
      PutAllKeys(verts, updates[..|updates| - 1]);
    }
  }

  lemma {:induction false} ScanUpdatesOwnVertices<K, V, E, M, S>(
      alg: Alg<K, V, E, M, S>, store: Store<K, V, E>, algo: S, inbox: Inbox<K, M>, it: nat, j: nat)
    requires ValidStore(store) && j <= |store.order|
    ensures var r := ScanTo(alg, store, algo, inbox, it, j);
            r.Some? ==> forall i :: 0 <= i < |r.value.updates| ==> r.value.updates[i].0 in store.verts
  {
    if j > 0 {
      ScanUpdatesOwnVertices(alg, store, algo, inbox, it, j - 1);
    }
  }

  /** A superstep changes values only: the vertices, their order and the edges stay. */
  lemma ProcessKeepsShape<K, V, E, M, S>(
      alg: Alg<K, V, E, M, S>, store: Store<K, V, E>, algo: S, inbox: Inbox<K, M>, it: nat)
    requires ValidStore(store)
    ensures var r := Process(alg, store, algo, inbox, it);
            r.Some? ==>
              && ValidStore(r.value.store)
              && r.value.store.order == store.order
              && r.value.store.adj == store.adj
              && r.value.store.verts.Keys == store.verts.Keys
  {
    ScanUpdatesOwnVertices(alg, store, algo, inbox, it, |store.order|);
    var r := ScanTo(alg, store, algo, inbox, it, |store.order|);
    if r.Some? {
      PutAllKeys(store.verts, r.value.updates);
    }
  }

  // ---------------------------------------------------------------------------------------
  // An inbox survives the trip in batches, whatever order the driver drains it in.

  /** `entries` is what draining the inbox may yield: each entry once, in any order. */
  ghost predicate Drains<K, M>(entries: seq<(K, seq<M>)>, inbox: Inbox<K, M>) {
    && (forall i :: 0 <= i < |entries| ==> entries[i].0 in inbox && entries[i].1 == inbox[entries[i].0])
    && (forall i, j :: 0 <= i < j < |entries| ==> entries[i].0 != entries[j].0)
    && (forall k :: k in inbox ==> exists i :: 0 <= i < |entries| && entries[i].0 == k)
  }

  lemma {:induction false} MergeConcat<K, M>(inbox: Inbox<K, M>, a: seq<(K, seq<M>)>, b: seq<(K, seq<M>)>)
    ensures Merge(inbox, a + b) == Merge(Merge(inbox, a), b)
  {
    if b == [] {
      assert a + b == a;
    } else {
      MergeConcat(inbox, a, b[..|b| - 1]);
      assert (a + b)[..|a + b| - 1] == a + b[..|b| - 1];
    }
  }

  /** Without its last entry, a drain of the inbox is a drain of the rest of the inbox. */
  lemma DrainsRest<K, M>(entries: seq<(K, seq<M>)>, inbox: Inbox<K, M>, k: K, rest: Inbox<K, M>)
    requires Drains(entries, inbox) && entries != [] && k == entries[|entries| - 1].0
    requires rest == map x | x in inbox && x != k :: inbox[x]
    ensures Drains(entries[..|entries| - 1], rest)
    ensures entries[|entries| - 1].1 == inbox[k] && k in inbox && rest[k := inbox[k]] == inbox
  {
    var front := entries[..|entries| - 1];
    forall x | x in rest
      ensures exists i :: 0 <= i < |front| && front[i].0 == x
    {
      var i :| 0 <= i < |entries| && entries[i].0 == x;
      assert front[i].0 == x;
    }
  }

  lemma {:induction false} MergeDrained<K, M>(entries: seq<(K, seq<M>)>, inbox: Inbox<K, M>)
    requires Drains(entries, inbox)
    ensures Merge(map[], entries) == inbox
  {
    if entries == [] {
      assert inbox == map[];
    } else {
      var k := entries[|entries| - 1].0;
      var rest := map x | x in inbox && x != k :: inbox[x];
      DrainsRest(entries, inbox, k, rest);
      hide Drains;
      MergeDrained(entries[..|entries| - 1], rest);
      assert Waiting(rest, k) + inbox[k] == inbox[k];
    }
  }

  /** A batch of another superstep than the pending one finds the worker as if nothing had been pending. */
  lemma StaleBatchesForgotten<K, V, E, M, S>(
      alg: Alg<K, V, E, M, S>, w: WorkerState<K, V, E, M, S>, msg: ToWorker<K, M>)
    requires w.pendingIteration != Some(msg.iteration)
    ensures Handle(alg, w, msg) == Handle(alg, WorkerState(w.store, w.algo, None, map[]), msg)
  {
  }

  /** Two batches of one superstep are as good as one with the entries of both. */
  lemma BatchesAddUp<K, V, E, M, S>(
      alg: Alg<K, V, E, M, S>, w: WorkerState<K, V, E, M, S>, it: nat, a: seq<(K, seq<M>)>, b: seq<(K, seq<M>)>,
      last: bool)
    ensures var r := Handle(alg, w, SuperstepBatch(it, Chunk(a, false)));
            && r.Some? && r.value.1 == []
            && Handle(alg, r.value.0, SuperstepBatch(it, Chunk(b, last)))
               == Handle(alg, w, SuperstepBatch(it, Chunk(a + b, last)))
  {
    hide Process;
    MergeConcat(if w.pendingIteration == Some(it) then w.pendingInbox else map[], a, b);
  }

  /** Absorbed entries: for each key, what was waiting, and then the messages of its entries in order. */
  lemma {:induction false} MergeAppends<K, M>(inbox: Inbox<K, M>, entries: seq<(K, seq<M>)>, k: K, ms: seq<M>)
    ensures Waiting(Merge(inbox, entries + [(k, ms)]), k) == Waiting(Merge(inbox, entries), k) + ms
    ensures forall x :: x != k ==>
              Waiting(Merge(inbox, entries + [(k, ms)]), x) == Waiting(Merge(inbox, entries), x)
  {
    assert (entries + [(k, ms)])[..|entries|] == entries;
  }
}
