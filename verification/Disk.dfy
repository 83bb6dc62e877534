/** What survives a crash: worker snapshots, saved inboxes, checkpoint descriptions, and the name of
    the latest checkpoint.

    Every write is atomic, and after each one the disk is added to a history: a crash leaves behind
    one of the disks of that history.
 */
module Disk {
  import opened Options
  import opened Shuffle
  import opened WorkerCore
  import opened Rounds

  datatype CheckpointMeta = CheckpointMeta(iteration: nat)

  datatype DiskState<K(==), V, E, M> = DiskState(
    snapshots: map<(nat, nat), Store<K, V, E>>,  // by checkpoint and worker
    inboxes: map<nat, seq<Inbox<K, M>>>,         // by checkpoint
    metas: map<nat, CheckpointMeta>,             // by checkpoint
    latest: Option<CheckpointMeta>)

  /** Nothing of the old disk is gone or changed, and nothing is new, except what is filed under `k`:
      snapshots of `n` workers, inboxes, a description. */
  ghost predicate Preserves<K, V, E, M>(d: DiskState<K, V, E, M>, d': DiskState<K, V, E, M>, k: nat, n: nat) {
    && d'.latest == d.latest
    && (forall x {:trigger d'.snapshots[x]} {:trigger x in d'.snapshots} ::
          x in d.snapshots && x.0 != k ==> x in d'.snapshots && d'.snapshots[x] == d.snapshots[x])
    && (forall j :: j in d.inboxes && j != k ==> j in d'.inboxes && d'.inboxes[j] == d.inboxes[j])
    && (forall j :: j in d.metas && j != k ==> j in d'.metas && d'.metas[j] == d.metas[j])
    && (forall x {:trigger x in d'.snapshots} ::
          x in d'.snapshots ==> x in d.snapshots || (x.0 == k && x.1 < n))
  }

  ghost predicate AllPreserve<K, V, E, M>(
      d: DiskState<K, V, E, M>, hs: seq<DiskState<K, V, E, M>>, k: nat, n: nat)
  {
    forall i :: 0 <= i < |hs| ==> Preserves(d, hs[i], k, n)
  }

  /** The workers in `done` have written their stores over what was filed under `k`, and nothing else
      has changed. */
  ghost predicate Overwritten<K, V, E, M, S>(
      d: DiskState<K, V, E, M>, d': DiskState<K, V, E, M>, k: nat, sites: seq<Site<K, V, E, S>>, done: set<nat>)
  {
    && d'.inboxes == d.inboxes && d'.metas == d.metas && d'.latest == d.latest
    && (forall x: (nat, nat) {:trigger x in d'.snapshots} ::
          x in d'.snapshots <==> x in d.snapshots || (x.0 == k && x.1 in done && x.1 < |sites|))
    && (forall x: (nat, nat) {:trigger d'.snapshots[x]} :: x in d'.snapshots ==>
          d'.snapshots[x] == if x.0 == k && x.1 in done && x.1 < |sites| then sites[x.1].store else d.snapshots[x])
  }

  /** A store with nothing in it: what opening a missing directory gives. */
  function EmptyStore<K, V, E>(): Store<K, V, E> {
    Store([], map[], map[])
  }

  function SnapshotOf<K(==), V, E, M>(d: DiskState<K, V, E, M>, k: nat, i: nat): Store<K, V, E> {
    if (k, i) in d.snapshots then d.snapshots[(k, i)] else EmptyStore()
  }

  class Disk<K(==), V, E, M> {
    var now: DiskState<K, V, E, M>
    ghost var history: seq<DiskState<K, V, E, M>>

    constructor (state: DiskState<K, V, E, M>)
      ensures now == state && history == [state]
    {
      now := state;
      history := [state];
    }

    /** A snapshot of worker `i`; refused when its directory already exists. */
    method CreateCheckpoint(k: nat, i: nat, store: Store<K, V, E>) returns (ok: bool)
      modifies this
      ensures ok == ((k, i) !in old(now.snapshots))
      ensures now == if ok then old(now).(snapshots := old(now.snapshots)[(k, i) := store]) else old(now)
      ensures history == if ok then old(history) + [now] else old(history)
    {
      ok := (k, i) !in now.snapshots;
      if ok {
        now := now.(snapshots := now.snapshots[(k, i) := store]);
        history := history + [now];
      }
    }

    /** Opening a snapshot as a live store; a missing one is created empty. */
    method OpenCheckpoint(k: nat, i: nat) returns (store: Store<K, V, E>)
      modifies this
      ensures store == SnapshotOf(old(now), k, i)
      ensures now == old(now).(snapshots := old(now.snapshots)[(k, i) := store])
      ensures history == old(history) + [now]
    {
      store := SnapshotOf(now, k, i);
      now := now.(snapshots := now.snapshots[(k, i) := store]);
      history := history + [now];
    }

    /** The live store in directory (k, i) has been written to. */
    method LiveWrite(k: nat, i: nat, store: Store<K, V, E>)
      modifies this
      ensures now == old(now).(snapshots := old(now.snapshots)[(k, i) := store])
      ensures history == old(history) + [now]
    {
      now := now.(snapshots := now.snapshots[(k, i) := store]);
      history := history + [now];
    }

    method WriteInboxes(k: nat, inboxes: seq<Inbox<K, M>>)
      modifies this
      ensures now == old(now).(inboxes := old(now.inboxes)[k := inboxes])
      ensures history == old(history) + [now]
    {
      now := now.(inboxes := now.inboxes[k := inboxes]);
      history := history + [now];
    }

    method WriteMeta(meta: CheckpointMeta)
      modifies this
      ensures now == old(now).(metas := old(now.metas)[meta.iteration := meta])
      ensures history == old(history) + [now]
    {
      now := now.(metas := now.metas[meta.iteration := meta]);
      history := history + [now];
    }

    method WriteLatest(meta: CheckpointMeta)
      modifies this
      ensures now == old(now).(latest := Some(meta))
      ensures history == old(history) + [now]
    {
      now := now.(latest := Some(meta));
      history := history + [now];
    }
  }
}
