/** One attempt at a job: where a run of the scheduler begins, and what a crash of it may leave behind.

    A run begins with the cluster at hand, or with the one saved in the latest checkpoint on disk.
    In the second case the checkpoint that was opened is the live store from then on: the supersteps
    write into it.
 */
module Attempts {
  import opened Options
  import opened Shuffle
  import opened WorkerCore
  import opened Rounds
  import opened Disk

  datatype CheckpointSpec = CheckpointSpec(enabled: bool, intervalIters: nat) {
    predicate On() {
      enabled && intervalIters > 0
    }

    predicate DueAt(it: nat) {
      On() && it % intervalIters == 0
    }
  }

  /** A checkpoint is due after the supersteps that are multiples of the interval, and never when
      checkpoints are off or the interval is 0. */
  lemma DueExactlyWhen(spec: CheckpointSpec, it: nat)
    ensures spec.DueAt(it) <==>
            spec.enabled && spec.intervalIters > 0 && exists m: nat :: it == m * spec.intervalIters
  {
    var n := spec.intervalIters;
    if spec.DueAt(it) {
      assert it == (it / n) * n + it % n;
    }
    if m: nat :| n > 0 && it == m * n {
      MultipleLeavesNothing(m, n, it / n, it % n);
    }
  }

  /** No multiple of `n` lies strictly between two successive multiples of `n`. */
  lemma {:induction false} MultipleLeavesNothing(m: nat, n: nat, q: nat, r: nat)
    requires m * n == q * n + r && r < n
    ensures r == 0
    decreases m + q
  {
    if m > 0 && q > 0 {
      LessOnce(m, n);
      LessOnce(q, n);
      MultipleLeavesNothing(m - 1, n, q - 1, r);
    } else if m > 0 {
      LessOnce(m, n);
    } else if q > 0 {
      LessOnce(q, n);
    }
  }

  lemma LessOnce(m: nat, n: nat)
    requires m > 0
    ensures m * n == (m - 1) * n + n
    ensures (m - 1) * n >= 0
  {
  }

  // ---------------------------------------------------------------------------------------
  // Where a run begins.

  ghost predicate Recovers<K, V, E, M>(spec: CheckpointSpec, d: DiskState<K, V, E, M>) {
    spec.On() && d.latest.Some?
  }

  /** The inboxes of the latest checkpoint, when there is one, were saved, and by as many workers. */
  ghost predicate SameWorkers<K, V, E, M>(spec: CheckpointSpec, d: DiskState<K, V, E, M>, n: nat) {
    Recovers(spec, d) && d.latest.value.iteration in d.inboxes ==> |d.inboxes[d.latest.value.iteration]| == n
  }

  /** The first superstep of the run. */
  ghost function FirstStep<K, V, E, M>(spec: CheckpointSpec, d: DiskState<K, V, E, M>): (it: nat)
    ensures it >= 1
  {
    if Recovers(spec, d) then d.latest.value.iteration + 1 else 1
  }

  /** The workers' stores replaced by the snapshots of checkpoint `k`; their algorithms stay. */
  ghost function Reopened<K, V, E, M, S>(
      d: DiskState<K, V, E, M>, k: nat, sites: seq<Site<K, V, E, S>>): (r: seq<Site<K, V, E, S>>)
    ensures |r| == |sites|
  {
    seq(|sites|, i requires 0 <= i < |sites| => Site(SnapshotOf(d, k, i), sites[i].algo))
  }

  /** The cluster the run begins with: the one at hand, or the one saved in the latest checkpoint. */
  ghost function Beginning<K, V, E, M, S>(
      spec: CheckpointSpec, d: DiskState<K, V, E, M>, sites: seq<Site<K, V, E, S>>): (c: Cluster<K, V, E, M, S>)
    requires SameWorkers(spec, d, |sites|)
    ensures |c.sites| == |c.inboxes| == |sites|
  {
    if Recovers(spec, d) then
      var k := d.latest.value.iteration;
      Cluster(Reopened(d, k, sites), if k in d.inboxes then d.inboxes[k] else EmptyInboxes(|sites|))
    else
      Cluster(sites, EmptyInboxes(|sites|))
  }

  // ---------------------------------------------------------------------------------------
  // Consistent cuts.

  /** A run of `job` that found `disk` and begins with `c0`. */
  datatype Attempt<!K(==), !V, !E, !M, !S> = Attempt(
    job: Job<K, V, E, M, S>, spec: CheckpointSpec, disk: DiskState<K, V, E, M>, c0: Cluster<K, V, E, M, S>)
  {
    ghost function First(): (it: nat)
      ensures it >= 1
    {
      FirstStep(spec, disk)
    }

    /** What the driver's loop makes of it. */
    ghost function Outcome(): Option<(Cluster<K, V, E, M, S>, int)>
      requires ValidCluster(c0)
    {
      ExecuteFrom(job, c0, First())
    }
  }

  lemma OutcomeIs<K, V, E, M, S>(b: Attempt<K, V, E, M, S>)
    requires ValidCluster(b.c0)
    ensures b.Outcome() == ExecuteFrom(b.job, b.c0, b.First())
  {
  }

  ghost function CutOf<K, V, E, M, S>(a: Attempt<K, V, E, M, S>, k: nat): (r: Option<Cluster<K, V, E, M, S>>)
    requires ValidCluster(a.c0)
    ensures r.Some? ==> ValidCluster(r.value) && |r.value.sites| == |a.c0.sites|
  {
    Cut(a.job, a.c0, a.First(), k)
  }

  /** Checkpoint `k` on disk is the cut after superstep `k`: every worker's store, and the messages
      due in superstep k + 1. */
  ghost predicate HoldsCut<K, V, E, M, S>(a: Attempt<K, V, E, M, S>, d: DiskState<K, V, E, M>, k: nat)
    requires ValidCluster(a.c0)
  {
    && CutOf(a, k).Some?
    && var c := CutOf(a, k).value;
       && (forall i: nat :: i < |c.sites| ==> (k, i) in d.snapshots && d.snapshots[(k, i)] == c.sites[i].store)
       && k in d.inboxes && d.inboxes[k] == c.inboxes
  }

  /** Checkpoint `k` has its description on disk. */
  ghost predicate Described<K, V, E, M>(d: DiskState<K, V, E, M>, k: nat) {
    k in d.metas && d.metas[k] == CheckpointMeta(k)
  }

  /** If `latest` has been written since the run began, it names a complete consistent cut, and one
      that has its description. */
  ghost predicate Consistent<K, V, E, M, S>(a: Attempt<K, V, E, M, S>, d: DiskState<K, V, E, M>)
    requires ValidCluster(a.c0)
  {
    d.latest == a.disk.latest
    || (d.latest.Some? && a.First() <= d.latest.value.iteration <= a.job.max
        && HoldsCut(a, d, d.latest.value.iteration) && Described(d, d.latest.value.iteration))
  }

  /** The latest checkpoint on the disk, taken by this run or opened by it, is a complete cut of it. */
  ghost predicate Survives<K, V, E, M, S>(a: Attempt<K, V, E, M, S>, d: DiskState<K, V, E, M>)
    requires ValidCluster(a.c0)
  {
    && d.latest.Some?
    && a.First() - 1 <= d.latest.value.iteration <= a.job.max
    && HoldsCut(a, d, d.latest.value.iteration)
  }

  // ---------------------------------------------------------------------------------------
  // The rest of what is on disk.

  /** The run executes superstep `k`, unless a superstep fails. */
  ghost predicate GetsTo<K, V, E, M, S>(a: Attempt<K, V, E, M, S>, k: nat)
    requires ValidCluster(a.c0)
  {
    a.Outcome().Some? ==> k <= a.Outcome().value.1
  }

  /** Snapshots of this run are numbered by the supersteps after which one was due; a recovered run may
      also have created what was missing of the checkpoint that it opened. */
  ghost predicate Traced<K, V, E, M, S>(a: Attempt<K, V, E, M, S>, d: DiskState<K, V, E, M>)
    requires ValidCluster(a.c0)
  {
    forall x {:trigger x in d.snapshots} :: x in d.snapshots && x !in a.disk.snapshots ==>
      && x.1 < |a.c0.sites|
      && if x.0 >= a.First() then
           a.spec.DueAt(x.0) && GetsTo(a, x.0)
         else
           Recovers(a.spec, a.disk) && x.0 + 1 == a.First()
  }

  /** Checkpoint `k` is complete with regard to snapshots and inboxes of `n` workers. */
  ghost predicate Complete<K, V, E, M>(d: DiskState<K, V, E, M>, k: nat, n: nat) {
    k in d.inboxes && forall i: nat :: i < n ==> (k, i) in d.snapshots
  }

  ghost predicate IsCutStore<K, V, E, M, S>(a: Attempt<K, V, E, M, S>, i: nat, store: Store<K, V, E>)
    requires ValidCluster(a.c0) && i < |a.c0.sites|
  {
    exists j: nat :: j >= a.First() - 1 && CutOf(a, j).Some? && store == CutOf(a, j).value.sites[i].store
  }

  /** The checkpoint `k` that was opened still has its inboxes, and each of its stores is the one
      that its worker had after some superstep. */
  ghost predicate LiveStores<K, V, E, M, S>(a: Attempt<K, V, E, M, S>, k: nat, d: DiskState<K, V, E, M>)
    requires ValidCluster(a.c0)
  {
    && k in d.inboxes && k in a.disk.inboxes && d.inboxes[k] == a.disk.inboxes[k]
    && forall i: nat :: i < |a.c0.sites| ==> (k, i) in d.snapshots && IsCutStore(a, i, d.snapshots[(k, i)])
  }

  /** What a crash of this run may leave behind. */
  ghost predicate LeftBehind<K, V, E, M, S>(a: Attempt<K, V, E, M, S>, d: DiskState<K, V, E, M>)
    requires ValidCluster(a.c0)
  {
    && Consistent(a, d)
    && Traced(a, d)
    && (Recovers(a.spec, a.disk) && Complete(a.disk, a.First() - 1, |a.c0.sites|) ==>
          LiveStores(a, a.First() - 1, d))
  }

  ghost predicate AllLeftBehind<K, V, E, M, S>(a: Attempt<K, V, E, M, S>, hs: seq<DiskState<K, V, E, M>>)
    requires ValidCluster(a.c0)
  {
    forall i :: 0 <= i < |hs| ==> LeftBehind(a, hs[i])
  }

  /** `latest` names what it named when the run began, or a checkpoint of this run before `it`. */
  ghost predicate LatestBelow<K, V, E, M, S>(a: Attempt<K, V, E, M, S>, d: DiskState<K, V, E, M>, it: nat) {
    d.latest == a.disk.latest || (d.latest.Some? && a.First() <= d.latest.value.iteration < it)
  }

  // ---------------------------------------------------------------------------------------
  // Every kind of write keeps it.

  lemma NothingLeftBehind<K, V, E, M, S>(a: Attempt<K, V, E, M, S>)
    requires ValidCluster(a.c0)
    ensures AllLeftBehind(a, [])
  {
  }

  lemma LeftBehindConcat<K, V, E, M, S>(
      a: Attempt<K, V, E, M, S>, xs: seq<DiskState<K, V, E, M>>, ys: seq<DiskState<K, V, E, M>>)
    requires ValidCluster(a.c0) && AllLeftBehind(a, xs) && AllLeftBehind(a, ys)
    ensures AllLeftBehind(a, xs + ys)
  {
    hide LeftBehind;
  }

  /** The cut before the first superstep is the beginning. */
  lemma CutBefore<K, V, E, M, S>(a: Attempt<K, V, E, M, S>)
    requires ValidCluster(a.c0)
    ensures CutOf(a, a.First() - 1) == Some(a.c0)
  {
  }

  lemma BeginsLeftBehind<K, V, E, M, S>(a: Attempt<K, V, E, M, S>, sites: seq<Site<K, V, E, S>>)
    requires SameWorkers(a.spec, a.disk, |sites|) && |sites| >= 1
    requires a.c0 == Beginning(a.spec, a.disk, sites)
    ensures LeftBehind(a, a.disk)
  {
    hide Cut;
    CutBefore(a);
    var k: nat := a.First() - 1;
    if Recovers(a.spec, a.disk) && Complete(a.disk, k, |a.c0.sites|) {
      forall i: nat | i < |a.c0.sites|
        ensures IsCutStore(a, i, a.disk.snapshots[(k, i)])
      {
        assert a.c0.sites[i].store == SnapshotOf(a.disk, k, i);
        assert CutOf(a, k).Some?;
      }
    }
  }

  /** Files of checkpoint `k`, while `latest` does not name it yet. */
  lemma FiledLeftBehind<K, V, E, M, S>(
      a: Attempt<K, V, E, M, S>, d: DiskState<K, V, E, M>, d': DiskState<K, V, E, M>, k: nat)
    requires ValidCluster(a.c0) && LeftBehind(a, d) && Preserves(d, d', k, |a.c0.sites|)
    requires a.First() <= k && a.spec.DueAt(k) && GetsTo(a, k) && LatestBelow(a, d, k)
    ensures LeftBehind(a, d')
  {
    hide Cut, GetsTo, IsCutStore, Recovers;
  }

  lemma AllFiledLeftBehind<K, V, E, M, S>(
      a: Attempt<K, V, E, M, S>, d: DiskState<K, V, E, M>, hs: seq<DiskState<K, V, E, M>>, k: nat)
    requires ValidCluster(a.c0) && LeftBehind(a, d) && AllPreserve(d, hs, k, |a.c0.sites|)
    requires a.First() <= k && a.spec.DueAt(k) && GetsTo(a, k) && LatestBelow(a, d, k)
    ensures AllLeftBehind(a, hs)
  {
    hide LeftBehind, Preserves, GetsTo, LatestBelow;
    forall i | 0 <= i < |hs|
      ensures LeftBehind(a, hs[i])
    {
      FiledLeftBehind(a, d, hs[i], k);
    }
  }

  /** `latest` names the checkpoint, now that it is complete. */
  lemma NamedLeftBehind<K, V, E, M, S>(
      a: Attempt<K, V, E, M, S>, d: DiskState<K, V, E, M>, k: nat, c: Cluster<K, V, E, M, S>)
    requires ValidCluster(a.c0) && LeftBehind(a, d)
    requires a.First() <= k <= a.job.max && CutOf(a, k) == Some(c)
    requires forall i: nat :: i < |c.sites| ==> (k, i) in d.snapshots && d.snapshots[(k, i)] == c.sites[i].store
    requires k in d.inboxes && d.inboxes[k] == c.inboxes && Described(d, k)
    ensures LeftBehind(a, d.(latest := Some(CheckpointMeta(k))))
  {
    hide Cut, GetsTo, IsCutStore;
  }

  /** Some workers write the stores they have after superstep `j` into the opened checkpoint. */
  lemma OverwrittenLeftBehind<K, V, E, M, S>(
      a: Attempt<K, V, E, M, S>, d: DiskState<K, V, E, M>, d': DiskState<K, V, E, M>, j: nat, live: nat,
      c: Cluster<K, V, E, M, S>, done: set<nat>)
    requires ValidCluster(a.c0) && LeftBehind(a, d)
    requires Overwritten(d, d', live, c.sites, done)
    requires Recovers(a.spec, a.disk) && live + 1 == a.First() && live <= j && CutOf(a, j) == Some(c)
    ensures LeftBehind(a, d')
  {
    hide Cut, GetsTo;
    assert Traced(a, d');
    if Recovers(a.spec, a.disk) && Complete(a.disk, live, |a.c0.sites|) {
      forall i: nat | i < |a.c0.sites|
        ensures (live, i) in d'.snapshots && IsCutStore(a, i, d'.snapshots[(live, i)])
      {
        if i in done {
          assert d'.snapshots[(live, i)] == CutOf(a, j).value.sites[i].store;
        }
      }
    }
  }
}
