/** The scheduler of a job: supersteps, checkpoints between them, and recovery from the latest one. */
module Scheduler {
  import opened Options
  import opened Shuffle
  import opened WorkerCore
  import opened Rounds
  import opened Disk
  import opened Attempts
  import opened Driver

  // ---------------------------------------------------------------------------------------
  // Snapshots of all workers.

  function AllBelow(n: nat): (s: set<nat>)
    ensures forall i: nat :: i in s <==> i < n
  {
    if n == 0 then {} else AllBelow(n - 1) + {n - 1}
  }

  /** Some worker's directory of checkpoint `k` exists. */
  ghost predicate Begun<K, V, E, M>(d: DiskState<K, V, E, M>, k: nat, n: nat) {
    exists i: nat :: i < n && (k, i) in d.snapshots
  }

  /** The snapshots numbered above `k` are where they were. */
  ghost predicate SameAbove<K, V, E, M>(d: DiskState<K, V, E, M>, d': DiskState<K, V, E, M>, k: nat) {
    forall x: (nat, nat) {:trigger x in d.snapshots} {:trigger x in d'.snapshots} ::
      x.0 > k ==> (x in d.snapshots <==> x in d'.snapshots)
  }

  lemma PreservesItself<K, V, E, M>(d: DiskState<K, V, E, M>, k: nat, n: nat)
    ensures Preserves(d, d, k, n)
    ensures AllPreserve(d, [], k, n)
  {
  }

  lemma WriteUnder<K, V, E, M>(
      d: DiskState<K, V, E, M>, d': DiskState<K, V, E, M>, k: nat, n: nat, i: nat, store: Store<K, V, E>)
    requires Preserves(d, d', k, n) && i < n
    ensures Preserves(d, d'.(snapshots := d'.snapshots[(k, i) := store]), k, n)
  {
  }

  /** Writing inboxes or a description under `k` disturbs no other checkpoint. */
  lemma FilesUnder<K, V, E, M>(d: DiskState<K, V, E, M>, k: nat, n: nat, inboxes: seq<Inbox<K, M>>)
    ensures Preserves(d, d.(inboxes := d.inboxes[k := inboxes]), k, n)
    ensures Preserves(d, d.(metas := d.metas[k := CheckpointMeta(k)]), k, n)
  {
  }

  lemma ExtendPreserved<K, V, E, M>(
      d: DiskState<K, V, E, M>, hs: seq<DiskState<K, V, E, M>>, d': DiskState<K, V, E, M>, k: nat, n: nat)
    requires AllPreserve(d, hs, k, n) && Preserves(d, d', k, n)
    ensures AllPreserve(d, hs + [d'], k, n)
  {
  }

  lemma PreservesAbove<K, V, E, M>(d: DiskState<K, V, E, M>, d': DiskState<K, V, E, M>, k: nat, n: nat)
    requires Preserves(d, d', k, n)
    ensures d'.latest == d.latest && SameAbove(d, d', k)
  {
  }

  /** Snapshots under way: the workers in `todo` have not been asked yet, and `ok` if none of the
      others was refused. */
  ghost predicate Taking<K, V, E, M, S>(
      d: DiskState<K, V, E, M>, now: DiskState<K, V, E, M>, hs: seq<DiskState<K, V, E, M>>, k: nat,
      sites: seq<Site<K, V, E, S>>, todo: set<nat>, ok: bool)
  {
    && todo <= AllBelow(|sites|)
    && Preserves(d, now, k, |sites|) && AllPreserve(d, hs, k, |sites|) && now.inboxes == d.inboxes
    && (forall i: nat :: i in todo ==> ((k, i) in now.snapshots <==> (k, i) in d.snapshots))
    && (ok <==> forall i: nat :: i < |sites| && i !in todo ==> (k, i) !in d.snapshots)
    && (ok ==> forall i: nat :: i < |sites| && i !in todo ==>
          (k, i) in now.snapshots && now.snapshots[(k, i)] == sites[i].store)
    && (hs != [] ==> Begun(hs[0], k, |sites|)) && (ok && todo != AllBelow(|sites|) ==> hs != [])
  }

  lemma TakingNext<K, V, E, M, S>(
      d: DiskState<K, V, E, M>, now: DiskState<K, V, E, M>, hs: seq<DiskState<K, V, E, M>>, k: nat,
      sites: seq<Site<K, V, E, S>>, todo: set<nat>, ok: bool, i: nat)
    requires Taking(d, now, hs, k, sites, todo, ok) && i in todo
    ensures i < |sites|
    ensures var next := now.(snapshots := now.snapshots[(k, i) := sites[i].store]);
            if (k, i) !in now.snapshots then
              Taking(d, next, hs + [next], k, sites, todo - {i}, ok)
            else
              Taking(d, now, hs, k, sites, todo - {i}, false)
  {
    var next := now.(snapshots := now.snapshots[(k, i) := sites[i].store]);
    WriteUnder(d, now, k, |sites|, i, sites[i].store);
    hide Preserves;
    ExtendPreserved(d, hs, next, k, |sites|);
    hide AllPreserve;
    assert Begun(next, k, |sites|);
  }

  lemma {:induction false} TakingEnds<K, V, E, M, S>(
      d: DiskState<K, V, E, M>, now: DiskState<K, V, E, M>, hs: seq<DiskState<K, V, E, M>>, k: nat,
      sites: seq<Site<K, V, E, S>>, ok: bool)
    requires sites != []
    ensures Taking(d, d, [], k, sites, AllBelow(|sites|), true)
    ensures Taking(d, now, hs, k, sites, {}, ok) ==>
              && Preserves(d, now, k, |sites|) && AllPreserve(d, hs, k, |sites|) && now.inboxes == d.inboxes
              && (ok <==> !Begun(d, k, |sites|))
              && (ok ==> forall i: nat :: i < |sites| ==>
                    (k, i) in now.snapshots && now.snapshots[(k, i)] == sites[i].store)
              && (ok ==> hs != [] && Begun(hs[0], k, |sites|))
  {
    PreservesItself(d, k, |sites|);
    hide Preserves, AllPreserve;
    assert 0 in AllBelow(|sites|);
  }

  /** All workers take their snapshots, in an order that is not determined; one refusal fails the
      checkpoint, but does not keep the other workers from taking theirs. It succeeds exactly when no
      worker's directory exists. */
  method CreateCheckpointAll<K(!new, ==), V, E, M(==), S>(
      driver: DistributedDriver<K, V, E, M, S>, disk: Disk<K, V, E, M>, k: nat)
    returns (ok: bool, ghost hs: seq<DiskState<K, V, E, M>>)
    requires driver.Connected()
    modifies disk
    ensures disk.history == old(disk.history) + hs && AllPreserve(old(disk.now), hs, k, driver.workers.Length)
    ensures Preserves(old(disk.now), disk.now, k, driver.workers.Length)
    ensures disk.now.inboxes == old(disk.now.inboxes)
    ensures ok <==> forall i: nat :: i < driver.workers.Length ==> (k, i) !in old(disk.now.snapshots)
    ensures ok ==> forall i: nat :: i < driver.workers.Length ==>
              (k, i) in disk.now.snapshots && disk.now.snapshots[(k, i)] == driver.Sites()[i].store
    ensures ok ==> hs != [] && Begun(hs[0], k, driver.workers.Length)
  {
    ghost var d, sites := disk.now, driver.Sites();
    TakingEnds(d, d, [], k, sites, true);
    assert forall i: nat :: i < |sites| ==> sites[i].store == driver.workers[i].store;
    hide Preserves, AllPreserve, Taking, AllBelow;
    hs := [];
    ok := true;
    var todo := AllBelow(driver.workers.Length);
    while todo != {}
      invariant disk.history == old(disk.history) + hs
      invariant Taking(d, disk.now, hs, k, sites, todo, ok)
      decreases |todo|
    {
      var i: nat :| i in todo;
      TakingNext(d, disk.now, hs, k, sites, todo, ok, i);
      todo := todo - {i};
      var taken := disk.CreateCheckpoint(k, i, driver.workers[i].store);
      if taken {
        hs := hs + [disk.now];
      } else {
        ok := false;
      }
    }
    TakingEnds(d, disk.now, hs, k, sites, ok);
  }

  // ---------------------------------------------------------------------------------------
  // Opening snapshots, and writing into them.

  /** Some workers have written their stores under `k`. */
  ghost predicate PartlyOverwritten<K, V, E, M, S>(
      d: DiskState<K, V, E, M>, d': DiskState<K, V, E, M>, k: nat, sites: seq<Site<K, V, E, S>>)
  {
    exists done: set<nat> :: Overwritten(d, d', k, sites, done)
  }

  ghost predicate AllOverwritten<K, V, E, M, S>(
      d: DiskState<K, V, E, M>, hs: seq<DiskState<K, V, E, M>>, k: nat, sites: seq<Site<K, V, E, S>>)
  {
    forall j :: 0 <= j < |hs| ==> PartlyOverwritten(d, hs[j], k, sites)
  }

  lemma OverwrittenNowhere<K, V, E, M, S>(d: DiskState<K, V, E, M>, k: nat, sites: seq<Site<K, V, E, S>>)
    ensures Overwritten(d, d, k, sites, {})
    ensures AllOverwritten(d, [], k, sites)
  {
  }

  lemma OverwrittenAgain<K, V, E, M, S>(
      d: DiskState<K, V, E, M>, d': DiskState<K, V, E, M>, hs: seq<DiskState<K, V, E, M>>, k: nat,
      sites: seq<Site<K, V, E, S>>, done: set<nat>, i: nat)
    requires Overwritten(d, d', k, sites, done) && AllOverwritten(d, hs, k, sites) && i < |sites|
    ensures var d'' := d'.(snapshots := d'.snapshots[(k, i) := sites[i].store]);
            Overwritten(d, d'', k, sites, done + {i}) && AllOverwritten(d, hs + [d''], k, sites)
  {
    var d'' := d'.(snapshots := d'.snapshots[(k, i) := sites[i].store]);
    assert Overwritten(d, d'', k, sites, done + {i});
    assert PartlyOverwritten(d, d'', k, sites);
    hide PartlyOverwritten;
  }

  lemma OverwrittenAbove<K, V, E, M, S>(
      d: DiskState<K, V, E, M>, d': DiskState<K, V, E, M>, k: nat, sites: seq<Site<K, V, E, S>>, done: set<nat>,
      it: nat)
    requires Overwritten(d, d', k, sites, done) && k <= it
    ensures SameAbove(d, d', it) && d'.latest == d.latest && d'.inboxes == d.inboxes
  {
  }

  /** Every worker opens its snapshot, which thereby becomes its live store. */
  method LoadCheckpointAll<K(!new, ==), V, E, M(==), S>(
      driver: DistributedDriver<K, V, E, M, S>, disk: Disk<K, V, E, M>, k: nat)
    returns (ghost hs: seq<DiskState<K, V, E, M>>)
    requires driver.Idle()
    modifies driver.workers, disk
    ensures driver.Idle()
    ensures driver.Sites() == Reopened(old(disk.now), k, old(driver.Sites()))
    ensures disk.history == old(disk.history) + hs && AllOverwritten(old(disk.now), hs, k, driver.Sites())
    ensures Overwritten(old(disk.now), disk.now, k, driver.Sites(), AllBelow(driver.workers.Length))
  {
    hide Overwritten, AllOverwritten;
    ghost var d, sites := disk.now, driver.Sites();
    ghost var loaded := Reopened(d, k, sites);
    hs := [];
    OverwrittenNowhere(d, k, loaded);
    for i := 0 to driver.workers.Length
      invariant driver.Idle()
      invariant disk.history == old(disk.history) + hs && AllOverwritten(d, hs, k, loaded)
      invariant Overwritten(d, disk.now, k, loaded, AllBelow(i))
      invariant forall j :: 0 <= j < driver.workers.Length ==>
                  && driver.workers[j].algo == sites[j].algo
                  && driver.workers[j].store == if j < i then loaded[j].store else sites[j].store
    {
      NotYetOpened(d, disk.now, k, loaded, i);
      OverwrittenAgain(d, disk.now, hs, k, loaded, AllBelow(i), i);
      var store := disk.OpenCheckpoint(k, i);
      hs := hs + [disk.now];
      driver.workers[i] := driver.workers[i].(store := store);
    }
    assert driver.Sites() == loaded;
  }

  lemma {:induction false} NotYetOpened<K, V, E, M, S>(
      d: DiskState<K, V, E, M>, d': DiskState<K, V, E, M>, k: nat, sites: seq<Site<K, V, E, S>>, i: nat)
    requires Overwritten(d, d', k, sites, AllBelow(i)) && i < |sites|
    ensures SnapshotOf(d', k, i) == SnapshotOf(d, k, i)
  {
  }

  /** Writes under way: the workers in `todo` have not written yet. */
  ghost predicate Writing<K, V, E, M, S>(
      d: DiskState<K, V, E, M>, now: DiskState<K, V, E, M>, hs: seq<DiskState<K, V, E, M>>, k: nat,
      sites: seq<Site<K, V, E, S>>, todo: set<nat>)
  {
    && todo <= AllBelow(|sites|)
    && Overwritten(d, now, k, sites, AllBelow(|sites|) - todo) && AllOverwritten(d, hs, k, sites)
    && (todo == AllBelow(|sites|) || (hs != [] && hs[|hs| - 1] == now))
  }

  lemma WritingNext<K, V, E, M, S>(
      d: DiskState<K, V, E, M>, now: DiskState<K, V, E, M>, hs: seq<DiskState<K, V, E, M>>, k: nat,
      sites: seq<Site<K, V, E, S>>, todo: set<nat>, i: nat)
    requires Writing(d, now, hs, k, sites, todo) && i in todo
    ensures i < |sites|
    ensures var next := now.(snapshots := now.snapshots[(k, i) := sites[i].store]);
            Writing(d, next, hs + [next], k, sites, todo - {i})
  {
    hide Overwritten, AllOverwritten;
    var all := AllBelow(|sites|);
    OverwrittenAgain(d, now, hs, k, sites, all - todo, i);
    assert all - todo + {i} == all - (todo - {i});
  }

  lemma {:induction false} WritingEnds<K, V, E, M, S>(
      d: DiskState<K, V, E, M>, now: DiskState<K, V, E, M>, hs: seq<DiskState<K, V, E, M>>, k: nat,
      sites: seq<Site<K, V, E, S>>)
    requires sites != []
    ensures Writing(d, d, [], k, sites, AllBelow(|sites|))
    ensures Writing(d, now, hs, k, sites, {}) ==>
              && Overwritten(d, now, k, sites, AllBelow(|sites|)) && AllOverwritten(d, hs, k, sites)
              && hs != [] && hs[|hs| - 1] == now
  {
    var all := AllBelow(|sites|);
    OverwrittenNowhere(d, k, sites);
    assert 0 in all && all - all == {} && all - {} == all;
  }

  /** In a recovered run the supersteps write into the checkpoint that was opened: each worker, in an
      order that is not determined, as it finishes its superstep. A crash may find any part of it
      written; in the end all of it is. */
  method LiveWrites<K(!new, ==), V, E, M(==), S>(
      driver: DistributedDriver<K, V, E, M, S>, disk: Disk<K, V, E, M>, live: nat)
    returns (ghost hs: seq<DiskState<K, V, E, M>>)
    requires driver.Connected()
    modifies disk
    ensures disk.history == old(disk.history) + hs && AllOverwritten(old(disk.now), hs, live, driver.Sites())
    ensures Overwritten(old(disk.now), disk.now, live, driver.Sites(), AllBelow(driver.workers.Length))
    ensures hs != [] && hs[|hs| - 1] == disk.now
  {
    ghost var d, sites := disk.now, driver.Sites();
    WritingEnds(d, d, [], live, sites);
    assert forall i: nat :: i < |sites| ==> sites[i].store == driver.workers[i].store;
    hide *;
    hs := [];
    var todo := AllBelow(driver.workers.Length);
    while todo != {}
      invariant disk.history == old(disk.history) + hs
      invariant Writing(d, disk.now, hs, live, sites, todo)
      decreases |todo|
    {
      var i: nat :| i in todo;
      WritingNext(d, disk.now, hs, live, sites, todo, i);
      todo := todo - {i};
      disk.LiveWrite(live, i, driver.workers[i].store);
      hs := hs + [disk.now];
    }
    WritingEnds(d, disk.now, hs, live, sites);
  }

  lemma AllOverwrittenLeftBehind<K, V, E, M, S>(
      a: Attempt<K, V, E, M, S>, d: DiskState<K, V, E, M>, hs: seq<DiskState<K, V, E, M>>, j: nat, live: nat,
      c: Cluster<K, V, E, M, S>)
    requires ValidCluster(a.c0) && LeftBehind(a, d) && AllOverwritten(d, hs, live, c.sites)
    requires Recovers(a.spec, a.disk) && live + 1 == a.First() && live <= j && CutOf(a, j) == Some(c)
    ensures AllLeftBehind(a, hs)
  {
    hide LeftBehind, Overwritten, CutOf;
    forall i | 0 <= i < |hs|
      ensures LeftBehind(a, hs[i])
    {
      var done: set<nat> :| Overwritten(d, hs[i], live, c.sites, done);
      OverwrittenLeftBehind(a, d, hs[i], j, live, c, done);
    }
  }

  // ---------------------------------------------------------------------------------------
  // One checkpoint.

  /** A crash may find checkpoint `k` begun and not yet named by `latest`, and it may find it named
      when nothing above it has been written since `d`. */
  ghost predicate Stages<K, V, E, M>(d: DiskState<K, V, E, M>, hs: seq<DiskState<K, V, E, M>>, k: nat, n: nat) {
    && (exists j :: 0 <= j < |hs| && Begun(hs[j], k, n) && hs[j].latest != Some(CheckpointMeta(k)))
    && (exists j :: 0 <= j < |hs| && hs[j].latest == Some(CheckpointMeta(k)) && SameAbove(d, hs[j], k))
  }

  lemma StagesConcat<K, V, E, M>(
      d: DiskState<K, V, E, M>, xs: seq<DiskState<K, V, E, M>>, ys: seq<DiskState<K, V, E, M>>, k: nat, n: nat)
    requires Stages(d, xs, k, n) || Stages(d, ys, k, n)
    ensures Stages(d, xs + ys, k, n)
  {
    hide Begun, SameAbove;
    var hs := xs + ys;
    if Stages(d, xs, k, n) {
      var i :| 0 <= i < |xs| && Begun(xs[i], k, n) && xs[i].latest != Some(CheckpointMeta(k));
      var j :| 0 <= j < |xs| && xs[j].latest == Some(CheckpointMeta(k)) && SameAbove(d, xs[j], k);
      assert hs[i] == xs[i] && hs[j] == xs[j];
    } else {
      var i :| 0 <= i < |ys| && Begun(ys[i], k, n) && ys[i].latest != Some(CheckpointMeta(k));
      var j :| 0 <= j < |ys| && ys[j].latest == Some(CheckpointMeta(k)) && SameAbove(d, ys[j], k);
      assert hs[|xs| + i] == ys[i] && hs[|xs| + j] == ys[j];
    }
  }

  lemma StagesSince<K, V, E, M>(
      d: DiskState<K, V, E, M>, d': DiskState<K, V, E, M>, hs: seq<DiskState<K, V, E, M>>, k: nat, n: nat)
    requires k >= 1 && SameAbove(d, d', k - 1) && Stages(d', hs, k, n)
    ensures Stages(d, hs, k, n)
  {
    hide Begun;
    var j :| 0 <= j < |hs| && hs[j].latest == Some(CheckpointMeta(k)) && SameAbove(d', hs[j], k);
    SameAboveTrans(d, d', hs[j], k - 1, k);
  }

  /** The durable writes of one checkpoint, in order: snapshots, inboxes, description, latest. At
      every point in between, `latest` names what it named before or the complete new cut. */
  method Checkpoint<K(!new, ==), V, E, M(==), S>(
      driver: DistributedDriver<K, V, E, M, S>, disk: Disk<K, V, E, M>, k: nat, inboxes: seq<Inbox<K, M>>,
      ghost a: Attempt<K, V, E, M, S>)
    returns (ok: bool, ghost hs: seq<DiskState<K, V, E, M>>)
    requires driver.Connected() && ValidCluster(a.c0) && driver.workers.Length == |a.c0.sites|
    requires a.First() <= k <= a.job.max && a.spec.DueAt(k) && GetsTo(a, k)
    requires CutOf(a, k) == Some(Cluster(driver.Sites(), inboxes))
    requires LeftBehind(a, disk.now) && LatestBelow(a, disk.now, k)
    modifies disk
    ensures disk.history == old(disk.history) + hs && AllLeftBehind(a, hs) && LeftBehind(a, disk.now)
    ensures SameAbove(old(disk.now), disk.now, k)
    ensures ok <==> !Begun(old(disk.now), k, driver.workers.Length)
    ensures ok ==> LatestBelow(a, disk.now, k + 1) && Stages(old(disk.now), hs, k, driver.workers.Length)
    ensures ok ==> k in disk.now.metas && disk.now.metas[k] == CheckpointMeta(k)
    ensures forall i :: 0 <= i < |hs| && hs[i].latest == Some(CheckpointMeta(k)) ==>
              k in hs[i].metas && hs[i].metas[k] == CheckpointMeta(k)
  {
    hide Preserves, AllPreserve, CutOf, AllLeftBehind, LeftBehind, GetsTo;
    ghost var d := disk.now;
    var n := driver.workers.Length;
    ok, hs := CreateCheckpointAll(driver, disk, k);
    AllFiledLeftBehind(a, d, hs, k);
    FiledLeftBehind(a, d, disk.now, k);
    PreservesAbove(d, disk.now, k, n);
    NamedIsDescribed(a, hs, k);
    if !ok {
      return;
    }
    ghost var d1 := disk.now;
    disk.WriteInboxes(k, inboxes);
    ghost var d2 := disk.now;
    disk.WriteMeta(CheckpointMeta(k));
    ghost var d3 := disk.now;
    FilesUnder(d1, k, n, inboxes);
    FilesUnder(d2, k, n, inboxes);
    FiledLeftBehind(a, d1, d2, k);
    FiledLeftBehind(a, d2, d3, k);
    disk.WriteLatest(CheckpointMeta(k));
    NamedLeftBehind(a, d3, k, Cluster(driver.Sites(), inboxes));
    FirstSnapshotUnnamed(a, d, hs, k, n);
    StagesReached(d, hs, d2, d3, disk.now, k, n);
    AddThree(a, hs, d2, d3, disk.now);
    hs := hs + [d2] + [d3] + [disk.now];
    NamedIsDescribed(a, hs, k);
  }

  /** Wherever `latest` names a checkpoint of this run, the description is there. */
  lemma NamedIsDescribed<K, V, E, M, S>(a: Attempt<K, V, E, M, S>, hs: seq<DiskState<K, V, E, M>>, k: nat)
    requires ValidCluster(a.c0) && AllLeftBehind(a, hs) && a.First() <= k && a.spec.On()
    ensures forall i :: 0 <= i < |hs| && hs[i].latest == Some(CheckpointMeta(k)) ==>
              k in hs[i].metas && hs[i].metas[k] == CheckpointMeta(k)
  {
    hide HoldsCut, Traced, LiveStores;
    forall i | 0 <= i < |hs| && hs[i].latest == Some(CheckpointMeta(k))
      ensures k in hs[i].metas && hs[i].metas[k] == CheckpointMeta(k)
    {
      assert Consistent(a, hs[i]);
    }
  }

  lemma FirstSnapshotUnnamed<K, V, E, M, S>(
      a: Attempt<K, V, E, M, S>, d: DiskState<K, V, E, M>, hs: seq<DiskState<K, V, E, M>>, k: nat, n: nat)
    requires hs != [] && AllPreserve(d, hs, k, n) && LatestBelow(a, d, k)
    requires a.First() <= k && a.spec.On()
    ensures hs[0].latest != Some(CheckpointMeta(k))
  {
    assert hs[0].latest == d.latest;
  }

  lemma StagesReached<K, V, E, M>(
      d: DiskState<K, V, E, M>,
      hs: seq<DiskState<K, V, E, M>>, a: DiskState<K, V, E, M>, b: DiskState<K, V, E, M>, c: DiskState<K, V, E, M>,
      k: nat, n: nat)
    requires hs != [] && Begun(hs[0], k, n) && hs[0].latest != Some(CheckpointMeta(k))
    requires c.latest == Some(CheckpointMeta(k)) && SameAbove(d, c, k)
    ensures Stages(d, hs + [a] + [b] + [c], k, n)
  {
    hide Begun, SameAbove;
    var all := hs + [a] + [b] + [c];
    assert all[0] == hs[0] && all[|hs| + 2] == c;
  }

  lemma AddThree<K, V, E, M, S>(
      a: Attempt<K, V, E, M, S>, hs: seq<DiskState<K, V, E, M>>,
      x: DiskState<K, V, E, M>, y: DiskState<K, V, E, M>, z: DiskState<K, V, E, M>)
    requires ValidCluster(a.c0) && AllLeftBehind(a, hs)
    requires LeftBehind(a, x) && LeftBehind(a, y) && LeftBehind(a, z)
    ensures AllLeftBehind(a, hs + [x] + [y] + [z])
  {
    hide LeftBehind;
  }

  // ---------------------------------------------------------------------------------------
  // The run of a job.

  datatype RunState = Init | Running(iteration: nat) | Finished(executed: int)

  /** A checkpoint is due after superstep `it`, and a directory of it exists. */
  ghost predicate Blocked<K, V, E, M>(spec: CheckpointSpec, d: DiskState<K, V, E, M>, n: nat, it: nat) {
    spec.DueAt(it) && Begun(d, it, n)
  }

  lemma SameAboveBlocked<K, V, E, M>(
      spec: CheckpointSpec, d: DiskState<K, V, E, M>, d': DiskState<K, V, E, M>, n: nat, k: nat, it: nat)
    requires SameAbove(d, d', k) && k < it
    ensures Blocked(spec, d, n, it) <==> Blocked(spec, d', n, it)
  {
  }

  lemma SameAboveTrans<K, V, E, M>(
      d: DiskState<K, V, E, M>, d': DiskState<K, V, E, M>, d'': DiskState<K, V, E, M>, k: nat, it: nat)
    requires SameAbove(d, d', k) && SameAbove(d', d'', it) && k <= it
    ensures SameAbove(d, d'', it)
  {
  }

  /** The disk on which all workers have written the stores of `sites` is in the history. */
  ghost predicate Written<K, V, E, M, S>(
      d: DiskState<K, V, E, M>, hs: seq<DiskState<K, V, E, M>>, k: nat, sites: seq<Site<K, V, E, S>>)
  {
    exists j :: 0 <= j < |hs| && Overwritten(d, hs[j], k, sites, AllBelow(|sites|))
  }

  lemma WrittenConcat<K, V, E, M, S>(
      d: DiskState<K, V, E, M>, xs: seq<DiskState<K, V, E, M>>, ys: seq<DiskState<K, V, E, M>>, k: nat,
      sites: seq<Site<K, V, E, S>>)
    requires Written(d, xs, k, sites) || Written(d, ys, k, sites)
    ensures Written(d, xs + ys, k, sites)
  {
    hide Overwritten;
    if Written(d, xs, k, sites) {
      var j :| 0 <= j < |xs| && Overwritten(d, xs[j], k, sites, AllBelow(|sites|));
      assert (xs + ys)[j] == xs[j];
    } else {
      var j :| 0 <= j < |ys| && Overwritten(d, ys[j], k, sites, AllBelow(|sites|));
      assert (xs + ys)[|xs| + j] == ys[j];
    }
  }

  lemma CutStep<K, V, E, M, S>(a: Attempt<K, V, E, M, S>, it: nat, c: Cluster<K, V, E, M, S>)
    requires ValidCluster(a.c0) && a.First() <= it && CutOf(a, it - 1) == Some(c)
    ensures Round(a.job, c, it).Some? ==> CutOf(a, it) == Some(Round(a.job, c, it).value.0)
  {
    hide Round, Cut;
    CutNext(a.job, a.c0, a.First(), it, c);
  }

  lemma {:induction false} ExecutesOn<K, V, E, M, S>(job: Job<K, V, E, M, S>, c: Cluster<K, V, E, M, S>, it: nat)
    requires ValidCluster(c) && it <= job.max
    ensures var run := ExecuteFrom(job, c, it);
            run.Some? ==> it <= run.value.1
    decreases job.max + 1 - it
  {
    hide Stream, Work, Route;
    if Round(job, c, it).Some? && it + 1 <= job.max {
      ExecutesOn(job, Round(job, c, it).value.0, it + 1);
    }
  }

  /** What one pass through the running state does to a run: the cluster `c` does superstep `it`, the
      disk goes from `d` to `now` by way of `hs`. It fails exactly when a worker fails or a due
      checkpoint is blocked. */
  ghost predicate Advances<K, V, E, M, S>(
      a: Attempt<K, V, E, M, S>, c: Cluster<K, V, E, M, S>, it: nat, d: DiskState<K, V, E, M>,
      hs: seq<DiskState<K, V, E, M>>, now: DiskState<K, V, E, M>, r: Option<(Cluster<K, V, E, M, S>, bool)>)
    requires ValidCluster(a.c0) && ValidCluster(c)
  {
    && AllLeftBehind(a, hs) && LeftBehind(a, now)
    && (!a.spec.On() ==> now == d && hs == [])
    && SameAbove(d, now, it)
    && match Round(a.job, c, it)
       case None => r == None
       case Some((after, any)) =>
         && (if Blocked(a.spec, d, |a.c0.sites|, it) then r == None else r == Some((after, any)))
         && (r.Some? ==> LatestBelow(a, now, it + 1) && (a.spec.DueAt(it) ==> Stages(d, hs, it, |a.c0.sites|)))
         && (Recovers(a.spec, a.disk) ==> Written(d, hs, a.First() - 1, after.sites))
  }

  /** One pass through the running state: a superstep, and a checkpoint when one is due. */
  method Advance<K(!new, ==), V, E, M(==), S>(
      driver: DistributedDriver<K, V, E, M, S>, disk: Disk<K, V, E, M>, spec: CheckpointSpec, it: nat,
      inboxes: array<Inbox<K, M>>, live: Option<nat>, ghost a: Attempt<K, V, E, M, S>)
    returns (r: Option<(array<Inbox<K, M>>, bool)>, ghost hs: seq<DiskState<K, V, E, M>>)
    requires driver.Idle() && ValidCluster(a.c0) && inboxes.Length == driver.workers.Length == |a.c0.sites|
    requires a.job.alg == driver.alg && a.job.hash == driver.hash && a.spec == spec
    requires a.First() <= it <= a.job.max && GetsTo(a, it)
    requires live == if Recovers(spec, a.disk) then Some(a.disk.latest.value.iteration) else None
    requires CutOf(a, it - 1) == Some(Cluster(driver.Sites(), inboxes[..]))
    requires LeftBehind(a, disk.now) && LatestBelow(a, disk.now, it)
    modifies driver.workers, driver.responses, inboxes, disk
    ensures disk.history == old(disk.history) + hs
    ensures r.Some? ==> driver.Idle() && fresh(r.value.0) && r.value.0.Length == driver.workers.Length
    ensures Advances(a, Cluster(old(driver.Sites()), old(inboxes[..])), it, old(disk.now), hs, disk.now,
                     if r.None? then None else Some((Cluster(driver.Sites(), r.value.0[..]), r.value.1)))
  {
    hide Round, CutOf, LeftBehind, AllLeftBehind, Overwritten, AllOverwritten, Stages, Begun, SameAbove, GetsTo;
    ghost var c := Cluster(driver.Sites(), inboxes[..]);
    var n := driver.workers.Length;
    CutStep(a, it, c);
    NothingLeftBehind(a);
    hs := [];
    ghost var d := disk.now;
    SameAboveItself(d, it);
    SameAboveItself(d, it - 1);
    r := driver.SuperstepRound(it, inboxes, a.job);
    if r.None? {
      return;
    }
    ghost var after := Cluster(driver.Sites(), r.value.0[..]);
    if live.Some? {
      hs := LiveWrites(driver, disk, live.value);
      OverwrittenAbove(d, disk.now, live.value, after.sites, AllBelow(n), it);
      OverwrittenAbove(d, disk.now, live.value, after.sites, AllBelow(n), it - 1);
      AllOverwrittenLeftBehind(a, d, hs, it, live.value, after);
      OverwrittenLeftBehind(a, d, disk.now, it, live.value, after, AllBelow(n));
      SameAboveBlocked(spec, d, disk.now, n, it - 1, it);
      assert Written(d, hs, live.value, after.sites);
    }
    if spec.DueAt(it) {
      ghost var d' := disk.now;
      ghost var written := hs;
      var ok, hs' := Checkpoint(driver, disk, it, r.value.0[..], a);
      LeftBehindConcat(a, hs, hs');
      hs := hs + hs';
      SameAboveTrans(d, d', disk.now, it, it);
      if live.Some? {
        WrittenConcat(d, written, hs', live.value, after.sites);
      }
      if ok {
        StagesSince(d, d', hs', it, n);
        StagesConcat(d, written, hs', it, n);
      } else {
        r := None;
      }
    }
  }

  lemma SameAboveItself<K, V, E, M>(d: DiskState<K, V, E, M>, k: nat)
    ensures SameAbove(d, d, k)
  {
  }

  /** Nothing stands in the way of the run: no due checkpoint up to the last superstep has a
      directory on the disk that the run found. */
  ghost predicate Unblocked<K, V, E, M>(
      spec: CheckpointSpec, d: DiskState<K, V, E, M>, n: nat, it: nat, executed: int)
  {
    forall j: nat :: it <= j <= executed ==> !Blocked(spec, d, n, j)
  }

  /** When recovering, the saved inboxes can be read. */
  ghost predicate InboxesSaved<K, V, E, M>(spec: CheckpointSpec, d: DiskState<K, V, E, M>) {
    Recovers(spec, d) ==> d.latest.value.iteration in d.inboxes
  }

  /** All stages of all checkpoints up to superstep `last` are in the history. */
  ghost predicate AllStages<K, V, E, M, S>(a: Attempt<K, V, E, M, S>, hs: seq<DiskState<K, V, E, M>>, last: int) {
    forall it: nat :: a.First() <= it <= last && a.spec.DueAt(it) ==> Stages(a.disk, hs, it, |a.c0.sites|)
  }

  lemma AllStagesConcat<K, V, E, M, S>(
      a: Attempt<K, V, E, M, S>, xs: seq<DiskState<K, V, E, M>>, ys: seq<DiskState<K, V, E, M>>, it: nat)
    requires it >= 1 && AllStages(a, xs, it - 1)
    requires a.First() <= it && a.spec.DueAt(it) ==> Stages(a.disk, ys, it, |a.c0.sites|)
    ensures AllStages(a, xs + ys, it)
  {
    hide Stages;
    forall j: nat | a.First() <= j <= it && a.spec.DueAt(j)
      ensures Stages(a.disk, xs + ys, j, |a.c0.sites|)
    {
      StagesConcat(a.disk, xs, ys, j, |a.c0.sites|);
    }
  }

  /** In a recovered run that has executed a superstep, the disk on which all workers have written
      what that superstep computed, and no more, is in the history. */
  ghost predicate FirstWritten<K, V, E, M, S>(a: Attempt<K, V, E, M, S>, hs: seq<DiskState<K, V, E, M>>)
    requires ValidCluster(a.c0)
  {
    Recovers(a.spec, a.disk) && a.First() <= a.job.max ==>
      match Round(a.job, a.c0, a.First())
      case None => true
      case Some((next, _)) => Written(a.disk, hs, a.First() - 1, next.sites)
  }

  /** Opening the snapshots and writing all of them again is writing all of them. */
  lemma {:induction false} WrittenAfterOpening<K, V, E, M, S>(
      d: DiskState<K, V, E, M>, d': DiskState<K, V, E, M>, hs: seq<DiskState<K, V, E, M>>, k: nat,
      before: seq<Site<K, V, E, S>>, after: seq<Site<K, V, E, S>>)
    requires |before| == |after| && Overwritten(d, d', k, before, AllBelow(|before|))
    requires Written(d', hs, k, after)
    ensures Written(d, hs, k, after)
  {
    var j :| 0 <= j < |hs| && Overwritten(d', hs[j], k, after, AllBelow(|after|));
    assert Overwritten(d, hs[j], k, after, AllBelow(|after|));
  }

  lemma FirstWrittenConcat<K, V, E, M, S>(
      a: Attempt<K, V, E, M, S>, xs: seq<DiskState<K, V, E, M>>, ys: seq<DiskState<K, V, E, M>>)
    requires ValidCluster(a.c0) && (FirstWritten(a, xs) || FirstWritten(a, ys))
    ensures FirstWritten(a, xs + ys)
  {
    hide Written, Round;
    if Recovers(a.spec, a.disk) && a.First() <= a.job.max && Round(a.job, a.c0, a.First()).Some? {
      WrittenConcat(a.disk, xs, ys, a.First() - 1, Round(a.job, a.c0, a.First()).value.0.sites);
    }
  }

  lemma {:induction false} GetsToNow<K, V, E, M, S>(a: Attempt<K, V, E, M, S>, c: Cluster<K, V, E, M, S>, it: nat)
    requires ValidCluster(a.c0) && ValidCluster(c) && it <= a.job.max
    requires a.Outcome() == ExecuteFrom(a.job, c, it)
    ensures GetsTo(a, it)
  {
    hide ExecuteFrom;
    ExecutesOn(a.job, c, it);
  }

  // ---------------------------------------------------------------------------------------
  // The whole run.

  /** Superstep `it` is next: `c` is the cut before it, and nothing stood in the way so far. */
  ghost predicate Midway<K, V, E, M, S>(
      a: Attempt<K, V, E, M, S>, c: Cluster<K, V, E, M, S>, it: nat, now: DiskState<K, V, E, M>,
      hs: seq<DiskState<K, V, E, M>>)
    requires ValidCluster(a.c0) && ValidCluster(c)
  {
    && a.First() <= it && CutOf(a, it - 1) == Some(c) && a.Outcome() == ExecuteFrom(a.job, c, it)
    && AllLeftBehind(a, hs) && LeftBehind(a, now) && LatestBelow(a, now, it)
    && (!a.spec.On() ==> now == a.disk && hs == [])
    && SameAbove(a.disk, now, it - 1) && Unblocked(a.spec, a.disk, |a.c0.sites|, a.First(), it - 1)
    && AllStages(a, hs, it - 1)
    && (if it == a.First() then
          && c == a.c0
          && (Recovers(a.spec, a.disk) ==> Overwritten(a.disk, now, it - 1, c.sites, AllBelow(|c.sites|)))
        else
          FirstWritten(a, hs))
  }

  /** The run has returned: everything that was executed was executed without obstacle. */
  ghost predicate Returned<K, V, E, M, S>(
      a: Attempt<K, V, E, M, S>, sites: seq<Site<K, V, E, S>>, executed: int, now: DiskState<K, V, E, M>,
      hs: seq<DiskState<K, V, E, M>>)
    requires ValidCluster(a.c0)
  {
    && a.Outcome().Some? && a.Outcome().value.1 == executed && a.Outcome().value.0.sites == sites
    && Unblocked(a.spec, a.disk, |a.c0.sites|, a.First(), executed)
    && AllLeftBehind(a, hs) && AllStages(a, hs, executed) && FirstWritten(a, hs)
    && (!a.spec.On() ==> now == a.disk && hs == [])
  }

  /** The run has failed, because a superstep did or because a directory was in the way. */
  ghost predicate Fails<K, V, E, M, S>(
      a: Attempt<K, V, E, M, S>, now: DiskState<K, V, E, M>, hs: seq<DiskState<K, V, E, M>>)
    requires ValidCluster(a.c0)
  {
    && (a.Outcome().Some? ==> !Unblocked(a.spec, a.disk, |a.c0.sites|, a.First(), a.Outcome().value.1))
    && AllLeftBehind(a, hs) && FirstWritten(a, hs)
    && (!a.spec.On() ==> now == a.disk && hs == [])
  }

  lemma OpeningLeftBehind<K, V, E, M, S>(
      a: Attempt<K, V, E, M, S>, now: DiskState<K, V, E, M>, hs: seq<DiskState<K, V, E, M>>, k: nat)
    requires ValidCluster(a.c0) && LeftBehind(a, a.disk) && Recovers(a.spec, a.disk) && k + 1 == a.First()
    requires Overwritten(a.disk, now, k, a.c0.sites, AllBelow(|a.c0.sites|))
    requires AllOverwritten(a.disk, hs, k, a.c0.sites)
    ensures AllLeftBehind(a, hs) && LeftBehind(a, now)
    ensures SameAbove(a.disk, now, k) && now.latest == a.disk.latest && now.inboxes == a.disk.inboxes
  {
    hide LeftBehind, Overwritten, AllOverwritten, SameAbove, CutOf, AllBelow, FirstStep;
    CutBefore(a);
    OverwrittenLeftBehind(a, a.disk, now, k, k, a.c0, AllBelow(|a.c0.sites|));
    AllOverwrittenLeftBehind(a, a.disk, hs, k, k, a.c0);
    OverwrittenAbove(a.disk, now, k, a.c0.sites, AllBelow(|a.c0.sites|), k);
  }

  lemma RunBegins<K, V, E, M, S>(
      a: Attempt<K, V, E, M, S>, now: DiskState<K, V, E, M>, hs: seq<DiskState<K, V, E, M>>)
    requires ValidCluster(a.c0) && LeftBehind(a, a.disk)
    requires if Recovers(a.spec, a.disk) then
               && Overwritten(a.disk, now, a.First() - 1, a.c0.sites, AllBelow(|a.c0.sites|))
               && AllOverwritten(a.disk, hs, a.First() - 1, a.c0.sites)
             else
               now == a.disk && hs == []
    ensures AllLeftBehind(a, hs) && Midway(a, a.c0, a.First(), now, hs) && now.inboxes == a.disk.inboxes
  {
    hide LeftBehind, AllLeftBehind, Overwritten, AllOverwritten, Stages, SameAbove, CutOf, ExecuteFrom, Blocked,
      AllBelow, FirstWritten;
    CutBefore(a);
    NothingLeftBehind(a);
    SameAboveItself(a.disk, a.First() - 1);
    if Recovers(a.spec, a.disk) {
      OpeningLeftBehind(a, now, hs, a.First() - 1);
    }
  }

  lemma FirstPass<K, V, E, M, S>(
      a: Attempt<K, V, E, M, S>, d: DiskState<K, V, E, M>, hs: seq<DiskState<K, V, E, M>>)
    requires ValidCluster(a.c0)
    requires Recovers(a.spec, a.disk) ==>
               && Overwritten(a.disk, d, a.First() - 1, a.c0.sites, AllBelow(|a.c0.sites|))
               && match Round(a.job, a.c0, a.First())
                  case None => true
                  case Some((next, _)) => |next.sites| == |a.c0.sites| && Written(d, hs, a.First() - 1, next.sites)
    ensures FirstWritten(a, hs)
  {
    hide Round, Written, Overwritten;
    if Recovers(a.spec, a.disk) && Round(a.job, a.c0, a.First()).Some? {
      WrittenAfterOpening(a.disk, d, hs, a.First() - 1, a.c0.sites, Round(a.job, a.c0, a.First()).value.0.sites);
    }
  }

  lemma RoundSites<K, V, E, M, S>(job: Job<K, V, E, M, S>, c: Cluster<K, V, E, M, S>, it: nat)
    requires ValidCluster(c)
    ensures var r := Round(job, c, it);
            r.Some? ==> ValidCluster(r.value.0) && |r.value.0.sites| == |c.sites|
  {
    hide Stream, Work, Route;
  }

  lemma FirstWrittenAfter<K, V, E, M, S>(
      a: Attempt<K, V, E, M, S>, c: Cluster<K, V, E, M, S>, it: nat, d: DiskState<K, V, E, M>,
      hs: seq<DiskState<K, V, E, M>>, hs': seq<DiskState<K, V, E, M>>, now: DiskState<K, V, E, M>,
      r: Option<(Cluster<K, V, E, M, S>, bool)>)
    requires ValidCluster(a.c0) && ValidCluster(c) && Midway(a, c, it, d, hs) && Advances(a, c, it, d, hs', now, r)
    ensures FirstWritten(a, hs + hs')
  {
    hide Round, CutOf, LeftBehind, Overwritten, Written, Stages, SameAbove, FirstWritten, ExecuteFrom;
    RoundSites(a.job, c, it);
    if it == a.First() {
      FirstPass(a, d, hs');
    }
    FirstWrittenConcat(a, hs, hs');
  }

  /** A pass of the loop. */
  lemma PassesOn<K, V, E, M, S>(
      a: Attempt<K, V, E, M, S>, c: Cluster<K, V, E, M, S>, it: nat, d: DiskState<K, V, E, M>,
      hs: seq<DiskState<K, V, E, M>>, hs': seq<DiskState<K, V, E, M>>, now: DiskState<K, V, E, M>,
      r: Option<(Cluster<K, V, E, M, S>, bool)>)
    requires ValidCluster(a.c0) && ValidCluster(c) && it <= a.job.max
    requires Midway(a, c, it, d, hs) && Advances(a, c, it, d, hs', now, r)
    ensures r.None? ==> Fails(a, now, hs + hs')
    ensures r.Some? && !r.value.1 ==> Returned(a, r.value.0.sites, it, now, hs + hs')
    ensures r.Some? && r.value.1 ==> ValidCluster(r.value.0) && Midway(a, r.value.0, it + 1, now, hs + hs')
  {
    hide Round, CutOf, LeftBehind, AllLeftBehind, Overwritten, Written, Stages, Begun, SameAbove, FirstWritten,
      AllStages, Recovers, Blocked;
    FirstWrittenAfter(a, c, it, d, hs, hs', now, r);
    RoundSites(a.job, c, it);
    ExecutesOn(a.job, c, it);
    LeftBehindConcat(a, hs, hs');
    SameAboveBlocked(a.spec, a.disk, d, |a.c0.sites|, it - 1, it);
    SameAboveTrans(a.disk, d, now, it - 1, it);
    CutStep(a, it, c);
    if r.Some? {
      if a.spec.DueAt(it) {
        StagesSince(a.disk, d, hs', it, |a.c0.sites|);
      }
      AllStagesConcat(a, hs, hs', it);
    }
  }

  /** The loop ends because the cap is passed. */
  lemma CapPassed<K, V, E, M, S>(
      a: Attempt<K, V, E, M, S>, c: Cluster<K, V, E, M, S>, it: nat, now: DiskState<K, V, E, M>,
      hs: seq<DiskState<K, V, E, M>>)
    requires ValidCluster(a.c0) && ValidCluster(c) && it > a.job.max && Midway(a, c, it, now, hs)
    ensures Returned(a, c.sites, it - 1, now, hs)
  {
    hide Round, CutOf, LeftBehind, AllLeftBehind, Overwritten, Stages, SameAbove, AllStages;
  }

  /** What a run makes of the checkpoint setting. When it is on, every multiple of the interval from the
      first superstep to the last one executed has its stages in the history, and a snapshot that was
      not on the disk found is numbered by such a multiple, or belongs to the checkpoint that was opened.
      When it is off, or the interval is 0, the disk is not touched. */
  ghost predicate KeepsInterval<K, V, E, M>(
      spec: CheckpointSpec, d: DiskState<K, V, E, M>, n: nat, r: Option<int>, now: DiskState<K, V, E, M>,
      hs: seq<DiskState<K, V, E, M>>)
  {
    if spec.enabled && spec.intervalIters > 0 then
      var first: nat := if d.latest.Some? then d.latest.value.iteration + 1 else 1;
      && (r.Some? ==> forall m: nat :: first <= m * spec.intervalIters <= r.value ==>
            Stages(d, hs, m * spec.intervalIters, n))
      && (forall i, x {:trigger x in hs[i].snapshots} ::
            0 <= i < |hs| && x in hs[i].snapshots && x !in d.snapshots ==>
              && x.1 < n
              && (|| (d.latest.Some? && x.0 == d.latest.value.iteration)
                  || (&& first <= x.0 && (r.Some? ==> x.0 <= r.value)
                      && exists m: nat :: x.0 == m * spec.intervalIters)))
    else
      now == d && hs == []
  }

  lemma OffIsUnblocked<K, V, E, M>(spec: CheckpointSpec, d: DiskState<K, V, E, M>, n: nat)
    ensures !spec.enabled || spec.intervalIters == 0 ==>
              forall it: nat, executed :: Unblocked(spec, d, n, it, executed)
  {
  }

  lemma {:induction false} IntervalKept<K, V, E, M, S>(
      a: Attempt<K, V, E, M, S>, r: Option<int>, now: DiskState<K, V, E, M>, hs: seq<DiskState<K, V, E, M>>)
    requires ValidCluster(a.c0) && AllLeftBehind(a, hs)
    requires r.Some? ==> a.Outcome().Some? && a.Outcome().value.1 == r.value && AllStages(a, hs, r.value)
    requires !a.spec.On() ==> now == a.disk && hs == []
    ensures KeepsInterval(a.spec, a.disk, |a.c0.sites|, r, now, hs)
  {
    hide Stages, ExecuteFrom, Consistent, LiveStores;
    if a.spec.On() {
      forall m: nat | r.Some? && a.First() <= m * a.spec.intervalIters <= r.value
        ensures Stages(a.disk, hs, m * a.spec.intervalIters, |a.c0.sites|)
      {
        DueExactlyWhen(a.spec, m * a.spec.intervalIters);
      }
      forall i, x | 0 <= i < |hs| && x in hs[i].snapshots && x !in a.disk.snapshots
        ensures x.1 < |a.c0.sites|
        ensures || (a.disk.latest.Some? && x.0 == a.disk.latest.value.iteration)
                || (&& a.First() <= x.0 && (r.Some? ==> x.0 <= r.value)
                    && exists m: nat :: x.0 == m * a.spec.intervalIters)
      {
        assert Traced(a, hs[i]);
        DueExactlyWhen(a.spec, x.0);
      }
    }
  }

  /** The scheduler. It returns exactly when no superstep fails, the saved inboxes can be read and no
      checkpoint directory is in the way, and then the cluster is where the driver's loop, started
      from the beginning of the run, leaves it. Whatever is on disk at any moment of the run, `latest`
      names what it named at the start or a complete consistent cut of this run. */
  method Run<K(!new, ==), V, E, M(==), S>(
      driver: DistributedDriver<K, V, E, M, S>, disk: Disk<K, V, E, M>, spec: CheckpointSpec, maxIterations: nat)
    returns (r: Option<int>, ghost hs: seq<DiskState<K, V, E, M>>)
    requires driver.Idle() && SameWorkers(spec, disk.now, driver.workers.Length)
    modifies driver.workers, driver.responses, disk
    ensures var d := old(disk.now);
            var a := Attempt(Job(driver.alg, driver.hash, maxIterations), spec, d,
                             Beginning(spec, d, old(driver.Sites())));
            var run, n := a.Outcome(), driver.workers.Length;
            && (r.Some? <==> run.Some? && InboxesSaved(spec, d) && Unblocked(spec, d, n, a.First(), run.value.1))
            && (r.Some? ==> r.value == run.value.1 && driver.Idle() && driver.Sites() == run.value.0.sites)
            && KeepsInterval(spec, d, n, r, disk.now, hs)
            && disk.history == old(disk.history) + hs && AllLeftBehind(a, hs)
            && (r.Some? ==> AllStages(a, hs, run.value.1))
            && (InboxesSaved(spec, d) ==> FirstWritten(a, hs))
    ensures var plain := ExecuteFrom(Job(driver.alg, driver.hash, maxIterations),
                                     Cluster(old(driver.Sites()), EmptyInboxes(driver.workers.Length)), 1);
            !spec.enabled || spec.intervalIters == 0 ==>
              && (r.Some? <==> plain.Some?)
              && (r.Some? ==> r.value == plain.value.1 && driver.Sites() == plain.value.0.sites)
  {
    hide KeepsInterval, Round, CutOf, LeftBehind, AllLeftBehind, Overwritten, AllOverwritten, Stages, Begun, SameAbove,
      GetsTo, Blocked, Written, FirstWritten, AllStages, Midway, Advances, ExecuteFrom, Unblocked;
    ghost var a := Attempt(Job(driver.alg, driver.hash, maxIterations), spec, disk.now,
                           Beginning(spec, disk.now, driver.Sites()));
    var n := driver.workers.Length;
    var inboxes := new Inbox<K, M>[n](_ => map[]);
    var startIteration: nat := 1;
    var live: Option<nat> := None;
    hs := [];
    BeginsLeftBehind(a, driver.Sites());
    OffIsUnblocked(spec, disk.now, n);
    if spec.On() && disk.now.latest.Some? {
      var meta := disk.now.latest.value;
      hs := LoadCheckpointAll(driver, disk, meta.iteration);
      live := Some(meta.iteration);
      RunBegins(a, disk.now, hs);
      if meta.iteration !in disk.now.inboxes {
        IntervalKept(a, None, disk.now, hs);
        return None, hs;
      }
      var saved := disk.now.inboxes[meta.iteration];
      inboxes := new Inbox<K, M>[n](i requires 0 <= i < |saved| => saved[i]);
      startIteration := meta.iteration + 1;
      assert inboxes[..] == saved;
    } else {
      RunBegins(a, disk.now, hs);
      assert inboxes[..] == EmptyInboxes<K, M>(n);
    }
    assert a.c0 == Cluster(driver.Sites(), inboxes[..]);
    var state := Init;
    while true
      invariant driver.Idle() && inboxes.Length == driver.workers.Length == n && fresh(inboxes)
      invariant disk.history == old(disk.history) + hs
      invariant !state.Finished? ==>
                  var it := if state.Running? then state.iteration else startIteration;
                  Midway(a, Cluster(driver.Sites(), inboxes[..]), it, disk.now, hs)
      invariant state.Finished? ==> Returned(a, driver.Sites(), state.executed, disk.now, hs)
      decreases (match state case Init => 2 case Running(_) => 1 case Finished(_) => 0),
                (if state.Running? then maxIterations + 1 - state.iteration else 0)
    {
      match state {
        case Init =>
          state := Running(startIteration);
        case Running(it) =>
          ghost var d, c := disk.now, Cluster(driver.Sites(), inboxes[..]);
          if it > maxIterations {
            CapPassed(a, c, it, d, hs);
            state := Finished(it - 1);
          } else {
            MidwayGetsTo(a, c, it, d, hs);
            var step, hs' := Advance(driver, disk, spec, it, inboxes, live, a);
            PassesOn(a, c, it, d, hs, hs', disk.now,
                     if step.None? then None else Some((Cluster(driver.Sites(), step.value.0[..]), step.value.1)));
            hs := hs + hs';
            if step.None? {
              IntervalKept(a, None, disk.now, hs);
              return None, hs;
            }
            inboxes := step.value.0;
            state := if step.value.1 then Running(it + 1) else Finished(it);
          }
        case Finished(executed) =>
          IntervalKept(a, Some(executed), disk.now, hs);
          return Some(executed), hs;
      }
    }
  }

  /** Before a pass: what the superstep and the checkpoint need. */
  lemma MidwayGetsTo<K, V, E, M, S>(
      a: Attempt<K, V, E, M, S>, c: Cluster<K, V, E, M, S>, it: nat, now: DiskState<K, V, E, M>,
      hs: seq<DiskState<K, V, E, M>>)
    requires ValidCluster(a.c0) && ValidCluster(c) && it <= a.job.max && Midway(a, c, it, now, hs)
    ensures a.First() <= it && GetsTo(a, it) && CutOf(a, it - 1) == Some(c)
    ensures LeftBehind(a, now) && LatestBelow(a, now, it)
  {
    hide CutOf, LeftBehind, AllLeftBehind, ExecuteFrom, AllStages, SameAbove, Overwritten, FirstWritten;
    GetsToNow(a, c, it);
  }
}
