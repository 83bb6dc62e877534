/** What recovery does not survive, on a path 1 -> 2 -> 3 held by one worker.

    Recovering opens the checkpoint as the live store, so that the supersteps that follow write into
    it, while the saved inboxes stay what they were. If the recovered run crashes before its own
    first checkpoint is named, the next recovery replays messages to vertices that have already taken
    them: nothing drops any more, nothing is sent, and labels that were still on their way are lost.

    And a crash between the first snapshot of a checkpoint and its naming leaves a directory behind
    that no later run gets past.
 */
module SecondRecovery {
  import opened Options
  import opened Codec
  import opened Shuffle
  import opened WorkerCore
  import opened Rounds
  import opened VertexContext
  import opened Wcc
  import opened Disk
  import opened Attempts
  import opened Scheduler
  import opened Recovery

  /** The encoded vertex ids, which are also the labels. */
  function Id(n: nat): (bs: Bytes)
    ensures |bs| == 8
  {
    EncodeU64(n)
  }

  type WccStore = Store<Bytes, Bytes, Bytes>

  type WccInbox = Inbox<Bytes, Bytes>

  lemma Ids()
    ensures Id(1) != Id(2) && Id(1) != Id(3) && Id(2) != Id(3)
    ensures forall n :: 1 <= n <= 3 ==> DecodeU64(Id(n)) == Some(n)
  {
    U64RoundTrip(1);
    U64RoundTrip(2);
    U64RoundTrip(3);
    hide EncodeU64, DecodeU64;
  }

  /** The worker's store when vertices 1, 2 and 3 are labelled `a`, `b` and `c`. */
  function Labelled(a: nat, b: nat, c: nat): WccStore {
    Store([Id(1), Id(2), Id(3)], map[Id(1) := Id(a), Id(2) := Id(b), Id(3) := Id(c)],
          map[Id(1) := [(Id(2), [0])], Id(2) := [(Id(3), [0])]])
  }

  /** What waits after superstep 1: each id, for the next vertex. */
  function FirstInbox(): WccInbox {
    map[Id(2) := [Id(1)], Id(3) := [Id(2)]]
  }

  function OneWorker(store: WccStore, inbox: WccInbox): Cluster<Bytes, Bytes, Bytes, Bytes, ()> {
    Cluster([Site(store, ())], [inbox])
  }

  function WccJob(hash: Bytes -> nat, max: nat): Job<Bytes, Bytes, Bytes, Bytes, ()> {
    Job(WccAlg(), hash, max)
  }

  // ---------------------------------------------------------------------------------------
  // Supersteps on the path.

  /** A round of a single worker, given what its superstep does. */
  lemma {:induction false} SingleRound(
      job: Job<Bytes, Bytes, Bytes, Bytes, ()>, store: WccStore, inbox: WccInbox, it: nat,
      store': WccStore, outbox: seq<(Bytes, Bytes)>)
    requires Process(job.alg, store, (), inbox, it) == Some(Processed(store', (), outbox))
    ensures Round(job, OneWorker(store, inbox), it)
         == Some((Cluster([Site(store', ())], Route(job.hash, [map[]], outbox)), outbox != []))
  {
    hide Process, Route;
    var c := OneWorker(store, inbox);
    assert Work(job.alg, c, it, 0) == Some(Processed(store', (), outbox));
    assert Succeeds(job.alg, c, it);
    assert Stream(job.alg, c, it, 0) == [];
    assert Stream(job.alg, c, it, 1) == [] + outbox == outbox;
    assert EmptyInboxes<Bytes, Bytes>(1) == [map[]];
    assert NewSites(job.alg, c, it) == [Site(store', ())];
  }

  /** The worker's superstep, given what each of the three vertices does. */
  lemma {:induction false} ScanOfThree(
      store: WccStore, inbox: WccInbox, it: nat, a: nat, b: nat, c: nat,
      r1: (Option<Bytes>, seq<(Bytes, Bytes)>), r2: (Option<Bytes>, seq<(Bytes, Bytes)>),
      r3: (Option<Bytes>, seq<(Bytes, Bytes)>),
      u1: seq<(Bytes, Bytes)>, u2: seq<(Bytes, Bytes)>, u3: seq<(Bytes, Bytes)>)
    requires store == Labelled(a, b, c)
    requires WccCompute(Id(1), Some(Id(a)), [(Id(2), [0])], Waiting(inbox, Id(1)), it) == Some(r1)
    requires WccCompute(Id(2), Some(Id(b)), [(Id(3), [0])], Waiting(inbox, Id(2)), it) == Some(r2)
    requires WccCompute(Id(3), Some(Id(c)), [], Waiting(inbox, Id(3)), it) == Some(r3)
    requires u1 == if r1.0.Some? then [(Id(1), r1.0.value)] else []
    requires u2 == if r2.0.Some? then [(Id(2), r2.0.value)] else []
    requires u3 == if r3.0.Some? then [(Id(3), r3.0.value)] else []
    ensures Process(WccAlg(), store, (), inbox, it)
         == Some(Processed(store.(verts := PutAll(store.verts, u1 + u2 + u3)), (), r1.1 + r2.1 + r3.1))
  {
    Ids();
    hide Id, WccCompute, PutAll;
    var alg := WccAlg();
    var none: seq<(Bytes, Bytes)> := [];
    assert ScanTo(alg, store, (), inbox, it, 0) == Some(Scan((), none, none));
    hide ScanTo;
    ScanNext(alg, store, (), inbox, it, 0, Scan((), none, none));
    assert none + u1 == u1 && none + r1.1 == r1.1;
    ScanNext(alg, store, (), inbox, it, 1, Scan((), u1, r1.1));
    ScanNext(alg, store, (), inbox, it, 2, Scan((), u1 + u2, r1.1 + r2.1));
  }

  /** A vertex in the first superstep announces itself. */
  lemma Announces(k: nat, l: nat, es: seq<(Bytes, Bytes)>, ms: seq<Bytes>)
    requires 1 <= k <= 3 && 1 <= l <= 3
    ensures WccCompute(Id(k), Some(Id(l)), es, ms, 1) == Some((Some(Id(k)), Broadcast(es, Id(k))))
  {
    Ids();
  }

  /** A vertex with at most one message, after the first superstep. */
  lemma {:induction false} AtMostOne(k: nat, l: nat, es: seq<(Bytes, Bytes)>, it: nat, m: nat)
    requires it >= 2 && 1 <= k <= 3 && 1 <= l <= 3 && 1 <= m <= 3
    ensures WccCompute(Id(k), Some(Id(l)), es, [], it) == Some((None, []))
    ensures WccCompute(Id(k), Some(Id(l)), es, [Id(m)], it)
         == Some(if m < l then (Some(Id(m)), Broadcast(es, Id(m))) else (None, []))
  {
    Ids();
    hide DecodeU64;
    assert [Id(m)][..0] == [];
    assert DecodeAll([Id(m)]) == Some([] + [m]);
    assert [m][..0] == [] && [] + [m] == [m];
    assert MinLabel(l, []) == l;
  }

  lemma ToOne(target: nat, l: nat)
    ensures Broadcast<Bytes, Bytes, Bytes>([(Id(target), [0])], Id(l)) == [(Id(target), Id(l))]
    ensures Broadcast<Bytes, Bytes, Bytes>([], Id(l)) == []
  {
  }

  lemma {:induction false} PutOne(verts: map<Bytes, Bytes>, k: Bytes, v: Bytes)
    ensures PutAll(verts, [(k, v)]) == verts[k := v]
    ensures PutAll(verts, []) == verts
  {
    assert [(k, v)][..0] == [];
  }

  lemma {:induction false} PutThree(
      verts: map<Bytes, Bytes>, a: (Bytes, Bytes), b: (Bytes, Bytes), c: (Bytes, Bytes))
    ensures PutAll(verts, [a] + [b] + [c]) == verts[a.0 := a.1][b.0 := b.1][c.0 := c.1]
    ensures PutAll(verts, [] + [b] + [c]) == verts[b.0 := b.1][c.0 := c.1]
  {
    PutAllConcat(verts, [a] + [b], [c]);
    PutAllConcat(verts, [a], [b]);
    PutAllConcat(verts, [] + [b], [c]);
    PutAllConcat(verts, [], [b]);
    PutOne(verts, a.0, a.1);
    PutOne(verts, b.0, b.1);
    PutOne(verts[a.0 := a.1], b.0, b.1);
    PutOne(verts[a.0 := a.1][b.0 := b.1], c.0, c.1);
    PutOne(verts[b.0 := b.1], c.0, c.1);
  }

  lemma PathDrops(verts: map<Bytes, Bytes>)
    requires verts == Labelled(1, 2, 3).verts
    ensures verts[Id(1) := Id(1)][Id(2) := Id(2)][Id(3) := Id(3)] == verts
    ensures verts[Id(2) := Id(1)][Id(3) := Id(2)] == Labelled(1, 1, 2).verts
    ensures Labelled(1, 1, 2).verts[Id(3) := Id(1)] == Labelled(1, 1, 1).verts
  {
    Ids();
    hide Id;
  }

  lemma PathUpdates()
    ensures PutAll(Labelled(1, 2, 3).verts, [(Id(1), Id(1))] + [(Id(2), Id(2))] + [(Id(3), Id(3))])
         == Labelled(1, 2, 3).verts
    ensures PutAll(Labelled(1, 2, 3).verts, [] + [(Id(2), Id(1))] + [(Id(3), Id(2))]) == Labelled(1, 1, 2).verts
    ensures PutAll(Labelled(1, 1, 2).verts, [(Id(3), Id(1))]) == Labelled(1, 1, 1).verts
    ensures PutAll(Labelled(1, 1, 2).verts, []) == Labelled(1, 1, 2).verts
  {
    hide Id, Labelled, PutAll;
    var verts := Labelled(1, 2, 3).verts;
    PathDrops(verts);
    PutThree(verts, (Id(1), Id(1)), (Id(2), Id(2)), (Id(3), Id(3)));
    PutThree(verts, (Id(1), Id(1)), (Id(2), Id(1)), (Id(3), Id(2)));
    PutOne(Labelled(1, 1, 2).verts, Id(3), Id(1));
  }

  lemma LabelledShape(a: nat, b: nat, c: nat, a': nat, b': nat, c': nat)
    ensures Labelled(a, b, c).(verts := Labelled(a', b', c').verts) == Labelled(a', b', c')
  {
  }

  lemma InboxParts()
    ensures Waiting(FirstInbox(), Id(1)) == [] && Waiting(FirstInbox(), Id(2)) == [Id(1)]
    ensures Waiting(FirstInbox(), Id(3)) == [Id(2)]
    ensures var inbox: WccInbox := map[Id(3) := [Id(1)]];
            Waiting(inbox, Id(1)) == [] && Waiting(inbox, Id(2)) == [] && Waiting(inbox, Id(3)) == [Id(1)]
  {
    Ids();
    hide Id;
  }

  lemma ThreeParts<T>(a: T, b: T)
    ensures [a] + [b] + [] == [a, b]
    ensures [] + [a] + [] == [a]
    ensures [] + [] + [a] == [a]
    ensures var none: seq<T> := []; none + none + none == none
  {
  }

  /** Superstep 1: every vertex announces its own id. */
  lemma FirstRound()
    ensures Process(WccAlg(), Labelled(1, 2, 3), (), map[], 1)
         == Some(Processed(Labelled(1, 2, 3), (), [(Id(2), Id(1)), (Id(3), Id(2))]))
  {
    Announces(1, 1, [(Id(2), [0])], []);
    Announces(2, 2, [(Id(3), [0])], []);
    Announces(3, 3, [], []);
    ToOne(2, 1);
    ToOne(3, 2);
    ToOne(1, 3);
    PathUpdates();
    LabelledShape(1, 2, 3, 1, 2, 3);
    hide Id, WccCompute, Broadcast, Process, PutAll, Labelled;
    ScanOfThree(Labelled(1, 2, 3), map[], 1, 1, 2, 3,
                (Some(Id(1)), [(Id(2), Id(1))]), (Some(Id(2)), [(Id(3), Id(2))]), (Some(Id(3)), []),
                [(Id(1), Id(1))], [(Id(2), Id(2))], [(Id(3), Id(3))]);
    ThreeParts((Id(2), Id(1)), (Id(3), Id(2)));
  }

  /** Superstep 2 on the labels it was meant for: vertex 2 drops to 1 and passes it on. */
  lemma SecondRound()
    ensures Process(WccAlg(), Labelled(1, 2, 3), (), FirstInbox(), 2)
         == Some(Processed(Labelled(1, 1, 2), (), [(Id(3), Id(1))]))
  {
    AtMostOne(1, 1, [(Id(2), [0])], 2, 1);
    AtMostOne(2, 2, [(Id(3), [0])], 2, 1);
    AtMostOne(3, 3, [], 2, 2);
    ToOne(3, 1);
    ToOne(1, 2);
    PathUpdates();
    LabelledShape(1, 2, 3, 1, 1, 2);
    InboxParts();
    hide Id, WccCompute, Broadcast, Process, PutAll, Labelled, FirstInbox, Waiting;
    ScanOfThree(Labelled(1, 2, 3), FirstInbox(), 2, 1, 2, 3,
                (None, []), (Some(Id(1)), [(Id(3), Id(1))]), (Some(Id(2)), []),
                [], [(Id(2), Id(1))], [(Id(3), Id(2))]);
    ThreeParts((Id(3), Id(1)), (Id(3), Id(1)));
  }

  /** Superstep 3: the label arrives at vertex 3. */
  lemma ThirdRound()
    ensures Process(WccAlg(), Labelled(1, 1, 2), (), map[Id(3) := [Id(1)]], 3)
         == Some(Processed(Labelled(1, 1, 1), (), []))
  {
    AtMostOne(1, 1, [(Id(2), [0])], 3, 1);
    AtMostOne(2, 1, [(Id(3), [0])], 3, 1);
    AtMostOne(3, 2, [], 3, 1);
    ToOne(3, 1);
    PathUpdates();
    LabelledShape(1, 1, 2, 1, 1, 1);
    InboxParts();
    hide Id, WccCompute, Broadcast, Process, PutAll, Labelled, Waiting;
    var none: seq<(Bytes, Bytes)> := [];
    ScanOfThree(Labelled(1, 1, 2), map[Id(3) := [Id(1)]], 3, 1, 1, 2,
                (None, none), (None, none), (Some(Id(1)), none), none, none, [(Id(3), Id(1))]);
    ThreeParts((Id(3), Id(1)), (Id(3), Id(1)));
  }

  /** Superstep 2 replayed on labels that have already taken its messages: nothing happens. */
  lemma ReplayedRound()
    ensures Process(WccAlg(), Labelled(1, 1, 2), (), FirstInbox(), 2)
         == Some(Processed(Labelled(1, 1, 2), (), []))
  {
    AtMostOne(1, 1, [(Id(2), [0])], 2, 1);
    AtMostOne(2, 1, [(Id(3), [0])], 2, 1);
    AtMostOne(3, 2, [], 2, 2);
    PathUpdates();
    LabelledShape(1, 1, 2, 1, 1, 2);
    InboxParts();
    hide Id, WccCompute, Broadcast, Process, PutAll, Labelled, FirstInbox, Waiting;
    var none: seq<(Bytes, Bytes)> := [];
    ScanOfThree(Labelled(1, 1, 2), FirstInbox(), 2, 1, 1, 2,
                (None, none), (None, none), (None, none), none, none, none);
    ThreeParts((Id(3), Id(1)), (Id(3), Id(1)));
  }

  lemma {:induction false} RouteOne(
      hash: Bytes -> nat, outbox: seq<(Bytes, Bytes)>, now: WccInbox, target: Bytes, msg: Bytes)
    requires Route(hash, [map[]], outbox) == [now]
    ensures Route(hash, [map[]], outbox + [(target, msg)]) == [now[target := Waiting(now, target) + [msg]]]
  {
    assert PartitionOfBytes(hash, target, 1) == 0;
    hide PartitionOfBytes;
    assert (outbox + [(target, msg)])[..|outbox|] == outbox;
  }

  lemma {:induction false} RouteTwo(hash: Bytes -> nat)
    ensures Route(hash, [map[]], [(Id(2), Id(1)), (Id(3), Id(2))]) == [FirstInbox()]
    ensures Route(hash, [map[]], [(Id(3), Id(1))]) == [map[Id(3) := [Id(1)]]]
    ensures Route<Bytes, Bytes>(hash, [map[]], []) == [map[]]
  {
    Ids();
    hide Id;
    var none: seq<(Bytes, Bytes)> := [];
    assert Route(hash, [map[]], none) == [map[]];
    hide Route;
    RouteOne(hash, none, map[], Id(2), Id(1));
    RouteOne(hash, none + [(Id(2), Id(1))], map[Id(2) := [] + [Id(1)]], Id(3), Id(2));
    RouteOne(hash, none, map[], Id(3), Id(1));
    assert none + [(Id(2), Id(1))] + [(Id(3), Id(2))] == [(Id(2), Id(1)), (Id(3), Id(2))];
    assert none + [(Id(3), Id(1))] == [(Id(3), Id(1))];
    assert [] + [Id(1)] == [Id(1)] && [] + [Id(2)] == [Id(2)];
  }

  lemma PathRounds(hash: Bytes -> nat, max: nat)
    ensures var job := WccJob(hash, max);
            && Round(job, OneWorker(Labelled(1, 2, 3), map[]), 1)
            == Some((OneWorker(Labelled(1, 2, 3), FirstInbox()), true))
            && Round(job, OneWorker(Labelled(1, 2, 3), FirstInbox()), 2)
            == Some((OneWorker(Labelled(1, 1, 2), map[Id(3) := [Id(1)]]), true))
            && Round(job, OneWorker(Labelled(1, 1, 2), map[Id(3) := [Id(1)]]), 3)
            == Some((OneWorker(Labelled(1, 1, 1), map[]), false))
            && Round(job, OneWorker(Labelled(1, 1, 2), FirstInbox()), 2)
            == Some((OneWorker(Labelled(1, 1, 2), map[]), false))
  {
    hide Process, Route, Round, Labelled, Id, FirstInbox;
    var job := WccJob(hash, max);
    RouteTwo(hash);
    FirstRound();
    SingleRound(job, Labelled(1, 2, 3), map[], 1, Labelled(1, 2, 3), [(Id(2), Id(1)), (Id(3), Id(2))]);
    SecondRound();
    SingleRound(job, Labelled(1, 2, 3), FirstInbox(), 2, Labelled(1, 1, 2), [(Id(3), Id(1))]);
    ThirdRound();
    SingleRound(job, Labelled(1, 1, 2), map[Id(3) := [Id(1)]], 3, Labelled(1, 1, 1), []);
    ReplayedRound();
    SingleRound(job, Labelled(1, 1, 2), FirstInbox(), 2, Labelled(1, 1, 2), []);
  }

  // ---------------------------------------------------------------------------------------
  // The run, its checkpoints and its crashes.

  /** A fresh run on the path, on a disk without snapshots. */
  ghost predicate OnPath(a: Attempt<Bytes, Bytes, Bytes, Bytes, ()>) {
    && a.job == WccJob(a.job.hash, a.job.max) && a.job.max >= 3 && a.spec.On()
    && a.disk.latest == None && NothingAbove(a.disk, 0)
    && a.c0 == OneWorker(Labelled(1, 2, 3), map[])
  }

  /** The uninterrupted run takes three supersteps and labels every vertex 1. */
  lemma PathOutcome(a: Attempt<Bytes, Bytes, Bytes, Bytes, ()>)
    requires OnPath(a)
    ensures a.First() == 1 && a.Outcome() == Some((OneWorker(Labelled(1, 1, 1), map[]), 3))
    ensures CutOf(a, 1) == Some(OneWorker(Labelled(1, 2, 3), FirstInbox()))
  {
    hide Round, Labelled, Id, FirstInbox;
    PathRounds(a.job.hash, a.job.max);
    assert Cut(a.job, a.c0, 1, 0) == Some(a.c0);
    assert ExecuteFrom(a.job, OneWorker(Labelled(1, 1, 2), map[Id(3) := [Id(1)]]), 3)
        == Some((OneWorker(Labelled(1, 1, 1), map[]), 3));
    assert ExecuteFrom(a.job, OneWorker(Labelled(1, 2, 3), FirstInbox()), 2)
        == ExecuteFrom(a.job, OneWorker(Labelled(1, 1, 2), map[Id(3) := [Id(1)]]), 3);
  }

  /** A run on the path takes checkpoint 1, when one is due then: its history has a disk whose latest
      checkpoint is 1 and on which no other has been begun. */
  lemma FirstCheckpointIsTaken(
      a: Attempt<Bytes, Bytes, Bytes, Bytes, ()>, hs: seq<DiskState<Bytes, Bytes, Bytes, Bytes>>)
    requires OnPath(a) && a.spec.DueAt(1) && AllLeftBehind(a, hs) && AllStages(a, hs, 3)
    ensures exists j :: 0 <= j < |hs| && LeftBehind(a, hs[j]) && hs[j].latest == Some(CheckpointMeta(1))
                        && NothingAbove(hs[j], 1)
  {
    hide LeftBehind, Begun, Labelled;
    assert Stages(a.disk, hs, 1, 1);
    var j :| 0 <= j < |hs| && hs[j].latest == Some(CheckpointMeta(1)) && SameAbove(a.disk, hs[j], 1);
    assert LeftBehind(a, hs[j]);
  }

  lemma SavedTakesOver(
      a: Attempt<Bytes, Bytes, Bytes, Bytes, ()>, d: DiskState<Bytes, Bytes, Bytes, Bytes>,
      site: Site<Bytes, Bytes, Bytes, ()>)
    requires OnPath(a) && LeftBehind(a, d) && d.latest == Some(CheckpointMeta(1))
    ensures TakesOver(a, d, [site])
    ensures var b := Successor(a, d, [site]);
            && b.c0 == OneWorker(Labelled(1, 2, 3), FirstInbox()) && b.First() == 2
            && b.Outcome() == Some((OneWorker(Labelled(1, 1, 1), map[]), 3))
  {
    hide Round, Labelled, FirstInbox, Id, LiveStores, Traced, ExecuteFrom;
    PathOutcome(a);
    MovedSurvives(a, d);
    assert site.algo == ();
    hide Cut, CutOf;
    var b := Successor(a, d, [site]);
    assert b.c0.sites == [Site(Labelled(1, 2, 3), ())];
    PathResumes(a.job);
  }

  lemma {:induction false} PathResumes(job: Job<Bytes, Bytes, Bytes, Bytes, ()>)
    requires job == WccJob(job.hash, job.max) && job.max >= 3
    ensures ExecuteFrom(job, OneWorker(Labelled(1, 2, 3), FirstInbox()), 2)
         == Some((OneWorker(Labelled(1, 1, 1), map[]), 3))
    ensures ExecuteFrom(job, OneWorker(Labelled(1, 1, 2), FirstInbox()), 2)
         == Some((OneWorker(Labelled(1, 1, 2), map[]), 2))
  {
    hide Round, Labelled, Id, FirstInbox;
    PathRounds(job.hash, job.max);
    assert ExecuteFrom(job, OneWorker(Labelled(1, 1, 2), map[Id(3) := [Id(1)]]), 3)
        == Some((OneWorker(Labelled(1, 1, 1), map[]), 3));
  }

  /** A run of the scheduler that finds `d` and one fresh worker returns, after superstep
      `executed`, with `end`. */
  ghost predicate ReturnsWith(
      job: Job<Bytes, Bytes, Bytes, Bytes, ()>, spec: CheckpointSpec, d: DiskState<Bytes, Bytes, Bytes, Bytes>,
      site: Site<Bytes, Bytes, Bytes, ()>, end: Cluster<Bytes, Bytes, Bytes, Bytes, ()>, executed: int)
  {
    && SameWorkers(spec, d, 1) && InboxesSaved(spec, d)
    && var next := Attempt(job, spec, d, Beginning(spec, d, [site]));
       next.Outcome() == Some((end, executed)) && Unblocked(spec, d, 1, next.First(), executed)
  }

  lemma OverwrittenReturns(
      a: Attempt<Bytes, Bytes, Bytes, Bytes, ()>, saved: DiskState<Bytes, Bytes, Bytes, Bytes>,
      d: DiskState<Bytes, Bytes, Bytes, Bytes>, site: Site<Bytes, Bytes, Bytes, ()>)
    requires OnPath(a) && LeftBehind(a, saved) && saved.latest == Some(CheckpointMeta(1)) && NothingAbove(saved, 1)
    requires Overwritten(saved, d, 1, [Site(Labelled(1, 1, 2), ())], AllBelow(1))
    ensures ReturnsWith(a.job, a.spec, d, site, OneWorker(Labelled(1, 1, 2), map[]), 2)
  {
    hide Labelled, FirstInbox, Id, LeftBehind, ExecuteFrom;
    SavedTakesOver(a, saved, site);
    assert saved.inboxes[1] == [FirstInbox()];
    hide Survives;
    assert (1, 0) in d.snapshots && d.snapshots[(1, 0)] == Labelled(1, 1, 2);
    assert site.algo == ();
    assert Reopened(d, 1, [site]) == [Site(Labelled(1, 1, 2), ())];
    assert Beginning(a.spec, d, [site]) == OneWorker(Labelled(1, 1, 2), FirstInbox());
    PathResumes(a.job);
    assert NothingAbove(d, 1);
    NothingAboveUnblocks(a.spec, d, 1, 1, 2);
  }

  /** The first recovery from checkpoint 1 gives the right labels. But if it crashes with the labels
      of superstep 2 written, which its history has, the second recovery returns after one silent
      superstep with vertex 3 labelled 2 instead of 1. */
  lemma SecondRecoveryLosesMessages(
      a: Attempt<Bytes, Bytes, Bytes, Bytes, ()>, saved: DiskState<Bytes, Bytes, Bytes, Bytes>,
      site: Site<Bytes, Bytes, Bytes, ()>, hs: seq<DiskState<Bytes, Bytes, Bytes, Bytes>>)
    requires OnPath(a) && LeftBehind(a, saved) && saved.latest == Some(CheckpointMeta(1)) && NothingAbove(saved, 1)
    requires TakesOver(a, saved, [site]) && FirstWritten(Successor(a, saved, [site]), hs)
    ensures ReturnsWith(a.job, a.spec, saved, site, OneWorker(Labelled(1, 1, 1), map[]), 3)
    ensures exists j :: 0 <= j < |hs| && LeftUnmoved(saved, hs[j])
                        && ReturnsWith(a.job, a.spec, hs[j], site, OneWorker(Labelled(1, 1, 2), map[]), 2)
  {
    hide Labelled, FirstInbox, Id, LeftBehind, ExecuteFrom, Round, Survives, Overwritten, Beginning;
    SavedTakesOver(a, saved, site);
    NothingAboveUnblocks(a.spec, saved, 1, 1, 3);
    PathRounds(a.job.hash, a.job.max);
    var sites := [Site(Labelled(1, 1, 2), ())];
    assert Written(saved, hs, 1, sites);
    var j :| 0 <= j < |hs| && Overwritten(saved, hs[j], 1, sites, AllBelow(|sites|));
    OverwrittenReturns(a, saved, hs[j], site);
    OverwrittenAbove(saved, hs[j], 1, sites, AllBelow(1), 1);
  }

  /** The crashed run has not moved `latest`, and the saved inboxes are as they were. */
  ghost predicate LeftUnmoved(
      d: DiskState<Bytes, Bytes, Bytes, Bytes>, d': DiskState<Bytes, Bytes, Bytes, Bytes>)
  {
    d'.latest == d.latest && d'.inboxes == d.inboxes
  }

  /** The disk of a run on the path that crashed between the snapshot of checkpoint 2 and its naming. */
  function BegunDisk(): DiskState<Bytes, Bytes, Bytes, Bytes> {
    DiskState(map[(1, 0) := Labelled(1, 2, 3), (2, 0) := Labelled(1, 1, 2)], map[1 := [FirstInbox()]],
              map[1 := CheckpointMeta(1)], Some(CheckpointMeta(1)))
  }

  lemma BegunDiskIsLeftBehind(a: Attempt<Bytes, Bytes, Bytes, Bytes, ()>)
    requires OnPath(a) && a.spec.intervalIters == 1
    ensures LeftBehind(a, BegunDisk())
  {
    hide Labelled, FirstInbox, Id, ExecuteFrom, Cut, CutOf;
    PathOutcome(a);
    var d := BegunDisk();
    assert HoldsCut(a, d, 1);
    assert Traced(a, d);
  }

  /** A recovery from it has no failing superstep and would end with the right labels; yet the
      scheduler does not return, because the directory of checkpoint 2 is in the way. */
  lemma BegunCheckpointBlocks(a: Attempt<Bytes, Bytes, Bytes, Bytes, ()>, site: Site<Bytes, Bytes, Bytes, ()>)
    requires OnPath(a) && a.spec.intervalIters == 1
    ensures LeftBehind(a, BegunDisk()) && TakesOver(a, BegunDisk(), [site])
    ensures var b := Successor(a, BegunDisk(), [site]);
            && b.Outcome() == Some((OneWorker(Labelled(1, 1, 1), map[]), 3))
            && !Unblocked(a.spec, BegunDisk(), 1, b.First(), 3)
  {
    hide Labelled, FirstInbox, Id, ExecuteFrom, LeftBehind, Survives, Beginning;
    BegunDiskIsLeftBehind(a);
    var d := BegunDisk();
    SavedTakesOver(a, d, site);
    assert (2, 0) in d.snapshots;
    assert Begun(d, 2, 1);
    assert Blocked(a.spec, d, 1, 2);
  }
}
