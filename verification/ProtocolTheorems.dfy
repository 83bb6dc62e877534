/** What the superstep protocol guarantees over whole executions.

    Whatever the schedule: the outcome is the one Rounds.ExecuteFrom computes, no worker runs ahead
    of the others, the system never gets stuck, and it cannot go on for ever.
 */
module ProtocolTheorems {
  import opened Options
  import opened Bsp
  import opened Batching
  import opened Shuffle
  import opened WorkerCore
  import opened Rounds
  import opened Protocol
  import opened ProtocolInvariant

  // ---------------------------------------------------------------------------------------
  // Outcome.

  /** The job that started at superstep `it0` on `c0` is at its cut before superstep `it`, and will end
      as it would from here. */
  ghost predicate OnTrack<K, V, E, M, S>(
      job: Job<K, V, E, M, S>, c0: Cluster<K, V, E, M, S>, it0: nat,
      c: Cluster<K, V, E, M, S>, it: nat, silent: bool)
    requires ValidCluster(c0)
  {
    && ValidCluster(c)
    && (it0 >= 1 ==> it0 <= it && Cut(job, c0, it0, it - 1) == Some(c))
    && (silent ==> ExecuteFrom(job, c0, it0) == Some((c, it - 1)))
    && (!silent ==> ExecuteFrom(job, c0, it0) == ExecuteFrom(job, c, it))
  }

  ghost predicate Track<K, V, E, M, S>(
      job: Job<K, V, E, M, S>, c0: Cluster<K, V, E, M, S>, it0: nat, sys: System<K, V, E, M, S>)
    requires ValidCluster(c0)
  {
    match sys.driver
    case AtLoop(inboxes, silent) => OnTrack(job, c0, it0, ClusterOf(sys.links, inboxes), sys.iteration, silent)
    case Sending(_, _) => sys.iteration <= job.max && OnTrack(job, c0, it0, sys.start, sys.iteration, false)
    case Receiving(_, _, _, _) => sys.iteration <= job.max && OnTrack(job, c0, it0, sys.start, sys.iteration, false)
    case Finished(executed, inboxes) =>
      ExecuteFrom(job, c0, it0) == Some((ClusterOf(sys.links, inboxes), executed))
    case Failed => ExecuteFrom(job, c0, it0) == None
  }

  ghost predicate Inv<K, V, E, M, S>(
      job: Job<K, V, E, M, S>, c0: Cluster<K, V, E, M, S>, it0: nat, sys: System<K, V, E, M, S>)
  {
    ValidCluster(c0) && Mechanics(job, sys) && Track(job, c0, it0, sys)
  }

  /** Where the job stands after a round that took `c` to `next`. */
  lemma RoundAdvances<K, V, E, M, S>(
      job: Job<K, V, E, M, S>, c0: Cluster<K, V, E, M, S>, it0: nat,
      c: Cluster<K, V, E, M, S>, it: nat, next: Cluster<K, V, E, M, S>, anyMessage: bool)
    requires ValidCluster(c0) && OnTrack(job, c0, it0, c, it, false) && it <= job.max
    requires Round(job, c, it) == Some((next, anyMessage))
    ensures OnTrack(job, c0, it0, next, it + 1, !anyMessage)
  {
    assert ValidCluster(next);
    hide Round, Cut;
    if it0 >= 1 {
      CutNext(job, c0, it0, it, c);
    }
  }

  lemma StepKeepsTrack<K, V, E, M, S>(
      job: Job<K, V, E, M, S>, c0: Cluster<K, V, E, M, S>, it0: nat, sys: System<K, V, E, M, S>, step: Step<K, M>)
    requires Inv(job, c0, it0, sys) && Enabled(job, sys, step)
    ensures Track(job, c0, it0, Fire(job, sys, step))
  {
    hide InRound, Collecting, Round, Handle, SplitsInbox, Route, Cut;
    match step
    case DriverReceives =>
      hide ExecuteFrom;
      if DriverRoutes(job.hash, sys).AtLoop? {
        RoundEnds(job, sys);
        var next := Fire(job, sys, step);
        RoundAdvances(job, c0, it0, sys.start, sys.iteration,
                      ClusterOf(next.links, next.driver.inboxes), !next.driver.silent);
      }
    case DriverSeesClosed => ClosedMeansFailed(job, sys);
    case WorkerReceives(i) => RestingWorkers(job, sys, i);
    case WorkerSends(i) => RestingWorkers(job, sys, i);
    case _ =>
  }

  /** Outside a round there is nothing for a worker to receive or to send. */
  lemma RestingWorkers<K, V, E, M, S>(job: Job<K, V, E, M, S>, sys: System<K, V, E, M, S>, i: nat)
    requires Mechanics(job, sys)
    ensures (sys.driver.AtLoop? || sys.driver.Finished?) && i < |sys.links| ==> Idle(sys.links[i])
  {
  }

  lemma StepKeepsInv<K, V, E, M, S>(
      job: Job<K, V, E, M, S>, c0: Cluster<K, V, E, M, S>, it0: nat, sys: System<K, V, E, M, S>, step: Step<K, M>)
    requires Inv(job, c0, it0, sys) && Enabled(job, sys, step)
    ensures Inv(job, c0, it0, Fire(job, sys, step))
  {
    hide Mechanics, Track, Fire, Enabled;
    StepKeepsMechanics(job, sys, step);
    StepKeepsTrack(job, c0, it0, sys, step);
  }

  lemma {:induction false} ReachableInv<K, V, E, M, S>(
      job: Job<K, V, E, M, S>, c0: Cluster<K, V, E, M, S>, it0: nat,
      sys: System<K, V, E, M, S>, schedule: seq<Step<K, M>>, end: System<K, V, E, M, S>)
    requires Inv(job, c0, it0, sys) && Leads(job, sys, schedule, end)
    ensures Inv(job, c0, it0, end)
    decreases |schedule|
  {
    hide Inv, Fire, Enabled;
    if schedule != [] {
      StepKeepsInv(job, c0, it0, sys, schedule[0]);
      ReachableInv(job, c0, it0, Fire(job, sys, schedule[0]), schedule[1..], end);
    }
  }

  lemma InitialInv<K, V, E, M, S>(
      job: Job<K, V, E, M, S>, c0: Cluster<K, V, E, M, S>, it0: nat, sys: System<K, V, E, M, S>)
    requires Initial(sys, c0, it0)
    ensures Inv(job, c0, it0, sys)
  {
    assert |SitesOf(sys.links)| == |sys.links|;
  }

  /** Every schedule gives the same result: a finished job leaves the stores, algorithm states,
      inboxes and count of ExecuteFrom with all channels empty, and a job fails only if that does. */
  lemma {:induction false} EveryScheduleAgrees<K, V, E, M, S>(
      job: Job<K, V, E, M, S>, c0: Cluster<K, V, E, M, S>, it0: nat,
      sys: System<K, V, E, M, S>, schedule: seq<Step<K, M>>, end: System<K, V, E, M, S>)
    requires Initial(sys, c0, it0) && Leads(job, sys, schedule, end)
    ensures end.driver.Finished? ==>
              && ExecuteFrom(job, c0, it0) == Some((ClusterOf(end.links, end.driver.result), end.driver.executed))
              && AllIdle(end.links)
    ensures end.driver.Failed? ==> ExecuteFrom(job, c0, it0) == None
  {
    hide ExecuteFrom;
    InitialInv(job, c0, it0, sys);
    ReachableInv(job, c0, it0, sys, schedule, end);
  }

  // ---------------------------------------------------------------------------------------
  // Barrier and channel discipline.

  /** Every message in the channels of a link belongs to superstep `it`. */
  ghost predicate OnlyCarries<K, V, E, M, S>(link: Link<K, V, E, M, S>, it: nat) {
    && (forall x :: 0 <= x < |link.inbound| ==> link.inbound[x].iteration == it)
    && (forall x :: 0 <= x < |link.sending| ==> link.sending[x].iteration == it)
    && (forall x :: 0 <= x < |link.outbound| ==> link.outbound[x].iteration == it)
  }

  /** The worker is still where superstep `it` found it, or has processed exactly that superstep. */
  ghost predicate InStep<K, V, E, M, S>(
      alg: Alg<K, V, E, M, S>, link: Link<K, V, E, M, S>, c: Cluster<K, V, E, M, S>, it: nat, j: nat)
    requires ValidCluster(c) && j < |c.sites|
  {
    || SiteOf(link) == c.sites[j]
    || (var r := Work(alg, c, it, j); r.Some? && SiteOf(link) == Site(r.value.store, r.value.algo))
    || link.dead
  }

  lemma LinkDiscipline<K, V, E, M, S>(
      it: nat, site: Site<K, V, E, S>, inbox: Inbox<K, M>, work: Option<Processed<K, V, E, M, S>>,
      chunks: seq<Chunk<(K, seq<M>)>>, link: Link<K, V, E, M, S>, sent: nat, got: nat)
    requires LinkOk(it, site, inbox, work, chunks, link, sent, got)
    ensures OnlyCarries(link, it)
    ensures || SiteOf(link) == site
            || (work.Some? && SiteOf(link) == Site(work.value.store, work.value.algo))
            || link.dead
  {
    var all := link.outbound + link.sending;
    assert forall x :: 0 <= x < |link.outbound| ==> link.outbound[x] == all[x];
    assert forall x :: 0 <= x < |link.sending| ==> link.sending[x] == all[|link.outbound| + x];
  }

  /** No worker runs ahead: in a round every channel carries that superstep only, and every worker
      has processed it at most once, starting from the cut of the job after the previous superstep.
      Between rounds every channel is empty. */
  lemma {:induction false} Barrier<K, V, E, M, S>(
      job: Job<K, V, E, M, S>, c0: Cluster<K, V, E, M, S>, it0: nat,
      sys: System<K, V, E, M, S>, schedule: seq<Step<K, M>>, end: System<K, V, E, M, S>)
    requires Initial(sys, c0, it0) && Leads(job, sys, schedule, end)
    ensures end.driver.AtLoop? || end.driver.Finished? ==> AllIdle(end.links)
    ensures end.driver.Sending? || end.driver.Receiving? ==>
              && ValidCluster(end.start) && |end.start.sites| == |end.links|
              && ExecuteFrom(job, c0, it0) == ExecuteFrom(job, end.start, end.iteration)
              && (it0 >= 1 ==> it0 <= end.iteration && Cut(job, c0, it0, end.iteration - 1) == Some(end.start))
              && (forall j :: 0 <= j < |end.links| ==>
                    && OnlyCarries(end.links[j], end.iteration)
                    && InStep(job.alg, end.links[j], end.start, end.iteration, j))
  {
    hide *;
    InitialInv(job, c0, it0, sys);
    ReachableInv(job, c0, it0, sys, schedule, end);
    RoundStands(job, c0, it0, end);
    if end.driver.Sending? || end.driver.Receiving? {
      forall j: nat | j < |end.links|
        ensures OnlyCarries(end.links[j], end.iteration)
        ensures InStep(job.alg, end.links[j], end.start, end.iteration, j)
      {
        LinkInRound(job, end, j);
      }
    }
  }

  lemma {:induction false} RoundStands<K, V, E, M, S>(
      job: Job<K, V, E, M, S>, c0: Cluster<K, V, E, M, S>, it0: nat, sys: System<K, V, E, M, S>)
    requires Inv(job, c0, it0, sys)
    ensures ValidCluster(c0) && Mechanics(job, sys)
    ensures sys.driver.AtLoop? || sys.driver.Finished? ==> AllIdle(sys.links)
    ensures sys.driver.Sending? || sys.driver.Receiving? ==>
              && ValidCluster(sys.start) && |sys.start.sites| == |sys.links|
              && ExecuteFrom(job, c0, it0) == ExecuteFrom(job, sys.start, sys.iteration)
              && (it0 >= 1 ==> it0 <= sys.iteration && Cut(job, c0, it0, sys.iteration - 1) == Some(sys.start))
  {
    hide ExecuteFrom, Cut, Collecting, LinkOk, Process;
  }

  lemma LinkInRound<K, V, E, M, S>(job: Job<K, V, E, M, S>, sys: System<K, V, E, M, S>, j: nat)
    requires Mechanics(job, sys) && (sys.driver.Sending? || sys.driver.Receiving?) && j < |sys.links|
    ensures ValidCluster(sys.start) && |sys.start.sites| == |sys.links|
    ensures OnlyCarries(sys.links[j], sys.iteration)
    ensures InStep(job.alg, sys.links[j], sys.start, sys.iteration, j)
  {
    hide LinkOk, Collecting, Process, OnlyCarries;
    assert LinkAt(sys, j, sys.links[j], SentBy(sys, j), GotFrom(sys, j));
    LinkDiscipline(sys.iteration, sys.start.sites[j], sys.start.inboxes[j], sys.works[j],
                   sys.plan[j], sys.links[j], SentBy(sys, j), GotFrom(sys, j));
    assert sys.works[j] == Work(job.alg, sys.start, sys.iteration, j);
  }

  // ---------------------------------------------------------------------------------------
  // Progress.

  ghost predicate Over<K, V, E, M, S>(sys: System<K, V, E, M, S>) {
    sys.driver.Finished? || sys.driver.Failed?
  }

  lemma {:induction false} InboxDrains<K, M>(inbox: Inbox<K, M>) returns (entries: seq<(K, seq<M>)>)
    ensures Drains(entries, inbox)
    decreases |inbox|
  {
    entries := [];
    if inbox != map[] {
      var k :| k in inbox;
      var front := InboxDrains(inbox - {k});
      entries := front + [(k, inbox[k])];
      DrainsOneMore(front, inbox, k);
    }
  }

  lemma DrainsOneMore<K, M>(front: seq<(K, seq<M>)>, inbox: Inbox<K, M>, k: K)
    requires k in inbox && Drains(front, inbox - {k})
    ensures Drains(front + [(k, inbox[k])], inbox)
  {
    var entries := front + [(k, inbox[k])];
    forall x | x in inbox
      ensures exists i :: 0 <= i < |entries| && entries[i].0 == x
    {
      if x == k {
        assert entries[|front|].0 == x;
      } else {
        assert x in inbox - {k};
        var i :| 0 <= i < |front| && front[i].0 == x;
        assert entries[i].0 == x;
      }
    }
  }

  lemma {:induction false} PlanExists<K, M>(inboxes: seq<Inbox<K, M>>)
    returns (plan: seq<seq<Chunk<(K, seq<M>)>>>)
    ensures IsPlan(plan, inboxes)
  {
    plan := [];
    if inboxes != [] {
      var front := PlanExists(inboxes[..|inboxes| - 1]);
      var entries := InboxDrains(inboxes[|inboxes| - 1]);
      ChunksRoundTrip(entries);
      plan := front + [Chunks(entries)];
    }
  }

  /** The worker the driver is waiting for can move, unless its next reply is already there. */
  lemma AwaitedWorkerMoves<K, V, E, M, S>(
      it: nat, site: Site<K, V, E, S>, inbox: Inbox<K, M>, work: Option<Processed<K, V, E, M, S>>,
      chunks: seq<Chunk<(K, seq<M>)>>, link: Link<K, V, E, M, S>, got: nat)
    requires LinkOk(it, site, inbox, work, chunks, link, |chunks|, got)
    requires got < |Chunks(OutboxOf(work))|
    ensures || link.outbound != []
            || link.dead
            || link.sending != []
            || link.inbound != []
  {
    assert |link.outbound + link.sending| == |link.outbound| + |link.sending|;
  }

  /** Until the job is over, somebody can move. */
  lemma NeverStuck<K, V, E, M, S>(
      job: Job<K, V, E, M, S>, c0: Cluster<K, V, E, M, S>, it0: nat,
      sys: System<K, V, E, M, S>, schedule: seq<Step<K, M>>, end: System<K, V, E, M, S>)
    returns (step: Step<K, M>)
    requires Initial(sys, c0, it0) && Leads(job, sys, schedule, end)
    requires !Over(end)
    ensures Enabled(job, end, step)
  {
    InitialInv(job, c0, it0, sys);
    ReachableInv(job, c0, it0, sys, schedule, end);
    step := SomeStep(job, end);
  }

  lemma SomeStep<K, V, E, M, S>(job: Job<K, V, E, M, S>, sys: System<K, V, E, M, S>) returns (step: Step<K, M>)
    requires Mechanics(job, sys) && !Over(sys)
    ensures Enabled(job, sys, step)
  {
    hide LinkOk, WorksOf, Heard, Route, Chunks, IsPlan;
    match sys.driver
    case AtLoop(inboxes, silent) =>
      if silent || sys.iteration > job.max {
        step := EndJob;
      } else {
        var plan := PlanExists(inboxes);
        step := BeginRound(plan);
      }
    case Sending(_, _) => step := DriverSends;
    case Receiving(from, got, _, _) =>
      var link := sys.links[from];
      assert LinkAt(sys, from, link, SentBy(sys, from), GotFrom(sys, from));
      AwaitedWorkerMoves(sys.iteration, sys.start.sites[from], sys.start.inboxes[from], sys.works[from],
                         sys.plan[from], link, got);
      if link.outbound != [] {
        step := DriverReceives;
      } else if link.dead {
        step := DriverSeesClosed;
      } else if link.sending != [] {
        step := WorkerSends(from);
      } else {
        step := WorkerReceives(from);
      }
  }

  // ---------------------------------------------------------------------------------------
  // Termination.

  ghost function Total(sizes: seq<nat>): nat {
    if sizes == [] then 0 else Total(sizes[..|sizes| - 1]) + sizes[|sizes| - 1]
  }

  lemma {:induction false} TotalUpdate(sizes: seq<nat>, i: nat, x: nat)
    requires i < |sizes|
    ensures Total(sizes[i := x]) + sizes[i] == Total(sizes) + x
  {
    var front := sizes[..|sizes| - 1];
    if i == |sizes| - 1 {
      assert sizes[i := x][..i] == front;
    } else {
      TotalUpdate(front, i, x);
      assert sizes[i := x][..|sizes| - 1] == front[i := x];
    }
  }

  ghost function Unread<K, V, E, M, S>(links: seq<Link<K, V, E, M, S>>): nat {
    Total(seq(|links|, i requires 0 <= i < |links| => |links[i].inbound|))
  }

  ghost function Unsent<K, V, E, M, S>(links: seq<Link<K, V, E, M, S>>): nat {
    Total(seq(|links|, i requires 0 <= i < |links| => |links[i].sending|))
  }

  ghost function Unheard<K, V, E, M, S>(links: seq<Link<K, V, E, M, S>>): nat {
    Total(seq(|links|, i requires 0 <= i < |links| => |links[i].outbound|))
  }

  lemma LinkUpdate<K, V, E, M, S>(links: seq<Link<K, V, E, M, S>>, i: nat, link: Link<K, V, E, M, S>)
    requires i < |links|
    ensures Unread(links[i := link]) + |links[i].inbound| == Unread(links) + |link.inbound|
    ensures Unsent(links[i := link]) + |links[i].sending| == Unsent(links) + |link.sending|
    ensures Unheard(links[i := link]) + |links[i].outbound| == Unheard(links) + |link.outbound|
  {
    var a := seq(|links|, i requires 0 <= i < |links| => |links[i].inbound|);
    var b := seq(|links|, i requires 0 <= i < |links| => |links[i].sending|);
    var c := seq(|links|, i requires 0 <= i < |links| => |links[i].outbound|);
    var next := links[i := link];
    TotalUpdate(a, i, |link.inbound|);
    TotalUpdate(b, i, |link.sending|);
    TotalUpdate(c, i, |link.outbound|);
    assert seq(|next|, i requires 0 <= i < |next| => |next[i].inbound|) == a[i := |link.inbound|];
    assert seq(|next|, i requires 0 <= i < |next| => |next[i].sending|) == b[i := |link.sending|];
    assert seq(|next|, i requires 0 <= i < |next| => |next[i].outbound|) == c[i := |link.outbound|];
  }

  /** How much is left to do, most significant first: rounds, batches the driver has to send,
      batches in the workers' channels, replies to send, replies to read. */
  datatype Rank = Rank(rounds: nat, workersToServe: nat, batchesToSend: nat, unread: nat, unsent: nat, unheard: nat)

  ghost function RankOf<K, V, E, M, S>(job: Job<K, V, E, M, S>, sys: System<K, V, E, M, S>): Rank {
    var left := if sys.iteration <= job.max then job.max + 1 - sys.iteration else 0;
    var rounds := match sys.driver
                  case AtLoop(_, silent) => if silent then 1 else 1 + 2 * left
                  case Finished(_, _) => 0
                  case Failed => 0
                  case _ => 2 * left;
    var (toServe, toSend) :=
      if sys.driver.Sending? && sys.driver.to < |sys.plan| && sys.driver.sent < |sys.plan[sys.driver.to]|
      then (|sys.plan| - sys.driver.to, |sys.plan[sys.driver.to]| - sys.driver.sent)
      else (0, 0);
    Rank(rounds, toServe, toSend, Unread(sys.links), Unsent(sys.links), Unheard(sys.links))
  }

  ghost predicate Below(a: Rank, b: Rank) {
    || a.rounds < b.rounds
    || (a.rounds == b.rounds &&
        (|| a.workersToServe < b.workersToServe
         || (a.workersToServe == b.workersToServe &&
             (|| a.batchesToSend < b.batchesToSend
              || (a.batchesToSend == b.batchesToSend &&
                  (|| a.unread < b.unread
                   || (a.unread == b.unread &&
                       (|| a.unsent < b.unsent
                        || (a.unsent == b.unsent && a.unheard < b.unheard)))))))))
  }

  /** Every step strictly lowers a rank in a well-founded order, so no execution is infinite. */
  lemma EveryStepCounts<K, V, E, M, S>(
      job: Job<K, V, E, M, S>, c0: Cluster<K, V, E, M, S>, it0: nat, sys: System<K, V, E, M, S>, step: Step<K, M>)
    requires Inv(job, c0, it0, sys) && Enabled(job, sys, step)
    requires !Over(sys)
    ensures Below(RankOf(job, Fire(job, sys, step)), RankOf(job, sys))
  {
    hide OnTrack, InRound, Collecting, Round, Handle, SplitsInbox, Unread, Unsent, Unheard, Idle, Route;
    var next := Fire(job, sys, step);
    match step
    case DriverReceives =>
      LinkUpdate(sys.links, sys.driver.from, DriverReads(sys.links[sys.driver.from]));
    case WorkerReceives(i) =>
      RestingWorkers(job, sys, i);
      LinkUpdate(sys.links, i, LinkReceives(job.alg, sys.links[i]));
    case WorkerSends(i) =>
      RestingWorkers(job, sys, i);
      LinkUpdate(sys.links, i, LinkSends(sys.links[i]));
    case _ =>
  }

  /** From every reachable state the job can be, and under every fair or unfair choice will be,
      brought to its end. */
  lemma {:induction false} JobsEnd<K, V, E, M, S>(
      job: Job<K, V, E, M, S>, c0: Cluster<K, V, E, M, S>, it0: nat, sys: System<K, V, E, M, S>)
    returns (schedule: seq<Step<K, M>>, end: System<K, V, E, M, S>)
    requires Inv(job, c0, it0, sys)
    ensures Leads(job, sys, schedule, end) && Over(end)
    decreases RankOf(job, sys).rounds, RankOf(job, sys).workersToServe, RankOf(job, sys).batchesToSend,
              RankOf(job, sys).unread, RankOf(job, sys).unsent, RankOf(job, sys).unheard
  {
    hide RankOf, Fire, Enabled, Mechanics, Track;
    if Over(sys) {
      schedule, end := [], sys;
    } else {
      var step := SomeStep(job, sys);
      StepKeepsInv(job, c0, it0, sys, step);
      EveryStepCounts(job, c0, it0, sys, step);
      var rest;
      rest, end := JobsEnd(job, c0, it0, Fire(job, sys, step));
      schedule := [step] + rest;
      assert schedule[1..] == rest;
    }
  }
}
