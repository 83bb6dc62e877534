/** The distributed superstep protocol as a step system.

    One driver and n workers, a FIFO channel each way per worker, and no assumption on who moves
    when: the driver may still be sending to one worker while another computes and a third streams
    its outbox back. The invariants are proved in ProtocolInvariant.
 */
module Protocol {
  import opened Options
  import opened Bsp
  import opened Batching
  import opened Shuffle
  import opened WorkerCore
  import opened Rounds

  /** A worker with its two channels; `sending` holds the replies it has computed and is still
      writing out. A worker that failed is `dead` and has closed its connection. */
  datatype Link<K(==), V, E, M, S> = Link(
    worker: WorkerState<K, V, E, M, S>,
    dead: bool,
    inbound: seq<ToWorker<K, M>>,
    sending: seq<ToDriver<K, M>>,
    outbound: seq<ToDriver<K, M>>)

  datatype Driver<K(==), M> =
    | AtLoop(inboxes: seq<Inbox<K, M>>, silent: bool)
    | Sending(to: nat, sent: nat)
    | Receiving(from: nat, got: nat, next: seq<Inbox<K, M>>, anyMessage: bool)
    | Finished(executed: int, result: seq<Inbox<K, M>>)
    | Failed

  /** `plan` is what the current round sends to each worker. `start` and `works` are history
      variables: the cluster as it was when the round began, and what each worker makes of it. */
  datatype System<K(==), V, E, M, S> = System(
    links: seq<Link<K, V, E, M, S>>,
    iteration: nat,
    driver: Driver<K, M>,
    plan: seq<seq<Chunk<(K, seq<M>)>>>,
    start: Cluster<K, V, E, M, S>,
    works: seq<Option<Processed<K, V, E, M, S>>>)

  datatype Step<K, M> =
    | BeginRound(chunks: seq<seq<Chunk<(K, seq<M>)>>>)
    | EndJob
    | DriverSends
    | DriverReceives
    | DriverSeesClosed
    | WorkerReceives(i: nat)
    | WorkerSends(i: nat)

  /** `chunks` is some drain of the inbox, split into batches. */
  ghost predicate SplitsInbox<K, M>(chunks: seq<Chunk<(K, seq<M>)>>, inbox: Inbox<K, M>) {
    Drains(Joined(chunks), inbox) && chunks == Chunks(Joined(chunks))
  }

  ghost predicate IsPlan<K, M>(plan: seq<seq<Chunk<(K, seq<M>)>>>, inboxes: seq<Inbox<K, M>>) {
    && |plan| == |inboxes|
    && (forall j :: 0 <= j < |plan| ==> SplitsInbox(plan[j], inboxes[j]))
  }

  function SiteOf<K, V, E, M, S>(link: Link<K, V, E, M, S>): Site<K, V, E, S> {
    Site(link.worker.store, link.worker.algo)
  }

  ghost function SitesOf<K, V, E, M, S>(links: seq<Link<K, V, E, M, S>>): seq<Site<K, V, E, S>> {
    seq(|links|, i requires 0 <= i < |links| => SiteOf(links[i]))
  }

  ghost function WorksOf<K, V, E, M, S>(
      alg: Alg<K, V, E, M, S>, c: Cluster<K, V, E, M, S>, it: nat): seq<Option<Processed<K, V, E, M, S>>>
    requires ValidCluster(c)
  {
    seq(|c.sites|, i requires 0 <= i < |c.sites| => Work(alg, c, it, i))
  }

  ghost predicate Enabled<K, V, E, M, S>(job: Job<K, V, E, M, S>, sys: System<K, V, E, M, S>, step: Step<K, M>) {
    match step
    case BeginRound(chunks) =>
      && sys.driver.AtLoop? && !sys.driver.silent && sys.iteration <= job.max
      && |sys.driver.inboxes| == |sys.links| >= 1
      && IsPlan(chunks, sys.driver.inboxes)
    case EndJob => sys.driver.AtLoop? && (sys.driver.silent || sys.iteration > job.max)
    case DriverSends =>
      && sys.driver.Sending?
      && sys.driver.to < |sys.links| == |sys.plan|
      && sys.driver.sent < |sys.plan[sys.driver.to]|
    case DriverReceives =>
      && sys.driver.Receiving?
      && sys.driver.from < |sys.links| == |sys.driver.next|
      && sys.links[sys.driver.from].outbound != []
    case DriverSeesClosed =>
      && sys.driver.Receiving?
      && sys.driver.from < |sys.links|
      && sys.links[sys.driver.from].dead
      && sys.links[sys.driver.from].outbound == []
    case WorkerReceives(i) =>
      && i < |sys.links|
      && !sys.links[i].dead && sys.links[i].sending == [] && sys.links[i].inbound != []
    case WorkerSends(i) => i < |sys.links| && sys.links[i].sending != []
  }

  ghost function LinkReceives<K, V, E, M, S>(alg: Alg<K, V, E, M, S>, link: Link<K, V, E, M, S>): Link<K, V, E, M, S>
    requires link.inbound != []
  {
    var rest := link.(inbound := link.inbound[1..]);
    match Handle(alg, link.worker, link.inbound[0])
    case None => rest.(dead := true)
    case Some((worker, replies)) => rest.(worker := worker, sending := link.sending + replies)
  }

  ghost function LinkSends<K, V, E, M, S>(link: Link<K, V, E, M, S>): Link<K, V, E, M, S>
    requires link.sending != []
  {
    link.(sending := link.sending[1..], outbound := link.outbound + [link.sending[0]])
  }

  function DriverWrites<K, V, E, M, S>(
      link: Link<K, V, E, M, S>, it: nat, chunk: Chunk<(K, seq<M>)>): Link<K, V, E, M, S>
  {
    link.(inbound := link.inbound + [SuperstepBatch(it, chunk)])
  }

  function DriverReads<K, V, E, M, S>(link: Link<K, V, E, M, S>): Link<K, V, E, M, S>
    requires link.outbound != []
  {
    link.(outbound := link.outbound[1..])
  }

  /** After a batch was sent: the rest of this worker's batches, then the next worker, and once
      everything is sent, collecting the results. */
  ghost function AfterSend<K, M>(plan: seq<seq<Chunk<(K, seq<M>)>>>, to: nat, sent: nat): Driver<K, M>
    requires to < |plan|
  {
    if sent + 1 < |plan[to]| then
      Sending(to, sent + 1)
    else if to + 1 < |plan| then
      Sending(to + 1, 0)
    else
      Receiving(0, 0, EmptyInboxes(|plan|), false)
  }

  /** After a result batch was routed: more from this worker, then the next worker, and after the
      last worker's last batch the head of the driver's loop. */
  ghost function AfterReceive<K, M>(
      n: nat, from: nat, got: nat, next: seq<Inbox<K, M>>, anyMessage: bool, last: bool): Driver<K, M>
  {
    if !last then
      Receiving(from, got + 1, next, anyMessage)
    else if from + 1 < n then
      Receiving(from + 1, 0, next, anyMessage)
    else
      AtLoop(next, !anyMessage)
  }

  ghost function DriverRoutes<K, V, E, M, S>(hash: K -> nat, sys: System<K, V, E, M, S>): Driver<K, M>
    requires sys.driver.Receiving?
    requires sys.driver.from < |sys.links| == |sys.driver.next|
    requires sys.links[sys.driver.from].outbound != []
  {
    var batch := sys.links[sys.driver.from].outbound[0].batch;
    AfterReceive(
      |sys.links|, sys.driver.from, sys.driver.got,
      Route(hash, sys.driver.next, batch.items),
      sys.driver.anyMessage || batch.items != [],
      batch.last)
  }

  ghost function Fire<K, V, E, M, S>(
      job: Job<K, V, E, M, S>, sys: System<K, V, E, M, S>, step: Step<K, M>): System<K, V, E, M, S>
    requires Enabled(job, sys, step)
  {
    match step
    case BeginRound(chunks) =>
      var c := Cluster(SitesOf(sys.links), sys.driver.inboxes);
      sys.(driver := Sending(0, 0), plan := chunks, start := c, works := WorksOf(job.alg, c, sys.iteration))
    case EndJob =>
      sys.(driver := Finished(sys.iteration - 1, sys.driver.inboxes))
    case DriverSends =>
      var to, sent := sys.driver.to, sys.driver.sent;
      sys.(links := sys.links[to := DriverWrites(sys.links[to], sys.iteration, sys.plan[to][sent])],
           driver := AfterSend(sys.plan, to, sent))
    case DriverReceives =>
      var from := sys.driver.from;
      var after := DriverRoutes(job.hash, sys);
      sys.(links := sys.links[from := DriverReads(sys.links[from])],
           driver := after,
           iteration := if after.AtLoop? then sys.iteration + 1 else sys.iteration)
    case DriverSeesClosed =>
      sys.(driver := Failed)
    case WorkerReceives(i) =>
      sys.(links := sys.links[i := LinkReceives(job.alg, sys.links[i])])
    case WorkerSends(i) =>
      sys.(links := sys.links[i := LinkSends(sys.links[i])])
  }

  /** Between supersteps: a worker that waits, with nothing in its channels. */
  ghost predicate Idle<K, V, E, M, S>(link: Link<K, V, E, M, S>) {
    && !link.dead
    && link.inbound == [] && link.sending == [] && link.outbound == []
    && link.worker.pendingIteration == None && link.worker.pendingInbox == map[]
  }

  ghost predicate AllIdle<K, V, E, M, S>(links: seq<Link<K, V, E, M, S>>) {
    forall j :: 0 <= j < |links| ==> Idle(links[j])
  }

  ghost function ClusterOf<K, V, E, M, S>(
      links: seq<Link<K, V, E, M, S>>, inboxes: seq<Inbox<K, M>>): Cluster<K, V, E, M, S>
  {
    Cluster(SitesOf(links), inboxes)
  }

  /** A job about to execute superstep `it` on cluster `c`. */
  ghost predicate Initial<K, V, E, M, S>(sys: System<K, V, E, M, S>, c: Cluster<K, V, E, M, S>, it: nat) {
    && ValidCluster(c)
    && sys.iteration == it
    && sys.driver == AtLoop(c.inboxes, false)
    && AllIdle(sys.links)
    && SitesOf(sys.links) == c.sites
  }

  /** `schedule` leads from `sys` to `end`, each step being enabled when it is taken. */
  ghost predicate Leads<K, V, E, M, S>(
      job: Job<K, V, E, M, S>, sys: System<K, V, E, M, S>, schedule: seq<Step<K, M>>, end: System<K, V, E, M, S>)
    decreases |schedule|
  {
    if schedule == [] then
      sys == end
    else
      Enabled(job, sys, schedule[0]) && Leads(job, Fire(job, sys, schedule[0]), schedule[1..], end)
  }
}
