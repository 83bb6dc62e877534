/** The invariant of the superstep protocol, link by link and for the driver.

    In the middle of a round every worker is either still gathering the batches of its inbox or has
    computed the superstep exactly once, and everything it replied is accounted for: read by the
    driver, in its channel, or about to be sent.
 */
module ProtocolInvariant {
  import opened Options
  import opened Bsp
  import opened Batching
  import opened Shuffle
  import opened WorkerCore
  import opened Rounds
  import opened Protocol

  // ---------------------------------------------------------------------------------------
  // One link at a time.

  /** The worker has absorbed the first `taken` batches of its inbox and not computed yet. */
  ghost predicate Gathering<K, V, E, M, S>(
      it: nat, site: Site<K, V, E, S>, chunks: seq<Chunk<(K, seq<M>)>>, link: Link<K, V, E, M, S>, taken: nat)
    requires taken <= |chunks|
  {
    && !link.dead && link.sending == [] && link.outbound == []
    && SiteOf(link) == site
    && link.worker.pendingIteration == (if taken == 0 then None else Some(it))
    && link.worker.pendingInbox == Merge(map[], Joined(chunks[..taken]))
  }

  function OutboxOf<K, V, E, M, S>(work: Option<Processed<K, V, E, M, S>>): seq<(K, M)> {
    if work.Some? then work.value.outbox else []
  }

  /** The worker has computed this superstep and `got` of its replies were read. */
  ghost predicate Computed<K, V, E, M, S>(
      it: nat, work: Option<Processed<K, V, E, M, S>>, link: Link<K, V, E, M, S>, got: nat)
  {
    match work
    case None => link.dead && link.sending == [] && link.outbound == [] && got == 0
    case Some(r) =>
      && !link.dead
      && link.worker == WorkerState(r.store, r.algo, None, map[])
      && got <= |Chunks(r.outbox)|
      && link.outbound + link.sending == Replies(it, Chunks(r.outbox)[got..])
  }

  /** A link in the middle of a round in which the driver has sent it `sent` batches. */
  ghost predicate LinkOk<K, V, E, M, S>(
      it: nat, site: Site<K, V, E, S>, inbox: Inbox<K, M>, work: Option<Processed<K, V, E, M, S>>,
      chunks: seq<Chunk<(K, seq<M>)>>, link: Link<K, V, E, M, S>, sent: nat, got: nat)
  {
    && SplitsInbox(chunks, inbox)
    && |link.inbound| <= sent <= |chunks|
    && link.inbound == Requests(it, chunks[sent - |link.inbound|..sent])
    && (if sent - |link.inbound| < |chunks|
        then got == 0 && Gathering(it, site, chunks, link, sent - |link.inbound|)
        else Computed(it, work, link, got))
  }

  lemma JoinedPrefix<T>(chunks: seq<Chunk<T>>, i: nat)
    requires i < |chunks|
    ensures Joined(chunks[..i + 1]) == Joined(chunks[..i]) + chunks[i].items
  {
    assert chunks[..i + 1][..i] == chunks[..i];
  }

  lemma AbsorbsNext<K, V, E, M, S>(
      it: nat, chunks: seq<Chunk<(K, seq<M>)>>, w: WorkerState<K, V, E, M, S>, taken: nat)
    requires taken < |chunks|
    requires w.pendingIteration == (if taken == 0 then None else Some(it))
    requires w.pendingInbox == Merge(map[], Joined(chunks[..taken]))
    ensures Absorbed(w, SuperstepBatch(it, chunks[taken])) == Merge(map[], Joined(chunks[..taken + 1]))
  {
    JoinedPrefix(chunks, taken);
    MergeConcat(map[], Joined(chunks[..taken]), chunks[taken].items);
  }

  /** The last batch completes the inbox that the driver drained. */
  lemma LastBatchCompletes<K, M>(chunks: seq<Chunk<(K, seq<M>)>>, inbox: Inbox<K, M>, i: nat)
    requires SplitsInbox(chunks, inbox) && i < |chunks|
    ensures chunks[i].last <==> i + 1 == |chunks|
    ensures i + 1 == |chunks| ==> Merge(map[], Joined(chunks[..i + 1])) == inbox
  {
    ChunksRoundTrip(Joined(chunks));
    if i + 1 == |chunks| {
      assert chunks[..i + 1] == chunks;
      MergeDrained(Joined(chunks), inbox);
    }
  }

  /** A worker that absorbs a batch stays on course; with the last one it holds exactly the inbox
      the driver drained, and computes. */
  lemma LinkReceivesOk<K, V, E, M, S>(
      alg: Alg<K, V, E, M, S>, it: nat, site: Site<K, V, E, S>, inbox: Inbox<K, M>,
      work: Option<Processed<K, V, E, M, S>>,
      chunks: seq<Chunk<(K, seq<M>)>>, link: Link<K, V, E, M, S>, sent: nat, got: nat)
    requires work == Process(alg, site.store, site.algo, inbox, it)
    requires LinkOk(it, site, inbox, work, chunks, link, sent, got)
    requires link.inbound != []
    ensures LinkOk(it, site, inbox, work, chunks, LinkReceives(alg, link), sent, got)
  {
    hide Process, Merge, Joined, Chunks, SplitsInbox, Absorbed;
    var taken := sent - |link.inbound|;
    assert link.inbound[0] == SuperstepBatch(it, chunks[taken]);
    assert link.inbound[1..] == Requests(it, chunks[taken + 1..sent]);
    AbsorbsNext(it, chunks, link.worker, taken);
    LastBatchCompletes(chunks, inbox, taken);
    if taken + 1 == |chunks| && work.Some? {
      assert Chunks(work.value.outbox)[0..] == Chunks(work.value.outbox);
    }
  }

  lemma LinkSendsOk<K, V, E, M, S>(
      it: nat, site: Site<K, V, E, S>, inbox: Inbox<K, M>, work: Option<Processed<K, V, E, M, S>>,
      chunks: seq<Chunk<(K, seq<M>)>>, link: Link<K, V, E, M, S>, sent: nat, got: nat)
    requires LinkOk(it, site, inbox, work, chunks, link, sent, got)
    requires link.sending != []
    ensures LinkOk(it, site, inbox, work, chunks, LinkSends(link), sent, got)
  {
    var next := LinkSends(link);
    assert next.outbound + next.sending == link.outbound + link.sending;
  }

  lemma DriverWritesOk<K, V, E, M, S>(
      it: nat, site: Site<K, V, E, S>, inbox: Inbox<K, M>, work: Option<Processed<K, V, E, M, S>>,
      chunks: seq<Chunk<(K, seq<M>)>>, link: Link<K, V, E, M, S>, sent: nat)
    requires LinkOk(it, site, inbox, work, chunks, link, sent, 0)
    requires sent < |chunks|
    ensures LinkOk(it, site, inbox, work, chunks, DriverWrites(link, it, chunks[sent]), sent + 1, 0)
  {
  }

  /** What the driver finds in a channel is the next reply of a worker that has computed. */
  lemma DriverReadsOk<K, V, E, M, S>(
      it: nat, site: Site<K, V, E, S>, inbox: Inbox<K, M>, work: Option<Processed<K, V, E, M, S>>,
      chunks: seq<Chunk<(K, seq<M>)>>, link: Link<K, V, E, M, S>, sent: nat, got: nat)
    requires LinkOk(it, site, inbox, work, chunks, link, sent, got)
    requires link.outbound != []
    ensures work.Some? && got < |Chunks(work.value.outbox)|
    ensures link.outbound[0] == SuperstepResultBatch(it, Chunks(work.value.outbox)[got])
    ensures LinkOk(it, site, inbox, work, chunks, DriverReads(link), sent, got + 1)
  {
    var r := work.value;
    var all := link.outbound + link.sending;
    assert all[0] == link.outbound[0];
    assert all[1..] == link.outbound[1..] + link.sending;
    assert Replies(it, Chunks(r.outbox)[got..])[1..] == Replies(it, Chunks(r.outbox)[got + 1..]);
  }

  /** At the start of a round. */
  lemma IdleLinkOk<K, V, E, M, S>(
      it: nat, inbox: Inbox<K, M>, work: Option<Processed<K, V, E, M, S>>,
      chunks: seq<Chunk<(K, seq<M>)>>, link: Link<K, V, E, M, S>)
    requires Idle(link) && SplitsInbox(chunks, inbox)
    ensures |chunks| >= 1
    ensures LinkOk(it, SiteOf(link), inbox, work, chunks, link, 0, 0)
  {
    assert chunks[..0] == [];
  }

  /** A worker whose last reply was read is back where it waits for the next superstep. */
  lemma LinkDone<K, V, E, M, S>(
      it: nat, site: Site<K, V, E, S>, inbox: Inbox<K, M>, work: Option<Processed<K, V, E, M, S>>,
      chunks: seq<Chunk<(K, seq<M>)>>, link: Link<K, V, E, M, S>)
    requires work.Some?
    requires LinkOk(it, site, inbox, work, chunks, link, |chunks|, |Chunks(work.value.outbox)|)
    ensures Idle(link)
    ensures SiteOf(link) == Site(work.value.store, work.value.algo)
  {
    assert |link.outbound + link.sending| == 0;
  }

  // ---------------------------------------------------------------------------------------
  // What the driver has heard.

  ghost function StreamOf<K, V, E, M, S>(works: seq<Option<Processed<K, V, E, M, S>>>, i: nat): seq<(K, M)>
    requires i <= |works|
  {
    if i == 0 then [] else StreamOf(works, i - 1) + OutboxOf(works[i - 1])
  }

  /** The outboxes of the workers before `from`, and `got` batches of `from`. */
  ghost function Heard<K, V, E, M, S>(works: seq<Option<Processed<K, V, E, M, S>>>, from: nat, got: nat): seq<(K, M)>
    requires from < |works| && got <= |Chunks(OutboxOf(works[from]))|
  {
    StreamOf(works, from) + Joined(Chunks(OutboxOf(works[from]))[..got])
  }

  /** The driver's state while it collects: everything read so far is routed, nothing else. */
  ghost predicate Collecting<K, V, E, M, S>(
      hash: K -> nat, works: seq<Option<Processed<K, V, E, M, S>>>, from: nat, got: nat,
      next: seq<Inbox<K, M>>, anyMessage: bool)
  {
    && from < |works| == |next|
    && got < |Chunks(OutboxOf(works[from]))|
    && (forall j :: 0 <= j < from ==> works[j].Some?)
    && next == Route(hash, EmptyInboxes(|works|), Heard(works, from, got))
    && (anyMessage <==> Heard(works, from, got) != [])
  }

  lemma HeardMore<K, V, E, M, S>(works: seq<Option<Processed<K, V, E, M, S>>>, from: nat, got: nat)
    requires from < |works| && got < |Chunks(OutboxOf(works[from]))|
    ensures Heard(works, from, got + 1) == Heard(works, from, got) + Chunks(OutboxOf(works[from]))[got].items
  {
    JoinedPrefix(Chunks(OutboxOf(works[from])), got);
  }

  lemma {:induction false} HeardAll<K, V, E, M, S>(works: seq<Option<Processed<K, V, E, M, S>>>, from: nat)
    requires from < |works|
    ensures Heard(works, from, |Chunks(OutboxOf(works[from]))|) == StreamOf(works, from + 1)
    ensures from + 1 < |works| ==> Heard(works, from + 1, 0) == StreamOf(works, from + 1)
  {
    var chunks := Chunks(OutboxOf(works[from]));
    assert chunks[..|chunks|] == chunks;
    ChunksRoundTrip(OutboxOf(works[from]));
  }

  /** Reading one more batch. */
  lemma {:induction false} DriverHears<K, V, E, M, S>(
      hash: K -> nat, works: seq<Option<Processed<K, V, E, M, S>>>, from: nat, got: nat,
      next: seq<Inbox<K, M>>, anyMessage: bool, batch: Chunk<(K, M)>)
    requires Collecting(hash, works, from, got, next, anyMessage) && works[from].Some?
    requires batch == Chunks(OutboxOf(works[from]))[got]
    ensures var boxes, any := Route(hash, next, batch.items), anyMessage || batch.items != [];
            && |boxes| == |works|
            && (!batch.last ==> Collecting(hash, works, from, got + 1, boxes, any))
            && (batch.last ==>
                  && got + 1 == |Chunks(OutboxOf(works[from]))|
                  && boxes == Route(hash, EmptyInboxes(|works|), StreamOf(works, from + 1))
                  && (any <==> StreamOf(works, from + 1) != [])
                  && (from + 1 < |works| ==> Collecting(hash, works, from + 1, 0, boxes, any)))
  {
    hide Heard, StreamOf, Route, Chunks, Joined;
    HeardMore(works, from, got);
    HeardAll(works, from);
    ChunksRoundTrip(OutboxOf(works[from]));
    RouteConcat(hash, EmptyInboxes(|works|), Heard(works, from, got), batch.items);
  }

  lemma CollectingBegins<K, V, E, M, S>(hash: K -> nat, works: seq<Option<Processed<K, V, E, M, S>>>)
    requires |works| >= 1
    ensures Collecting(hash, works, 0, 0, EmptyInboxes(|works|), false)
  {
    assert Heard(works, 0, 0) == [];
  }

  // ---------------------------------------------------------------------------------------
  // The whole system.

  ghost function SentBy<K, V, E, M, S>(sys: System<K, V, E, M, S>, j: nat): nat
    requires j < |sys.plan|
  {
    match sys.driver
    case Sending(to, sent) => if j < to then |sys.plan[j]| else if j == to then sent else 0
    case _ => |sys.plan[j]|
  }

  ghost function GotFrom<K, V, E, M, S>(sys: System<K, V, E, M, S>, j: nat): nat
    requires j < |sys.works|
  {
    match sys.driver
    case Receiving(from, got, _, _) =>
      if j < from then |Chunks(OutboxOf(sys.works[j]))| else if j == from then got else 0
    case _ => 0
  }

  ghost predicate LinkAt<K, V, E, M, S>(
      sys: System<K, V, E, M, S>, j: nat, link: Link<K, V, E, M, S>, sent: nat, got: nat)
    requires j < |sys.start.sites| == |sys.start.inboxes| == |sys.plan| == |sys.works|
  {
    LinkOk(sys.iteration, sys.start.sites[j], sys.start.inboxes[j], sys.works[j], sys.plan[j], link, sent, got)
  }

  ghost predicate RoundShape<K, V, E, M, S>(sys: System<K, V, E, M, S>) {
    |sys.links| == |sys.start.sites| == |sys.start.inboxes| == |sys.plan| == |sys.works| >= 1
  }

  ghost predicate InRound<K, V, E, M, S>(alg: Alg<K, V, E, M, S>, sys: System<K, V, E, M, S>) {
    && RoundShape(sys)
    && sys.works == WorksOf(alg, sys.start, sys.iteration)
    && (forall j :: 0 <= j < |sys.links| ==> LinkAt(sys, j, sys.links[j], SentBy(sys, j), GotFrom(sys, j)))
  }

  /** The mechanics of the protocol, whatever the job has computed so far. */
  ghost predicate Mechanics<K, V, E, M, S>(job: Job<K, V, E, M, S>, sys: System<K, V, E, M, S>) {
    match sys.driver
    case AtLoop(inboxes, _) => AllIdle(sys.links) && |inboxes| == |sys.links| >= 1
    case Finished(_, inboxes) => AllIdle(sys.links) && |inboxes| == |sys.links| >= 1
    case Sending(to, sent) =>
      InRound(job.alg, sys) && to < |sys.plan| && sent < |sys.plan[to]|
    case Receiving(from, got, next, anyMessage) =>
      InRound(job.alg, sys) && Collecting(job.hash, sys.works, from, got, next, anyMessage)
    case Failed => true
  }

  lemma BeginRoundKeeps<K, V, E, M, S>(
      job: Job<K, V, E, M, S>, sys: System<K, V, E, M, S>, chunks: seq<seq<Chunk<(K, seq<M>)>>>)
    requires Mechanics(job, sys) && Enabled(job, sys, BeginRound(chunks))
    ensures Mechanics(job, Fire(job, sys, BeginRound(chunks)))
  {
    hide Work, LinkOk, SplitsInbox, Idle, Chunks;
    var next := Fire(job, sys, BeginRound(chunks));
    forall j | 0 <= j < |next.links|
      ensures LinkAt(next, j, next.links[j], 0, 0)
      ensures |next.plan[j]| >= 1
    {
      IdleLinkOk(sys.iteration, sys.driver.inboxes[j], next.works[j], chunks[j], sys.links[j]);
    }
  }

  /** A move of worker `i` concerns no other link, and the driver not at all. */
  lemma OneLinkMoves<K, V, E, M, S>(
      job: Job<K, V, E, M, S>, sys: System<K, V, E, M, S>, i: nat, link: Link<K, V, E, M, S>)
    requires Mechanics(job, sys) && (sys.driver.Sending? || sys.driver.Receiving?)
    requires i < |sys.links|
    requires LinkAt(sys, i, link, SentBy(sys, i), GotFrom(sys, i))
    ensures Mechanics(job, sys.(links := sys.links[i := link]))
  {
    hide LinkOk, WorksOf, Chunks, Collecting;
    var next := sys.(links := sys.links[i := link]);
    forall j | 0 <= j < |next.links|
      ensures LinkAt(next, j, next.links[j], SentBy(next, j), GotFrom(next, j))
    {
      assert j != i ==> LinkAt(sys, j, sys.links[j], SentBy(sys, j), GotFrom(sys, j));
    }
  }

  lemma WorkerStepKeeps<K, V, E, M, S>(
      job: Job<K, V, E, M, S>, sys: System<K, V, E, M, S>, i: nat, step: Step<K, M>)
    requires step == WorkerReceives(i) || step == WorkerSends(i)
    requires Mechanics(job, sys) && Enabled(job, sys, step)
    ensures Mechanics(job, Fire(job, sys, step))
  {
    hide LinkOk, Chunks, Collecting, Process, Handle;
    if sys.driver.Sending? || sys.driver.Receiving? {
      var it, site, inbox := sys.iteration, sys.start.sites[i], sys.start.inboxes[i];
      var sent, got := SentBy(sys, i), GotFrom(sys, i);
      assert LinkAt(sys, i, sys.links[i], sent, got);
      if step.WorkerReceives? {
        assert sys.works[i] == Work(job.alg, sys.start, it, i);
        LinkReceivesOk(job.alg, it, site, inbox, sys.works[i], sys.plan[i], sys.links[i], sent, got);
        OneLinkMoves(job, sys, i, LinkReceives(job.alg, sys.links[i]));
      } else {
        LinkSendsOk(it, site, inbox, sys.works[i], sys.plan[i], sys.links[i], sent, got);
        OneLinkMoves(job, sys, i, LinkSends(sys.links[i]));
      }
    }
  }

  lemma DriverSendsKeeps<K, V, E, M, S>(job: Job<K, V, E, M, S>, sys: System<K, V, E, M, S>)
    requires Mechanics(job, sys) && sys.driver.Sending?
    ensures Mechanics(job, Fire(job, sys, DriverSends))
  {
    hide LinkOk, WorksOf, Chunks, Collecting;
    var next := Fire(job, sys, DriverSends);
    var to, sent := sys.driver.to, sys.driver.sent;
    forall j | 0 <= j < |next.links|
      ensures LinkAt(next, j, next.links[j], SentBy(next, j), 0)
      ensures |next.plan[j]| >= 1
    {
      assert LinkAt(sys, j, sys.links[j], SentBy(sys, j), 0);
      PlansAreNotEmpty(sys, j, SentBy(sys, j));
      if j == to {
        DriverWritesOk(sys.iteration, sys.start.sites[to], sys.start.inboxes[to], sys.works[to],
                       sys.plan[to], sys.links[to], sent);
      }
    }
    CollectingBegins(job.hash, sys.works);
  }

  lemma PlansAreNotEmpty<K, V, E, M, S>(sys: System<K, V, E, M, S>, j: nat, sent: nat)
    requires RoundShape(sys) && j < |sys.links|
    requires LinkAt(sys, j, sys.links[j], sent, 0)
    ensures |sys.plan[j]| >= 1
  {
  }

  /** The driver's read, seen from the link and from what was heard. */
  lemma DriverReadsBatch<K, V, E, M, S>(job: Job<K, V, E, M, S>, sys: System<K, V, E, M, S>)
    requires Mechanics(job, sys) && Enabled(job, sys, DriverReceives)
    ensures var from, got := sys.driver.from, sys.driver.got;
            && sys.works[from].Some?
            && got < |Chunks(OutboxOf(sys.works[from]))|
            && sys.links[from].outbound[0] ==
                 SuperstepResultBatch(sys.iteration, Chunks(OutboxOf(sys.works[from]))[got])
            && LinkAt(sys, from, DriverReads(sys.links[from]), |sys.plan[from]|, got + 1)
  {
    hide WorksOf, Heard;
    var from, got := sys.driver.from, sys.driver.got;
    assert LinkAt(sys, from, sys.links[from], SentBy(sys, from), GotFrom(sys, from));
    DriverReadsOk(sys.iteration, sys.start.sites[from], sys.start.inboxes[from], sys.works[from],
                  sys.plan[from], sys.links[from], |sys.plan[from]|, got);
  }

  /** All links after the read: those before `from` are read out, `from` by one more batch. */
  lemma LinksAfterRead<K, V, E, M, S>(job: Job<K, V, E, M, S>, sys: System<K, V, E, M, S>, j: nat)
    requires Mechanics(job, sys) && Enabled(job, sys, DriverReceives)
    requires j < |sys.links|
    ensures var from, got := sys.driver.from, sys.driver.got;
            var link := if j == from then DriverReads(sys.links[j]) else sys.links[j];
            LinkAt(sys, j, link, |sys.plan[j]|,
                   if j < from then |Chunks(OutboxOf(sys.works[j]))| else if j == from then got + 1 else 0)
  {
    DriverReadsBatch(job, sys);
    hide WorksOf, Collecting, LinkOk, Chunks;
    assert LinkAt(sys, j, sys.links[j], SentBy(sys, j), GotFrom(sys, j));
  }

  lemma DriverReadsOnKeeps<K, V, E, M, S>(job: Job<K, V, E, M, S>, sys: System<K, V, E, M, S>)
    requires Mechanics(job, sys) && Enabled(job, sys, DriverReceives)
    requires !DriverRoutes(job.hash, sys).AtLoop?
    ensures Mechanics(job, Fire(job, sys, DriverReceives))
  {
    hide WorksOf, LinkOk, Heard, Route, Chunks;
    var next := Fire(job, sys, DriverReceives);
    DriverReadsBatch(job, sys);
    DriverHears(job.hash, sys.works, sys.driver.from, sys.driver.got, sys.driver.next,
                sys.driver.anyMessage, sys.links[sys.driver.from].outbound[0].batch);
    hide Collecting;
    forall j | 0 <= j < |next.links|
      ensures LinkAt(next, j, next.links[j], SentBy(next, j), GotFrom(next, j))
    {
      LinksAfterRead(job, sys, j);
    }
  }

  /** The worker's side of the end of a round. */
  lemma LinkAtRoundEnd<K, V, E, M, S>(job: Job<K, V, E, M, S>, sys: System<K, V, E, M, S>, j: nat)
    requires Mechanics(job, sys) && Enabled(job, sys, DriverReceives)
    requires DriverRoutes(job.hash, sys).AtLoop?
    requires j < |sys.links|
    ensures var link := Fire(job, sys, DriverReceives).links[j];
            && Idle(link)
            && sys.works[j].Some?
            && SiteOf(link) == Site(sys.works[j].value.store, sys.works[j].value.algo)
  {
    hide Heard, Route, LinkOk, WorksOf;
    var next := Fire(job, sys, DriverReceives);
    var from := sys.driver.from;
    DriverReadsBatch(job, sys);
    DriverHears(job.hash, sys.works, from, sys.driver.got, sys.driver.next,
                sys.driver.anyMessage, sys.links[from].outbound[0].batch);
    hide Chunks;
    LinksAfterRead(job, sys, j);
    LinkDone(sys.iteration, sys.start.sites[j], sys.start.inboxes[j], sys.works[j], sys.plan[j], next.links[j]);
  }

  /** The driver's side of the end of a round. */
  lemma DriverAtRoundEnd<K, V, E, M, S>(job: Job<K, V, E, M, S>, sys: System<K, V, E, M, S>)
    requires Mechanics(job, sys) && Enabled(job, sys, DriverReceives)
    requires DriverRoutes(job.hash, sys).AtLoop?
    ensures var after := DriverRoutes(job.hash, sys);
            && after.inboxes == NextInboxes(job, sys.start, sys.iteration)
            && (after.silent <==> Stream(job.alg, sys.start, sys.iteration, |sys.links|) == [])
  {
    hide Heard, Route, LinkOk, WorksOf, Chunks;
    DriverReadsBatch(job, sys);
    DriverHears(job.hash, sys.works, sys.driver.from, sys.driver.got, sys.driver.next,
                sys.driver.anyMessage, sys.links[sys.driver.from].outbound[0].batch);
    StreamsAgree(job.alg, sys.start, sys.iteration, sys.works, |sys.works|);
  }

  /** When the last batch of the last worker was read, every channel is empty and the cluster has
      moved by exactly one superstep. */
  lemma RoundEnds<K, V, E, M, S>(job: Job<K, V, E, M, S>, sys: System<K, V, E, M, S>)
    requires Mechanics(job, sys) && Enabled(job, sys, DriverReceives)
    requires DriverRoutes(job.hash, sys).AtLoop?
    ensures var next := Fire(job, sys, DriverReceives);
            && Mechanics(job, next)
            && ValidCluster(sys.start)
            && Round(job, sys.start, sys.iteration)
               == Some((ClusterOf(next.links, next.driver.inboxes), !next.driver.silent))
  {
    hide Collecting, Route, LinkOk, Process, Stream, Chunks;
    var next := Fire(job, sys, DriverReceives);
    var c, it := sys.start, sys.iteration;
    DriverAtRoundEnd(job, sys);
    forall j | 0 <= j < |next.links|
      ensures Idle(next.links[j])
      ensures Work(job.alg, c, it, j).Some?
      ensures var r := Work(job.alg, c, it, j).value; SiteOf(next.links[j]) == Site(r.store, r.algo)
    {
      LinkAtRoundEnd(job, sys, j);
      assert sys.works[j] == Work(job.alg, c, it, j);
    }
    assert SitesOf(next.links) == NewSites(job.alg, c, it);
  }

  lemma {:induction false} StreamsAgree<K, V, E, M, S>(
      alg: Alg<K, V, E, M, S>, c: Cluster<K, V, E, M, S>, it: nat,
      works: seq<Option<Processed<K, V, E, M, S>>>, i: nat)
    requires ValidCluster(c) && works == WorksOf(alg, c, it) && i <= |works|
    ensures StreamOf(works, i) == Stream(alg, c, it, i)
  {
    hide Process;
    if i > 0 {
      StreamsAgree(alg, c, it, works, i - 1);
    }
  }

  /** A closed connection means that some worker failed, and so the round has no outcome. */
  lemma ClosedMeansFailed<K, V, E, M, S>(job: Job<K, V, E, M, S>, sys: System<K, V, E, M, S>)
    requires Mechanics(job, sys) && Enabled(job, sys, DriverSeesClosed)
    ensures ValidCluster(sys.start)
    ensures Round(job, sys.start, sys.iteration) == None
  {
    hide Collecting, Process;
    var from := sys.driver.from;
    assert LinkAt(sys, from, sys.links[from], SentBy(sys, from), GotFrom(sys, from));
    assert Work(job.alg, sys.start, sys.iteration, from) == sys.works[from];
  }

  /** Every step of every party keeps the mechanics of the protocol. */
  lemma StepKeepsMechanics<K, V, E, M, S>(job: Job<K, V, E, M, S>, sys: System<K, V, E, M, S>, step: Step<K, M>)
    requires Mechanics(job, sys) && Enabled(job, sys, step)
    ensures Mechanics(job, Fire(job, sys, step))
  {
    hide InRound, Collecting, DriverRoutes;
    match step
    case BeginRound(chunks) => BeginRoundKeeps(job, sys, chunks);
    case EndJob =>
    case DriverSends => DriverSendsKeeps(job, sys);
    case DriverReceives =>
      if DriverRoutes(job.hash, sys).AtLoop? {
        RoundEnds(job, sys);
      } else {
        DriverReadsOnKeeps(job, sys);
      }
    case DriverSeesClosed =>
    case WorkerReceives(i) => WorkerStepKeeps(job, sys, i, step);
    case WorkerSends(i) => WorkerStepKeeps(job, sys, i, step);
  }
}
