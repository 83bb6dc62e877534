/** What a superstep of the whole cluster amounts to when nothing is left in any channel.

    Between supersteps a cluster is the workers' stores and algorithm states plus one inbox per
    worker. These functions are deterministic: they leave no room for a schedule.
 */
module Rounds {
  import opened Options
  import opened Bsp
  import opened Shuffle
  import opened WorkerCore

  datatype Site<K(==), V, E, S> = Site(store: Store<K, V, E>, algo: S)

  datatype Cluster<K(==), V, E, M, S> = Cluster(sites: seq<Site<K, V, E, S>>, inboxes: seq<Inbox<K, M>>)

  /** The job as the driver sees it. */
  datatype Job<!K, !V, !E, !M, !S> = Job(alg: Alg<K, V, E, M, S>, hash: K -> nat, max: nat)

  /** At least one worker, and one inbox each. */
  ghost predicate ValidCluster<K, V, E, M, S>(c: Cluster<K, V, E, M, S>) {
    |c.sites| == |c.inboxes| >= 1
  }

  ghost function Work<K, V, E, M, S>(
      alg: Alg<K, V, E, M, S>, c: Cluster<K, V, E, M, S>, it: nat, i: nat): Option<Processed<K, V, E, M, S>>
    requires ValidCluster(c) && i < |c.sites|
  {
    Process(alg, c.sites[i].store, c.sites[i].algo, c.inboxes[i], it)
  }

  ghost function Outbox<K, V, E, M, S>(
      alg: Alg<K, V, E, M, S>, c: Cluster<K, V, E, M, S>, it: nat, i: nat): seq<(K, M)>
    requires ValidCluster(c) && i < |c.sites|
  {
    var r := Work(alg, c, it, i);
    if r.Some? then r.value.outbox else []
  }

  /** Everything the first `i` workers send, in worker order. */
  ghost function Stream<K, V, E, M, S>(
      alg: Alg<K, V, E, M, S>, c: Cluster<K, V, E, M, S>, it: nat, i: nat): seq<(K, M)>
    requires ValidCluster(c) && i <= |c.sites|
  {
    if i == 0 then [] else Stream(alg, c, it, i - 1) + Outbox(alg, c, it, i - 1)
  }

  ghost predicate Succeeds<K, V, E, M, S>(alg: Alg<K, V, E, M, S>, c: Cluster<K, V, E, M, S>, it: nat)
    requires ValidCluster(c)
  {
    forall i :: 0 <= i < |c.sites| ==> Work(alg, c, it, i).Some?
  }

  ghost function NewSites<K, V, E, M, S>(
      alg: Alg<K, V, E, M, S>, c: Cluster<K, V, E, M, S>, it: nat): seq<Site<K, V, E, S>>
    requires ValidCluster(c) && Succeeds(alg, c, it)
  {
    seq(|c.sites|, i requires 0 <= i < |c.sites| =>
      var r := Work(alg, c, it, i).value;
      Site(r.store, r.algo))
  }

  ghost function NextInboxes<K, V, E, M, S>(
      job: Job<K, V, E, M, S>, c: Cluster<K, V, E, M, S>, it: nat): seq<Inbox<K, M>>
    requires ValidCluster(c)
  {
    Route(job.hash, EmptyInboxes(|c.sites|), Stream(job.alg, c, it, |c.sites|))
  }

  /** A superstep of the cluster, and whether any message was sent; None when a worker failed. */
  ghost function Round<K, V, E, M, S>(
      job: Job<K, V, E, M, S>, c: Cluster<K, V, E, M, S>, it: nat): Option<(Cluster<K, V, E, M, S>, bool)>
    requires ValidCluster(c)
  {
    if Succeeds(job.alg, c, it) then
      Some((Cluster(NewSites(job.alg, c, it), NextInboxes(job, c, it)),
            Stream(job.alg, c, it, |c.sites|) != []))
    else
      None
  }

  /** The driver's loop from superstep `it`; None when some superstep fails. */
  ghost function ExecuteFrom<K, V, E, M, S>(
      job: Job<K, V, E, M, S>, c: Cluster<K, V, E, M, S>, it: nat): Option<(Cluster<K, V, E, M, S>, int)>
    requires ValidCluster(c)
    decreases job.max + 1 - it
  {
    if it > job.max then
      Some((c, it - 1))
    else
      match Round(job, c, it)
      case None => None
      case Some((next, anyMessage)) =>
        if anyMessage then ExecuteFrom(job, next, it + 1) else Some((next, it))
  }

  /** The cluster after superstep `k` of a run that begins with superstep `it0` on `c0`. */
  ghost function Cut<K, V, E, M, S>(
      job: Job<K, V, E, M, S>, c0: Cluster<K, V, E, M, S>, it0: nat, k: nat): (r: Option<Cluster<K, V, E, M, S>>)
    requires ValidCluster(c0) && it0 >= 1
    ensures r.Some? ==> ValidCluster(r.value) && |r.value.sites| == |c0.sites|
  {
    if k < it0 then
      Some(c0)
    else
      match Cut(job, c0, it0, k - 1)
      case None => None
      case Some(c) =>
        match Round(job, c, k)
        case None => None
        case Some(r) => Some(r.0)
  }

  lemma {:induction false} CutNext<K, V, E, M, S>(
      job: Job<K, V, E, M, S>, c0: Cluster<K, V, E, M, S>, it0: nat, it: nat, c: Cluster<K, V, E, M, S>)
    requires ValidCluster(c0) && 1 <= it0 <= it && Cut(job, c0, it0, it - 1) == Some(c)
    ensures Round(job, c, it).Some? ==> Cut(job, c0, it0, it) == Some(Round(job, c, it).value.0)
    ensures Cut(job, c0, it0, it0 - 1) == Some(c0)
  {
    hide Round;
  }
}
