/** Message routing: which worker owns a vertex, and how outboxes become inboxes. */
module Shuffle {
  import opened Selection

  /** The messages waiting for the vertices of one worker. */
  type Inbox<K(==), M> = map<K, seq<M>>

  function Waiting<K, M>(inbox: Inbox<K, M>, k: K): seq<M> {
    if k in inbox then inbox[k] else []
  }

  /** The driver's partitioner, used for loading. */
  function PartitionOf<K>(hash: K -> nat, id: K, partitions: nat): (p: nat)
    requires partitions > 0
    ensures p < partitions
  {
    hash(id) % partitions
  }

  /** The shuffle's partitioner, used for routing. */
  function PartitionOfBytes<K>(hash: K -> nat, id: K, partitions: nat): (p: nat)
    ensures partitions > 0 ==> p < partitions
  {
    hash(id) % (if partitions > 1 then partitions else 1)
  }

  /** Both partitioners find the worker that the hash leaves when the number of workers is taken out of
      it as often as it goes: a message is routed to where its vertex was loaded. */
  lemma OwnerIsResidue<K>(hash: K -> nat, id: K, n: nat)
    requires n > 0
    ensures exists q: nat :: hash(id) == q * n + PartitionOf(hash, id, n)
    ensures PartitionOf(hash, id, n) == PartitionOfBytes(hash, id, n) < n
  {
    assert hash(id) == (hash(id) / n) * n + hash(id) % n;
  }

  function Deliver<K, M>(hash: K -> nat, boxes: seq<Inbox<K, M>>, target: K, msg: M): (r: seq<Inbox<K, M>>)
    requires |boxes| > 0
    ensures |r| == |boxes|
  {
    var p := PartitionOfBytes(hash, target, |boxes|);
    boxes[p := boxes[p][target := Waiting(boxes[p], target) + [msg]]]
  }

  function Route<K, M>(hash: K -> nat, boxes: seq<Inbox<K, M>>, outbox: seq<(K, M)>): (r: seq<Inbox<K, M>>)
    requires |boxes| > 0
    ensures |r| == |boxes|
  {
    if outbox == [] then
      boxes
    else
      var (target, msg) := outbox[|outbox| - 1];
      Deliver(hash, Route(hash, boxes, outbox[..|outbox| - 1]), target, msg)
  }

  function EmptyInboxes<K, M>(n: nat): seq<Inbox<K, M>> {
    seq(n, _ => map[])
  }

  /** The messages a stream of sends holds for `k`, in order of sending. */
  function SentTo<K(==), M>(stream: seq<(K, M)>, k: K): seq<M> {
    if stream == [] then
      []
    else
      SentTo(stream[..|stream| - 1], k) +
      (if stream[|stream| - 1].0 == k then [stream[|stream| - 1].1] else [])
  }

  lemma {:induction false} RouteConcat<K, M>(hash: K -> nat, boxes: seq<Inbox<K, M>>, a: seq<(K, M)>, b: seq<(K, M)>)
    requires |boxes| > 0
    ensures Route(hash, boxes, a + b) == Route(hash, Route(hash, boxes, a), b)
  {
    if b == [] {
      assert a + b == a;
    } else {
      RouteConcat(hash, boxes, a, b[..|b| - 1]);
      assert (a + b)[..|a + b| - 1] == a + b[..|b| - 1];
    }
  }

  lemma {:induction false} RouteToOwners<K(!new), M>(hash: K -> nat, n: nat, stream: seq<(K, M)>)
    requires n > 0
    ensures var boxes := Route(hash, EmptyInboxes<K, M>(n), stream);
            && |boxes| == n
            && (forall p, k :: 0 <= p < n && k in boxes[p] ==> p == PartitionOf(hash, k, n) && boxes[p][k] != [])
            && (forall k {:trigger PartitionOf(hash, k, n)} {:trigger SentTo(stream, k)} ::
                  Waiting(boxes[PartitionOf(hash, k, n)], k) == SentTo(stream, k))
  {
    if stream != [] {
      RouteToOwners(hash, n, stream[..|stream| - 1]);
    }
  }

  function Addressed<K, M>(k: K, ms: seq<M>): seq<(K, M)> {
    seq(|ms|, i requires 0 <= i < |ms| => (k, ms[i]))
  }

  /** What was sent to `k` is that part of the stream, in its order. */
  lemma {:induction false} SentToInOrder<K, M>(stream: seq<(K, M)>, k: K)
    ensures Keeps(stream, (x: (K, M)) => x.0 == k, Addressed(k, SentTo(stream, k)))
  {
    hide Keeps;
    var mine := (x: (K, M)) => x.0 == k;
    if stream == [] {
      KeepsNothing(mine);
      assert Addressed(k, SentTo(stream, k)) == [];
    } else {
      var front, last := stream[..|stream| - 1], stream[|stream| - 1];
      SentToInOrder(front, k);
      KeepsMore(front, mine, Addressed(k, SentTo(front, k)), last);
      assert stream == front + [last];
      assert Addressed(k, SentTo(stream, k))
          == Addressed(k, SentTo(front, k)) + (if mine(last) then [last] else []);
    }
  }

  lemma {:induction false} SentToAsBag<K, M>(stream: seq<(K, M)>, k: K, m: M)
    ensures multiset(SentTo(stream, k))[m] == multiset(stream)[(k, m)]
  {
    if stream != [] {
      var front, last := stream[..|stream| - 1], stream[|stream| - 1];
      SentToAsBag(front, k, m);
      assert stream == front + [last];
      assert multiset(stream) == multiset(front) + multiset{last};
    }
  }

  /** The inbox of worker `p` holds only vertices whose hash is `p` modulo the number of workers, and
      holds each of them to which something was sent, with exactly the messages sent to it, in the
      order in which they were sent. */
  lemma {:induction false} RouteExact<K(!new), M>(hash: K -> nat, n: nat, stream: seq<(K, M)>, p: nat, k: K)
    requires p < n
    ensures var boxes := Route(hash, EmptyInboxes<K, M>(n), stream);
            && |boxes| == n
            && (k in boxes[p] <==> hash(k) % n == p && exists i :: 0 <= i < |stream| && stream[i].0 == k)
            && (k in boxes[p] ==> Keeps(stream, (x: (K, M)) => x.0 == k, Addressed(k, boxes[p][k])))
  {
    RouteToOwners(hash, n, stream);
    SentToInOrder(stream, k);
    SentToSomething(stream, k);
    Home(hash, k, n);
    hide Route, Keeps, SentTo, PartitionOf, Addressed;
    var boxes := Route(hash, EmptyInboxes<K, M>(n), stream);
    assert Waiting(boxes[PartitionOf(hash, k, n)], k) == SentTo(stream, k);
  }

  lemma Home<K>(hash: K -> nat, k: K, n: nat)
    requires n > 0
    ensures PartitionOf(hash, k, n) == PartitionOfBytes(hash, k, n) == hash(k) % n
  {
  }

  lemma {:induction false} SentToSomething<K, M>(stream: seq<(K, M)>, k: K)
    ensures SentTo(stream, k) != [] <==> exists i :: 0 <= i < |stream| && stream[i].0 == k
  {
    if stream != [] {
      SentToSomething(stream[..|stream| - 1], k);
    }
  }

  /** Nothing is lost or invented between the outboxes and the next inboxes. */
  lemma {:induction false} MessagesConserved<K(!new), M>(
      hash: K -> nat, n: nat, stream: seq<(K, M)>, p: nat, k: K, m: M)
    requires p < n
    ensures var boxes := Route(hash, EmptyInboxes<K, M>(n), stream);
            multiset(Waiting(boxes[p], k))[m] == if hash(k) % n == p then multiset(stream)[(k, m)] else 0
  {
    RouteToOwners(hash, n, stream);
    SentToAsBag(stream, k, m);
    Home(hash, k, n);
    hide Route, SentTo, PartitionOf;
    var boxes := Route(hash, EmptyInboxes<K, M>(n), stream);
    assert Waiting(boxes[PartitionOf(hash, k, n)], k) == SentTo(stream, k);
  }

  /** What routing adds: for `k`, where its hash says, what was sent to it. */
  lemma {:induction false} RouteAdds<K, M>(
      hash: K -> nat, boxes: seq<Inbox<K, M>>, outbox: seq<(K, M)>, p: nat, k: K)
    requires p < |boxes|
    ensures var after, mine := Route(hash, boxes, outbox),
                               if PartitionOfBytes(hash, k, |boxes|) == p then SentTo(outbox, k) else [];
            && Waiting(after[p], k) == Waiting(boxes[p], k) + mine
            && (k in after[p] <==> k in boxes[p] || mine != [])
  {
    hide PartitionOfBytes;
    if outbox != [] {
      RouteAdds(hash, boxes, outbox[..|outbox| - 1], p, k);
    }
  }

  lemma {:induction false} RouteAddsAll<K(!new), M>(hash: K -> nat, boxes: seq<Inbox<K, M>>, outbox: seq<(K, M)>)
    requires |boxes| > 0
    ensures forall p, k {:trigger Waiting(Route(hash, boxes, outbox)[p], k)}
                        {:trigger k in Route(hash, boxes, outbox)[p]} ::
              0 <= p < |boxes| ==>
              var mine := if hash(k) % |boxes| == p then SentTo(outbox, k) else [];
              && Waiting(Route(hash, boxes, outbox)[p], k) == Waiting(boxes[p], k) + mine
              && (k in Route(hash, boxes, outbox)[p] <==> k in boxes[p] || mine != [])
  {
    hide *;
    forall p, k | 0 <= p < |boxes|
      ensures var mine := if hash(k) % |boxes| == p then SentTo(outbox, k) else [];
              && Waiting(Route(hash, boxes, outbox)[p], k) == Waiting(boxes[p], k) + mine
              && (k in Route(hash, boxes, outbox)[p] <==> k in boxes[p] || mine != [])
    {
      RouteAdds(hash, boxes, outbox, p, k);
      Home(hash, k, |boxes|);
    }
  }

  method RouteOutbox<K(!new, ==), M>(hash: K -> nat, outbox: seq<(K, M)>, nextInboxes: array<Inbox<K, M>>)
    requires nextInboxes.Length > 0
    modifies nextInboxes
    ensures nextInboxes[..] == Route(hash, old(nextInboxes[..]), outbox)
    ensures forall p, k {:trigger Waiting(nextInboxes[p], k)} {:trigger k in nextInboxes[p]} ::
              0 <= p < nextInboxes.Length ==>
              var mine := if hash(k) % nextInboxes.Length == p then SentTo(outbox, k) else [];
              && Waiting(nextInboxes[p], k) == Waiting(old(nextInboxes[p]), k) + mine
              && (k in nextInboxes[p] <==> k in old(nextInboxes[p]) || mine != [])
  {
    for i := 0 to |outbox|
      invariant nextInboxes[..] == Route(hash, old(nextInboxes[..]), outbox[..i])
    {
      var (target, msg) := outbox[i];
      var p := PartitionOfBytes(hash, target, nextInboxes.Length);
      var box := nextInboxes[p];
      nextInboxes[p] := box[target := Waiting(box, target) + [msg]];
      assert outbox[..i + 1][..i] == outbox[..i];
    }
    assert outbox[..|outbox|] == outbox;
    RouteAddsAll(hash, old(nextInboxes[..]), outbox);
  }
}
