/** Splitting a list into the 256-entry batches of the wire protocol. */
module Batching {

  const BATCH_ENTRIES: nat := 256

  datatype Chunk<+T> = Chunk(items: seq<T>, last: bool)

  /** What the split loop sends: an empty list still travels as one (last) batch. */
  function Chunks<T>(xs: seq<T>): (cs: seq<Chunk<T>>)
    ensures |cs| >= 1
  {
    if |xs| <= BATCH_ENTRIES then
      [Chunk(xs, true)]
    else
      [Chunk(xs[..BATCH_ENTRIES], false)] + Chunks(xs[BATCH_ENTRIES..])
  }

  /** What the receiver accumulates, in order of arrival. */
  function Joined<T>(cs: seq<Chunk<T>>): seq<T> {
    if cs == [] then [] else Joined(cs[..|cs| - 1]) + cs[|cs| - 1].items
  }

  lemma {:induction false} JoinedFront<T>(c: Chunk<T>, cs: seq<Chunk<T>>)
    ensures Joined([c] + cs) == c.items + Joined(cs)
  {
    if cs != [] {
      var front, z := cs[..|cs| - 1], cs[|cs| - 1];
      JoinedFront(c, front);
      assert ([c] + cs)[..|cs|] == [c] + front;
    }
  }

  /** The round trip: nothing is lost, reordered or duplicated, no batch is oversized, only the
      final one is marked last, and only an empty list travels in an empty batch. */
  lemma {:induction false} ChunksRoundTrip<T>(xs: seq<T>)
    ensures Joined(Chunks(xs)) == xs
    ensures forall i :: 0 <= i < |Chunks(xs)| ==> (Chunks(xs)[i].last <==> i == |Chunks(xs)| - 1)
    ensures forall i :: 0 <= i < |Chunks(xs)| ==> |Chunks(xs)[i].items| <= BATCH_ENTRIES
    ensures forall i :: 0 <= i < |Chunks(xs)| ==> (Chunks(xs)[i].items == [] <==> xs == [])
  {
    if |xs| <= BATCH_ENTRIES {
      assert Joined([Chunk(xs, true)]) == Joined([]) + xs;
    } else {
      var first, rest := Chunk(xs[..BATCH_ENTRIES], false), xs[BATCH_ENTRIES..];
      var cs := Chunks(rest);
      assert Chunks(xs) == [first] + cs;
      ChunksRoundTrip(rest);
      JoinedFront(first, cs);
      assert xs == xs[..BATCH_ENTRIES] + rest;
      hide Joined, Chunks;
    }
  }

  /** Batch `i` carries the entries from 256 * i on, 256 of them unless it is the last. */
  lemma {:induction false} ChunksAreFull<T>(xs: seq<T>)
    ensures |Chunks(xs)| == if xs == [] then 1 else (|xs| + 255) / 256
    ensures forall i :: 0 <= i < |Chunks(xs)| ==>
              Chunks(xs)[i].items == xs[256 * i..if i < |Chunks(xs)| - 1 then 256 * (i + 1) else |xs|]
    ensures forall i :: 0 <= i < |Chunks(xs)| - 1 ==> |Chunks(xs)[i].items| == 256
  {
    if |xs| > BATCH_ENTRIES {
      var rest := xs[BATCH_ENTRIES..];
      ChunksAreFull(rest);
      forall i | 0 < i < |Chunks(xs)|
        ensures Chunks(xs)[i].items == xs[256 * i..if i < |Chunks(xs)| - 1 then 256 * (i + 1) else |xs|]
      {
        assert Chunks(xs)[i] == Chunks(rest)[i - 1];
      }
    }
  }

  /** The split loop shared by the driver (inbox entries) and the workers (outbox entries). */
  method Split<T>(xs: seq<T>) returns (cs: seq<Chunk<T>>)
    ensures cs == Chunks(xs)
    ensures |cs| == if |xs| == 0 then 1 else (|xs| + 255) / 256
    ensures forall i :: 0 <= i < |cs| ==>
              && cs[i].items == xs[256 * i..if i < |cs| - 1 then 256 * (i + 1) else |xs|]
              && (cs[i].last <==> i == |cs| - 1)
  {
    ChunksAreFull(xs);
    if |xs| == 0 {
      return [Chunk([], true)];
    }
    cs := [];
    var offset := 0;
    while offset < |xs|
      invariant 0 <= offset <= |xs|
      invariant offset < |xs| ==> Chunks(xs) == cs + Chunks(xs[offset..])
      invariant offset == |xs| ==> Chunks(xs) == cs
    {
      var end := if offset + BATCH_ENTRIES < |xs| then offset + BATCH_ENTRIES else |xs|;
      var last := end == |xs|;
      cs := cs + [Chunk(xs[offset..end], last)];
      assert xs[offset..][..end - offset] == xs[offset..end];
      assert last ==> xs[offset..end] == xs[offset..];
      assert xs[offset..][end - offset..] == xs[end..];
      offset := end;
    }
    hide Chunks;
    ChunksRoundTrip(xs);
  }
}
