/** Finite bags, the common currency of the model: what travels between vertices and what an
    edge index returns is only ever compared up to order.
 */
module Bags {

  ghost predicate Arranges<T>(s: seq<T>, bag: multiset<T>) {
    multiset(s) == bag
  }

  /** Some arrangement of a bag; which one is immaterial to order-insensitive code. */
  ghost function SeqOf<T>(bag: multiset<T>): seq<T> {
    ArrangementExists(bag);
    var s :| Arranges(s, bag);
    s
  }

  lemma {:induction false} ArrangementExists<T>(bag: multiset<T>)
    ensures exists s: seq<T> :: Arranges(s, bag)
    decreases |bag|
  {
    if bag == multiset{} {
      assert Arranges([], bag);
    } else {
      var x :| x in bag;
      ArrangementExists(bag - multiset{x});
      var rest: seq<T> :| Arranges(rest, bag - multiset{x});
      assert Arranges([x] + rest, bag);
    }
  }

  ghost predicate Distinct<T>(s: seq<T>) {
    forall i, j :: 0 <= i < j < |s| ==> s[i] != s[j]
  }

  /** `order` lists every element of `keys` exactly once. */
  ghost predicate Lists<T>(order: seq<T>, keys: set<T>) {
    && Distinct(order)
    && (forall x :: x in order ==> x in keys)
    && (forall x :: x in keys ==> x in order)
  }

  lemma ListsAsBag<T>(order: seq<T>, keys: set<T>)
    requires Lists(order, keys)
    ensures multiset(order) == multiset(keys)
  {
    if order == [] {
      assert keys == {};
    } else {
      var last := order[|order| - 1];
      var front := order[..|order| - 1];
      assert order == front + [last];
      assert Lists(front, keys - {last});
      ListsAsBag(front, keys - {last});
      assert multiset(keys) == multiset(keys - {last}) + multiset{last};
    }
  }

  lemma RepeatCounts<T>(s: seq<T>, i: nat, j: nat)
    requires i < j < |s| && s[i] == s[j]
    ensures multiset(s)[s[i]] >= 2
  {
    assert s == s[..i] + [s[i]] + s[i + 1..j] + [s[j]] + s[j + 1..];
  }

  lemma BagListsSet<T>(order: seq<T>, keys: set<T>)
    requires multiset(order) == multiset(keys)
    ensures Lists(order, keys)
  {
    forall x
      ensures x in order <==> x in keys
    {
      assert x in order <==> x in multiset(order);
      assert x in keys <==> x in multiset(keys);
    }
    forall i, j | 0 <= i < j < |order| && order[i] == order[j]
      ensures false
    {
      RepeatCounts(order, i, j);
    }
  }

  /** The sum of the bags that `outs` assigns to the listed keys. */
  ghost function Collect<K, T>(keys: seq<K>, outs: map<K, multiset<T>>): multiset<T>
    requires forall k :: k in keys ==> k in outs
  {
    if keys == [] then
      multiset{}
    else
      Collect(keys[..|keys| - 1], outs) + outs[keys[|keys| - 1]]
  }

  /** The sum over a whole map, in an order of no importance (see CollectPermutation). */
  ghost function CollectAll<K, T>(outs: map<K, multiset<T>>): multiset<T> {
    var order := SeqOf(multiset(outs.Keys));
    BagListsSet(order, outs.Keys);
    Collect(order, outs)
  }

  lemma {:induction false} CollectAppend<K, T>(keys: seq<K>, k: K, outs: map<K, multiset<T>>)
    requires k in outs && forall x :: x in keys ==> x in outs
    ensures Collect(keys + [k], outs) == Collect(keys, outs) + outs[k]
  {
    assert (keys + [k])[..|keys|] == keys;
  }

  lemma {:induction false} CollectConcat<K, T>(a: seq<K>, b: seq<K>, outs: map<K, multiset<T>>)
    requires forall k :: k in a || k in b ==> k in outs
    ensures Collect(a + b, outs) == Collect(a, outs) + Collect(b, outs)
  {
    if b == [] {
      assert a + b == a;
    } else {
      var front, last := b[..|b| - 1], b[|b| - 1];
      assert a + b == (a + front) + [last];
      CollectConcat(a, front, outs);
      CollectAppend(a + front, last, outs);
    }
  }

  lemma TakeOut<T>(b: seq<T>, x: T) returns (p: seq<T>, q: seq<T>)
    requires x in multiset(b)
    ensures b == p + [x] + q
    ensures multiset(p + q) == multiset(b) - multiset{x}
  {
    var i :| 0 <= i < |b| && b[i] == x;
    p, q := b[..i], b[i + 1..];
    assert b == p + [x] + q;
  }

  lemma {:induction false} CollectPermutation<K, T>(a: seq<K>, b: seq<K>, outs: map<K, multiset<T>>)
    requires multiset(a) == multiset(b)
    requires forall k :: k in a ==> k in outs
    ensures forall k :: k in b ==> k in outs
    ensures Collect(a, outs) == Collect(b, outs)
    decreases |a|
  {
    forall k | k in b
      ensures k in outs
    {
      assert k in multiset(b);
      assert k in multiset(a);
    }
    if a == [] {
      assert |multiset(a)| == |multiset(b)|;
    } else {
      var front, x := a[..|a| - 1], a[|a| - 1];
      assert a == front + [x];
      assert multiset(front) == multiset(a) - multiset{x};
      var p, q := TakeOut(b, x);
      CollectPermutation(front, p + q, outs);
      CollectConcat(p, q, outs);
      CollectAppend(p, x, outs);
      CollectConcat(p + [x], q, outs);
    }
  }

  lemma {:induction false} CollectListing<K, T>(order: seq<K>, outs: map<K, multiset<T>>)
    requires Lists(order, outs.Keys)
    ensures Collect(order, outs) == CollectAll(outs)
  {
    ListsAsBag(order, outs.Keys);
    CollectPermutation(order, SeqOf(multiset(outs.Keys)), outs);
  }

  /** Membership in a sum comes from one of the summands. */
  lemma {:induction false} CollectMember<K, T>(keys: seq<K>, outs: map<K, multiset<T>>, x: T)
    requires forall k :: k in keys ==> k in outs
    ensures x in Collect(keys, outs) <==> exists k :: k in keys && x in outs[k]
  {
    if keys != [] {
      var front, last := keys[..|keys| - 1], keys[|keys| - 1];
      CollectMember(front, outs, x);
      assert forall k :: k in keys <==> k in front || k == last;
    }
  }

  lemma CollectAllMember<K, T>(outs: map<K, multiset<T>>, x: T)
    ensures x in CollectAll(outs) <==> exists k :: k in outs && x in outs[k]
  {
    var order := SeqOf(multiset(outs.Keys));
    BagListsSet(order, outs.Keys);
    CollectMember(order, outs, x);
  }
}
