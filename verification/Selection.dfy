/** Part of a list: the items that are kept, in the order of the list. */
module Selection {

  /** The items of `ys` are those at the places `at` of `xs`, which are all places whose item is kept. */
  ghost predicate KeepsAt<T>(xs: seq<T>, keep: T -> bool, ys: seq<T>, at: seq<nat>) {
    && |at| == |ys|
    && (forall i, j :: 0 <= i < j < |at| ==> at[i] < at[j])
    && (forall i :: 0 <= i < |at| ==> at[i] < |xs| && keep(xs[at[i]]) && ys[i] == xs[at[i]])
    && (forall m :: 0 <= m < |xs| && keep(xs[m]) ==> m in at)
  }

  ghost predicate Keeps<T>(xs: seq<T>, keep: T -> bool, ys: seq<T>) {
    exists at: seq<nat> :: KeepsAt(xs, keep, ys, at)
  }

  lemma KeepsNothing<T>(keep: T -> bool)
    ensures Keeps([], keep, [])
  {
    assert KeepsAt([], keep, [], []);
  }

  lemma KeepsOneMore<T>(xs: seq<T>, keep: T -> bool, ys: seq<T>, at: seq<nat>, x: T)
    requires KeepsAt(xs, keep, ys, at) && keep(x)
    ensures KeepsAt(xs + [x], keep, ys + [x], at + [|xs|])
  {
    var more, to := xs + [x], at + [|xs|];
    forall m | 0 <= m < |more| && keep(more[m])
      ensures m in to
    {
      if m < |xs| {
        assert xs[m] == more[m];
        assert m in at;
      } else {
        assert to[|at|] == m;
      }
    }
    forall i | 0 <= i < |to|
      ensures to[i] < |more| && keep(more[to[i]]) && (ys + [x])[i] == more[to[i]]
    {
      if i < |at| {
        assert to[i] == at[i] && at[i] < |xs|;
      }
    }
  }

  lemma KeepsMore<T>(xs: seq<T>, keep: T -> bool, ys: seq<T>, x: T)
    requires Keeps(xs, keep, ys)
    ensures Keeps(xs + [x], keep, ys + (if keep(x) then [x] else []))
  {
    var at: seq<nat> :| KeepsAt(xs, keep, ys, at);
    if keep(x) {
      hide KeepsAt;
      KeepsOneMore(xs, keep, ys, at, x);
    } else {
      assert ys + [] == ys;
      assert KeepsAt(xs + [x], keep, ys, at);
    }
  }

  /** Only one list is the part of `xs` that is kept. */
  lemma KeptIsUnique<T>(xs: seq<T>, keep: T -> bool, ys: seq<T>, zs: seq<T>)
    requires Keeps(xs, keep, ys) && Keeps(xs, keep, zs)
    ensures ys == zs
  {
    var a: seq<nat> :| KeepsAt(xs, keep, ys, a);
    var b: seq<nat> :| KeepsAt(xs, keep, zs, b);
    assert forall m :: m in a <==> m in b;
    IncreasingIsUnique(a, b);
  }

  lemma {:induction false} IncreasingIsUnique(a: seq<nat>, b: seq<nat>)
    requires forall i, j :: 0 <= i < j < |a| ==> a[i] < a[j]
    requires forall i, j :: 0 <= i < j < |b| ==> b[i] < b[j]
    requires forall m :: m in a <==> m in b
    ensures a == b
  {
    if a == [] {
      assert forall i :: 0 <= i < |b| ==> b[i] in a;
      assert |b| == 0;
    } else {
      assert a[0] in b;
      assert b[0] in a;
      assert a[0] == b[0];
      forall m
        ensures m in a[1..] <==> m in b[1..]
      {
        assert m in a[1..] <==> m in a && m != a[0];
        assert m in b[1..] <==> m in b && m != b[0];
      }
      IncreasingIsUnique(a[1..], b[1..]);
      assert a == [a[0]] + a[1..] && b == [b[0]] + b[1..];
    }
  }
}
