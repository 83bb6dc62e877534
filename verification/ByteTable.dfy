/** An ordered key-value table over byte strings: what the worker relies on of its embedded store.

    A table is the sequence of its entries in lexicographic key order, which is the order in which
    an iterator yields them.
 */
module ByteTable {
  import opened Options
  import opened Codec

  type Entry = (Bytes, Bytes)

  /** Lexicographic order on bytes; a proper prefix comes first. */
  predicate Less(a: Bytes, b: Bytes) {
    b != [] && (a == [] || a[0] < b[0] || (a[0] == b[0] && Less(a[1..], b[1..])))
  }

  predicate StartsWith(key: Bytes, prefix: Bytes) {
    prefix <= key
  }

  /** The order is decided by the first byte in which the strings differ, or by their lengths. */
  lemma {:induction false} LessExactlyWhen(a: Bytes, b: Bytes)
    ensures Less(a, b) <==>
            (a <= b && |a| < |b|) || exists i :: 0 <= i < |a| && i < |b| && a[..i] == b[..i] && a[i] < b[i]
  {
    if a != [] && b != [] {
      if a[0] == b[0] {
        LessExactlyWhen(a[1..], b[1..]);
        assert a == [a[0]] + a[1..] && b == [b[0]] + b[1..];
        if i :| 0 <= i < |a[1..]| && i < |b[1..]| && a[1..][..i] == b[1..][..i] && a[1..][i] < b[1..][i] {
          assert a[..i + 1] == [a[0]] + a[1..][..i] && b[..i + 1] == [b[0]] + b[1..][..i];
          assert a[i + 1] < b[i + 1];
        }
        if i :| 0 < i < |a| && i < |b| && a[..i] == b[..i] && a[i] < b[i] {
          assert a[1..][..i - 1] == a[..i][1..] && b[1..][..i - 1] == b[..i][1..];
          assert a[1..][i - 1] < b[1..][i - 1];
        }
      } else {
        assert a[..0] == b[..0];
        forall i | 0 < i < |a| && i < |b|
          ensures a[..i] != b[..i]
        {
          assert a[..i][0] != b[..i][0];
        }
      }
    }
  }

  lemma {:induction false} LessIsStrict(a: Bytes, b: Bytes)
    ensures Less(a, b) ==> a != b && !Less(b, a)
    ensures !Less(a, b) && !Less(b, a) ==> a == b
  {
    if a != [] && b != [] && a[0] == b[0] {
      LessIsStrict(a[1..], b[1..]);
      assert a == [a[0]] + a[1..] && b == [b[0]] + b[1..];
    }
  }

  lemma {:induction false} LessIsTransitive(a: Bytes, b: Bytes, c: Bytes)
    requires Less(a, b) && Less(b, c)
    ensures Less(a, c)
  {
    if a != [] && a[0] == b[0] == c[0] {
      LessIsTransitive(a[1..], b[1..], c[1..]);
    }
  }

  lemma {:induction false} PrefixIsFirst(prefix: Bytes, key: Bytes)
    requires StartsWith(key, prefix)
    ensures !Less(key, prefix)
  {
    if prefix != [] {
      PrefixIsFirst(prefix[1..], key[1..]);
    }
  }

  /** The keys with a given prefix are contiguous: a key between the prefix itself and a key that
      has it, has it too. */
  lemma {:induction false} PrefixRangeIsContiguous(prefix: Bytes, y: Bytes, z: Bytes)
    requires !Less(y, prefix) && Less(y, z) && StartsWith(z, prefix)
    ensures StartsWith(y, prefix)
  {
    if prefix != [] {
      assert z[0] == prefix[0];
      PrefixRangeIsContiguous(prefix[1..], y[1..], z[1..]);
      assert y == [y[0]] + y[1..] && prefix == [prefix[0]] + prefix[1..];
    }
  }

  // ---------------------------------------------------------------------------------------

  ghost predicate Sorted(table: seq<Entry>) {
    forall i, j :: 0 <= i < j < |table| ==> Less(table[i].0, table[j].0)
  }

  ghost predicate HasKey(table: seq<Entry>, key: Bytes) {
    exists i :: 0 <= i < |table| && table[i].0 == key
  }

  /** Writing one entry: in place of an entry with the same key, or at its place in the order. */
  function Put(table: seq<Entry>, key: Bytes, value: Bytes): seq<Entry> {
    if table == [] || Less(key, table[0].0) then
      [(key, value)] + table
    else if table[0].0 == key then
      [(key, value)] + table[1..]
    else
      [table[0]] + Put(table[1..], key, value)
  }

  function Lookup(table: seq<Entry>, key: Bytes): Option<Bytes> {
    if table == [] then None
    else if table[0].0 == key then Some(table[0].1)
    else Lookup(table[1..], key)
  }

  /** Where an iterator that is asked to start at `key` begins. */
  function Seek(table: seq<Entry>, key: Bytes): (rest: seq<Entry>)
    ensures |rest| <= |table|
  {
    if table != [] && Less(table[0].0, key) then Seek(table[1..], key) else table
  }

  lemma SortedTail(table: seq<Entry>)
    requires Sorted(table) && table != []
    ensures Sorted(table[1..])
    ensures forall i :: 0 <= i < |table[1..]| ==> Less(table[0].0, table[1..][i].0)
  {
  }

  lemma SortedCons(e: Entry, rest: seq<Entry>)
    requires Sorted(rest) && forall i :: 0 <= i < |rest| ==> Less(e.0, rest[i].0)
    ensures Sorted([e] + rest)
  {
  }

  lemma {:induction false} LessThanAll(key: Bytes, table: seq<Entry>)
    requires Sorted(table) && (table == [] || Less(key, table[0].0))
    ensures forall i :: 0 <= i < |table| ==> Less(key, table[i].0)
  {
    forall i | 0 <= i < |table|
      ensures Less(key, table[i].0)
    {
      if i > 0 {
        LessIsTransitive(key, table[0].0, table[i].0);
      }
    }
  }

  /** In a sorted table, keys beyond a smaller one differ from it. */
  lemma {:induction false} KeysBeyond(key: Bytes, table: seq<Entry>)
    requires forall i :: 0 <= i < |table| ==> Less(key, table[i].0)
    ensures !HasKey(table, key)
    ensures forall e :: e in table ==> e.0 != key
  {
    forall i | 0 <= i < |table|
      ensures table[i].0 != key
    {
      LessIsStrict(key, table[i].0);
    }
  }

  lemma HasKeyOfTail(table: seq<Entry>, key: Bytes)
    requires table != [] && table[0].0 != key
    ensures HasKey(table, key) <==> HasKey(table[1..], key)
  {
    if HasKey(table, key) {
      var i :| 0 <= i < |table| && table[i].0 == key;
      assert table[1..][i - 1].0 == key;
    }
    if HasKey(table[1..], key) {
      var i :| 0 <= i < |table[1..]| && table[1..][i].0 == key;
      assert table[i + 1].0 == key;
    }
  }

  /** A new key adds one entry and a present one replaces its own. */
  lemma {:induction false} PutEntries(table: seq<Entry>, key: Bytes, value: Bytes)
    requires Sorted(table)
    ensures forall e :: e in Put(table, key, value) <==> e == (key, value) || (e in table && e.0 != key)
    ensures !HasKey(table, key) ==> multiset(Put(table, key, value)) == multiset(table) + multiset{(key, value)}
    ensures HasKey(table, key) ==> |Put(table, key, value)| == |table|
  {
    if table == [] || Less(key, table[0].0) {
      LessThanAll(key, table);
      KeysBeyond(key, table);
    } else {
      SortedTail(table);
      assert table == [table[0]] + table[1..];
      if table[0].0 == key {
        KeysBeyond(key, table[1..]);
      } else {
        hide Less, Sorted;
        HasKeyOfTail(table, key);
        hide HasKey;
        PutEntries(table[1..], key, value);
      }
    }
  }

  /** Writing keeps the order; a new key adds one entry and a present one replaces its own. */
  lemma {:induction false} PutIsSorted(table: seq<Entry>, key: Bytes, value: Bytes)
    requires Sorted(table)
    ensures Sorted(Put(table, key, value))
    ensures forall e :: e in Put(table, key, value) <==> e == (key, value) || (e in table && e.0 != key)
    ensures !HasKey(table, key) ==> multiset(Put(table, key, value)) == multiset(table) + multiset{(key, value)}
    ensures HasKey(table, key) ==> |Put(table, key, value)| == |table|
  {
    PutEntries(table, key, value);
    hide HasKey;
    if table == [] || Less(key, table[0].0) {
      LessThanAll(key, table);
      SortedCons((key, value), table);
    } else if table[0].0 == key {
      SortedTail(table);
      SortedCons((key, value), table[1..]);
    } else {
      var rest := Put(table[1..], key, value);
      SortedTail(table);
      PutIsSorted(table[1..], key, value);
      LessIsStrict(key, table[0].0);
      hide Sorted;
      forall i | 0 <= i < |rest|
        ensures Less(table[0].0, rest[i].0)
      {
        assert rest[i] in rest;
      }
      SortedCons(table[0], rest);
    }
  }

  /** A new entry is slipped in between two neighbours. */
  lemma {:induction false} PutInserts(table: seq<Entry>, key: Bytes, value: Bytes) returns (at: nat)
    requires !HasKey(table, key)
    ensures at <= |table|
    ensures Put(table, key, value) == table[..at] + [(key, value)] + table[at..]
  {
    if table == [] || Less(key, table[0].0) {
      at := 0;
    } else {
      forall i | 0 <= i < |table[1..]|
        ensures table[1..][i].0 != key
      {
        assert table[1..][i] == table[i + 1];
      }
      assert table[0].0 != key;
      var p := PutInserts(table[1..], key, value);
      at := p + 1;
      assert table[..at] == [table[0]] + table[1..][..p];
      assert table[at..] == table[1..][p..];
    }
  }

  lemma {:induction false} LookupFinds(table: seq<Entry>, key: Bytes)
    requires Sorted(table)
    ensures Lookup(table, key).Some? ==> (key, Lookup(table, key).value) in table
    ensures Lookup(table, key).None? ==> !HasKey(table, key)
  {
    if table != [] && table[0].0 != key {
      SortedTail(table);
      LookupFinds(table[1..], key);
      assert HasKey(table, key) ==> HasKey(table[1..], key) by {
        if HasKey(table, key) {
          var i :| 0 <= i < |table| && table[i].0 == key;
          assert table[1..][i - 1].0 == key;
        }
      }
    }
  }

  /** An iterator started at `key` skips exactly the smaller keys. */
  lemma {:induction false} SeekSkips(table: seq<Entry>, key: Bytes)
    requires Sorted(table)
    ensures Seek(table, key) == table[|table| - |Seek(table, key)|..]
    ensures forall i :: 0 <= i < |table| - |Seek(table, key)| ==> Less(table[i].0, key)
    ensures forall i :: 0 <= i < |Seek(table, key)| ==> !Less(Seek(table, key)[i].0, key)
  {
    if table != [] && Less(table[0].0, key) {
      SortedTail(table);
      SeekSkips(table[1..], key);
      assert table == [table[0]] + table[1..];
      var n := |table[1..]| - |Seek(table[1..], key)|;
      assert table[1..][n..] == table[n + 1..];
    } else {
      forall i | 0 <= i < |table|
        ensures !Less(table[i].0, key)
      {
        if i > 0 && Less(table[i].0, key) {
          LessIsTransitive(table[0].0, table[i].0, key);
        }
      }
    }
  }
}
