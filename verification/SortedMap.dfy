/** A map kept as rows in key order, the way an ordered tree map iterates. */
module SortedMap {
  import opened Options

  type Key = string

  /** Lexicographic order. */
  predicate Less(a: Key, b: Key) {
    b != [] && (a == [] || a[0] < b[0] || (a[0] == b[0] && Less(a[1..], b[1..])))
  }

  lemma {:induction false} LessTransitive(a: Key, b: Key, c: Key)
    requires Less(a, b) && Less(b, c)
    ensures Less(a, c)
  {
    if a != [] && a[0] == b[0] && b[0] == c[0] {
      LessTransitive(a[1..], b[1..], c[1..]);
    }
  }

  lemma {:induction false} LessTotal(a: Key, b: Key)
    ensures !(Less(a, b) && Less(b, a))
    ensures Less(a, b) || Less(b, a) || a == b
    ensures a == b ==> !Less(a, b)
  {
    if a != [] && b != [] {
      LessTotal(a[1..], b[1..]);
      assert a == [a[0]] + a[1..] && b == [b[0]] + b[1..];
    }
  }

  /** The order of dictionaries: at the first place two keys differ the smaller character comes first, and a prefix before the rest. */
  lemma {:induction false} LessExactly(a: Key, b: Key)
    ensures Less(a, b) <==> exists i: nat :: FirstDifference(a, b, i)
    decreases |a|
  {
    if a == [] {
      assert b != [] ==> FirstDifference(a, b, 0);
    } else if b != [] {
      if a[0] == b[0] {
        LessExactly(a[1..], b[1..]);
        if i: nat :| FirstDifference(a[1..], b[1..], i) {
          assert a[..i + 1] == [a[0]] + a[1..][..i] && b[..i + 1] == [b[0]] + b[1..][..i];
          assert FirstDifference(a, b, i + 1);
        }
        if i: nat :| FirstDifference(a, b, i) {
          assert i > 0;
          assert a[1..][..i - 1] == a[..i][1..] && b[1..][..i - 1] == b[..i][1..];
          assert FirstDifference(a[1..], b[1..], i - 1);
        }
      } else {
        if a[0] < b[0] {
          assert FirstDifference(a, b, 0);
        }
        assert forall i: nat {:trigger FirstDifference(a, b, i)} :: 0 < i <= |a| && i < |b| ==> a[..i][0] == a[0] && b[..i][0] == b[0];
      }
    }
  }

  predicate FirstDifference(a: Key, b: Key, i: nat) {
    i <= |a| && i < |b| && a[..i] == b[..i] && (i == |a| || a[i] < b[i])
  }

  datatype Row<V> = Row(key: Key, value: V)

  ghost predicate Sorted<V>(rows: seq<Row<V>>) {
    forall i, j :: 0 <= i < j < |rows| ==> Less(rows[i].key, rows[j].key)
  }

  function Lookup<V>(rows: seq<Row<V>>, k: Key): Option<V> {
    if rows == [] then None
    else if rows[0].key == k then Some(rows[0].value)
    else Lookup(rows[1..], k)
  }

  function Put<V>(rows: seq<Row<V>>, k: Key, v: V): seq<Row<V>> {
    if rows == [] then [Row(k, v)]
    else if rows[0].key == k then [Row(k, v)] + rows[1..]
    else if Less(k, rows[0].key) then [Row(k, v)] + rows
    else [rows[0]] + Put(rows[1..], k, v)
  }

  lemma {:induction false} LookupPut<V>(rows: seq<Row<V>>, k: Key, v: V, j: Key)
    ensures Lookup(Put(rows, k, v), j) == if j == k then Some(v) else Lookup(rows, j)
  {
    if rows != [] {
      if rows[0].key != k && !Less(k, rows[0].key) {
        LookupPut(rows[1..], k, v, j);
        assert ([rows[0]] + Put(rows[1..], k, v))[1..] == Put(rows[1..], k, v);
      } else if rows[0].key == k {
        assert ([Row(k, v)] + rows[1..])[1..] == rows[1..];
      } else {
        assert ([Row(k, v)] + rows)[1..] == rows;
      }
    }
  }

  /** Every row of a map after an insertion is the new one or was there before. */
  lemma {:induction false} PutRows<V>(rows: seq<Row<V>>, k: Key, v: V)
    ensures forall r :: r in Put(rows, k, v) ==> r == Row(k, v) || r in rows
    ensures Put(rows, k, v) != []
  {
    if rows != [] && rows[0].key != k && !Less(k, rows[0].key) {
      PutRows(rows[1..], k, v);
    }
  }

  lemma SortedTail<V>(rows: seq<Row<V>>)
    requires Sorted(rows) && rows != []
    ensures Sorted(rows[1..]) && forall r :: r in rows[1..] ==> Less(rows[0].key, r.key)
  {
    forall r | r in rows[1..]
      ensures Less(rows[0].key, r.key)
    {
      var i :| 0 <= i < |rows[1..]| && rows[1..][i] == r;
      assert rows[i + 1] == r;
    }
  }

  lemma SortedCons<V>(r: Row<V>, rows: seq<Row<V>>)
    requires Sorted(rows) && forall x :: x in rows ==> Less(r.key, x.key)
    ensures Sorted([r] + rows)
  {
    var all := [r] + rows;
    forall i, j | 0 <= i < j < |all|
      ensures Less(all[i].key, all[j].key)
    {
      assert all[j] == rows[j - 1] && all[j] in rows;
      if i > 0 {
        assert all[i] == rows[i - 1];
      }
    }
  }

  lemma {:induction false} PutSorted<V>(rows: seq<Row<V>>, k: Key, v: V)
    requires Sorted(rows)
    ensures Sorted(Put(rows, k, v))
  {
    if rows != [] {
      SortedTail(rows);
      LessTotal(k, rows[0].key);
      if rows[0].key == k {
        SortedCons(Row(k, v), rows[1..]);
      } else if Less(k, rows[0].key) {
        forall x | x in rows
          ensures Less(k, x.key)
        {
          if x in rows[1..] {
            LessTransitive(k, rows[0].key, x.key);
          }
        }
        SortedCons(Row(k, v), rows);
      } else {
        PutSorted(rows[1..], k, v);
        PutRows(rows[1..], k, v);
        SortedCons(rows[0], Put(rows[1..], k, v));
      }
    }
  }

  lemma {:induction false} LookupIn<V>(rows: seq<Row<V>>, k: Key)
    ensures Lookup(rows, k).Some? ==> Row(k, Lookup(rows, k).value) in rows
    ensures Lookup(rows, k).None? <==> forall r :: r in rows ==> r.key != k
    decreases |rows|
  {
    if rows != [] && rows[0].key != k {
      LookupIn(rows[1..], k);
      assert rows == [rows[0]] + rows[1..];
    }
  }

  lemma {:induction false} RowIsLookup<V>(rows: seq<Row<V>>, r: Row<V>)
    requires Sorted(rows) && r in rows
    ensures Lookup(rows, r.key) == Some(r.value)
  {
    if rows[0] != r {
      SortedTail(rows);
      assert r in rows[1..];
      LessTotal(rows[0].key, r.key);
      RowIsLookup(rows[1..], r);
    }
  }

  lemma {:induction false} AbsentBelow<V>(rows: seq<Row<V>>, k: Key)
    requires forall r :: r in rows ==> Less(k, r.key)
    ensures Lookup(rows, k) == None
  {
    LookupIn(rows, k);
    LessTotal(k, k);
  }

  /** Two sorted maps that answer every lookup alike are the same rows in the same order. */
  lemma {:induction false} SameLookups<V>(a: seq<Row<V>>, b: seq<Row<V>>)
    requires Sorted(a) && Sorted(b) && forall k :: Lookup(a, k) == Lookup(b, k)
    ensures a == b
    decreases |a|
  {
    var ka, kb := if a == [] then "" else a[0].key, if b == [] then "" else b[0].key;
    assert Lookup(a, ka) == Lookup(b, ka) && Lookup(a, kb) == Lookup(b, kb);
    if a != [] && b != [] {
      FirstRows(a, b);
      SortedTail(a);
      SortedTail(b);
      forall k
        ensures Lookup(a[1..], k) == Lookup(b[1..], k)
      {
        assert Lookup(a, k) == Lookup(b, k);
        if k == a[0].key {
          AbsentBelow(a[1..], k);
          AbsentBelow(b[1..], k);
        }
      }
      SameLookups(a[1..], b[1..]);
      assert a == [a[0]] + a[1..] && b == [b[0]] + b[1..];
    }
  }

  lemma FirstRows<V>(a: seq<Row<V>>, b: seq<Row<V>>)
    requires Sorted(a) && Sorted(b) && a != [] && b != []
    requires Lookup(a, a[0].key) == Lookup(b, a[0].key) && Lookup(a, b[0].key) == Lookup(b, b[0].key)
    ensures a[0] == b[0]
  {
    if a[0].key != b[0].key {
      LookupIn(a, b[0].key);
      LookupIn(b, a[0].key);
      SortedTail(a);
      SortedTail(b);
      LessTotal(a[0].key, b[0].key);
    }
  }
}
