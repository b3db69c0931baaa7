/**
What readers of a namespace see, told in the fields of the rows: when a value is in
force, what a listing holds, what collection drops, which of several writes is held,
and what the content digest can tell apart.
*/
module KvLaws {
  import opened Options
  import opened HybridClock
  import opened SortedMap
  import opened Kv

  // ---------------------------------------------------------------- reading

  /** A value that has not expired: a tombstone has none, and the expiry is the first moment it is gone. */
  predicate InForce(e: KvEntry, now: nat) {
    e.value.Some? && (e.expires.None? || now < e.expires.value)
  }

  /** A key is read if and only if its row has a value that has not expired. */
  lemma ReadExactly(rows: seq<Row<KvEntry>>, k: Key, now: nat, v: seq<Byte>)
    requires Sorted(rows)
    ensures Read(rows, k, now) == Some(v) <==> exists e :: Row(k, e) in rows && InForce(e, now) && e.value == Some(v)
  {
    LookupIn(rows, k);
    if e :| Row(k, e) in rows && InForce(e, now) && e.value == Some(v) {
      RowIsLookup(rows, Row(k, e));
    }
  }

  /** What is written is read until it expires, from the moment it does never again; a tombstone is never read. */
  lemma WrittenIsRead(rows: seq<Row<KvEntry>>, k: Key, e: KvEntry, now: nat)
    ensures e.value.Some? && e.expires.None? ==> Read(SortedMap.Put(rows, k, e), k, now) == e.value
    ensures e.value.Some? && e.expires.Some? && now < e.expires.value ==> Read(SortedMap.Put(rows, k, e), k, now) == e.value
    ensures e.expires.Some? && now >= e.expires.value ==> Read(SortedMap.Put(rows, k, e), k, now) == None
    ensures e.value.None? ==> Read(SortedMap.Put(rows, k, e), k, now) == None
    ensures forall j :: j != k ==> Read(SortedMap.Put(rows, k, e), j, now) == Read(rows, j, now)
  {
    LookupPut(rows, k, e, k);
    forall j | j != k
      ensures Read(SortedMap.Put(rows, k, e), j, now) == Read(rows, j, now)
    {
      LookupPut(rows, k, e, j);
    }
  }

  // ---------------------------------------------------------------- listing

  /** The key has the prefix and a value in force. */
  ghost predicate Offered(rows: seq<Row<KvEntry>>, prefix: Key, now: nat, k: Key) {
    prefix <= k && exists e :: Row(k, e) in rows && InForce(e, now)
  }

  lemma OfferedIsRead(rows: seq<Row<KvEntry>>, prefix: Key, now: nat, k: Key)
    requires Sorted(rows)
    ensures Offered(rows, prefix, now, k) <==> prefix <= k && Read(rows, k, now).Some?
  {
    LookupIn(rows, k);
    if e :| Row(k, e) in rows && InForce(e, now) {
      RowIsLookup(rows, Row(k, e));
    }
  }

  ghost predicate Ascending(keys: seq<Key>) {
    forall i, j :: 0 <= i < j < |keys| ==> Less(keys[i], keys[j])
  }

  lemma {:induction false} MatchesAscend(rows: seq<Row<KvEntry>>, prefix: Key, now: nat)
    requires Sorted(rows)
    ensures Ascending(Matches(rows, prefix, now))
    ensures forall k :: k in Matches(rows, prefix, now) ==> exists i :: 0 <= i < |rows| && rows[i].key == k
    decreases |rows|
  {
    if rows != [] {
      SortedTail(rows);
      MatchesAscend(rows[1..], prefix, now);
      var rest := Matches(rows[1..], prefix, now);
      forall k | k in rest
        ensures Less(rows[0].key, k)
      {
        var i :| 0 <= i < |rows[1..]| && rows[1..][i].key == k;
        assert rows[i + 1].key == k;
      }
      forall k | k in Matches(rows, prefix, now)
        ensures exists i :: 0 <= i < |rows| && rows[i].key == k
      {
        if k in rest {
          var i :| 0 <= i < |rows[1..]| && rows[1..][i].key == k;
          assert rows[i + 1].key == k;
        } else {
          assert rows[0].key == k;
        }
      }
    }
  }

  /**
  A listing, exactly: keys with the prefix and a value in force, in ascending order, at
  most `limit` of them; one is missing only when the limit is reached, and then it comes
  after every key listed.
  */
  lemma ListExactly(rows: seq<Row<KvEntry>>, prefix: Key, now: nat, limit: nat)
    requires Sorted(rows)
    ensures var keys := Capped(Matches(rows, prefix, now), limit);
            && |keys| <= limit && Ascending(keys)
            && (forall k :: k in keys ==> Offered(rows, prefix, now, k))
            && (forall k :: Offered(rows, prefix, now, k) && k !in keys ==>
                  |keys| == limit && forall j :: j in keys ==> Less(j, k))
  {
    hide Offered, Matches;
    var all := Matches(rows, prefix, now);
    var keys := Capped(all, limit);
    MatchesAscend(rows, prefix, now);
    forall k
      ensures Offered(rows, prefix, now, k) <==> k in all
    {
      OfferedIsRead(rows, prefix, now, k);
      MatchesExactly(rows, prefix, now, k);
    }
    forall k | k in all && k !in keys
      ensures |keys| == limit && forall j :: j in keys ==> Less(j, k)
    {
      var i :| 0 <= i < |all| && all[i] == k;
      assert forall n :: 0 <= n < |keys| ==> keys[n] == all[n] && keys[n] in keys;
    }
  }

  // ---------------------------------------------------------------- collection

  /** Collection drops a row if and only if it is a tombstone or an expired value, and has been for the horizon. */
  lemma GcDropsExactly(rows: seq<Row<KvEntry>>, now: nat, horizon: nat, k: Key)
    requires Sorted(rows) && Lookup(rows, k).Some?
    ensures var e, left := Lookup(rows, k).value, Lookup(Collected(rows, now, horizon), k);
            && (left.None? <==>
                  || (e.value.None? && (horizon == 0 || now >= e.hlc.wall + horizon))
                  || (e.value.Some? && e.expires.Some? && now >= e.expires.value + horizon))
            && (left.Some? ==> left.value == e)
  {
    CollectedLookup(rows, now, horizon, k);
  }

  // ---------------------------------------------------------------- what a dump reports

  /** How many of the items change the rows when merged one after the other. */
  function Changes(d: Digest, rows: seq<Row<KvEntry>>, ws: seq<Row<KvEntry>>): nat
    decreases |ws|
  {
    if ws == [] then 0
    else
      var after := MergeOne(d, rows, ws[0].key, ws[0].value);
      (if after != rows then 1 else 0) + Changes(d, after, ws[1..])
  }

  /** The number a dump reports is the number of items that changed something. */
  lemma {:induction false} ReportsChanges(d: Digest, rows: seq<Row<KvEntry>>, ws: seq<Row<KvEntry>>)
    ensures CountWins(d, rows, ws) == Changes(d, rows, ws)
    decreases |ws|
  {
    if ws != [] {
      LookupPut(rows, ws[0].key, ws[0].value, ws[0].key);
      ReportsChanges(d, MergeOne(d, rows, ws[0].key, ws[0].value), ws[1..]);
    }
  }

  // ---------------------------------------------------------------- rank

  /** `e` ranks no higher than `f`: an earlier timestamp, then a lower writer, then no larger a digest. */
  predicate NoHigher(d: Digest, e: KvEntry, f: KvEntry) {
    || Before(e.hlc, f.hlc)
    || (e.hlc == f.hlc && e.writer < f.writer)
    || (e.hlc == f.hlc && e.writer == f.writer && d(Preimage(e)) <= d(Preimage(f)))
  }

  /** What is held after any merges is one of the writes, and every other ranks no higher. */
  lemma HeldIsGreatest(d: Digest, ws: seq<Row<KvEntry>>, k: Key)
    ensures var r := Lookup(MergeAll(d, [], ws), k);
            && (r.None? <==> forall w :: w in ws ==> w.key != k)
            && (r.Some? ==> Row(k, r.value) in ws && forall w :: w in ws && w.key == k ==> NoHigher(d, w.value, r.value))
  {
    MergedChampion(d, [], ws, k);
  }

  /** Of two writes at one moment the higher writer's is held, whichever comes first. */
  lemma HigherWriterWins(d: Digest, k: Key, e: KvEntry, f: KvEntry)
    requires e.hlc == f.hlc && e.writer < f.writer
    ensures Lookup(MergeAll(d, [], [Row(k, e), Row(k, f)]), k) == Some(f)
    ensures Lookup(MergeAll(d, [], [Row(k, f), Row(k, e)]), k) == Some(f)
  {
    assert Row(k, f) in [Row(k, e), Row(k, f)] && Row(k, f) in [Row(k, f), Row(k, e)];
    HeldIsGreatest(d, [Row(k, e), Row(k, f)], k);
    HeldIsGreatest(d, [Row(k, f), Row(k, e)], k);
  }

  // ---------------------------------------------------------------- what the digest is taken of

  /** 256 to the power `width`. */
  function Span(width: nat): (p: nat)
    ensures p > 0
  {
    if width == 0 then 1 else 256 * Span(width - 1)
  }

  const U64_LIMIT: nat := 0x1_0000_0000_0000_0000

  lemma EightBytes()
    ensures Span(8) == U64_LIMIT
  {
    assert Span(4) == 0x1_0000_0000;
    assert Span(6) == 0x1_0000_0000_0000;
  }

  lemma {:induction false} LeBytesLength(n: nat, width: nat)
    ensures |LeBytes(n, width)| == width
    decreases width
  {
    if width > 0 {
      LeBytesLength(n / 256, width - 1);
    }
  }

  lemma {:induction false} LeBytesTell(a: nat, b: nat, width: nat)
    requires a < Span(width) && b < Span(width) && LeBytes(a, width) == LeBytes(b, width)
    ensures a == b
    decreases width
  {
    if width > 0 {
      var x, y := LeBytes(a / 256, width - 1), LeBytes(b / 256, width - 1);
      assert LeBytes(a, width)[0] == LeBytes(b, width)[0];
      assert x == LeBytes(a, width)[1..] == LeBytes(b, width)[1..] == y;
      LeBytesTell(a / 256, b / 256, width - 1);
    }
  }

  /** Bytes the digest sees for the value alone. */
  function Tagged(e: KvEntry): seq<Byte> {
    if e.value.Some? then [1] + e.value.value else [0]
  }

  lemma TagsTell(e: KvEntry, f: KvEntry)
    ensures Tagged(e) == Tagged(f) <==> e.value == f.value
  {
    assert Tagged(e)[0] == if e.value.Some? then 1 else 0;
    assert Tagged(f)[0] == if f.value.Some? then 1 else 0;
    assert e.value.Some? ==> Tagged(e)[1..] == e.value.value;
    assert f.value.Some? ==> Tagged(f)[1..] == f.value.value;
  }

  /**
  Among writes that all expire, or all do not, the digest is taken of different bytes
  for different contents; `TieNotBroken` shows that a mix can coincide.
  */
  lemma ContentsTold(e: KvEntry, f: KvEntry)
    requires e.expires.Some? <==> f.expires.Some?
    requires e.expires.Some? ==> e.expires.value < U64_LIMIT && f.expires.value < U64_LIMIT
    ensures Preimage(e) == Preimage(f) <==> e.value == f.value && e.expires == f.expires
  {
    hide LeBytes, Span;
    EightBytes();
    if Preimage(e) == Preimage(f) {
      if e.expires.Some? {
        var x, y := LeBytes(e.expires.value, 8), LeBytes(f.expires.value, 8);
        LeBytesLength(e.expires.value, 8);
        LeBytesLength(f.expires.value, 8);
        SameTails(Tagged(e), x, Tagged(f), y);
        LeBytesTell(e.expires.value, f.expires.value, 8);
      } else {
        assert Preimage(e) == Tagged(e) && Preimage(f) == Tagged(f);
      }
      TagsTell(e, f);
    }
  }

  lemma SameTails(a: seq<Byte>, x: seq<Byte>, b: seq<Byte>, y: seq<Byte>)
    requires a + x == b + y && |x| == |y|
    ensures a == b && x == y
  {
    assert |a| == |b|;
    assert a == (a + x)[..|a|] && b == (b + y)[..|b|];
    assert x == (a + x)[|a|..] && y == (b + y)[|b|..];
  }
}
