/**
The key-value namespace: one last-write-wins register per key.

Writes are ranked by timestamp, then writer, then a digest of the content.
Replicas that have seen the same writes, in any order and any number of times,
hold the same rows, exactly as long as the top rank of each key belongs to one
write.
*/
module Kv {
  import opened Options
  import opened HybridClock
  import opened SortedMap

  type Byte = b: int | 0 <= b < 256
  type Digest = seq<Byte> -> nat

  /** A value of `None` is a tombstone. */
  datatype KvEntry = KvEntry(hlc: Hlc, writer: nat, value: Option<seq<Byte>>, expires: Option<nat>)

  function LeBytes(n: nat, width: nat): seq<Byte> {
    if width == 0 then [] else [n % 256] + LeBytes(n / 256, width - 1)
  }

  /** What the content digest is taken of. */
  function Preimage(e: KvEntry): seq<Byte> {
    (if e.value.Some? then [1] + e.value.value else [0]) + (if e.expires.Some? then LeBytes(e.expires.value, 8) else [])
  }

  predicate Beats(d: Digest, e: KvEntry, f: KvEntry) {
    || Before(f.hlc, e.hlc)
    || (e.hlc == f.hlc && e.writer > f.writer)
    || (e.hlc == f.hlc && e.writer == f.writer && d(Preimage(e)) > d(Preimage(f)))
  }

  predicate SameRank(d: Digest, e: KvEntry, f: KvEntry) {
    e.hlc == f.hlc && e.writer == f.writer && d(Preimage(e)) == d(Preimage(f))
  }

  function Visible(e: KvEntry, now: nat): Option<seq<Byte>> {
    if e.value.Some? && !(e.expires.Some? && now >= e.expires.value) then e.value else None
  }

  function Read(rows: seq<Row<KvEntry>>, k: Key, now: nat): Option<seq<Byte>> {
    var e := Lookup(rows, k);
    if e.Some? then Visible(e.value, now) else None
  }

  predicate Wins(d: Digest, rows: seq<Row<KvEntry>>, k: Key, e: KvEntry) {
    var existing := Lookup(rows, k);
    existing.None? || Beats(d, e, existing.value)
  }

  function MergeOne(d: Digest, rows: seq<Row<KvEntry>>, k: Key, e: KvEntry): seq<Row<KvEntry>> {
    if Wins(d, rows, k, e) then SortedMap.Put(rows, k, e) else rows
  }

  function MergeAll(d: Digest, rows: seq<Row<KvEntry>>, ws: seq<Row<KvEntry>>): seq<Row<KvEntry>>
    decreases |ws|
  {
    if ws == [] then rows else MergeAll(d, MergeOne(d, rows, ws[0].key, ws[0].value), ws[1..])
  }

  function CountWins(d: Digest, rows: seq<Row<KvEntry>>, ws: seq<Row<KvEntry>>): nat
    decreases |ws|
  {
    if ws == [] then 0
    else (if Wins(d, rows, ws[0].key, ws[0].value) then 1 else 0)
         + CountWins(d, MergeOne(d, rows, ws[0].key, ws[0].value), ws[1..])
  }

  /** Tombstones and expired values that have been dead for `horizon` or longer are dropped. */
  predicate Keeps(e: KvEntry, now: nat, horizon: nat) {
    var dead := if e.value.None? then Some(e.hlc.wall)
                else if e.expires.Some? && now >= e.expires.value then e.expires
                else None;
    dead.Some? ==> (if now >= dead.value then now - dead.value else 0) < horizon
  }

  function Collected(rows: seq<Row<KvEntry>>, now: nat, horizon: nat): seq<Row<KvEntry>> {
    if rows == [] then []
    else (if Keeps(rows[0].value, now, horizon) then [rows[0]] else []) + Collected(rows[1..], now, horizon)
  }

  predicate Listed(r: Row<KvEntry>, prefix: Key, now: nat) {
    prefix <= r.key && Visible(r.value, now).Some?
  }

  /** Every visible key with the prefix, in order. */
  function Matches(rows: seq<Row<KvEntry>>, prefix: Key, now: nat): seq<Key> {
    if rows == [] then []
    else (if Listed(rows[0], prefix, now) then [rows[0].key] else []) + Matches(rows[1..], prefix, now)
  }

  function Capped(keys: seq<Key>, limit: nat): seq<Key> {
    if |keys| <= limit then keys else keys[..limit]
  }

  class Namespace {
    const digest: Digest
    var rows: seq<Row<KvEntry>>

    ghost predicate Valid()
      reads this
    {
      Sorted(rows)
    }

    constructor (digest: Digest)
      ensures Valid() && rows == [] && this.digest == digest
    {
      this.digest := digest;
      rows := [];
    }

    method Put(key: Key, value: Option<seq<Byte>>, hlc: Hlc, writer: nat, expires: Option<nat>) returns (e: KvEntry)
      requires Valid()
      modifies this`rows
      ensures Valid() && e == KvEntry(hlc, writer, value, expires) && rows == SortedMap.Put(old(rows), key, e)
    {
      e := KvEntry(hlc, writer, value, expires);
      PutSorted(rows, key, e);
      rows := SortedMap.Put(rows, key, e);
    }

    method Merge(key: Key, incoming: KvEntry) returns (applied: bool)
      requires Valid()
      modifies this`rows
      ensures Valid() && rows == MergeOne(digest, old(rows), key, incoming)
      ensures applied <==> Wins(digest, old(rows), key, incoming)
    {
      var existing := Lookup(rows, key);
      if existing.Some? && !Beats(digest, incoming, existing.value) {
        return false;
      }
      PutSorted(rows, key, incoming);
      rows := SortedMap.Put(rows, key, incoming);
      return true;
    }

    method ApplyDump(items: seq<Row<KvEntry>>) returns (applied: nat)
      requires Valid()
      modifies this`rows
      ensures Valid() && rows == MergeAll(digest, old(rows), items) && applied == CountWins(digest, old(rows), items)
    {
      applied := 0;
      for i := 0 to |items|
        invariant Valid()
        invariant MergeAll(digest, rows, items[i..]) == MergeAll(digest, old(rows), items)
        invariant applied + CountWins(digest, rows, items[i..]) == CountWins(digest, old(rows), items)
      {
        assert items[i..][1..] == items[i + 1..];
        var won := Merge(items[i].key, items[i].value);
        if won {
          applied := applied + 1;
        }
      }
      assert items[|items|..] == [];
    }

    method Gc(now: nat, horizon: nat) returns (dropped: nat)
      requires Valid()
      modifies this`rows
      ensures Valid() && rows == Collected(old(rows), now, horizon) && dropped == |old(rows)| - |rows|
    {
      hide Keeps, Sorted;
      var before := rows;
      var kept: seq<Row<KvEntry>> := [];
      for i := 0 to |before|
        invariant |kept| <= i
        invariant kept + Collected(before[i..], now, horizon) == Collected(before, now, horizon)
      {
        assert before[i..][1..] == before[i + 1..];
        if Keeps(before[i].value, now, horizon) {
          kept := kept + [before[i]];
        }
      }
      assert before[|before|..] == [];
      assert kept == Collected(before, now, horizon);
      CollectedSorted(before, now, horizon);
      rows := kept;
      dropped := |before| - |kept|;
    }

    /** The first row whose key is not below the prefix; nothing before it can match. */
    method RangeStart(prefix: Key, now: nat) returns (i: nat)
      requires Valid()
      ensures i <= |rows| && (i < |rows| ==> !Less(rows[i].key, prefix))
      ensures Matches(rows[i..], prefix, now) == Matches(rows, prefix, now)
    {
      hide Less, Visible, Sorted;
      i := 0;
      while i < |rows| && Less(rows[i].key, prefix)
        invariant i <= |rows| && Matches(rows[i..], prefix, now) == Matches(rows, prefix, now)
      {
        BelowPrefix(rows[i].key, prefix);
        assert rows[i..][1..] == rows[i + 1..];
        i := i + 1;
      }
    }

    /** Start at the first key not below the prefix, stop at the first key without it. */
    method List(prefix: Key, now: nat, limit: nat) returns (keys: seq<Key>)
      requires Valid()
      ensures keys == Capped(Matches(rows, prefix, now), limit)
    {
      hide Less, Visible, Matches, Sorted, Listed;
      var i := RangeStart(prefix, now);
      keys := [];
      while i < |rows| && prefix <= rows[i].key && |keys| < limit
        invariant i <= |rows| && |keys| <= limit
        invariant i < |rows| ==> !Less(rows[i].key, prefix)
        invariant keys + Matches(rows[i..], prefix, now) == Matches(rows, prefix, now)
      {
        MatchesStep(rows, i, prefix, now);
        StaysAbove(prefix, rows, i);
        if Visible(rows[i].value, now).Some? {
          keys := keys + [rows[i].key];
        }
        i := i + 1;
      }
      if |keys| < limit {
        RestMatchesNothing(rows, i, prefix, now);
      }
    }
  }

  // ---------------------------------------------------------------- listing

  lemma {:induction false} BelowPrefix(k: Key, prefix: Key)
    requires Less(k, prefix)
    ensures !(prefix <= k)
  {
    if prefix <= k && k != [] && k[0] == prefix[0] {
      BelowPrefix(k[1..], prefix[1..]);
    }
  }

  lemma StaysAbove(prefix: Key, rows: seq<Row<KvEntry>>, i: nat)
    requires Sorted(rows) && i < |rows| && !Less(rows[i].key, prefix)
    ensures i + 1 < |rows| ==> !Less(rows[i + 1].key, prefix)
  {
    if i + 1 < |rows| && Less(rows[i + 1].key, prefix) {
      LessTransitive(rows[i].key, rows[i + 1].key, prefix);
    }
  }

  lemma MatchesStep(rows: seq<Row<KvEntry>>, i: nat, prefix: Key, now: nat)
    requires i < |rows| && prefix <= rows[i].key
    ensures Matches(rows[i..], prefix, now)
         == (if Visible(rows[i].value, now).Some? then [rows[i].key] else []) + Matches(rows[i + 1..], prefix, now)
  {
    assert rows[i..][1..] == rows[i + 1..];
  }

  /** Between a key that is not below the prefix and one that has it, every key has it. */
  lemma {:induction false} PrefixesContiguous(prefix: Key, a: Key, b: Key)
    requires !Less(a, prefix) && Less(a, b) && prefix <= b
    ensures prefix <= a
  {
    if prefix != [] {
      assert a != [] && a[0] == prefix[0];
      PrefixesContiguous(prefix[1..], a[1..], b[1..]);
      assert prefix == [prefix[0]] + prefix[1..] && a == [a[0]] + a[1..];
    }
  }

  lemma {:induction false} NoMatches(rows: seq<Row<KvEntry>>, prefix: Key, now: nat)
    requires forall r :: r in rows ==> !(prefix <= r.key)
    ensures Matches(rows, prefix, now) == []
    decreases |rows|
  {
    if rows != [] {
      NoMatches(rows[1..], prefix, now);
    }
  }

  /** Once a key without the prefix follows, no later key has it. */
  lemma NothingFurther(rows: seq<Row<KvEntry>>, i: nat, prefix: Key, now: nat)
    requires Sorted(rows) && i < |rows| && !Less(rows[i].key, prefix) && !(prefix <= rows[i].key)
    ensures Matches(rows[i..], prefix, now) == []
  {
    forall r | r in rows[i..]
      ensures !(prefix <= r.key)
    {
      var j :| 0 <= j < |rows[i..]| && rows[i..][j] == r;
      if j > 0 && prefix <= r.key {
        assert rows[i + j] == r;
        PrefixesContiguous(prefix, rows[i].key, r.key);
      }
    }
    NoMatches(rows[i..], prefix, now);
  }

  lemma RestMatchesNothing(rows: seq<Row<KvEntry>>, i: nat, prefix: Key, now: nat)
    requires Sorted(rows) && i <= |rows| && (i < |rows| ==> !Less(rows[i].key, prefix) && !(prefix <= rows[i].key))
    ensures Matches(rows[i..], prefix, now) == []
  {
    if i < |rows| {
      NothingFurther(rows, i, prefix, now);
    }
  }

  /** The listing is complete and sound: exactly the readable keys with the prefix. */
  lemma {:induction false} MatchesExactly(rows: seq<Row<KvEntry>>, prefix: Key, now: nat, k: Key)
    requires Sorted(rows)
    ensures k in Matches(rows, prefix, now) <==> prefix <= k && Read(rows, k, now).Some?
    decreases |rows|
  {
    if rows != [] {
      SortedTail(rows);
      MatchesExactly(rows[1..], prefix, now, k);
      if k == rows[0].key {
        AbsentBelow(rows[1..], k);
      }
    }
  }

  // ---------------------------------------------------------------- collection

  lemma {:induction false} CollectedRows(rows: seq<Row<KvEntry>>, now: nat, horizon: nat)
    ensures forall r :: r in Collected(rows, now, horizon) <==> r in rows && Keeps(r.value, now, horizon)
    decreases |rows|
  {
    if rows != [] {
      CollectedRows(rows[1..], now, horizon);
      assert rows == [rows[0]] + rows[1..];
    }
  }

  lemma {:induction false} CollectedSorted(rows: seq<Row<KvEntry>>, now: nat, horizon: nat)
    requires Sorted(rows)
    ensures Sorted(Collected(rows, now, horizon))
    decreases |rows|
  {
    if rows != [] {
      SortedTail(rows);
      CollectedSorted(rows[1..], now, horizon);
      CollectedRows(rows[1..], now, horizon);
      SortedCons(rows[0], Collected(rows[1..], now, horizon));
      assert [] + Collected(rows[1..], now, horizon) == Collected(rows[1..], now, horizon);
    }
  }

  lemma CollectedLookup(rows: seq<Row<KvEntry>>, now: nat, horizon: nat, k: Key)
    requires Sorted(rows)
    ensures var e := Lookup(rows, k);
            Lookup(Collected(rows, now, horizon), k) == if e.Some? && Keeps(e.value, now, horizon) then e else None
  {
    var rest := Collected(rows, now, horizon);
    CollectedRows(rows, now, horizon);
    CollectedSorted(rows, now, horizon);
    LookupIn(rows, k);
    LookupIn(rest, k);
    if Lookup(rest, k).Some? {
      RowIsLookup(rows, Row(k, Lookup(rest, k).value));
    } else if Lookup(rows, k).Some? {
      assert Row(k, Lookup(rows, k).value) !in rest;
    }
  }

  /** Collection is invisible to every reader from then on. */
  lemma GcInvisible(rows: seq<Row<KvEntry>>, now: nat, horizon: nat, k: Key, later: nat)
    requires Sorted(rows) && later >= now
    ensures Read(Collected(rows, now, horizon), k, later) == Read(rows, k, later)
  {
    CollectedLookup(rows, now, horizon, k);
  }

  /** Collection is invisible to every later listing. */
  lemma {:induction false} GcListInvisible(rows: seq<Row<KvEntry>>, now: nat, horizon: nat, prefix: Key, later: nat)
    requires later >= now
    ensures Matches(Collected(rows, now, horizon), prefix, later) == Matches(rows, prefix, later)
    decreases |rows|
  {
    if rows != [] {
      hide Keeps, Listed;
      GcListInvisible(rows[1..], now, horizon, prefix, later);
      var rest := Collected(rows[1..], now, horizon);
      DroppedIsUnlisted(rows[0], now, horizon, prefix, later);
      if Keeps(rows[0].value, now, horizon) {
        assert ([rows[0]] + rest)[1..] == rest;
      } else {
        assert [] + rest == rest;
      }
    }
  }

  lemma DroppedIsUnlisted(r: Row<KvEntry>, now: nat, horizon: nat, prefix: Key, later: nat)
    requires later >= now
    ensures !Keeps(r.value, now, horizon) ==> !Listed(r, prefix, later)
  {
  }

  /** A deleted key comes back through an older write if and only if its tombstone was collected. */
  lemma ResurrectsExactly(d: Digest, rows: seq<Row<KvEntry>>, now: nat, horizon: nat, k: Key, e: KvEntry)
    requires Sorted(rows) && Lookup(rows, k).Some? && Lookup(rows, k).value.value.None?
    requires !Beats(d, e, Lookup(rows, k).value) && Visible(e, now).Some?
    ensures Read(MergeOne(d, rows, k, e), k, now) == None
    ensures Read(MergeOne(d, Collected(rows, now, horizon), k, e), k, now).Some?
        <==> now >= Lookup(rows, k).value.hlc.wall + horizon || horizon == 0
  {
    CollectedLookup(rows, now, horizon, k);
    LookupPut(Collected(rows, now, horizon), k, e, k);
  }

  // ---------------------------------------------------------------- convergence

  lemma {:induction false} MergeAllSorted(d: Digest, rows: seq<Row<KvEntry>>, ws: seq<Row<KvEntry>>)
    requires Sorted(rows)
    ensures Sorted(MergeAll(d, rows, ws))
    decreases |ws|
  {
    if ws != [] {
      PutSorted(rows, ws[0].key, ws[0].value);
      MergeAllSorted(d, MergeOne(d, rows, ws[0].key, ws[0].value), ws[1..]);
    }
  }

  /** `r` is what a replica must hold for `k` after `cur` and the writes `ws`: one of them, beaten by none. */
  ghost predicate Champion(d: Digest, cur: Option<KvEntry>, ws: seq<Row<KvEntry>>, k: Key, r: Option<KvEntry>) {
    && (r.None? ==> cur.None? && forall w :: w in ws ==> w.key != k)
    && (r.Some? ==>
          && (r == cur || Row(k, r.value) in ws)
          && (cur.Some? ==> !Beats(d, cur.value, r.value))
          && (forall w :: w in ws && w.key == k ==> !Beats(d, w.value, r.value)))
  }

  /** After any sequence of merges every key holds its champion. */
  lemma {:induction false} MergedChampion(d: Digest, rows: seq<Row<KvEntry>>, ws: seq<Row<KvEntry>>, k: Key)
    ensures Champion(d, Lookup(rows, k), ws, k, Lookup(MergeAll(d, rows, ws), k))
    decreases |ws|
  {
    if ws != [] {
      var w := ws[0];
      var rows' := MergeOne(d, rows, w.key, w.value);
      LookupPut(rows, w.key, w.value, k);
      MergedChampion(d, rows', ws[1..], k);
      assert ws == [w] + ws[1..];
    }
  }

  /** Nothing written to the key beats this write. */
  ghost predicate Unbeaten(d: Digest, ws: seq<Row<KvEntry>>, w: Row<KvEntry>) {
    w in ws && forall v :: v in ws && v.key == w.key ==> !Beats(d, v.value, w.value)
  }

  /** The top rank of each key belongs to one write. */
  ghost predicate TopsUnique(d: Digest, ws: seq<Row<KvEntry>>) {
    forall v, w :: Unbeaten(d, ws, v) && Unbeaten(d, ws, w) && v.key == w.key ==> v == w
  }

  /** Equal ranks at one key mean equal writes. */
  ghost predicate Identified(d: Digest, ws: seq<Row<KvEntry>>) {
    forall v, w :: v in ws && w in ws && v.key == w.key && SameRank(d, v.value, w.value) ==> v == w
  }

  lemma IdentifiedTops(d: Digest, ws: seq<Row<KvEntry>>)
    requires Identified(d, ws)
    ensures TopsUnique(d, ws)
  {
    forall v, w | Unbeaten(d, ws, v) && Unbeaten(d, ws, w) && v.key == w.key
      ensures v == w
    {
      assert SameRank(d, v.value, w.value);
    }
  }

  ghost predicate SameWrites(a: seq<Row<KvEntry>>, b: seq<Row<KvEntry>>) {
    forall w :: w in a <==> w in b
  }

  lemma ChampionUnique(d: Digest, a: seq<Row<KvEntry>>, b: seq<Row<KvEntry>>, k: Key, r: Option<KvEntry>,
          s: Option<KvEntry>)
    requires SameWrites(a, b) && TopsUnique(d, a) && Champion(d, None, a, k, r) && Champion(d, None, b, k, s)
    ensures r == s
  {
    if r.Some? {
      assert Row(k, r.value) in b;
    }
    if s.Some? {
      assert Row(k, s.value) in a;
    }
    if r.Some? && s.Some? {
      assert Unbeaten(d, a, Row(k, r.value)) && Unbeaten(d, a, Row(k, s.value));
    }
  }

  /** Strong convergence: the same writes, in any order and repeated at will, give the same rows. */
  lemma Converges(d: Digest, a: seq<Row<KvEntry>>, b: seq<Row<KvEntry>>)
    requires SameWrites(a, b) && TopsUnique(d, a)
    ensures MergeAll(d, [], a) == MergeAll(d, [], b)
  {
    MergeAllSorted(d, [], a);
    MergeAllSorted(d, [], b);
    forall k
      ensures Lookup(MergeAll(d, [], a), k) == Lookup(MergeAll(d, [], b), k)
    {
      MergedChampion(d, [], a, k);
      MergedChampion(d, [], b, k);
      ChampionUnique(d, a, b, k, Lookup(MergeAll(d, [], a), k), Lookup(MergeAll(d, [], b), k));
    }
    SameLookups(MergeAll(d, [], a), MergeAll(d, [], b));
  }

  /** An entry that nothing merged beats stays. */
  lemma {:induction false} UnbeatenStays(d: Digest, rows: seq<Row<KvEntry>>, ws: seq<Row<KvEntry>>, k: Key, e: KvEntry)
    requires Lookup(rows, k) == Some(e) && forall w :: w in ws && w.key == k ==> !Beats(d, w.value, e)
    ensures Lookup(MergeAll(d, rows, ws), k) == Some(e)
    decreases |ws|
  {
    if ws != [] {
      var w := ws[0];
      LookupPut(rows, w.key, w.value, k);
      UnbeatenStays(d, MergeOne(d, rows, w.key, w.value), ws[1..], k, e);
    }
  }

  /** A write nothing beats is what the replica ends with that hears it first. */
  lemma FirstHeardWins(d: Digest, ws: seq<Row<KvEntry>>, w: Row<KvEntry>)
    requires Unbeaten(d, ws, w)
    ensures SameWrites([w] + ws, ws) && Lookup(MergeAll(d, [], [w] + ws), w.key) == Some(w.value)
  {
    var rows := MergeOne(d, [], w.key, w.value);
    LookupPut([], w.key, w.value, w.key);
    assert ([w] + ws)[1..] == ws;
    UnbeatenStays(d, rows, ws, w.key, w.value);
  }

  ghost predicate OrderFree(d: Digest, ws: seq<Row<KvEntry>>) {
    forall a, b {:trigger SameWrites(a, ws), SameWrites(b, ws)} ::
      SameWrites(a, ws) && SameWrites(b, ws) ==> MergeAll(d, [], a) == MergeAll(d, [], b)
  }

  lemma TopsAgree(d: Digest, ws: seq<Row<KvEntry>>, v: Row<KvEntry>, w: Row<KvEntry>)
    requires OrderFree(d, ws) && Unbeaten(d, ws, v) && Unbeaten(d, ws, w) && v.key == w.key
    ensures v == w
  {
    hide MergeAll, Lookup, SameWrites, Unbeaten;
    FirstHeardWins(d, ws, v);
    FirstHeardWins(d, ws, w);
  }

  /** For every set of writes: all orders give the same rows if and only if each key's top rank belongs to one write. */
  lemma ConvergesExactly(d: Digest, ws: seq<Row<KvEntry>>)
    ensures OrderFree(d, ws) <==> TopsUnique(d, ws)
  {
    hide MergeAll, SameWrites, Unbeaten;
    if OrderFree(d, ws) {
      forall v, w | Unbeaten(d, ws, v) && Unbeaten(d, ws, w) && v.key == w.key
        ensures v == w
      {
        TopsAgree(d, ws, v, w);
      }
    }
    if TopsUnique(d, ws) {
      forall a, b | SameWrites(a, ws) && SameWrites(b, ws)
        ensures MergeAll(d, [], a) == MergeAll(d, [], b)
      {
        SameBack(a, ws);
        SameBack(b, ws);
        Converges(d, ws, a);
        Converges(d, ws, b);
      }
    }
  }

  lemma SameBack(a: seq<Row<KvEntry>>, b: seq<Row<KvEntry>>)
    requires SameWrites(a, b)
    ensures SameWrites(b, a)
  {
  }

  /** Last write wins: the write with the latest timestamp is what every replica ends with. */
  lemma LatestWriteWins(d: Digest, ws: seq<Row<KvEntry>>, k: Key, e: KvEntry)
    requires Row(k, e) in ws && forall w :: w in ws && w.key == k && w.value != e ==> Before(w.value.hlc, e.hlc)
    ensures Lookup(MergeAll(d, [], ws), k) == Some(e)
  {
    MergedChampion(d, [], ws, k);
    var r := Lookup(MergeAll(d, [], ws), k);
    assert r.Some? && Row(k, r.value) in ws;
    assert !Beats(d, e, r.value);
  }

  lemma {:induction false} MergedRows(d: Digest, rows: seq<Row<KvEntry>>, ws: seq<Row<KvEntry>>)
    ensures forall r :: r in MergeAll(d, rows, ws) ==> r in rows || r in ws
    decreases |ws|
  {
    if ws != [] {
      PutRows(rows, ws[0].key, ws[0].value);
      MergedRows(d, MergeOne(d, rows, ws[0].key, ws[0].value), ws[1..]);
    }
  }

  lemma DumpChampion(d: Digest, a: seq<Row<KvEntry>>, b: seq<Row<KvEntry>>, k: Key)
    ensures var ra, rb := MergeAll(d, [], a), MergeAll(d, [], b);
            Champion(d, None, a + b, k, Lookup(MergeAll(d, ra, rb), k))
  {
    var ra, rb := MergeAll(d, [], a), MergeAll(d, [], b);
    var r := Lookup(MergeAll(d, ra, rb), k);
    MergedChampion(d, [], a, k);
    MergedChampion(d, [], b, k);
    MergedChampion(d, ra, rb, k);
    MergedRows(d, [], b);
    LookupIn(rb, k);
    if r.Some? {
      forall w | w in a + b && w.key == k
        ensures !Beats(d, w.value, r.value)
      {
        if w in b {
          assert Lookup(rb, k).Some?;
          assert Row(k, Lookup(rb, k).value) in rb;
        }
      }
    }
  }

  /** Anti-entropy: after each replica merges the other's dump, both hold what all writes together give. */
  lemma DumpsReconcile(d: Digest, a: seq<Row<KvEntry>>, b: seq<Row<KvEntry>>)
    requires TopsUnique(d, a + b)
    ensures var ra, rb := MergeAll(d, [], a), MergeAll(d, [], b);
            MergeAll(d, ra, rb) == MergeAll(d, rb, ra) == MergeAll(d, [], a + b)
  {
    var ra, rb, all := MergeAll(d, [], a), MergeAll(d, [], b), MergeAll(d, [], a + b);
    MergeAllSorted(d, [], a);
    MergeAllSorted(d, [], b);
    MergeAllSorted(d, [], a + b);
    MergeAllSorted(d, ra, rb);
    MergeAllSorted(d, rb, ra);
    forall k
      ensures Lookup(MergeAll(d, ra, rb), k) == Lookup(all, k) == Lookup(MergeAll(d, rb, ra), k)
    {
      MergedChampion(d, [], a + b, k);
      DumpChampion(d, a, b, k);
      DumpChampion(d, b, a, k);
      ChampionUnique(d, a + b, a + b, k, Lookup(MergeAll(d, ra, rb), k), Lookup(all, k));
      assert SameWrites(a + b, b + a);
      ChampionUnique(d, a + b, b + a, k, Lookup(all, k), Lookup(MergeAll(d, rb, ra), k));
    }
    SameLookups(MergeAll(d, ra, rb), all);
    SameLookups(MergeAll(d, rb, ra), all);
  }

  /** Two writes to one key commute if and only if they are equal or differently ranked. */
  lemma CommutesExactly(d: Digest, k: Key, e: KvEntry, f: KvEntry)
    ensures MergeAll(d, [], [Row(k, e), Row(k, f)]) == MergeAll(d, [], [Row(k, f), Row(k, e)])
        <==> e == f || !SameRank(d, e, f)
  {
    TwoMerges(d, k, e, f);
    TwoMerges(d, k, f, e);
  }

  lemma TwoMerges(d: Digest, k: Key, e: KvEntry, f: KvEntry)
    ensures MergeAll(d, [], [Row(k, e), Row(k, f)]) == [Row(k, if Beats(d, f, e) then f else e)]
  {
    var ws := [Row(k, e), Row(k, f)];
    assert ws[1..] == [Row(k, f)] && [Row(k, f)][1..] == [];
    assert MergeOne(d, [], k, e) == [Row(k, e)];
    assert MergeAll(d, MergeOne(d, [Row(k, e)], k, f), []) == MergeOne(d, [Row(k, e)], k, f);
    assert MergeAll(d, [Row(k, e)], [Row(k, f)]) == MergeOne(d, [Row(k, e)], k, f);
  }

  /** The digest does not delimit the value from the expiry, so two different writes can tie under every digest. */
  lemma TieNotBroken(d: Digest, k: Key, hlc: Hlc, writer: nat) returns (e: KvEntry, f: KvEntry)
    ensures e != f && e.hlc == f.hlc == hlc && e.writer == f.writer == writer
    ensures MergeAll(d, [], [Row(k, e), Row(k, f)]) != MergeAll(d, [], [Row(k, f), Row(k, e)])
  {
    var expiry := 1000;
    e := KvEntry(hlc, writer, Some([]), Some(expiry));
    f := KvEntry(hlc, writer, Some(LeBytes(expiry, 8)), None);
    assert [1] + [] + LeBytes(expiry, 8) == [1] + LeBytes(expiry, 8) + [];
    CommutesExactly(d, k, e, f);
  }

  /** A local write is the same as merging it if and only if it beats what is there or is already there. */
  lemma PutIsMergeExactly(d: Digest, rows: seq<Row<KvEntry>>, k: Key, e: KvEntry)
    requires Sorted(rows)
    ensures SortedMap.Put(rows, k, e) == MergeOne(d, rows, k, e)
        <==> Wins(d, rows, k, e) || Lookup(rows, k) == Some(e)
  {
    LookupPut(rows, k, e, k);
    if Lookup(rows, k) == Some(e) {
      PutSorted(rows, k, e);
      forall j
        ensures Lookup(SortedMap.Put(rows, k, e), j) == Lookup(rows, j)
      {
        LookupPut(rows, k, e, j);
      }
      SameLookups(SortedMap.Put(rows, k, e), rows);
    }
  }

  /** A timestamp later than everything held makes a local write win everywhere it is merged. */
  lemma FreshWriteWins(d: Digest, rows: seq<Row<KvEntry>>, k: Key, e: KvEntry)
    requires forall r :: r in rows ==> Before(r.value.hlc, e.hlc)
    ensures Wins(d, rows, k, e) && SortedMap.Put(rows, k, e) == MergeOne(d, rows, k, e)
  {
    LookupIn(rows, k);
  }

  /** A dump changes nothing if and only if it reports no merge. */
  lemma {:induction false} DumpQuietExactly(d: Digest, rows: seq<Row<KvEntry>>, ws: seq<Row<KvEntry>>)
    requires Sorted(rows)
    ensures CountWins(d, rows, ws) == 0 <==> MergeAll(d, rows, ws) == rows
    decreases |ws|
  {
    if ws != [] {
      var k, e := ws[0].key, ws[0].value;
      if Wins(d, rows, k, e) {
        LookupPut(rows, k, e, k);
        MergedChampion(d, MergeOne(d, rows, k, e), ws[1..], k);
      } else {
        DumpQuietExactly(d, rows, ws[1..]);
      }
    }
  }

  // ---------------------------------------------------------------- local and remote writes

  datatype Write = Local(row: Row<KvEntry>) | Remote(row: Row<KvEntry>)

  /** A replica that stores its own writes and merges those of others. */
  function Replica(d: Digest, rows: seq<Row<KvEntry>>, ws: seq<Write>): seq<Row<KvEntry>>
    decreases |ws|
  {
    if ws == [] then rows
    else
      var r := ws[0].row;
      Replica(d, if ws[0].Local? then SortedMap.Put(rows, r.key, r.value) else MergeOne(d, rows, r.key, r.value), ws[1..])
  }

  function RowsOf(ws: seq<Write>): seq<Row<KvEntry>> {
    if ws == [] then [] else [ws[0].row] + RowsOf(ws[1..])
  }

  /** Every local write carries a timestamp later than everything the replica holds. */
  ghost predicate Clocked(d: Digest, rows: seq<Row<KvEntry>>, ws: seq<Write>)
    decreases |ws|
  {
    ws == [] ||
    var r := ws[0].row;
    && (ws[0].Local? ==> forall x :: x in rows ==> Before(x.value.hlc, r.value.hlc))
    && Clocked(d, MergeOne(d, rows, r.key, r.value), ws[1..])
  }

  /** For such a replica a local write is a merge, so all its writes are merges. */
  lemma {:induction false} ReplicaMerges(d: Digest, rows: seq<Row<KvEntry>>, ws: seq<Write>)
    requires Clocked(d, rows, ws)
    ensures Replica(d, rows, ws) == MergeAll(d, rows, RowsOf(ws))
    decreases |ws|
  {
    if ws != [] {
      var r := ws[0].row;
      if ws[0].Local? {
        FreshWriteWins(d, rows, r.key, r.value);
      }
      ReplicaMerges(d, MergeOne(d, rows, r.key, r.value), ws[1..]);
      assert ([r] + RowsOf(ws[1..]))[1..] == RowsOf(ws[1..]);
    }
  }

  /** Replicas that saw the same writes, each its own mix of local and remote ones, hold the same rows. */
  lemma ReplicasConverge(d: Digest, a: seq<Write>, b: seq<Write>)
    requires Clocked(d, [], a) && Clocked(d, [], b) && SameWrites(RowsOf(a), RowsOf(b)) && TopsUnique(d, RowsOf(a))
    ensures Replica(d, [], a) == Replica(d, [], b)
  {
    ReplicaMerges(d, [], a);
    ReplicaMerges(d, [], b);
    Converges(d, RowsOf(a), RowsOf(b));
  }
}
