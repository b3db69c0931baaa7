/**
The signed source chain: which source configuration of a worker is in force.

Immutable records arrive in any order.  A record counts once it is linked back to
a first version; one pass over the records in version order finds exactly those.
*/
module Sources {
  import opened Options
  import SortedMap

  type Name = SortedMap.Key

  /** A stored record whose signature and fields were found in order. */
  datatype SourceRecord = SourceRecord(worker: Name, version: nat, prev: Option<nat>, deleted: bool, digest: nat)

  // ---------------------------------------------------------------- linking

  /** `p` is the record `r` names as its predecessor. */
  predicate Precedes(p: SourceRecord, r: SourceRecord) {
    p.worker == r.worker && r.prev == Some(p.digest) && p.version + 1 == r.version
  }

  /** `r` is a first version, or the direct successor of a record of `known`. */
  ghost predicate Links(known: set<SourceRecord>, r: SourceRecord) {
    if r.version == 1 then r.prev.None?
    else r.prev.Some? && exists p :: p in known && Precedes(p, r)
  }

  /** `r` is linked back to a first version through stored records. */
  ghost predicate Reaches(stored: set<SourceRecord>, r: SourceRecord)
    decreases r.version
  {
    && r in stored
    && if r.version == 1 then r.prev.None?
       else r.prev.Some? && exists p :: p in stored && Precedes(p, r) && Reaches(stored, p)
  }

  ghost function Accepted(stored: set<SourceRecord>): set<SourceRecord> {
    set r | r in stored && Reaches(stored, r)
  }

  /** Everything stored that links into `known` is in `known`. */
  ghost predicate Closed(stored: set<SourceRecord>, known: set<SourceRecord>) {
    forall r :: r in stored && Links(known, r) ==> r in known
  }

  /** The accepted records are the least closed set: every one links into it, and it lies inside every closed set. */
  lemma LeastFixedPoint(stored: set<SourceRecord>, known: set<SourceRecord>)
    ensures Closed(stored, Accepted(stored))
    ensures forall r :: r in Accepted(stored) ==> Links(Accepted(stored), r)
    ensures Closed(stored, known) ==> Accepted(stored) <= known
  {
    forall r | r in stored && Links(Accepted(stored), r)
      ensures r in Accepted(stored)
    {
      if r.version != 1 {
        var p :| p in Accepted(stored) && Precedes(p, r);
        assert Reaches(stored, p);
      }
    }
    forall r | r in Accepted(stored)
      ensures Links(Accepted(stored), r)
    {
      if r.version != 1 {
        var p :| p in stored && Precedes(p, r) && Reaches(stored, p);
        assert p in Accepted(stored);
      }
    }
    if Closed(stored, known) {
      forall r | r in Accepted(stored)
        ensures r in known
      {
        InsideClosed(stored, known, r);
      }
    }
  }

  lemma {:induction false} InsideClosed(stored: set<SourceRecord>, known: set<SourceRecord>, r: SourceRecord)
    requires Closed(stored, known) && Reaches(stored, r)
    ensures r in known
    decreases r.version
  {
    if r.version != 1 {
      var p :| p in stored && Precedes(p, r) && Reaches(stored, p);
      InsideClosed(stored, known, p);
      assert Links(known, r);
    }
  }

  lemma {:induction false} ReachesGrows(stored: set<SourceRecord>, more: set<SourceRecord>, r: SourceRecord)
    requires stored <= more && Reaches(stored, r)
    ensures Reaches(more, r)
    decreases r.version
  {
    if r.version != 1 {
      var p :| p in stored && Precedes(p, r) && Reaches(stored, p);
      ReachesGrows(stored, more, p);
    }
  }

  lemma ReachesPositive(stored: set<SourceRecord>, r: SourceRecord)
    requires Reaches(stored, r)
    ensures r.version > 0
  {
  }

  // ---------------------------------------------------------------- order

  /** By worker, then version, then digest. */
  predicate Earlier(a: SourceRecord, b: SourceRecord) {
    || SortedMap.Less(a.worker, b.worker)
    || (a.worker == b.worker && (a.version < b.version || (a.version == b.version && a.digest <= b.digest)))
  }

  lemma EarlierTotal(a: SourceRecord, b: SourceRecord)
    ensures Earlier(a, b) || Earlier(b, a)
  {
    SortedMap.LessTotal(a.worker, b.worker);
  }

  lemma EarlierTransitive(a: SourceRecord, b: SourceRecord, c: SourceRecord)
    requires Earlier(a, b) && Earlier(b, c)
    ensures Earlier(a, c)
  {
    if SortedMap.Less(a.worker, b.worker) && SortedMap.Less(b.worker, c.worker) {
      SortedMap.LessTransitive(a.worker, b.worker, c.worker);
    }
  }

  ghost predicate Ordered(s: seq<SourceRecord>) {
    forall i, j :: 0 <= i < j < |s| ==> Earlier(s[i], s[j])
  }

  ghost predicate SameRecords(a: seq<SourceRecord>, b: seq<SourceRecord>) {
    forall r :: r in a <==> r in b
  }

  function Placed(r: SourceRecord, s: seq<SourceRecord>): seq<SourceRecord> {
    if s == [] || Earlier(r, s[0]) then [r] + s else [s[0]] + Placed(r, s[1..])
  }

  function SortRecords(s: seq<SourceRecord>): seq<SourceRecord> {
    if s == [] then [] else Placed(s[0], SortRecords(s[1..]))
  }

  lemma {:induction false} PlacedElements(r: SourceRecord, s: seq<SourceRecord>)
    ensures forall x :: x in Placed(r, s) <==> x == r || x in s
    decreases |s|
  {
    if s != [] && !Earlier(r, s[0]) {
      PlacedElements(r, s[1..]);
      assert s == [s[0]] + s[1..];
    }
  }

  lemma OrderedCons(r: SourceRecord, s: seq<SourceRecord>)
    requires Ordered(s) && forall x :: x in s ==> Earlier(r, x)
    ensures Ordered([r] + s)
  {
    var all := [r] + s;
    forall i, j | 0 <= i < j < |all|
      ensures Earlier(all[i], all[j])
    {
      assert all[j] == s[j - 1] && all[j] in s;
      if i > 0 {
        assert all[i] == s[i - 1];
      }
    }
  }

  lemma OrderedTail(s: seq<SourceRecord>)
    requires Ordered(s) && s != []
    ensures Ordered(s[1..]) && forall x :: x in s[1..] ==> Earlier(s[0], x)
  {
    forall x | x in s[1..]
      ensures Earlier(s[0], x)
    {
      var i :| 0 <= i < |s[1..]| && s[1..][i] == x;
      assert s[i + 1] == x;
    }
  }

  lemma {:induction false} PlacedOrdered(r: SourceRecord, s: seq<SourceRecord>)
    requires Ordered(s)
    ensures Ordered(Placed(r, s))
    decreases |s|
  {
    hide Earlier;
    if s == [] {
      OrderedCons(r, s);
    } else {
      OrderedTail(s);
      EarlierTotal(r, s[0]);
      if Earlier(r, s[0]) {
        forall x | x in s
          ensures Earlier(r, x)
        {
          if x in s[1..] {
            EarlierTransitive(r, s[0], x);
          }
        }
        OrderedCons(r, s);
      } else {
        PlacedOrdered(r, s[1..]);
        PlacedElements(r, s[1..]);
        OrderedCons(s[0], Placed(r, s[1..]));
      }
    }
  }

  lemma {:induction false} SortSorts(s: seq<SourceRecord>)
    ensures Ordered(SortRecords(s)) && SameRecords(SortRecords(s), s)
    decreases |s|
  {
    if s != [] {
      SortSorts(s[1..]);
      PlacedOrdered(s[0], SortRecords(s[1..]));
      PlacedElements(s[0], SortRecords(s[1..]));
      assert s == [s[0]] + s[1..];
    }
  }

  // ---------------------------------------------------------------- resolution

  /** A digest names one record. */
  ghost predicate Identified(stored: set<SourceRecord>) {
    forall a, b :: a in stored && b in stored && a.digest == b.digest ==> a == b
  }

  /** After the pass over `s[..k]` exactly its linked records are accepted, each under its digest. */
  ghost predicate PassDone(stored: set<SourceRecord>, s: seq<SourceRecord>, k: nat, accepted: map<nat, SourceRecord>,
          out: seq<SourceRecord>)
    requires k <= |s|
  {
    && (forall d :: d in accepted ==> accepted[d] in s[..k] && accepted[d].digest == d && Reaches(stored, accepted[d]))
    && (forall r {:trigger Reaches(stored, r)} :: r in s[..k] && Reaches(stored, r) ==> r.digest in accepted && accepted[r.digest] == r)
    && (forall r :: r in out <==> r in s[..k] && Reaches(stored, r))
  }

  /** The records of one worker, all of them, in version order. */
  ghost predicate WholeWorker(stored: set<SourceRecord>, s: seq<SourceRecord>, w: Name) {
    Ordered(s) && forall r :: r in s <==> r in stored && r.worker == w
  }

  predicate LinkedTo(accepted: map<nat, SourceRecord>, r: SourceRecord) {
    if r.version == 1 then r.prev.None?
    else r.prev.Some? && r.prev.value in accepted && accepted[r.prev.value].version + 1 == r.version
  }

  /** The single look-up of the pass decides whether a record is linked back to a first version. */
  lemma LookupDecides(stored: set<SourceRecord>, s: seq<SourceRecord>, w: Name, k: nat, accepted: map<nat,
          SourceRecord>, out: seq<SourceRecord>)
    requires WholeWorker(stored, s, w) && Identified(stored) && k < |s| && PassDone(stored, s, k, accepted, out)
    ensures LinkedTo(accepted, s[k]) <==> Reaches(stored, s[k])
  {
    var r := s[k];
    assert r in s;
    if LinkedTo(accepted, r) && r.version != 1 {
      var p := accepted[r.prev.value];
      assert p in s;
      assert Reaches(stored, p);
    }
    if Reaches(stored, r) && r.version != 1 {
      var p :| p in stored && Precedes(p, r) && Reaches(stored, p);
      ComesBefore(s, p, k);
      assert p in s[..k];
    }
  }

  lemma ComesBefore(s: seq<SourceRecord>, p: SourceRecord, k: nat)
    requires Ordered(s) && k < |s| && p in s && p.worker == s[k].worker && p.version < s[k].version
    ensures p in s[..k]
  {
    var i :| 0 <= i < |s| && s[i] == p;
    SortedMap.LessTotal(p.worker, p.worker);
    assert !Earlier(s[k], p) && p != s[k];
    assert i < k;
    assert s[..k][i] == p;
  }

  /** One pass in version order accepts exactly the records linked back to a first version. */
  method Resolve(s: seq<SourceRecord>, ghost stored: set<SourceRecord>, ghost w: Name) returns (out: seq<SourceRecord>)
    requires WholeWorker(stored, s, w) && Identified(stored)
    ensures forall r :: r in out <==> r.worker == w && Reaches(stored, r)
  {
    hide Reaches, Ordered;
    var accepted: map<nat, SourceRecord> := map[];
    out := [];
    for k := 0 to |s|
      invariant PassDone(stored, s, k, accepted, out)
    {
      var r := s[k];
      LookupDecides(stored, s, w, k, accepted, out);
      PassStep(stored, s, k, accepted, out);
      if LinkedTo(accepted, r) {
        accepted := accepted[r.digest := r];
        out := out + [r];
      }
    }
    assert s[..|s|] == s;
    ReachesStored(stored);
  }

  lemma ReachesStored(stored: set<SourceRecord>)
    ensures forall r {:trigger Reaches(stored, r)} :: Reaches(stored, r) ==> r in stored
  {
  }

  lemma PassStep(stored: set<SourceRecord>, s: seq<SourceRecord>, k: nat, accepted: map<nat, SourceRecord>,
          out: seq<SourceRecord>)
    requires k < |s| && PassDone(stored, s, k, accepted, out) && Identified(stored)
    ensures if Reaches(stored, s[k]) then PassDone(stored, s, k + 1, accepted[s[k].digest := s[k]], out + [s[k]])
            else PassDone(stored, s, k + 1, accepted, out)
  {
    hide Reaches;
    var r := s[k];
    assert s[..k + 1] == s[..k] + [r];
    ReachesStored(stored);
  }

  predicate Wanted(r: SourceRecord, worker: Option<Name>) {
    worker.Some? ==> r.worker == worker.value
  }

  ghost function Stored(dump: seq<SourceRecord>): set<SourceRecord> {
    set r | r in dump
  }

  /** `groups` holds the wanted records of `seen`, worker by worker. */
  ghost predicate Grouped(seen: seq<SourceRecord>, worker: Option<Name>, groups: map<Name, seq<SourceRecord>>) {
    && (forall r {:trigger r in seen} :: r in seen && Wanted(r, worker) ==> r.worker in groups && r in groups[r.worker])
    && (forall w, r {:trigger r in groups[w]} :: w in groups && r in groups[w] ==> r in seen && r.worker == w && Wanted(r, worker))
  }

  lemma GroupStep(seen: seq<SourceRecord>, worker: Option<Name>, groups: map<Name, seq<SourceRecord>>, r: SourceRecord)
    requires Grouped(seen, worker, groups)
    ensures !Wanted(r, worker) ==> Grouped(seen + [r], worker, groups)
    ensures Wanted(r, worker) ==>
              Grouped(seen + [r], worker, groups[r.worker := (if r.worker in groups then groups[r.worker] else []) + [r]])
  {
  }

  /** The linked records, in worker, version and digest order, whatever order the store lists them in. */
  method SourceRecords(dump: seq<SourceRecord>, worker: Option<Name>) returns (out: seq<SourceRecord>)
    requires Identified(Stored(dump))
    ensures Ordered(out)
    ensures forall r :: r in out <==> Wanted(r, worker) && Reaches(Stored(dump), r)
  {
    hide Reaches, Ordered, Identified, Grouped;
    var groups: map<Name, seq<SourceRecord>> := map[];
    assert Grouped([], worker, groups) by { NothingGrouped(worker); }
    for i := 0 to |dump|
      invariant Grouped(dump[..i], worker, groups)
    {
      var r := dump[i];
      assert dump[..i + 1] == dump[..i] + [r];
      GroupStep(dump[..i], worker, groups, r);
      if Wanted(r, worker) {
        groups := groups[r.worker := (if r.worker in groups then groups[r.worker] else []) + [r]];
      }
    }
    assert dump[..|dump|] == dump;
    out := ResolveAll(dump, worker, groups);
    SortSorts(out);
    out := SortRecords(out);
  }

  lemma NothingGrouped(worker: Option<Name>)
    ensures Grouped([], worker, map[])
  {
  }

  lemma GroupIsWorker(dump: seq<SourceRecord>, worker: Option<Name>, groups: map<Name, seq<SourceRecord>>, w: Name)
    requires Grouped(dump, worker, groups) && w in groups && groups[w] != []
    ensures WholeWorker(Stored(dump), SortRecords(groups[w]), w)
  {
    SortSorts(groups[w]);
    assert groups[w][0] in groups[w];
    forall r | r in Stored(dump) && r.worker == w
      ensures r in groups[w]
    {
      assert r in dump;
    }
  }

  method ResolveAll(dump: seq<SourceRecord>, worker: Option<Name>, groups: map<Name, seq<SourceRecord>>)
    returns (out: seq<SourceRecord>)
    requires Identified(Stored(dump)) && Grouped(dump, worker, groups)
    ensures forall r :: r in out <==> Wanted(r, worker) && Reaches(Stored(dump), r)
  {
    hide Reaches, Ordered, Identified, Grouped, WholeWorker;
    out := [];
    var rest := groups.Keys;
    while rest != {}
      invariant rest <= groups.Keys
      invariant forall r :: r in out <==> r.worker in groups.Keys - rest && groups[r.worker] != [] && Reaches(Stored(dump), r)
      decreases |rest|
    {
      var w :| w in rest;
      rest := rest - {w};
      if groups[w] != [] {
        GroupIsWorker(dump, worker, groups, w);
        var found := Resolve(SortRecords(groups[w]), Stored(dump), w);
        out := out + found;
      }
    }
    GroupsCover(dump, worker, groups);
  }

  lemma GroupsCover(dump: seq<SourceRecord>, worker: Option<Name>, groups: map<Name, seq<SourceRecord>>)
    requires Grouped(dump, worker, groups)
    ensures forall r {:trigger Reaches(Stored(dump), r)} :: Reaches(Stored(dump), r) ==>
              (Wanted(r, worker) <==> r.worker in groups && groups[r.worker] != [])
  {
    forall r {:trigger Reaches(Stored(dump), r)} | Reaches(Stored(dump), r)
      ensures Wanted(r, worker) <==> r.worker in groups && groups[r.worker] != []
    {
      assert r in dump;
      if r.worker in groups && groups[r.worker] != [] {
        assert groups[r.worker][0] in groups[r.worker];
      }
    }
  }

  // ---------------------------------------------------------------- heads

  /** Later version, then larger digest. */
  predicate Outranks(a: SourceRecord, b: SourceRecord) {
    a.version > b.version || (a.version == b.version && a.digest > b.digest)
  }

  /** The linked record of the worker that none outranks. */
  ghost predicate IsHead(stored: set<SourceRecord>, w: Name, h: SourceRecord) {
    && h.worker == w && Reaches(stored, h)
    && forall r: SourceRecord {:trigger Reaches(stored, r)} :: r.worker == w && Reaches(stored, r) ==> !Outranks(r, h)
  }

  ghost predicate NoHead(stored: set<SourceRecord>, w: Name) {
    forall r: SourceRecord {:trigger Reaches(stored, r)} :: r.worker == w ==> !Reaches(stored, r)
  }

  method SourceHead(dump: seq<SourceRecord>, w: Name) returns (head: Option<SourceRecord>)
    requires Identified(Stored(dump))
    ensures head.None? <==> NoHead(Stored(dump), w)
    ensures head.Some? ==> IsHead(Stored(dump), w, head.value)
  {
    hide Reaches, Ordered, Identified;
    var records := SourceRecords(dump, Some(w));
    head := None;
    for i := 0 to |records|
      invariant head.None? ==> i == 0
      invariant head.Some? ==> head.value in records && forall k :: 0 <= k < i ==> !Outranks(records[k], head.value)
    {
      if head.None? || !Outranks(head.value, records[i]) {
        head := Some(records[i]);
      }
    }
    if head.Some? {
      forall r: SourceRecord {:trigger Reaches(Stored(dump), r)} | r.worker == w && Reaches(Stored(dump), r)
        ensures !Outranks(r, head.value)
      {
        assert r in records;
      }
    } else {
      assert records == [];
      forall r: SourceRecord {:trigger Reaches(Stored(dump), r)} | r.worker == w
        ensures !Reaches(Stored(dump), r)
      {
        assert r !in records;
      }
    }
  }

  /** The heads so far, worker by worker. */
  ghost predicate HeadsOf(seen: seq<SourceRecord>, heads: map<Name, SourceRecord>) {
    && (forall r {:trigger r in seen} :: r in seen ==> r.worker in heads && !Outranks(r, heads[r.worker]))
    && (forall w {:trigger heads[w]} :: w in heads ==> heads[w] in seen && heads[w].worker == w)
  }

  /** The heads that are not tombstones, in order of their workers. */
  method LiveSources(dump: seq<SourceRecord>) returns (live: seq<SourceRecord>)
    requires Identified(Stored(dump))
    ensures ByWorker(live)
    ensures forall r :: r in live <==> IsHead(Stored(dump), r.worker, r) && !r.deleted
  {
    hide Reaches, Ordered;
    var records := SourceRecords(dump, None);
    var heads: map<Name, SourceRecord> := map[];
    for i := 0 to |records|
      invariant HeadsOf(records[..i], heads)
    {
      var r := records[i];
      assert records[..i + 1] == records[..i] + [r];
      if r.worker !in heads || Outranks(r, heads[r.worker]) {
        heads := heads[r.worker := r];
      }
    }
    assert records[..|records|] == records;
    HeadsAreHeads(dump, records, heads);
    live := [];
    assert records[..0] == [];
    for i := 0 to |records|
      invariant LiveAmong(records[..i], heads, live)
    {
      var r := records[i];
      assert records[..i + 1] == records[..i] + [r];
      PrefixOrdered(records, i + 1);
      PickOne(records[..i], r, heads, live);
      if r.worker in heads && heads[r.worker] == r && !r.deleted && r !in live {
        live := live + [r];
      }
    }
  }

  /** One record per worker, in order of the workers. */
  ghost predicate ByWorker(s: seq<SourceRecord>) {
    forall i, j :: 0 <= i < j < |s| ==> SortedMap.Less(s[i].worker, s[j].worker)
  }

  /** The heads among `seen` that are not tombstones. */
  ghost predicate LiveAmong(seen: seq<SourceRecord>, heads: map<Name, SourceRecord>, live: seq<SourceRecord>) {
    && ByWorker(live)
    && forall r :: r in live <==> r in seen && r.worker in heads && heads[r.worker] == r && !r.deleted
  }

  lemma PrefixOrdered(s: seq<SourceRecord>, n: nat)
    requires Ordered(s) && n <= |s|
    ensures Ordered(s[..n])
  {
  }

  lemma PickOne(seen: seq<SourceRecord>, r: SourceRecord, heads: map<Name, SourceRecord>, live: seq<SourceRecord>)
    requires Ordered(seen + [r]) && LiveAmong(seen, heads, live)
    ensures LiveAmong(seen + [r], heads,
                      if r.worker in heads && heads[r.worker] == r && !r.deleted && r !in live then live + [r] else live)
  {
    if r.worker in heads && heads[r.worker] == r && !r.deleted && r !in live {
      forall i | 0 <= i < |live|
        ensures SortedMap.Less(live[i].worker, r.worker)
      {
        assert live[i] in live;
        assert live[i] in seen;
        var j :| 0 <= j < |seen| && seen[j] == live[i];
        assert (seen + [r])[j] == seen[j] && (seen + [r])[|seen|] == r;
      }
    }
  }

  lemma HeadsAreHeads(dump: seq<SourceRecord>, records: seq<SourceRecord>, heads: map<Name, SourceRecord>)
    requires Identified(Stored(dump)) && HeadsOf(records, heads)
    requires forall r :: r in records <==> Reaches(Stored(dump), r)
    ensures forall r: SourceRecord :: r.worker in heads && heads[r.worker] == r <==> IsHead(Stored(dump), r.worker, r)
    ensures forall w :: w in heads ==> heads[w].worker == w
  {
    hide Reaches;
    forall r: SourceRecord
      ensures r.worker in heads && heads[r.worker] == r <==> IsHead(Stored(dump), r.worker, r)
    {
      if r.worker in heads && heads[r.worker] == r {
        assert r in records;
      }
      if IsHead(Stored(dump), r.worker, r) {
        assert r in records;
        var h := heads[r.worker];
        assert h in records && Reaches(Stored(dump), h);
        ReachesStored(Stored(dump));
      }
    }
  }

  lemma HeadUnique(stored: set<SourceRecord>, w: Name, a: SourceRecord, b: SourceRecord)
    requires Identified(stored) && IsHead(stored, w, a) && IsHead(stored, w, b)
    ensures a == b
  {
  }

  /** More records never lower a head. */
  lemma HeadNeverLowers(stored: set<SourceRecord>, more: set<SourceRecord>, w: Name, h: SourceRecord, h': SourceRecord)
    requires stored <= more && IsHead(stored, w, h) && IsHead(more, w, h')
    ensures !Outranks(h, h')
  {
    ReachesGrows(stored, more, h);
  }

  /** What the operator's next record says: one past the head and linked to it, or a first version. */
  function Prepared(head: Option<SourceRecord>, w: Name, deleted: bool, digest: nat): SourceRecord {
    if head.Some? then SourceRecord(w, head.value.version + 1, Some(head.value.digest), deleted, digest)
    else SourceRecord(w, 1, None, deleted, digest)
  }

  /** Deleting needs a head; without one there is nothing to delete and the request is refused. */
  function PreparedDelete(head: Option<SourceRecord>, w: Name, digest: nat): Option<SourceRecord> {
    if head.None? then None else Some(Prepared(head, w, true, digest))
  }

  lemma PreparedReaches(stored: set<SourceRecord>, w: Name, head: Option<SourceRecord>, deleted: bool, digest: nat)
    requires if head.Some? then IsHead(stored, w, head.value) else NoHead(stored, w)
    ensures var r := Prepared(head, w, deleted, digest); Reaches(stored + {r}, r)
  {
    var r := Prepared(head, w, deleted, digest);
    if head.Some? {
      ReachesGrows(stored, stored + {r}, head.value);
      ReachesPositive(stored, head.value);
    }
  }

  /** Preparing a record and storing it always advances the head. */
  lemma PrepareAdvances(stored: set<SourceRecord>, w: Name, head: Option<SourceRecord>, deleted: bool, digest: nat,
          h': SourceRecord)
    requires if head.Some? then IsHead(stored, w, head.value) else NoHead(stored, w)
    requires IsHead(stored + {Prepared(head, w, deleted, digest)}, w, h')
    ensures !Outranks(Prepared(head, w, deleted, digest), h')
    ensures head.Some? ==> h'.version > head.value.version
  {
    PreparedReaches(stored, w, head, deleted, digest);
  }

  /** If nothing stored was waiting for it, the prepared record itself is the new head. */
  lemma PreparedIsHead(stored: set<SourceRecord>, w: Name, head: Option<SourceRecord>, deleted: bool, digest: nat)
    requires if head.Some? then IsHead(stored, w, head.value) else NoHead(stored, w)
    requires forall x :: x in stored ==> x.prev != Some(digest)
    requires head.Some? ==> digest != head.value.digest
    ensures var r := Prepared(head, w, deleted, digest); IsHead(stored + {r}, w, r)
  {
    var r := Prepared(head, w, deleted, digest);
    PreparedReaches(stored, w, head, deleted, digest);
    forall x: SourceRecord {:trigger Reaches(stored + {r}, x)} | x.worker == w && Reaches(stored + {r}, x)
      ensures !Outranks(x, r)
    {
      if x != r {
        OldReaches(stored, r, x);
        assert Reaches(stored, x);
      }
    }
  }

  lemma {:induction false} OldReaches(stored: set<SourceRecord>, r: SourceRecord, x: SourceRecord)
    requires x != r && Reaches(stored + {r}, x) && forall y :: y in stored ==> y.prev != Some(r.digest)
    ensures Reaches(stored, x)
    decreases x.version
  {
    if x.version != 1 {
      var p :| p in stored + {r} && Precedes(p, x) && Reaches(stored + {r}, p);
      assert p != r;
      OldReaches(stored, r, p);
    }
  }

  // ---------------------------------------------------------------- chains and heads, told in the fields

  /** Stored records of one worker, from a first version on, each naming the digest of the one before it. */
  ghost predicate IsChain(stored: set<SourceRecord>, chain: seq<SourceRecord>) {
    && chain != [] && chain[0].prev.None?
    && (forall i :: 0 <= i < |chain| ==> chain[i] in stored && chain[i].version == i + 1 && chain[i].worker == chain[0].worker)
    && (forall i :: 0 < i < |chain| ==> chain[i].prev == Some(chain[i - 1].digest))
  }

  /** A record counts if and only if it ends a chain of stored records from a first version on. */
  lemma ReachesExactly(stored: set<SourceRecord>, r: SourceRecord)
    ensures Reaches(stored, r) <==> exists chain :: IsChain(stored, chain) && chain[|chain| - 1] == r
  {
    if Reaches(stored, r) {
      var chain := ChainTo(stored, r);
    }
    if chain :| IsChain(stored, chain) && chain[|chain| - 1] == r {
      ChainReaches(stored, chain, |chain| - 1);
    }
  }

  lemma {:induction false} ChainTo(stored: set<SourceRecord>, r: SourceRecord) returns (chain: seq<SourceRecord>)
    requires Reaches(stored, r)
    ensures IsChain(stored, chain) && chain[|chain| - 1] == r
    decreases r.version
  {
    if r.version == 1 {
      chain := [r];
    } else {
      var p :| p in stored && Precedes(p, r) && Reaches(stored, p);
      chain := ChainTo(stored, p);
      chain := chain + [r];
    }
  }

  lemma {:induction false} ChainReaches(stored: set<SourceRecord>, chain: seq<SourceRecord>, i: nat)
    requires IsChain(stored, chain) && i < |chain|
    ensures Reaches(stored, chain[i])
    decreases i
  {
    if i > 0 {
      ChainReaches(stored, chain, i - 1);
      assert Precedes(chain[i - 1], chain[i]);
    }
  }

  /** The head, exactly: it ends a chain of its worker, and every other such has a lower version, or the same and no larger a digest. */
  lemma HeadExactly(stored: set<SourceRecord>, w: Name, h: SourceRecord)
    ensures IsHead(stored, w, h) <==>
              && h.worker == w && Reaches(stored, h)
              && forall r {:trigger r in stored} :: r in stored && r.worker == w && Reaches(stored, r) ==>
                   r.version < h.version || (r.version == h.version && r.digest <= h.digest)
  {
    if IsHead(stored, w, h) {
      forall r | r in stored && r.worker == w && Reaches(stored, r)
        ensures r.version < h.version || (r.version == h.version && r.digest <= h.digest)
      {
        assert !Outranks(r, h);
      }
    } else if h.worker == w && Reaches(stored, h) {
      var r: SourceRecord :| r.worker == w && Reaches(stored, r) && Outranks(r, h);
      assert r in stored;
    }
  }

  /** The worker has a head that is not a tombstone. */
  ghost predicate IsLive(stored: set<SourceRecord>, w: Name) {
    exists h :: IsHead(stored, w, h) && !h.deleted
  }

  /** What a prepared record says: one version past the head and its digest, or version one and no predecessor. */
  lemma PreparedExactly(head: Option<SourceRecord>, w: Name, deleted: bool, digest: nat)
    ensures var r := Prepared(head, w, deleted, digest);
            && r.worker == w && r.deleted == deleted && r.digest == digest
            && r.version == (if head.Some? then head.value.version + 1 else 1)
            && r.prev == (if head.Some? then Some(head.value.digest) else None)
  {
  }

  /**
  Storing a prepared configuration makes the worker live, storing a prepared deletion
  ends it, and a deletion can be prepared if and only if there is something to delete.
  */
  lemma PreparedDecides(stored: set<SourceRecord>, w: Name, head: Option<SourceRecord>, digest: nat)
    requires if head.Some? then IsHead(stored, w, head.value) else NoHead(stored, w)
    requires forall x :: x in stored ==> x.prev != Some(digest) && x.digest != digest
    requires Identified(stored)
    ensures IsLive(stored + {Prepared(head, w, false, digest)}, w)
    ensures PreparedDelete(head, w, digest).Some? <==> exists r :: r in stored && r.worker == w && Reaches(stored, r)
    ensures PreparedDelete(head, w, digest).Some? ==> !IsLive(stored + {PreparedDelete(head, w, digest).value}, w)
  {
    hide Reaches;
    assert head.Some? ==> head.value in stored by {
      if head.Some? {
        ReachesStored(stored);
      }
    }
    PreparedIsHead(stored, w, head, false, digest);
    PreparedIsHead(stored, w, head, true, digest);
    PreparedExactly(head, w, false, digest);
    PreparedExactly(head, w, true, digest);
    var r := Prepared(head, w, true, digest);
    forall h | IsHead(stored + {r}, w, h)
      ensures h == r
    {
      HeadUnique(stored + {r}, w, h, r);
    }
  }
}
