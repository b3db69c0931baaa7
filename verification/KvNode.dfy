/**
A node's key-value store together with its clock.

Local writes are stamped by the clock; every entry merged from elsewhere is first
shown to the clock.  As long as no counter overflows, every local write is later
than everything the node holds, so storing it is merging it and nodes that saw the
same writes hold the same rows.
*/
module KvNode {
  import opened Options
  import opened HybridClock
  import opened SortedMap
  import opened Kv

  /**
  What reaches a node, with the wall clock at that moment: a local write, an entry
  from elsewhere, or something outside this namespace that stamps an event of its own
  or shows the shared clock a timestamp.
  */
  datatype Op =
    | PutOp(key: Key, value: Option<seq<Byte>>, expires: Option<nat>, wall: nat)
    | MergeOp(row: Row<KvEntry>, wall: nat)
    | TickOp(wall: nat)
    | ObserveOp(hlc: Hlc, wall: nat)

  datatype State = State(rows: seq<Row<KvEntry>>, last: Hlc)

  function Start(): State {
    State([], Hlc(0, 0))
  }

  /** Timestamps that travel hold a 32-bit counter. */
  predicate Wire(op: Op) {
    (op.MergeOp? ==> InRange(op.row.value.hlc)) && (op.ObserveOp? ==> InRange(op.hlc))
  }

  predicate Writes(op: Op) {
    op.PutOp? || op.MergeOp?
  }

  /** The write an operation amounts to on a node whose clock reads `last`. */
  function WriteOf(me: nat, last: Hlc, op: Op): Write
    requires Writes(op)
  {
    match op
    case PutOp(key, value, expires, wall) => Local(Row(key, KvEntry(Ticked(last, wall), me, value, expires)))
    case MergeOp(row, _) => Remote(row)
  }

  function ClockAfter(last: Hlc, op: Op): Hlc {
    match op
    case PutOp(_, _, _, wall) => Ticked(last, wall)
    case MergeOp(row, wall) => Observed(last, row.value.hlc, wall)
    case TickOp(wall) => Ticked(last, wall)
    case ObserveOp(hlc, wall) => Observed(last, hlc, wall)
  }

  function Stored(d: Digest, rows: seq<Row<KvEntry>>, w: Write): seq<Row<KvEntry>> {
    if w.Local? then SortedMap.Put(rows, w.row.key, w.row.value) else Kv.MergeOne(d, rows, w.row.key, w.row.value)
  }

  function Act(d: Digest, me: nat, s: State, op: Op): State {
    State(if Writes(op) then Stored(d, s.rows, WriteOf(me, s.last, op)) else s.rows, ClockAfter(s.last, op))
  }

  function Run(d: Digest, me: nat, s: State, ops: seq<Op>): State
    decreases |ops|
  {
    if ops == [] then s else Run(d, me, Act(d, me, s, ops[0]), ops[1..])
  }

  function WritesOf(me: nat, last: Hlc, ops: seq<Op>): seq<Write>
    decreases |ops|
  {
    if ops == [] then []
    else (if Writes(ops[0]) then [WriteOf(me, last, ops[0])] else []) + WritesOf(me, ClockAfter(last, ops[0]), ops[1..])
  }

  class Node {
    const me: nat
    const clock: Clock
    const kv: Namespace

    ghost predicate Valid()
      reads this, clock, kv
    {
      kv.Valid() && InRange(clock.last)
    }

    ghost function Now(): State
      reads this, clock, kv
    {
      State(kv.rows, clock.last)
    }

    constructor (me: nat, digest: Digest)
      ensures Valid() && Now() == Start() && this.me == me && kv.digest == digest && fresh(clock) && fresh(kv)
    {
      this.me := me;
      clock := new Clock();
      kv := new Namespace(digest);
    }

    method Put(key: Key, value: Option<seq<Byte>>, expires: Option<nat>, wall: nat) returns (e: KvEntry)
      requires Valid()
      modifies clock, kv`rows
      ensures Valid() && Now() == Act(kv.digest, me, old(Now()), PutOp(key, value, expires, wall))
      ensures e == KvEntry(Ticked(old(clock.last), wall), me, value, expires)
    {
      var hlc := clock.Now(wall);
      e := kv.Put(key, value, hlc, me, expires);
    }

    /** Fold in what another node sent; `walls` are the readings of the wall clock, one per item. */
    method MergeRemote(items: seq<Row<KvEntry>>, walls: seq<nat>) returns (applied: nat)
      requires Valid() && |walls| == |items| && forall r :: r in items ==> InRange(r.value.hlc)
      modifies clock, kv`rows
      ensures Valid() && Now() == Run(kv.digest, me, old(Now()), MergeOps(items, walls))
      ensures applied == CountWins(kv.digest, old(kv.rows), items)
    {
      hide Ticked, Observed, Kv.MergeOne, Wins, Sorted;
      applied := 0;
      for i := 0 to |items|
        invariant Valid()
        invariant Run(kv.digest, me, Now(), MergeOps(items[i..], walls[i..])) == Run(kv.digest, me, old(Now()), MergeOps(items, walls))
        invariant applied + CountWins(kv.digest, kv.rows, items[i..]) == CountWins(kv.digest, old(kv.rows), items)
      {
        assert items[i..][1..] == items[i + 1..] && walls[i..][1..] == walls[i + 1..];
        assert items[i] in items;
        clock.Observe(items[i].value.hlc, walls[i]);
        var won := kv.Merge(items[i].key, items[i].value);
        if won {
          applied := applied + 1;
        }
      }
      assert items[|items|..] == [] && walls[|items|..] == [];
    }
  }

  function MergeOps(items: seq<Row<KvEntry>>, walls: seq<nat>): seq<Op>
    requires |walls| == |items|
  {
    if items == [] then [] else [MergeOp(items[0], walls[0])] + MergeOps(items[1..], walls[1..])
  }

  // ---------------------------------------------------------------- every local write is the latest

  /** The counter does not overflow in this operation. */
  predicate Fits(last: Hlc, op: Op) {
    var base := match op
                case MergeOp(row, _) => Later(last, row.value.hlc)
                case ObserveOp(hlc, _) => Later(last, hlc)
                case _ => last;
    op.wall > base.wall || base.logical + 1 < LOGICAL_LIMIT
  }

  ghost predicate NoOverflow(last: Hlc, ops: seq<Op>)
    decreases |ops|
  {
    ops == [] || (Wire(ops[0]) && Fits(last, ops[0]) && NoOverflow(ClockAfter(last, ops[0]), ops[1..]))
  }

  /** The clock has seen everything held. */
  ghost predicate Seen(s: State) {
    InRange(s.last) && forall x :: x in s.rows ==> AtMost(x.value.hlc, s.last)
  }

  lemma ActSeen(d: Digest, me: nat, s: State, op: Op)
    requires Seen(s) && Wire(op) && Fits(s.last, op)
    ensures Seen(Act(d, me, s, op))
    ensures op.PutOp? ==> forall x :: x in s.rows ==> Before(x.value.hlc, WriteOf(me, s.last, op).row.value.hlc)
  {
    hide Before, Ticked, Observed, Fits, InRange, MergeOne;
    ClockSees(s.last, op);
    if Writes(op) {
      var w := WriteOf(me, s.last, op);
      StoredRows(d, s.rows, w);
      forall x | x in s.rows
        ensures op.PutOp? ==> Before(x.value.hlc, w.row.value.hlc)
      {
        LaterStill(x.value.hlc, s.last, w.row.value.hlc);
      }
    }
    forall x | x in Act(d, me, s, op).rows
      ensures AtMost(x.value.hlc, Act(d, me, s, op).last)
    {
      if x in s.rows {
        AtMostTwice(x.value.hlc, s.last, ClockAfter(s.last, op));
      }
    }
  }

  /** An operation that fits moves the clock on, past the timestamp it is shown or issues. */
  lemma ClockSees(last: Hlc, op: Op)
    requires InRange(last) && Wire(op) && Fits(last, op)
    ensures InRange(ClockAfter(last, op)) && AtMost(last, ClockAfter(last, op))
    ensures op.PutOp? ==> Before(last, ClockAfter(last, op)) && AtMost(ClockAfter(last, op), ClockAfter(last, op))
    ensures op.MergeOp? ==> AtMost(op.row.value.hlc, ClockAfter(last, op))
  {
  }

  lemma StoredRows(d: Digest, rows: seq<Row<KvEntry>>, w: Write)
    ensures forall x :: x in Stored(d, rows, w) ==> x in rows || x == w.row
  {
    PutRows(rows, w.row.key, w.row.value);
  }

  lemma LaterStill(a: Hlc, b: Hlc, c: Hlc)
    ensures AtMost(a, b) && Before(b, c) ==> Before(a, c)
  {
  }

  lemma AtMostTwice(a: Hlc, b: Hlc, c: Hlc)
    requires AtMost(a, b) && AtMost(b, c)
    ensures AtMost(a, c)
  {
  }

  /** Over a whole run without overflow the clock has seen everything held and every local write is the latest. */
  lemma {:induction false} RunClocked(d: Digest, me: nat, s: State, ops: seq<Op>)
    requires Seen(s) && NoOverflow(s.last, ops)
    ensures Seen(Run(d, me, s, ops))
    ensures Clocked(d, s.rows, WritesOf(me, s.last, ops))
    ensures Run(d, me, s, ops).rows == Replica(d, s.rows, WritesOf(me, s.last, ops))
    decreases |ops|
  {
    hide Seen, Ticked, Observed, Before, Wins;
    if ops != [] {
      var s' := Act(d, me, s, ops[0]);
      ActSeen(d, me, s, ops[0]);
      RunClocked(d, me, s', ops[1..]);
      var rest := WritesOf(me, s'.last, ops[1..]);
      if Writes(ops[0]) {
        var w := WriteOf(me, s.last, ops[0]);
        assert ([w] + rest)[1..] == rest;
        if ops[0].PutOp? {
          FreshWriteWins(d, s.rows, w.row.key, w.row.value);
        }
      } else {
        assert [] + rest == rest;
      }
    }
  }

  /**
  Two nodes, each with its own clock and its own mix of local and merged writes:
  if no counter overflows and they saw the same writes, they hold the same rows as
  long as each key's top rank belongs to one write.
  */
  lemma NodesConverge(d: Digest, a: nat, b: nat, p: seq<Op>, q: seq<Op>)
    requires NoOverflow(Hlc(0, 0), p) && NoOverflow(Hlc(0, 0), q)
    requires var v, w := RowsOf(WritesOf(a, Hlc(0, 0), p)), RowsOf(WritesOf(b, Hlc(0, 0), q));
             SameWrites(v, w) && TopsUnique(d, v)
    ensures Run(d, a, Start(), p).rows == Run(d, b, Start(), q).rows
  {
    RunClocked(d, a, Start(), p);
    RunClocked(d, b, Start(), q);
    ReplicasConverge(d, WritesOf(a, Hlc(0, 0), p), WritesOf(b, Hlc(0, 0), q));
  }
}
