/**
The hybrid logical clock.

A timestamp is a wall reading with a 32-bit logical counter, ordered
lexicographically.  In a run of many clocks that pass timestamps to each other,
whatever happened before a stamped event has a smaller stamp, as long as no
counter overflows; a run shorter than the counter's range cannot overflow one.
*/
module HybridClock {
  const LOGICAL_LIMIT: nat := 0x1_0000_0000

  datatype Hlc = Hlc(wall: nat, logical: nat)

  predicate Before(a: Hlc, b: Hlc) {
    a.wall < b.wall || (a.wall == b.wall && a.logical < b.logical)
  }

  predicate AtMost(a: Hlc, b: Hlc) {
    !Before(b, a)
  }

  function Later(a: Hlc, b: Hlc): Hlc {
    if Before(a, b) then b else a
  }

  /** One logical tick; the counter is 32 bits wide and wraps. */
  function Bumped(h: Hlc): Hlc {
    Hlc(h.wall, (h.logical + 1) % LOGICAL_LIMIT)
  }

  function Ticked(last: Hlc, wall: nat): Hlc {
    if wall > last.wall then Hlc(wall, 0) else Bumped(last)
  }

  function Observed(last: Hlc, remote: Hlc, wall: nat): Hlc {
    var base := Later(last, remote);
    if wall > base.wall then base else Bumped(base)
  }

  predicate InRange(h: Hlc) {
    h.logical < LOGICAL_LIMIT
  }

  class Clock {
    var last: Hlc

    constructor ()
      ensures last == Hlc(0, 0)
    {
      last := Hlc(0, 0);
    }

    method Now(wall: nat) returns (t: Hlc)
      requires InRange(last)
      modifies this
      ensures t == last == Ticked(old(last), wall) && InRange(last)
      ensures wall > old(last).wall ==> t == Hlc(wall, 0)
      ensures wall <= old(last).wall ==> t == Hlc(old(last).wall, (old(last).logical + 1) % 0x1_0000_0000)
      ensures Before(old(last), t) <==> wall > old(last).wall || old(last).logical + 1 < LOGICAL_LIMIT
    {
      if wall > last.wall {
        last := Hlc(wall, 0);
      } else {
        last := last.(logical := (last.logical + 1) % LOGICAL_LIMIT);
      }
      t := last;
    }

    method Observe(remote: Hlc, wall: nat)
      requires InRange(last) && InRange(remote)
      modifies this
      ensures last == Observed(old(last), remote, wall) && InRange(last)
      ensures var top := if Before(old(last), remote) then remote else old(last);
              last == if wall > top.wall then top else Hlc(top.wall, (top.logical + 1) % 0x1_0000_0000)
      ensures AtMost(old(last), last) && AtMost(remote, last)
          <==> wall > Later(old(last), remote).wall || Later(old(last), remote).logical + 1 < LOGICAL_LIMIT
    {
      var base := Later(last, remote);
      last := if wall > base.wall then base else Hlc(base.wall, (base.logical + 1) % LOGICAL_LIMIT);
    }
  }

  // ---------------------------------------------------------------- many clocks

  /** A node stamps a local event, or folds in the stamp carried by a message sent at event `sent`. */
  datatype Event = Tick(node: int, wall: nat) | Receive(node: int, sent: nat, wall: nat)

  ghost predicate IsRun(evs: seq<Event>) {
    forall i :: 0 <= i < |evs| && evs[i].Receive? ==> evs[i].sent < i && evs[evs[i].sent].Tick?
  }

  /** The clock of `node` after the first `t` events. */
  function ClockAt(evs: seq<Event>, t: nat, node: int): Hlc
    requires IsRun(evs) && t <= |evs|
    decreases t, 0
  {
    if t == 0 then Hlc(0, 0)
    else
      var last := ClockAt(evs, t - 1, node);
      var ev := evs[t - 1];
      if ev.node != node then last
      else if ev.Tick? then Ticked(last, ev.wall)
      else Observed(last, Stamp(evs, ev.sent), ev.wall)
  }

  /** The timestamp issued at tick `i`. */
  function Stamp(evs: seq<Event>, i: nat): Hlc
    requires IsRun(evs) && i < |evs|
    decreases i + 1, 1
  {
    ClockAt(evs, i + 1, evs[i].node)
  }

  /** The ticks that happened before the moment after `t` events at `node`: earlier ones of the node
      itself, and those a received message was sent after. */
  ghost function Past(evs: seq<Event>, t: nat, node: int): set<nat>
    requires IsRun(evs) && t <= |evs|
    decreases t
  {
    if t == 0 then {}
    else
      var past := Past(evs, t - 1, node);
      var ev := evs[t - 1];
      if ev.node != node then past
      else if ev.Tick? then past + {t - 1}
      else past + Past(evs, ev.sent + 1, evs[ev.sent].node)
  }

  /** The increment of event `k`, if it makes one, stays in range. */
  predicate Fits(evs: seq<Event>, k: nat)
    requires IsRun(evs) && k < |evs|
  {
    var last := ClockAt(evs, k, evs[k].node);
    var base := if evs[k].Tick? then last else Later(last, Stamp(evs, evs[k].sent));
    evs[k].wall > base.wall || base.logical + 1 < LOGICAL_LIMIT
  }

  ghost predicate NoOverflow(evs: seq<Event>) {
    IsRun(evs) && forall k {:trigger Fits(evs, k)} :: 0 <= k < |evs| ==> Fits(evs, k)
  }

  /** A clock never falls behind anything in its past. */
  lemma {:induction false} PastIsBehind(evs: seq<Event>, t: nat, node: int, i: nat)
    requires NoOverflow(evs) && t <= |evs| && i in Past(evs, t, node)
    ensures i < t && evs[i].Tick? && AtMost(Stamp(evs, i), ClockAt(evs, t, node))
    decreases t
  {
    var ev := evs[t - 1];
    assert Fits(evs, t - 1);
    if i in Past(evs, t - 1, node) {
      PastIsBehind(evs, t - 1, node, i);
    } else if ev.Receive? {
      PastIsBehind(evs, ev.sent + 1, evs[ev.sent].node, i);
    }
  }

  /** Causality: whatever happened before a stamped event carries a smaller stamp. */
  lemma Causality(evs: seq<Event>, i: nat, j: nat)
    requires NoOverflow(evs) && j < |evs| && evs[j].Tick? && i in Past(evs, j, evs[j].node)
    ensures i < j && Before(Stamp(evs, i), Stamp(evs, j))
  {
    PastIsBehind(evs, j, evs[j].node, i);
    assert Fits(evs, j);
  }

  /** A counter is never larger than the number of events so far. */
  lemma {:induction false} LogicalBounded(evs: seq<Event>, t: nat, node: int)
    requires IsRun(evs) && t <= |evs|
    ensures ClockAt(evs, t, node).logical <= t
    decreases t
  {
    if t > 0 {
      LogicalBounded(evs, t - 1, node);
      var ev := evs[t - 1];
      if ev.Receive? {
        LogicalBounded(evs, ev.sent + 1, evs[ev.sent].node);
      }
    }
  }

  /** A run shorter than the counter's range overflows nothing, so its stamps respect causality. */
  lemma ShortRunsFit(evs: seq<Event>)
    requires IsRun(evs) && |evs| < LOGICAL_LIMIT
    ensures NoOverflow(evs)
  {
    forall k | 0 <= k < |evs|
      ensures Fits(evs, k)
    {
      LogicalBounded(evs, k, evs[k].node);
      if evs[k].Receive? {
        LogicalBounded(evs, evs[k].sent + 1, evs[evs[k].sent].node);
      }
    }
  }

  /** The clock invents no time: its wall part was read from some node's wall clock, or is zero. */
  lemma {:induction false} WallWasRead(evs: seq<Event>, t: nat, node: int)
    requires IsRun(evs) && t <= |evs|
    ensures var w := ClockAt(evs, t, node).wall; w == 0 || exists k :: 0 <= k < t && evs[k].wall == w
    decreases t
  {
    if t > 0 {
      var ev := evs[t - 1];
      WallWasRead(evs, t - 1, node);
      if ev.Receive? {
        WallWasRead(evs, ev.sent + 1, evs[ev.sent].node);
      }
    }
  }

  /** Ticking keeps the wall part at the latest reading, counts from zero when it moves on and by one when it does not. */
  lemma TicksExactly(last: Hlc, wall: nat)
    ensures Ticked(last, wall).wall == if wall > last.wall then wall else last.wall
    ensures wall > last.wall ==> Ticked(last, wall).logical == 0
    ensures wall <= last.wall && last.logical < 0xFFFF_FFFF ==> Ticked(last, wall).logical == last.logical + 1
  {
  }

  /** Observing keeps the later wall part of the two stamps, and adds one to its counter unless the wall clock is ahead. */
  lemma ObservesExactly(last: Hlc, remote: Hlc, wall: nat)
    ensures Observed(last, remote, wall).wall == if remote.wall > last.wall then remote.wall else last.wall
    ensures Before(last, remote) && wall > remote.wall ==> Observed(last, remote, wall) == remote
    ensures !Before(last, remote) && wall > last.wall ==> Observed(last, remote, wall) == last
    ensures Before(last, remote) && wall <= remote.wall && remote.logical < 0xFFFF_FFFF ==>
              Observed(last, remote, wall) == Hlc(remote.wall, remote.logical + 1)
    ensures !Before(last, remote) && wall <= last.wall && last.logical < 0xFFFF_FFFF ==>
              Observed(last, remote, wall) == Hlc(last.wall, last.logical + 1)
  {
  }

  /** With the counter exhausted and the wall clock stalled, the next stamp is smaller than the last one. */
  lemma OverflowGoesBack(wall: nat)
    ensures Before(Ticked(Hlc(wall, LOGICAL_LIMIT - 1), wall), Hlc(wall, LOGICAL_LIMIT - 1))
    ensures Ticked(Hlc(wall, LOGICAL_LIMIT - 1), wall) == Hlc(wall, 0)
  {
  }
}
