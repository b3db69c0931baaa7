/**
What a whole run guarantees.

A run is any interleaving of election timeouts, heartbeats, client proposals,
deliveries (in any order, any number of times), compactions and restarts.

Guarded runs are those in which every acknowledgement is truthful, no snapshot
discards entries that match it, and no restart meets stale stored entries
(module Guards).  In them one history of commands explains every database of
every node at every moment.

Runs without compaction, with no guard at all, keep the log matching property.
*/
module Safety {
  import opened Options
  import opened Quorum
  import opened Collections
  import opened Groups
  import opened Cluster
  import opened Turns
  import opened Protocol
  import opened ProtocolSteps
  import opened Mirror
  import opened Storage
  import opened Simulation
  import opened SimMoves
  import opened SimElections
  import opened SimLeader
  import opened SimClient
  import opened SimAppend
  import opened SimSnapshot
  import opened SimRest
  import opened Guards

  /** Which runs the simulation covers: guarded ones, or ones without compaction. */
  ghost predicate Covered(strict: bool, c: Cluster, ev: Event) {
    Enabled(c, ev) && (if strict then Guarded(c, ev) else !ev.Shrink?)
  }

  ghost predicate CoveredRun(strict: bool, m: Machine, group: seq<Id>, cs: seq<Cluster>, evs: seq<Event>) {
    && IsRun(m, group, cs, evs)
    && forall i {:trigger evs[i]} :: 0 <= i < |evs| ==> Covered(strict, cs[i], evs[i])
  }

  ghost predicate GuardedRun(m: Machine, group: seq<Id>, cs: seq<Cluster>, evs: seq<Event>) {
    CoveredRun(true, m, group, cs, evs)
  }

  ghost predicate UncompactedRun(m: Machine, group: seq<Id>, cs: seq<Cluster>, evs: seq<Event>) {
    CoveredRun(false, m, group, cs, evs)
  }

  // ---------------------------------------------------------------- one step

  lemma DeliverStep(strict: bool, m: Machine, group: seq<Id>, w: World, h: Host, sender: Option<Node>, p: Packet)
    returns (w': World)
    requires Here(strict, m, group, w, p.dst, h) && PacketOK(strict, m, w, p)
    requires strict && p.msg.Append? ==> TruthfulAck(h.node, p.msg)
    requires strict && p.msg.InstallSnapshot? ==> SentBy(w, p.src, sender) && HarmlessSnapshot(h.node, sender, p.msg)
    ensures Answers(strict, m, group, w, w', p.dst, h, Handle(h.node, p.src, p.msg))
  {
    hide Inv, CommitInv, Answers, Handle, TruthfulAck, HarmlessSnapshot, StrictHost, Mirrors;
    match p.msg
    case VoteReq(_, _, _) => w' := VoteReqStep(strict, m, group, w, p.dst, h, p.src, p.msg);
    case VoteResp(_, _) => w' := VoteRespStep(strict, m, group, w, p.dst, h, p.src, p.msg);
    case Append(_, _, _, _, _) => w' := AppendStep(strict, m, group, w, p.dst, h, p.src, p.msg);
    case AppendResp(_, _, _) => w' := AppendRespStep(strict, m, group, w, p.dst, h, p.src, p.msg);
    case InstallSnapshot(_, _, _, _) => w' := SnapshotStep(m, group, w, p.dst, h, p.src, sender, p.msg);
  }

  lemma TurnStep(strict: bool, m: Machine, group: seq<Id>, c: Cluster, w: World, ev: Event) returns (w': World)
    requires SimInv(strict, m, group, c, w) && Covered(strict, c, ev) && !ev.Shrink? && !ev.Crash?
    ensures var h := c.hosts[Actor(ev)];
            WellFormed(h.node) && Answers(strict, m, group, w, w', Actor(ev), h, Turn(h.node, ev))
  {
    hide Inv, CommitInv, Answers, Handle, TruthfulAck, HarmlessSnapshot, TickElection, Heartbeat, Propose, StrictHost, Mirrors;
    var id := Actor(ev);
    var h := c.hosts[id];
    assert HostOK(strict, m, group, w, id, h);
    match ev
    case Timeout(_) => w' := TimeoutStep(strict, m, group, w, id, h);
    case Pulse(_) =>
      w' := w;
      PulseStep(strict, m, group, w, id, h);
    case Client(_, cmd) => w' := ClientStep(strict, m, group, w, id, h, cmd);
    case Deliver(p) =>
      assert PacketOK(strict, m, w, p);
      assert HostOK(strict, m, group, w, p.src, c.hosts[p.src]);
      w' := DeliverStep(strict, m, group, w, h, Sender(c, p), p);
  }

  /** Every covered step of the cluster is matched by moves of the protocol. */
  lemma StepSimulated(strict: bool, m: Machine, group: seq<Id>, c: Cluster, w: World, ev: Event, c': Cluster)
    returns (w': World)
    requires SimInv(strict, m, group, c, w) && Step(m, group, c, ev, c') && Covered(strict, c, ev)
    ensures SimInv(strict, m, group, c', w') && Moved(strict, w, w', Actor(ev))
  {
    hide Inv, CommitInv, Grows, Turn, TruthfulAck, HarmlessSnapshot, HostOK, PacketOK, AppliedOK, TurnOK, CleanDisk;
    var id := Actor(ev);
    var h := c.hosts[id];
    assert HostOK(strict, m, group, w, id, h);
    if ev.Shrink? {
      w' := w;
      MovedNot(strict, w, id);
      ShrinkHostOK(m, group, w, id, h, ev.keepTail);
      Land(strict, m, group, c, c', w, w', id, ShrinkHost(h, ev.keepTail), {}, {});
    } else if ev.Crash? {
      PlainClean(strict, m, group, w, id, h);
      w' := RestartHostOK(strict, m, group, w, id, h);
      Land(strict, m, group, c, c', w, w', id, RestartHost(h, group), {}, {});
    } else {
      w' := TurnStep(strict, m, group, c, w, ev);
      TurnLands(strict, m, group, c, w, w', ev);
    }
  }

  lemma PlainClean(strict: bool, m: Machine, group: seq<Id>, w: World, id: Id, h: Host)
    requires HostOK(strict, m, group, w, id, h)
    ensures !strict ==> CleanDisk(h.disk)
  {
  }

  lemma InitSimulated(strict: bool, m: Machine, group: seq<Id>) returns (w: World)
    requires NoRepeats(group)
    ensures SimInv(strict, m, group, Init(m, group), w)
  {
    hide Inv, CommitInv;
    var c := Init(m, group);
    w := Start(set x | x in group);
    forall id | id in c.hosts
      ensures HostOK(strict, m, group, w, id, c.hosts[id])
    {
      FreshHostOK(strict, m, group, w, id);
    }
  }

  lemma FreshHostOK(strict: bool, m: Machine, group: seq<Id>, w: World, id: Id)
    requires id in group && id in w.members && w.members[id] == Member(0, None, [], 0, Following)
    ensures HostOK(strict, m, group, w, id, FreshHost(m, id, group))
  {
    var h := FreshHost(m, id, group);
    assert FileOK(m, h.disk.file, [], 0) by {
      var none: seq<Entry> := [];
      forall j | 0 <= j <= 0
        ensures Replay(m, none[..j]) == m.empty
      {
        assert none[..j] == [];
      }
    }
    NoRows(w.h, h.node, []);
  }

  // ---------------------------------------------------------------- whole runs

  /** At the end of a covered run there is a protocol world behind the cluster. */
  lemma {:induction false} RunSimulated(strict: bool, m: Machine, group: seq<Id>, cs: seq<Cluster>, evs: seq<Event>)
    returns (w: World)
    requires CoveredRun(strict, m, group, cs, evs)
    ensures SimInv(strict, m, group, cs[|evs|], w)
    decreases |evs|
  {
    hide SimInv, Covered, Step, Init;
    if evs == [] {
      w := InitSimulated(strict, m, group);
    } else {
      var n := |evs| - 1;
      RunPrefix(m, group, cs, evs);
      var w0 := RunSimulated(strict, m, group, cs[..n + 1], evs[..n]);
      w := StepSimulated(strict, m, group, cs[n], w0, evs[n], cs[n + 1]);
    }
  }

  /** The host's database and its committed log are those of a committed prefix. */
  ghost predicate HostIn(m: Machine, h: Host, w: World, e: nat, log: seq<Entry>) {
    && CommittedPrefix(w, e, log, h.node.applied)
    && h.node.commit == h.node.applied
    && h.disk.file.db == Replay(m, log[..h.node.applied])
    && forall q {:trigger EntryAt(h.node, q)} :: h.node.baseSeq < q <= h.node.applied ==> EntryAt(h.node, q) == Some(log[q - 1])
  }

  ghost predicate HostBacked(m: Machine, h: Host, w: World) {
    exists e: nat, log: seq<Entry> :: HostIn(m, h, w, e, log)
  }

  ghost predicate Backs(m: Machine, c: Cluster, w: World) {
    && (forall id {:trigger c.hosts[id]} :: id in c.hosts ==> HostBacked(m, c.hosts[id], w))
    && (forall a {:trigger AppliedOK(w, a.entry)} :: a in c.applied ==> AppliedOK(w, a.entry))
  }

  lemma HostIsBacked(m: Machine, group: seq<Id>, w: World, id: Id, h: Host)
    requires Here(true, m, group, w, id, h)
    ensures HostBacked(m, h, w)
  {
    hide Inv, CommitInv, CommittedPrefix;
    var s := w.members[id];
    LaterCommit(w, w, id);
    ReadMember(w, id, h.node);
    forall q | h.node.baseSeq < q <= h.node.applied
      ensures EntryAt(h.node, q) == Some(s.log[q - 1])
    {
      ReadAt(h.node, s.log, q);
    }
    assert HostIn(m, h, w, s.epoch, s.log);
  }

  lemma BackedNow(m: Machine, group: seq<Id>, c: Cluster, w: World)
    requires SimInv(true, m, group, c, w)
    ensures Backs(m, c, w)
  {
    hide Inv, CommitInv, HostBacked, PacketOK, AppliedOK, HostOK;
    forall id | id in c.hosts
      ensures HostBacked(m, c.hosts[id], w)
    {
      assert HostOK(true, m, group, w, id, c.hosts[id]);
      HostIsBacked(m, group, w, id, c.hosts[id]);
    }
  }

  /** What was committed stays committed. */
  lemma BackedLater(m: Machine, c: Cluster, w: World, w': World, id: Id)
    requires Backs(m, c, w) && Moved(true, w, w', id)
    ensures Backs(m, c, w')
  {
    hide Inv, CommitInv, CommittedPrefix, AppliedOK;
    forall x | x in c.hosts
      ensures HostBacked(m, c.hosts[x], w')
    {
      var e: nat, log: seq<Entry> :| HostIn(m, c.hosts[x], w, e, log);
      PrefixBound(w, e, log, c.hosts[x].node.applied);
      CommittedPrefixGrows(w, w', e, e, log, log, c.hosts[x].node.applied);
      assert HostIn(m, c.hosts[x], w', e, log);
    }
    forall a | a in c.applied
      ensures AppliedOK(w', a.entry)
    {
      AppliedGrows(w, w', a.entry);
    }
  }

  lemma PrefixBound(w: World, e: nat, log: seq<Entry>, c: nat)
    requires CommittedPrefix(w, e, log, c)
    ensures c <= |log|
  {
  }

  /** One world backs every cluster the run passed through. */
  lemma {:induction false} RunBacked(m: Machine, group: seq<Id>, cs: seq<Cluster>, evs: seq<Event>) returns (w: World)
    requires GuardedRun(m, group, cs, evs)
    ensures SimInv(true, m, group, cs[|evs|], w)
    ensures forall i {:trigger cs[i]} :: 0 <= i <= |evs| ==> Backs(m, cs[i], w)
    decreases |evs|
  {
    hide SimInv, Covered, Step, Init, Backs;
    if evs == [] {
      w := InitSimulated(true, m, group);
    } else {
      var n := |evs| - 1;
      RunPrefix(m, group, cs, evs);
      var w0 := RunBacked(m, group, cs[..n + 1], evs[..n]);
      w := StepSimulated(true, m, group, cs[n], w0, evs[n], cs[n + 1]);
      forall i | 0 <= i <= n
        ensures Backs(m, cs[i], w)
      {
        assert cs[..n + 1][i] == cs[i];
        BackedLater(m, cs[i], w0, w, Actor(evs[n]));
      }
    }
    BackedNow(m, group, cs[|evs|], w);
  }

  // ---------------------------------------------------------------- one history

  lemma LogsBounded(reigns: map<nat, Reign>, keys: set<nat>) returns (b: nat)
    requires keys <= reigns.Keys
    ensures forall e :: e in keys ==> |reigns[e].log| <= b
  {
    if keys == {} {
      b := 0;
    } else {
      var e :| e in keys;
      var b0 := LogsBounded(reigns, keys - {e});
      b := Max(b0, |reigns[e].log|);
    }
  }

  /** The history `t` contains everything committed. */
  ghost predicate Covers(w: World, t: seq<Entry>) {
    forall e: nat, log: seq<Entry>, c: nat :: CommittedPrefix(w, e, log, c) ==> c <= |t| && log[..c] == t[..c]
  }

  lemma LongestFrom(w: World, b: nat) returns (e: nat, log: seq<Entry>, c: nat)
    requires forall e: nat, log: seq<Entry>, c: nat :: CommittedPrefix(w, e, log, c) ==> c <= b
    ensures CommittedPrefix(w, e, log, c)
    ensures forall e': nat, log': seq<Entry>, c': nat :: CommittedPrefix(w, e', log', c') ==> c' <= c
  {
    if b == 0 {
      e, log, c := 0, [], 0;
    } else if e0: nat, log0: seq<Entry> :| CommittedPrefix(w, e0, log0, b) {
      e, log, c := e0, log0, b;
    } else {
      forall e1: nat, log1: seq<Entry>, c1: nat | CommittedPrefix(w, e1, log1, c1)
        ensures c1 <= b - 1
      {
      }
      e, log, c := LongestFrom(w, b - 1);
    }
  }

  lemma LongestHistory(w: World) returns (t: seq<Entry>)
    requires Inv(w)
    ensures Covers(w, t)
  {
    hide Inv;
    var b := LogsBounded(w.h.reigns, w.h.reigns.Keys);
    forall e: nat, log: seq<Entry>, c: nat | CommittedPrefix(w, e, log, c)
      ensures c <= b
    {
      if c > 0 {
        var e1: nat, k1: nat :| CommitWitness(w, e, log, c, e1, k1);
      }
    }
    var e, log, c := LongestFrom(w, b);
    t := log[..c];
    forall e': nat, log': seq<Entry>, c': nat | CommittedPrefix(w, e', log', c')
      ensures c' <= |t| && log'[..c'] == t[..c']
    {
      CommittedAgree(w, e', log', c', e, log, c);
      assert t[..c'] == log[..c'];
    }
  }

  /** One history explains the cluster: every database, every committed log entry, everything ever applied. */
  ghost predicate Explains(m: Machine, t: seq<Entry>, c: Cluster) {
    && (forall id {:trigger c.hosts[id]} :: id in c.hosts ==> ExplainsHost(m, t, c.hosts[id]))
    && (forall a {:trigger a in c.applied} :: a in c.applied ==> 0 < a.entry.seqno <= |t| && t[a.entry.seqno - 1] == a.entry)
  }

  ghost predicate ExplainsHost(m: Machine, t: seq<Entry>, h: Host) {
    && h.node.commit == h.node.applied <= |t|
    && h.disk.file.db == Replay(m, t[..h.node.applied])
    && forall q {:trigger EntryAt(h.node, q)} :: h.node.baseSeq < q <= h.node.applied ==> EntryAt(h.node, q) == Some(t[q - 1])
  }

  lemma CoversExplains(m: Machine, w: World, t: seq<Entry>, c: Cluster)
    requires Covers(w, t) && Backs(m, c, w)
    ensures Explains(m, t, c)
  {
    hide CommittedPrefix;
    forall id | id in c.hosts
      ensures ExplainsHost(m, t, c.hosts[id])
    {
      var h := c.hosts[id];
      var e: nat, log: seq<Entry> :| HostIn(m, h, w, e, log);
      PrefixBound(w, e, log, h.node.applied);
      forall q | h.node.baseSeq < q <= h.node.applied
        ensures EntryAt(h.node, q) == Some(t[q - 1])
      {
        assert log[q - 1] == log[..h.node.applied][q - 1] == t[..h.node.applied][q - 1];
      }
    }
    forall a | a in c.applied
      ensures 0 < a.entry.seqno <= |t| && t[a.entry.seqno - 1] == a.entry
    {
      assert AppliedOK(w, a.entry);
      var e: nat, log: seq<Entry>, k: nat :| AppliedIn(w, a.entry, e, log, k);
      PrefixBound(w, e, log, k);
      assert log[a.entry.seqno - 1] == log[..k][a.entry.seqno - 1] == t[..k][a.entry.seqno - 1];
    }
  }

  /**
  Replicated database safety, over whole guarded runs: there is one sequence of
  entries such that at every moment every node's database is the replay of its
  first `applied` entries, every committed log entry is the history's, and
  every entry ever applied stands in the history at its sequence number.
  */
  lemma OneHistory(m: Machine, group: seq<Id>, cs: seq<Cluster>, evs: seq<Event>) returns (t: seq<Entry>)
    requires GuardedRun(m, group, cs, evs)
    ensures forall i {:trigger cs[i]} :: 0 <= i <= |evs| ==> Explains(m, t, cs[i])
  {
    hide CoveredRun, Inv, CommitInv, Backs, Explains, Covers;
    RunLength(true, m, group, cs, evs);
    var w := RunBacked(m, group, cs, evs);
    t := LongestHistory(w);
    forall i | 0 <= i <= |evs|
      ensures Explains(m, t, cs[i])
    {
      CoversExplains(m, w, t, cs[i]);
    }
  }

  lemma RunLength(strict: bool, m: Machine, group: seq<Id>, cs: seq<Cluster>, evs: seq<Event>)
    requires CoveredRun(strict, m, group, cs, evs)
    ensures |cs| == |evs| + 1
  {
  }

  /** State-machine safety: no two nodes ever apply different entries at one sequence number. */
  lemma StateMachineSafety(m: Machine, group: seq<Id>, cs: seq<Cluster>, evs: seq<Event>, a: Application,
          b: Application)
    requires GuardedRun(m, group, cs, evs)
    requires a in cs[|evs|].applied && b in cs[|evs|].applied && a.entry.seqno == b.entry.seqno
    ensures a.entry == b.entry
  {
    hide CoveredRun;
    var t := OneHistory(m, group, cs, evs);
    RunLength(true, m, group, cs, evs);
    assert Explains(m, t, cs[|evs|]);
  }

  /** Two nodes that applied equally much hold equal databases, whenever in the run they are looked at. */
  lemma DatabasesAgree(m: Machine, group: seq<Id>, cs: seq<Cluster>, evs: seq<Event>, i: nat, j: nat, x: Id, y: Id)
    requires GuardedRun(m, group, cs, evs) && i < |cs| && j < |cs| && x in cs[i].hosts && y in cs[j].hosts
    requires cs[i].hosts[x].node.applied == cs[j].hosts[y].node.applied
    ensures cs[i].hosts[x].disk.file.db == cs[j].hosts[y].disk.file.db
  {
    hide CoveredRun;
    var t := OneHistory(m, group, cs, evs);
    RunLength(true, m, group, cs, evs);
    assert Explains(m, t, cs[i]) && Explains(m, t, cs[j]);
    assert ExplainsHost(m, t, cs[i].hosts[x]) && ExplainsHost(m, t, cs[j].hosts[y]);
  }

  // ---------------------------------------------------------------- logs

  /** Log matching: entries of one epoch at one sequence number have equal pasts, as far as both nodes still hold them. */
  lemma LogMatching(strict: bool, m: Machine, group: seq<Id>, cs: seq<Cluster>, evs: seq<Event>, x: Id, y: Id, q: nat,
          p: nat)
    requires CoveredRun(strict, m, group, cs, evs) && x in cs[|evs|].hosts && y in cs[|evs|].hosts && p <= q
    requires var s, t := cs[|evs|].hosts[x].node, cs[|evs|].hosts[y].node;
             && EntryAt(s, q).Some? && EntryAt(t, q).Some? && EntryAt(s, q).value.epoch == EntryAt(t, q).value.epoch
             && EntryAt(s, p).Some? && EntryAt(t, p).Some?
    ensures EntryAt(cs[|evs|].hosts[x].node, p) == EntryAt(cs[|evs|].hosts[y].node, p)
  {
    hide CoveredRun, Inv, CommitInv, PacketOK, AppliedOK, CommittedPrefix, RowsOK, Settled, FileOK, VoteBacked, Synced, Sort;
    RunLength(strict, m, group, cs, evs);
    var w := RunSimulated(strict, m, group, cs, evs);
    var c := cs[|evs|];
    var s, t := c.hosts[x].node, c.hosts[y].node;
    assert HostOK(strict, m, group, w, x, c.hosts[x]) && HostOK(strict, m, group, w, y, c.hosts[y]);
    var a, b := w.members[x].log, w.members[y].log;
    TwoLogs(w, x, y);
    ReadAt(s, a, q);
    ReadAt(t, b, q);
    ReadAt(s, a, p);
    ReadAt(t, b, p);
    LogsMatch(w.h, a, b, q - 1);
    assert a[p - 1] == a[..q][p - 1] == b[..q][p - 1] == b[p - 1];
  }

  lemma TwoLogs(w: World, x: Id, y: Id)
    requires Inv(w) && x in w.members && y in w.members
    ensures LogOK(w.h, w.members[x].log) && LogOK(w.h, w.members[y].log)
  {
    assert MemberOK(w, x, w.members[x]) && MemberOK(w, y, w.members[y]);
  }

  lemma ReignEpoch(w: World, e: nat)
    requires Inv(w) && e in w.h.reigns
    ensures w.h.reigns[e].leader in w.members && e <= w.members[w.h.reigns[e].leader].epoch
  {
    var r := w.h.reigns[e];
    assert ReignOK(w, e, r);
    assert VoteOK(w.h, r.leader, e, r.leader, r.start);
    assert MemberOK(w, r.leader, w.members[r.leader]);
  }

  lemma GrowsTwice(a: History, b: History, c: History)
    requires Grows(a, b) && Grows(b, c)
    ensures Grows(a, c)
  {
  }

  /** The world behind a moment of a run and the one behind its end. */
  lemma {:induction false} RunWorlds(strict: bool, m: Machine, group: seq<Id>, cs: seq<Cluster>, evs: seq<Event>,
          i: nat) returns (wi: World, w: World)
    requires CoveredRun(strict, m, group, cs, evs) && i <= |evs|
    ensures SimInv(strict, m, group, cs[i], wi) && SimInv(strict, m, group, cs[|evs|], w) && Grows(wi.h, w.h)
    decreases |evs|
  {
    hide SimInv, Covered, Step, Init;
    if i == |evs| {
      w := RunSimulated(strict, m, group, cs, evs);
      wi := w;
    } else {
      var n := |evs| - 1;
      RunPrefix(m, group, cs, evs);
      var w0: World;
      wi, w0 := RunWorlds(strict, m, group, cs[..n + 1], evs[..n], i);
      w := StepSimulated(strict, m, group, cs[n], w0, evs[n], cs[n + 1]);
      GrowsTwice(wi.h, w0.h, w.h);
    }
  }

  /**
  Leader completeness: whatever was applied anywhere by some moment, every leader
  of an epoch no node was ahead of at that moment has it ever after, in its log or
  below its snapshot point.
  */
  lemma LaterLeadersComplete(m: Machine, group: seq<Id>, cs: seq<Cluster>, evs: seq<Event>, i: nat, id: Id,
          a: Application)
    requires GuardedRun(m, group, cs, evs) && i <= |evs| && a in cs[i].applied && id in cs[|evs|].hosts
    requires var s := cs[|evs|].hosts[id].node; IsLeader(s) && NoneAhead(cs[i], s.epoch)
    ensures var s := cs[|evs|].hosts[id].node;
            0 < a.entry.seqno <= LastSeq(s) && (a.entry.seqno > s.baseSeq ==> EntryAt(s, a.entry.seqno) == Some(a.entry))
  {
    hide CoveredRun, Inv, CommitInv, PacketOK, CommittedPrefix, RowsOK, Settled, FileOK, VoteBacked, Synced, Sort;
    RunLength(true, m, group, cs, evs);
    var wi, w := RunWorlds(true, m, group, cs, evs, i);
    var s, full := cs[|evs|].hosts[id].node, w.members[id].log;
    assert HostOK(true, m, group, w, id, cs[|evs|].hosts[id]);
    ReadMember(w, id, s);
    LeaderLog(w, id);
    assert AppliedOK(wi, a.entry);
    var e: nat, log: seq<Entry>, k: nat :| AppliedIn(wi, a.entry, e, log, k);
    PrefixBound(wi, e, log, k);
    CommittedBy(wi, e, log, k, s.epoch, m, group, cs[i]);
    SameMembers(group, wi, w);
    CommittedPrefixGrows(wi, w, s.epoch, s.epoch, log, log, k);
    CommittedInReign(w, s.epoch, log, k);
    assert full[a.entry.seqno - 1] == log[..k][a.entry.seqno - 1];
    ReadAt(s, full, a.entry.seqno);
  }

  lemma SameMembers(group: seq<Id>, w: World, w': World)
    requires GroupOK(group, w) && GroupOK(group, w')
    ensures w.members.Keys == w'.members.Keys
  {
    assert forall x :: x in w.members <==> x in w'.members;
  }

  ghost predicate NoneAhead(c: Cluster, e: nat) {
    forall x :: x in c.hosts ==> c.hosts[x].node.epoch <= e
  }

  lemma LeaderLog(w: World, id: Id)
    requires Inv(w) && id in w.members && w.members[id].standing.Leading?
    ensures w.members[id].epoch in w.h.reigns && w.h.reigns[w.members[id].epoch].log == w.members[id].log
  {
    assert MemberOK(w, id, w.members[id]);
  }

  /** What is committed is committed as of any epoch no node is ahead of. */
  lemma CommittedBy(w: World, e: nat, log: seq<Entry>, k: nat, e': nat, m: Machine, group: seq<Id>, c: Cluster)
    requires SimInv(true, m, group, c, w) && CommittedPrefix(w, e, log, k)
    requires NoneAhead(c, e')
    ensures CommittedPrefix(w, e', log, k)
  {
    hide Inv, CommitInv, PacketOK, AppliedOK, RowsOK, Settled, FileOK, VoteBacked, Synced, Sort, RoleMirrors;
    if k > 0 {
      var e1: nat, k1: nat :| CommitWitness(w, e, log, k, e1, k1);
      ReignEpoch(w, e1);
      var x := w.h.reigns[e1].leader;
      assert HostOK(true, m, group, w, x, c.hosts[x]);
      assert CommitWitness(w, e', log, k, e1, k1);
    }
  }
}
