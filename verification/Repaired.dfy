/**
The replica with its three faults repaired: an Append is acknowledged with the
highest sequence number known to match the leader, as the message documents; a
snapshot retains a log that already extends it, as section 7 of the Raft paper
asks; and installing one rewrites the stored log.

Every run of the repaired replica is safe, with no condition on the run.
*/
module Repaired {
  import opened Options
  import opened Quorum
  import opened Collections
  import opened Groups
  import opened Cluster
  import opened Turns
  import opened Protocol
  import opened ProtocolSteps
  import opened Mirror
  import opened Storage
  import opened Simulation
  import opened SimMoves
  import opened SimElections
  import opened SimLeader
  import opened SimClient
  import opened SimAppend
  import opened SimSnapshot
  import opened SimRest
  import opened Guards
  import opened Elections
  import opened Safety

  // ---------------------------------------------------------------- the repairs

  /** The same turn with its last action, the answer, replaced. */
  function Answering(r: Outcome, to: Id, reply: Msg): Outcome {
    Outcome(r.node, (if r.actions == [] then [] else r.actions[..|r.actions| - 1]) + [Send(to, reply)])
  }

  /** An accepted Append acknowledges what it carried and no more. */
  function AppendRepaired(s: Node, from: Id, msg: Msg): Outcome
    requires msg.Append?
  {
    var r := HandleAppend(s, from, msg);
    if msg.epoch >= s.epoch && PrevOK(s, msg)
    then Answering(r, from, AppendResp(msg.epoch, msg.prevSeq + |msg.entries|, true))
    else r
  }

  /** The entries a snapshot leaves in the log. */
  function Retained(s: Node, msg: Msg): seq<Entry>
    requires msg.InstallSnapshot?
  {
    if EpochAt(s, msg.lastSeq) == Some(msg.lastEpoch) then EntriesFrom(s.log, msg.lastSeq + 1) else []
  }

  function RepairedTail(from: Id, msg: Msg): seq<Action>
    requires msg.InstallSnapshot?
  {
    [PersistMeta, PersistLog(0), Send(from, AppendResp(msg.epoch, msg.lastSeq, true))]
  }

  /** A snapshot keeps what extends it, rewrites the store and acknowledges its own end. */
  function SnapshotRepaired(s: Node, from: Id, msg: Msg): Outcome
    requires msg.InstallSnapshot?
  {
    if msg.epoch < s.epoch then Outcome(s, [Send(from, AppendResp(s.epoch, 0, false))])
    else
      var f := Follow(s, from, msg.epoch);
      if msg.lastSeq <= s.applied then Outcome(f.node, f.actions + [Send(from, AppendResp(msg.epoch, msg.lastSeq, true))])
      else Outcome(Installed(f.node, msg).(log := Retained(f.node, msg)),
                   f.actions + [ApplySnapshot(msg.lastSeq, msg.data)] + RepairedTail(from, msg))
  }

  function TurnRepaired(s: Node, ev: Event): Outcome
    requires WellFormed(s) && !ev.Shrink? && !ev.Crash?
  {
    if ev.Deliver? && ev.packet.msg.Append? then AppendRepaired(s, ev.packet.src, ev.packet.msg)
    else if ev.Deliver? && ev.packet.msg.InstallSnapshot? then SnapshotRepaired(s, ev.packet.src, ev.packet.msg)
    else Turn(s, ev)
  }

  function NextRepaired(m: Machine, group: seq<Id>, c: Cluster, ev: Event): Cluster
    requires Enabled(c, ev) && WellFormed(c.hosts[Actor(ev)].node)
  {
    if ev.Shrink? || ev.Crash? then Next(m, group, c, ev)
    else Carried(m, c, Actor(ev), TurnRepaired(c.hosts[Actor(ev)].node, ev))
  }

  ghost predicate StepRepaired(m: Machine, group: seq<Id>, c: Cluster, ev: Event, c': Cluster) {
    Enabled(c, ev) && AllWellFormed(c) && c' == NextRepaired(m, group, c, ev)
  }

  ghost predicate IsRepairedRun(m: Machine, group: seq<Id>, cs: seq<Cluster>, evs: seq<Event>) {
    && NoRepeats(group)
    && |cs| == |evs| + 1
    && cs[0] == Init(m, group)
    && (forall i {:trigger evs[i]} :: 0 <= i < |evs| ==> StepRepaired(m, group, cs[i], evs[i], cs[i + 1]))
  }

  // ---------------------------------------------------------------- appends

  lemma AnswerShape(s: Node, from: Id, msg: Msg)
    requires msg.Append? && msg.epoch >= s.epoch && PrevOK(s, msg)
    ensures var r := HandleAppend(s, from, msg);
            && r.actions != [] && r.actions[|r.actions| - 1].Send?
            && forall a :: a in r.actions[..|r.actions| - 1] ==> !a.Send? && !a.NeedSnapshot?
  {
    hide Merge, Follow, PrevOK, ApplyRange, HandleAppend;
    SameGuard(s, from, msg);
    AcceptedIs(s, from, msg);
    FollowDiscipline(s, from, msg.epoch);
    var s2 := Received(Follow(s, from, msg.epoch).node, msg);
    ApplyRangeShape(s2, s2.applied, Min(msg.commit, LastSeq(s2)));
    var f := Follow(s, from, msg.epoch);
    var g := Merge(f.node.baseSeq, Merged(f.node.log, None), msg.entries);
    var persist := if g.from.Some? then [PersistLog(g.from.value)] else [];
    var pre, reply := f.actions + persist + Applied(s2, msg), Send(from, AppendResp(f.node.epoch, LastSeq(s2), true));
    assert HandleAppend(s, from, msg).actions == pre + [reply];
    assert (pre + [reply])[..|pre|] == pre;
  }

  /** Replacing the answer changes neither what is stored nor what is applied. */
  lemma AnswerSwapped(m: Machine, full: seq<Entry>, disk: Disk, r: Outcome, to: Id, reply: Msg, goal: nat, k: nat,
          k': nat)
    requires r.actions != [] && r.actions[|r.actions| - 1].Send?
    ensures Save(m, r.node, disk, Answering(r, to, reply).actions) == Save(m, r.node, disk, r.actions)
    ensures Paced(m, full, goal, r.actions, k, k') ==> Paced(m, full, goal, Answering(r, to, reply).actions, k, k')
  {
    var n := |r.actions| - 1;
    var pre, last := r.actions[..n], r.actions[n];
    assert r.actions == pre + [last];
    SaveConcat(m, r.node, disk, pre, [last]);
    SaveConcat(m, r.node, disk, pre, [Send(to, reply)]);
    assert [last][1..] == [] && [Send(to, reply)][1..] == [];
    if Paced(m, full, goal, r.actions, k, k') {
      PacedSwap(m, full, goal, pre, last, Send(to, reply), k, k');
    }
  }

  lemma {:induction false} PacedSwap(m: Machine, full: seq<Entry>, goal: nat, pre: seq<Action>, a: Action, b: Action,
          k: nat, k': nat)
    requires a.Send? && b.Send? && Paced(m, full, goal, pre + [a], k, k')
    ensures Paced(m, full, goal, pre + [b], k, k')
    decreases |pre|
  {
    if pre == [] {
      assert pre + [a] == [a] && pre + [b] == [b] && [a][1..] == [] && [b][1..] == [];
    } else {
      assert (pre + [a])[0] == pre[0] && (pre + [a])[1..] == pre[1..] + [a];
      assert (pre + [b])[0] == pre[0] && (pre + [b])[1..] == pre[1..] + [b];
      var next := if pre[0].Apply? then k + 1 else if pre[0].ApplySnapshot? then pre[0].seqno else k;
      PacedSwap(m, full, goal, pre[1..], a, b, next, k');
    }
  }

  lemma RepairedSends(m: Machine, w': World, id: Id, s: Node, from: Id, msg: Msg)
    requires msg.Append? && msg.epoch >= s.epoch && PrevOK(s, msg)
    requires from in w'.members && from != id && msg.epoch in w'.h.reigns
    requires AckedUpTo(w'.h, id, msg.epoch, msg.prevSeq + |msg.entries|)
    ensures SendsOK(true, m, w', id, AppendRepaired(s, from, msg).actions)
  {
    hide SendsOK, HandleAppend, PrevOK;
    AnswerShape(s, from, msg);
    var r := HandleAppend(s, from, msg);
    ReplyOK(true, m, w', id, from, msg.epoch, msg.prevSeq + |msg.entries|, true, r.actions[..|r.actions| - 1]);
  }

  lemma AcceptRepairedStep(m: Machine, group: seq<Id>, w: World, id: Id, h: Host, from: Id, msg: Msg)
    returns (w': World)
    requires Here(true, m, group, w, id, h) && msg.Append? && h.node.epoch <= msg.epoch && from in w.members
    requires from != id
    requires AppendOK(true, w, from, msg) && PrevOK(h.node, msg)
    ensures Answers(true, m, group, w, w', id, h, AppendRepaired(h.node, from, msg))
  {
    hide Inv, CommitInv, CommittedPrefix, Grows, Merge, Follow, PrevOK, Paced, Save, SendsOK, ApplyRange, AppendOK,
      Synced, HandleAppend, Mirrors, RowsOK, Settled, FileOK;
    w' := AcceptMoves(true, false, m, group, w, id, h, from, msg);
    SameGuard(h.node, from, msg);
    AcceptedIs(h.node, from, msg);
    FollowDiscipline(h.node, from, msg.epoch);
    AcceptSaved(true, m, group, w, id, h, from, msg);
    AcceptStrict(m, group, w, w', id, h, from, msg);
    RepairedSends(m, w', id, h.node, from, msg);
    AnswerShape(h.node, from, msg);
    var r := HandleAppend(h.node, from, msg);
    AnswerSwapped(m, w'.members[id].log, h.disk, r, from, AppendResp(msg.epoch, msg.prevSeq + |msg.entries|, true),
      r.node.applied, h.node.applied, r.node.applied);
  }

  lemma AppendRepairedStep(m: Machine, group: seq<Id>, w: World, id: Id, h: Host, from: Id, msg: Msg)
    returns (w': World)
    requires Here(true, m, group, w, id, h)
    requires msg.Append? && from in w.members && from != id && MsgOK(true, m, w, from, id, msg)
    ensures Answers(true, m, group, w, w', id, h, AppendRepaired(h.node, from, msg))
  {
    hide Inv, CommitInv, Grows, Answers, Merge, Follow, ApplyRange, PrevOK, StrictHost, Mirrors;
    if msg.epoch < h.node.epoch {
      w' := w;
      StaleStep(true, m, group, w, id, h, from);
    } else {
      SameGuard(h.node, from, msg);
      var s1 := Follow(h.node, from, msg.epoch).node;
      if PrevOK(h.node, msg) {
        w' := AcceptRepairedStep(m, group, w, id, h, from, msg);
      } else {
        w' := Join(w, id, from, msg.epoch);
        assert msg.prevSeq > 0 by { PrevZero(s1, msg); }
        RejectStep(true, m, group, w, id, h, from, msg.epoch, Max(Min(LastSeq(s1), msg.prevSeq - 1), s1.baseSeq));
      }
    }
  }

  // ---------------------------------------------------------------- snapshots

  /** A snapshot the follower is past acknowledges its own end, which is committed. */
  lemma OldRepairedMove(w: World, id: Id, s: Node, msg: Msg) returns (w': World)
    requires msg.InstallSnapshot? && Follows(true, w, id, s, msg.epoch) && msg.lastSeq <= s.applied
    ensures Moved(true, w, w', id) && Follows(true, w', id, s, msg.epoch)
    ensures w'.members[id].log == w.members[id].log && AckedUpTo(w'.h, id, msg.epoch, msg.lastSeq)
  {
    hide Inv, CommitInv, CommittedPrefix, Grows;
    var full, lead, q := w.members[id].log, w.h.reigns[msg.epoch].log, msg.lastSeq;
    LaterCommit(w, w, id);
    CommitWithinLog(w, id);
    CommittedInReign(w, msg.epoch, full, s.commit);
    assert lead[..q] == full[..s.commit][..q] == full[..q];
    assert Adopt(full, lead[..0]) == full;
    w' := Accept(w, id, 0, q);
    AcceptMove(true, w, id, 0, q);
  }

  lemma OldRepairedStep(m: Machine, group: seq<Id>, w: World, id: Id, h: Host, from: Id, msg: Msg) returns (w': World)
    requires Here(true, m, group, w, id, h) && msg.InstallSnapshot? && h.node.epoch <= msg.epoch && from in w.members
    requires from != id
    requires SnapshotOK(m, w, from, msg) && msg.lastSeq <= h.node.applied
    ensures Answers(true, m, group, w, w', id, h, SnapshotRepaired(h.node, from, msg))
  {
    hide Inv, CommitInv, CommittedPrefix, Grows, Follow, Save, SendsOK, Mirrors, RowsOK, Settled;
    var s, e := h.node, msg.epoch;
    JoinFollows(true, m, group, w, id, h, from, e);
    FollowDiscipline(s, from, e);
    var w1, f := Join(w, id, from, e), Follow(s, from, e);
    w' := OldRepairedMove(w1, id, f.node, msg);
    MovedTwice(true, w, w1, w', id);
    ReplyOK(true, m, w', id, from, e, msg.lastSeq, true, f.actions);
    NoRows(w'.h, f.node, w'.members[id].log);
    QuietTurn(true, m, group, w, w', id, h, SnapshotRepaired(s, from, msg));
  }

  /** What is retained is the part above the snapshot of the log the protocol adopts. */
  lemma RetainedIsAdopted(w: World, id: Id, s: Node, msg: Msg)
    requires msg.InstallSnapshot? && Follows(true, w, id, s, msg.epoch)
    requires s.applied < msg.lastSeq <= |w.h.reigns[msg.epoch].log|
    requires msg.lastEpoch == w.h.reigns[msg.epoch].log[msg.lastSeq - 1].epoch
    ensures var full' := Adopt(w.members[id].log, w.h.reigns[msg.epoch].log[..msg.lastSeq]);
            msg.lastSeq <= |full'| && Retained(s, msg) == full'[msg.lastSeq..]
  {
    hide Inv, CommitInv, EntriesFrom, Numbered;
    var full, lead, q := w.members[id].log, w.h.reigns[msg.epoch].log, msg.lastSeq;
    ReadMember(w, id, s);
    ReadAt(s, full, q);
    AdoptHasTarget(full, lead[..q]);
    if q <= |full| && full[q - 1].epoch == lead[q - 1].epoch {
      LogsOf(w, id, msg.epoch);
      LogsMatch(w.h, full, lead, q - 1);
      SuffixNumbered(s, full);
      EntriesFromSuffix(s.log, s.baseSeq, q + 1);
      assert full[s.baseSeq..][q - s.baseSeq..] == full[q..];
    } else if q <= |full| {
      assert full[..q][q - 1] != lead[..q][q - 1];
    }
  }

  lemma InstallRepairedMove(m: Machine, w: World, id: Id, s: Node, src: Id, msg: Msg) returns (w': World)
    requires msg.InstallSnapshot? && Follows(true, w, id, s, msg.epoch) && msg.lastSeq > s.applied
    requires SnapshotOK(m, w, src, msg)
    ensures Moved(true, w, w', id) && Follows(true, w', id, Installed(s, msg).(log := Retained(s, msg)), msg.epoch)
    ensures msg.lastSeq <= |w.h.reigns[msg.epoch].log|
    ensures w'.members[id].log == Adopt(w.members[id].log, w.h.reigns[msg.epoch].log[..msg.lastSeq])
    ensures AckedUpTo(w'.h, id, msg.epoch, msg.lastSeq)
  {
    hide Inv, CommitInv, Grows, CommittedPrefix, Retained;
    var full, lead, k := w.members[id].log, w.h.reigns[msg.epoch].log, msg.lastSeq;
    SnapshotBound(m, w, src, msg);
    RetainedIsAdopted(w, id, s, msg);
    AdoptHasTarget(full, lead[..k]);
    var w2 := Accept(w, id, k, k);
    AcceptMove(true, w, id, k, k);
    CommittedGrown(w, w2, id, msg.epoch, lead, k);
    PrefixCommit(w2, msg.epoch, lead, w2.members[id].log, k, k);
    w' := SetCommit(w2, id, k);
    SetCommitMove(true, w2, id, k);
    MovedTwice(true, w, w2, w', id);
    assert w'.members[id].log[k - 1] == lead[..k][k - 1];
  }

  lemma {:induction false} NoneBelowZero(log: seq<Entry>)
    ensures EntriesBelow(log, 0) == []
    decreases |log|
  {
    if log != [] {
      NoneBelowZero(log[1..]);
    }
  }

  /** Rewriting the stored log leaves the node's log and nothing else. */
  lemma RewriteStores(m: Machine, s': Node, disk: Disk, pre: seq<Action>, to: Id, reply: Msg)
    requires forall a :: a in pre ==> !a.PersistLog?
    requires forall i :: 0 <= i < |s'.log| ==> s'.log[i].seqno == s'.baseSeq + 1 + i
    ensures var d := Save(m, s', disk, pre + [PersistMeta, PersistLog(0), Send(to, reply)]);
            Synced(d, s') && CleanDisk(d)
  {
    hide EntriesFrom;
    var front := pre + [PersistMeta];
    var actions := pre + [PersistMeta, PersistLog(0), Send(to, reply)];
    assert actions == front + [PersistLog(0)] + [Send(to, reply)];
    assert PersistMeta in actions by { assert actions[|pre|] == PersistMeta; }
    SaveMetaEffect(m, s', disk, actions);
    SaveOnce(m, s', disk, front, 0, [Send(to, reply)]);
    NoneBelowZero(disk.log);
    FromEverything(s'.log, 0);
    assert [] + s'.log == s'.log;
    FromEverything(s'.log, s'.baseSeq + 1);
  }

  lemma InstallRepairedSaved(m: Machine, s: Node, disk: Disk, from: Id, msg: Msg)
    requires msg.InstallSnapshot? && s.epoch <= msg.epoch && msg.lastSeq > s.applied
    requires var r := SnapshotRepaired(s, from, msg);
             forall i :: 0 <= i < |r.node.log| ==> r.node.log[i].seqno == r.node.baseSeq + 1 + i
    ensures var r := SnapshotRepaired(s, from, msg);
            Synced(Save(m, r.node, disk, r.actions), r.node) && CleanDisk(Save(m, r.node, disk, r.actions))
  {
    hide Save, Synced, Follow, CleanDisk, Retained;
    FollowDiscipline(s, from, msg.epoch);
    var r := SnapshotRepaired(s, from, msg);
    var pre := Follow(s, from, msg.epoch).actions + [ApplySnapshot(msg.lastSeq, msg.data)];
    RewriteStores(m, r.node, disk, pre, from, AppendResp(msg.epoch, msg.lastSeq, true));
  }

  lemma InstallRepairedSends(m: Machine, w': World, id: Id, s: Node, from: Id, msg: Msg)
    requires msg.InstallSnapshot? && s.epoch <= msg.epoch && msg.lastSeq > s.applied
    requires from in w'.members && from != id && msg.epoch in w'.h.reigns && AckedUpTo(w'.h, id, msg.epoch, msg.lastSeq)
    ensures SendsOK(true, m, w', id, SnapshotRepaired(s, from, msg).actions)
  {
    hide SendsOK, Follow, Retained;
    FollowDiscipline(s, from, msg.epoch);
    var pre := Follow(s, from, msg.epoch).actions + [ApplySnapshot(msg.lastSeq, msg.data)];
    ReplyOK(true, m, w', id, from, msg.epoch, msg.lastSeq, true, pre + [PersistMeta, PersistLog(0)]);
    assert pre + RepairedTail(from, msg)
        == pre + [PersistMeta, PersistLog(0)] + [Send(from, AppendResp(msg.epoch, msg.lastSeq, true))];
  }

  lemma InstallRepairedStrict(m: Machine, w1: World, w': World, id: Id, h: Host, from: Id, msg: Msg)
    requires msg.InstallSnapshot? && h.node.epoch <= msg.epoch && msg.lastSeq > h.node.applied
    requires Follows(true, w1, id, Follow(h.node, from, msg.epoch).node, msg.epoch) && id in w1.members
    requires id in w'.members
    requires FileOK(m, h.disk.file, w1.members[id].log, h.node.applied) && SnapshotOK(m, w1, from, msg)
    requires msg.lastSeq <= |w1.h.reigns[msg.epoch].log|
    requires w'.members[id].log == Adopt(w1.members[id].log, w1.h.reigns[msg.epoch].log[..msg.lastSeq])
    ensures StrictTurn(m, w', id, h.disk.file, SnapshotRepaired(h.node, from, msg), h.node.applied)
  {
    hide Follow, Paced, Follows, FileOK, CommittedPrefix, Retained;
    FollowDiscipline(h.node, from, msg.epoch);
    var full, q, lead := w'.members[id].log, msg.lastSeq, w1.h.reigns[msg.epoch].log;
    var f := Follow(h.node, from, msg.epoch);
    ReceivedFile(m, w1, id, h, msg.epoch, q, f.node);
    AdoptHasTarget(w1.members[id].log, lead[..q]);
    assert full[..q] == lead[..q];
    InstallPaced(m, full, q, msg.data, f.actions, RepairedTail(from, msg), h.node.applied);
    NoRows(w'.h, SnapshotRepaired(h.node, from, msg).node, full);
  }

  lemma FollowerNumbered(w: World, id: Id, s: Node, e: nat)
    requires Follows(true, w, id, s, e)
    ensures forall i :: 0 <= i < |s.log| ==> s.log[i].seqno == s.baseSeq + 1 + i
  {
    hide Inv;
    ReadMember(w, id, s);
    SuffixNumbered(s, w.members[id].log);
  }

  lemma InstallRepairedStep(m: Machine, group: seq<Id>, w: World, id: Id, h: Host, from: Id, msg: Msg)
    returns (w': World)
    requires Here(true, m, group, w, id, h) && msg.InstallSnapshot? && h.node.epoch <= msg.epoch && from in w.members
    requires from != id
    requires SnapshotOK(m, w, from, msg) && msg.lastSeq > h.node.applied
    ensures var r := SnapshotRepaired(h.node, from, msg);
            Answers(true, m, group, w, w', id, h, r) && CleanDisk(Save(m, r.node, h.disk, r.actions))
  {
    hide Inv, CommitInv, CommittedPrefix, Grows, Follow, Save, SendsOK, Synced, Mirrors, FileOK, StrictTurn, Retained, CleanDisk;
    var s, e := h.node, msg.epoch;
    JoinFollows(true, m, group, w, id, h, from, e);
    FollowDiscipline(s, from, e);
    var w1, f := Join(w, id, from, e), Follow(s, from, e);
    SnapshotGrows(m, w, w1, id, from, msg);
    w' := InstallRepairedMove(m, w1, id, f.node, from, msg);
    MovedTwice(true, w, w1, w', id);
    var r := SnapshotRepaired(s, from, msg);
    FollowerNumbered(w', id, r.node, e);
    InstallRepairedSaved(m, s, h.disk, from, msg);
    InstallRepairedSends(m, w', id, s, from, msg);
    InstallRepairedStrict(m, w1, w', id, h, from, msg);
  }

  // ---------------------------------------------------------------- clean stores

  ghost predicate AllClean(c: Cluster) {
    forall id {:trigger c.hosts[id]} :: id in c.hosts ==> CleanDisk(c.hosts[id].disk)
  }

  /** A turn that leaves the snapshot point alone leaves the store clean. */
  lemma TurnClean(m: Machine, group: seq<Id>, w': World, id: Id, h: Host, r: Outcome)
    requires Inv(w') && TurnOK(true, m, group, w', id, h, r) && r.node.baseSeq == h.node.baseSeq
    requires Synced(h.disk, h.node) && CleanDisk(h.disk)
    ensures CleanDisk(Save(m, r.node, h.disk, r.actions))
  {
    hide Inv, Save, SendsOK, StrictTurn;
    ReadMember(w', id, r.node);
    SuffixNumbered(r.node, w'.members[id].log);
    SaveClean(m, r.node, h.disk, r.actions, h.node.baseSeq);
  }

  lemma OldKeepsBase(s: Node, from: Id, msg: Msg)
    requires msg.InstallSnapshot? && (msg.epoch < s.epoch || msg.lastSeq <= s.applied)
    ensures SnapshotRepaired(s, from, msg).node.baseSeq == s.baseSeq
  {
    if msg.epoch >= s.epoch {
      FollowDiscipline(s, from, msg.epoch);
    }
  }

  lemma AppendKeepsBase(s: Node, p: Packet)
    requires WellFormed(s) && p.msg.Append?
    ensures AppendRepaired(s, p.src, p.msg).node.baseSeq == s.baseSeq
  {
    hide HandleAppend, PrevOK;
    TurnBase(s, Deliver(p));
  }

  // ---------------------------------------------------------------- runs

  lemma SnapshotRepairedStep(m: Machine, group: seq<Id>, w: World, h: Host, p: Packet) returns (w': World)
    requires Here(true, m, group, w, p.dst, h) && PacketOK(true, m, w, p) && p.msg.InstallSnapshot? && CleanDisk(h.disk)
    ensures var r := SnapshotRepaired(h.node, p.src, p.msg);
            Answers(true, m, group, w, w', p.dst, h, r) && CleanDisk(Save(m, r.node, h.disk, r.actions))
  {
    hide Inv, CommitInv, Grows, Follow, StrictHost, Mirrors, CleanDisk, Save, TurnOK, Synced, Moved, Retained;
    var r := SnapshotRepaired(h.node, p.src, p.msg);
    if p.msg.epoch >= h.node.epoch && p.msg.lastSeq > h.node.applied {
      w' := InstallRepairedStep(m, group, w, p.dst, h, p.src, p.msg);
    } else {
      if p.msg.epoch < h.node.epoch {
        w' := w;
        StaleStep(true, m, group, w, p.dst, h, p.src);
      } else {
        w' := OldRepairedStep(m, group, w, p.dst, h, p.src, p.msg);
      }
      OldKeepsBase(h.node, p.src, p.msg);
      MovedInv(w, w', p.dst);
      TurnClean(m, group, w', p.dst, h, r);
    }
  }

  lemma MovedInv(w: World, w': World, id: Id)
    requires Moved(true, w, w', id)
    ensures Inv(w')
  {
  }

  lemma TurnRepairedStep(m: Machine, group: seq<Id>, c: Cluster, w: World, ev: Event) returns (w': World)
    requires SimInv(true, m, group, c, w) && AllClean(c) && Enabled(c, ev) && !ev.Shrink? && !ev.Crash?
    ensures var h := c.hosts[Actor(ev)];
            && WellFormed(h.node)
            && var r := TurnRepaired(h.node, ev);
            Answers(true, m, group, w, w', Actor(ev), h, r) && CleanDisk(Save(m, r.node, h.disk, r.actions))
  {
    hide Inv, CommitInv, Turn, StrictHost, Mirrors, CleanDisk, Save, TurnOK, Synced, Moved, AppendRepaired, SnapshotRepaired;
    var id := Actor(ev);
    var h := c.hosts[id];
    assert HostOK(true, m, group, w, id, h);
    if ev.Deliver? && ev.packet.msg.InstallSnapshot? {
      assert PacketOK(true, m, w, ev.packet);
      w' := SnapshotRepairedStep(m, group, w, h, ev.packet);
    } else {
      if ev.Deliver? && ev.packet.msg.Append? {
        assert PacketOK(true, m, w, ev.packet);
        w' := AppendRepairedStep(m, group, w, id, h, ev.packet.src, ev.packet.msg);
        AppendKeepsBase(h.node, ev.packet);
      } else {
        w' := TurnStep(true, m, group, c, w, ev);
        TurnBase(h.node, ev);
      }
      MovedInv(w, w', id);
      TurnClean(m, group, w', id, h, TurnRepaired(h.node, ev));
    }
  }

  lemma StepRepairedSimulated(m: Machine, group: seq<Id>, c: Cluster, w: World, ev: Event, c': Cluster)
    returns (w': World)
    requires SimInv(true, m, group, c, w) && AllClean(c) && StepRepaired(m, group, c, ev, c')
    ensures SimInv(true, m, group, c', w') && AllClean(c') && Moved(true, w, w', Actor(ev))
  {
    hide Inv, CommitInv, SimInv, Moved, TurnOK, TurnRepaired, Turn, Save, ShrinkHost, RestartHost, Guarded;
    if ev.Shrink? || ev.Crash? {
      RestCovered(c, ev);
      w' := StepSimulated(true, m, group, c, w, ev, c');
      RestClean(m, group, c, w, ev);
    } else {
      w' := TurnRepairedStep(m, group, c, w, ev);
      CarriedLands(true, m, group, c, w, w', Actor(ev), TurnRepaired(c.hosts[Actor(ev)].node, ev));
    }
  }

  lemma RestCovered(c: Cluster, ev: Event)
    requires Enabled(c, ev) && AllClean(c) && (ev.Shrink? || ev.Crash?)
    ensures Covered(true, c, ev)
  {
  }

  lemma RestClean(m: Machine, group: seq<Id>, c: Cluster, w: World, ev: Event)
    requires SimInv(true, m, group, c, w) && Enabled(c, ev) && AllClean(c) && (ev.Shrink? || ev.Crash?)
    requires WellFormed(c.hosts[Actor(ev)].node)
    ensures AllClean(Next(m, group, c, ev))
  {
    hide SimInv;
    if ev.Shrink? {
      var h := c.hosts[ev.id];
      FromElements(h.disk.log, Compact(h.node, ev.keepTail).baseSeq + 1);
    }
  }

  lemma {:induction false} FromElements(log: seq<Entry>, q: nat)
    ensures forall e :: e in EntriesFrom(log, q) ==> e.seqno >= q
    decreases |log|
  {
    if log != [] {
      FromElements(log[1..], q);
    }
  }

  lemma RepairedPrefix(m: Machine, group: seq<Id>, cs: seq<Cluster>, evs: seq<Event>)
    requires IsRepairedRun(m, group, cs, evs) && evs != []
    ensures IsRepairedRun(m, group, cs[..|evs|], evs[..|evs| - 1])
    ensures StepRepaired(m, group, cs[|evs| - 1], evs[|evs| - 1], cs[|evs|])
  {
  }

  lemma InitClean(m: Machine, group: seq<Id>)
    ensures AllClean(Init(m, group))
  {
  }

  /** One world backs every cluster a repaired run passed through. */
  lemma {:induction false} RepairedBacked(m: Machine, group: seq<Id>, cs: seq<Cluster>, evs: seq<Event>)
    returns (w: World)
    requires IsRepairedRun(m, group, cs, evs)
    ensures SimInv(true, m, group, cs[|evs|], w) && AllClean(cs[|evs|])
    ensures forall i {:trigger cs[i]} :: 0 <= i <= |evs| ==> Backs(m, cs[i], w)
    decreases |evs|
  {
    hide SimInv, AllClean, StepRepaired, Init, Backs;
    if evs == [] {
      w := InitSimulated(true, m, group);
      InitClean(m, group);
    } else {
      var n := |evs| - 1;
      RepairedPrefix(m, group, cs, evs);
      var w0 := RepairedBacked(m, group, cs[..n + 1], evs[..n]);
      w := StepRepairedSimulated(m, group, cs[n], w0, evs[n], cs[n + 1]);
      forall i | 0 <= i <= n
        ensures Backs(m, cs[i], w)
      {
        assert cs[..n + 1][i] == cs[i];
        BackedLater(m, cs[i], w0, w, Actor(evs[n]));
      }
    }
    BackedNow(m, group, cs[|evs|], w);
  }

  /**
  Safety of the repaired replica, over all its runs: one sequence of entries
  explains every database, every committed log entry and everything applied, at
  every moment, through compaction, snapshots and restarts.
  */
  lemma RepairedOneHistory(m: Machine, group: seq<Id>, cs: seq<Cluster>, evs: seq<Event>) returns (t: seq<Entry>)
    requires IsRepairedRun(m, group, cs, evs)
    ensures forall i {:trigger cs[i]} :: 0 <= i <= |evs| ==> Explains(m, t, cs[i])
  {
    hide StepRepaired, Inv, CommitInv, Backs, Explains, Covers, Init;
    var w := RepairedBacked(m, group, cs, evs);
    t := LongestHistory(w);
    forall i | 0 <= i <= |evs|
      ensures Explains(m, t, cs[i])
    {
      CoversExplains(m, w, t, cs[i]);
    }
  }

  /** No two nodes of the repaired replica ever apply different entries at one sequence number. */
  lemma RepairedStateMachineSafety(m: Machine, group: seq<Id>, cs: seq<Cluster>, evs: seq<Event>, a: Application,
          b: Application)
    requires IsRepairedRun(m, group, cs, evs)
    requires a in cs[|evs|].applied && b in cs[|evs|].applied && a.entry.seqno == b.entry.seqno
    ensures a.entry == b.entry
  {
    hide StepRepaired, Init;
    var t := RepairedOneHistory(m, group, cs, evs);
    assert Explains(m, t, cs[|evs|]);
  }

  lemma RepairedWellFormed(m: Machine, group: seq<Id>, cs: seq<Cluster>, evs: seq<Event>)
    requires IsRepairedRun(m, group, cs, evs)
    ensures AllWellFormed(cs[|evs|])
  {
    hide StepRepaired, Init, Inv, CommitInv, PacketOK, AppliedOK, Mirrors, VoteBacked, Synced, StrictHost;
    var w := RepairedBacked(m, group, cs, evs);
    forall id | id in cs[|evs|].hosts
      ensures WellFormed(cs[|evs|].hosts[id].node)
    {
      assert HostOK(true, m, group, w, id, cs[|evs|].hosts[id]);
    }
  }

  /** No event of a repaired run can get stuck: whatever can happen next extends the run. */
  lemma RepairedRunsContinue(m: Machine, group: seq<Id>, cs: seq<Cluster>, evs: seq<Event>, ev: Event)
    requires IsRepairedRun(m, group, cs, evs) && Enabled(cs[|evs|], ev)
    ensures AllWellFormed(cs[|evs|])
    ensures IsRepairedRun(m, group, cs + [NextRepaired(m, group, cs[|evs|], ev)], evs + [ev])
  {
    hide NextRepaired, Init;
    RepairedWellFormed(m, group, cs, evs);
    var cs', evs' := cs + [NextRepaired(m, group, cs[|evs|], ev)], evs + [ev];
    forall i | 0 <= i < |evs'|
      ensures StepRepaired(m, group, cs'[i], evs'[i], cs'[i + 1])
    {
      if i < |evs| {
        assert StepRepaired(m, group, cs[i], evs[i], cs[i + 1]);
      }
    }
  }
}
