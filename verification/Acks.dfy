/**
When an acknowledgement is truthful.

An accepted Append, and a snapshot the follower is already past, are
acknowledged with the follower's last sequence number, documented as the highest
one known to match the leader.  This module gives the exact conditions under
which it does match.  Nodes may have compacted their logs, so the statements are
about the whole logs of the protocol world behind the run, of which each node
holds the suffix above its snapshot point.
*/
module Acks {
  import opened Options
  import opened Quorum
  import opened Collections
  import opened Groups
  import opened Cluster
  import opened Turns
  import opened Protocol
  import opened ProtocolSteps
  import opened Mirror
  import opened Storage
  import opened Simulation
  import opened SimMoves
  import opened SimAppend
  import opened SimSnapshot
  import opened Guards
  import opened Safety

  /** The merged log is a prefix of the leader's exactly when the guard holds. */
  lemma MergedMatches(w: World, id: Id, e: nat, k: nat)
    requires Inv(w) && id in w.members && e in w.h.reigns && w.members[id].epoch == e
    requires |w.h.reigns[e].start| <= k <= |w.h.reigns[e].log|
    ensures var full' := Adopt(w.members[id].log, w.h.reigns[e].log[..k]);
            full' <= w.h.reigns[e].log <==> |full'| <= k || LastEpoch(full') == e
  {
    var r := w.h.reigns[e];
    var full' := Adopt(w.members[id].log, r.log[..k]);
    assert ReignOK(w, e, r);
    if |full'| <= k || LastEpoch(full') == e {
      AckIsTruthful(w, id, e, k);
    }
  }

  lemma SliceReaches(w: World, msg: Msg)
    requires msg.Append? && msg.epoch in w.h.reigns && Slice(w, msg)
    ensures |w.h.reigns[msg.epoch].start| <= msg.prevSeq + |msg.entries| <= |w.h.reigns[msg.epoch].log|
  {
  }

  /** The follower's whole log once the entries of an Append are merged. */
  ghost function WholeReceived(w: World, id: Id, msg: Msg): seq<Entry>
    requires id in w.members && msg.Append? && msg.epoch in w.h.reigns
  {
    var lead, k := w.h.reigns[msg.epoch].log, msg.prevSeq + |msg.entries|;
    if k <= |lead| then Adopt(w.members[id].log, lead[..k]) else w.members[id].log
  }

  /** The merged log of a node that already follows the sender. */
  lemma FollowerReceives(strict: bool, w: World, id: Id, s: Node, src: Id, msg: Msg)
    requires msg.Append? && Follows(strict, w, id, s, msg.epoch) && AppendOK(strict, w, src, msg) && PrevOK(s, msg)
    ensures SuffixOf(Received(s, msg), WholeReceived(w, id, msg)) && Numbered(WholeReceived(w, id, msg))
    ensures var full', k := WholeReceived(w, id, msg), msg.prevSeq + |msg.entries|;
            full' <= w.h.reigns[msg.epoch].log <==> |full'| <= k || LastEpoch(full') == msg.epoch
  {
    hide Inv, CommitInv, Merge, PrevOK, Adopt, VoteBacked, CommittedPrefix;
    var k := msg.prevSeq + |msg.entries|;
    PrevAgrees(strict, w, id, s, src, msg);
    SliceReaches(w, msg);
    ReceivedIsAdopted(strict, w, id, s, src, msg);
    AdoptedNumbered(w, id, k);
    BaseAgrees(strict, w, id, s, msg.epoch);
    AdoptKeepsBase(s.baseSeq, w.members[id].log, w.h.reigns[msg.epoch].log, k);
    ReceivedBase(s, w.members[id].log, WholeReceived(w, id, msg), msg);
    MergedMatches(w, id, msg.epoch, k);
  }

  lemma ReceivedInWorld(strict: bool, m: Machine, group: seq<Id>, w: World, id: Id, h: Host, from: Id, msg: Msg)
    requires Here(strict, m, group, w, id, h) && msg.Append? && h.node.epoch <= msg.epoch
    requires AppendOK(strict, w, from, msg) && PrevOK(h.node, msg)
    ensures SuffixOf(Received(h.node, msg), WholeReceived(w, id, msg))
    ensures WholeReceived(w, id, msg) <= w.h.reigns[msg.epoch].log <==> TruthfulAck(h.node, msg)
  {
    hide Inv, CommitInv, Grows, Merge, Follow, PrevOK, Adopt, VoteBacked, Synced, StrictHost, CommittedPrefix, Follows, Slice,
      Mirrors, SuffixOf, Numbered;
    var s, e := h.node, msg.epoch;
    JoinFollows(strict, m, group, w, id, h, from, e);
    FollowDiscipline(s, from, e);
    SameGuard(s, from, msg);
    var w1, s1 := Join(w, id, from, e), Follow(s, from, e).node;
    AppendGrows(strict, m, w, w1, id, from, msg);
    FollowerReceives(strict, w1, id, s1, from, msg);
    assert WholeReceived(w1, id, msg) == WholeReceived(w, id, msg);
    ReadLast(Received(s1, msg), WholeReceived(w, id, msg));
    SameReceived(s, s1, WholeReceived(w, id, msg), msg);
  }

  lemma SameReceived(s: Node, s1: Node, full: seq<Entry>, msg: Msg)
    requires msg.Append? && s1.log == s.log && s1.baseSeq == s.baseSeq && s1.baseEpoch == s.baseEpoch
    ensures SuffixOf(Received(s, msg), full) <==> SuffixOf(Received(s1, msg), full)
    ensures LastSeq(Received(s, msg)) == LastSeq(Received(s1, msg)) && LastEpochOf(Received(s, msg)) == LastEpochOf(Received(s1, msg))
  {
    hide Merge;
  }

  /**
  When a follower accepts an Append of a leader still in office, the log it
  acknowledges is a prefix of that leader's log if and only if nothing of an older
  epoch sticks out beyond the received entries.
  */
  lemma AckExactlyWhenTruthful(strict: bool, m: Machine, group: seq<Id>, cs: seq<Cluster>, evs: seq<Event>, p: Packet)
    returns (w: World)
    requires CoveredRun(strict, m, group, cs, evs) && p in cs[|evs|].net && p.msg.Append?
    requires p.src in cs[|evs|].hosts && p.dst in cs[|evs|].hosts
    requires var s := cs[|evs|].hosts[p.dst].node; p.msg.epoch >= s.epoch && PrevOK(s, p.msg)
    requires InOffice(cs[|evs|].hosts[p.src].node, p.msg.epoch)
    ensures SimInv(strict, m, group, cs[|evs|], w) && p.src in w.members && p.dst in w.members && p.msg.epoch in w.h.reigns
    ensures SuffixOf(cs[|evs|].hosts[p.src].node, w.members[p.src].log)
    ensures SuffixOf(Received(cs[|evs|].hosts[p.dst].node, p.msg), WholeReceived(w, p.dst, p.msg))
    ensures WholeReceived(w, p.dst, p.msg) <= w.members[p.src].log <==> TruthfulAck(cs[|evs|].hosts[p.dst].node, p.msg)
  {
    hide CoveredRun, Inv, CommitInv, AppliedOK, CommittedPrefix, VoteBacked, Synced, Sort, TruthfulAck, Received, PrevOK,
      StrictHost, WholeReceived, Slice;
    RunLength(strict, m, group, cs, evs);
    w := RunSimulated(strict, m, group, cs, evs);
    var c := cs[|evs|];
    assert PacketOK(strict, m, w, p);
    assert HostOK(strict, m, group, w, p.src, c.hosts[p.src]) && HostOK(strict, m, group, w, p.dst, c.hosts[p.dst]);
    LeaderLog(w, p.src);
    ReceivedInWorld(strict, m, group, w, p.dst, c.hosts[p.dst], p.src, p.msg);
  }

  /** Without compaction the nodes hold whole logs, and the same condition decides about the logs themselves. */
  lemma UncompactedAckExactlyWhenTruthful(m: Machine, group: seq<Id>, cs: seq<Cluster>, evs: seq<Event>, p: Packet)
    requires UncompactedRun(m, group, cs, evs) && p in cs[|evs|].net && p.msg.Append?
    requires p.src in cs[|evs|].hosts && p.dst in cs[|evs|].hosts
    requires var s := cs[|evs|].hosts[p.dst].node; p.msg.epoch >= s.epoch && PrevOK(s, p.msg)
    requires InOffice(cs[|evs|].hosts[p.src].node, p.msg.epoch)
    ensures var s := cs[|evs|].hosts[p.dst].node;
            Received(s, p.msg).log <= cs[|evs|].hosts[p.src].node.log <==> TruthfulAck(s, p.msg)
  {
    hide CoveredRun, Inv, CommitInv, PacketOK, VoteBacked, Synced, Sort, TruthfulAck, Merge, PrevOK, WholeReceived;
    RunLength(false, m, group, cs, evs);
    var w := AckExactlyWhenTruthful(false, m, group, cs, evs, p);
    var c := cs[|evs|];
    assert HostOK(false, m, group, w, p.src, c.hosts[p.src]) && HostOK(false, m, group, w, p.dst, c.hosts[p.dst]);
  }

  /**
  When a follower is past a snapshot of a leader still in office, the log it
  acknowledges is a prefix of that leader's log if and only if the leader holds an
  entry of the same epoch where the follower's log ends.  The leader's log has to
  reach down that far; below its snapshot point it knows nothing to compare with.
  */
  lemma OldAckExactlyWhenTruthful(m: Machine, group: seq<Id>, cs: seq<Cluster>, evs: seq<Event>, p: Packet)
    returns (w: World)
    requires GuardedRun(m, group, cs, evs) && p in cs[|evs|].net && p.msg.InstallSnapshot?
    requires p.src in cs[|evs|].hosts && p.dst in cs[|evs|].hosts
    requires var s := cs[|evs|].hosts[p.dst].node; p.msg.epoch >= s.epoch && p.msg.lastSeq <= s.applied
    requires var s, l := cs[|evs|].hosts[p.dst].node, cs[|evs|].hosts[p.src].node;
             InOffice(l, p.msg.epoch) && l.baseSeq <= LastSeq(s)
    ensures SimInv(true, m, group, cs[|evs|], w) && p.src in w.members && p.dst in w.members
    ensures SuffixOf(cs[|evs|].hosts[p.src].node, w.members[p.src].log)
    ensures SuffixOf(cs[|evs|].hosts[p.dst].node, w.members[p.dst].log)
    ensures w.members[p.dst].log <= w.members[p.src].log
            <==> HarmlessSnapshot(cs[|evs|].hosts[p.dst].node, Sender(cs[|evs|], p), p.msg)
  {
    hide CoveredRun, Inv, CommitInv, AppliedOK, CommittedPrefix, VoteBacked, Synced, Sort, TruthfulOldAck, FileOK, RowsOK,
      Settled, EpochAt;
    RunLength(true, m, group, cs, evs);
    w := RunSimulated(true, m, group, cs, evs);
    var c := cs[|evs|];
    var s, l := c.hosts[p.dst].node, c.hosts[p.src].node;
    assert PacketOK(true, m, w, p);
    assert HostOK(true, m, group, w, p.src, c.hosts[p.src]) && HostOK(true, m, group, w, p.dst, c.hosts[p.dst]);
    MatchedBySender(w, p.dst, s, p.src, l, p.msg.epoch);
    if TruthfulOldAck(s, Some(l), p.msg) {
      OldAckMatches(m, group, w, p.dst, c.hosts[p.dst], p.src, l, p.msg);
    } else {
      OldAckSays(s, l, p.msg);
    }
  }

  lemma OldAckSays(s: Node, l: Node, msg: Msg)
    requires msg.InstallSnapshot? && InOffice(l, msg.epoch) && !TruthfulOldAck(s, Some(l), msg)
    ensures EpochAt(l, LastSeq(s)) != Some(LastEpochOf(s))
  {
  }

  lemma OldAckMatches(m: Machine, group: seq<Id>, w: World, id: Id, h: Host, src: Id, l: Node, msg: Msg)
    requires Here(true, m, group, w, id, h) && src in w.members && src != id && Mirrors(l, w.members[src])
    requires msg.InstallSnapshot? && h.node.epoch <= msg.epoch && SnapshotOK(m, w, src, msg)
    requires TruthfulOldAck(h.node, Some(l), msg)
    ensures w.members[id].log <= w.h.reigns[msg.epoch].log
  {
    hide Inv, CommitInv, Grows, Follow, EpochAt;
    var e := msg.epoch;
    JoinFollows(true, m, group, w, id, h, src, e);
    FollowDiscipline(h.node, src, e);
    OldSnapshotLog(Join(w, id, src, e), id, Follow(h.node, src, e).node, src, Some(l), msg);
  }
}
