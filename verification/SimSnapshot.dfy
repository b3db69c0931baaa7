/** Received snapshots keep the simulation. */
module SimSnapshot {
  import opened Options
  import opened Quorum
  import opened Collections
  import opened Groups
  import opened Cluster
  import opened Turns
  import opened Protocol
  import opened ProtocolSteps
  import opened Mirror
  import opened Storage
  import opened Simulation
  import opened SimMoves
  import opened SimElections
  import opened SimLeader
  import opened SimClient
  import opened SimAppend
  import opened Guards

  // ---------------------------------------------------------------- a snapshot that adds nothing

  /** With the guard, the whole log of a follower that is past the snapshot is the leader's. */
  /** What is known of the node that sent the snapshot. */
  ghost predicate SentBy(w: World, src: Id, sender: Option<Node>) {
    sender.Some? ==> src in w.members && Mirrors(sender.value, w.members[src])
  }

  /** A leader in office holds an entry of the follower's last epoch where the follower's log ends: the logs agree. */
  lemma MatchedBySender(w: World, id: Id, s: Node, src: Id, l: Node, e: nat)
    requires Inv(w) && id in w.members && src in w.members && Mirrors(s, w.members[id]) && Mirrors(l, w.members[src])
    requires InOffice(l, e) && l.baseSeq <= LastSeq(s)
    ensures LeadsReign(w, src) && w.members[src].epoch == e
    ensures w.members[id].log <= w.members[src].log <==> EpochAt(l, LastSeq(s)) == Some(LastEpochOf(s))
  {
    hide Inv;
    var full, lead := w.members[id].log, w.members[src].log;
    ReadMember(w, id, s);
    LeadingMember(w, src);
    ReadAt(l, lead, |full|);
    MemberLogOK(w, id);
    MemberLogOK(w, src);
    assert full[..|full|] == full;
    if full != [] && |full| <= |lead| && full[|full| - 1].epoch == lead[|full| - 1].epoch {
      LogsMatch(w.h, full, lead, |full| - 1);
    }
  }

  lemma MemberLogOK(w: World, id: Id)
    requires Inv(w) && id in w.members
    ensures LogOK(w.h, w.members[id].log)
  {
    assert MemberOK(w, id, w.members[id]);
  }

  lemma OldSnapshotLog(w: World, id: Id, s: Node, src: Id, sender: Option<Node>, msg: Msg)
    requires msg.InstallSnapshot? && Follows(true, w, id, s, msg.epoch)
    requires SentBy(w, src, sender) && TruthfulOldAck(s, sender, msg)
    ensures w.members[id].log <= w.h.reigns[msg.epoch].log
  {
    hide Inv, CommittedPrefix;
    var full, lead := w.members[id].log, w.h.reigns[msg.epoch].log;
    ReadMember(w, id, s);
    assert full[..|full|] == full;
    if LastSeq(s) <= s.applied {
      LaterCommit(w, w, id);
      CommitWithinLog(w, id);
      CommittedInReign(w, msg.epoch, full, s.commit);
    } else if LastEpochOf(s) == msg.epoch {
      assert lead[..0] <= full;
      AckIsTruthful(w, id, msg.epoch, 0);
    } else {
      MatchedBySender(w, id, s, src, sender.value, msg.epoch);
    }
  }

  lemma OldSnapshotMove(w: World, id: Id, s: Node, src: Id, sender: Option<Node>, msg: Msg) returns (w': World)
    requires msg.InstallSnapshot? && Follows(true, w, id, s, msg.epoch)
    requires SentBy(w, src, sender) && TruthfulOldAck(s, sender, msg)
    ensures Moved(true, w, w', id) && Follows(true, w', id, s, msg.epoch)
    ensures w'.members[id].log == w.members[id].log && LastSeq(s) == |w.members[id].log|
    ensures AckedUpTo(w'.h, id, msg.epoch, |w.members[id].log|)
  {
    hide Inv, CommitInv, CommittedPrefix, Grows, TruthfulOldAck;
    var full, lead := w.members[id].log, w.h.reigns[msg.epoch].log;
    ReadMember(w, id, s);
    OldSnapshotLog(w, id, s, src, sender, msg);
    assert Adopt(full, lead[..0]) == full;
    w' := Accept(w, id, 0, |full|);
    AcceptMove(true, w, id, 0, |full|);
  }

  lemma OldSnapshotStep(m: Machine, group: seq<Id>, w: World, id: Id, h: Host, from: Id, sender: Option<Node>, msg: Msg)
    returns (w': World)
    requires Here(true, m, group, w, id, h) && msg.InstallSnapshot? && h.node.epoch <= msg.epoch && from in w.members
    requires from != id && SentBy(w, from, sender)
    requires SnapshotOK(m, w, from, msg) && HarmlessSnapshot(h.node, sender, msg) && msg.lastSeq <= h.node.applied
    ensures Answers(true, m, group, w, w', id, h, HandleSnapshot(h.node, from, msg))
  {
    hide Inv, CommitInv, CommittedPrefix, Grows, Follow, Save, SendsOK, Mirrors, RowsOK, Settled;
    var s, e := h.node, msg.epoch;
    JoinFollows(true, m, group, w, id, h, from, e);
    FollowDiscipline(s, from, e);
    var w1, f := Join(w, id, from, e), Follow(s, from, e);
    w' := OldSnapshotMove(w1, id, f.node, from, sender, msg);
    MovedTwice(true, w, w1, w', id);
    ReplyOK(true, m, w', id, from, e, LastSeq(f.node), true, f.actions);
    NoRows(w'.h, f.node, w'.members[id].log);
    QuietTurn(true, m, group, w, w', id, h, HandleSnapshot(s, from, msg));
  }

  // ---------------------------------------------------------------- installation

  /** With the guard, the follower keeps exactly the snapshot's prefix of the leader's log. */
  lemma InstallAdopts(w: World, id: Id, s: Node, msg: Msg)
    requires msg.InstallSnapshot? && Follows(true, w, id, s, msg.epoch) && msg.lastSeq > s.applied
    requires msg.lastSeq <= |w.h.reigns[msg.epoch].log|
    requires msg.lastEpoch == w.h.reigns[msg.epoch].log[msg.lastSeq - 1].epoch
    requires !(EpochAt(s, msg.lastSeq) == Some(msg.lastEpoch) && LastSeq(s) > msg.lastSeq)
    ensures Adopt(w.members[id].log, w.h.reigns[msg.epoch].log[..msg.lastSeq]) == w.h.reigns[msg.epoch].log[..msg.lastSeq]
  {
    hide Inv, CommitInv;
    var full, t := w.members[id].log, w.h.reigns[msg.epoch].log[..msg.lastSeq];
    ReadMember(w, id, s);
    ReadAt(s, full, msg.lastSeq);
    if t <= full {
      assert full[msg.lastSeq - 1] == t[msg.lastSeq - 1];
    }
  }

  /**
  Clearing the log is right, that is, it leaves what section 7 of the Raft paper
  would leave (a log that already extends the snapshot is kept), if and only if
  the follower does not hold the snapshot's last entry with more after it.
  */
  lemma ClearingKeepsExactly(s: Node, full: seq<Entry>, lead: seq<Entry>, sender: Option<Node>, msg: Msg)
    requires msg.InstallSnapshot? && SuffixOf(s, full) && Numbered(full) && Matching(full, lead)
    requires s.baseSeq <= s.applied < msg.lastSeq <= |lead| && msg.lastEpoch == lead[msg.lastSeq - 1].epoch
    requires s.epoch <= msg.epoch
    ensures Adopt(full, lead[..msg.lastSeq]) == lead[..msg.lastSeq] <==> HarmlessSnapshot(s, sender, msg)
  {
    hide Matching;
    var q := msg.lastSeq;
    ReadAt(s, full, q);
    ReadLast(s, full);
    if q <= |full| {
      if full[q - 1].epoch == lead[q - 1].epoch {
        MatchedUpTo(full, lead, q);
      } else {
        assert full[..q][q - 1] != lead[..q][q - 1];
      }
    }
  }

  lemma MatchedUpTo(full: seq<Entry>, lead: seq<Entry>, q: nat)
    requires Matching(full, lead) && 0 < q <= |full| && q <= |lead| && full[q - 1].epoch == lead[q - 1].epoch
    ensures full[..q] == lead[..q]
  {
    assert full[..q - 1 + 1] == lead[..q - 1 + 1];
  }

  function Installed(s: Node, msg: Msg): Node
    requires msg.InstallSnapshot?
  {
    s.(log := [], baseSeq := msg.lastSeq, baseEpoch := msg.lastEpoch, commit := msg.lastSeq, applied := msg.lastSeq)
  }

  lemma InstallMove(m: Machine, w: World, id: Id, s: Node, src: Id, msg: Msg) returns (w': World)
    requires msg.InstallSnapshot? && Follows(true, w, id, s, msg.epoch) && msg.lastSeq > s.applied
    requires SnapshotOK(m, w, src, msg)
    requires !(EpochAt(s, msg.lastSeq) == Some(msg.lastEpoch) && LastSeq(s) > msg.lastSeq)
    ensures Moved(true, w, w', id) && Follows(true, w', id, Installed(s, msg), msg.epoch)
    ensures msg.lastSeq <= |w.h.reigns[msg.epoch].log|
    ensures w'.members[id].log == w.h.reigns[msg.epoch].log[..msg.lastSeq]
         == Adopt(w.members[id].log, w.h.reigns[msg.epoch].log[..msg.lastSeq])
    ensures AckedUpTo(w'.h, id, msg.epoch, msg.lastSeq)
  {
    hide Inv, CommitInv, Grows, CommittedPrefix;
    var lead, k := w.h.reigns[msg.epoch].log, msg.lastSeq;
    SnapshotBound(m, w, src, msg);
    InstallAdopts(w, id, s, msg);
    var w2 := Accept(w, id, k, k);
    AcceptMove(true, w, id, k, k);
    CommittedGrown(w, w2, id, msg.epoch, lead, k);
    PrefixCommit(w2, msg.epoch, lead, w2.members[id].log, k, k);
    w' := SetCommit(w2, id, k);
    SetCommitMove(true, w2, id, k);
    MovedTwice(true, w, w2, w', id);
  }

  lemma SnapshotBound(m: Machine, w: World, src: Id, msg: Msg)
    requires msg.InstallSnapshot? && SnapshotOK(m, w, src, msg)
    ensures msg.lastSeq <= |w.h.reigns[msg.epoch].log|
  {
  }

  lemma CommittedGrown(w: World, w': World, id: Id, e: nat, log: seq<Entry>, c: nat)
    requires Moved(true, w, w', id) && CommittedPrefix(w, e, log, c) && c <= |log|
    ensures CommittedPrefix(w', e, log, c)
  {
    hide Inv, CommitInv, CommittedPrefix;
    CommittedPrefixGrows(w, w', e, e, log, log, c);
  }

  /** Storing an installed snapshot leaves nothing above it. */
  lemma InstallSaved(m: Machine, s': Node, disk: Disk, pre: seq<Action>, data: DbFile, to: Id, reply: Msg)
    requires s'.log == [] && forall a :: a in pre ==> !a.PersistLog?
    ensures var q := s'.baseSeq;
            Synced(Save(m, s', disk, pre + [ApplySnapshot(q, data), PersistMeta, PersistLog(q + 1), Send(to, reply)]), s')
  {
    var q := s'.baseSeq;
    var front := pre + [ApplySnapshot(q, data), PersistMeta];
    var actions := pre + [ApplySnapshot(q, data), PersistMeta, PersistLog(q + 1), Send(to, reply)];
    assert actions == front + [PersistLog(q + 1)] + [Send(to, reply)];
    assert PersistMeta in actions by { assert actions[|pre| + 1] == PersistMeta; }
    SaveMetaEffect(m, s', disk, actions);
    SaveOnce(m, s', disk, front, q + 1, [Send(to, reply)]);
    assert EntriesBelow(disk.log, q + 1) + EntriesFrom(s'.log, q + 1) == EntriesBelow(disk.log, q + 1);
    NothingBetween(disk.log, q + 1);
  }

  lemma InstallPaced(m: Machine, full: seq<Entry>, q: nat, data: DbFile, pre: seq<Action>, post: seq<Action>, k: nat)
    requires forall a :: a in pre ==> Idle(a)
    requires forall a :: a in post ==> Idle(a)
    requires k <= q <= |full| && data.db == Replay(m, full[..q])
    ensures Paced(m, full, q, pre + [ApplySnapshot(q, data)] + post, k, q)
  {
    assert [ApplySnapshot(q, data)][1..] == [];
    assert Paced(m, full, q, [ApplySnapshot(q, data)], k, q);
    AcceptedPaced(m, full, q, pre, [ApplySnapshot(q, data)], post, k, q);
  }

  lemma SnapshotGrows(m: Machine, w: World, w': World, id: Id, src: Id, msg: Msg)
    requires msg.InstallSnapshot? && SnapshotOK(m, w, src, msg) && Moved(true, w, w', id)
    ensures SnapshotOK(m, w', src, msg)
  {
    hide Inv, CommitInv, SnapshotOK;
    assert MsgOK(true, m, w, src, id, msg);
    MsgGrows(true, m, w, w', src, id, msg);
  }

  function InstallTail(from: Id, msg: Msg): seq<Action>
    requires msg.InstallSnapshot?
  {
    [PersistMeta, PersistLog(msg.lastSeq + 1), Send(from, AppendResp(msg.epoch, msg.lastSeq, true))]
  }

  lemma InstallIs(s: Node, from: Id, msg: Msg)
    requires msg.InstallSnapshot? && s.epoch <= msg.epoch && msg.lastSeq > s.applied
    ensures var f := Follow(s, from, msg.epoch);
            HandleSnapshot(s, from, msg)
              == Outcome(Installed(f.node, msg), f.actions + [ApplySnapshot(msg.lastSeq, msg.data)] + InstallTail(from, msg))
  {
    FollowDiscipline(s, from, msg.epoch);
    var f := Follow(s, from, msg.epoch);
    assert f.actions + [ApplySnapshot(msg.lastSeq, msg.data), PersistMeta, PersistLog(msg.lastSeq + 1), Send(from, AppendResp(msg.epoch, msg.lastSeq, true))]
        == f.actions + [ApplySnapshot(msg.lastSeq, msg.data)] + InstallTail(from, msg);
  }

  lemma InstallStored(m: Machine, s: Node, disk: Disk, from: Id, msg: Msg)
    requires msg.InstallSnapshot? && s.epoch <= msg.epoch && msg.lastSeq > s.applied
    ensures var r := HandleSnapshot(s, from, msg); Synced(Save(m, r.node, disk, r.actions), r.node)
  {
    hide Save, Synced, Follow;
    FollowDiscipline(s, from, msg.epoch);
    var r := HandleSnapshot(s, from, msg);
    InstallSaved(m, r.node, disk, Follow(s, from, msg.epoch).actions, msg.data, from,
        AppendResp(msg.epoch, msg.lastSeq, true));
  }

  lemma InstallSends(m: Machine, w': World, id: Id, s: Node, from: Id, msg: Msg)
    requires msg.InstallSnapshot? && s.epoch <= msg.epoch && msg.lastSeq > s.applied
    requires from in w'.members && from != id && msg.epoch in w'.h.reigns && AckedUpTo(w'.h, id, msg.epoch, msg.lastSeq)
    ensures SendsOK(true, m, w', id, HandleSnapshot(s, from, msg).actions)
  {
    hide SendsOK, Follow, HandleSnapshot;
    InstallIs(s, from, msg);
    FollowDiscipline(s, from, msg.epoch);
    var pre := Follow(s, from, msg.epoch).actions + [ApplySnapshot(msg.lastSeq, msg.data)];
    ReplyOK(true, m, w', id, from, msg.epoch, msg.lastSeq, true, pre + [PersistMeta, PersistLog(msg.lastSeq + 1)]);
    assert pre + InstallTail(from, msg)
        == pre + [PersistMeta, PersistLog(msg.lastSeq + 1)] + [Send(from, AppendResp(msg.epoch, msg.lastSeq, true))];
  }

  lemma InstallStrict(m: Machine, w1: World, w': World, id: Id, h: Host, from: Id, msg: Msg)
    requires msg.InstallSnapshot? && h.node.epoch <= msg.epoch && msg.lastSeq > h.node.applied
    requires Follows(true, w1, id, Follow(h.node, from, msg.epoch).node, msg.epoch) && id in w'.members
    requires FileOK(m, h.disk.file, w1.members[id].log, h.node.applied) && SnapshotOK(m, w1, from, msg)
    requires msg.lastSeq <= |w1.h.reigns[msg.epoch].log|
    requires w'.members[id].log == w1.h.reigns[msg.epoch].log[..msg.lastSeq]
          == Adopt(w1.members[id].log, w1.h.reigns[msg.epoch].log[..msg.lastSeq])
    ensures StrictTurn(m, w', id, h.disk.file, HandleSnapshot(h.node, from, msg), h.node.applied)
  {
    hide Follow, HandleSnapshot, Paced, Follows, FileOK, CommittedPrefix;
    InstallIs(h.node, from, msg);
    FollowDiscipline(h.node, from, msg.epoch);
    var full, q := w'.members[id].log, msg.lastSeq;
    var f := Follow(h.node, from, msg.epoch);
    ReceivedFile(m, w1, id, h, msg.epoch, q, f.node);
    assert full[..q] == full;
    InstallPaced(m, full, q, msg.data, f.actions, InstallTail(from, msg), h.node.applied);
    NoRows(w'.h, Installed(f.node, msg), full);
  }

  lemma InstallStep(m: Machine, group: seq<Id>, w: World, id: Id, h: Host, from: Id, sender: Option<Node>, msg: Msg)
    returns (w': World)
    requires Here(true, m, group, w, id, h) && msg.InstallSnapshot? && h.node.epoch <= msg.epoch && from in w.members
    requires from != id
    requires SnapshotOK(m, w, from, msg) && HarmlessSnapshot(h.node, sender, msg) && msg.lastSeq > h.node.applied
    ensures Answers(true, m, group, w, w', id, h, HandleSnapshot(h.node, from, msg))
  {
    hide Inv, CommitInv, CommittedPrefix, Grows, Follow, Save, SendsOK, Synced, Mirrors, FileOK, HandleSnapshot, StrictTurn;
    var s, e := h.node, msg.epoch;
    JoinFollows(true, m, group, w, id, h, from, e);
    FollowDiscipline(s, from, e);
    var w1, f := Join(w, id, from, e), Follow(s, from, e);
    SnapshotGrows(m, w, w1, id, from, msg);
    w' := InstallMove(m, w1, id, f.node, from, msg);
    MovedTwice(true, w, w1, w', id);
    InstallIs(s, from, msg);
    InstallStored(m, s, h.disk, from, msg);
    InstallSends(m, w', id, s, from, msg);
    InstallStrict(m, w1, w', id, h, from, msg);
  }

  lemma SnapshotStep(m: Machine, group: seq<Id>, w: World, id: Id, h: Host, from: Id, sender: Option<Node>, msg: Msg)
    returns (w': World)
    requires Here(true, m, group, w, id, h)
    requires msg.InstallSnapshot? && from in w.members && from != id && MsgOK(true, m, w, from, id, msg)
    requires SentBy(w, from, sender) && HarmlessSnapshot(h.node, sender, msg)
    ensures Answers(true, m, group, w, w', id, h, Handle(h.node, from, msg))
  {
    hide Inv, CommitInv, Grows, Answers, Follow, StrictHost, Mirrors, HarmlessSnapshot;
    if msg.epoch < h.node.epoch {
      w' := w;
      StaleStep(true, m, group, w, id, h, from);
    } else if msg.lastSeq <= h.node.applied {
      w' := OldSnapshotStep(m, group, w, id, h, from, sender, msg);
    } else {
      w' := InstallStep(m, group, w, id, h, from, sender, msg);
    }
  }
}
