/** Proposals keep the simulation. */
module SimClient {
  import opened Options
  import opened Quorum
  import opened Collections
  import opened Groups
  import opened Cluster
  import opened Turns
  import opened Protocol
  import opened ProtocolSteps
  import opened Mirror
  import opened Storage
  import opened Simulation
  import opened SimMoves
  import opened SimElections
  import opened SimLeader

  function Proposed(s: Node, cmd: Command): Node {
    s.(log := s.log + [Entry(s.epoch, LastSeq(s) + 1, cmd)])
  }

  lemma CreateMove(strict: bool, w: World, n: Id, cmd: Command)
    requires Ready(strict, w, n) && w.members[n].standing.Leading? && w.members[n].epoch in w.h.reigns
    ensures Moved(strict, w, Create(w, n, cmd), n)
  {
    hide Inv, CommitInv;
    CreateKeeps(w, n, cmd);
    CreateGrows(w, n, cmd);
    if strict {
      CreateKeepsCommit(w, n, cmd);
    }
  }

  lemma CreateMirrors(w: World, s: Node, cmd: Command)
    requires Inv(w) && s.me in w.members && s.role.Leader? && Mirrors(s, w.members[s.me]) && s.epoch in w.h.reigns
    ensures Mirrors(Proposed(s, cmd), Create(w, s.me, cmd).members[s.me])
  {
    hide Inv;
    ReadMember(w, s.me, s);
    var full := w.members[s.me].log;
    var e := Entry(s.epoch, |full| + 1, cmd);
    assert (full + [e])[s.baseSeq..] == full[s.baseSeq..] + [e];
  }

  lemma ProposedCanAdvance(strict: bool, m: Machine, group: seq<Id>, w: World, id: Id, h: Host, cmd: Command)
    requires Here(strict, m, group, w, id, h) && IsLeader(h.node)
    ensures id in w.members && h.node.me == id && h.node.epoch == w.members[id].epoch && h.node.epoch in w.h.reigns
    ensures Moved(strict, w, Create(w, id, cmd), id) && WellFormed(Proposed(h.node, cmd))
    ensures CanAdvance(strict, group, Create(w, id, cmd), Proposed(h.node, cmd))
    ensures VoteBacked(Create(w, id, cmd).h, id, Create(w, id, cmd).members[id])
  {
    hide Inv, CommitInv, CommittedPrefix, Sort, Settled, FileOK;
    var s := h.node;
    HostLeads(strict, m, group, w, id, h);
    LeadingMember(w, id);
    CreateMove(strict, w, id, cmd);
    CreateMirrors(w, s, cmd);
    var w1 := Create(w, id, cmd);
    if strict {
      LaterCommit(w, w1, id);
    }
  }

  // ---------------------------------------------------------------- what is sent

  lemma SendsGrow(strict: bool, m: Machine, w: World, w': World, id: Id, actions: seq<Action>)
    requires Grows(w.h, w'.h) && w'.members.Keys == w.members.Keys && SendsOK(strict, m, w, id, actions)
    requires LeadsReign(w', id)
    ensures SendsOK(strict, m, w', id, actions)
  {
    forall a | a in actions
      ensures SendOK(strict, m, w', id, a)
    {
      assert SendOK(strict, m, w, id, a);
      if a.Send? {
        MsgGrows(strict, m, w, w', id, a.to, a.msg);
      }
    }
  }

  lemma ProposeSends(strict: bool, m: Machine, group: seq<Id>, w1: World, s1: Node, q: nat)
    requires CanAdvance(strict, group, w1, s1)
    ensures SendsOK(strict, m, SetCommit(w1, s1.me, CommitNode(s1).commit), s1.me,
                    [PersistLog(q)] + ReplicateAll(s1) + AdvanceCommit(s1).actions)
  {
    hide Inv, CommitInv, CommittedPrefix, Replicate, MsgOK, AdvanceCommit, RowsOK, Settled, Sort;
    var w' := SetCommit(w1, s1.me, CommitNode(s1).commit);
    ReplicateAllOK(strict, m, w1, s1);
    LeadingMember(w1, s1.me);
    AdvanceMove(strict, group, w1, s1);
    SendsGrow(strict, m, w1, w', s1.me, ReplicateAll(s1));
    AdvanceSends(strict, m, group, w1, s1);
    ApplySends(strict, m, w', s1.me, [PersistLog(q)]);
    SendsConcat(strict, m, w', s1.me, [PersistLog(q)], ReplicateAll(s1));
    SendsConcat(strict, m, w', s1.me, [PersistLog(q)] + ReplicateAll(s1), AdvanceCommit(s1).actions);
  }

  // ---------------------------------------------------------------- what is stored

  /** A list that persists the log once. */
  lemma SaveOnce(m: Machine, s: Node, disk: Disk, pre: seq<Action>, q: nat, post: seq<Action>)
    requires forall a :: a in pre ==> !a.PersistLog?
    requires forall a :: a in post ==> !a.PersistLog?
    ensures Save(m, s, disk, pre + [PersistLog(q)] + post).log == SaveLog(disk, s, q).log
  {
    var d1 := Save(m, s, disk, pre);
    SaveConcat(m, s, disk, pre + [PersistLog(q)], post);
    SaveConcat(m, s, disk, pre, [PersistLog(q)]);
    SaveKeepsLog(m, s, disk, pre);
    assert Save(m, s, d1, [PersistLog(q)]) == SaveLog(d1, s, q);
    SaveKeepsLog(m, s, SaveLog(d1, s, q), post);
  }

  lemma ProposeSaved(m: Machine, full: seq<Entry>, s: Node, cmd: Command, disk: Disk)
    requires WellFormed(s) && IsLeader(s) && Synced(disk, s) && SuffixOf(s, full) && Numbered(full)
    ensures var r := Propose(s, cmd); Synced(Save(m, r.node, disk, r.actions), r.node)
  {
    hide Save, AdvanceCommit, Replicate;
    var r := Propose(s, cmd);
    var s1 := Proposed(s, cmd);
    var q := LastSeq(s) + 1;
    ReadLast(s, full);
    AdvanceCommitShape(s1);
    ReplicateShape(s1, s1.role.next);
    var post := ReplicateAll(s1) + AdvanceCommit(s1).actions;
    assert r.actions == [] + [PersistLog(q)] + post;
    SaveOnce(m, r.node, disk, [], q, post);
    SaveMetaEffect(m, r.node, disk, r.actions);
    assert r.node.log[..|s.log|] == s.log[..|s.log|];
    SaveLogStores(disk, s.baseSeq, s.log, r.node, q);
  }

  // ---------------------------------------------------------------- no early commit

  lemma {:induction false} NobodyReached(matched: seq<Progress>, q: nat)
    requires forall i :: 0 <= i < |matched| ==> matched[i].at < q
    ensures CountReached(matched, q) == 0
  {
    if matched != [] {
      NobodyReached(matched[1..], q);
    }
  }

  /** With truthful acknowledgements and a majority above one, a proposal commits nothing by itself. */
  lemma NoEarlyCommit(m: Machine, group: seq<Id>, w: World, id: Id, h: Host, cmd: Command)
    requires Here(true, m, group, w, id, h) && IsLeader(h.node) && MajorityOf(h.node) > 1
    ensures CommitNode(Proposed(h.node, cmd)).commit == h.node.commit
  {
    hide Inv, CommitInv, CommittedPrefix, FileOK, Sort, VoteBacked, Synced, CountReached, ScanCommit;
    var s, s1 := h.node, Proposed(h.node, cmd);
    var full := w.members[id].log;
    ReadMember(w, id, s);
    LeadingMember(w, id);
    ScanCommitMeaning(s1, s1.commit + 1, s1.commit);
    var r := CommitNode(s1).commit;
    assert r <= |full| ==> EntryAt(s1, r) == EntryAt(s, r);
    if r == |full| + 1 {
      forall i | 0 <= i < |s.role.matched|
        ensures s.role.matched[i].at < r
      {
        AckBounded(w, s.role.matched[i].id, s.epoch, s.role.matched[i].at);
      }
      NobodyReached(s.role.matched, r);
    }
  }

  lemma SoloGroup(s: Node)
    requires MajorityOf(s) <= 1 && s.me in s.group
    ensures Others(s.group, s.me) == []
  {
    assert s.group == [s.me];
  }

  /** A snapshot asked for by a proposal is captured where it is declared: nothing is applied after it. */
  lemma ProposeReplicatesPaced(m: Machine, group: seq<Id>, w: World, id: Id, h: Host, cmd: Command, log: seq<Entry>)
    requires Here(true, m, group, w, id, h) && IsLeader(h.node)
    requires WellFormed(Proposed(h.node, cmd))
    ensures var s1 := Proposed(h.node, cmd);
            Paced(m, log, Max(h.node.applied, CommitNode(s1).commit), [PersistLog(LastSeq(h.node) + 1)] + ReplicateAll(s1), h.node.applied, h.node.applied)
  {
    hide Inv, CommitInv, CommittedPrefix, Grows, Sort, Settled, RowsOK, Replicate, Paced, FileOK;
    var s, s1 := h.node, Proposed(h.node, cmd);
    var pre := [PersistLog(LastSeq(s) + 1)] + ReplicateAll(s1);
    if MajorityOf(s) > 1 {
      NoEarlyCommit(m, group, w, id, h, cmd);
      ReplicateShape(s1, s1.role.next);
      IdlePaced(m, log, s.applied, pre, s.applied);
    } else {
      SortedGroup(group);
      SoloGroup(s);
      SoloSends(s1);
      IdlePaced(m, log, Max(s.applied, CommitNode(s1).commit), pre, s.applied);
    }
  }

  lemma ProposePaced(m: Machine, group: seq<Id>, w: World, id: Id, h: Host, cmd: Command)
    requires Here(true, m, group, w, id, h) && IsLeader(h.node)
    ensures var r, t := Propose(h.node, cmd), CommitNode(Proposed(h.node, cmd));
            && id in w.members && h.node.epoch in w.h.reigns
            && r.node == t && h.node.applied <= t.commit == t.applied
            && Paced(m, Create(w, id, cmd).members[id].log, t.applied, r.actions, h.node.applied, t.applied)
  {
    hide Inv, CommitInv, CommittedPrefix, Grows, Sort, Settled, RowsOK, Replicate, AdvanceCommit, Paced, FileOK, Mirrors, ReplicateAll,
      CanAdvance, HostOK, Moved, LeadsIn, ApplyRange, ScanCommit;
    var s, s1 := h.node, Proposed(h.node, cmd);
    ProposedCanAdvance(true, m, group, w, id, h, cmd);
    assert WellFormed(s) by { assert WellFormed(s1); }
    var r, t := Propose(s, cmd), CommitNode(s1);
    var log := Create(w, id, cmd).members[id].log;
    AdvancePaced(m, group, Create(w, id, cmd), s1);
    AdvanceIsNode(s1);
    ProposeReplicatesPaced(m, group, w, id, h, cmd, log);
    PacedConcat(m, log, t.applied, [PersistLog(LastSeq(s) + 1)] + ReplicateAll(s1), AdvanceCommit(s1).actions,
        s.applied, s.applied, t.applied);
  }

  lemma SoloSends(s: Node)
    requires WellFormed(s) && s.role.Leader? && RowsFor(s.role.next, [])
    ensures ReplicateAll(s) == []
  {
  }

  lemma ClientStep(strict: bool, m: Machine, group: seq<Id>, w: World, id: Id, h: Host, cmd: Command)
    returns (w': World)
    requires Here(strict, m, group, w, id, h)
    ensures Answers(strict, m, group, w, w', id, h, Propose(h.node, cmd))
  {
    hide Inv, CommitInv, CommittedPrefix, Grows, Sort, Settled, RowsOK, Replicate, AdvanceCommit, Paced, Save, SendsOK, GroupOK;
    if IsLeader(h.node) {
      var s, s1 := h.node, Proposed(h.node, cmd);
      ProposedCanAdvance(strict, m, group, w, id, h, cmd);
      var w1 := Create(w, id, cmd);
      w' := SetCommit(w1, id, CommitNode(s1).commit);
      AdvanceMove(strict, group, w1, s1);
      AdvanceIsNode(s1);
      MovedTwice(strict, w, w1, w', id);
      ProposeSends(strict, m, group, w1, s1, LastSeq(s) + 1);
      ReadMember(w, id, s);
      ProposeSaved(m, w.members[id].log, s, cmd, h.disk);
      if strict {
        ProposePaced(m, group, w, id, h, cmd);
        FileExtends(m, w, id, h, cmd);
      }
    } else {
      w' := w;
      NothingStep(strict, m, group, w, id, h);
    }
  }

  lemma FileExtends(m: Machine, w: World, id: Id, h: Host, cmd: Command)
    requires id in w.members && w.members[id].epoch in w.h.reigns
    requires FileOK(m, h.disk.file, w.members[id].log, h.node.applied)
    ensures FileOK(m, h.disk.file, Create(w, id, cmd).members[id].log, h.node.applied)
  {
    FileAgrees(m, h.disk.file, w.members[id].log, Create(w, id, cmd).members[id].log, h.node.applied);
  }
}
