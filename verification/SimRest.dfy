/** Compaction and restarts keep the simulation. */
module SimRest {
  import opened Options
  import opened Quorum
  import opened Collections
  import opened Groups
  import opened Cluster
  import opened Turns
  import opened Protocol
  import opened ProtocolSteps
  import opened Mirror
  import opened Storage
  import opened Simulation
  import opened SimMoves
  import opened SimLeader
  import opened SimAppend

  // ---------------------------------------------------------------- compaction

  /** Compacting the store and the node together keeps them equal. */
  lemma ShrinkSynced(h: Host, full: seq<Entry>, keepTail: nat)
    requires Synced(h.disk, h.node) && SuffixOf(h.node, full) && Numbered(full)
    requires h.node.baseSeq <= h.node.applied <= |full|
    ensures var h' := ShrinkHost(h, keepTail); Synced(h'.disk, h'.node)
  {
    hide EntriesFrom, Numbered;
    var s, s' := h.node, Compact(h.node, keepTail);
    CompactKeepsSuffix(s, full, keepTail);
    if s' != s {
      SuffixNumbered(s, full);
      FromFrom(h.disk.log, s.baseSeq + 1, s'.baseSeq + 1);
      FromFrom(h.disk.log, s'.baseSeq + 1, s'.baseSeq + 1);
      EntriesFromSuffix(s.log, s.baseSeq, s'.baseSeq + 1);
    }
  }

  /** Compaction drops only entries at or below the commit mark, so a settled leader stays settled. */
  lemma ShrinkSettled(s: Node, full: seq<Entry>, keepTail: nat)
    requires Settled(s) && SuffixOf(s, full) && Numbered(full) && s.baseSeq <= s.applied == s.commit <= |full|
    ensures Settled(Compact(s, keepTail))
  {
    var s' := Compact(s, keepTail);
    CompactKeepsSuffix(s, full, keepTail);
    ReadLast(s, full);
    ReadLast(s', full);
    if s'.role.Leader? {
      forall q | s'.commit < q <= LastSeq(s') && Replicas(s'.role.matched, q) >= MajorityOf(s')
        ensures !(EntryAt(s', q).Some? && EntryAt(s', q).value.epoch == s'.epoch)
      {
        ReadAt(s, full, q);
        ReadAt(s', full, q);
      }
    }
  }

  lemma ShrinkHostOK(m: Machine, group: seq<Id>, w: World, id: Id, h: Host, keepTail: nat)
    requires Here(true, m, group, w, id, h)
    ensures HostOK(true, m, group, w, id, ShrinkHost(h, keepTail))
  {
    hide Inv, CommitInv, CommittedPrefix, Settled, Synced, VoteBacked;
    var full := w.members[id].log;
    ReadMember(w, id, h.node);
    LaterCommit(w, w, id);
    CommitWithinLog(w, id);
    CompactKeepsSuffix(h.node, full, keepTail);
    ShrinkSynced(h, full, keepTail);
    ShrinkSettled(h.node, full, keepTail);
  }

  // ---------------------------------------------------------------- restart

  lemma ShorterPrefix(w: World, e: nat, log: seq<Entry>, c: nat, c': nat)
    requires CommittedPrefix(w, e, log, c) && c' <= c
    ensures CommittedPrefix(w, e, log, c')
  {
    if c' > 0 {
      var e1: nat, k1: nat :| CommitWitness(w, e, log, c, e1, k1);
      assert CommitWitness(w, e, log, c', e1, k1);
    }
  }

  lemma RestartLog(disk: Disk, s: Node)
    requires Synced(disk, s) && CleanDisk(disk)
    ensures disk.log == s.log
  {
    FromEverything(disk.log, s.baseSeq + 1);
  }

  /** Where the restarted node resumes. */
  function ResumeAt(h: Host): nat {
    Max(h.disk.file.marker, h.disk.baseSeq)
  }

  lemma StepDownMove(strict: bool, w: World, id: Id)
    requires Ready(strict, w, id)
    ensures Moved(strict, w, StepDown(w, id), id)
  {
    hide Inv, CommitInv;
    StepDownKeeps(w, id);
    SameLogMove(strict, w, StepDown(w, id), id);
  }

  lemma RestartMove(strict: bool, m: Machine, group: seq<Id>, w: World, id: Id, h: Host) returns (w': World)
    requires Here(strict, m, group, w, id, h) && CleanDisk(h.disk)
    ensures Moved(strict, w, w', id) && Mirrors(RestartHost(h, group).node, w'.members[id])
    ensures w'.members[id].log == w.members[id].log && w'.h == w.h && VoteBacked(w'.h, id, w'.members[id])
    ensures strict ==> FileOK(m, h.disk.file, w.members[id].log, ResumeAt(h))
  {
    hide Inv, CommitInv, CommittedPrefix, Grows, FileOK;
    var w1, c := StepDown(w, id), ResumeAt(h);
    StepDownMove(strict, w, id);
    RestartLog(h.disk, h.node);
    if strict {
      LaterCommit(w1, w1, id);
      RestartFile(m, h.disk.file, w.members[id].log, h.node.applied, h.node.baseSeq);
      ShorterPrefix(w1, w1.members[id].epoch, w1.members[id].log, w1.members[id].commit, c);
    }
    w' := SetCommit(w1, id, c);
    SetCommitMove(strict, w1, id, c);
    MovedTwice(strict, w, w1, w', id);
  }

  lemma RestartHostOK(strict: bool, m: Machine, group: seq<Id>, w: World, id: Id, h: Host) returns (w': World)
    requires Here(strict, m, group, w, id, h) && CleanDisk(h.disk)
    ensures Moved(strict, w, w', id) && HostOK(strict, m, group, w', id, RestartHost(h, group))
  {
    hide Inv, CommitInv, CommittedPrefix, Grows, FileOK, Mirrors, Sort, VoteBacked, RowsOK, Settled, EntriesFrom;
    w' := RestartMove(strict, m, group, w, id, h);
    var s' := RestartHost(h, group).node;
    RestartLog(h.disk, h.node);
    FromEverything(h.disk.log, h.disk.baseSeq + 1);
    NoRows(w'.h, s', w'.members[id].log);
  }
}
