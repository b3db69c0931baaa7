/**
What is on disk when.

Every turn stores the epoch, the vote and the log before the first message that
depends on them leaves the node.  A restart loads what was stored; it is the
node's log exactly when no stored entry lies at or below the snapshot point, and
installing a snapshot breaks that exactly when anything was stored before.
*/
module Durability {
  import opened Options
  import opened Quorum
  import opened Cluster
  import opened Turns
  import opened Protocol
  import opened Mirror
  import opened Storage
  import opened Simulation
  import opened SimMoves
  import opened SimClient
  import opened SimRest
  import opened SimAppend
  import opened SimSnapshot
  import opened Guards
  import opened LogShape

  // ---------------------------------------------------------------- write-ahead

  /** The action makes the node speak to others. */
  predicate Speaks(a: Action) {
    a.Send? || a.NeedSnapshot?
  }

  /** Nothing is stored after the first message. */
  ghost predicate PersistsFirst(actions: seq<Action>) {
    forall i, j :: 0 <= i < j < |actions| && Speaks(actions[i]) ==> !Persists(actions[j])
  }

  lemma QuietThenLoud(pre: seq<Action>, post: seq<Action>)
    requires forall a :: a in pre ==> !Speaks(a)
    requires forall a :: a in post ==> !Persists(a)
    ensures PersistsFirst(pre + post)
  {
    var actions := pre + post;
    forall i, j | 0 <= i < j < |actions| && Speaks(actions[i])
      ensures !Persists(actions[j])
    {
      assert actions[i] !in pre;
      assert actions[j] == post[j - |pre|];
    }
  }

  lemma TimeoutPersists(s: Node)
    requires WellFormed(s)
    ensures PersistsFirst(TickElection(s).actions)
  {
    if !IsLeader(s) {
      var s' := s.(epoch := s.epoch + 1, votedFor := Some(s.me), leader := None, role := Candidate([s.me]));
      var asks := SendEach(Others(s.group, s.me), VoteReq(s'.epoch, LastEpochOf(s), LastSeq(s)));
      SendEachShape(Others(s.group, s.me), VoteReq(s'.epoch, LastEpochOf(s), LastSeq(s)));
      WinSpeaks(s');
      QuietThenLoud([PersistMeta], asks + TryWin(s').actions);
      assert [PersistMeta] + asks + TryWin(s').actions == [PersistMeta] + (asks + TryWin(s').actions);
    }
  }

  lemma WinSpeaks(s: Node)
    requires WellFormed(s)
    ensures forall a :: a in TryWin(s).actions ==> !Persists(a)
  {
    hide Replicate;
    var r := TryWin(s);
    if r.node.role.Leader? && s.role.Candidate? {
      ReplicateShape(r.node, r.node.role.next);
    }
  }

  lemma ProposePersists(s: Node, cmd: Command)
    requires WellFormed(s)
    ensures PersistsFirst(Propose(s, cmd).actions)
  {
    hide Replicate;
    if IsLeader(s) {
      var q := LastSeq(s) + 1;
      var s' := s.(log := s.log + [Entry(s.epoch, q, cmd)]);
      ReplicateShape(s', s'.role.next);
      AdvanceCommitShape(s');
      QuietThenLoud([PersistLog(q)], ReplicateAll(s') + AdvanceCommit(s').actions);
      assert [PersistLog(q)] + ReplicateAll(s') + AdvanceCommit(s').actions
          == [PersistLog(q)] + (ReplicateAll(s') + AdvanceCommit(s').actions);
    }
  }

  lemma AppendPersists(s: Node, from: Id, msg: Msg)
    requires msg.Append?
    ensures PersistsFirst(HandleAppend(s, from, msg).actions)
  {
    hide Merge, Follow, ApplyRange, PrevOK;
    if msg.epoch >= s.epoch {
      FollowDiscipline(s, from, msg.epoch);
      var f := Follow(s, from, msg.epoch);
      if PrevOK(f.node, msg) {
        AcceptPersists(s, from, msg);
      } else {
        PrevZero(f.node, msg);
        var hint := Max(Min(LastSeq(f.node), msg.prevSeq - 1), f.node.baseSeq);
        QuietThenLoud(f.actions, [Send(from, AppendResp(f.node.epoch, hint, false))]);
      }
    }
  }

  lemma AcceptPersists(s: Node, from: Id, msg: Msg)
    requires msg.Append? && msg.epoch >= s.epoch && PrevOK(Follow(s, from, msg.epoch).node, msg)
    ensures PersistsFirst(HandleAppend(s, from, msg).actions)
  {
    hide Merge, Follow, ApplyRange, PrevOK, HandleAppend, PersistsFirst;
    FollowDiscipline(s, from, msg.epoch);
    AcceptedIs(s, from, msg);
    var f := Follow(s, from, msg.epoch);
    var s2 := Received(f.node, msg);
    var g := Merge(f.node.baseSeq, Merged(f.node.log, None), msg.entries);
    var persist := if g.from.Some? then [PersistLog(g.from.value)] else [];
    ApplyRangeShape(s2, s2.applied, Min(msg.commit, LastSeq(s2)));
    QuietThenLoud(f.actions + persist + Applied(s2, msg), [Send(from, AppendResp(f.node.epoch, LastSeq(s2), true))]);
  }

  lemma SnapshotPersists(s: Node, from: Id, msg: Msg)
    requires msg.InstallSnapshot?
    ensures PersistsFirst(HandleSnapshot(s, from, msg).actions)
  {
    hide Follow;
    if msg.epoch >= s.epoch {
      FollowDiscipline(s, from, msg.epoch);
      var f := Follow(s, from, msg.epoch);
      if msg.lastSeq <= f.node.applied {
        QuietThenLoud(f.actions, [Send(from, AppendResp(f.node.epoch, LastSeq(f.node), true))]);
      } else {
        var pre := f.actions + [ApplySnapshot(msg.lastSeq, msg.data), PersistMeta, PersistLog(msg.lastSeq + 1)];
        var reply := Send(from, AppendResp(f.node.epoch, msg.lastSeq, true));
        QuietThenLoud(pre, [reply]);
        assert pre + [reply] == f.actions + [ApplySnapshot(msg.lastSeq, msg.data), PersistMeta, PersistLog(msg.lastSeq + 1), reply];
      }
    }
  }

  lemma NothingStored(actions: seq<Action>)
    requires forall a :: a in actions ==> !Persists(a)
    ensures PersistsFirst(actions)
  {
  }

  lemma FollowerPersists(s: Node, epoch: nat)
    ensures PersistsFirst(BecomeFollower(s, epoch).actions)
  {
  }

  lemma AnswerPersists(s: Node, from: Id, msg: Msg)
    requires WellFormed(s) && (msg.VoteResp? || msg.AppendResp?)
    ensures PersistsFirst(Handle(s, from, msg).actions)
  {
    hide PersistsFirst, AdvanceCommit, BecomeFollower, Replicate;
    FollowerPersists(s, msg.epoch);
    var r := Handle(s, from, msg);
    if msg.epoch <= s.epoch {
      if msg.VoteResp? {
        WinSpeaks(s);
        WinSpeaks(s.(role := if s.role.Candidate? then Candidate(s.role.votes + [from]) else s.role));
      } else if IsLeader(s) {
        if msg.ok {
          RowsPositive(s.role.next, from, msg.matchSeq + 1, 0);
          AdvanceCommitShape(s.(role := Leader(SetTo(s.role.next, from, msg.matchSeq + 1),
              RaiseTo(s.role.matched, from, msg.matchSeq))));
        } else {
          RowsPositive(s.role.next, from, msg.matchSeq, s.baseSeq);
          ReplicateShape(s.(role := Leader(BackUpRow(s.role.next, from, s.baseSeq, msg.matchSeq), s.role.matched)),
            BackUpRow(s.role.next, from, s.baseSeq, msg.matchSeq));
        }
      }
      NothingStored(r.actions);
    }
  }

  lemma VoteReqPersists(s: Node, from: Id, msg: Msg)
    requires msg.VoteReq?
    ensures PersistsFirst(HandleVoteReq(s, from, msg).actions)
  {
  }

  /** Write-ahead order, for every node and every event: nothing is stored after the first message. */
  lemma TurnPersistsFirst(s: Node, ev: Event)
    requires WellFormed(s) && !ev.Shrink? && !ev.Crash?
    ensures PersistsFirst(Turn(s, ev).actions)
  {
    hide PersistsFirst, TickElection, Propose, HandleVoteReq, HandleVoteResp, HandleAppend, HandleAppendResp,
      HandleSnapshot, Replicate;
    match ev
    case Timeout(_) => TimeoutPersists(s);
    case Pulse(_) =>
      if IsLeader(s) {
        ReplicateShape(s, s.role.next);
      }
      NothingStored(Heartbeat(s).actions);
    case Client(_, cmd) => ProposePersists(s, cmd);
    case Deliver(p) =>
      match p.msg {
        case VoteReq(_, _, _) => VoteReqPersists(s, p.src, p.msg);
        case VoteResp(_, _) => AnswerPersists(s, p.src, p.msg);
        case Append(_, _, _, _, _) => AppendPersists(s, p.src, p.msg);
        case AppendResp(_, _, _) => AnswerPersists(s, p.src, p.msg);
        case InstallSnapshot(_, _, _, _) => SnapshotPersists(s, p.src, p.msg);
      }
  }

  lemma {:induction false} UnstoredTail(m: Machine, s: Node, disk: Disk, actions: seq<Action>)
    requires forall a :: a in actions ==> !Persists(a)
    ensures var d := Save(m, s, disk, actions);
            d == disk.(file := d.file)
    decreases |actions|
  {
    if actions != [] {
      assert actions[0] in actions;
      UnstoredTail(m, s, SaveOne(m, s, disk, actions[0]), actions[1..]);
    }
  }

  /**
  Write-ahead over whole runs, whatever is acknowledged: whenever a node speaks,
  its epoch, its vote, its snapshot point and its whole log are already on disk.
  */
  lemma StoredBeforeSpeaking(m: Machine, group: seq<Id>, cs: seq<Cluster>, evs: seq<Event>, i: nat)
    requires CleanRun(m, group, cs, evs) && evs != []
    requires var ev := evs[|evs| - 1]; !ev.Shrink? && !ev.Crash?
    requires var ev, c := evs[|evs| - 1], cs[|evs| - 1];
             && Enabled(c, ev) && WellFormed(c.hosts[Actor(ev)].node)
             && var r := Turn(c.hosts[Actor(ev)].node, ev);
             i < |r.actions| && Speaks(r.actions[i])
    ensures var ev, c := evs[|evs| - 1], cs[|evs| - 1];
            var h := c.hosts[Actor(ev)];
            var r := Turn(h.node, ev);
            Synced(Save(m, r.node, h.disk, r.actions[..i]), r.node)
  {
    hide Turn, Save, Synced, PersistsFirst, Contiguous, CleanRestart, NumberedFrom;
    RunShape(m, group, cs, evs);
    RunPrefix(m, group, cs, evs);
    var ev, c, c' := evs[|evs| - 1], cs[|evs| - 1], cs[|evs|];
    var h := c.hosts[Actor(ev)];
    var r := Turn(h.node, ev);
    assert HostShape(c'.hosts[Actor(ev)]);
    TurnPersistsFirst(h.node, ev);
    TailQuiet(r.actions, i);
    assert r.actions == r.actions[..i] + r.actions[i..];
    SaveConcat(m, r.node, h.disk, r.actions[..i], r.actions[i..]);
    UnstoredTail(m, r.node, Save(m, r.node, h.disk, r.actions[..i]), r.actions[i..]);
    SyncedApartFromFile(Save(m, r.node, h.disk, r.actions[..i]), Save(m, r.node, h.disk, r.actions), r.node);
  }

  lemma SyncedApartFromFile(d: Disk, d': Disk, s: Node)
    requires Synced(d', s) && d' == d.(file := d'.file)
    ensures Synced(d, s)
  {
  }

  lemma TailQuiet(actions: seq<Action>, i: nat)
    requires PersistsFirst(actions) && i < |actions| && Speaks(actions[i])
    ensures forall a :: a in actions[i..] ==> !Persists(a)
  {
    forall a | a in actions[i..]
      ensures !Persists(a)
    {
      var j :| 0 <= j < |actions[i..]| && actions[i..][j] == a;
      assert actions[i + j] == a;
    }
  }

  // ---------------------------------------------------------------- restart

  /** A restart finds the node's log if and only if nothing stale is stored at or below the snapshot point. */
  lemma RestartExactlyWhenClean(h: Host, group: seq<Id>)
    requires Synced(h.disk, h.node) && NumberedFrom(h.node.baseSeq, h.node.log)
    ensures RestartHost(h, group).node.log == h.node.log <==> CleanDisk(h.disk)
  {
    if CleanDisk(h.disk) {
      RestartLog(h.disk, h.node);
    }
  }

  lemma {:induction false} BelowElements(log: seq<Entry>, q: nat)
    ensures forall e :: e in EntriesBelow(log, q) <==> e in log && e.seqno < q
    decreases |log|
  {
    if log != [] {
      BelowElements(log[1..], q);
      assert log == [log[0]] + log[1..];
    }
  }

  lemma InstalledDisk(m: Machine, s: Node, disk: Disk, from: Id, msg: Msg)
    requires msg.InstallSnapshot? && s.epoch <= msg.epoch && msg.lastSeq > s.applied
    ensures var r := HandleSnapshot(s, from, msg);
            var d := Save(m, r.node, disk, r.actions);
            d.log == EntriesBelow(disk.log, msg.lastSeq + 1) && d.baseSeq == msg.lastSeq
  {
    hide Follow, Save, HandleSnapshot, Synced;
    InstallIs(s, from, msg);
    FollowDiscipline(s, from, msg.epoch);
    var r := HandleSnapshot(s, from, msg);
    var front := Follow(s, from, msg.epoch).actions + [ApplySnapshot(msg.lastSeq, msg.data), PersistMeta];
    var reply := Send(from, AppendResp(msg.epoch, msg.lastSeq, true));
    assert r.actions == front + [PersistLog(msg.lastSeq + 1)] + [reply];
    SaveOnce(m, r.node, disk, front, msg.lastSeq + 1, [reply]);
    assert EntriesBelow(disk.log, msg.lastSeq + 1) + EntriesFrom([], msg.lastSeq + 1) == EntriesBelow(disk.log, msg.lastSeq + 1);
    assert PersistMeta in r.actions by { assert r.actions[|front| - 1] == PersistMeta; }
    SaveMetaEffect(m, r.node, disk, r.actions);
  }

  /** After installing a snapshot the store is fit for a restart if and only if nothing had been stored. */
  lemma InstallCleanExactlyWhenEmpty(m: Machine, s: Node, disk: Disk, from: Id, msg: Msg)
    requires Synced(disk, s) && NumberedFrom(s.baseSeq, s.log) && s.baseSeq <= s.applied
    requires msg.InstallSnapshot? && s.epoch <= msg.epoch && msg.lastSeq > s.applied
    ensures var r := HandleSnapshot(s, from, msg); CleanDisk(Save(m, r.node, disk, r.actions)) <==> disk.log == []
  {
    hide HandleSnapshot, Save;
    InstalledDisk(m, s, disk, from, msg);
    BelowElements(disk.log, msg.lastSeq + 1);
    if disk.log != [] {
      var e := LowEntry(disk, s);
    }
  }

  lemma LowEntry(disk: Disk, s: Node) returns (e: Entry)
    requires Synced(disk, s) && NumberedFrom(s.baseSeq, s.log) && disk.log != []
    ensures e in disk.log && e.seqno <= s.baseSeq + 1
  {
    if x :| x in disk.log && x.seqno <= s.baseSeq {
      e := x;
    } else {
      FromEverything(disk.log, s.baseSeq + 1);
      e := disk.log[0];
    }
  }
}
