/**
Facts about a single driver turn: what carrying out a list of actions does to
the disk and the network, and the write-ahead discipline of every handler.
*/
module Turns {
  import opened Options
  import opened Quorum
  import opened Cluster

  // ---------------------------------------------------------------- action lists

  predicate SameMeta(disk: Disk, s: Node) {
    disk.epoch == s.epoch && disk.votedFor == s.votedFor && disk.baseSeq == s.baseSeq && disk.baseEpoch == s.baseEpoch
  }

  lemma {:induction false} SaveConcat(m: Machine, s: Node, disk: Disk, a: seq<Action>, b: seq<Action>)
    ensures Save(m, s, disk, a + b) == Save(m, s, Save(m, s, disk, a), b)
    decreases |a|
  {
    if a == [] {
      assert a + b == b;
    } else {
      assert (a + b)[1..] == a[1..] + b;
      SaveConcat(m, s, SaveOne(m, s, disk, a[0]), a[1..], b);
    }
  }

  /** The disk ends with the node's epoch, vote and snapshot point if they were persisted, else unchanged. */
  lemma {:induction false} SaveMetaEffect(m: Machine, s: Node, disk: Disk, actions: seq<Action>)
    ensures PersistMeta in actions ==> SameMeta(Save(m, s, disk, actions), s)
    ensures SameMeta(disk, s) ==> SameMeta(Save(m, s, disk, actions), s)
    decreases |actions|
  {
    if actions != [] {
      SaveMetaEffect(m, s, SaveOne(m, s, disk, actions[0]), actions[1..]);
    }
  }

  predicate Persists(a: Action) {
    a.PersistMeta? || a.PersistLog?
  }

  lemma {:induction false} SaveKeepsLog(m: Machine, s: Node, disk: Disk, actions: seq<Action>)
    requires forall a :: a in actions ==> !a.PersistLog?
    ensures Save(m, s, disk, actions).log == disk.log
    decreases |actions|
  {
    if actions != [] {
      SaveKeepsLog(m, s, SaveOne(m, s, disk, actions[0]), actions[1..]);
    }
  }

  /** Every packet a turn sends was asked for by one of its actions. */
  ghost predicate AskedFor(s: Node, actions: seq<Action>, p: Packet) {
    && p.src == s.me
    && (Send(p.dst, p.msg) in actions
        || (NeedSnapshot(p.dst) in actions && p.msg.InstallSnapshot?))
  }

  lemma {:induction false} SendsAskedFor(m: Machine, s: Node, disk: Disk, actions: seq<Action>, p: Packet)
    requires p in Sends(m, s, disk, actions)
    ensures AskedFor(s, actions, p)
    decreases |actions|
  {
    if p !in SendOne(s, disk, actions[0]) {
      SendsAskedFor(m, s, SaveOne(m, s, disk, actions[0]), actions[1..], p);
    }
  }

  // ---------------------------------------------------------------- shapes of the action lists

  predicate Replicates(s: Node, a: Action) {
    a.NeedSnapshot? || (a.Send? && a.msg.Append? && a.msg.epoch == s.epoch)
  }

  lemma ReplicateShape(s: Node, next: seq<Progress>)
    requires AllPositive(next)
    ensures forall a :: a in Replicate(s, next) ==> Replicates(s, a)
  {
  }

  lemma SendEachShape(peers: seq<Id>, msg: Msg)
    ensures forall a :: a in SendEach(peers, msg) ==> a.Send? && a.msg == msg && a.to in peers
  {
  }

  lemma ApplyRangeShape(s: Node, lo: nat, hi: nat)
    ensures forall a :: a in ApplyRange(s, lo, hi) ==> a.Apply?
    decreases hi - lo
  {
  }

  lemma OthersShape(group: seq<Id>, me: Id)
    ensures forall x :: x in Others(group, me) <==> x in group && x != me
  {
  }

  lemma AdvanceCommitShape(s: Node)
    requires WellFormed(s)
    ensures forall a :: a in AdvanceCommit(s).actions ==> a.Apply? || Replicates(s, a)
    ensures WellFormed(AdvanceCommit(s).node)
    ensures AdvanceCommit(s).node == s.(commit := AdvanceCommit(s).node.commit, applied := AdvanceCommit(s).node.applied)
  {
    if s.role.Leader? {
      var point := ScanCommit(s, s.commit + 1, s.commit);
      var s' := s.(commit := point);
      ApplyRangeShape(s', s'.applied, s'.commit);
      var t := ApplyCommitted(s').node;
      ReplicateShape(t, t.role.next);
    }
  }

  // ---------------------------------------------------------------- elections

  /** Sends a granted vote. */
  predicate Grants(a: Action) {
    a.Send? && a.msg.VoteResp? && a.msg.granted
  }

  /** How one turn treats epoch, vote, candidacy and leadership. */
  ghost predicate VoteDiscipline(s: Node, ev: Event, r: Outcome) {
    && r.node.me == s.me && r.node.group == s.group
    && WellFormed(r.node)
    && r.node.epoch >= s.epoch
    && (r.node.epoch == s.epoch && s.votedFor.Some? ==> r.node.votedFor == s.votedFor)
    && (r.node.epoch != s.epoch || r.node.votedFor != s.votedFor ==> PersistMeta in r.actions)
    && (forall a :: a in r.actions && Grants(a) ==> a.msg.epoch == r.node.epoch && r.node.votedFor == Some(a.to))
    && (r.node.role.Candidate? ==> CandidacyKept(s, ev, r.node, r.node.role.votes))
    && (BecameLeader in r.actions ==>
          exists votes :: |votes| >= MajorityOf(s) && CandidacyKept(s, ev, r.node, votes))
  }

  /** The ballots a candidate counts after a turn: its own in a new epoch, or the old ones and maybe one delivered. */
  ghost predicate CandidacyKept(s: Node, ev: Event, s': Node, votes: seq<Id>) {
    || (s'.epoch == s.epoch + 1 && votes == [s.me] && s'.votedFor == Some(s.me))
    || (s'.epoch == s.epoch && s.role.Candidate? && votes == s.role.votes)
    || (s'.epoch == s.epoch && s.role.Candidate? && ev.Deliver? && ev.packet.msg == VoteResp(s.epoch, true)
        && ev.packet.src !in s.role.votes && votes == s.role.votes + [ev.packet.src])
  }

  lemma TryWinDiscipline(s: Node)
    requires WellFormed(s)
    ensures var r := TryWin(s);
            && r.node == s.(role := r.node.role)
            && (forall a :: a in r.actions ==> a.BecameLeader? || Replicates(s, a))
            && (BecameLeader in r.actions ==> s.role.Candidate? && |s.role.votes| >= MajorityOf(s))
            && (r.node.role.Candidate? ==> r.node == s)
  {
    if s.role.Candidate? && |s.role.votes| >= MajorityOf(s) {
      var t := TryWin(s).node;
      ReplicateShape(t, t.role.next);
    }
  }

  lemma NoWin(s: Node)
    requires WellFormed(s) && !s.role.Candidate?
    ensures TryWin(s) == Outcome(s, [])
  {
  }

  lemma TimeoutShape(s: Node)
    requires WellFormed(s) && !IsLeader(s)
    ensures var r := TickElection(s);
            && r.node == s.(epoch := s.epoch + 1, votedFor := Some(s.me), leader := None, role := r.node.role)
            && (r.node.role.Candidate? ==> r.node.role.votes == [s.me])
            && PersistMeta in r.actions
            && (forall a :: a in r.actions ==> a.PersistMeta? || a.BecameLeader? || (a.Send? && a.msg.VoteReq?) || Replicates(r.node, a))
            && (BecameLeader in r.actions ==> 1 >= MajorityOf(s))
  {
    hide TryWin, SendEach, Others;
    var s' := s.(epoch := s.epoch + 1, votedFor := Some(s.me), leader := None, role := Candidate([s.me]));
    TryWinDiscipline(s');
    var msg := VoteReq(s'.epoch, LastEpochOf(s), LastSeq(s));
    SendEachShape(Others(s.group, s.me), msg);
    var sent, won := SendEach(Others(s.group, s.me), msg), TryWin(s').actions;
    assert TickElection(s).actions == [PersistMeta] + sent + won;
    assert TickElection(s).actions[0] == PersistMeta;
  }

  lemma TimeoutDiscipline(s: Node, ev: Event)
    requires WellFormed(s) && ev.Timeout?
    ensures VoteDiscipline(s, ev, Turn(s, ev))
  {
    if !IsLeader(s) {
      TimeoutShape(s);
      assert CandidacyKept(s, ev, Turn(s, ev).node, [s.me]);
    }
  }

  lemma VoteRespDiscipline(s: Node, ev: Event)
    requires WellFormed(s) && ev.Deliver? && ev.packet.msg.VoteResp?
    ensures VoteDiscipline(s, ev, Turn(s, ev))
  {
    var m, from := ev.packet.msg, ev.packet.src;
    if m.epoch == s.epoch && m.granted {
      var s' := if s.role.Candidate? && from !in s.role.votes then s.(role := Candidate(s.role.votes + [from])) else s;
      TryWinDiscipline(s');
      var r := Turn(s, ev);
      if s'.role.Candidate? {
        assert CandidacyKept(s, ev, r.node, s'.role.votes);
      }
    }
  }

  lemma FollowDiscipline(s: Node, from: Id, epoch: nat)
    requires epoch >= s.epoch
    ensures var f := Follow(s, from, epoch);
            && f.node == s.(epoch := epoch, votedFor := f.node.votedFor, leader := Some(from), role := Follower)
            && f.node.votedFor.Some?
            && (epoch == s.epoch && s.votedFor.Some? ==> f.node.votedFor == s.votedFor)
            && (epoch != s.epoch || f.node.votedFor != s.votedFor ==> PersistMeta in f.actions)
            && (forall a :: a in f.actions ==> a.PersistMeta? || a.LostLeadership?)
  {
  }

  lemma AppendShape(s: Node, from: Id, m: Msg)
    requires m.Append? && m.epoch >= s.epoch
    ensures var r, f := HandleAppend(s, from, m), Follow(s, from, m.epoch);
            && r.node == f.node.(log := r.node.log, commit := r.node.commit, applied := r.node.applied)
            && f.actions <= r.actions
            && (forall a :: a in r.actions && a !in f.actions ==> a.PersistLog? || a.Apply? || (a.Send? && a.msg.AppendResp?))
  {
    var f := Follow(s, from, m.epoch);
    var s1 := f.node;
    if PrevOK(s1, m) {
      var merged := Merge(s1.baseSeq, Merged(s1.log, None), m.entries);
      var s2 := s1.(log := merged.log);
      var c := Min(m.commit, LastSeq(s2));
      ApplyRangeShape(s2.(commit := c), s2.applied, c);
    }
  }

  lemma AppendDiscipline(s: Node, ev: Event)
    requires WellFormed(s) && ev.Deliver? && ev.packet.msg.Append?
    ensures VoteDiscipline(s, ev, Turn(s, ev))
  {
    var m, from := ev.packet.msg, ev.packet.src;
    if m.epoch >= s.epoch {
      FollowDiscipline(s, from, m.epoch);
      AppendShape(s, from, m);
    }
  }

  lemma SnapshotDiscipline(s: Node, ev: Event)
    requires WellFormed(s) && ev.Deliver? && ev.packet.msg.InstallSnapshot?
    ensures VoteDiscipline(s, ev, Turn(s, ev))
  {
    hide Follow;
    var m, from := ev.packet.msg, ev.packet.src;
    if m.epoch >= s.epoch {
      FollowDiscipline(s, from, m.epoch);
      SnapshotShape(s, from, m);
      hide HandleSnapshot;
    }
  }

  lemma SnapshotShape(s: Node, from: Id, m: Msg)
    requires m.InstallSnapshot? && m.epoch >= s.epoch
    ensures var r, f := HandleSnapshot(s, from, m), Follow(s, from, m.epoch);
            && r.node == f.node.(log := r.node.log, baseSeq := r.node.baseSeq, baseEpoch := r.node.baseEpoch, commit := r.node.commit, applied := r.node.applied)
            && f.actions <= r.actions
            && (forall a :: a in r.actions && a !in f.actions ==> Persists(a) || a.ApplySnapshot? || (a.Send? && a.msg.AppendResp?))
  {
    hide Follow;
  }

  lemma AppendRespDiscipline(s: Node, ev: Event)
    requires WellFormed(s) && ev.Deliver? && ev.packet.msg.AppendResp?
    ensures VoteDiscipline(s, ev, Turn(s, ev))
  {
    var m, from := ev.packet.msg, ev.packet.src;
    if m.epoch == s.epoch && IsLeader(s) {
      if m.ok {
        RowsPositive(s.role.next, from, m.matchSeq + 1, 0);
        AdvanceCommitShape(s.(role := Leader(SetTo(s.role.next, from, m.matchSeq + 1),
            RaiseTo(s.role.matched, from, m.matchSeq))));
      } else {
        RowsPositive(s.role.next, from, m.matchSeq, s.baseSeq);
        var s' := s.(role := Leader(BackUpRow(s.role.next, from, s.baseSeq, m.matchSeq), s.role.matched));
        ReplicateShape(s', s'.role.next);
      }
    }
  }

  lemma LeaderDiscipline(s: Node, ev: Event)
    requires WellFormed(s) && (ev.Pulse? || ev.Client?)
    ensures VoteDiscipline(s, ev, Turn(s, ev))
  {
    if IsLeader(s) {
      ReplicateShape(s, s.role.next);
      if ev.Client? {
        var s' := s.(log := s.log + [Entry(s.epoch, LastSeq(s) + 1, ev.cmd)]);
        AdvanceCommitShape(s');
        ReplicateShape(s', s'.role.next);
      }
    }
  }

  lemma VoteReqDiscipline(s: Node, ev: Event)
    requires WellFormed(s) && ev.Deliver? && ev.packet.msg.VoteReq?
    ensures VoteDiscipline(s, ev, Turn(s, ev))
  {
  }

  /** Every turn, as written, keeps the rules an election rests on. */
  lemma TurnDiscipline(s: Node, ev: Event)
    requires WellFormed(s) && !ev.Shrink? && !ev.Crash?
    ensures VoteDiscipline(s, ev, Turn(s, ev))
  {
    match ev
    case Timeout(_) => TimeoutDiscipline(s, ev);
    case Pulse(_) => LeaderDiscipline(s, ev);
    case Client(_, _) => LeaderDiscipline(s, ev);
    case Deliver(p) =>
      match p.msg
      case VoteReq(_, _, _) => VoteReqDiscipline(s, ev);
      case VoteResp(_, _) => VoteRespDiscipline(s, ev);
      case Append(_, _, _, _, _) => AppendDiscipline(s, ev);
      case AppendResp(_, _, _) => AppendRespDiscipline(s, ev);
      case InstallSnapshot(_, _, _, _) => SnapshotDiscipline(s, ev);
  }
}
